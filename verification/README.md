# A verified model of the VPN shop

Dafny models and proofs for the four parts of the bot that keep state or transform data:

1. **`vpnctl`**, the client manager on the VPN host. Its database is text: `awg1.conf`, one `.peer` and one
   `.conf` file per client, and the live interface. `ConfText*` parse and print that text, `Vpnctl` gives each
   command as a plan of writes, `VpnctlHost` is the program as it runs, one write after another, any of which
   may raise, and the other `Vpnctl*` files prove that text and commands behave as a map of clients does.
2. **The order, subscription and job-queue protocol** of the bot, the scheduler, the workers and the admin.
   `Store` gives every transaction as a function on one state; `Sessions`, `Repositories`, `Engine`, `Scheduler`
   and `Handlers` are the program's classes and loops, proved to do what those functions say; `Protocol*` and
   `Reminders` prove invariants and theorems over every interleaving.
3. **The `vpn://` codec** (`Codec`): URL-safe Base64 without padding (RFC 4648, sections 5 and 3.2) around a
   length header and a zlib stream, in the bot's copy and in `vpnctl`'s.
4. **The throttle table** (`Throttle`), pruned, against one that never is.

What the functions of the model compute is also said from outside, without their helpers and with the constants written
out: `ConfTextGrammar` (lines as texts), `VpnctlReplies` (when each command succeeds), `VpnctlFaults` (what a stopped
command leaves), `CodecFormat` (the key on the wire), `ProtocolTurns` (how a turn ends), `ProtocolTerms` (what an order, a
renewal and an extension give) and `ProtocolCauses` (why a job is queued).

`Provisioning` and `Deployment` join the first two: a worker's call is a command on the host's text, and what is proved
of the peers in the protocol holds, over whole runs, of the blocks in `awg1.conf` and of the live interface.

`dafny verify dfyconfig.toml` checks everything.

## How the state is modelled

- Text is a sequence of characters whose only line break is `'\n'`. A *view* of a section is what the program
  can see of it (header, name, keys, addresses, and its text up to trailing newlines). The refinement is on views.
- The names of clients are 1 to 64 characters of `[a-zA-Z0-9_-]`; keys and addresses are words (no white space).
- `ipaddress`, zlib and UTF-8 are parameters. What is assumed of them is `ConfText.Lawful` (a host that a subnet lists,
  printed with `/32`, is a word without a comma that parses back) and `Codec.Inverse` (on the config at hand, each
  reader undoes its writer).
- Times are microseconds. Row ids come from a counter, since the program's UUIDs are never drawn twice.
- Three fields are history, which the program does not keep: `World.grants` (days granted and lapsed time
  skipped), `Job.firstFailedAt`, and `Session.grants`, which mirrors the first.
- A transaction is one step, except that claiming is one step per job, with a clock reading of the past, and a
  worker's batch is one step per job.
- How an outside call goes (it works, and a message is delivered or not; it fails with no effect, for good or not;
  it works and something breaks after it) is a parameter of the step. So are fresh keys, the text of a client's own
  config, and which write of a command raises.

## What is assumed of runs

`Protocol.Allowed` says it exactly: the clock does not go back; a claim uses a clock reading of the past; a worker
marks only a job it holds, within its five-minute lease; a receipt is sent only while it is awaited. What is proved of
the database holds over all allowed runs. `Protocol.Legal` adds that nothing breaks after a provisioner call that took
effect; only what is proved of the peers of active subscriptions (`ActiveIsServed`, `ExtendingRestores`,
`RenewingRestores` and `Deployment`) rests on that. The assumption on receipts is needed because `submit_receipt` does
not look at the order's status: `ProtocolOrders.LateReceiptTakesEffectTwice` says exactly when a late receipt lets an
order take effect twice, `RenewalIsReached` reaches such a state, and `ProtocolTheorems.LateReceiptReopens` is about
rejected orders. `Engine.BatchIsAllowed` shows when a batch meets the lease assumption.

For `vpnctl`, `VpnctlRefinement.Sound` asks of a create for fresh keys, and that a name without a client config has no
block, in the config or saved (a block that was added by hand without a `.conf` would get a second one of its name); and
of every command for a disk on which it does not stop half-way. `WellKept` asks of the disk that names and keys are
unique, and that every saved file is one block that matches the block in the config, if there is one.
`Deployment` has one host for each server, takes different subscriptions to have different labels
(`Provisioning.Distinct`), and a call that does not reach its host to fail (`Deployment.ShopLegal`). Of commands it asks
only for fresh keys: the rest of `Sound` is `ShopCommandIsSound`.

## Where code and documentation differ

- `docs/VPNCTL.md:58` says the bot never re-enables expired clients. Renewals and `/extend` do
  (`src/app/db/repositories/order_repo.py:205-218`, `src/app/bot/handlers/admin.py:590-599`). The model follows the code.
- The same line says that `enable-peer` refuses if the address is taken. It looks at the first address of the
  saved block only: `VpnctlAddresses.EnableKeepsApart` gives the exact condition and `EnableCanShare` an input.

## Model

| member | source | states |
|---|---|---|
| `ConfText.SplitSections` | scripts/provisioner/vpnctl:214-226 | the section loop returns the grouping of the text's lines, without an empty preamble |
| `ConfTextProofs.GroupParsed` | scripts/provisioner/vpnctl:214-226 | for all lines, grouping loses no line, and every section but the first begins with its only header line |
| `ConfTextProofs.GroupFlat` | scripts/provisioner/vpnctl:214-226 | sections of that shape, written out as lines and grouped again, come back unchanged |
| `ConfTextProofs.LinesJoin` | scripts/provisioner/vpnctl:219-219 | joined lines split into the same lines again |
| `ConfTextProofs.WithoutPeerSections` | scripts/provisioner/vpnctl:261-264 | the text without a peer parses to exactly the other sections: printing what is kept merges and splits nothing |
| `ConfTextProofs.TextNewline` | scripts/provisioner/vpnctl:369-369 | a newline at the end of any text changes no view of any section |
| `ConfTextProofs.AppendViews` | scripts/provisioner/vpnctl:369-369 | stripping a text's newlines and appending a block adds that block's view and leaves every other view alone |
| `ConfTextProofs.SavedSection` | scripts/provisioner/vpnctl:387-389 | a peer's section saved to its own file, trailing newlines made one, is one block that reads as the section did |
| `ConfTextRender.KeyLine` | scripts/provisioner/vpnctl:236-242 | the line `key = value` gives its key that value, for every one-word key and value |
| `ConfTextRender.RenderedBlock` | scripts/provisioner/vpnctl:341-347 | the block that create writes parses back to the name, keys and address it was made from |
| `ConfTextGrammar.NameCharacters` | scripts/provisioner/vpnctl:47-47 | the characters of a name, written out, are exactly the ones the pattern takes; none of them, and nothing else that prints in ASCII, is white space |
| `ConfTextGrammar.StripAround` | scripts/provisioner/vpnctl:221-221 | stripping takes off exactly the white space on both sides |
| `ConfTextGrammar.HeaderLine` | scripts/provisioner/vpnctl:72-72 | letters in brackets, with white space around, are a header, which is stored without the white space |
| `ConfTextGrammar.HeaderParts` | scripts/provisioner/vpnctl:72-72 | and every header is such a line |
| `ConfTextGrammar.SectionsListed` | scripts/provisioner/vpnctl:226-226 | of a text's sections only an empty preamble is left out |
| `ConfTextGrammar.ValueLine` | scripts/provisioner/vpnctl:236-242 | a line of the key, "=" and a value, with any white space around each, gives the key that value |
| `ConfTextGrammar.ValueParts` | scripts/provisioner/vpnctl:236-242 | and every line that gives the key a value without white space at its ends is such a line |
| `ConfTextGrammar.BlankValue` | scripts/provisioner/vpnctl:237-237 | after "=" and only white space the value is the last character that is not a newline, if there is one |
| `ConfTextGrammar.FirstValue` | scripts/provisioner/vpnctl:236-242 | the first line with a value counts, and there is none if no line has one |
| `ConfTextGrammar.NameOnLine` | scripts/provisioner/vpnctl:245-250 | "#" and a word, with white space around it, on the line under the header names the peer |
| `ConfTextGrammar.NameParts` | scripts/provisioner/vpnctl:245-250 | and every name stands on such a line |
| `ConfTextGrammar.FoundFirst` | scripts/provisioner/vpnctl:253-258 | the first block headed `[Peer]` of the name is found |
| `ConfTextGrammar.SplitFirst` | scripts/provisioner/vpnctl:278-278 | a list is cut at its first comma |
| `ConfTextGrammar.AddressesListed` | scripts/provisioner/vpnctl:276-279 | the addresses of some lines are exactly those that an entry of an `AllowedIPs` list parses to |
| `ConfTextGrammar.AppendedText` | scripts/provisioner/vpnctl:369-369 | a block goes after exactly one blank line, however many newlines the config ends in |
| `VpnctlViews.FindConf` | scripts/provisioner/vpnctl:253-258 | `find_peer` on text finds a block exactly when the views have one of that name, and the same one |
| `VpnctlViews.WithoutViews` | scripts/provisioner/vpnctl:261-264 | `without_peer` on text drops exactly the views of that name |
| `VpnctlViews.ConfAddresses` | scripts/provisioner/vpnctl:267-280 | the addresses scanned from the whole text are those of its sections together |
| `VpnctlViews.SaveBlock` | scripts/provisioner/vpnctl:387-389 | what disable saves for a client added by the outside script is its block |
| `Vpnctl.FirstFree` | scripts/provisioner/vpnctl:328-331 | the first host not in use, or none exactly when all are in use |
| `VpnctlHost.Host.Used` | scripts/provisioner/vpnctl:267-280 | the loop over the saved files collects every address of the config and, unless told otherwise, of every saved block |
| `VpnctlHost.Host.Install` | scripts/provisioner/vpnctl:365-374 | the four writes of a create and the handler that takes the live peer off again, for a fault at any of them |
| `VpnctlHost.Host.CreatePeer` | scripts/provisioner/vpnctl:309-376 | state and reply of a create for a fault at any write, or none, tied to the plan that `CreateDecides` and `FirstClient` determine |
| `VpnctlHost.Host.DisablePeer` | scripts/provisioner/vpnctl:379-393 | the same for disable |
| `VpnctlHost.Host.EnablePeer` | scripts/provisioner/vpnctl:396-414 | the same for enable, with its refusals |
| `VpnctlHost.Host.RemovePeer` | scripts/provisioner/vpnctl:417-433 | the same for remove |
| `VpnctlHost.Host.DeleteFiles` | scripts/provisioner/vpnctl:430-432 | the client config is deleted before the saved block, and a fault can fall between |
| `VpnctlRefinement.CreateRefines` | scripts/provisioner/vpnctl:309-376 | create on text adds the client to the map with its keys, enabled, or changes nothing for an existing name |
| `VpnctlRefinement.DisableRefines` | scripts/provisioner/vpnctl:379-393 | disable on text turns the client's flag off and keeps its keys and address |
| `VpnctlRefinement.EnableRefines` | scripts/provisioner/vpnctl:396-414 | enable on text turns it on again with the saved keys and address |
| `VpnctlRefinement.RemoveRefines` | scripts/provisioner/vpnctl:417-433 | remove on text takes the client out of the map, and reports found exactly when it had a client config or a block or saved block with a key |
| `VpnctlRefinement.CommandRefines` | scripts/provisioner/vpnctl:309-433 | every command commutes with parsing, leaves every other client's block and files alone, keeps names and keys unique and saved blocks matching, and keeps the interface equal to the config |
| `VpnctlRefinement.CreateAddressIsFree` | scripts/provisioner/vpnctl:327-331 | the client in the map after a create has its keys and the first host that no block, no saved block and not the server uses (which host that is in the text, `CreateDecides` says) |
| `VpnctlRefinement.RunRefines` | scripts/provisioner/vpnctl:309-433 | every fault-free run on text is a run on the map of clients, with the interface equal to the config after every command |
| `VpnctlReplies.CreateDecides` | scripts/provisioner/vpnctl:319-331 | with the first `[Interface]` section's Address, PrivateKey and port there, create is refused exactly when the stripped first entry of Address does not parse or every host of its subnet is held; otherwise it writes the first host that is not |
| `VpnctlReplies.CreateNeedsSettings` | scripts/provisioner/vpnctl:229-233 | without an `[Interface]` section, or with one of the three missing from the first, create is refused |
| `VpnctlReplies.FirstClient` | scripts/provisioner/vpnctl:309-376 | on a host whose config is an `[Interface]` section with Address, ListenPort and PrivateKey, create succeeds, and this is the text of every file and the interface afterwards |
| `VpnctlReplies.InvalidInputIff` | scripts/provisioner/vpnctl:92-102 | exit code 2 is exactly for a name that is not 1 to 64 of the written-out characters, or a subscription id that is not a UUID |
| `VpnctlReplies.EnableDecides` | scripts/provisioner/vpnctl:396-414 | enable answers exit code 3 exactly for a name without a client, succeeds exactly if the block has all values and, when the client is off, its first address parses and is no peer's in the config, and fails otherwise |
| `VpnctlReplies.OthersSucceed` | scripts/provisioner/vpnctl:379-433 | disable and remove of a valid name always succeed, with what they found |
| `VpnctlReplies.FirstConfigIsReturned` | scripts/provisioner/vpnctl:314-317 | whatever commands run in between, a later create for the name answers with the config made first, and writes nothing, until the client is removed |
| `VpnctlFaults.StopLeavesOthers` | scripts/provisioner/vpnctl:309-433 | every command, stopped after any write or by a write that raises, leaves the block, the files and the live peer of every other client as they were |
| `VpnctlFaults.SwitchLosesNothing` | scripts/provisioner/vpnctl:379-414 | a disable or an enable stopped anywhere still has its client, with the same keys and address |
| `VpnctlFaults.RemoveKeepsSavedBlock` | scripts/provisioner/vpnctl:430-432 | a remove stopped anywhere still has the saved block, or is complete |
| `VpnctlFaults.ConfAndLive` | scripts/provisioner/vpnctl:365-428 | wherever a create, a disable or a remove stops, every peer of the config is live; wherever an enable stops, every live peer is in the config |
| `VpnctlFaults.CreateInOrder` | scripts/provisioner/vpnctl:365-370 | wherever a create stops, a client config is there only with its client on and live, a block only with its saved copy, and nothing was written unless the peer is live |
| `VpnctlFaults.FailedCreate` | scripts/provisioner/vpnctl:371-374 | a create whose write raises is answered with a failure and leaves the interface and the client configs as they were |
| `VpnctlAddresses.KilledStage` | scripts/provisioner/vpnctl:365-374 | what config and saved blocks a command can leave, for all four commands and every number of writes done |
| `VpnctlAddresses.RunUnshared` | scripts/provisioner/vpnctl:267-280 | in every run of commands stopped anywhere and outside additions that look at the config only, with blocks of any number of addresses, no two peer blocks share an address, as long as no enable puts a block back on an address that a peer has |
| `VpnctlAddresses.RunSinglesUnshared` | scripts/provisioner/vpnctl:405-410 | if every named, saved and added block has a single address, that proviso always holds |
| `VpnctlAddresses.RunOneHolder` | scripts/provisioner/vpnctl:327-331 | without outside additions, no two client names share an address, enabled or saved, wherever commands stop |
| `VpnctlAddresses.EnableKeepsApart` | scripts/provisioner/vpnctl:396-414 | an enable of a saved block, whether it then succeeds or fails, keeps the blocks' addresses apart if and only if it does not write the block or none of the saved addresses is a peer's |
| `VpnctlAddresses.EnableCanShare` | scripts/provisioner/vpnctl:406-409 | a concrete saved block with two addresses that enable puts back on another peer's address |
| `VpnctlRecovery.RemoveRecovers` | scripts/provisioner/vpnctl:417-433 | a remove stopped after any write and run again leaves what one uninterrupted remove leaves, if and only if the client has no block in the config or its saved file's key does on the interface what the block's does; a client of the outside script without a saved file fails it |
| `VpnctlRecovery.EnableRecovers` | scripts/provisioner/vpnctl:396-414 | an enable that would succeed, stopped after any write and run again, succeeds and leaves what one uninterrupted enable leaves, with or without a saved block |
| `VpnctlRecovery.RepeatChangesNothing` | docs/ARCHITECTURE.md:29 | every command that succeeded can be run again: it succeeds, changes nothing, and a create returns the existing client's config |
| `Provisioning.CommandProvisions` | scripts/provisioner/vpnctl:309-433 | on a disk in order, every command does to the clients what the protocol takes its job to do to the peers, or is refused and does nothing |
| `Deployment.ShopCommandIsSound` | scripts/provisioner/vpnctl:309-433 | on a host in order, no command for one of the shop's clients stops half-way, so nothing but a create's fresh keys is asked |
| `Deployment.CommandOnHost` | scripts/provisioner/vpnctl:309-433 | a command leaves a host in order whose clients are the protocol's peers after the job, or, refused, before it |
| `Deployment.TurnOnHosts` | src/app/worker/engine.py:105-224 | a worker's turn and the command it sends to the host of the subscription's server keep every host matched with the peers of its server |
| `Deployment.ShopStepKeeps` | src/app/integrations/provisioning/vpnctl_client.py:171-177 | every step of the protocol and the hosts of all servers together keeps both sets of invariants and the match between them |
| `Deployment.ShopRunKeeps` | src/app/worker/engine.py:63-103 | so does every interleaving |
| `Deployment.ActiveIsServedOnHost` | src/app/worker/engine.py:161-198 | in every reachable state of the whole shop, an active subscription's block is in the `awg1.conf` of its server's host and the interface there holds its key, preshared key and address, or an enable job for it has not succeeded |
| `Deployment.PaidUpStaysLive` | src/app/worker/engine.py:36-41 | no step takes the live block away from an active subscription with time left |
| `Provisioning.EnableNotFound` | scripts/provisioner/vpnctl:400-404 | enable answers "not found" exactly when the client is not on the host |
| `Codec.Base64RoundTrip` | src/app/utils/amnezia_codec.py:37-49 | Base64 decodes every byte string it encodes |
| `Codec.EncodedShape` | src/app/utils/amnezia_codec.py:37-47 | an encoding is symbols and then exactly the padding that the length-mod-4 rule puts back |
| `CodecFormat.SymbolIsListed` | src/app/utils/amnezia_codec.py:37-37 | a symbol is its entry in the written-out URL-safe table, and needs no escape |
| `CodecFormat.GroupReads` | src/app/utils/amnezia_codec.py:37-37 | every group of three bytes, the last perhaps cut short, is four characters: the base-64 digits of its value, most significant first, from that table, with "=" for a digit without a bit |
| `Codec.HeaderRoundTrip` | src/app/utils/amnezia_codec.py:15-23 | the four length bytes read back as the length, below 2^32 |
| `CodecFormat.HeaderIsBigEndian` | src/app/utils/amnezia_codec.py:15-15 | the header is four bytes that are the length, most significant first |
| `CodecFormat.KeyIsUrlSafe` | src/app/utils/amnezia_codec.py:34-38 | there is a key exactly below 2^32 bytes; it is `vpn://` and URL-safe characters only, and its bytes are the big-endian length and the compressed config |
| `CodecFormat.KeyIsReadTolerantly` | src/app/utils/amnezia_codec.py:43-47 | both decoders read a key alike with and without its scheme and with white space around it |
| `CodecFormat.LengthIsChecked` | src/app/utils/amnezia_codec.py:19-31 | any text is a config only if its header is the length of what its stream expands to |
| `CodecFormat.JunkIsSkipped` | src/app/utils/amnezia_codec.py:49-49 | characters of neither alphabet are skipped, wherever they are |
| `CodecFormat.SymbolsDecode` | src/app/utils/amnezia_codec.py:46-49 | symbols of either alphabet, padded by the length-mod-4 rule, are three bytes for four of them, and an error exactly if a single one is left over |
| `Codec.BotRoundTrip` | src/app/utils/amnezia_codec.py:34-55 | the bot reads every non-empty config back from its key, and nothing exactly for the empty one |
| `Codec.VpnctlRoundTrip` | scripts/provisioner/vpnctl:107-125 | `vpnctl` reads every config back, the empty one too |
| `Codec.CopiesAgree` | scripts/provisioner/vpnctl:113-125 | the two decoders agree on every text, encoded or not |
| `Throttle.ThrottlingMiddleware.Call` | src/app/bot/middleware/throttling_middleware.py:21-46 | one event: the decision and the table after it |
| `Throttle.PruningDecidesAlike` | src/app/bot/middleware/throttling_middleware.py:17-46 | on every run with a clock that does not go back, the pruned table decides as the unpruned one |
| `Throttle.AdmitsExactly` | src/app/bot/middleware/throttling_middleware.py:31-46 | a user's event is let through if and only if the clock has reached the rate limit and every earlier one let through is at least the rate limit away |
| `Throttle.EventExactly` | src/app/bot/middleware/throttling_middleware.py:17-46 | an event without a user is let through and leaves no trace, a dropped one leaves none; one that is let through is remembered, and from ten thousand users on exactly those within a minute and the rate limit are kept |
| `Sessions.Session.Rollback` | src/app/worker/engine.py:83-84 | the rows go back to the last commit; the clock and the peers on the host do not |
| `Repositories.JobRepository.ClaimOne` | src/app/db/repositories/job_repo.py:69-79 | the job is locked exactly if it was still claimable, and the result says so |
| `Repositories.JobRepository.SelectCandidates` | src/app/db/repositories/job_repo.py:82-89 | the query returns claimable jobs without repeats, the earliest due first, and leaves none out unless the limit is reached by jobs no later due |
| `Repositories.EarliestAreTaken` | src/app/db/repositories/job_repo.py:82-89 | no claimable job is left out while fewer than the limit can come before it, and the earliest due come first |
| `Repositories.JobRepository.ClaimCandidates` | src/app/db/repositories/job_repo.py:90-90 | the loop over any candidates, stale or not, claims one after the other and returns exactly those that were still claimable |
| `Repositories.JobRepository.ClaimPendingJobs` | src/app/db/repositories/job_repo.py:81-100 | when nobody comes between, it claims the whole selection: the earliest due jobs up to the limit, in that order |
| `Repositories.JobRepository.MarkFailed` | src/app/db/repositories/job_repo.py:111-136 | attempts, status, due time and lock after a failure |
| `Repositories.OrderRepository.ApproveRenewal` | src/app/db/repositories/order_repo.py:198-233 | days are added from the later of expiry and now, and an enable job is queued exactly if the subscription was not active |
| `Repositories.OrderRepository.ApproveOrderAtomic` | src/app/db/repositories/order_repo.py:102-178 | the whole approval, with both branches; a success grants days to the subscription it returns, a refusal returns the order's own subscription exactly if it has one |
| `Repositories.OrderRepository.RejectOrder` | src/app/db/repositories/order_repo.py:235-260 | an order is rejected unless it was approved |
| `Repositories.SubscriptionRepository.ExtendSubscription` | src/app/db/repositories/subscription_repo.py:112-125 | the row after days were added or taken |
| `Repositories.SubscriptionRepository.Select` | src/app/db/repositories/subscription_repo.py:51-75 | a query returns every matching row once |
| `Repositories.NotificationRepository.CreateNotificationIfNotExists` | src/app/db/repositories/audit_repo.py:67-88 | a key is recorded once, and the result says whether it was new |
| `Engine.WorkerEngine.ProcessJob` | src/app/worker/engine.py:105-224 | all five kinds of job step by step: what each writes, and whether it raises with half of that written |
| `Engine.WorkerEngine.RunJob` | src/app/worker/engine.py:77-90 | one turn: all of a job's effects and its completion, or a rollback and the failure record; committed; tied to the turn that `TurnEnds` and `TurnDoes` determine |
| `Engine.WorkerEngine.RunSingleBatch` | src/app/worker/engine.py:63-103 | the claim is committed first, then every claimed job has its turn in order |
| `Engine.BatchIsRun` | src/app/worker/engine.py:63-103 | a batch is a run of the protocol: its claims, then a pause and the work for each job claimed |
| `Engine.BatchIsAllowed` | src/app/worker/engine.py:63-103 | a batch that ends within the lease of its claims marks only jobs the worker holds, lost replies or not |
| `Engine.BatchKeeps` | src/app/worker/engine.py:63-103 | such a batch keeps the nine invariants of the database in any case, and all ten if no reply is lost |
| `Scheduler.SchedulerService.MatchedDay` | src/app/scheduler/service.py:64-73 | the threshold loop finds the smallest threshold that the days left do not exceed |
| `Scheduler.SchedulerService.CheckExpiringSubscriptions` | src/app/scheduler/service.py:47-122 | the reminder tick over exactly the expiring rows; it returns how many reminders were recorded for the first time and delivered |
| `Scheduler.SchedulerService.CheckExpiredSubscriptions` | src/app/scheduler/service.py:124-188 | the expiry tick over exactly the active rows that have run out, and the number of jobs it queued |
| `Scheduler.SchedulerService.CleanupRemovedPeers` | src/app/scheduler/service.py:190-222 | the clean-up tick over exactly the rows disabled at least the grace period ago, and the number of jobs it queued |
| `Handlers.AdminHandlers.ApproveOrder` | src/app/bot/handlers/admin.py:172-182 | the approve button with its status guard; a refused press changes nothing |
| `Handlers.AdminHandlers.Extend` | src/app/bot/handlers/admin.py:583-605 | the extension with its refusals and its enable job, tied to the transaction that `ExtendExactly` determines |
| `Handlers.AdminHandlers.ExtendByLabel` | src/app/bot/handlers/admin.py:560-608 | `/extend` extends the subscription that has the label, and does nothing for a label that none has |
| `Handlers.AdminHandlers.RetryBlocker` | src/app/bot/handlers/admin_jobs.py:40-58 | no blocker if and only if the job may run again |
| `Handlers.AdminHandlers.RetryJobs` | src/app/bot/handlers/admin_jobs.py:124-134 | every job is either skipped and untouched, or was failed for good and is pending; the counts add up |
| `ProtocolRuns.StepKeeps` | src/app/worker/engine.py:105-224 | every legal step of the bot, scheduler, workers and admin keeps all ten invariants |
| `ProtocolRuns.RunKeeps` | src/app/worker/engine.py:63-103 | so does every legal interleaving |
| `ProtocolReplies.AttemptIdeal` | src/app/worker/engine.py:77-90 | a turn leaves the database as a turn beside a host with every peer on would, where a lost reply is a failed call |
| `ProtocolReplies.CoreStepKeeps` | src/app/worker/engine.py:105-224 | the nine invariants that do not involve the peers survive every step, lost replies or not |
| `ProtocolReplies.CoreRunKeeps` | src/app/worker/engine.py:63-103 | so they do every interleaving with lost replies |
| `ProtocolTheorems.ActiveIsServed` | src/app/worker/engine.py:161-198 | in every reachable state an active subscription has its peer on, or an enable job that has not succeeded, and was not removed |
| `ProtocolTheorems.PaidUpStaysOn` | src/app/worker/engine.py:36-41 | no step, lost reply or not, turns off or removes the peer of an active subscription with time left |
| `ProtocolTheorems.EffectOnce` | src/app/db/repositories/order_repo.py:102-178 | in every reachable state the number of subscriptions an order opened plus the number of its renewals is one if it is provisioning or fulfilled, and zero otherwise |
| `ProtocolTheorems.SubmitKeepsOnceIff` | src/app/db/repositories/order_repo.py:80-100 | a receipt keeps that exactly when the order has not taken effect |
| `ProtocolOrders.ApproveAddsOne` | src/app/db/repositories/order_repo.py:102-233 | an approval adds exactly one effect, or none when it is refused, in any state |
| `ProtocolOrders.LateReceiptTakesEffectTwice` | src/app/db/repositories/order_repo.py:80-136 | for every order, a receipt and an approval give it more than one effect if and only if it is a fulfilled renewal without a subscription of its own |
| `ProtocolOrders.RenewalIsReached` | src/app/db/repositories/order_repo.py:198-218 | a legal run of six steps ends in such a state |
| `ProtocolOrders.RenewalRepeats` | src/app/db/repositories/order_repo.py:80-136 | from there, a late receipt and an approval give the same order a second effect |
| `ProtocolTheorems.LateReceiptReopens` | src/app/db/repositories/order_repo.py:80-100 | a receipt for a rejected order lets an approval take effect |
| `ProtocolTheorems.RejectedStays` | src/app/bot/handlers/admin.py:172-179 | in every legal run a rejected order stays rejected |
| `ProtocolTheorems.ApprovalKeepsItsJob` | src/app/db/repositories/order_repo.py:138-178 | every subscription has one create job ever, which has not succeeded exactly while the subscription, and its order, are provisioning |
| `ProtocolTheorems.RemovedNeverActive` | src/app/worker/engine.py:177-191 | once removed, a subscription is never active again in any run |
| `ProtocolTheorems.RenewingRemovedOpensNew` | src/app/db/repositories/order_repo.py:180-196 | approving an order that renews a removed subscription opens a new one with its own pending create job |
| `ProtocolTheorems.PaidTimeConserved` | src/app/db/repositories/order_repo.py:138-147 | in every reachable state a subscription runs out at its start plus all days granted or taken plus the lapsed time skipped |
| `ProtocolTerms.ExtendExactly` | src/app/db/repositories/subscription_repo.py:112-125 | days added move the expiry, or now if it has passed, by exactly those days, days taken move the expiry by exactly those; what is granted grows by exactly the days and the lapsed time; no other subscription changes |
| `ProtocolTerms.ExtendRefused` | src/app/bot/handlers/admin.py:566-588 | it changes nothing exactly for zero days, an unknown subscription, or one whose peer is not made or is removed |
| `ProtocolTerms.RenewExactly` | src/app/db/repositories/order_repo.py:198-218 | approving a renewal of the customer's own subscription on the same server, whose peer is there, does the same, makes it active and its order fulfilled, and queues an enable job exactly if it was not active |
| `ProtocolTerms.OpenExactly` | src/app/db/repositories/order_repo.py:138-178 | approving any other order opens a subscription of its customer, server and days from now, with a create job |
| `ProtocolTerms.OwnedStays` | src/app/db/repositories/order_repo.py:180-196 | over all runs a subscription, and every renewal of it, is of the customer and on the server that were ordered |
| `ProtocolTerms.OrderMoves` | src/app/db/repositories/order_repo.py:80-260 | the only moves of an order, and the step behind each |
| `ProtocolTerms.OrderSteps` | src/app/db/repositories/order_repo.py:53-100 | placing, submitting and rejecting: what each makes of the order, and which orders can be rejected |
| `ProtocolTheorems.GrantIsWhole` | src/app/db/repositories/subscription_repo.py:112-125 | right after a positive grant at least its days remain, on top of what was left |
| `ProtocolTheorems.OpenAtMostOnce` | src/app/db/repositories/job_repo.py:38-52 | in every reachable state at most one disable job and one remove job of a subscription is open |
| `ProtocolTheorems.ExpiryCheckLeavesOne` | src/app/scheduler/service.py:136-152 | an expiry tick leaves exactly one open disable job for each expired subscription and adds none elsewhere |
| `ProtocolTheorems.CleanUpLeavesOne` | src/app/scheduler/service.py:198-214 | a clean-up tick does the same with remove jobs, for each subscription disabled at least the grace period ago |
| `ProtocolCauses.JobsHaveCause` | src/app/scheduler/service.py:136-216 | every job a step adds is pending, untried and due at once, and has its cause: a create the approval that opened its subscription, an enable the grant that brought it back, a disable an active subscription that ran out and its notice, a remove a peer that has been off for the whole grace period, a redelivery a request |
| `ProtocolCauses.ExpiryQueues` | src/app/scheduler/service.py:136-152 | an expiry tick queues a disable job, where none is open, if and only if the subscription is active and has run out |
| `ProtocolCauses.CleanUpQueues` | src/app/scheduler/service.py:194-214 | a clean-up tick queues a remove job, where none is open, if and only if the subscription is disabled and was disabled at least the grace period ago |
| `ProtocolCauses.NoEarlyRemoval` | src/app/scheduler/service.py:194-203 | over runs: no remove job is queued for a subscription within the grace period of its last disable |
| `ProtocolCauses.DisabledIsOff` | src/app/worker/engine.py:161-175 | the turn of a disable job is what that period counts from |
| `ProtocolService.SaleIsServed` | src/app/worker/engine.py:112-159 | after an approved first sale and any steps, failed calls and lost replies of its own job among them, once a worker holds its create job and the call works, its subscription is active, runs out at the time set at approval, has its peer on, and its order is fulfilled |
| `ProtocolService.RunKeepsOn` | scripts/provisioner/vpnctl:314-317 | over every run, a peer that was made for a subscription that still waits for it, because a reply was lost, is on |
| `ProtocolService.SaleIsClaimable` | src/app/db/repositories/order_repo.py:138-178 | the job that an approved first sale queues can be claimed at once |
| `ProtocolService.ExtendingRestores` | src/app/bot/handlers/admin.py:590-599 | time added to any subscription whose peer was not removed leaves it active with time left, its peer on or an enable job not succeeded |
| `ProtocolService.RenewingRestores` | src/app/db/repositories/order_repo.py:198-218 | an approved renewal does the same |
| `ProtocolService.RetriedIsAlone` | src/app/bot/handlers/admin_jobs.py:40-58 | however many jobs are retried at once, each one queued again is the only open job of its task, and its subscription still waits for a peer or is active with time left, as the job needs |
| `ProtocolTerms.RetryExactly` | src/app/bot/handlers/admin_jobs.py:40-58 | a retry is accepted exactly for a job that failed for good, with no other of its task open, whose subscription is there and still waits, for a create, or is active with time left, for an enable; it is then as new and claimable at once |
| `ProtocolTerms.RequestExactly` | src/app/bot/handlers/customer.py:402-409 | a customer's request queues one redelivery job, claimable at once |
| `ProtocolQueue.ClaimExcludes` | src/app/db/repositories/job_repo.py:54-79 | after a claim, whatever else runs, the job stays with that worker and can be claimed again exactly when more than five minutes have passed since it was locked, until it is marked |
| `ProtocolQueue.WorkersDisjoint` | src/app/db/repositories/job_repo.py:69-100 | two workers that read their clocks within five minutes of each other never both take one job, however their claims interleave with other claims and with marks and retries of the job, as long as from the first of the two claims on marks come when the clock has reached the other's reading, retries when it is past it, and other claims read a clock at most five minutes behind it |
| `ProtocolQueue.ClaimableFromThenOn` | src/app/db/repositories/job_repo.py:54-67 | every unfinished job in a reachable state is claimable exactly from a known time on |
| `ProtocolQueue.BackoffAddsUp` | src/app/db/repositories/job_repo.py:111-136 | in every reachable state a job failed at most five times since it was queued, and after k retryable failures is not due before 5 * (3^k - 1) seconds after the first |
| `ProtocolQueue.TurnIsAtomic` | src/app/worker/engine.py:77-90 | a turn writes all of a job's effects and its success, or nothing in the database but its failure |
| `ProtocolTurns.TurnEnds` | src/app/worker/engine.py:82-90 | for every kind of job and outcome: a call that fails, or whose reply is lost, is tried again after exactly 10, 30, 90 and 270 seconds; a call refused for good, a fifth failure, a create without a subscription, and an enable or redelivery of a peer that is not on the host end for good; the rest succeeds |
| `ProtocolTurns.HeldTurnEnds` | src/app/db/repositories/job_repo.py:111-136 | so does every turn of a job that a worker holds in a state that meets the invariants |
| `ProtocolTurns.TurnDoes` | src/app/worker/engine.py:105-224 | a turn that succeeds changes exactly what its kind of job is for, and nothing but its own row if the host was not called |
| `ProtocolQueue.BatchIsAtomic` | src/app/worker/engine.py:75-90 | after the loop every claimed job is as its own turn left it |
| `Reminders.RemindersFall` | src/app/scheduler/service.py:60-86 | while the expiry date stays the same, the thresholds recorded in a run fall strictly, so each comes at most once |
| `Reminders.AllRemindersSent` | src/app/scheduler/service.py:54-90 | for all sorted thresholds of at least a day of which the largest is two or more days above the others, and ticks at most a day apart, a subscription that runs down from above the largest to the smallest gets the reminder of every threshold |
| `Reminders.ReminderHasCause` | src/app/scheduler/service.py:54-90 | a reminder is recorded only for an active subscription with time left, under the day it runs out, for the smallest threshold that the whole days left do not exceed |
| `ProtocolTerms.AddedDaysGiveNewKeys` | src/app/scheduler/service.py:83-84 | added days move the day in the keys by at least as many days, so a renewed subscription's reminders and notice are not held back by the old ones |
| `Reminders.UsualIsSpaced` | src/app/scheduler/service.py:42-42 | the default thresholds are such |
| `Reminders.CrowdedLargest` | src/app/scheduler/service.py:56-73 | with another threshold a day below it, the largest is due at a single instant only, so daily ticks can miss it |
| `Reminders.UsualDue` | src/app/scheduler/service.py:64-73 | the window of time left in which each default threshold is due |
| `Reminders.StaysActive` | src/app/worker/engine.py:36-41 | no step makes an active subscription with time left inactive |

## Left out

- Line breaks other than `'\n'`, which Python's `splitlines` also knows, and a name that ends in a newline, which the `$` at `scripts/provisioner/vpnctl:47` lets through.
- A value on the line after its key: the multi-line pattern of `used_addresses` lets white space after `=` run over a line end. The model reads line by line.
- A missing `awg1.conf`, the temporary file behind each atomic write and behind the preshared key, the lock, and a live removal that fails in the handler of a failed create.
- The text of a client's own config, key generation, `detect_endpoint_host`, `peer-status`, `get-config`, `encode`, `decode`, `serve`: I/O, or easy members.
- A create that dies between its writes is not recoverable by running it again, and a disable whose live removal failed is not repaired by running it again; the model has both behaviours, and no theorem claims otherwise.
- Deployment.ActiveIsServedOnHost: lost replies are not among the steps of the shop, and peers that the outside script adds while the shop runs are not among its steps; `VpnctlAddresses` has them.
- Row-level interleaving inside one transaction other than claiming: the handlers take no row lock.
- Deleting servers, products and users, and the branches for rows that are missing because of it.
- The order in which the scheduler's queries return rows: they are any selection of exactly the matching rows.
- Repositories.JobRepository.ClaimPendingJobs: one method runs to its end; workers that come between its query and its updates are in `ClaimCandidates`, whose candidates may be stale, and in the protocol, where each claim is a step.
- Engine.WorkerEngine.RunSingleBatch: a crash of the worker between two commits is a job left in processing, which the protocol covers by claims after the lease; the admin's alert is left out.
- Handlers.AdminHandlers.ExtendByLabel: the column of labels is a parameter, and no two subscriptions share a label, though labels hold only eight characters of the subscription id; the parsing of the message is left out.
- Exit code 4 and the "already exists" text that `_classify_failure` also takes for permanent: no command that is modelled gives them.
- What the customer is told and whether it arrived, apart from the delivery of a config; languages, menus, keyboards, Telegram itself.
- The redelivery limit, server capacity, order codes, prices and payment text, audit events, support tickets, reconciliation, usage, log redaction, settings.
- Sockets, tokens, tags, and everything else that decides who may call.
- Floating-point rounding of the throttle's clock: times are reals.
