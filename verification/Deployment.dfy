/**
 The whole shop: the protocol's machine and the VPN hosts beside it, one for each server. A worker's call is a
 `vpnctl` command on the text of the host of the subscription's server, so what the protocol promises about
 peers holds of the blocks in each `awg1.conf` and of each live interface.
 */
module Deployment {
  import opened Wrappers
  import opened Store
  import opened Protocol
  import opened ProtocolWork
  import opened ProtocolRuns
  import opened ProtocolReplies
  import opened ProtocolTheorems
  import opened ProtocolService
  import opened ConfText
  import opened Vpnctl
  import opened VpnctlViews
  import opened VpnctlCards
  import opened VpnctlRefinement
  import opened Provisioning

  /** The hosts are by server. */
  datatype Shop = Shop(world: World, hosts: map<Id, Disk>)

  /** A step of the protocol, with the command that reaches a host, if one does. */
  datatype ShopStep = ShopStep(step: Step, command: Option<Command>)

  /** A worker's turn that calls a host to change a peer. */
  predicate Sends(w: World, step: Step) {
    step.Work? && step.j in w.jobs && w.jobs[step.j].kind != Redeliver && Calls(w, w.jobs[step.j])
  }

  /** The server whose host it calls. */
  function Target(w: World, step: Step): Id
    requires Sends(w, step)
  {
    w.subs[w.jobs[step.j].sub].server
  }

  predicate Reaches(x: Shop, e: ShopStep) {
    e.command.Some? && Sends(x.world, e.step) && Target(x.world, e.step) in x.hosts
  }

  /** The settings of each server's host are `cfgs`. */
  function ShopNext(cfgs: Id -> Settings, x: Shop, e: ShopStep): Shop {
    Shop(Next(x.world, e.step),
         if Reaches(x, e)
         then var v := Target(x.world, e.step); x.hosts[v := Execute(cfgs(v), x.hosts[v], e.command.value)]
         else x.hosts)
  }

  /** `_classify_failure`: bad input and a missing client are failures for good. */
  predicate IsPermanent(error: Error) {
    error in {InvalidInput, NotFound}
  }

  /** The command is the job's, for the label of the job's subscription, a create draws fresh keys, and the call
      goes as the command says. */
  ghost predicate Carries(cfg: Settings, labels: map<Id, string>, w: World, d: Disk, step: Step, c: Command)
    requires Sends(w, step)
  {
    var job, reply := w.jobs[step.j], PlanOf(cfg, d, c).reply;
    && KindOf(c) == job.kind && job.sub in labels && NameOf(c) == labels[job.sub]
    && (c.Create? ==> Usable(c.req) && FreshKey(Read(cfg.lib, d), c.req.publicKey))
    && if reply.Refused? then step.outcome == Fails(IsPermanent(reply.error)) else !step.outcome.Fails?
  }

  /** A call that does not reach its host fails. */
  ghost predicate ShopLegal(cfgs: Id -> Settings, labels: map<Id, string>, x: Shop, e: ShopStep) {
    && Legal(x.world, e.step)
    && match e.command
       case None => Sends(x.world, e.step) ==> e.step.outcome.Fails?
       case Some(c) =>
         Reaches(x, e)
         && var v := Target(x.world, e.step); Carries(cfgs(v), labels, x.world, x.hosts[v], e.step, c)
  }

  // ----- the clients of the shop -----

  predicate Complete(c: Client) {
    c.publicKey.Some? && c.presharedKey.Some? && c.allowedIps.Some?
  }

  /** Every client of the shop has its keys and address. */
  predicate Keyed(clients: map<string, Client>, labels: map<Id, string>) {
    forall s :: s in labels && labels[s] in clients ==> Complete(clients[labels[s]])
  }

  lemma StepKeyed(m: map<string, Client>, files: set<string>, c: Command, reply: Reply, m': map<string, Client>,
                  labels: map<Id, string>)
    requires AbstractStep(m, files, c, reply, m') && Keyed(m, labels)
    ensures Keyed(m', labels)
  {
  }

  /** The peers whose subscriptions are on a server. */
  function PeersOn(peers: map<Id, bool>, subs: map<Id, Sub>, v: Id): map<Id, bool> {
    map s | s in peers && s in subs && subs[s].server == v :: peers[s]
  }

  /** A host in order, whose clients are these peers. */
  ghost predicate HostJoined(cfg: Settings, labels: map<Id, string>, d: Disk, peers: map<Id, bool>) {
    && Good(cfg, d) && FilesMatch(d.clients.Keys, Clients(Read(cfg.lib, d)), labels)
    && Matches(peers, Clients(Read(cfg.lib, d)), labels) && Keyed(Clients(Read(cfg.lib, d)), labels)
  }

  /** Every peer has a label, and a host for its server. */
  predicate Homed(w: World, hosts: set<Id>, labels: map<Id, string>) {
    forall s :: s in w.peers ==> s in labels && s in w.subs && w.subs[s].server in hosts
  }

  /** The protocol's state is in order, so is every host, and they tell the same story. */
  ghost predicate Joined(cfgs: Id -> Settings, labels: map<Id, string>, x: Shop) {
    && Inv(x.world) && Homed(x.world, x.hosts.Keys, labels)
    && forall v :: v in x.hosts ==> HostJoined(cfgs(v), labels, x.hosts[v], PeersOn(x.world.peers, x.world.subs, v))
  }

  // ----- one command -----

  lemma EnabledIsThere(cfg: Settings, d: Disk, c: Command, peers: map<Id, bool>, s: Id, labels: map<Id, string>)
    requires c.Enable? && !PlanOf(cfg, d, c).reply.Refused?
    requires s in labels && NameOf(c) == labels[s] && Matches(peers, Clients(Read(cfg.lib, d)), labels)
    ensures s in peers
  {
    hide PlanOf, Clients, Read;
    NameIsIdentifier(cfg, d, c);
    EnableNotFound(cfg, d, c.name);
  }

  /** A refused enable of a client with its keys and address wrote nothing. */
  lemma EnableRefusesWhole(cfg: Settings, d: Disk, name: string)
    requires name in Clients(Read(cfg.lib, d)) ==> Complete(Clients(Read(cfg.lib, d))[name])
    requires PlanOf(cfg, d, Enable(name)).reply.Refused?
    ensures PlanOf(cfg, d, Enable(name)).writes == []
  {
    hide Views, FindView, FindPeer, GetValue, Lines, UsedAddresses, FirstAddress, AppendBlock, IsIdentifier, Clients,
         CreatePlan, DisablePlan, RemovePlan, RStripNewlines;
    FindConf(cfg.lib, d.conf, name);
    ClientsAt(Read(cfg.lib, d), name);
  }

  /** Nothing but fresh keys is asked of a command for the shop's clients: no command stops half-way, and a name
      without a client config has no block. */
  lemma ShopCommandIsSound(cfg: Settings, d: Disk, c: Command, s: Id, labels: map<Id, string>)
    requires FilesMatch(d.clients.Keys, Clients(Read(cfg.lib, d)), labels) && Keyed(Clients(Read(cfg.lib, d)), labels)
    requires s in labels && NameOf(c) == labels[s]
    requires c.Create? ==> Usable(c.req) && FreshKey(Read(cfg.lib, d), c.req.publicKey)
    ensures Sound(cfg, d, c)
  {
    hide Usable, FreshKey, Clients, FindPeer, GetValue, IsIdentifier, FreeAddress;
    match c
    case Create(req) =>
      ClientsAt(Read(cfg.lib, d), req.name);
    case Disable(name) =>
    case Enable(name) =>
      if PlanOf(cfg, d, c).reply.Refused? {
        EnableRefusesWhole(cfg, d, name);
      }
    case Remove(name) =>
  }

  lemma CommandKeyed(cfg: Settings, d: Disk, c: Command, labels: map<Id, string>)
    requires Lawful(cfg.lib) && Good(cfg, d) && Sound(cfg, d, c) && Keyed(Clients(Read(cfg.lib, d)), labels)
    ensures Keyed(Clients(Read(cfg.lib, Execute(cfg, d, c))), labels)
  {
    hide *;
    var d' := Execute(cfg, d, c);
    GoodStep(cfg, d, c);
    Refined(cfg, d, c, d');
    if !PlanOf(cfg, d, c).reply.Refused? {
      StepKeyed(Clients(Read(cfg.lib, d)), d.clients.Keys, c, PlanOf(cfg, d, c).reply, Clients(Read(cfg.lib, d')),
                labels);
    }
  }

  /** The host after a command, beside the peers as the protocol has them then. */
  lemma CommandOnHost(cfg: Settings, labels: map<Id, string>, d: Disk, c: Command, peers: map<Id, bool>, s: Id)
    requires Lawful(cfg.lib) && Distinct(labels) && HostJoined(cfg, labels, d, peers)
    requires s in labels && NameOf(c) == labels[s]
    requires c.Create? ==> Usable(c.req) && FreshKey(Read(cfg.lib, d), c.req.publicKey)
    ensures HostJoined(cfg, labels, Execute(cfg, d, c),
                       if PlanOf(cfg, d, c).reply.Refused? then peers else Provisioned(peers, KindOf(c), s))
  {
    hide Lawful, Distinct, Good, Matches, Keyed, FilesMatch, Clients, Read, Execute, PlanOf, Provisioned, KindOf,
         NameOf, Sound, Usable, FreshKey;
    ShopCommandIsSound(cfg, d, c, s, labels);
    CommandProvisions(cfg, d, c, peers, s, labels);
    CommandKeyed(cfg, d, c, labels);
  }

  // ----- the peers of a server -----

  predicate SameServers(subs: map<Id, Sub>, subs': map<Id, Sub>) {
    forall s :: s in subs ==> s in subs' && subs'[s].server == subs[s].server
  }

  lemma PeersOnStay(peers: map<Id, bool>, subs: map<Id, Sub>, subs': map<Id, Sub>, v: Id)
    requires SameServers(subs, subs') && forall s :: s in peers ==> s in subs
    ensures PeersOn(peers, subs', v) == PeersOn(peers, subs, v)
  {
  }

  lemma PeersOnProvisioned(peers: map<Id, bool>, subs: map<Id, Sub>, subs': map<Id, Sub>, kind: JobKind, s: Id, v: Id)
    requires SameServers(subs, subs') && (forall t :: t in peers ==> t in subs) && s in subs
    ensures PeersOn(Provisioned(peers, kind, s), subs', v)
         == if subs[s].server == v then Provisioned(PeersOn(peers, subs, v), kind, s) else PeersOn(peers, subs, v)
  {
  }

  lemma StepKeepsServers(w: World, step: Step)
    requires Core(w) && Allowed(w, step)
    ensures SameServers(w.subs, Next(w, step).subs)
  {
    hide Core, Allowed, Next;
    forall s | s in w.subs
      ensures s in Next(w, step).subs && Next(w, step).subs[s].server == w.subs[s].server
    {
      StepKeepsTerms(w, step, s);
    }
  }

  // ----- one step -----

  /** A step that sends nothing, or whose call fails, leaves the peers alone. */
  lemma QuietStep(w: World, step: Step)
    requires Legal(w, step) && (Sends(w, step) ==> step.outcome.Fails?)
    ensures Next(w, step).peers == w.peers
  {
    hide Attempt, Calls;
    if step.Work? {
      TurnProvisions(w, step.j, step.outcome);
    } else {
      OnlyWorkTouchesPeers(w, step);
    }
  }

  /** What a sending turn does to the peers is what its command does to the clients. */
  lemma SendingPeers(cfg: Settings, labels: map<Id, string>, w: World, d: Disk, step: Step, c: Command)
    requires Legal(w, step) && Sends(w, step) && Carries(cfg, labels, w, d, step, c)
    requires Matches(PeersOn(w.peers, w.subs, Target(w, step)), Clients(Read(cfg.lib, d)), labels)
    ensures Next(w, step).peers
         == if PlanOf(cfg, d, c).reply.Refused? then w.peers else Provisioned(w.peers, KindOf(c), w.jobs[step.j].sub)
  {
    hide Matches, Clients, Read, PlanOf, Attempt, Calls, Provisioned, Usable, FreshKey;
    var s := w.jobs[step.j].sub;
    TurnProvisions(w, step.j, step.outcome);
    if c.Enable? && !PlanOf(cfg, d, c).reply.Refused? {
      EnabledIsThere(cfg, d, c, PeersOn(w.peers, w.subs, Target(w, step)), s, labels);
    }
  }

  /** A worker's turn and the command it sends: every host stays joined with the peers of its server. */
  lemma TurnOnHosts(cfgs: Id -> Settings, labels: map<Id, string>, x: Shop, e: ShopStep, v: Id)
    requires (forall u :: Lawful(cfgs(u).lib)) && Distinct(labels) && Joined(cfgs, labels, x)
    requires ShopLegal(cfgs, labels, x, e) && v in x.hosts
    ensures var x' := ShopNext(cfgs, x, e);
            v in x'.hosts && HostJoined(cfgs(v), labels, x'.hosts[v], PeersOn(x'.world.peers, x'.world.subs, v))
  {
    hide Inv, Core, HostJoined, Distinct, Lawful, Next, Execute, Calls, PlanOf, Usable, FreshKey, Read, PeersOn,
         Provisioned, NameOf, KindOf, SameServers, Homed;
    InvIsCore(x.world);
    StepKeepsServers(x.world, e.step);
    PeersKnown(x.world);
    match e.command
    case None =>
      QuietStep(x.world, e.step);
      PeersOnStay(x.world.peers, x.world.subs, Next(x.world, e.step).subs, v);
    case Some(c) =>
      var u, s := Target(x.world, e.step), x.world.jobs[e.step.j].sub;
      HostMatches(cfgs(u), labels, x.hosts[u], PeersOn(x.world.peers, x.world.subs, u));
      SendingPeers(cfgs(u), labels, x.world, x.hosts[u], e.step, c);
      CommandOnHost(cfgs(u), labels, x.hosts[u], c, PeersOn(x.world.peers, x.world.subs, u), s);
      PeersOnStay(x.world.peers, x.world.subs, Next(x.world, e.step).subs, v);
      PeersOnProvisioned(x.world.peers, x.world.subs, Next(x.world, e.step).subs, KindOf(c), s, v);
  }

  lemma HostMatches(cfg: Settings, labels: map<Id, string>, d: Disk, peers: map<Id, bool>)
    requires HostJoined(cfg, labels, d, peers)
    ensures Matches(peers, Clients(Read(cfg.lib, d)), labels)
  {
    hide Matches, Clients, Read, Good;
  }

  lemma SendsForKnown(w: World, step: Step)
    requires Sends(w, step)
    ensures w.jobs[step.j].sub in w.subs
  {
  }

  lemma ProvisionedKeys(peers: map<Id, bool>, kind: JobKind, s: Id)
    ensures forall t :: t in Provisioned(peers, kind, s) ==> t in peers || t == s
  {
  }

  lemma HomedStays(cfgs: Id -> Settings, labels: map<Id, string>, x: Shop, e: ShopStep)
    requires Joined(cfgs, labels, x) && ShopLegal(cfgs, labels, x, e)
    ensures Homed(ShopNext(cfgs, x, e).world, ShopNext(cfgs, x, e).hosts.Keys, labels)
  {
    hide Inv, Core, HostJoined, Next, Execute, Calls, PlanOf, Usable, FreshKey, Read, PeersOn, NameOf, KindOf,
         Provisioned;
    InvIsCore(x.world);
    StepKeepsServers(x.world, e.step);
    match e.command
    case None => QuietStep(x.world, e.step);
    case Some(c) =>
      var u := Target(x.world, e.step);
      SendsForKnown(x.world, e.step);
      ProvisionedKeys(x.world.peers, KindOf(c), x.world.jobs[e.step.j].sub);
      HostMatches(cfgs(u), labels, x.hosts[u], PeersOn(x.world.peers, x.world.subs, u));
      SendingPeers(cfgs(u), labels, x.world, x.hosts[u], e.step, c);
  }

  /** Every step of the shop keeps all its parts joined. */
  lemma ShopStepKeeps(cfgs: Id -> Settings, labels: map<Id, string>, x: Shop, e: ShopStep)
    requires (forall u :: Lawful(cfgs(u).lib)) && Distinct(labels)
    requires Joined(cfgs, labels, x) && ShopLegal(cfgs, labels, x, e)
    ensures Joined(cfgs, labels, ShopNext(cfgs, x, e))
  {
    StepKeeps(x.world, e.step);
    HomedStays(cfgs, labels, x, e);
    forall v | v in x.hosts
      ensures var x' := ShopNext(cfgs, x, e);
              v in x'.hosts && HostJoined(cfgs(v), labels, x'.hosts[v], PeersOn(x'.world.peers, x'.world.subs, v))
    {
      TurnOnHosts(cfgs, labels, x, e, v);
    }
    hide Inv, HostJoined, Distinct, Lawful, Next, Execute, Carries, PeersOn, Homed, Legal, Sends, Target;
  }

  // ----- runs -----

  function ShopRun(cfgs: Id -> Settings, x: Shop, es: seq<ShopStep>): Shop
    decreases es
  {
    if es == [] then x else ShopRun(cfgs, ShopNext(cfgs, x, es[0]), es[1..])
  }

  ghost predicate ShopLegalRun(cfgs: Id -> Settings, labels: map<Id, string>, x: Shop, es: seq<ShopStep>)
    decreases es
  {
    es == []
    || (ShopLegal(cfgs, labels, x, es[0]) && ShopLegalRun(cfgs, labels, ShopNext(cfgs, x, es[0]), es[1..]))
  }

  /** Over every interleaving of the protocol with the commands its workers send, all parts keep what is
      proved of each, and stay matched. */
  lemma {:induction false} ShopRunKeeps(cfgs: Id -> Settings, labels: map<Id, string>, x: Shop, es: seq<ShopStep>)
    requires (forall u :: Lawful(cfgs(u).lib)) && Distinct(labels)
    requires Joined(cfgs, labels, x) && ShopLegalRun(cfgs, labels, x, es)
    ensures Joined(cfgs, labels, ShopRun(cfgs, x, es))
    decreases es
  {
    hide Lawful, Distinct, Joined, ShopLegal, ShopNext;
    if es == [] {
    } else {
      ShopStepKeeps(cfgs, labels, x, es[0]);
      ShopRunKeeps(cfgs, labels, ShopNext(cfgs, x, es[0]), es[1..]);
    }
  }

  /** A host in order, which may have clients of its own but none with the shop's labels. */
  ghost predicate FreshHost(cfg: Settings, labels: map<Id, string>, d: Disk) {
    Good(cfg, d)
    && forall s :: s in labels ==> labels[s] !in Clients(Read(cfg.lib, d)) && labels[s] !in d.clients
  }

  /** An empty database beside such hosts. */
  ghost predicate FreshShop(cfgs: Id -> Settings, labels: map<Id, string>, hosts: map<Id, Disk>) {
    forall v :: v in hosts ==> FreshHost(cfgs(v), labels, hosts[v])
  }

  /** A host with an empty config is one. */
  lemma EmptyHostIsFresh(cfg: Settings, labels: map<Id, string>)
    ensures FreshHost(cfg, labels, Disk("", map[], map[], map[]))
  {
    var d := Disk("", map[], map[], map[]);
    var v := ViewOf(cfg.lib, PREAMBLE);
    var c := Read(cfg.lib, d);
    assert Views(cfg.lib, "") == [v];
    hide Views, ViewOf;
    assert v.header.None? by {
      PreambleHasNoHeader(cfg.lib);
    }
    assert c.views == [v] && c.views[1..] == [] && c.views[..0] == [];
    assert Pairwise(c.views[1..], NamesApart) && Pairwise(c.views[1..], KeysApart);
    assert LiveOf(c.views[..0]) == map[];
    forall n
      ensures n !in Clients(c)
    {
      ClientsAt(c, n);
      assert FindView(c.views[1..], n).None?;
    }
  }

  lemma PreambleHasNoHeader(lib: IpLib)
    ensures ViewOf(lib, PREAMBLE).header.None?
  {
  }

  lemma FreshIsJoined(cfgs: Id -> Settings, labels: map<Id, string>, now: Time, hosts: map<Id, Disk>)
    requires FreshShop(cfgs, labels, hosts)
    ensures Joined(cfgs, labels, Shop(Start(now), hosts))
  {
    hide Inv, Good, Clients, Read;
    StartKeeps(now);
    assert forall v :: PeersOn(Start(now).peers, Start(now).subs, v) == map[];
  }

  // ----- what customers get -----

  /** A peer block of that name is in the config, and the interface holds exactly its values. */
  predicate BlockIsLive(lib: IpLib, d: Disk, name: string) {
    exists v :: v in Views(lib, d.conf) && Named(v, name) && HoldsLive(d.live, v)
  }

  predicate HoldsLive(live: map<string, LivePeer>, v: View) {
    && v.publicKey.Some? && v.presharedKey.Some? && v.allowedIps.Some?
    && v.publicKey.value in live && live[v.publicKey.value] == LivePeer(v.presharedKey, v.allowedIps)
  }

  lemma EnabledIsLive(cfg: Settings, d: Disk, name: string)
    requires Good(cfg, d) && name in Clients(Read(cfg.lib, d)) && Complete(Clients(Read(cfg.lib, d))[name])
    ensures Clients(Read(cfg.lib, d))[name].enabled <==> BlockIsLive(cfg.lib, d, name)
  {
    hide Views, SavedView, SavedBlocks, Clients, LiveOf;
    var c := Read(cfg.lib, d);
    ClientsAt(c, name);
    FindMember(c.views, name);
    if FindView(c.views, name).Some? {
      var v := FindView(c.views, name).value;
      TidyKeys(c);
      hide Tidy;
      LiveValue(c.views, v, v.publicKey.value);
    }
  }

  lemma TidyKeys(c: Cards)
    requires Tidy(c)
    ensures Pairwise(c.views, KeysApart)
  {
    hide Pairwise, FindView;
  }

  lemma HostClient(cfg: Settings, labels: map<Id, string>, d: Disk, peers: map<Id, bool>, s: Id)
    requires HostJoined(cfg, labels, d, peers) && s in peers
    ensures s in labels && labels[s] in Clients(Read(cfg.lib, d))
    ensures peers[s] <==> BlockIsLive(cfg.lib, d, labels[s])
  {
    hide Good, Clients, Read, BlockIsLive;
    EnabledIsLive(cfg, d, labels[s]);
  }

  /** While all parts are joined, an active subscription's client is on the host of its server, and its block is
      in `awg1.conf` there and live, or an enable job for it has not succeeded. */
  lemma ActiveOnHost(cfgs: Id -> Settings, labels: map<Id, string>, x: Shop, s: Id)
    requires Joined(cfgs, labels, x) && s in x.world.subs && x.world.subs[s].status == Active
    ensures s in labels && x.world.subs[s].server in x.hosts
    ensures LiveOnServer(cfgs, labels, x, s) || EnableQueued(x.world.jobs, s)
  {
    hide Inv, HostJoined, BlockIsLive, EnableQueued;
    var v := x.world.subs[s].server;
    ActiveHasPeer(x.world, s);
    HostClient(cfgs(v), labels, x.hosts[v], PeersOn(x.world.peers, x.world.subs, v), s);
  }

  /** The subscription's block is in the config of its server's host, and live there. */
  predicate LiveOnServer(cfgs: Id -> Settings, labels: map<Id, string>, x: Shop, s: Id) {
    && s in x.world.subs && s in labels && x.world.subs[s].server in x.hosts
    && var v := x.world.subs[s].server; BlockIsLive(cfgs(v).lib, x.hosts[v], labels[s])
  }

  lemma ActiveHasPeer(w: World, s: Id)
    requires Inv(w) && s in w.subs && w.subs[s].status == Active
    ensures s in w.peers && (w.peers[s] || EnableQueued(w.jobs, s))
  {
    hide Queue, OneCreateJob, Effective, OrderFollows, ExpiryJobs, OpenOnce, Paid, Refs, EnableQueued;
    assert WellFormedSub(w.subs[s]);
  }

  /** In every reachable state of the shop, every active subscription is served on the host of its server. */
  lemma ActiveIsServedOnHost(cfgs: Id -> Settings, labels: map<Id, string>, now: Time, hosts: map<Id, Disk>,
                             es: seq<ShopStep>, s: Id)
    requires (forall u :: Lawful(cfgs(u).lib)) && Distinct(labels) && FreshShop(cfgs, labels, hosts)
    requires ShopLegalRun(cfgs, labels, Shop(Start(now), hosts), es)
    ensures var x := ShopRun(cfgs, Shop(Start(now), hosts), es);
            s in x.world.subs && x.world.subs[s].status == Active ==>
              LiveOnServer(cfgs, labels, x, s) || EnableQueued(x.world.jobs, s)
  {
    hide *;
    var x := ShopRun(cfgs, Shop(Start(now), hosts), es);
    FreshIsJoined(cfgs, labels, now, hosts);
    ShopRunKeeps(cfgs, labels, Shop(Start(now), hosts), es);
    if s in x.world.subs && x.world.subs[s].status == Active {
      ActiveOnHost(cfgs, labels, x, s);
    }
  }

  /** A peer's client is live on the host of its server exactly if the peer is on. */
  lemma OnIsLive(cfgs: Id -> Settings, labels: map<Id, string>, x: Shop, s: Id)
    requires Joined(cfgs, labels, x) && s in x.world.peers
    ensures x.world.peers[s] <==> LiveOnServer(cfgs, labels, x, s)
  {
    hide Inv, HostJoined, BlockIsLive;
    var v := x.world.subs[s].server;
    HostClient(cfgs(v), labels, x.hosts[v], PeersOn(x.world.peers, x.world.subs, v), s);
  }

  /** No step of the shop takes the live block away from an active subscription with time left. */
  lemma PaidUpStaysLive(cfgs: Id -> Settings, labels: map<Id, string>, x: Shop, e: ShopStep, s: Id)
    requires (forall u :: Lawful(cfgs(u).lib)) && Distinct(labels)
    requires Joined(cfgs, labels, x) && ShopLegal(cfgs, labels, x, e)
    requires PaidUp(x.world, s) && LiveOnServer(cfgs, labels, x, s)
    ensures LiveOnServer(cfgs, labels, ShopNext(cfgs, x, e), s)
  {
    JoinedIsInv(cfgs, labels, x);
    InvIsCore(x.world);
    hide Inv, Core, Joined, LiveOnServer, Next, Execute, Reaches, Lawful, Distinct, EnableQueued;
    ActiveHasPeer(x.world, s);
    OnIsLive(cfgs, labels, x, s);
    LegalIsOne(cfgs, labels, x, e);
    PaidUpStaysOn(x.world, e.step, s);
    ShopStepKeeps(cfgs, labels, x, e);
    OnIsLive(cfgs, labels, ShopNext(cfgs, x, e), s);
  }

  lemma JoinedIsInv(cfgs: Id -> Settings, labels: map<Id, string>, x: Shop)
    requires Joined(cfgs, labels, x)
    ensures Inv(x.world)
  {
    hide Inv, HostJoined, Homed;
  }

  lemma LegalIsOne(cfgs: Id -> Settings, labels: map<Id, string>, x: Shop, e: ShopStep)
    requires ShopLegal(cfgs, labels, x, e)
    ensures Legal(x.world, e.step)
  {
    hide Legal, Reaches, Carries;
  }
}
