/** What a payment, a grant of days and a retry lead to, from any reachable state. */
module ProtocolService {
  import opened Wrappers
  import opened Store
  import opened Protocol
  import opened ProtocolSteps
  import opened ProtocolWork
  import opened ProtocolRuns
  import opened ProtocolReplies
  import opened ProtocolTheorems
  import opened ProtocolQueue

  // ----- grants -----

  predicate OnOrQueued(w: World, s: Id) {
    s in w.peers && (w.peers[s] || EnableQueued(w.jobs, s))
  }

  lemma ActiveServed(w: World, s: Id)
    requires Inv(w) && s in w.subs && w.subs[s].status == Active
    ensures OnOrQueued(w, s)
  {
    hide Queue, OneCreateJob, Effective, OrderFollows, ExpiryJobs, OpenOnce, Paid, Refs, EnableQueued;
    PeerStatus(w, s);
  }

  lemma KnownStatus(w: World, s: Id)
    requires Core(w) && s in w.subs && w.subs[s].hasPeer
    ensures w.subs[s].status in {Active, Expired, Disabled}
  {
    PeerStatus(w, s);
  }

  /** Time added by `/extend` to a subscription whose peer was not removed leaves it active with time
      left, and its peer on or about to be. */
  lemma ExtendingRestores(w: World, s: Id, days: int)
    requires Inv(w) && s in w.subs && w.subs[s].hasPeer && w.subs[s].removedAt.None? && days > 0
    ensures PaidUp(Extend(w, s, days), s) && OnOrQueued(Extend(w, s, days), s)
  {
    hide Core, Inv, OnOrQueued, Extend;
    InvIsCore(w);
    KnownStatus(w, s);
    ExtendKeeps(w, s, days);
    ExtendedIsPaidUp(w, s, days);
    ActiveServed(Extend(w, s, days), s);
  }

  lemma ExtendedIsPaidUp(w: World, s: Id, days: int)
    requires s in w.subs && w.subs[s].hasPeer && w.subs[s].removedAt.None? && days > 0
    requires w.subs[s].status in {Active, Expired, Disabled}
    ensures PaidUp(Extend(w, s, days), s)
  {
  }

  /** So does a renewal that is approved. */
  lemma RenewingRestores(w: World, o: Id, s: Id, days: int)
    requires Inv(w) && o in w.orders && !AlreadyProcessed(w, o) && Renewable(w, o) == Some(s) && days > 0
    ensures PaidUp(ApproveOrder(w, o, days), s) && OnOrQueued(ApproveOrder(w, o, days), s)
  {
    hide Inv, OnOrQueued, HasOwnSub;
    ApproveKeeps(w, o, days);
    ActiveServed(ApproveOrder(w, o, days), s);
  }

  // ----- a first sale -----

  /** A subscription that was opened for an order by a create job: it runs out at `expiresAt` as long as it waits. */
  predicate Sale(w: World, o: Id, s: Id, j: Id, expiresAt: Time) {
    && IsCreateJob(w.jobs, j, s) && s in w.subs && w.subs[s].order == o
    && (!w.subs[s].hasPeer ==> w.subs[s].expiresAt == expiresAt)
  }

  /** The sale is done: an active subscription of the days paid for, with its peer on, and a fulfilled order. */
  predicate SaleServed(w: World, o: Id, s: Id, j: Id, expiresAt: Time, delivered: bool) {
    && s in w.subs && w.subs[s].status == Active && w.subs[s].expiresAt == expiresAt
    && PeerOn(w, s) && j in w.jobs && w.jobs[j].status == Succeeded
    && o in w.orders && w.orders[o].status == Fulfilled
    && (w.subs[s].delivery == Delivered <==> delivered)
  }

  lemma AttemptKeepsTerms(w: World, k: Id, outcome: Outcome, s: Id)
    requires s in w.subs
    ensures var subs' := Attempt(w, k, outcome).subs;
            && s in subs' && subs'[s].order == w.subs[s].order && subs'[s].expiresAt == w.subs[s].expiresAt
            && subs'[s].server == w.subs[s].server
            && (w.subs[s].hasPeer ==> subs'[s].hasPeer)
  {
    ProcessKeepsTerms(w, k, outcome, s);
    hide ProcessJob, FailedJob;
  }

  lemma ProcessKeepsTerms(w: World, k: Id, outcome: Outcome, s: Id)
    requires s in w.subs
    ensures var subs' := ProcessJob(w, k, outcome).world.subs;
            && s in subs' && subs'[s].order == w.subs[s].order && subs'[s].expiresAt == w.subs[s].expiresAt
            && subs'[s].server == w.subs[s].server
            && (w.subs[s].hasPeer ==> subs'[s].hasPeer)
  {
    hide Renewed;
  }

  lemma AttemptKeepsTask(w: World, k: Id, outcome: Outcome, j: Id)
    requires j in w.jobs
    ensures var jobs' := Attempt(w, k, outcome).jobs;
            j in jobs' && jobs'[j].kind == w.jobs[j].kind && jobs'[j].sub == w.jobs[j].sub
  {
    ProcessLeavesJobs(w, k, outcome);
    hide ProcessJob;
  }

  lemma ApproveKeepsTerms(w: World, o: Id, days: int, s: Id)
    requires s in w.subs && s < w.nextId
    ensures var subs' := PressApprove(w, o, days).subs;
            && s in subs' && subs'[s].order == w.subs[s].order && subs'[s].hasPeer == w.subs[s].hasPeer
            && subs'[s].server == w.subs[s].server
            && (!w.subs[s].hasPeer ==> subs'[s] == w.subs[s])
  {
    hide HasOwnSub;
  }

  lemma StepKeepsTask(w: World, step: Step, j: Id)
    requires Core(w) && Allowed(w, step) && j in w.jobs
    ensures var jobs' := Next(w, step).jobs;
            j in jobs' && jobs'[j].kind == w.jobs[j].kind && jobs'[j].sub == w.jobs[j].sub
  {
    hide Core, Attempt, PressApprove;
    KnownIds(w);
    match step
    case Approve(o, days) => ApproveLeavesJobs(w, o, days, j);
    case Work(k, worker, outcome) => AttemptKeepsTask(w, k, outcome, j);
    case ExpiryCheck(rows) => TicksLeaveJob(w, rows, [], [], j);
    case CleanUp(rows) => TicksLeaveJob(w, rows, [], [], j);
    case Remind(rows, thresholds) => TicksLeaveJob(w, rows, thresholds, [], j);
    case Retry(js) => RetryAllKeepsTasks(w, js);
    case _ =>
  }

  lemma StepKeepsTerms(w: World, step: Step, s: Id)
    requires Core(w) && Allowed(w, step) && s in w.subs
    ensures var subs' := Next(w, step).subs;
            && s in subs' && subs'[s].order == w.subs[s].order && subs'[s].server == w.subs[s].server
            && (w.subs[s].hasPeer ==> subs'[s].hasPeer)
            && (!w.subs[s].hasPeer ==> subs'[s].expiresAt == w.subs[s].expiresAt)
  {
    hide Core, Attempt, PressApprove;
    KnownIds(w);
    match step
    case Approve(o, days) => ApproveKeepsTerms(w, o, days, s);
    case Work(k, worker, outcome) => AttemptKeepsTerms(w, k, outcome, s);
    case ExpiryCheck(rows) => TicksLeaveRows(w, rows, [], []);
    case CleanUp(rows) => TicksLeaveRows(w, rows, [], []);
    case Remind(rows, thresholds) => TicksLeaveRows(w, rows, thresholds, []);
    case Retry(js) => TicksLeaveRows(w, [], [], js);
    case _ =>
  }

  /** A peer that was made for a subscription that still waits for it, because the reply was lost, is on. */
  predicate WaitingPeersOn(subs: map<Id, Sub>, peers: map<Id, bool>) {
    forall s :: s in subs && s in peers && !subs[s].hasPeer ==> peers[s]
  }

  lemma ProcessKeepsOn(w: World, k: Id, outcome: Outcome)
    requires WaitingPeersOn(w.subs, w.peers)
    ensures WaitingPeersOn(w.subs, ProcessJob(w, k, outcome).world.peers)
  {
    hide Renewed;
  }

  lemma AttemptKeepsOn(w: World, k: Id, outcome: Outcome)
    requires WaitingPeersOn(w.subs, w.peers)
    ensures WaitingPeersOn(w.subs, Attempt(w, k, outcome).peers)
  {
    ProcessKeepsOn(w, k, outcome);
    hide ProcessJob, FailedJob, WaitingPeersOn;
  }

  lemma StepKeepsOn(w: World, step: Step)
    requires Core(w) && Allowed(w, step) && WaitingPeersOn(w.subs, w.peers)
    ensures WaitingPeersOn(Next(w, step).subs, Next(w, step).peers)
  {
    hide Core, Next, Allowed;
    PeersKnown(w);
    CoreStepKeeps(w, step);
    PeersKnown(Next(w, step));
    if step.Work? {
      WorkIsAttempt(w, step);
      AttemptKeepsOn(w, step.j, step.outcome);
      if step.j in w.jobs {
        AttemptPeers(w, step.j, step.outcome);
      }
    } else {
      StepKeepsSubs(w, step);
    }
    forall s | s in w.subs
      ensures s in Next(w, step).subs && (w.subs[s].hasPeer ==> Next(w, step).subs[s].hasPeer)
    {
      StepKeepsTerms(w, step, s);
    }
  }

  lemma WorkIsAttempt(w: World, step: Step)
    requires step.Work? && Allowed(w, step)
    ensures step.j in w.jobs && Next(w, step) == Attempt(w, step.j, step.outcome)
  {
    hide Attempt;
  }

  lemma {:induction false} RunKeepsSale(w: World, steps: seq<Step>, o: Id, s: Id, j: Id, expiresAt: Time)
    requires Core(w) && AllowedRun(w, steps) && WaitingPeersOn(w.subs, w.peers) && Sale(w, o, s, j, expiresAt)
    ensures var w' := Run(w, steps);
            Core(w') && WaitingPeersOn(w'.subs, w'.peers) && Sale(w', o, s, j, expiresAt)
    decreases steps
  {
    hide Core, Next, Allowed, WaitingPeersOn;
    if steps == [] {
    } else {
      CoreStepKeeps(w, steps[0]);
      StepKeepsOn(w, steps[0]);
      StepKeepsTask(w, steps[0], j);
      StepKeepsTerms(w, steps[0], s);
      RunKeepsSale(Next(w, steps[0]), steps[1..], o, s, j, expiresAt);
    }
  }

  /** The worker that holds a create job whose call works serves the sale, whatever came before. */
  lemma WorkServes(w: World, o: Id, s: Id, j: Id, expiresAt: Time, worker: Worker, delivered: bool)
    requires Core(w) && WaitingPeersOn(w.subs, w.peers) && Sale(w, o, s, j, expiresAt) && Holds(w, j, worker)
    ensures SaleServed(Attempt(w, j, Works(delivered)), o, s, j, expiresAt, delivered)
  {
    hide Core, Attempt, CreateDone;
    CreateWaits(w, j);
    CreateIsDone(w, j, delivered);
    DoneServes(w, o, s, j, expiresAt, delivered);
  }

  lemma CreateIsDone(w: World, j: Id, delivered: bool)
    requires j in w.jobs && w.jobs[j].kind == CreatePeer && w.jobs[j].sub in w.subs
    requires w.jobs[j].sub in w.peers ==> w.peers[w.jobs[j].sub]
    requires w.subs[w.jobs[j].sub].order in w.orders
    ensures Attempt(w, j, Works(delivered)) == CreateDone(w, j, delivered)
  {
    hide ProcessDisable, ProcessRemove, ProcessEnable, ProcessRedeliver, FailedJob;
  }

  lemma DoneServes(w: World, o: Id, s: Id, j: Id, expiresAt: Time, delivered: bool)
    requires Sale(w, o, s, j, expiresAt) && !w.subs[s].hasPeer && o in w.orders
    ensures SaleServed(CreateDone(w, j, delivered), o, s, j, expiresAt, delivered)
  {
  }

  /** An approved first sale is served once a worker's call for its create job works, whatever runs in
      between: other sales, claims, failures and lost replies of this very job, retries, days passing. */
  lemma SaleIsServed(w: World, o: Id, days: int, steps: seq<Step>, worker: Worker, delivered: bool)
    requires Core(w) && WaitingPeersOn(w.subs, w.peers) && o in w.orders
    requires w.orders[o].status in {ReceiptSubmitted, AwaitingReceipt} && Renewable(w, o).None?
    requires AllowedRun(PressApprove(w, o, days), steps)
    requires Holds(Run(PressApprove(w, o, days), steps), w.nextId + 1, worker)
    ensures w.nextId !in w.subs
    ensures var w' := Attempt(Run(PressApprove(w, o, days), steps), w.nextId + 1, Works(delivered));
            SaleServed(w', o, w.nextId, w.nextId + 1, w.now + days * DAY, delivered)
  {
    hide *;
    var s, j, expiresAt := w.nextId, w.nextId + 1, w.now + days * DAY;
    var approved := PressApprove(w, o, days);
    ApprovingIsStep(w, o, days);
    CoreStepKeeps(w, Approve(o, days));
    StepKeepsOn(w, Approve(o, days));
    PressOpens(w, o, days);
    OpeningIsSale(w, o, days);
    RunKeepsSale(approved, steps, o, s, j, expiresAt);
    WorkServes(Run(approved, steps), o, s, j, expiresAt, worker, delivered);
  }

  lemma ApprovingIsStep(w: World, o: Id, days: int)
    ensures Allowed(w, Approve(o, days)) && Next(w, Approve(o, days)) == PressApprove(w, o, days)
  {
    hide PressApprove;
  }

  /** It holds in every run that starts so, with or without lost replies. */
  lemma {:induction false} RunKeepsOn(w: World, steps: seq<Step>)
    requires Core(w) && AllowedRun(w, steps) && WaitingPeersOn(w.subs, w.peers)
    ensures WaitingPeersOn(Run(w, steps).subs, Run(w, steps).peers)
    decreases steps
  {
    hide Core, Next, Allowed, WaitingPeersOn;
    if steps == [] {
    } else {
      CoreStepKeeps(w, steps[0]);
      StepKeepsOn(w, steps[0]);
      RunKeepsOn(Next(w, steps[0]), steps[1..]);
    }
  }

  /** And its job can be claimed at once. */
  lemma SaleIsClaimable(w: World, o: Id, days: int, worker: Worker)
    requires Core(w) && o in w.orders && w.orders[o].status in {ReceiptSubmitted, AwaitingReceipt}
    requires Renewable(w, o).None?
    ensures var approved := PressApprove(w, o, days);
            && CanClaim(approved, w.nextId + 1, w.now)
            && Holds(Claim(approved, w.nextId + 1, worker, w.now), w.nextId + 1, worker)
  {
    hide *;
    PressOpens(w, o, days);
    OpeningIsClaimable(w, o, days, worker);
  }

  lemma OpeningIsClaimable(w: World, o: Id, days: int, worker: Worker)
    requires o in w.orders
    ensures var w1 := OpenSubscription(w, o, days);
            && CanClaim(w1, w.nextId + 1, w.now)
            && Holds(Claim(w1, w.nextId + 1, worker, w.now), w.nextId + 1, worker)
  {
  }

  lemma OpeningIsSale(w: World, o: Id, days: int)
    requires o in w.orders
    ensures Sale(OpenSubscription(w, o, days), o, w.nextId, w.nextId + 1, w.now + days * DAY)
  {
  }

  lemma PressOpens(w: World, o: Id, days: int)
    requires Core(w) && o in w.orders && w.orders[o].status in {ReceiptSubmitted, AwaitingReceipt}
             && Renewable(w, o).None?
    ensures PressApprove(w, o, days) == OpenSubscription(w, o, days) && w.nextId !in w.subs
  {
    hide Core, HasOwnSub, Renewable, OpenSubscription, Effects;
    NoEffectYet(w, o);
    KnownIds(w);
  }

  // ----- retries -----

  lemma RetryOneKeepsTasks(w: World, k: Id)
    ensures RetryOne(w, k).jobs.Keys == w.jobs.Keys && RetryOne(w, k).subs == w.subs && RetryOne(w, k).now == w.now
    ensures forall j :: j in w.jobs ==>
                          RetryOne(w, k).jobs[j].kind == w.jobs[j].kind && RetryOne(w, k).jobs[j].sub == w.jobs[j].sub
    ensures forall j :: j in w.jobs && j != k ==> RetryOne(w, k).jobs[j] == w.jobs[j]
  {
    hide MayRetry;
  }

  lemma {:induction false} RetryAllKeepsTasks(w: World, js: seq<Id>)
    ensures var w' := RetryAll(w, js);
            && w'.jobs.Keys == w.jobs.Keys && w'.subs == w.subs && w'.now == w.now
            && forall j :: j in w.jobs ==> w'.jobs[j].kind == w.jobs[j].kind && w'.jobs[j].sub == w.jobs[j].sub
  {
    hide RetryOne;
    if js == [] {
    } else {
      RetryAllKeepsTasks(w, js[..|js| - 1]);
      RetryOneKeepsTasks(RetryAll(w, js[..|js| - 1]), js[|js| - 1]);
    }
  }

  /** A retry adds its job to the open ones of its task, which were none, and to no others. */
  lemma RetryOneOpens(w: World, k: Id, kind: JobKind, s: Id)
    requires k in w.jobs && w.jobs[k].status == PermanentFailure && MayRetry(w, w.jobs[k])
    ensures OpenJobs(RetryOne(w, k).jobs, kind, s)
         == if w.jobs[k].kind == kind && w.jobs[k].sub == s then {k} else OpenJobs(w.jobs, kind, s)
  {
    var after := RetryOne(w, k).jobs;
    forall j
      ensures j in OpenJobs(after, kind, s)
              <==> (j == k && w.jobs[k].kind == kind && w.jobs[k].sub == s)
                   || (j != k && j in OpenJobs(w.jobs, kind, s))
    {
    }
  }

  /** Running the job again is right: its subscription is there, and still waits for its peer or is
      active with time left, where that is what the job is for. */
  predicate WorthRunning(w: World, job: Job) {
    && job.sub in w.subs
    && (job.kind == CreatePeer ==> w.subs[job.sub].status == Provisioning)
    && (job.kind == EnablePeer ==> PaidUp(w, job.sub))
  }

  /** However many jobs an admin retries at once, each one queued again is the only open job for its
      task, and worth running. */
  lemma {:induction false} RetriedIsAlone(w: World, js: seq<Id>, j: Id)
    requires j in w.jobs && w.jobs[j].status == PermanentFailure
    requires j in RetryAll(w, js).jobs && RetryAll(w, js).jobs[j].status != PermanentFailure
    ensures OpenJobs(RetryAll(w, js).jobs, w.jobs[j].kind, w.jobs[j].sub) == {j}
    ensures RetryAll(w, js).jobs[j].status == Pending && WorthRunning(w, w.jobs[j])
  {
    hide OpenJobs, WorthRunning;
    if js == [] {
    } else {
      var w1, k := RetryAll(w, js[..|js| - 1]), js[|js| - 1];
      RetryAllKeepsTasks(w, js[..|js| - 1]);
      if w1.jobs[j].status != PermanentFailure {
        RetriedIsAlone(w, js[..|js| - 1], j);
        if k in w1.jobs && w1.jobs[k].status == PermanentFailure && MayRetry(w1, w1.jobs[k]) {
          OpenBlocks(w1, j, k);
          RetryOneOpens(w1, k, w.jobs[j].kind, w.jobs[j].sub);
        }
      } else {
        RetryOneOpens(w1, k, w.jobs[j].kind, w.jobs[j].sub);
        WorthIt(w1, w1.jobs[j]);
        SameWorth(w, w1, w.jobs[j], w1.jobs[j]);
      }
    }
  }

  lemma OpenBlocks(w: World, j: Id, k: Id)
    requires j in w.jobs && OpenJobs(w.jobs, w.jobs[j].kind, w.jobs[j].sub) == {j}
    requires k in w.jobs && MayRetry(w, w.jobs[k])
    ensures w.jobs[k].kind != w.jobs[j].kind || w.jobs[k].sub != w.jobs[j].sub
  {
    assert j in OpenJobs(w.jobs, w.jobs[j].kind, w.jobs[j].sub);
  }

  lemma WorthIt(w: World, job: Job)
    requires MayRetry(w, job)
    ensures WorthRunning(w, job)
  {
    hide HasOpenJob;
  }

  lemma SameWorth(w: World, w': World, a: Job, b: Job)
    requires w'.subs == w.subs && w'.now == w.now && a.kind == b.kind && a.sub == b.sub && WorthRunning(w', b)
    ensures WorthRunning(w, a)
  {
  }
}
