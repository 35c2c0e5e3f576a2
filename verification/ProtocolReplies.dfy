/**
 Lost replies. To the database, a call whose reply is lost is a call that failed: the nine invariants that
 do not involve the peers hold over every run in which replies may be lost, too.
 */
module ProtocolReplies {
  import opened Wrappers
  import opened Store
  import opened Protocol
  import opened ProtocolSteps
  import opened ProtocolWork
  import opened ProtocolRuns

  // ----- a host on which every peer is on -----

  function AllOn(subs: map<Id, Sub>): map<Id, bool> {
    map s | s in subs && subs[s].hasPeer :: true
  }

  /** The same database beside such a host, where every subscription is served. */
  function Ideal(w: World): World {
    w.(peers := AllOn(w.subs))
  }

  lemma IdealIsServed(w: World)
    requires Core(w)
    ensures Inv(Ideal(w))
  {
    hide Core, Served;
    PeersCore(w, AllOn(w.subs));
    AllOnServed(w.subs, w.jobs);
  }

  lemma AllOnServed(subs: map<Id, Sub>, jobs: map<Id, Job>)
    ensures Served(subs, AllOn(subs), jobs)
  {
  }

  /** The steps of the database that do not call the host do not look at it. */
  lemma QuietStepsIgnorePeers(w: World, peers: map<Id, bool>, step: Step)
    requires !step.Work?
    ensures Next(w.(peers := peers), step) == Next(w, step).(peers := peers)
  {
    hide ExpireAll, CleanUpAll, RemindAll, RetryAll, PressApprove, Extend, RejectOrder, Claim;
    match step
    case Approve(o, days) => ApproveIgnoresPeers(w, peers, o, days);
    case ExtendBy(s, days) => ExtendIgnoresPeers(w, peers, s, days);
    case Reject(o) => OrdersIgnorePeers(w, peers, o);
    case ClaimJob(j, worker, at) => ClaimIgnoresPeers(w, peers, j, worker, at);
    case ExpiryCheck(rows) => TicksIgnorePeers(w, peers, rows, [], []);
    case CleanUp(rows) => TicksIgnorePeers(w, peers, rows, [], []);
    case Remind(rows, thresholds) => TicksIgnorePeers(w, peers, rows, thresholds, []);
    case Retry(js) => TicksIgnorePeers(w, peers, [], [], js);
    case _ =>
  }

  lemma OrdersIgnorePeers(w: World, peers: map<Id, bool>, o: Id)
    ensures RejectOrder(w.(peers := peers), o) == RejectOrder(w, o).(peers := peers)
  {
  }

  lemma ClaimIgnoresPeers(w: World, peers: map<Id, bool>, j: Id, worker: Worker, at: Time)
    ensures Claim(w.(peers := peers), j, worker, at) == Claim(w, j, worker, at).(peers := peers)
  {
    hide Claimable;
  }

  lemma RenewIgnoresPeers(w: World, peers: map<Id, bool>, o: Id, s: Id, days: int)
    requires o in w.orders && s in w.subs
    ensures Renew(w.(peers := peers), o, s, days) == Renew(w, o, s, days).(peers := peers)
  {
    hide Later, Lapsed;
  }

  lemma OpenIgnoresPeers(w: World, peers: map<Id, bool>, o: Id, days: int)
    requires o in w.orders
    ensures OpenSubscription(w.(peers := peers), o, days) == OpenSubscription(w, o, days).(peers := peers)
  {
  }

  lemma ApproveIgnoresPeers(w: World, peers: map<Id, bool>, o: Id, days: int)
    ensures PressApprove(w.(peers := peers), o, days) == PressApprove(w, o, days).(peers := peers)
  {
    hide HasOwnSub, Renew, OpenSubscription;
    if o in w.orders && !AlreadyProcessed(w, o) {
      match Renewable(w, o)
      case Some(s) => RenewIgnoresPeers(w, peers, o, s, days);
      case None => OpenIgnoresPeers(w, peers, o, days);
    }
  }

  lemma ExtendIgnoresPeers(w: World, peers: map<Id, bool>, s: Id, days: int)
    ensures Extend(w.(peers := peers), s, days) == Extend(w, s, days).(peers := peers)
  {
    hide ExtendedSub, Lapsed;
  }

  lemma ExpireIgnoresPeers(w: World, peers: map<Id, bool>, s: Id)
    ensures ExpireOne(w.(peers := peers), s) == ExpireOne(w, s).(peers := peers)
  {
    hide HasOpenJob, DateOf;
  }

  lemma CleanUpIgnoresPeers(w: World, peers: map<Id, bool>, s: Id)
    ensures CleanUpOne(w.(peers := peers), s) == CleanUpOne(w, s).(peers := peers)
  {
    hide HasOpenJob;
  }

  lemma RemindIgnoresPeers(w: World, peers: map<Id, bool>, s: Id, days: seq<int>)
    ensures RemindOne(w.(peers := peers), s, days) == RemindOne(w, s, days).(peers := peers)
  {
    hide DueReminder, DateOf;
  }

  lemma RetryIgnoresPeers(w: World, peers: map<Id, bool>, j: Id)
    ensures RetryOne(w.(peers := peers), j) == RetryOne(w, j).(peers := peers)
  {
    hide HasOpenJob;
  }

  lemma {:induction false} TicksIgnorePeers(w: World, peers: map<Id, bool>, rows: seq<Id>, days: seq<int>, js: seq<Id>)
    ensures ExpireAll(w.(peers := peers), rows) == ExpireAll(w, rows).(peers := peers)
    ensures CleanUpAll(w.(peers := peers), rows) == CleanUpAll(w, rows).(peers := peers)
    ensures RemindAll(w.(peers := peers), rows, days) == RemindAll(w, rows, days).(peers := peers)
    ensures RetryAll(w.(peers := peers), js) == RetryAll(w, js).(peers := peers)
    decreases |rows| + |js|
  {
    hide ExpireOne, CleanUpOne, RemindOne, RetryOne;
    if rows == [] && js == [] {
    } else if rows != [] {
      var init, last := rows[..|rows| - 1], rows[|rows| - 1];
      TicksIgnorePeers(w, peers, init, days, js);
      ExpireIgnoresPeers(ExpireAll(w, init), peers, last);
      CleanUpIgnoresPeers(CleanUpAll(w, init), peers, last);
      RemindIgnoresPeers(RemindAll(w, init, days), peers, last, days);
    } else {
      TicksIgnorePeers(w, peers, rows, days, js[..|js| - 1]);
      RetryIgnoresPeers(RetryAll(w, js[..|js| - 1]), peers, js[|js| - 1]);
    }
  }

  // ----- a turn -----

  /** How the call would have to go beside the ideal host for the database to end up the same. */
  function Seen(w: World, j: Id, outcome: Outcome): Outcome {
    match ProcessJob(w, j, outcome).raised
    case Some(permanent) => Fails(permanent)
    case None => outcome
  }

  lemma SeenRaises(w: World, j: Id, outcome: Outcome)
    requires j in w.jobs && ProcessJob(w, j, outcome).raised.Some?
    requires w.jobs[j].sub in w.subs
    ensures ProcessJob(Ideal(w), j, Seen(w, j, outcome)) == Processed(Ideal(w), ProcessJob(w, j, outcome).raised)
  {
    hide Renewed, AllOn;
  }

  lemma SeenWorks(w: World, j: Id, outcome: Outcome)
    requires j in w.jobs && ProcessJob(w, j, outcome).raised.None?
    ensures var p, q := ProcessJob(w, j, outcome), ProcessJob(Ideal(w), j, outcome);
            q.raised.None? && q.world == p.world.(peers := q.world.peers)
    ensures outcome.BreaksAfter? ==> ProcessJob(Ideal(w), j, Works(true)) == ProcessJob(Ideal(w), j, outcome)
  {
    hide Renewed, ProcessCreate, ProcessDisable, ProcessRemove, ProcessEnable, ProcessRedeliver;
    var job := w.jobs[j];
    match job.kind
    case CreatePeer => CreateSeen(w, job.sub, outcome);
    case DisablePeer => OffSeen(w, job.sub, job, outcome);
    case RemovePeer => OffSeen(w, job.sub, job, outcome);
    case EnablePeer => OnSeen(w, job.sub, outcome);
    case Redeliver => OnSeen(w, job.sub, outcome);
  }

  predicate SeenAlike(p: Processed, q: Processed) {
    p.raised.None? ==> q.raised.None? && q.world == p.world.(peers := q.world.peers)
  }

  lemma CreateSeen(w: World, s: Id, outcome: Outcome)
    ensures SeenAlike(ProcessCreate(w, s, outcome), ProcessCreate(Ideal(w), s, outcome))
    ensures ProcessCreate(w, s, outcome).raised.None? ==> !outcome.BreaksAfter?
  {
    hide AllOn;
  }

  lemma OffSeen(w: World, s: Id, job: Job, outcome: Outcome)
    ensures SeenAlike(ProcessDisable(w, s, job, outcome), ProcessDisable(Ideal(w), s, job, outcome))
    ensures SeenAlike(ProcessRemove(w, s, job, outcome), ProcessRemove(Ideal(w), s, job, outcome))
    ensures outcome.BreaksAfter? && ProcessDisable(w, s, job, outcome).raised.None? ==>
              ProcessDisable(Ideal(w), s, job, Works(true)) == ProcessDisable(Ideal(w), s, job, outcome)
    ensures outcome.BreaksAfter? && ProcessRemove(w, s, job, outcome).raised.None? ==>
              ProcessRemove(Ideal(w), s, job, Works(true)) == ProcessRemove(Ideal(w), s, job, outcome)
  {
    hide Renewed, AllOn;
  }

  lemma OnSeen(w: World, s: Id, outcome: Outcome)
    ensures SeenAlike(ProcessEnable(w, s, outcome), ProcessEnable(Ideal(w), s, outcome))
    ensures SeenAlike(ProcessRedeliver(w, s, outcome), ProcessRedeliver(Ideal(w), s, outcome))
    ensures outcome.BreaksAfter? && ProcessEnable(w, s, outcome).raised.None? ==>
              ProcessEnable(Ideal(w), s, Works(true)) == ProcessEnable(Ideal(w), s, outcome)
    ensures outcome.BreaksAfter? && ProcessRedeliver(w, s, outcome).raised.None? ==>
              ProcessRedeliver(Ideal(w), s, Works(true)) == ProcessRedeliver(Ideal(w), s, outcome)
  {
  }

  /** The turn beside the ideal host. */
  function IdealOutcome(w: World, j: Id, outcome: Outcome): Outcome {
    if Seen(w, j, outcome).BreaksAfter? then Works(true) else Seen(w, j, outcome)
  }

  lemma AttemptIdeal(w: World, j: Id, outcome: Outcome)
    requires j in w.jobs && w.jobs[j].sub in w.subs
    ensures var w1, w2 := Attempt(w, j, outcome), Attempt(Ideal(w), j, IdealOutcome(w, j, outcome));
            w1 == w2.(peers := w1.peers)
  {
    if ProcessJob(w, j, outcome).raised.Some? {
      SeenRaises(w, j, outcome);
    } else {
      SeenWorks(w, j, outcome);
    }
    hide ProcessJob, FailedJob, AllOn;
  }

  lemma AttemptPeers(w: World, j: Id, outcome: Outcome)
    requires j in w.jobs && w.jobs[j].sub in w.subs
    ensures forall s :: s in Attempt(w, j, outcome).peers ==> s in w.peers || s == w.jobs[j].sub
    ensures forall s :: s in w.subs ==> s in Attempt(w, j, outcome).subs
  {
    ProcessPeers(w, j, outcome);
    hide ProcessJob, FailedJob;
  }

  lemma ProcessPeers(w: World, j: Id, outcome: Outcome)
    requires j in w.jobs && w.jobs[j].sub in w.subs
    ensures forall s :: s in ProcessJob(w, j, outcome).world.peers ==> s in w.peers || s == w.jobs[j].sub
    ensures forall s :: s in w.subs ==> s in ProcessJob(w, j, outcome).world.subs
  {
    hide Renewed;
  }

  // ----- steps and runs -----

  lemma CoreAttemptKeeps(w: World, j: Id, outcome: Outcome)
    requires Core(w) && InWork(w, j)
    ensures Core(Attempt(w, j, outcome))
  {
    hide Core, Attempt, Ideal, Seen, IdealOutcome;
    PeersKnown(w);
    IdealIsServed(w);
    IdealOutcomeLegal(w, j, outcome);
    IdealJobs(w);
    AttemptKeeps(Ideal(w), j, IdealOutcome(w, j, outcome));
    AttemptIdeal(w, j, outcome);
    AttemptPeers(w, j, outcome);
    PeersCore(Attempt(Ideal(w), j, IdealOutcome(w, j, outcome)), Attempt(w, j, outcome).peers);
  }

  lemma IdealOutcomeLegal(w: World, j: Id, outcome: Outcome)
    ensures !IdealOutcome(w, j, outcome).BreaksAfter?
  {
  }

  lemma IdealJobs(w: World)
    ensures Ideal(w).jobs == w.jobs
  {
  }

  lemma StepKeepsSubs(w: World, step: Step)
    requires !step.Work?
    ensures Next(w, step).peers == w.peers && forall s :: s in w.subs ==> s in Next(w, step).subs
  {
    hide ExpireAll, CleanUpAll, RemindAll, RetryAll, HasOwnSub, Later, Lapsed, ExtendedSub, Claimable;
    match step
    case ExpiryCheck(rows) => TicksKeepSubs(w, rows, [], []);
    case CleanUp(rows) => TicksKeepSubs(w, rows, [], []);
    case Remind(rows, thresholds) => TicksKeepSubs(w, rows, thresholds, []);
    case Retry(js) => TicksKeepSubs(w, [], [], js);
    case _ =>
  }

  lemma {:induction false} TicksKeepSubs(w: World, rows: seq<Id>, days: seq<int>, js: seq<Id>)
    ensures ExpireAll(w, rows).subs == w.subs && ExpireAll(w, rows).peers == w.peers
    ensures CleanUpAll(w, rows).subs == w.subs && CleanUpAll(w, rows).peers == w.peers
    ensures RemindAll(w, rows, days).subs == w.subs && RemindAll(w, rows, days).peers == w.peers
    ensures RetryAll(w, js).subs == w.subs && RetryAll(w, js).peers == w.peers
    decreases |rows| + |js|
  {
    if rows == [] && js == [] {
    } else if rows != [] {
      TicksKeepSubs(w, rows[..|rows| - 1], days, js);
    } else {
      TicksKeepSubs(w, rows, days, js[..|js| - 1]);
    }
  }

  lemma CoreQuietKeeps(w: World, step: Step)
    requires Core(w) && Allowed(w, step) && !step.Work?
    ensures Core(Next(w, step))
  {
    hide Core, Next, AllOn;
    PeersKnown(w);
    IdealIsServed(w);
    AllowedIdeal(w, step);
    StepKeeps(Ideal(w), step);
    QuietStepsIgnorePeers(w, AllOn(w.subs), step);
    StepKeepsSubs(w, step);
    PeersCore(Next(Ideal(w), step), w.peers);
    assert Next(w, step) == Next(Ideal(w), step).(peers := w.peers);
  }

  lemma AllowedIdeal(w: World, step: Step)
    requires Allowed(w, step)
    ensures Allowed(Ideal(w), step)
  {
  }

  lemma CoreTicksKeep(w: World, rows: seq<Id>)
    requires Core(w)
    ensures Core(ExpireAll(w, rows)) && Core(CleanUpAll(w, rows))
  {
    hide Core, ExpireAll, CleanUpAll;
    CoreQuietKeeps(w, ExpiryCheck(rows));
    CoreQuietKeeps(w, CleanUp(rows));
  }

  /** Every step keeps the nine invariants, whether or not its reply is lost. */
  lemma CoreStepKeeps(w: World, step: Step)
    requires Core(w) && Allowed(w, step)
    ensures Core(Next(w, step))
  {
    hide Core, Attempt;
    if step.Work? {
      CoreAttemptKeeps(w, step.j, step.outcome);
    } else {
      CoreQuietKeeps(w, step);
    }
  }

  /** Over every interleaving with lost replies, from the empty database, they hold. */
  lemma {:induction false} CoreRunKeeps(w: World, steps: seq<Step>)
    requires Core(w) && AllowedRun(w, steps)
    ensures Core(Run(w, steps))
    decreases steps
  {
    hide Core, Next, Allowed;
    if steps == [] {
    } else {
      CoreStepKeeps(w, steps[0]);
      CoreRunKeeps(Next(w, steps[0]), steps[1..]);
    }
  }

  lemma ReachableCore(now: Time, steps: seq<Step>)
    requires AllowedRun(Start(now), steps)
    ensures Core(Run(Start(now), steps))
  {
    hide Core, Run, AllowedRun;
    StartKeeps(now);
    CoreRunKeeps(Start(now), steps);
  }

  lemma InvIsCore(w: World)
    requires Inv(w)
    ensures Core(w)
  {
  }

  /** A legal run is one in which no reply is lost. */
  lemma {:induction false} LegalIsAllowed(w: World, steps: seq<Step>)
    ensures LegalRun(w, steps) <==> AllowedRun(w, steps) && forall step :: step in steps ==> NothingLost(step)
    decreases steps
  {
    hide Next, Allowed, NothingLost;
    if steps == [] {
    } else {
      LegalIsAllowed(Next(w, steps[0]), steps[1..]);
    }
  }
}
