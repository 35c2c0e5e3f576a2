/** What every legal run of the bot, the scheduler, the workers and the admin keeps. */
module ProtocolTheorems {
  import opened Wrappers
  import opened Store
  import opened Protocol
  import opened ProtocolSteps
  import opened ProtocolWork
  import opened ProtocolRuns
  import opened ProtocolReplies

  // ----- customers are served -----

  /** In every reachable state, an active subscription with a peer has it on, or an enable job that has
      not succeeded; and it was never removed. */
  lemma ActiveIsServed(now: Time, steps: seq<Step>, s: Id)
    requires LegalRun(Start(now), steps)
    ensures var w := Run(Start(now), steps);
            s in w.subs && w.subs[s].status == Active ==>
              w.subs[s].removedAt.None? && s in w.peers && (w.peers[s] || EnableQueued(w.jobs, s))
  {
    ReachableInv(now, steps);
    hide Run, LegalRun, Queue, OneCreateJob, Effective, OrderFollows, ExpiryJobs, OpenOnce, Paid;
    var w := Run(Start(now), steps);
    if s in w.subs && w.subs[s].status == Active {
      assert WellFormedSub(w.subs[s]);
    }
  }

  predicate PeerOn(w: World, s: Id) {
    s in w.peers && w.peers[s]
  }

  predicate PaidUp(w: World, s: Id) {
    s in w.subs && w.subs[s].status == Active && w.subs[s].expiresAt > w.now
  }

  /** No step turns off or removes the peer of an active subscription that has time left. */
  lemma PaidUpStaysOn(w: World, step: Step, s: Id)
    requires Core(w) && Allowed(w, step) && PaidUp(w, s) && PeerOn(w, s)
    ensures PeerOn(Next(w, step), s)
  {
    hide Core, Attempt;
    match step
    case Work(j, worker, outcome) =>
      ExpiryFact(w, j);
      AttemptLeavesOn(w, j, outcome, s);
    case _ => OnlyWorkTouchesPeers(w, step);
  }

  lemma OnlyWorkTouchesPeers(w: World, step: Step)
    requires !step.Work?
    ensures Next(w, step).peers == w.peers
  {
    match step
    case ExpiryCheck(rows) => TicksLeavePeers(w, rows, [], []);
    case CleanUp(rows) => TicksLeavePeers(w, rows, [], []);
    case Remind(rows, thresholds) => TicksLeavePeers(w, rows, thresholds, []);
    case Retry(js) => TicksLeavePeers(w, [], [], js);
    case _ =>
  }

  lemma ExpiryFact(w: World, j: Id)
    requires Core(w)
    ensures j in w.jobs && w.jobs[j].kind in {DisablePeer, RemovePeer} ==> IsExpiry(w.jobs[j].reason)
  {
    hide Refs, Queue, OneCreateJob, Waiting, Effective, OrderFollows, OpenOnce, Paid;
  }

  lemma AttemptLeavesOn(w: World, j: Id, outcome: Outcome, s: Id)
    requires InWork(w, j) && PaidUp(w, s) && PeerOn(w, s)
    requires w.jobs[j].kind in {DisablePeer, RemovePeer} ==> IsExpiry(w.jobs[j].reason)
    ensures PeerOn(Attempt(w, j, outcome), s)
  {
    hide FailedJob;
  }

  lemma {:induction false} TicksLeavePeers(w: World, rows: seq<Id>, days: seq<int>, js: seq<Id>)
    ensures ExpireAll(w, rows).peers == w.peers && CleanUpAll(w, rows).peers == w.peers
    ensures RemindAll(w, rows, days).peers == w.peers && RetryAll(w, js).peers == w.peers
    decreases |rows| + |js|
  {
    if rows == [] && js == [] {
    } else if rows != [] {
      TicksLeavePeers(w, rows[..|rows| - 1], days, js);
    } else {
      TicksLeavePeers(w, rows, days, js[..|js| - 1]);
    }
  }

  // ----- orders take effect once -----

  /** In every reachable state, an order took effect once if it is provisioning or fulfilled, and never otherwise. */
  lemma EffectOnce(now: Time, steps: seq<Step>, o: Id)
    requires AllowedRun(Start(now), steps)
    ensures var w := Run(Start(now), steps);
            o in w.orders ==> Effects(w.subs, w.grants, o) == if TookEffect(w.orders[o]) then 1 else 0
  {
    ReachableCore(now, steps);
    hide Run, AllowedRun, Queue, OneCreateJob, Waiting, OrderFollows, ExpiryJobs, OpenOnce, Paid, Effects;
  }

  /** A receipt sent for an order in any status keeps "once" exactly when the order has not taken effect. */
  lemma SubmitKeepsOnceIff(w: World, o: Id)
    requires Core(w) && o in w.orders
    ensures Effective(SubmitReceipt(w, o).orders, SubmitReceipt(w, o).subs, SubmitReceipt(w, o).grants)
            <==> !TookEffect(w.orders[o])
  {
    hide Refs, Queue, OneCreateJob, Waiting, OrderFollows, ExpiryJobs, OpenOnce, Paid, Effects;
    if !TookEffect(w.orders[o]) {
      StatusKeeps(w, o, ReceiptSubmitted);
    } else {
      assert Effects(w.subs, w.grants, o) == 1;
      assert o in SubmitReceipt(w, o).orders && !TookEffect(SubmitReceipt(w, o).orders[o]);
    }
  }

  /** A receipt sent for a rejected order opens it again: the next approval takes effect. */
  lemma LateReceiptReopens(w: World, o: Id, days: int)
    requires Core(w) && o in w.orders && w.orders[o].status == Rejected
    ensures var w' := PressApprove(SubmitReceipt(w, o), o, days);
            o in w'.orders && TookEffect(w'.orders[o])
  {
    hide Core, HasOwnSub, Later, Lapsed;
    NoEffectYet(w, o);
    assert !AlreadyProcessed(SubmitReceipt(w, o), o);
  }

  lemma NoEffectYet(w: World, o: Id)
    requires Core(w) && o in w.orders && !TookEffect(w.orders[o])
    ensures Effects(w.subs, w.grants, o) == 0 && !HasOwnSub(w.subs, o)
  {
    hide Refs, Queue, OneCreateJob, Waiting, OrderFollows, ExpiryJobs, OpenOnce, Paid, HasOwnSub, Opened;
    OpenedSome(w.subs, o);
  }

  /** A rejected order is never approved: no legal step moves it. */
  lemma RejectedStaysStep(w: World, step: Step, o: Id)
    requires Core(w) && Allowed(w, step) && o in w.orders && w.orders[o].status == Rejected
    ensures o in Next(w, step).orders && Next(w, step).orders[o].status == Rejected
  {
    hide Core, Attempt, Renew, OpenSubscription;
    KnownIds(w);
    match step
    case Work(j, worker, outcome) =>
      if w.jobs[j].kind == CreatePeer {
        CreateWaits(w, j);
      }
      AttemptOrders(w, j, outcome, o);
    case ExpiryCheck(rows) => TicksLeaveRows(w, rows, [], []);
    case CleanUp(rows) => TicksLeaveRows(w, rows, [], []);
    case Remind(rows, thresholds) => TicksLeaveRows(w, rows, thresholds, []);
    case Retry(js) => TicksLeaveRows(w, [], [], js);
    case Approve(p, days) => ApproveLeaves(w, p, days, o);
    case _ =>
  }

  lemma KnownIds(w: World)
    requires Core(w)
    ensures forall o :: o in w.orders ==> o < w.nextId
    ensures forall s :: s in w.subs ==> s < w.nextId
    ensures forall j :: j in w.jobs ==> j < w.nextId
  {
    hide Queue, OneCreateJob, Waiting, Effective, OrderFollows, ExpiryJobs, OpenOnce, Paid;
  }

  /** Approving an order leaves every other order alone. */
  lemma ApproveLeaves(w: World, p: Id, days: int, o: Id)
    requires o in w.orders && (o != p || w.orders[o].status == Rejected)
    ensures o in PressApprove(w, p, days).orders && PressApprove(w, p, days).orders[o] == w.orders[o]
  {
  }

  /** A turn moves no order but that of the subscription its create job is for. */
  lemma AttemptOrders(w: World, j: Id, outcome: Outcome, o: Id)
    requires o in w.orders && j in w.jobs
    requires w.jobs[j].kind == CreatePeer && w.jobs[j].sub in w.subs ==> w.subs[w.jobs[j].sub].order != o
    ensures o in Attempt(w, j, outcome).orders && Attempt(w, j, outcome).orders[o] == w.orders[o]
  {
    hide FailedJob;
  }

  lemma {:induction false} TicksLeaveRows(w: World, rows: seq<Id>, days: seq<int>, js: seq<Id>)
    ensures ExpireAll(w, rows).orders == w.orders && ExpireAll(w, rows).subs == w.subs
    ensures CleanUpAll(w, rows).orders == w.orders && CleanUpAll(w, rows).subs == w.subs
    ensures RemindAll(w, rows, days).orders == w.orders && RemindAll(w, rows, days).subs == w.subs
    ensures RetryAll(w, js).orders == w.orders && RetryAll(w, js).subs == w.subs
    decreases |rows| + |js|
  {
    if rows == [] && js == [] {
    } else if rows != [] {
      TicksLeaveRows(w, rows[..|rows| - 1], days, js);
    } else {
      TicksLeaveRows(w, rows, days, js[..|js| - 1]);
    }
  }

  lemma {:induction false} RejectedStays(w: World, steps: seq<Step>, o: Id)
    requires Core(w) && AllowedRun(w, steps) && o in w.orders && w.orders[o].status == Rejected
    ensures o in Run(w, steps).orders && Run(w, steps).orders[o].status == Rejected
    decreases steps
  {
    hide Core, Next, Allowed;
    if steps == [] {
    } else {
      CoreStepKeeps(w, steps[0]);
      RejectedStaysStep(w, steps[0], o);
      RejectedStays(Next(w, steps[0]), steps[1..], o);
    }
  }

  // ----- no approval loses its job -----

  /** In every reachable state, every subscription has one create job, which has not succeeded exactly
      while the subscription, and its order, are provisioning. */
  lemma ApprovalKeepsItsJob(now: Time, steps: seq<Step>, s: Id)
    requires AllowedRun(Start(now), steps)
    ensures var w := Run(Start(now), steps);
            s in w.subs ==>
              && (exists j :: IsCreateJob(w.jobs, j, s))
              && (forall i, j :: IsCreateJob(w.jobs, i, s) && IsCreateJob(w.jobs, j, s) ==> i == j)
              && (forall j :: IsCreateJob(w.jobs, j, s) ==>
                  (w.jobs[j].status != Succeeded <==> w.subs[s].status == Provisioning))
              && w.subs[s].order in w.orders
              && (w.orders[w.subs[s].order].status == OrderProvisioning <==> w.subs[s].status == Provisioning)
  {
    ReachableCore(now, steps);
    hide Run, AllowedRun, Queue, Effective, ExpiryJobs, OpenOnce, Paid;
    var w := Run(Start(now), steps);
    if s in w.subs {
      assert s in w.subs.Keys && WellFormedSub(w.subs[s]);
    }
  }

  // ----- removed subscriptions -----

  lemma RemovedStaysStep(w: World, step: Step, s: Id)
    requires Core(w) && Allowed(w, step) && s in w.subs && w.subs[s].removedAt.Some?
    ensures s in Next(w, step).subs && Next(w, step).subs[s].removedAt.Some?
  {
    hide Core, Attempt, PressApprove;
    KnownIds(w);
    match step
    case Approve(o, days) => ApproveLeavesRemoved(w, o, days, s);
    case Work(j, worker, outcome) => AttemptLeavesRemoved(w, j, outcome, s);
    case ExpiryCheck(rows) => TicksLeaveRows(w, rows, [], []);
    case CleanUp(rows) => TicksLeaveRows(w, rows, [], []);
    case Remind(rows, thresholds) => TicksLeaveRows(w, rows, thresholds, []);
    case Retry(js) => TicksLeaveRows(w, [], [], js);
    case _ =>
  }

  lemma ApproveLeavesRemoved(w: World, o: Id, days: int, s: Id)
    requires s in w.subs && w.subs[s].removedAt.Some? && s < w.nextId
    ensures s in PressApprove(w, o, days).subs && PressApprove(w, o, days).subs[s].removedAt.Some?
  {
  }

  lemma AttemptLeavesRemoved(w: World, j: Id, outcome: Outcome, s: Id)
    requires s in w.subs && w.subs[s].removedAt.Some?
    ensures s in Attempt(w, j, outcome).subs && Attempt(w, j, outcome).subs[s].removedAt.Some?
  {
    hide FailedJob, Renewed;
    ProcessLeavesRemoved(w, j, outcome, s);
    hide ProcessJob;
  }

  lemma ProcessLeavesRemoved(w: World, j: Id, outcome: Outcome, s: Id)
    requires s in w.subs && w.subs[s].removedAt.Some?
    ensures var w' := ProcessJob(w, j, outcome).world;
            s in w'.subs && w'.subs[s].removedAt.Some?
  {
    hide Renewed;
  }

  /** Once removed, a subscription is never active again in any run. */
  lemma {:induction false} RemovedNeverActive(w: World, steps: seq<Step>, s: Id)
    requires Core(w) && AllowedRun(w, steps) && s in w.subs && w.subs[s].removedAt.Some?
    ensures s in Run(w, steps).subs && Run(w, steps).subs[s].removedAt.Some? && Run(w, steps).subs[s].status != Active
    decreases steps
  {
    if steps == [] {
    } else {
      hide Core, Next, Allowed;
      CoreStepKeeps(w, steps[0]);
      RemovedStaysStep(w, steps[0], s);
      RemovedNeverActive(Next(w, steps[0]), steps[1..], s);
    }
  }

  /** Approving an order that renews a removed subscription opens a new one with its own create job. */
  lemma RenewingRemovedOpensNew(w: World, o: Id, s: Id, days: int)
    requires Core(w) && o in w.orders && w.orders[o].status in {ReceiptSubmitted, AwaitingReceipt}
    requires w.orders[o].renews == Some(s) && s in w.subs && w.subs[s].removedAt.Some?
    ensures var w' := PressApprove(w, o, days);
            && w'.subs.Keys == w.subs.Keys + {w.nextId} && w.nextId !in w.subs
            && w'.subs[w.nextId].order == o && w'.subs[w.nextId].status == Provisioning
            && w'.subs[s] == w.subs[s]
            && (exists j :: j !in w.jobs && IsCreateJob(w'.jobs, j, w.nextId) && w'.jobs[j].status == Pending)
  {
    hide Core, HasOwnSub, Effects, OpenSubscription, IsCreateJob;
    NoEffectYet(w, o);
    KnownIds(w);
    assert PressApprove(w, o, days) == OpenSubscription(w, o, days);
    OpensNew(w, o, days);
    assert w.nextId + 1 !in w.jobs;
  }

  lemma OpensNew(w: World, o: Id, days: int)
    requires o in w.orders && w.nextId !in w.subs
    ensures var w' := OpenSubscription(w, o, days);
            && w'.subs == w.subs[w.nextId := NewSub(w, o, days)]
            && IsCreateJob(w'.jobs, w.nextId + 1, w.nextId) && w'.jobs[w.nextId + 1].status == Pending
  {
  }

  // ----- paid time -----

  /** In every reachable state, a subscription runs out at its start plus all days granted or taken
      plus the lapsed time skipped at positive grants. */
  lemma PaidTimeConserved(now: Time, steps: seq<Step>, s: Id)
    requires AllowedRun(Start(now), steps)
    ensures var w := Run(Start(now), steps);
            s in w.subs ==> w.subs[s].expiresAt == w.subs[s].startsAt + Granted(w.grants, s)
  {
    ReachableCore(now, steps);
    hide Run, AllowedRun, Queue, OneCreateJob, Waiting, Effective, OrderFollows, ExpiryJobs, OpenOnce;
  }

  /** Right after a positive grant at least its days remain, and nothing that was left before is lost. */
  lemma GrantIsWhole(w: World, o: Id, s: Id, days: int)
    requires Core(w) && s in w.subs && days > 0
    ensures w.subs[s].hasPeer && w.subs[s].removedAt.None? ==> Whole(w, Extend(w, s, days), s, days)
    ensures o in w.orders && !AlreadyProcessed(w, o) && Renewable(w, o) == Some(s) ==>
              Whole(w, ApproveOrder(w, o, days), s, days)
  {
    hide *;
    if w.subs[s].hasPeer && w.subs[s].removedAt.None? {
      ExtendIsWhole(w, s, days);
    }
    if o in w.orders && !AlreadyProcessed(w, o) && Renewable(w, o) == Some(s) {
      RenewIsWhole(w, o, s, days);
    }
  }

  /** After a grant of days all of them are left, and all that was left before. */
  predicate Whole(w: World, w': World, s: Id, days: int) {
    s in w.subs && s in w'.subs
    && var left := w'.subs[s].expiresAt - w.now;
       left >= days * DAY && left >= days * DAY + (w.subs[s].expiresAt - w.now)
  }

  lemma ExtendIsWhole(w: World, s: Id, days: int)
    requires s in w.subs && days > 0 && w.subs[s].hasPeer && w.subs[s].removedAt.None?
    ensures Whole(w, Extend(w, s, days), s, days)
  {
  }

  lemma RenewIsWhole(w: World, o: Id, s: Id, days: int)
    requires s in w.subs && days > 0
    requires o in w.orders && !AlreadyProcessed(w, o) && Renewable(w, o) == Some(s)
    ensures Whole(w, ApproveOrder(w, o, days), s, days)
  {
    hide HasOwnSub;
  }

  // ----- at most one open job -----

  /** Adding a job leaves the open ones open. */
  lemma OpenStays(jobs: map<Id, Job>, n: Id, job: Job, kind: JobKind, s: Id)
    requires n !in jobs
    ensures HasOpenJob(jobs[n := job], kind, s)
            <==> HasOpenJob(jobs, kind, s) || (job.kind == kind && job.sub == s && IsOpen(job))
  {
    var jobs' := jobs[n := job];
    if j :| j in jobs && jobs[j].kind == kind && jobs[j].sub == s && IsOpen(jobs[j]) {
      assert j in jobs' && jobs'[j] == jobs[j];
    } else if job.kind == kind && job.sub == s && IsOpen(job) {
      assert n in jobs' && jobs'[n] == job;
    }
  }

  lemma {:induction false} ExpireOpens(w: World, rows: seq<Id>, s: Id)
    requires Core(w) && s in w.subs
    ensures HasOpenJob(ExpireAll(w, rows).jobs, DisablePeer, s) <==> s in rows || HasOpenJob(w.jobs, DisablePeer, s)
  {
    hide Core, HasOpenJob;
    if rows == [] {
    } else {
      var init, last := rows[..|rows| - 1], rows[|rows| - 1];
      assert rows == init + [last];
      var w1 := ExpireAll(w, init);
      ExpireOpens(w, init, s);
      CoreTicksKeep(w, init);
      TicksLeaveRows(w, init, [], []);
      KnownIds(w1);
      OpenStays(w1.jobs, w1.nextId, NewJob(w1, DisablePeer, last, SubscriptionExpired), DisablePeer, s);
    }
  }

  lemma {:induction false} CleanUpOpens(w: World, rows: seq<Id>, s: Id)
    requires Core(w) && s in w.subs
    ensures HasOpenJob(CleanUpAll(w, rows).jobs, RemovePeer, s) <==> s in rows || HasOpenJob(w.jobs, RemovePeer, s)
  {
    hide Core, HasOpenJob;
    if rows == [] {
    } else {
      var init, last := rows[..|rows| - 1], rows[|rows| - 1];
      assert rows == init + [last];
      var w1 := CleanUpAll(w, init);
      CleanUpOpens(w, init, s);
      CoreTicksKeep(w, init);
      TicksLeaveRows(w, init, [], []);
      KnownIds(w1);
      OpenStays(w1.jobs, w1.nextId, NewJob(w1, RemovePeer, last, GracePeriodExpired), RemovePeer, s);
    }
  }

  /** Open jobs of a kind for a subscription. */
  function OpenJobs(jobs: map<Id, Job>, kind: JobKind, s: Id): set<Id> {
    set j | j in jobs && jobs[j].kind == kind && jobs[j].sub == s && IsOpen(jobs[j])
  }

  lemma OneOpen(w: World, kind: JobKind, s: Id)
    requires Core(w) && kind in {DisablePeer, RemovePeer}
    ensures |OpenJobs(w.jobs, kind, s)| == if HasOpenJob(w.jobs, kind, s) then 1 else 0
  {
    hide Refs, Queue, OneCreateJob, Waiting, Effective, OrderFollows, ExpiryJobs, Paid;
    var open := OpenJobs(w.jobs, kind, s);
    if HasOpenJob(w.jobs, kind, s) {
      var j :| j in w.jobs && w.jobs[j].kind == kind && w.jobs[j].sub == s && IsOpen(w.jobs[j]);
      forall i | i in open
        ensures i == j
      {
        assert Duplicates(w.jobs[i], w.jobs[j]);
      }
      assert open == {j};
    } else {
      assert open == {};
    }
  }

  /** In every reachable state at most one disable job and one remove job of a subscription is open. */
  lemma OpenAtMostOnce(now: Time, steps: seq<Step>, kind: JobKind, s: Id)
    requires AllowedRun(Start(now), steps) && kind in {DisablePeer, RemovePeer}
    ensures |OpenJobs(Run(Start(now), steps).jobs, kind, s)| <= 1
  {
    ReachableCore(now, steps);
    hide Core;
    OneOpen(Run(Start(now), steps), kind, s);
  }

  /** A tick of the expiry check, over the rows that are due, leaves exactly one open disable job for each
      of them, and adds none for any other subscription. */
  lemma ExpiryCheckLeavesOne(w: World, rows: seq<Id>, s: Id)
    requires Core(w) && s in w.subs && (s in rows <==> IsExpired(w.subs[s], w.now))
    ensures |OpenJobs(ExpireAll(w, rows).jobs, DisablePeer, s)|
         == if (w.subs[s].status == Active && w.subs[s].expiresAt <= w.now) || HasOpenJob(w.jobs, DisablePeer, s)
            then 1 else 0
  {
    hide Core;
    CoreTicksKeep(w, rows);
    ExpireOpens(w, rows, s);
    OneOpen(ExpireAll(w, rows), DisablePeer, s);
  }

  /** So does a tick of the clean-up with remove jobs, for the disabled subscriptions past the grace period. */
  lemma CleanUpLeavesOne(w: World, rows: seq<Id>, graceDays: int, s: Id)
    requires Core(w) && s in w.subs && (s in rows <==> PastGrace(w.subs[s], w.now, graceDays))
    ensures var sub := w.subs[s];
            |OpenJobs(CleanUpAll(w, rows).jobs, RemovePeer, s)|
            == if (sub.status == Disabled && sub.disabledAt.Some? && w.now - sub.disabledAt.value >= graceDays * DAY)
                  || HasOpenJob(w.jobs, RemovePeer, s)
               then 1 else 0
  {
    hide Core;
    CoreTicksKeep(w, rows);
    CleanUpOpens(w, rows, s);
    OneOpen(CleanUpAll(w, rows), RemovePeer, s);
  }
}
