/** Why a job is queued: what a step finds when it adds one, what it must add, and that no peer is removed early. */
module ProtocolCauses {
  import opened Wrappers
  import opened Store
  import opened Protocol
  import opened ProtocolSteps
  import opened ProtocolWork
  import opened ProtocolRuns
  import opened ProtocolReplies
  import opened ProtocolTheorems
  import opened ProtocolQueue
  import opened ProtocolService
  import opened Reminders

  /** The scheduler ticks over the rows its queries select. */
  predicate Scheduled(w: World, step: Step, graceDays: int) {
    match step
    case ExpiryCheck(rows) => forall s :: s in rows ==> s in w.subs && IsExpired(w.subs[s], w.now)
    case CleanUp(rows) => forall s :: s in rows ==> s in w.subs && PastGrace(w.subs[s], w.now, graceDays)
    case _ => true
  }

  /** The peer was turned off, and has been for the whole grace period, in days of 86,400 seconds. */
  predicate OffForGrace(sub: Sub, now: Time, graceDays: int) {
    sub.status == Disabled && sub.disabledAt.Some? && now - sub.disabledAt.value >= graceDays * 86_400_000_000
  }

  /** It is active, and has run out. */
  predicate RanOut(sub: Sub, now: Time) {
    sub.status == Active && sub.expiresAt <= now
  }

  predicate Untried(job: Job, now: Time) {
    job.status == Pending && job.attempts == 0 && job.availableAt == now && job.lockedAt.None? && job.lockedBy.None?
  }

  /** What is behind a job that a step added: the approval that opened its subscription, the grant that brought it back,
      its expiry, the end of its grace period, or a request. */
  predicate HasCause(w: World, step: Step, w': World, job: Job, graceDays: int)
    requires job.sub in w'.subs
  {
    var s := job.sub;
    match job.kind
    case CreatePeer =>
      step.Approve? && s !in w.subs && w'.subs[s].order == step.o && w'.subs[s].status == Provisioning
    case EnablePeer =>
      ((step.Approve? && step.o in w.orders && w.orders[step.o].renews == Some(s)) || (step.ExtendBy? && step.s == s))
      && s in w.subs && w.subs[s].status != Active && w'.subs[s].status == Active
    case DisablePeer =>
      step.ExpiryCheck? && s in w.subs && RanOut(w.subs[s], w.now) && job.reason == SubscriptionExpired
      && ExpiryNotice(s, DateOf(w.subs[s].expiresAt)) in w'.sent
    case RemovePeer =>
      step.CleanUp? && s in w.subs && OffForGrace(w.subs[s], w.now, graceDays) && job.reason == GracePeriodExpired
    case Redeliver => step == AskAgain(s)
  }

  lemma GraceIs(sub: Sub, now: Time, graceDays: int)
    ensures PastGrace(sub, now, graceDays) <==> OffForGrace(sub, now, graceDays)
    ensures IsExpired(sub, now) <==> RanOut(sub, now)
  {
  }

  lemma {:induction false} ExpireAdds(w: World, rows: seq<Id>, j: Id)
    requires j !in w.jobs && j in ExpireAll(w, rows).jobs
    ensures var w' := ExpireAll(w, rows);
            var job := w'.jobs[j];
            && job.kind == DisablePeer && job.sub in rows && job.sub in w.subs && Untried(job, w.now)
            && job.reason == SubscriptionExpired
            && ExpiryNotice(job.sub, DateOf(w.subs[job.sub].expiresAt)) in w'.sent
  {
    hide HasOpenJob, DateOf;
    if rows == [] {
    } else {
      var init := rows[..|rows| - 1];
      TicksLeaveRows(w, init, [], []);
      TicksTime(w, init, [], []);
      assert rows == init + [rows[|rows| - 1]];
      if j in ExpireAll(w, init).jobs {
        ExpireAdds(w, init, j);
        ExpireOneAdds(ExpireAll(w, init), rows[|rows| - 1], j);
      }
    }
  }

  lemma ExpireOneAdds(w: World, s: Id, j: Id)
    requires j in w.jobs
    ensures var w' := ExpireOne(w, s);
            j in w'.jobs && w.sent <= w'.sent && (j != w.nextId ==> w'.jobs[j] == w.jobs[j])
  {
  }

  lemma {:induction false} CleanUpAdds(w: World, rows: seq<Id>, j: Id)
    requires j !in w.jobs && j in CleanUpAll(w, rows).jobs
    ensures var w' := CleanUpAll(w, rows);
            var job := w'.jobs[j];
            && job.kind == RemovePeer && job.sub in rows && job.sub in w.subs && Untried(job, w.now)
            && job.reason == GracePeriodExpired
  {
    hide HasOpenJob;
    if rows == [] {
    } else {
      var init := rows[..|rows| - 1];
      TicksLeaveRows(w, init, [], []);
      TicksTime(w, init, [], []);
      assert rows == init + [rows[|rows| - 1]];
      if j in CleanUpAll(w, init).jobs {
        CleanUpAdds(w, init, j);
        CleanUpOneAdds(CleanUpAll(w, init), rows[|rows| - 1], j);
      }
    }
  }

  lemma CleanUpOneAdds(w: World, s: Id, j: Id)
    requires j in w.jobs
    ensures var w' := CleanUpOne(w, s);
            j in w'.jobs && (j != w.nextId ==> w'.jobs[j] == w.jobs[j])
  {
  }

  lemma RetriesAddNone(w: World, js: seq<Id>)
    ensures RetryAll(w, js).jobs.Keys == w.jobs.Keys
    decreases js
  {
    hide MayRetry;
    if js == [] {
    } else {
      RetriesAddNone(w, js[..|js| - 1]);
    }
  }

  /** The step added the job. */
  predicate Adds(w: World, step: Step, j: Id) {
    j !in w.jobs && j in Next(w, step).jobs
  }

  lemma ApprovalCause(w: World, o: Id, days: int, j: Id, graceDays: int)
    requires Core(w) && Adds(w, Approve(o, days), j)
    ensures var w' := Next(w, Approve(o, days));
            var job := w'.jobs[j];
            job.sub in w'.subs && Untried(job, w.now) && HasCause(w, Approve(o, days), w', job, graceDays)
  {
    hide Core, HasOwnSub, Later, Lapsed;
    KnownIds(w);
  }

  lemma OtherCauses(w: World, step: Step, j: Id, graceDays: int)
    requires Core(w) && Allowed(w, step) && Scheduled(w, step, graceDays) && Adds(w, step, j) && !step.Approve?
    ensures var w' := Next(w, step);
            var job := w'.jobs[j];
            job.sub in w'.subs && Untried(job, w.now) && HasCause(w, step, w', job, graceDays)
  {
    hide Core, PressApprove, IsExpired, PastGrace, OffForGrace, RanOut, DateOf, Later, Lapsed, Attempt;
    match step
    case ExpiryCheck(rows) =>
      ExpireAdds(w, rows, j);
      TicksLeaveRows(w, rows, [], []);
      GraceIs(w.subs[Next(w, step).jobs[j].sub], w.now, graceDays);
    case CleanUp(rows) =>
      CleanUpAdds(w, rows, j);
      TicksLeaveRows(w, rows, [], []);
      GraceIs(w.subs[Next(w, step).jobs[j].sub], w.now, graceDays);
    case Remind(rows, thresholds) =>
      RemindLeaves(w, rows, thresholds);
    case Work(k, worker, outcome) =>
      TurnIsAtomic(w, Turn(k, outcome, 0));
    case Retry(js) =>
      RetriesAddNone(w, js);
    case _ =>
  }

  /** No job is queued without its cause: in every allowed step, with scheduler ticks over the rows they select,
      whatever the state. */
  lemma JobsHaveCause(w: World, step: Step, j: Id, graceDays: int)
    requires Core(w) && Allowed(w, step) && Scheduled(w, step, graceDays) && Adds(w, step, j)
    ensures var w' := Next(w, step);
            var job := w'.jobs[j];
            job.sub in w'.subs && Untried(job, w.now) && HasCause(w, step, w', job, graceDays)
  {
    hide Core, Next, HasCause, Untried;
    if step.Approve? {
      ApprovalCause(w, step.o, step.days, j, graceDays);
    } else {
      OtherCauses(w, step, j, graceDays);
    }
  }

  // ----- and no job that is due is left out -----

  predicate IsFor(job: Job, kind: JobKind, s: Id) {
    job.kind == kind && job.sub == s
  }

  predicate IsNewFor(w: World, w': World, j: Id, kind: JobKind, s: Id) {
    j !in w.jobs && j in w'.jobs && IsFor(w'.jobs[j], kind, s)
  }

  /** A tick of the clean-up over its rows queues a remove job for a subscription that has none open, if and only if it
      has been off for the whole grace period. */
  lemma CleanUpQueues(w: World, rows: seq<Id>, graceDays: int, s: Id)
    requires Core(w) && s in w.subs && (s in rows <==> PastGrace(w.subs[s], w.now, graceDays))
    requires !HasOpenJob(w.jobs, RemovePeer, s)
    ensures (exists j :: IsNewFor(w, CleanUpAll(w, rows), j, RemovePeer, s))
            <==> OffForGrace(w.subs[s], w.now, graceDays)
  {
    hide Core, HasOpenJob, PastGrace, OffForGrace;
    GraceIs(w.subs[s], w.now, graceDays);
    CleanUpOpens(w, rows, s);
    TicksKeepOld(w, rows);
    if HasOpenJob(CleanUpAll(w, rows).jobs, RemovePeer, s) {
      var j := OpenOne(CleanUpAll(w, rows).jobs, RemovePeer, s);
      NotOpen(w.jobs, RemovePeer, s, j);
      assert IsNewFor(w, CleanUpAll(w, rows), j, RemovePeer, s);
    }
    if j :| IsNewFor(w, CleanUpAll(w, rows), j, RemovePeer, s) {
      CleanUpAdds(w, rows, j);
    }
  }

  /** So does a tick of the expiry check with disable jobs, for a subscription that ran out while active. */
  lemma ExpiryQueues(w: World, rows: seq<Id>, s: Id)
    requires Core(w) && s in w.subs && (s in rows <==> IsExpired(w.subs[s], w.now))
    requires !HasOpenJob(w.jobs, DisablePeer, s)
    ensures (exists j :: IsNewFor(w, ExpireAll(w, rows), j, DisablePeer, s))
            <==> RanOut(w.subs[s], w.now)
  {
    hide Core, HasOpenJob, IsExpired, RanOut;
    GraceIs(w.subs[s], w.now, 0);
    ExpireOpens(w, rows, s);
    TicksKeepOld(w, rows);
    if HasOpenJob(ExpireAll(w, rows).jobs, DisablePeer, s) {
      var j := OpenOne(ExpireAll(w, rows).jobs, DisablePeer, s);
      NotOpen(w.jobs, DisablePeer, s, j);
      assert IsNewFor(w, ExpireAll(w, rows), j, DisablePeer, s);
    }
    if j :| IsNewFor(w, ExpireAll(w, rows), j, DisablePeer, s) {
      ExpireAdds(w, rows, j);
    }
  }

  lemma OpenOne(jobs: map<Id, Job>, kind: JobKind, s: Id) returns (j: Id)
    requires HasOpenJob(jobs, kind, s)
    ensures j in jobs && IsFor(jobs[j], kind, s) && IsOpen(jobs[j])
  {
    j :| j in jobs && jobs[j].kind == kind && jobs[j].sub == s && IsOpen(jobs[j]);
  }

  lemma NotOpen(jobs: map<Id, Job>, kind: JobKind, s: Id, j: Id)
    requires !HasOpenJob(jobs, kind, s)
    ensures !(j in jobs && IsFor(jobs[j], kind, s) && IsOpen(jobs[j]))
  {
  }

  lemma TicksKeepOld(w: World, rows: seq<Id>)
    requires Core(w)
    ensures forall j :: j in w.jobs ==> j in CleanUpAll(w, rows).jobs && CleanUpAll(w, rows).jobs[j] == w.jobs[j]
    ensures forall j :: j in w.jobs ==> j in ExpireAll(w, rows).jobs && ExpireAll(w, rows).jobs[j] == w.jobs[j]
  {
    hide Core;
    forall j | j in w.jobs
      ensures j in CleanUpAll(w, rows).jobs && CleanUpAll(w, rows).jobs[j] == w.jobs[j]
      ensures j in ExpireAll(w, rows).jobs && ExpireAll(w, rows).jobs[j] == w.jobs[j]
    {
      TicksLeaveJob(w, rows, [], [], j);
    }
  }

  // ----- the grace period, over runs -----

  ghost predicate ScheduledRun(w: World, steps: seq<Step>, graceDays: int)
    decreases steps
  {
    steps == [] || (Scheduled(w, steps[0], graceDays) && ScheduledRun(Next(w, steps[0]), steps[1..], graceDays))
  }

  /** If the subscription's peer is off, it was turned off at `since` or later. */
  predicate OffSince(w: World, s: Id, since: Time) {
    s in w.subs && since <= w.now && (w.subs[s].disabledAt.Some? ==> w.subs[s].disabledAt.value >= since)
  }

  /** What a job writes of the rows: one subscription's, which it may turn off now, or none. */
  lemma ProcessTurnsOff(w: World, j: Id, outcome: Outcome)
    ensures var subs' := ProcessJob(w, j, outcome).world.subs;
            subs' == w.subs
            || (j in w.jobs
                && var s := w.jobs[j].sub;
                   s in w.subs && s in subs' && subs' == w.subs[s := subs'[s]]
                   && subs'[s].disabledAt in {w.subs[s].disabledAt, Some(w.now)})
  {
    hide Renewed;
  }

  lemma ProcessOffSince(w: World, j: Id, outcome: Outcome, s: Id, since: Time)
    requires OffSince(w, s, since)
    ensures OffSince(ProcessJob(w, j, outcome).world, s, since)
  {
    ProcessTurnsOff(w, j, outcome);
    ProcessLeavesJobs(w, j, outcome);
    hide ProcessJob;
  }

  lemma TurnOffSince(w: World, j: Id, outcome: Outcome, s: Id, since: Time)
    requires OffSince(w, s, since)
    ensures OffSince(Attempt(w, j, outcome), s, since)
  {
    ProcessOffSince(w, j, outcome, s, since);
    ProcessLeavesJobs(w, j, outcome);
    hide ProcessJob, FailedJob;
  }

  lemma ApproveOffSince(w: World, o: Id, days: int, s: Id, since: Time)
    requires OffSince(w, s, since) && s < w.nextId
    ensures OffSince(PressApprove(w, o, days), s, since)
  {
    hide HasOwnSub, Later, Lapsed;
  }

  lemma StepOffSince(w: World, step: Step, s: Id, since: Time)
    requires Core(w) && Allowed(w, step) && OffSince(w, s, since)
    ensures OffSince(Next(w, step), s, since) && w.now <= Next(w, step).now
  {
    hide Core, Attempt, PressApprove, Later, Lapsed, MayRetry, ExpireAll, CleanUpAll, RemindAll, RetryAll;
    KnownIds(w);
    StepTime(w, step);
    match step
    case Approve(o, days) => ApproveOffSince(w, o, days, s, since);
    case Work(j, worker, outcome) => TurnOffSince(w, j, outcome, s, since);
    case ExpiryCheck(rows) => TicksLeaveRows(w, rows, [], []);
    case CleanUp(rows) => TicksLeaveRows(w, rows, [], []);
    case Remind(rows, thresholds) => TicksLeaveRows(w, rows, thresholds, []);
    case Retry(js) => TicksLeaveRows(w, [], [], js);
    case _ =>
  }

  lemma {:induction false} RunTime(w: World, steps: seq<Step>)
    requires AllowedRun(w, steps)
    ensures w.now <= Run(w, steps).now
    decreases steps
  {
    hide Next, Allowed;
    if steps == [] {
    } else {
      StepTime(w, steps[0]);
      RunTime(Next(w, steps[0]), steps[1..]);
    }
  }

  /** No remove job is queued within the grace period of the last disable: in every run that starts when the
      subscription was not turned off before `since`, and ends less than the grace period after `since`, the
      remove jobs of the subscription are the ones there were. */
  lemma {:induction false} NoEarlyRemoval(w: World, steps: seq<Step>, graceDays: int, s: Id, since: Time, j: Id)
    requires Core(w) && AllowedRun(w, steps) && ScheduledRun(w, steps, graceDays) && OffSince(w, s, since)
    requires Run(w, steps).now < since + graceDays * 86_400_000_000
    requires j in Run(w, steps).jobs && IsFor(Run(w, steps).jobs[j], RemovePeer, s)
    ensures j in w.jobs && IsFor(w.jobs[j], RemovePeer, s)
    decreases steps
  {
    hide Core, Next, Allowed, Scheduled, OffSince, HasCause, Untried, IsFor;
    if steps == [] {
    } else {
      var w' := Next(w, steps[0]);
      CoreStepKeeps(w, steps[0]);
      StepOffSince(w, steps[0], s, since);
      NoEarlyRemoval(w', steps[1..], graceDays, s, since, j);
      if j in w.jobs {
        TaskKept(w, steps[0], j, s);
      } else {
        JobsHaveCause(w, steps[0], j, graceDays);
        StepTime(w, steps[0]);
        RunTime(w', steps[1..]);
        TooEarly(w, steps[0], w', w'.jobs[j], graceDays, s, since);
      }
    }
  }

  lemma TaskKept(w: World, step: Step, j: Id, s: Id)
    requires Core(w) && Allowed(w, step) && j in w.jobs && j in Next(w, step).jobs
    requires IsFor(Next(w, step).jobs[j], RemovePeer, s)
    ensures IsFor(w.jobs[j], RemovePeer, s)
  {
    hide Core, Next, Allowed;
    StepKeepsTask(w, step, j);
  }

  lemma TooEarly(w: World, step: Step, w': World, job: Job, graceDays: int, s: Id, since: Time)
    requires OffSince(w, s, since) && w.now < since + graceDays * 86_400_000_000
    requires job.sub in w'.subs && IsFor(job, RemovePeer, s)
    ensures !HasCause(w, step, w', job, graceDays)
  {
  }

  /** The turn of a disable job that does its work turns the peer off at that time. */
  lemma DisabledIsOff(w: World, j: Id, s: Id)
    requires j in w.jobs && IsFor(w.jobs[j], DisablePeer, s) && IsExpiry(w.jobs[j].reason) && s in w.subs
    requires w.subs[s].hasPeer && !(w.subs[s].status == Active && w.subs[s].expiresAt > w.now)
    ensures OffSince(Attempt(w, j, Works(true)), s, w.now)
    ensures Attempt(w, j, Works(true)).subs[s].disabledAt == Some(w.now)
  {
  }
}
