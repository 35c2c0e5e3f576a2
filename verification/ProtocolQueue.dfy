/** The job queue under many workers: exclusion, due times, back-off, and batches. */
module ProtocolQueue {
  import opened Wrappers
  import opened Store
  import opened Protocol
  import opened ProtocolSteps
  import opened ProtocolWork
  import opened ProtocolRuns
  import opened ProtocolReplies
  import opened ProtocolTheorems

  // ----- exclusion -----

  /** Nobody marks the job, and claims of it use clock readings within the lease that began at `since`. */
  predicate LeavesLease(step: Step, j: Id, since: Time) {
    match step
    case Work(k, _, _) => k != j
    case ClaimJob(k, _, at) => k == j ==> at <= since + LEASE
    case _ => true
  }

  predicate Leased(w: World, j: Id, since: Time) {
    j in w.jobs && w.jobs[j].status == Processing && w.jobs[j].lockedAt == Some(since)
  }

  lemma {:induction false} TicksLeaveJob(w: World, rows: seq<Id>, days: seq<int>, js: seq<Id>, j: Id)
    requires Core(w) && j in w.jobs
    ensures j in ExpireAll(w, rows).jobs && ExpireAll(w, rows).jobs[j] == w.jobs[j]
    ensures j in CleanUpAll(w, rows).jobs && CleanUpAll(w, rows).jobs[j] == w.jobs[j]
    ensures RemindAll(w, rows, days).jobs == w.jobs
    ensures j in RetryAll(w, js).jobs && (w.jobs[j].status != PermanentFailure ==> RetryAll(w, js).jobs[j] == w.jobs[j])
    decreases |rows| + |js|
  {
    hide Core, HasOpenJob;
    KnownIds(w);
    if rows == [] && js == [] {
    } else if rows != [] {
      var init := rows[..|rows| - 1];
      TicksLeaveJob(w, init, days, js, j);
      CoreTicksKeep(w, init);
      KnownIds(ExpireAll(w, init));
      CoreTicksKeep(w, init);
      KnownIds(CleanUpAll(w, init));
    } else {
      TicksLeaveJob(w, rows, days, js[..|js| - 1], j);
    }
  }

  lemma ApproveLeavesJobs(w: World, o: Id, days: int, j: Id)
    requires j in w.jobs && j < w.nextId
    ensures j in PressApprove(w, o, days).jobs && PressApprove(w, o, days).jobs[j] == w.jobs[j]
  {
  }

  lemma AttemptLeavesJob(w: World, k: Id, outcome: Outcome, j: Id)
    requires j in w.jobs && j != k
    ensures j in Attempt(w, k, outcome).jobs && Attempt(w, k, outcome).jobs[j] == w.jobs[j]
  {
    hide ProcessJob, FailedJob;
    ProcessLeavesJobs(w, k, outcome);
  }

  lemma LeaseStays(w: World, step: Step, j: Id, since: Time)
    requires Core(w) && Allowed(w, step) && Leased(w, j, since) && LeavesLease(step, j, since)
    ensures Leased(Next(w, step), j, since) && Next(w, step).jobs[j] == w.jobs[j]
  {
    hide Core, Attempt, PressApprove;
    KnownIds(w);
    match step
    case Approve(o, days) => ApproveLeavesJobs(w, o, days, j);
    case Work(k, worker, outcome) => AttemptLeavesJob(w, k, outcome, j);
    case ExpiryCheck(rows) => TicksLeaveJob(w, rows, [], [], j);
    case CleanUp(rows) => TicksLeaveJob(w, rows, [], [], j);
    case Remind(rows, thresholds) => TicksLeaveJob(w, rows, thresholds, [], j);
    case Retry(js) => TicksLeaveJob(w, [], [], js, j);
    case _ =>
  }

  lemma {:induction false} LeaseHolds(w: World, steps: seq<Step>, j: Id, since: Time)
    requires Core(w) && AllowedRun(w, steps) && Leased(w, j, since)
    requires forall step :: step in steps ==> LeavesLease(step, j, since)
    ensures Leased(Run(w, steps), j, since) && Run(w, steps).jobs[j] == w.jobs[j] && Core(Run(w, steps))
    decreases steps
  {
    hide Core, Next, Allowed, LeavesLease;
    if steps == [] {
    } else {
      CoreStepKeeps(w, steps[0]);
      LeaseStays(w, steps[0], j, since);
      LeaseHolds(Next(w, steps[0]), steps[1..], j, since);
    }
  }

  /** After one worker's successful claim, every other claim of the job fails, whatever else happens,
      until the job is marked or more than five minutes have passed since it was locked. */
  lemma ClaimExcludes(w: World, j: Id, worker: Worker, at: Time, steps: seq<Step>, at': Time)
    requires Core(w) && at <= w.now && CanClaim(w, j, at)
    requires AllowedRun(Claim(w, j, worker, at), steps)
    requires forall step :: step in steps ==> LeavesLease(step, j, at)
    ensures var w' := Run(Claim(w, j, worker, at), steps);
            && j in w'.jobs && w'.jobs[j].lockedBy == Some(worker)
            && (CanClaim(w', j, at') <==> at' > at + 5 * 60 * 1_000_000)
  {
    hide Core, Run, AllowedRun, LeavesLease;
    ClaimLeases(w, j, worker, at);
    LeaseHolds(Claim(w, j, worker, at), steps, j, at);
    ClaimableWhen(Run(Claim(w, j, worker, at), steps), j, at, at');
  }

  lemma ClaimLeases(w: World, j: Id, worker: Worker, at: Time)
    requires Core(w) && at <= w.now && CanClaim(w, j, at)
    ensures Core(Claim(w, j, worker, at)) && Leased(Claim(w, j, worker, at), j, at)
    ensures Claim(w, j, worker, at).jobs[j].lockedBy == Some(worker)
    ensures Claim(w, j, worker, at).jobs[j].availableAt <= at
  {
    hide Core;
    CoreQuietKeeps(w, ClaimJob(j, worker, at));
  }

  lemma ClaimableWhen(w: World, j: Id, since: Time, at: Time)
    requires Leased(w, j, since) && w.jobs[j].availableAt <= since
    ensures CanClaim(w, j, at) <==> at > since + LEASE
  {
  }

  // ----- two workers' batches -----

  /** The jobs a worker takes in a run, among them all that one `claim_pending_jobs` call returns. */
  ghost predicate Takes(w: World, steps: seq<Step>, worker: Worker, at: Time, j: Id)
    decreases steps
  {
    steps != []
    && ((steps[0] == ClaimJob(j, worker, at) && CanClaim(w, j, at))
        || Takes(Next(w, steps[0]), steps[1..], worker, at, j))
  }

  /** No claim whose clock reads `at` can take the job: it is not open, not due by then, or under a lease
      that has not run out by then. */
  predicate Barred(w: World, j: Id, at: Time) {
    && j in w.jobs
    && var job := w.jobs[j];
       || !IsOpen(job) || job.availableAt > at
       || (job.status == Processing && job.lockedAt.Some? && job.lockedAt.value >= at - LEASE)
  }

  lemma BarredFails(w: World, j: Id, at: Time)
    ensures Barred(w, j, at) ==> j in w.jobs && !CanClaim(w, j, at)
  {
  }

  /** A mark of the job comes when the clock has reached `at`, a retry when it is past it, and a claim
      reads a clock no more than five minutes behind it. */
  predicate LeavesBarred(w: World, step: Step, j: Id, at: Time) {
    match step
    case Work(k, _, _) => k == j ==> w.now >= at
    case Retry(js) => j in js ==> w.now > at
    case ClaimJob(k, _, reading) => k == j ==> reading >= at - LEASE
    case _ => true
  }

  ghost predicate RunLeavesBarred(w: World, steps: seq<Step>, j: Id, at: Time)
    decreases steps
  {
    steps == [] || (LeavesBarred(w, steps[0], j, at) && RunLeavesBarred(Next(w, steps[0]), steps[1..], j, at))
  }

  /** A turn finishes the job or puts it off. */
  lemma TurnBars(w: World, j: Id, outcome: Outcome, at: Time)
    requires j in w.jobs && w.now >= at
    ensures Barred(Attempt(w, j, outcome), j, at)
  {
    ProcessLeavesJobs(w, j, outcome);
    FailureBars(w.jobs[j], w.now, true);
    FailureBars(w.jobs[j], w.now, false);
    hide ProcessJob, FailedJob;
  }

  lemma FailureBars(job: Job, now: Time, retryable: bool)
    ensures var failed := FailedJob(job, now, retryable);
            !IsOpen(failed) || failed.availableAt > now
  {
    assert Backoff(job.attempts + 1) > 0;
  }

  lemma {:induction false} RetriesBar(w: World, js: seq<Id>, j: Id, at: Time)
    requires Barred(w, j, at) && (j in js ==> w.now > at)
    ensures Barred(RetryAll(w, js), j, at) && RetryAll(w, js).now == w.now
  {
    hide MayRetry;
    if js == [] {
    } else {
      var init, last := js[..|js| - 1], js[|js| - 1];
      assert js == init + [last];
      RetriesBar(w, init, j, at);
    }
  }

  lemma BarredStays(w: World, step: Step, j: Id, at: Time)
    requires Core(w) && Allowed(w, step) && Barred(w, j, at) && LeavesBarred(w, step, j, at)
    ensures Barred(Next(w, step), j, at)
  {
    hide Core, Attempt, PressApprove, RetryAll, ExpireAll, CleanUpAll, RemindAll;
    KnownIds(w);
    match step
    case Approve(o, days) => ApproveLeavesJobs(w, o, days, j);
    case Work(k, worker, outcome) =>
      if k == j {
        TurnBars(w, j, outcome, at);
      } else {
        AttemptLeavesJob(w, k, outcome, j);
      }
    case ExpiryCheck(rows) => TicksLeaveJob(w, rows, [], [], j);
    case CleanUp(rows) => TicksLeaveJob(w, rows, [], [], j);
    case Remind(rows, thresholds) => TicksLeaveJob(w, rows, thresholds, [], j);
    case Retry(js) => RetriesBar(w, js, j, at);
    case _ =>
  }

  lemma {:induction false} BarredExcludes(w: World, steps: seq<Step>, j: Id, worker: Worker, at: Time)
    requires Core(w) && AllowedRun(w, steps) && Barred(w, j, at) && RunLeavesBarred(w, steps, j, at)
    ensures !Takes(w, steps, worker, at, j)
    decreases steps
  {
    hide Core, Next, Allowed, CanClaim, LeavesBarred, Barred;
    if steps == [] {
    } else {
      BarredFails(w, j, at);
      CoreStepKeeps(w, steps[0]);
      BarredStays(w, steps[0], j, at);
      BarredExcludes(Next(w, steps[0]), steps[1..], j, worker, at);
    }
  }

  predicate TakesNow(w: World, step: Step, worker: Worker, at: Time, j: Id) {
    step == ClaimJob(j, worker, at) && CanClaim(w, j, at)
  }

  /** From the first of two claims of the job on, the rest of the run leaves the other's reading barred. */
  ghost predicate Overlap(w: World, steps: seq<Step>, j: Id, a: Worker, atA: Time, b: Worker, atB: Time)
    decreases steps
  {
    steps == []
    || var w', rest := Next(w, steps[0]), steps[1..];
       if TakesNow(w, steps[0], a, atA, j) then RunLeavesBarred(w', rest, j, atB)
       else if TakesNow(w, steps[0], b, atB, j) then RunLeavesBarred(w', rest, j, atA)
       else Overlap(w', rest, j, a, atA, b, atB)
  }

  /** Concurrent claims interleaved in any way: when two workers read their clocks within five minutes of
      each other, only one of them takes a job, whoever else claims it, and however often it is marked and
      retried after both readings. */
  lemma {:induction false} WorkersDisjoint(w: World, steps: seq<Step>, a: Worker, atA: Time, b: Worker, atB: Time,
                                           j: Id)
    requires Core(w) && AllowedRun(w, steps) && (a, atA) != (b, atB)
    requires atA <= atB + LEASE && atB <= atA + LEASE && Overlap(w, steps, j, a, atA, b, atB)
    ensures !(Takes(w, steps, a, atA, j) && Takes(w, steps, b, atB, j))
    decreases steps
  {
    hide Core, CanClaim, Next, Allowed, Barred, RunLeavesBarred;
    if steps == [] {
    } else {
      var w', rest := Next(w, steps[0]), steps[1..];
      CoreStepKeeps(w, steps[0]);
      if TakesNow(w, steps[0], a, atA, j) {
        TakingBars(w, j, a, atA, atB);
        BarredExcludes(w', rest, j, b, atB);
      } else if TakesNow(w, steps[0], b, atB, j) {
        TakingBars(w, j, b, atB, atA);
        BarredExcludes(w', rest, j, a, atA);
      } else {
        WorkersDisjoint(w', rest, a, atA, b, atB, j);
      }
    }
  }

  lemma TakingBars(w: World, j: Id, worker: Worker, at: Time, other: Time)
    requires CanClaim(w, j, at) && other <= at + LEASE
    ensures Barred(Next(w, ClaimJob(j, worker, at)), j, other)
  {
  }

  // ----- due times -----

  lemma JobWell(w: World, j: Id)
    requires Core(w) && j in w.jobs
    ensures QueuedWell(w.jobs[j], w.now)
  {
    hide Refs, OneCreateJob, Waiting, Effective, OrderFollows, ExpiryJobs, OpenOnce, Paid, QueuedWell;
  }

  /** When an unfinished job can be claimed from. */
  function DueAt(job: Job): Time {
    if job.status == Processing && job.lockedAt.Some? then job.lockedAt.value + 300_000_001 else job.availableAt
  }

  /** Every unfinished job in a reachable state can be claimed from a known time on, and not before. */
  lemma ClaimableFromThenOn(now: Time, steps: seq<Step>, j: Id, at: Time)
    requires AllowedRun(Start(now), steps)
    requires j in Run(Start(now), steps).jobs && IsOpen(Run(Start(now), steps).jobs[j])
    ensures Claimable(Run(Start(now), steps).jobs[j], at) <==> at >= DueAt(Run(Start(now), steps).jobs[j])
  {
    hide Core, Run, AllowedRun;
    ReachableCore(now, steps);
    JobWell(Run(Start(now), steps), j);
  }

  /** In every reachable state a job has failed at most five times since it was queued, and after `k`
      failures a retrying one is not due before 5 * (3^k - 1) seconds after the first of them. */
  lemma BackoffAddsUp(now: Time, steps: seq<Step>, j: Id)
    requires AllowedRun(Start(now), steps) && j in Run(Start(now), steps).jobs
    ensures var job := Run(Start(now), steps).jobs[j];
            && job.attempts <= 5
            && (job.status == Pending ==> job.attempts == 0)
            && (job.status == RetryableFailure ==>
                  1 <= job.attempts <= 4 && job.firstFailedAt.Some?
                  && job.availableAt >= job.firstFailedAt.value + 5 * (Pow3(job.attempts) - 1) * SECOND)
  {
    hide Core, Run, AllowedRun;
    ReachableCore(now, steps);
    JobWell(Run(Start(now), steps), j);
  }

  // ----- a batch -----

  /** One turn of the batch loop: the job, how its call goes, and how long it takes. */
  datatype Turn = Turn(job: Id, outcome: Outcome, duration: nat)

  function AfterTurn(w: World, t: Turn): World {
    Attempt(w.(now := w.now + t.duration), t.job, t.outcome)
  }

  function Batch(w: World, turns: seq<Turn>): World {
    if turns == [] then w else AfterTurn(Batch(w, turns[..|turns| - 1]), turns[|turns| - 1])
  }

  /** A turn that raises writes the failure record and nothing else in the database. */
  predicate OnlyFailed(w: World, w': World, j: Id) {
    && w'.orders == w.orders && w'.subs == w.subs && w'.sent == w.sent && w'.grants == w.grants && w'.nextId == w.nextId
    && (j in w.jobs ==>
          && j in w'.jobs && w'.jobs == w.jobs[j := w'.jobs[j]]
          && w'.jobs[j].status in {RetryableFailure, PermanentFailure})
  }

  /** A turn that does not raise writes everything the job does, and its completion. */
  predicate FullyDone(w: World, w': World, t: Turn) {
    && ProcessJob(w, t.job, t.outcome).raised.None?
    && w' == MarkCompleted(ProcessJob(w, t.job, t.outcome).world, t.job)
    && (t.job in w.jobs ==>
          && t.job in w'.jobs && w'.jobs == w.jobs[t.job := w'.jobs[t.job]]
          && w'.jobs[t.job].status == Succeeded)
  }

  lemma TurnIsAtomic(w: World, t: Turn)
    ensures var before := w.(now := w.now + t.duration);
            OnlyFailed(before, AfterTurn(w, t), t.job) || FullyDone(before, AfterTurn(w, t), t)
  {
    var before := w.(now := w.now + t.duration);
    var p := ProcessJob(before, t.job, t.outcome);
    ProcessLeavesJobs(before, t.job, t.outcome);
    hide ProcessJob;
  }

  lemma ProcessLeavesJobs(w: World, j: Id, outcome: Outcome)
    ensures ProcessJob(w, j, outcome).world.jobs == w.jobs && ProcessJob(w, j, outcome).world.now == w.now
    ensures j !in w.jobs ==> ProcessJob(w, j, outcome).raised.Some?
  {
  }

  /** A batch is atomic per job: after the loop every claimed job is as its own turn left it, succeeded
      with all its effects or failed with none, and no other turn undid it. */
  lemma {:induction false} BatchIsAtomic(w: World, turns: seq<Turn>, i: nat)
    requires i < |turns| && turns[i].job in w.jobs
    requires forall k, l :: 0 <= k < l < |turns| ==> turns[k].job != turns[l].job
    ensures var before, after := Batch(w, turns[..i]), Batch(w, turns[..i + 1]);
            var start := before.(now := before.now + turns[i].duration);
            && (OnlyFailed(start, after, turns[i].job) || FullyDone(start, after, turns[i]))
            && turns[i].job in after.jobs && turns[i].job in Batch(w, turns).jobs
            && Batch(w, turns).jobs[turns[i].job] == after.jobs[turns[i].job]
  {
    hide ProcessJob, Attempt;
    var before := Batch(w, turns[..i]);
    assert turns[..i + 1][..i] == turns[..i];
    TurnIsAtomic(before, turns[i]);
    BatchKeepsJobs(w, turns[..i], turns[i].job);
    BatchLeaves(w, turns, i + 1, turns[i].job);
  }

  lemma {:induction false} BatchKeepsJobs(w: World, turns: seq<Turn>, j: Id)
    requires j in w.jobs
    ensures j in Batch(w, turns).jobs
  {
    if turns == [] {
    } else {
      BatchKeepsJobs(w, turns[..|turns| - 1], j);
      TurnIsAtomic(Batch(w, turns[..|turns| - 1]), turns[|turns| - 1]);
      hide ProcessJob, Attempt;
    }
  }

  /** Turns of other jobs leave a job's row alone. */
  lemma {:induction false} BatchLeaves(w: World, turns: seq<Turn>, from: nat, j: Id)
    requires from <= |turns| && j in Batch(w, turns[..from]).jobs
    requires forall k :: from <= k < |turns| ==> turns[k].job != j
    ensures j in Batch(w, turns).jobs && Batch(w, turns).jobs[j] == Batch(w, turns[..from]).jobs[j]
    decreases |turns|
  {
    hide Attempt;
    if from < |turns| {
      var init := turns[..|turns| - 1];
      assert init[..from] == turns[..from];
      BatchLeaves(w, init, from, j);
      var w1, t := Batch(w, init), turns[|turns| - 1];
      AttemptLeavesJob(w1.(now := w1.now + t.duration), t.job, t.outcome, j);
    } else {
      assert turns[..from] == turns;
    }
  }
}
