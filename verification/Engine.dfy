/** The worker: it claims a batch, commits the claim, and runs the jobs one by one. */
module Engine {
  import opened Wrappers
  import opened Store
  import opened Sessions
  import opened Repositories
  import opened Protocol
  import opened ProtocolRuns
  import opened ProtocolReplies
  import opened ProtocolTheorems
  import opened ProtocolQueue

  /** How each job's outside call goes and how long it takes, which the worker cannot choose. */
  type Replies = Id -> Outcome
  type Durations = Id -> nat

  function Turns(jobs: seq<Id>, replies: Replies, durations: Durations): seq<Turn> {
    seq(|jobs|, i requires 0 <= i < |jobs| => Turn(jobs[i], replies(jobs[i]), durations(jobs[i])))
  }

  class WorkerEngine {
    const session: Session
    const worker: Worker
    const jobRepo: JobRepository
    const subRepo: SubscriptionRepository

    constructor (session: Session, worker: Worker)
      ensures this.session == session && this.worker == worker
      ensures jobRepo.session == session && subRepo.session == session
    {
      this.session, this.worker := session, worker;
      jobRepo := new JobRepository(session);
      subRepo := new SubscriptionRepository(session);
    }

    predicate Valid() {
      jobRepo.session == session && subRepo.session == session
    }

    // ----- the five kinds of job: each says what it raised, if it did, and may leave writes behind -----

    method CreatePeerJob(s: Id, reply: Outcome) returns (raised: Option<bool>)
      requires Valid()
      modifies session`orders, session`subs, session`peers
      ensures Processed(session.State(), raised) == ProcessCreate(old(session.State()), s, reply)
    {
      if s !in session.subs {
        return Some(true);
      }
      if reply.Fails? {
        return Some(reply.permanent);
      }
      if s !in session.peers {
        session.peers := session.peers[s := true];
      }
      subRepo.MarkActive(s);
      var o := session.subs[s].order;
      if o in session.orders {
        session.orders := session.orders[o := session.orders[o].(status := Fulfilled)];
      }
      assert session.peers == old(session.peers)[s := if s in old(session.peers) then old(session.peers)[s] else true];
      if reply.BreaksAfter? {
        return Some(false);
      }
      subRepo.SetDelivery(s, if reply.delivered then Delivered else DeliveryFailed);
      return None;
    }

    method DisablePeerJob(s: Id, job: Job, reply: Outcome) returns (raised: Option<bool>)
      requires Valid()
      modifies session`subs, session`peers
      ensures Processed(session.State(), raised) == ProcessDisable(old(session.State()), s, job, reply)
    {
      if s !in session.subs || Renewed(session.subs[s], job, session.now) || !session.subs[s].hasPeer {
        return None;
      }
      if reply.Fails? {
        return Some(reply.permanent);
      }
      if s in session.peers {
        session.peers := session.peers[s := false];
      }
      subRepo.MarkDisabled(s);
      return if reply.BreaksAfter? then Some(false) else None;
    }

    method RemovePeerJob(s: Id, job: Job, reply: Outcome) returns (raised: Option<bool>)
      requires Valid()
      modifies session`subs, session`peers
      ensures Processed(session.State(), raised) == ProcessRemove(old(session.State()), s, job, reply)
    {
      if s !in session.subs || Renewed(session.subs[s], job, session.now) || !session.subs[s].hasPeer {
        return None;
      }
      if reply.Fails? {
        return Some(reply.permanent);
      }
      session.peers := session.peers - {s};
      subRepo.MarkRemoved(s);
      return if reply.BreaksAfter? then Some(false) else None;
    }

    method EnablePeerJob(s: Id, reply: Outcome) returns (raised: Option<bool>)
      modifies session`peers
      ensures Processed(session.State(), raised) == ProcessEnable(old(session.State()), s, reply)
    {
      if s !in session.subs || !session.subs[s].hasPeer {
        return None;
      }
      if reply.Fails? {
        return Some(reply.permanent);
      }
      if s !in session.peers {
        return Some(true);
      }
      session.peers := session.peers[s := true];
      return if reply.BreaksAfter? then Some(false) else None;
    }

    method RedeliverJob(s: Id, reply: Outcome) returns (raised: Option<bool>)
      requires Valid()
      modifies session`subs
      ensures Processed(session.State(), raised) == ProcessRedeliver(old(session.State()), s, reply)
    {
      if s !in session.subs || !session.subs[s].hasPeer {
        return None;
      }
      if reply.Fails? {
        return Some(reply.permanent);
      }
      if s !in session.peers {
        return Some(true);
      }
      if reply.Works? && !reply.delivered {
        return Some(false);
      }
      subRepo.SetDelivery(s, Delivered);
      subRepo.IncrementRedeliveryCount(s);
      assert session.subs == old(session.subs)[s := session.subs[s]];
      return if reply.BreaksAfter? then Some(false) else None;
    }

    /** `_process_job`. */
    method ProcessJob(j: Id, reply: Outcome) returns (raised: Option<bool>)
      requires Valid()
      modifies session`orders, session`subs, session`peers
      ensures Processed(session.State(), raised) == Store.ProcessJob(old(session.State()), j, reply)
    {
      hide ProcessCreate, ProcessDisable, ProcessRemove, ProcessEnable, ProcessRedeliver;
      if j !in session.jobs {
        return Some(false);
      }
      var job := session.jobs[j];
      match job.kind
      case CreatePeer => raised := CreatePeerJob(job.sub, reply);
      case DisablePeer => raised := DisablePeerJob(job.sub, job, reply);
      case RemovePeer => raised := RemovePeerJob(job.sub, job, reply);
      case EnablePeer => raised := EnablePeerJob(job.sub, reply);
      case Redeliver => raised := RedeliverJob(job.sub, reply);
    }

    /** One turn of the batch loop. The turn that raises is rolled back to the last commit, and only
        its failure is recorded. */
    method RunJob(j: Id, reply: Outcome, duration: nat)
      requires Valid() && session.committed == session.State()
      modifies session
      ensures session.State() == AfterTurn(old(session.State()), Turn(j, reply, duration))
      ensures session.committed == session.State()
    {
      hide Store.ProcessJob, Store.MarkCompleted, Store.MarkFailed;
      ghost var start := session.State();
      session.Wait(duration);
      var raised := ProcessJob(j, reply);
      if raised.None? {
        jobRepo.MarkCompleted(j);
      } else {
        ProcessLeavesClock(start.(now := start.now + duration), j, reply);
        session.Rollback();
        jobRepo.MarkFailed(j, !raised.value);
      }
      session.Commit();
    }

    /** `run_single_batch`. */
    method RunSingleBatch(limit: nat, replies: Replies, durations: Durations)
      returns (count: nat, ghost claimed: seq<Id>)
      requires Valid() && session.committed == session.State()
      modifies session
      ensures var before := old(session.State());
              && IsSelection(before, before.now, limit, claimed) && count == |claimed|
              && claimed == Claimed(before, claimed, worker, before.now)
              && session.State() == Batch(ClaimRows(before, claimed, worker, before.now),
                                          Turns(claimed, replies, durations))
              && session.committed == session.State()
    {
      hide AfterTurn, ClaimRows, Claimed, IsSelection;
      var jobs := jobRepo.ClaimPendingJobs(worker, limit);
      claimed := jobs;
      if jobs == [] {
        NothingClaimed(old(session.State()), jobs, worker, session.now);
        return 0, [];
      }
      session.Commit();
      ghost var claims, turns := session.State(), Turns(jobs, replies, durations);
      for i := 0 to |jobs|
        invariant session.State() == Batch(claims, turns[..i]) && session.committed == session.State()
      {
        assert turns[..i + 1][..i] == turns[..i];
        RunJob(jobs[i], replies(jobs[i]), durations(jobs[i]));
      }
      assert turns[..|jobs|] == turns;
      return |jobs|, jobs;
    }
  }

  lemma ProcessLeavesClock(w: World, j: Id, outcome: Outcome)
    ensures Store.ProcessJob(w, j, outcome).world.now == w.now
  {
    ProcessLeavesJobs(w, j, outcome);
    hide Store.ProcessJob;
  }

  lemma {:induction false} NothingClaimed(w: World, candidates: seq<Id>, worker: Worker, at: Time)
    requires Claimed(w, candidates, worker, at) == []
    ensures ClaimRows(w, candidates, worker, at) == w
  {
    hide CanClaim;
    if candidates == [] {
    } else {
      NothingClaimed(w, candidates[..|candidates| - 1], worker, at);
    }
  }

  // ----- the worker's batch as steps of the protocol -----

  function ClaimSteps(candidates: seq<Id>, worker: Worker, at: Time): seq<Step> {
    seq(|candidates|, i requires 0 <= i < |candidates| => ClaimJob(candidates[i], worker, at))
  }

  /** Each turn is a pause and the work. */
  function WorkSteps(start: Time, turns: seq<Turn>, worker: Worker): seq<Step> {
    if turns == [] then []
    else
      var init, last := turns[..|turns| - 1], turns[|turns| - 1];
      WorkSteps(start, init, worker)
      + [Tick(FinishTime(start, turns)), Work(last.job, worker, last.outcome)]
  }

  function FinishTime(start: Time, turns: seq<Turn>): Time {
    if turns == [] then start else FinishTime(start, turns[..|turns| - 1]) + turns[|turns| - 1].duration
  }

  lemma {:induction false} RunConcat(w: World, a: seq<Step>, b: seq<Step>)
    ensures Run(w, a + b) == Run(Run(w, a), b)
    decreases a
  {
    hide Next;
    if a == [] {
      assert a + b == b;
    } else {
      assert (a + b)[1..] == a[1..] + b;
      RunConcat(Next(w, a[0]), a[1..], b);
    }
  }

  lemma {:induction false} ClaimsRun(w: World, candidates: seq<Id>, worker: Worker, at: Time)
    ensures Run(w, ClaimSteps(candidates, worker, at)) == ClaimRows(w, candidates, worker, at)
  {
    hide Claim;
    if candidates == [] {
    } else {
      var init, last := candidates[..|candidates| - 1], candidates[|candidates| - 1];
      ClaimsRun(w, init, worker, at);
      assert ClaimSteps(candidates, worker, at) == ClaimSteps(init, worker, at) + [ClaimJob(last, worker, at)];
      RunConcat(w, ClaimSteps(init, worker, at), [ClaimJob(last, worker, at)]);
      RunOne(Run(w, ClaimSteps(init, worker, at)), ClaimJob(last, worker, at));
    }
  }

  lemma RunOne(w: World, step: Step)
    ensures Run(w, [step]) == Next(w, step)
    ensures AllowedRun(w, [step]) <==> Allowed(w, step)
  {
    hide Next, Allowed;
    assert [step][1..] == [];
  }

  lemma RunTurn(w: World, t: Turn, worker: Worker)
    ensures Run(w, [Tick(w.now + t.duration), Work(t.job, worker, t.outcome)]) == AfterTurn(w, t)
  {
    hide *;
    RunPair(w, Tick(w.now + t.duration), Work(t.job, worker, t.outcome));
    NextTick(w, w.now + t.duration);
    NextWork(w.(now := w.now + t.duration), t.job, worker, t.outcome);
    TurnIs(w, t);
  }

  lemma RunPair(w: World, a: Step, b: Step)
    ensures Run(w, [a, b]) == Next(Next(w, a), b)
    ensures AllowedRun(w, [a, b]) <==> Allowed(w, a) && Allowed(Next(w, a), b)
  {
    hide Next, Allowed, Run, AllowedRun;
    assert [a, b] == [a] + [b];
    RunNext(w, a, [b]);
    RunOne(Next(w, a), b);
  }

  lemma TurnIs(w: World, t: Turn)
    ensures AfterTurn(w, t) == Attempt(w.(now := w.now + t.duration), t.job, t.outcome)
  {
    hide Attempt;
  }

  lemma NextTick(w: World, to: Time)
    ensures Next(w, Tick(to)) == w.(now := to)
  {
  }

  lemma NextWork(w: World, j: Id, worker: Worker, outcome: Outcome)
    ensures Next(w, Work(j, worker, outcome)) == Attempt(w, j, outcome)
  {
    hide Attempt;
  }

  lemma {:induction false} TurnsRun(w: World, turns: seq<Turn>, worker: Worker)
    ensures Run(w, WorkSteps(w.now, turns, worker)) == Batch(w, turns)
    ensures Batch(w, turns).now == FinishTime(w.now, turns)
  {
    hide Attempt;
    if turns == [] {
    } else {
      var init, last := turns[..|turns| - 1], turns[|turns| - 1];
      TurnsRun(w, init, worker);
      RunTurn(Batch(w, init), last, worker);
      RunConcat(w, WorkSteps(w.now, init, worker),
                [Tick(FinishTime(w.now, turns)), Work(last.job, worker, last.outcome)]);
      TurnTime(Batch(w, init), last);
    }
  }

  lemma TurnTime(w: World, t: Turn)
    ensures AfterTurn(w, t).now == w.now + t.duration
  {
    var before := w.(now := w.now + t.duration);
    ProcessLeavesClock(before, t.job, t.outcome);
    hide Store.ProcessJob;
  }

  lemma {:induction false} ClaimsKeepClock(w: World, candidates: seq<Id>, worker: Worker, at: Time)
    ensures ClaimRows(w, candidates, worker, at).now == w.now
  {
    if candidates == [] {
    } else {
      ClaimsKeepClock(w, candidates[..|candidates| - 1], worker, at);
    }
  }

  /** A whole batch is a run of the protocol: its claims, then a pause and the work for each job claimed. */
  lemma BatchIsRun(w: World, candidates: seq<Id>, worker: Worker, replies: Replies, durations: Durations)
    ensures var turns := Turns(Claimed(w, candidates, worker, w.now), replies, durations);
            Run(w, ClaimSteps(candidates, worker, w.now) + WorkSteps(w.now, turns, worker))
            == Batch(ClaimRows(w, candidates, worker, w.now), turns)
  {
    hide Run, Batch, ClaimRows, Claimed, Turns, ClaimSteps, WorkSteps;
    var turns := Turns(Claimed(w, candidates, worker, w.now), replies, durations);
    ClaimsRun(w, candidates, worker, w.now);
    ClaimsKeepClock(w, candidates, worker, w.now);
    TurnsRun(ClaimRows(w, candidates, worker, w.now), turns, worker);
    RunConcat(w, ClaimSteps(candidates, worker, w.now), WorkSteps(w.now, turns, worker));
  }

  // ----- and as allowed steps, while the lease lasts -----

  lemma {:induction false} AllowedConcat(w: World, a: seq<Step>, b: seq<Step>)
    requires AllowedRun(w, a) && AllowedRun(Run(w, a), b)
    ensures AllowedRun(w, a + b)
    decreases a
  {
    hide Next, Allowed;
    if a == [] {
      assert a + b == b;
    } else {
      assert (a + b)[1..] == a[1..] + b;
      AllowedConcat(Next(w, a[0]), a[1..], b);
    }
  }

  lemma {:induction false} ClaimsAllowed(w: World, candidates: seq<Id>, worker: Worker, at: Time)
    requires at <= w.now
    ensures AllowedRun(w, ClaimSteps(candidates, worker, at))
  {
    hide Claim;
    if candidates == [] {
    } else {
      var init, last := candidates[..|candidates| - 1], candidates[|candidates| - 1];
      ClaimsAllowed(w, init, worker, at);
      assert ClaimSteps(candidates, worker, at) == ClaimSteps(init, worker, at) + [ClaimJob(last, worker, at)];
      ClaimsRun(w, init, worker, at);
      ClaimsKeepClock(w, init, worker, at);
      RunOne(Run(w, ClaimSteps(init, worker, at)), ClaimJob(last, worker, at));
      AllowedConcat(w, ClaimSteps(init, worker, at), [ClaimJob(last, worker, at)]);
    }
  }

  predicate HeldSince(w: World, j: Id, worker: Worker, at: Time) {
    Leased(w, j, at) && w.jobs[j].lockedBy == Some(worker)
  }

  /** Every job the batch claimed is leased to the worker, and none is claimed twice. */
  lemma {:induction false} ClaimedAreHeld(w: World, candidates: seq<Id>, worker: Worker, at: Time)
    requires Distinct(candidates)
    ensures forall j :: j in Claimed(w, candidates, worker, at) ==>
              j in candidates && HeldSince(ClaimRows(w, candidates, worker, at), j, worker, at)
    ensures Distinct(Claimed(w, candidates, worker, at))
  {
    hide Claimable;
    if candidates == [] {
    } else {
      var init, last := candidates[..|candidates| - 1], candidates[|candidates| - 1];
      ClaimedAreHeld(w, init, worker, at);
      assert last !in init;
    }
  }

  lemma {:induction false} TurnsAllowed(w: World, turns: seq<Turn>, worker: Worker, at: Time)
    requires forall i, j :: 0 <= i < j < |turns| ==> turns[i].job != turns[j].job
    requires forall t :: t in turns ==> HeldSince(w, t.job, worker, at)
    requires FinishTime(w.now, turns) <= at + LEASE
    ensures AllowedRun(w, WorkSteps(w.now, turns, worker))
  {
    hide Attempt, Run, Batch, Next;
    if turns == [] {
    } else {
      var init, last := turns[..|turns| - 1], turns[|turns| - 1];
      TurnsAllowed(w, init, worker, at);
      TurnsRun(w, init, worker);
      assert last in turns && turns[..0] == [] && init[..0] == [];
      BatchStart(w);
      BatchLeaves(w, init, 0, last.job);
      TurnAllowed(Batch(w, init), last, worker, at);
      AllowedConcat(w, WorkSteps(w.now, init, worker),
                  [Tick(FinishTime(w.now, turns)), Work(last.job, worker, last.outcome)]);
    }
  }

  lemma BatchStart(w: World)
    ensures Batch(w, []) == w
  {
    hide AfterTurn;
  }

  lemma TurnAllowed(w: World, t: Turn, worker: Worker, at: Time)
    requires HeldSince(w, t.job, worker, at) && w.now + t.duration <= at + LEASE
    ensures AllowedRun(w, [Tick(w.now + t.duration), Work(t.job, worker, t.outcome)])
  {
    hide Run, AllowedRun, Next;
    RunPair(w, Tick(w.now + t.duration), Work(t.job, worker, t.outcome));
    NextTick(w, w.now + t.duration);
  }

  /** A batch that ends within the lease of its claims marks only what the worker holds, lost replies or not. */
  lemma BatchIsAllowed(w: World, candidates: seq<Id>, worker: Worker, replies: Replies, durations: Durations)
    requires Distinct(candidates)
    requires var turns := Turns(Claimed(w, candidates, worker, w.now), replies, durations);
             FinishTime(w.now, turns) <= w.now + LEASE
    ensures var turns := Turns(Claimed(w, candidates, worker, w.now), replies, durations);
            AllowedRun(w, ClaimSteps(candidates, worker, w.now) + WorkSteps(w.now, turns, worker))
  {
    hide Run, AllowedRun, Batch, ClaimRows, Claimed, ClaimSteps, WorkSteps, FinishTime, HeldSince;
    var claimed := Claimed(w, candidates, worker, w.now);
    ClaimsAllowed(w, candidates, worker, w.now);
    ClaimsRun(w, candidates, worker, w.now);
    ClaimsKeepClock(w, candidates, worker, w.now);
    ClaimedAreHeld(w, candidates, worker, w.now);
    forall t | t in Turns(claimed, replies, durations)
      ensures HeldSince(ClaimRows(w, candidates, worker, w.now), t.job, worker, w.now)
    {
      var i :| 0 <= i < |claimed| && t == Turn(claimed[i], replies(claimed[i]), durations(claimed[i]));
      assert claimed[i] in claimed;
    }
    TurnsAllowed(ClaimRows(w, candidates, worker, w.now), Turns(claimed, replies, durations), worker, w.now);
    AllowedConcat(w, ClaimSteps(candidates, worker, w.now),
                  WorkSteps(w.now, Turns(claimed, replies, durations), worker));
  }

  lemma {:induction false} NothingLostInTurns(start: Time, turns: seq<Turn>, worker: Worker)
    requires forall t :: t in turns ==> !t.outcome.BreaksAfter?
    ensures forall step :: step in WorkSteps(start, turns, worker) ==> NothingLost(step)
  {
    hide FinishTime;
    if turns == [] {
    } else {
      assert turns[|turns| - 1] in turns;
      NothingLostInTurns(start, turns[..|turns| - 1], worker);
    }
  }

  /** So every invariant survives it, those of the database in any case, and all of them if no reply is lost. */
  lemma BatchKeeps(w: World, candidates: seq<Id>, worker: Worker, replies: Replies, durations: Durations)
    requires Distinct(candidates)
    requires var turns := Turns(Claimed(w, candidates, worker, w.now), replies, durations);
             FinishTime(w.now, turns) <= w.now + LEASE
    ensures var w' := Batch(ClaimRows(w, candidates, worker, w.now),
                            Turns(Claimed(w, candidates, worker, w.now), replies, durations));
            && (Core(w) ==> Core(w'))
            && (Inv(w) && (forall j :: j in candidates ==> !replies(j).BreaksAfter?) ==> Inv(w'))
  {
    hide *;
    BatchIsRun(w, candidates, worker, replies, durations);
    BatchIsAllowed(w, candidates, worker, replies, durations);
    var turns := Turns(Claimed(w, candidates, worker, w.now), replies, durations);
    var steps := ClaimSteps(candidates, worker, w.now) + WorkSteps(w.now, turns, worker);
    if Core(w) {
      CoreRunKeeps(w, steps);
    }
    if Inv(w) && forall j :: j in candidates ==> !replies(j).BreaksAfter? {
      TurnsOfClaimed(w, candidates, worker, replies, durations);
      NothingLostInTurns(w.now, turns, worker);
      NothingLostInClaims(candidates, worker, w.now);
      LegalIsAllowed(w, steps);
      RunKeeps(w, steps);
    }
  }

  lemma NothingLostInClaims(candidates: seq<Id>, worker: Worker, at: Time)
    ensures forall step :: step in ClaimSteps(candidates, worker, at) ==> NothingLost(step)
  {
  }

  lemma TurnsOfClaimed(w: World, candidates: seq<Id>, worker: Worker, replies: Replies, durations: Durations)
    requires Distinct(candidates) && forall j :: j in candidates ==> !replies(j).BreaksAfter?
    ensures forall t :: t in Turns(Claimed(w, candidates, worker, w.now), replies, durations) ==>
            !t.outcome.BreaksAfter?
  {
    hide Claimed, ClaimRows, HeldSince;
    var claimed := Claimed(w, candidates, worker, w.now);
    ClaimedAreHeld(w, candidates, worker, w.now);
    forall t | t in Turns(claimed, replies, durations)
      ensures !t.outcome.BreaksAfter?
    {
      var i :| 0 <= i < |claimed| && t == Turn(claimed[i], replies(claimed[i]), durations(claimed[i]));
      assert claimed[i] in claimed;
    }
  }
}
