/** How a worker's turn ends, for every kind of job, state of its subscription and outcome of its call. */
module ProtocolTurns {
  import opened Wrappers
  import opened Store
  import opened Protocol
  import opened ProtocolSteps
  import opened ProtocolWork
  import opened ProtocolTheorems
  import opened ProtocolQueue

  /** The turn gets to call the host. A create always does; the others need a peer; and a disable or a remove
      leaves a subscription alone that is active with time left. */
  predicate CallsHost(w: World, job: Job) {
    job.sub in w.subs
    && var sub := w.subs[job.sub];
       match job.kind
       case CreatePeer => true
       case DisablePeer => sub.hasPeer && !(sub.status == Active && sub.expiresAt > w.now)
       case RemovePeer => sub.hasPeer && !(sub.status == Active && sub.expiresAt > w.now)
       case EnablePeer => sub.hasPeer
       case Redeliver => sub.hasPeer
  }

  datatype Fate = Done | TriedAgain | GivenUp

  function FateOf(w: World, job: Job, outcome: Outcome): Fate {
    if job.kind == CreatePeer && job.sub !in w.subs then GivenUp
    else if !CallsHost(w, job) then Done
    else if outcome == Fails(true) then GivenUp
    else if outcome == Fails(false) then TriedAgain
    else if job.kind in {EnablePeer, Redeliver} && job.sub !in w.peers then GivenUp
    else if outcome == BreaksAfter || (job.kind == Redeliver && outcome == Works(false)) then TriedAgain
    else Done
  }

  /** 10, 30, 90 and 270 seconds after the first, second, third and fourth failure. */
  const DELAYS: seq<int> := [10_000_000, 30_000_000, 90_000_000, 270_000_000]

  predicate Ended(job: Job, job': Job, now: Time, fate: Fate) {
    && job.attempts < 5 && job'.lockedAt.None? && job'.lockedBy.None?
    && job'.kind == job.kind && job'.sub == job.sub && job'.reason == job.reason
    && match fate
       case Done => job'.status == Succeeded && job'.attempts == job.attempts
       case GivenUp => job'.status == PermanentFailure && job'.attempts == job.attempts + 1
       case TriedAgain =>
         job'.attempts == job.attempts + 1
         && if job.attempts < 4
            then job'.status == RetryableFailure && job'.availableAt == now + DELAYS[job.attempts]
            else job'.status == PermanentFailure
  }

  lemma DelaysGrow(job: Job, now: Time)
    requires job.attempts < 5
    ensures Ended(job, FailedJob(job, now, true), now, TriedAgain)
    ensures Ended(job, FailedJob(job, now, false), now, GivenUp)
    ensures Ended(job, CompletedJob(job), now, Done)
  {
    assert Pow3(0) == 1 && Pow3(1) == 3;
    assert Pow3(2) == 9;
    assert Pow3(3) == 27;
  }

  /** What a turn raises, if anything. */
  lemma ProcessRaises(w: World, j: Id, outcome: Outcome)
    requires j in w.jobs && (w.jobs[j].kind in {DisablePeer, RemovePeer} ==> IsExpiry(w.jobs[j].reason))
    ensures ProcessJob(w, j, outcome).raised
         == match FateOf(w, w.jobs[j], outcome)
            case Done => None
            case TriedAgain => Some(false)
            case GivenUp => Some(true)
  {
  }

  /** A turn of a job in work ends as its fate says: a failure that may pass is tried again after exactly its
      delay, four times; a failure for good, and a fifth one, is the last. */
  lemma TurnEnds(w: World, j: Id, outcome: Outcome)
    requires j in w.jobs && w.jobs[j].attempts < 5
    requires w.jobs[j].kind in {DisablePeer, RemovePeer} ==> IsExpiry(w.jobs[j].reason)
    ensures j in Attempt(w, j, outcome).jobs
            && Ended(w.jobs[j], Attempt(w, j, outcome).jobs[j], w.now, FateOf(w, w.jobs[j], outcome))
  {
    hide FailedJob, Ended, FateOf, ProcessJob;
    ProcessRaises(w, j, outcome);
    ProcessLeavesJobs(w, j, outcome);
    DelaysGrow(w.jobs[j], w.now);
  }

  /** Every job that a worker holds in a reachable state meets what is asked there. */
  lemma HeldTurnEnds(w: World, j: Id, worker: Worker, outcome: Outcome)
    requires Core(w) && Holds(w, j, worker)
    ensures w.jobs[j].sub in w.subs && j in Attempt(w, j, outcome).jobs
    ensures Ended(w.jobs[j], Attempt(w, j, outcome).jobs[j], w.now, FateOf(w, w.jobs[j], outcome))
  {
    hide Core, Attempt, Ended, FateOf;
    PeersKnown(w);
    ExpiryFact(w, j);
    JobWell(w, j);
    TurnEnds(w, j, outcome);
  }

  /** What the job's own row, its subscription, the order and the peer become when the host was called and all went
      well. Nothing else changes. */
  predicate DoneOnHost(w: World, w': World, j: Id, delivered: bool)
    requires j in w.jobs && w.jobs[j].sub in w.subs
  {
    var s, jobs' := w.jobs[j].sub, w'.jobs;
    var sub := w.subs[s];
    match w.jobs[j].kind
    case CreatePeer =>
      w' == w.(jobs := jobs', peers := if s in w.peers then w.peers else w.peers[s := true],
               subs := w.subs[s := sub.(status := Active, hasPeer := true,
                                        delivery := if delivered then Delivered else DeliveryFailed)],
               orders := if sub.order in w.orders
                         then w.orders[sub.order := w.orders[sub.order].(status := Fulfilled)] else w.orders)
    case DisablePeer =>
      w' == w.(jobs := jobs', peers := if s in w.peers then w.peers[s := false] else w.peers,
               subs := w.subs[s := sub.(status := Disabled, disabledAt := Some(w.now))])
    case RemovePeer =>
      w' == w.(jobs := jobs', peers := w.peers - {s},
               subs := w.subs[s := sub.(status := Expired, removedAt := Some(w.now))])
    case EnablePeer => w' == w.(jobs := jobs', peers := w.peers[s := true])
    case Redeliver =>
      w' == w.(jobs := jobs', subs := w.subs[s := sub.(delivery := Delivered, redeliveries := sub.redeliveries + 1)])
  }

  lemma ProcessDoes(w: World, j: Id, outcome: Outcome)
    requires j in w.jobs && (w.jobs[j].kind in {DisablePeer, RemovePeer} ==> IsExpiry(w.jobs[j].reason))
    requires FateOf(w, w.jobs[j], outcome) == Done
    ensures !CallsHost(w, w.jobs[j]) ==> ProcessJob(w, j, outcome).world == w
    ensures CallsHost(w, w.jobs[j]) ==>
              outcome.Works? && DoneOnHost(w, ProcessJob(w, j, outcome).world, j, outcome.delivered)
  {
    var s := w.jobs[j].sub;
    assert s in w.peers ==> w.peers[s := w.peers[s]] == w.peers;
  }

  /** A turn that is done changes exactly what its kind of job is for, and nothing but its own row if the host was
      not called. */
  lemma TurnDoes(w: World, j: Id, outcome: Outcome)
    requires j in w.jobs && (w.jobs[j].kind in {DisablePeer, RemovePeer} ==> IsExpiry(w.jobs[j].reason))
    requires FateOf(w, w.jobs[j], outcome) == Done
    ensures var w' := Attempt(w, j, outcome);
            if CallsHost(w, w.jobs[j]) then outcome.Works? && DoneOnHost(w, w', j, outcome.delivered)
            else w' == w.(jobs := w'.jobs)
  {
    hide FateOf, ProcessJob, CallsHost, FailedJob;
    ProcessRaises(w, j, outcome);
    ProcessDoes(w, j, outcome);
  }
}
