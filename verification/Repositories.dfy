/** The repositories: each method changes the session's rows, and is proved against the store's functions. */
module Repositories {
  import opened Wrappers
  import opened Store
  import opened Sessions

  predicate Distinct(ids: seq<Id>) {
    forall i, j :: 0 <= i < j < |ids| ==> ids[i] != ids[j]
  }

  // ----- claiming a selection of jobs -----

  /** `claim_one` for one candidate after the other. */
  function ClaimRows(w: World, candidates: seq<Id>, worker: Worker, at: Time): World {
    if candidates == [] then w
    else Claim(ClaimRows(w, candidates[..|candidates| - 1], worker, at), candidates[|candidates| - 1], worker, at)
  }

  /** The candidates whose update matched. */
  function Claimed(w: World, candidates: seq<Id>, worker: Worker, at: Time): seq<Id> {
    if candidates == [] then []
    else
      var init, last := candidates[..|candidates| - 1], candidates[|candidates| - 1];
      Claimed(w, init, worker, at) + if CanClaim(ClaimRows(w, init, worker, at), last, at) then [last] else []
  }

  /** What the SELECT returns: claimable jobs, the earliest due first, as many as there are up to the limit. */
  ghost predicate IsSelection(w: World, at: Time, limit: nat, rows: seq<Id>) {
    && Distinct(rows) && |rows| <= limit
    && (forall j :: j in rows ==> CanClaim(w, j, at))
    && InOrder(w.jobs, rows)
    && (forall j :: CanClaim(w, j, at) && j !in rows ==> |rows| == limit && NoneLater(w.jobs, rows, j))
  }

  predicate InOrder(jobs: map<Id, Job>, rows: seq<Id>) {
    forall i, k :: 0 <= i < k < |rows| && rows[i] in jobs && rows[k] in jobs ==>
                     jobs[rows[i]].availableAt <= jobs[rows[k]].availableAt
  }

  predicate NoneLater(jobs: map<Id, Job>, rows: seq<Id>, j: Id)
    requires j in jobs
  {
    forall k :: k in rows && k in jobs ==> jobs[k].availableAt <= jobs[j].availableAt
  }

  lemma {:induction false} Earliest(jobs: map<Id, Job>, ids: set<Id>) returns (j: Id)
    requires ids <= jobs.Keys && ids != {}
    ensures j in ids && forall k :: k in ids ==> jobs[j].availableAt <= jobs[k].availableAt
    decreases |ids|
  {
    j :| j in ids;
    if ids == {j} {
    } else {
      var k := Earliest(jobs, ids - {j});
      j := if jobs[k].availableAt < jobs[j].availableAt then k else j;
    }
  }

  /** The claimable jobs that come before this one, or may. */
  function DueBefore(w: World, at: Time, j: Id): set<Id>
    requires j in w.jobs
  {
    set k | k in w.jobs && k != j && CanClaim(w, k, at) && w.jobs[k].availableAt <= w.jobs[j].availableAt
  }

  function Members(ids: seq<Id>): set<Id> {
    set j | j in ids
  }

  lemma {:induction false} DistinctCount(ids: seq<Id>)
    requires Distinct(ids)
    ensures |Members(ids)| == |ids|
  {
    if ids == [] {
    } else {
      var init, last := ids[..|ids| - 1], ids[|ids| - 1];
      DistinctCount(init);
      assert ids == init + [last];
      assert last !in Members(init);
      assert Members(ids) == Members(init) + {last};
    }
  }

  lemma SubsetCount(a: set<Id>, b: set<Id>)
    requires a <= b
    ensures |a| <= |b|
  {
    assert b == a + (b - a);
  }

  /** The earliest due come first, and no claimable job is left out while fewer than the limit can come before it. */
  lemma EarliestAreTaken(w: World, at: Time, limit: nat, rows: seq<Id>, j: Id)
    requires IsSelection(w, at, limit, rows) && CanClaim(w, j, at) && |DueBefore(w, at, j)| < limit
    ensures j in rows
    ensures forall i, k :: 0 <= i < k < |rows| ==> DueInOrder(w.jobs, rows[i], rows[k])
  {
    hide Claimable;
    if j !in rows {
      assert NoneLater(w.jobs, rows, j);
      forall k | k in Members(rows)
        ensures k in DueBefore(w, at, j)
      {
        assert k in rows && CanClaim(w, k, at);
      }
      DistinctCount(rows);
      SubsetCount(Members(rows), DueBefore(w, at, j));
      assert false;
    }
    forall i, k | 0 <= i < k < |rows|
      ensures DueInOrder(w.jobs, rows[i], rows[k])
    {
      assert rows[i] in rows && rows[k] in rows;
    }
  }

  predicate DueInOrder(jobs: map<Id, Job>, j: Id, k: Id) {
    j in jobs && k in jobs && jobs[j].availableAt <= jobs[k].availableAt
  }

  /** Claims leave the other jobs alone. */
  lemma {:induction false} ClaimsLeave(w: World, rows: seq<Id>, worker: Worker, at: Time, j: Id)
    requires j !in rows
    ensures CanClaim(ClaimRows(w, rows, worker, at), j, at) == CanClaim(w, j, at)
  {
    hide Claimable;
    if rows == [] {
    } else {
      ClaimsLeave(w, rows[..|rows| - 1], worker, at, j);
    }
  }

  /** Jobs that are all claimable are all claimed when nobody comes between. */
  lemma {:induction false} AllClaimed(w: World, rows: seq<Id>, worker: Worker, at: Time)
    requires Distinct(rows) && forall j :: j in rows ==> CanClaim(w, j, at)
    ensures Claimed(w, rows, worker, at) == rows
  {
    hide CanClaim;
    if rows == [] {
    } else {
      var init, last := rows[..|rows| - 1], rows[|rows| - 1];
      AllClaimed(w, init, worker, at);
      assert last !in init;
      ClaimsLeave(w, init, worker, at, last);
      assert rows == init + [last];
    }
  }

  class JobRepository {
    const session: Session

    constructor (session: Session)
      ensures this.session == session
    {
      this.session := session;
    }

    method EnqueueJob(kind: JobKind, sub: Id, reason: Reason) returns (job: Id)
      modifies session`jobs, session`nextId
      ensures session.State() == Enqueue(old(session.State()), kind, sub, reason)
      ensures job == old(session.nextId)
    {
      job := session.nextId;
      session.jobs := session.jobs[job := Job(kind, sub, Pending, 0, session.now, None, None, reason, None)];
      session.nextId := session.nextId + 1;
    }

    /** One UPDATE that matches only while the job is still claimable. */
    method ClaimOne(j: Id, worker: Worker, at: Time) returns (matched: bool)
      modifies session`jobs
      ensures session.State() == Claim(old(session.State()), j, worker, at)
      ensures matched == CanClaim(old(session.State()), j, at)
    {
      matched := j in session.jobs && Claimable(session.jobs[j], at);
      if matched {
        session.jobs :=
          session.jobs[j := session.jobs[j].(status := Processing, lockedAt := Some(at), lockedBy := Some(worker))];
      }
    }

    /** The SELECT of `claim_pending_jobs`. */
    method SelectCandidates(at: Time, limit: nat) returns (rows: seq<Id>)
      ensures IsSelection(session.State(), at, limit, rows)
    {
      hide Claimable;
      var claimable := set j | j in session.jobs && Claimable(session.jobs[j], at);
      var left := claimable;
      rows := [];
      while left != {} && |rows| < limit
        invariant left <= claimable && |rows| <= limit && Distinct(rows) && InOrder(session.jobs, rows)
        invariant forall j :: j in rows <==> j in claimable && j !in left
        invariant forall j :: j in left ==> NoneLater(session.jobs, rows, j)
        decreases |left|
      {
        ghost var earliest := Earliest(session.jobs, left);
        var j :| j in left && forall k :: k in left ==> session.jobs[j].availableAt <= session.jobs[k].availableAt;
        left := left - {j};
        rows := rows + [j];
      }
    }

    /** The loop over the candidates. They may be stale: other workers may have come first. */
    method ClaimCandidates(candidates: seq<Id>, worker: Worker, at: Time) returns (claimed: seq<Id>)
      modifies session`jobs
      ensures session.State() == ClaimRows(old(session.State()), candidates, worker, at)
      ensures claimed == Claimed(old(session.State()), candidates, worker, at)
    {
      ghost var before := session.State();
      claimed := [];
      for i := 0 to |candidates|
        invariant session.State() == ClaimRows(before, candidates[..i], worker, at)
        invariant claimed == Claimed(before, candidates[..i], worker, at)
      {
        assert candidates[..i + 1][..i] == candidates[..i];
        var matched := ClaimOne(candidates[i], worker, at);
        if matched {
          claimed := claimed + [candidates[i]];
        }
      }
      assert candidates[..|candidates|] == candidates;
    }

    /** `claim_pending_jobs`, when nobody comes between its SELECT and its updates. */
    method ClaimPendingJobs(worker: Worker, limit: nat) returns (claimed: seq<Id>)
      modifies session`jobs
      ensures IsSelection(old(session.State()), session.now, limit, claimed)
      ensures session.State() == ClaimRows(old(session.State()), claimed, worker, session.now)
      ensures claimed == Claimed(old(session.State()), claimed, worker, session.now)
    {
      hide ClaimRows, Claimed, CanClaim, InOrder, NoneLater;
      var candidates := SelectCandidates(session.now, limit);
      AllClaimed(session.State(), candidates, worker, session.now);
      claimed := ClaimCandidates(candidates, worker, session.now);
    }

    method MarkCompleted(j: Id)
      modifies session`jobs
      ensures session.State() == Store.MarkCompleted(old(session.State()), j)
    {
      if j in session.jobs {
        session.jobs := session.jobs[j := session.jobs[j].(status := Succeeded, lockedAt := None, lockedBy := None)];
      }
    }

    method MarkFailed(j: Id, retryable: bool)
      modifies session`jobs
      ensures session.State() == Store.MarkFailed(old(session.State()), j, retryable)
    {
      if j in session.jobs {
        var job := session.jobs[j];
        job := job.(attempts := job.attempts + 1, lockedAt := None, lockedBy := None);
        if job.firstFailedAt.None? {
          job := job.(firstFailedAt := Some(session.now));
        }
        if retryable && job.attempts < MAX_RETRIES {
          job := job.(status := RetryableFailure, availableAt := session.now + Backoff(job.attempts));
        } else {
          job := job.(status := PermanentFailure);
        }
        session.jobs := session.jobs[j := job];
      }
    }

    method Requeue(j: Id)
      requires j in session.jobs
      modifies session`jobs
      ensures session.jobs == old(session.jobs)[j := RequeuedJob(old(session.jobs[j]), session.now)]
    {
      var job := session.jobs[j];
      job := job.(status := Pending, attempts := 0, availableAt := session.now);
      job := job.(lockedAt := None, lockedBy := None, firstFailedAt := None);
      session.jobs := session.jobs[j := job];
    }
  }

  class OrderRepository {
    const session: Session

    constructor (session: Session)
      ensures this.session == session
    {
      this.session := session;
    }

    method CreateOrder(user: Id, server: Id, renews: Option<Id>) returns (o: Id)
      modifies session`orders, session`nextId
      ensures session.State() == PlaceOrder(old(session.State()), user, server, renews) && o == old(session.nextId)
    {
      o := session.nextId;
      session.orders := session.orders[o := Order(user, server, AwaitingReceipt, renews)];
      session.nextId := session.nextId + 1;
    }

    method SetStatus(o: Id, status: OrderStatus)
      requires o in session.orders
      modifies session`orders
      ensures session.orders == old(session.orders)[o := old(session.orders[o]).(status := status)]
    {
      session.orders := session.orders[o := session.orders[o].(status := status)];
    }

    method SubmitReceipt(o: Id) returns (found: bool)
      modifies session`orders
      ensures session.State() == Store.SubmitReceipt(old(session.State()), o) && found == (o in old(session.orders))
    {
      found := o in session.orders;
      if found {
        SetStatus(o, ReceiptSubmitted);
      }
    }

    /** The subscription the order extends, if it still has a peer on the server. */
    method RenewableSubscription(o: Id) returns (sub: Option<Id>)
      requires o in session.orders
      ensures sub == Renewable(session.State(), o)
    {
      var order := session.orders[o];
      if order.renews.None? || order.renews.value !in session.subs {
        return None;
      }
      var row := session.subs[order.renews.value];
      if row.user != order.user || row.server != order.server || !row.hasPeer || row.removedAt.Some? {
        return None;
      }
      return order.renews;
    }

    method ApproveRenewal(o: Id, s: Id, days: int) returns (job: Option<Id>)
      requires o in session.orders && s in session.subs
      modifies session`orders, session`subs, session`jobs, session`grants, session`nextId
      ensures session.State() == Renew(old(session.State()), o, s, days)
      ensures job == if old(session.subs[s]).status != Active then Some(old(session.nextId)) else None
    {
      var sub := session.subs[s];
      var wasDisabled := sub.status != Active;
      var base := if sub.expiresAt < session.now then session.now else sub.expiresAt;
      session.grants := session.grants + [Grant(s, Some(o), days, base - sub.expiresAt)];
      session.subs := session.subs[s := sub.(expiresAt := base + days * DAY, status := Active, disabledAt := None)];
      SetStatus(o, Fulfilled);
      job := None;
      if wasDisabled {
        var repo := new JobRepository(session);
        var id := repo.EnqueueJob(EnablePeer, s, NoReason);
        job := Some(id);
      }
    }

    method ApproveOrderAtomic(o: Id, days: int) returns (ok: bool, sub: Option<Id>, job: Option<Id>)
      modifies session`orders, session`subs, session`jobs, session`grants, session`nextId
      ensures session.State() == ApproveOrder(old(session.State()), o, days)
      ensures ok == (o in old(session.orders) && !AlreadyProcessed(old(session.State()), o))
      ensures !ok ==> job.None? && (sub.Some? <==> o in old(session.orders) && HasOwnSub(old(session.subs), o))
      ensures !ok && sub.Some? ==> sub.value in session.subs && session.subs[sub.value].order == o
      ensures ok ==> sub.Some? && exists g: Grant :: session.grants == old(session.grants) + [g] && g.sub == sub.value
      ensures job.Some? ==> ok && job.value in session.jobs && session.jobs[job.value].sub == sub.value
    {
      hide Lapsed, Later;
      if o !in session.orders {
        return false, None, None;
      }
      if exists s :: s in session.subs && session.subs[s].order == o {
        var existing :| existing in session.subs && session.subs[existing].order == o;
        return false, Some(existing), None;
      }
      if session.orders[o].status in {Approved, OrderProvisioning, Fulfilled} {
        return false, None, None;
      }
      var renewed := RenewableSubscription(o);
      if renewed.Some? {
        job := ApproveRenewal(o, renewed.value, days);
        return true, renewed, job;
      }
      SetStatus(o, OrderProvisioning);
      var s, order := session.nextId, session.orders[o];
      session.subs := session.subs[s := Sub(order.user, order.server, o, Provisioning, session.now,
                                            session.now + days * DAY,
                                            None, None, false, DeliveryPending, 0)];
      session.grants := session.grants + [Grant(s, None, days, 0)];
      session.nextId := session.nextId + 1;
      var repo := new JobRepository(session);
      var id := repo.EnqueueJob(CreatePeer, s, NoReason);
      return true, Some(s), Some(id);
    }

    method RejectOrder(o: Id) returns (ok: bool)
      modifies session`orders
      ensures session.State() == Store.RejectOrder(old(session.State()), o)
      ensures ok ==> o in session.orders && session.orders[o].status == Rejected
      ensures !ok ==> session.orders == old(session.orders)
    {
      if o !in session.orders || session.orders[o].status in {Approved, OrderProvisioning, Fulfilled} {
        return false;
      }
      SetStatus(o, Rejected);
      return true;
    }
  }

  class SubscriptionRepository {
    const session: Session

    constructor (session: Session)
      ensures this.session == session
    {
      this.session := session;
    }

    method MarkActive(s: Id)
      modifies session`subs
      ensures session.subs == if s in old(session.subs)
                              then old(session.subs)[s := ActivatedSub(old(session.subs[s]))]
                              else old(session.subs)
    {
      if s in session.subs {
        session.subs := session.subs[s := session.subs[s].(status := Active, hasPeer := true, delivery := Delivered)];
      }
    }

    method MarkDisabled(s: Id)
      modifies session`subs
      ensures var was := old(session.subs);
              session.subs == if s in was
                              then was[s := was[s].(status := Disabled, disabledAt := Some(session.now))]
                              else was
    {
      if s in session.subs {
        session.subs := session.subs[s := session.subs[s].(status := Disabled, disabledAt := Some(session.now))];
      }
    }

    method MarkRemoved(s: Id)
      modifies session`subs
      ensures var was := old(session.subs);
              session.subs == if s in was
                              then was[s := was[s].(status := Expired, removedAt := Some(session.now))]
                              else was
    {
      if s in session.subs {
        session.subs := session.subs[s := session.subs[s].(status := Expired, removedAt := Some(session.now))];
      }
    }

    method ExtendSubscription(s: Id, days: int)
      modifies session`subs
      ensures session.subs == if s in old(session.subs)
                              then old(session.subs)[s := ExtendedSub(old(session.subs[s]), session.now, days)]
                              else old(session.subs)
    {
      if s in session.subs {
        var sub := session.subs[s];
        var base := if days > 0 && sub.expiresAt < session.now then session.now else sub.expiresAt;
        sub := sub.(expiresAt := base + days * DAY);
        if days > 0 && sub.status in {Disabled, Expired} {
          sub := sub.(status := Active, disabledAt := None);
        }
        session.subs := session.subs[s := sub];
      }
    }

    method SetDelivery(s: Id, delivery: Delivery)
      requires s in session.subs
      modifies session`subs
      ensures session.subs == old(session.subs)[s := old(session.subs[s]).(delivery := delivery)]
    {
      session.subs := session.subs[s := session.subs[s].(delivery := delivery)];
    }

    method IncrementRedeliveryCount(s: Id)
      requires s in session.subs
      modifies session`subs
      ensures var was := old(session.subs);
              session.subs == was[s := was[s].(redeliveries := was[s].redeliveries + 1)]
    {
      session.subs := session.subs[s := session.subs[s].(redeliveries := session.subs[s].redeliveries + 1)];
    }

    /** A SELECT over the subscriptions: each row that matches, once, in any order. */
    method Select(matches: Sub -> bool) returns (rows: seq<Id>)
      ensures Distinct(rows)
      ensures forall s :: s in rows <==> s in session.subs && matches(session.subs[s])
    {
      rows := [];
      var left := session.subs.Keys;
      while left != {}
        invariant left <= session.subs.Keys && Distinct(rows)
        invariant forall s :: s in rows <==> s in session.subs && s !in left && matches(session.subs[s])
        decreases |left|
      {
        var s :| s in left;
        left := left - {s};
        if matches(session.subs[s]) {
          rows := rows + [s];
        }
      }
    }
  }

  class NotificationRepository {
    const session: Session

    constructor (session: Session)
      ensures this.session == session
    {
      this.session := session;
    }

    method CreateNotificationIfNotExists(key: Notice) returns (created: bool)
      modifies session`sent
      ensures session.sent == old(session.sent) + {key} && created == (key !in old(session.sent))
    {
      created := key !in session.sent;
      if created {
        session.sent := session.sent + {key};
      }
    }
  }
}
