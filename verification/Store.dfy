/**
 The bot's database and the peers on the VPN host, and what each transaction does to them: orders,
 subscriptions, the job queue and the scheduler, as functions from one state to the next.
 Identifiers come from a counter, since the program's are never drawn twice.
 */
module Store {
  import opened Wrappers

  type Id = nat
  /** Microseconds. */
  type Time = int
  type Worker = nat

  const SECOND: int := 1000000
  const DAY: int := 86400 * SECOND
  const LEASE: int := 300 * SECOND
  const MAX_RETRIES := 5

  // ----- rows -----

  datatype OrderStatus =
    | Draft | AwaitingReceipt | ReceiptSubmitted | Approved | Rejected
    | OrderProvisioning | Fulfilled | OrderFailed | Cancelled

  datatype Order = Order(user: Id, server: Id, status: OrderStatus, renews: Option<Id>)

  datatype SubStatus = Provisioning | Active | Expired | Disabled | SubFailed | Revoked

  datatype Delivery = DeliveryPending | Delivered | DeliveryFailed

  /** `hasPeer` is a set `peer_external_id`. */
  datatype Sub = Sub(
    user: Id,
    server: Id,
    order: Id,
    status: SubStatus,
    startsAt: Time,
    expiresAt: Time,
    disabledAt: Option<Time>,
    removedAt: Option<Time>,
    hasPeer: bool,
    delivery: Delivery,
    redeliveries: nat)

  datatype JobKind = CreatePeer | DisablePeer | RemovePeer | EnablePeer | Redeliver

  datatype JobStatus = Pending | Processing | Succeeded | RetryableFailure | PermanentFailure

  /** The `reason` of a job's payload. */
  datatype Reason = NoReason | SubscriptionExpired | GracePeriodExpired | AdminExtend

  /** `firstFailedAt` is history: when the job first failed since it was last queued. */
  datatype Job = Job(
    kind: JobKind,
    sub: Id,
    status: JobStatus,
    attempts: nat,
    availableAt: Time,
    lockedAt: Option<Time>,
    lockedBy: Option<Worker>,
    reason: Reason,
    firstFailedAt: Option<Time>)

  /** Idempotency keys: a reminder for a threshold in days, or the expiry notice, with the expiry date. */
  datatype Notice = Reminder(sub: Id, threshold: int, date: int) | ExpiryNotice(sub: Id, date: int)

  /** History: days given to (or taken from) a subscription by an order's renewal or by `/extend`, or
      at its creation, and the lapsed time that a positive grant skipped. */
  datatype Grant = Grant(sub: Id, renewal: Option<Id>, days: int, lapsed: int)

  /** `peers` is the VPN host: whether each peer there is on. */
  datatype World = World(
    now: Time,
    orders: map<Id, Order>,
    subs: map<Id, Sub>,
    jobs: map<Id, Job>,
    peers: map<Id, bool>,
    sent: set<Notice>,
    grants: seq<Grant>,
    nextId: Id)

  // ----- the job queue (job_repo.py) -----

  predicate IsOpen(job: Job) {
    job.status in {Pending, Processing, RetryableFailure}
  }

  /** `has_open_job`. */
  predicate HasOpenJob(jobs: map<Id, Job>, kind: JobKind, sub: Id) {
    exists j :: j in jobs && jobs[j].kind == kind && jobs[j].sub == sub && IsOpen(jobs[j])
  }

  function NewJob(w: World, kind: JobKind, sub: Id, reason: Reason): Job {
    Job(kind, sub, Pending, 0, w.now, None, None, reason, None)
  }

  /** `enqueue_job`. */
  function Enqueue(w: World, kind: JobKind, sub: Id, reason: Reason): World {
    w.(jobs := w.jobs[w.nextId := NewJob(w, kind, sub, reason)], nextId := w.nextId + 1)
  }

  /** `_claimable`, for a worker whose clock reads `at`. */
  predicate Claimable(job: Job, at: Time) {
    (job.status in {Pending, RetryableFailure}
     || (job.status == Processing && job.lockedAt.Some? && job.lockedAt.value < at - LEASE))
    && job.availableAt <= at
  }

  /** The row `claim_one` leaves. */
  function ClaimedJob(job: Job, worker: Worker, at: Time): Job {
    job.(status := Processing, lockedAt := Some(at), lockedBy := Some(worker))
  }

  predicate CanClaim(w: World, j: Id, at: Time) {
    j in w.jobs && Claimable(w.jobs[j], at)
  }

  /** `claim_one`: one conditional update. */
  function Claim(w: World, j: Id, worker: Worker, at: Time): World {
    if CanClaim(w, j, at) then w.(jobs := w.jobs[j := ClaimedJob(w.jobs[j], worker, at)]) else w
  }

  function MarkCompleted(w: World, j: Id): World {
    if j in w.jobs
    then w.(jobs := w.jobs[j := w.jobs[j].(status := Succeeded, lockedAt := None, lockedBy := None)])
    else w
  }

  function Pow3(n: nat): (p: nat)
    ensures p >= 1
  {
    if n == 0 then 1 else 3 * Pow3(n - 1)
  }

  /** The delay after failure number `attempts`: 10, 30, 90, 270 seconds. */
  function Backoff(attempts: nat): int
    requires attempts >= 1
  {
    10 * Pow3(attempts - 1) * SECOND
  }

  function FailedJob(job: Job, now: Time, retryable: bool): Job {
    var failed := job.(attempts := job.attempts + 1, lockedAt := None, lockedBy := None,
                       firstFailedAt := if job.firstFailedAt.Some? then job.firstFailedAt else Some(now));
    if retryable && failed.attempts < MAX_RETRIES
    then failed.(status := RetryableFailure, availableAt := now + Backoff(failed.attempts))
    else failed.(status := PermanentFailure)
  }

  function MarkFailed(w: World, j: Id, retryable: bool): World {
    if j in w.jobs then w.(jobs := w.jobs[j := FailedJob(w.jobs[j], w.now, retryable)]) else w
  }

  function RequeuedJob(job: Job, now: Time): Job {
    job.(status := Pending, attempts := 0, availableAt := now, lockedAt := None, lockedBy := None,
         firstFailedAt := None)
  }

  // ----- orders (order_repo.py, admin.py) -----

  function PlaceOrder(w: World, user: Id, server: Id, renews: Option<Id>): World {
    w.(orders := w.orders[w.nextId := Order(user, server, AwaitingReceipt, renews)], nextId := w.nextId + 1)
  }

  /** `submit_receipt`: whatever the order's status was. */
  function SubmitReceipt(w: World, o: Id): World {
    if o in w.orders then w.(orders := w.orders[o := w.orders[o].(status := ReceiptSubmitted)]) else w
  }

  predicate HasOwnSub(subs: map<Id, Sub>, o: Id) {
    exists s :: s in subs && subs[s].order == o
  }

  /** `_renewable_subscription`. */
  function Renewable(w: World, o: Id): Option<Id>
    requires o in w.orders
  {
    var order := w.orders[o];
    if order.renews.None? || order.renews.value !in w.subs then None
    else
      var sub := w.subs[order.renews.value];
      if sub.user != order.user || sub.server != order.server || !sub.hasPeer || sub.removedAt.Some? then None
      else order.renews
  }

  function Later(a: Time, b: Time): Time {
    if a < b then b else a
  }

  /** The time a grant skips because the subscription had already run out. */
  function Lapsed(sub: Sub, now: Time): int {
    Later(sub.expiresAt, now) - sub.expiresAt
  }

  /** `_approve_renewal`. */
  function Renew(w: World, o: Id, s: Id, days: int): World
    requires o in w.orders && s in w.subs
  {
    var sub := w.subs[s];
    var renewed := sub.(expiresAt := Later(sub.expiresAt, w.now) + days * DAY, status := Active, disabledAt := None);
    var w1 := w.(subs := w.subs[s := renewed],
                 orders := w.orders[o := w.orders[o].(status := Fulfilled)],
                 grants := w.grants + [Grant(s, Some(o), days, Lapsed(sub, w.now))]);
    if sub.status != Active then Enqueue(w1, EnablePeer, s, NoReason) else w1
  }

  function NewSub(w: World, o: Id, days: int): Sub
    requires o in w.orders
  {
    Sub(w.orders[o].user, w.orders[o].server, o, Provisioning, w.now, w.now + days * DAY, None, None, false,
        DeliveryPending, 0)
  }

  /** The first sale: a subscription waiting for its peer, and the job that makes it. */
  function OpenSubscription(w: World, o: Id, days: int): World
    requires o in w.orders
  {
    var w1 := w.(orders := w.orders[o := w.orders[o].(status := OrderProvisioning)],
                 subs := w.subs[w.nextId := NewSub(w, o, days)],
                 grants := w.grants + [Grant(w.nextId, None, days, 0)],
                 nextId := w.nextId + 1);
    Enqueue(w1, CreatePeer, w.nextId, NoReason)
  }

  predicate AlreadyProcessed(w: World, o: Id)
    requires o in w.orders
  {
    HasOwnSub(w.subs, o) || w.orders[o].status in {Approved, OrderProvisioning, Fulfilled}
  }

  /** `approve_order_atomic`, for a product of `days` days. */
  function ApproveOrder(w: World, o: Id, days: int): World {
    if o !in w.orders || AlreadyProcessed(w, o) then w
    else
      match Renewable(w, o)
      case Some(s) => Renew(w, o, s, days)
      case None => OpenSubscription(w, o, days)
  }

  /** The approve button: it looks at the status first. */
  function PressApprove(w: World, o: Id, days: int): World {
    if o in w.orders && w.orders[o].status in {ReceiptSubmitted, AwaitingReceipt} then ApproveOrder(w, o, days) else w
  }

  function RejectOrder(w: World, o: Id): World {
    if o !in w.orders || w.orders[o].status in {Approved, OrderProvisioning, Fulfilled} then w
    else w.(orders := w.orders[o := w.orders[o].(status := Rejected)])
  }

  // ----- subscriptions (subscription_repo.py, admin.py) -----

  function ExtendedSub(sub: Sub, now: Time, days: int): Sub {
    var base := if days > 0 then Later(sub.expiresAt, now) else sub.expiresAt;
    var moved := sub.(expiresAt := base + days * DAY);
    if days > 0 && sub.status in {Disabled, Expired} then moved.(status := Active, disabledAt := None) else moved
  }

  /** `/extend`: refused once the peer is gone; a subscription it brings back gets an enable job. */
  function Extend(w: World, s: Id, days: int): World {
    if s !in w.subs || days == 0 || w.subs[s].removedAt.Some? || !w.subs[s].hasPeer then w
    else
      var sub, sub' := w.subs[s], ExtendedSub(w.subs[s], w.now, days);
      var w1 := w.(subs := w.subs[s := sub'],
                   grants := w.grants + [Grant(s, None, days, if days > 0 then Lapsed(sub, w.now) else 0)]);
      if sub.status != Active && sub'.status == Active then Enqueue(w1, EnablePeer, s, AdminExtend) else w1
  }

  function RequestRedelivery(w: World, s: Id): World {
    if s in w.subs then Enqueue(w, Redeliver, s, NoReason) else w
  }

  // ----- the worker (engine.py) -----

  /** `_renewed`: a job queued at expiry must not undo a renewal. */
  predicate Renewed(sub: Sub, job: Job, now: Time) {
    job.reason in {SubscriptionExpired, GracePeriodExpired} && sub.status == Active && sub.expiresAt > now
  }

  /** How a job's outside call goes: it works (and a message is delivered or not), it fails without
      an effect, or it works and something breaks after it. */
  datatype Outcome = Works(delivered: bool) | Fails(permanent: bool) | BreaksAfter

  /** `_process_job`: the state it leaves, and whether it raised (for good or not). A raise can leave
      half of the writes behind; the batch then rolls them back. */
  datatype Processed = Processed(world: World, raised: Option<bool>)

  function Finished(w: World, outcome: Outcome): Processed {
    Processed(w, if outcome.BreaksAfter? then Some(false) else None)
  }

  function ActivatedSub(sub: Sub): Sub {
    sub.(status := Active, hasPeer := true, delivery := Delivered)
  }

  function ProcessCreate(w: World, s: Id, outcome: Outcome): Processed {
    if s !in w.subs then Processed(w, Some(true))
    else if outcome.Fails? then Processed(w, Some(outcome.permanent))
    else
      var o := w.subs[s].order;
      var w1 := w.(peers := w.peers[s := if s in w.peers then w.peers[s] else true],
                   subs := w.subs[s := ActivatedSub(w.subs[s])],
                   orders := if o in w.orders then w.orders[o := w.orders[o].(status := Fulfilled)] else w.orders);
      if outcome.BreaksAfter? then Processed(w1, Some(false))
      else
        var delivery := if outcome.delivered then Delivered else DeliveryFailed;
        Processed(w1.(subs := w1.subs[s := w1.subs[s].(delivery := delivery)]), None)
  }

  function ProcessDisable(w: World, s: Id, job: Job, outcome: Outcome): Processed {
    if s !in w.subs || Renewed(w.subs[s], job, w.now) || !w.subs[s].hasPeer then Processed(w, None)
    else if outcome.Fails? then Processed(w, Some(outcome.permanent))
    else Finished(w.(peers := if s in w.peers then w.peers[s := false] else w.peers,
                     subs := w.subs[s := w.subs[s].(status := Disabled, disabledAt := Some(w.now))]), outcome)
  }

  function ProcessRemove(w: World, s: Id, job: Job, outcome: Outcome): Processed {
    if s !in w.subs || Renewed(w.subs[s], job, w.now) || !w.subs[s].hasPeer then Processed(w, None)
    else if outcome.Fails? then Processed(w, Some(outcome.permanent))
    else Finished(w.(peers := w.peers - {s},
                     subs := w.subs[s := w.subs[s].(status := Expired, removedAt := Some(w.now))]), outcome)
  }

  /** A peer that is not on the host cannot be enabled: `vpnctl` answers with its permanent exit code 3. */
  function ProcessEnable(w: World, s: Id, outcome: Outcome): Processed {
    if s !in w.subs || !w.subs[s].hasPeer then Processed(w, None)
    else if outcome.Fails? then Processed(w, Some(outcome.permanent))
    else if s !in w.peers then Processed(w, Some(true))
    else Finished(w.(peers := w.peers[s := true]), outcome)
  }

  function ProcessRedeliver(w: World, s: Id, outcome: Outcome): Processed {
    if s !in w.subs || !w.subs[s].hasPeer then Processed(w, None)
    else if outcome.Fails? then Processed(w, Some(outcome.permanent))
    else if s !in w.peers then Processed(w, Some(true))
    else if outcome.Works? && !outcome.delivered then Processed(w, Some(false))
    else
      var sent := w.subs[s].(delivery := Delivered, redeliveries := w.subs[s].redeliveries + 1);
      Finished(w.(subs := w.subs[s := sent]), outcome)
  }

  function ProcessJob(w: World, j: Id, outcome: Outcome): Processed {
    if j !in w.jobs then Processed(w, Some(false))
    else
      var job := w.jobs[j];
      match job.kind
      case CreatePeer => ProcessCreate(w, job.sub, outcome)
      case DisablePeer => ProcessDisable(w, job.sub, job, outcome)
      case RemovePeer => ProcessRemove(w, job.sub, job, outcome)
      case EnablePeer => ProcessEnable(w, job.sub, outcome)
      case Redeliver => ProcessRedeliver(w, job.sub, outcome)
  }

  /** One turn of the batch loop: all of a job's writes and its completion, or none of them and its
      failure. What the provisioner did stays done. */
  function Attempt(w: World, j: Id, outcome: Outcome): World {
    var p := ProcessJob(w, j, outcome);
    match p.raised
    case None => MarkCompleted(p.world, j)
    case Some(permanent) => MarkFailed(w.(peers := p.world.peers), j, !permanent)
  }

  // ----- admin retries (admin_jobs.py) -----

  /** `retry_blocker` finds nothing against running the job again. */
  predicate MayRetry(w: World, job: Job) {
    && !HasOpenJob(w.jobs, job.kind, job.sub)
    && job.sub in w.subs
    && (job.kind == CreatePeer ==> w.subs[job.sub].status == Provisioning)
    && (job.kind == EnablePeer ==> w.subs[job.sub].status == Active && w.subs[job.sub].expiresAt > w.now)
  }

  function RetryOne(w: World, j: Id): World {
    if j in w.jobs && w.jobs[j].status == PermanentFailure && MayRetry(w, w.jobs[j])
    then w.(jobs := w.jobs[j := RequeuedJob(w.jobs[j], w.now)])
    else w
  }

  function RetryAll(w: World, js: seq<Id>): World {
    if js == [] then w else RetryOne(RetryAll(w, js[..|js| - 1]), js[|js| - 1])
  }

  // ----- the scheduler (service.py) -----

  /** The date of a time, as the idempotency keys write it. */
  function DateOf(t: Time): int {
    t / DAY
  }

  predicate IsExpired(sub: Sub, now: Time) {
    sub.status == Active && sub.expiresAt <= now
  }

  function ExpireOne(w: World, s: Id): World {
    if s !in w.subs || HasOpenJob(w.jobs, DisablePeer, s) then w
    else
      var notice := ExpiryNotice(s, DateOf(w.subs[s].expiresAt));
      Enqueue(w, DisablePeer, s, SubscriptionExpired).(sent := w.sent + {notice})
  }

  /** `check_expired_subscriptions` over the selected rows. */
  function ExpireAll(w: World, rows: seq<Id>): World {
    if rows == [] then w else ExpireOne(ExpireAll(w, rows[..|rows| - 1]), rows[|rows| - 1])
  }

  predicate PastGrace(sub: Sub, now: Time, graceDays: int) {
    sub.status == Disabled && sub.disabledAt.Some? && sub.disabledAt.value <= now - graceDays * DAY
  }

  function CleanUpOne(w: World, s: Id): World {
    if s !in w.subs || HasOpenJob(w.jobs, RemovePeer, s) then w else Enqueue(w, RemovePeer, s, GracePeriodExpired)
  }

  /** `cleanup_removed_peers` over the selected rows. */
  function CleanUpAll(w: World, rows: seq<Id>): World {
    if rows == [] then w else CleanUpOne(CleanUpAll(w, rows[..|rows| - 1]), rows[|rows| - 1])
  }

  /** The smallest threshold that the whole days left do not exceed; `days` is in increasing order. */
  function Threshold(days: seq<int>, daysLeft: int): Option<int> {
    if days == [] then None else if daysLeft <= days[0] then Some(days[0]) else Threshold(days[1..], daysLeft)
  }

  predicate Sorted(days: seq<int>) {
    forall i, j :: 0 <= i < j < |days| ==> days[i] <= days[j]
  }

  /** What a tick at `now` reminds a subscription of: nothing once it has run out, or while more than
      the largest threshold is left. */
  function DueReminder(days: seq<int>, expiresAt: Time, now: Time): Option<int>
  {
    if days == [] || expiresAt > now + days[|days| - 1] * DAY || expiresAt <= now then None
    else Threshold(days, (expiresAt - now) / DAY)
  }

  function RemindOne(w: World, s: Id, days: seq<int>): World {
    if s !in w.subs then w
    else
      match DueReminder(days, w.subs[s].expiresAt, w.now)
      case None => w
      case Some(t) => w.(sent := w.sent + {Reminder(s, t, DateOf(w.subs[s].expiresAt))})
  }

  /** `check_expiring_subscriptions` over the selected rows. */
  function RemindAll(w: World, rows: seq<Id>, days: seq<int>): World {
    if rows == [] then w else RemindOne(RemindAll(w, rows[..|rows| - 1], days), rows[|rows| - 1], days)
  }

  predicate IsExpiring(sub: Sub, now: Time, days: seq<int>)
    requires days != []
  {
    sub.status == Active && now < sub.expiresAt <= now + days[|days| - 1] * DAY
  }
}
