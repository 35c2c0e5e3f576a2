/**
 The transactions of the bot, the scheduler, the workers and the admin as steps of one machine, and
 what is owed to each step.
 */
module Protocol {
  import opened Wrappers
  import opened Store

  datatype Step =
    | Tick(to: Time)
    | Place(user: Id, server: Id, renews: Option<Id>)
    | Submit(o: Id)
    | Approve(o: Id, days: int)
    | Reject(o: Id)
    | ExtendBy(s: Id, days: int)
    | AskAgain(s: Id)
    | ExpiryCheck(rows: seq<Id>)
    | CleanUp(rows: seq<Id>)
    | Remind(rows: seq<Id>, thresholds: seq<int>)
    | ClaimJob(j: Id, worker: Worker, at: Time)
    | Work(j: Id, worker: Worker, outcome: Outcome)
    | Retry(js: seq<Id>)

  function Next(w: World, step: Step): World {
    match step
    case Tick(to) => w.(now := to)
    case Place(user, server, renews) => PlaceOrder(w, user, server, renews)
    case Submit(o) => SubmitReceipt(w, o)
    case Approve(o, days) => PressApprove(w, o, days)
    case Reject(o) => RejectOrder(w, o)
    case ExtendBy(s, days) => Extend(w, s, days)
    case AskAgain(s) => RequestRedelivery(w, s)
    case ExpiryCheck(rows) => ExpireAll(w, rows)
    case CleanUp(rows) => CleanUpAll(w, rows)
    case Remind(rows, thresholds) => RemindAll(w, rows, thresholds)
    case ClaimJob(j, worker, at) => Claim(w, j, worker, at)
    case Work(j, worker, outcome) => Attempt(w, j, outcome)
    case Retry(js) => RetryAll(w, js)
  }

  /** A worker holds a job: it claimed it and its lease has not run out. */
  predicate Holds(w: World, j: Id, worker: Worker) {
    && j in w.jobs && w.jobs[j].status == Processing && w.jobs[j].lockedBy == Some(worker)
    && w.jobs[j].lockedAt.Some? && w.now <= w.jobs[j].lockedAt.value + LEASE
  }

  /** The clock does not go back, a claim uses a clock reading of the past, a worker marks only a job it
      holds, and a receipt is sent only while it is awaited. Replies may be lost. */
  predicate Allowed(w: World, step: Step) {
    match step
    case Tick(to) => w.now <= to
    case Submit(o) => o in w.orders ==> w.orders[o].status == AwaitingReceipt
    case ClaimJob(_, _, at) => at <= w.now
    case Work(j, worker, _) => Holds(w, j, worker)
    case _ => true
  }

  /** Nothing breaks after a provisioner call that took effect. */
  predicate NothingLost(step: Step) {
    step.Work? ==> !step.outcome.BreaksAfter?
  }

  predicate Legal(w: World, step: Step) {
    Allowed(w, step) && NothingLost(step)
  }

  function Run(w: World, steps: seq<Step>): World
    decreases steps
  {
    if steps == [] then w else Run(Next(w, steps[0]), steps[1..])
  }

  predicate LegalRun(w: World, steps: seq<Step>)
    decreases steps
  {
    steps == [] || (Legal(w, steps[0]) && LegalRun(Next(w, steps[0]), steps[1..]))
  }

  predicate AllowedRun(w: World, steps: seq<Step>)
    decreases steps
  {
    steps == [] || (Allowed(w, steps[0]) && AllowedRun(Next(w, steps[0]), steps[1..]))
  }

  /** The empty database. */
  function Start(now: Time): World {
    World(now, map[], map[], map[], map[], {}, [], 0)
  }

  // ----- the job queue -----

  /** Seconds between the first failure and the due time after `k` retryable failures, at least. */
  function BackoffTotal(k: nat): int {
    5 * (Pow3(k) - 1) * SECOND
  }

  predicate BackedOff(job: Job) {
    if job.attempts == 0 then job.firstFailedAt.None?
    else job.firstFailedAt.Some? && job.availableAt >= job.firstFailedAt.value + BackoffTotal(job.attempts)
  }

  predicate Unlocked(job: Job) {
    job.lockedAt.None? && job.lockedBy.None?
  }

  /** Pending jobs have not failed, retrying ones failed one to four times, a job in work is locked
      and was due when it was locked, and a job that failed for good did so one to five times. */
  predicate QueuedWell(job: Job, now: Time) {
    match job.status
    case Pending => job.attempts == 0 && Unlocked(job) && BackedOff(job)
    case RetryableFailure => 1 <= job.attempts < MAX_RETRIES && Unlocked(job) && BackedOff(job)
    case Processing =>
      job.attempts < MAX_RETRIES && BackedOff(job) && job.lockedBy.Some? && job.lockedAt.Some?
      && job.availableAt <= job.lockedAt.value <= now
    case Succeeded => job.attempts < MAX_RETRIES && Unlocked(job)
    case PermanentFailure => 1 <= job.attempts <= MAX_RETRIES && Unlocked(job)
  }

  ghost predicate Queue(jobs: map<Id, Job>, now: Time) {
    forall j :: j in jobs ==> QueuedWell(jobs[j], now)
  }

  // ----- references -----

  ghost predicate Refs(w: World) {
    && (forall o :: o in w.orders ==> o < w.nextId)
    && (forall s :: s in w.subs ==> s < w.nextId && w.subs[s].order in w.orders)
    && (forall j :: j in w.jobs ==> j < w.nextId && w.jobs[j].sub in w.subs)
    && (forall s :: s in w.peers ==> s in w.subs)
    && (forall g :: g in w.grants ==> g.sub in w.subs && (g.renewal.Some? ==> g.renewal.value in w.orders))
  }

  // ----- create jobs -----

  predicate IsCreateJob(jobs: map<Id, Job>, j: Id, s: Id) {
    j in jobs && jobs[j].kind == CreatePeer && jobs[j].sub == s
  }

  /** Every subscription has one create job, ever. */
  ghost predicate OneCreateJob(subs: set<Id>, jobs: map<Id, Job>) {
    && (forall s :: s in subs ==> exists j :: IsCreateJob(jobs, j, s))
    && (forall i, j, s :: IsCreateJob(jobs, i, s) && IsCreateJob(jobs, j, s) ==> i == j)
  }

  /** It has a peer from its activation on, and once removed it is not active. */
  predicate WellFormedSub(sub: Sub) {
    && sub.status in {Provisioning, Active, Expired, Disabled} && (sub.hasPeer <==> sub.status != Provisioning)
    && (sub.removedAt.Some? ==> sub.hasPeer && sub.status != Active)
  }

  /** A subscription waits for its peer exactly while its create job has not succeeded. */
  ghost predicate Waiting(subs: map<Id, Sub>, jobs: map<Id, Job>) {
    && (forall s :: s in subs ==> WellFormedSub(subs[s]))
    && (forall j, s :: IsCreateJob(jobs, j, s) && s in subs ==> (jobs[j].status == Succeeded <==> subs[s].hasPeer))
  }

  // ----- orders -----

  function Renewals(grants: seq<Grant>, o: Id): nat {
    if grants == [] then 0
    else Renewals(grants[..|grants| - 1], o) + if grants[|grants| - 1].renewal == Some(o) then 1 else 0
  }

  /** The subscriptions an order opened. */
  function Opened(subs: map<Id, Sub>, o: Id): set<Id> {
    set s | s in subs && subs[s].order == o
  }

  /** How often an order took effect: the subscriptions it opened and the renewals it was applied to. */
  function Effects(subs: map<Id, Sub>, grants: seq<Grant>, o: Id): nat {
    |Opened(subs, o)| + Renewals(grants, o)
  }

  predicate TookEffect(order: Order) {
    order.status in {OrderProvisioning, Fulfilled}
  }

  predicate WellFormedOrder(order: Order) {
    order.status in {AwaitingReceipt, ReceiptSubmitted, Rejected, OrderProvisioning, Fulfilled}
  }

  /** An order opens at most one subscription, and takes effect once exactly when its status says so. */
  ghost predicate Effective(orders: map<Id, Order>, subs: map<Id, Sub>, grants: seq<Grant>) {
    && (forall s, t :: s in subs && t in subs && subs[s].order == subs[t].order ==> s == t)
    && (forall o :: o in orders ==> WellFormedOrder(orders[o]))
    && (forall o :: o in orders ==> Effects(subs, grants, o) == if TookEffect(orders[o]) then 1 else 0)
  }

  function StatusOf(sub: Sub): OrderStatus {
    if sub.status == Provisioning then OrderProvisioning else Fulfilled
  }

  /** A new order waits exactly while its subscription does. */
  ghost predicate OrderFollows(orders: map<Id, Order>, subs: map<Id, Sub>) {
    && (forall s :: s in subs && subs[s].order in orders ==> orders[subs[s].order].status == StatusOf(subs[s]))
    && (forall o :: o in orders && orders[o].status == OrderProvisioning ==> HasOwnSub(subs, o))
  }

  // ----- service -----

  predicate EnableQueued(jobs: map<Id, Job>, s: Id) {
    exists j :: j in jobs && jobs[j].kind == EnablePeer && jobs[j].sub == s && jobs[j].status != Succeeded
  }

  /** A peer is on the host while its subscription has one that was not removed, and the peer of an active
      subscription is on or an enable job for it has not succeeded. */
  ghost predicate Served(subs: map<Id, Sub>, peers: map<Id, bool>, jobs: map<Id, Job>) {
    && (forall s :: s in subs && subs[s].hasPeer && subs[s].removedAt.None? ==> s in peers)
    && (forall s :: s in peers && s in subs ==> subs[s].hasPeer)
    && (forall s :: s in subs && s in peers && subs[s].status == Active && !peers[s] ==> EnableQueued(jobs, s))
  }

  predicate IsExpiry(reason: Reason) {
    reason in {SubscriptionExpired, GracePeriodExpired}
  }

  /** Only the scheduler queues disable and remove jobs, for an expiry. */
  ghost predicate ExpiryJobs(jobs: map<Id, Job>) {
    forall j :: j in jobs && jobs[j].kind in {DisablePeer, RemovePeer} ==> IsExpiry(jobs[j].reason)
  }

  predicate Duplicates(a: Job, b: Job) {
    a.kind == b.kind && a.kind in {DisablePeer, RemovePeer} && a.sub == b.sub && IsOpen(a) && IsOpen(b)
  }

  /** At most one open disable job and one open remove job per subscription. */
  ghost predicate OpenOnce(jobs: map<Id, Job>) {
    forall i, j :: i in jobs && j in jobs && Duplicates(jobs[i], jobs[j]) ==> i == j
  }

  // ----- paid time -----

  /** All days given to a subscription and all lapsed time skipped for it. */
  function Granted(grants: seq<Grant>, s: Id): int {
    if grants == [] then 0
    else
      var g := grants[|grants| - 1];
      Granted(grants[..|grants| - 1], s) + if g.sub == s then g.days * DAY + g.lapsed else 0
  }

  /** A subscription runs out at its start plus all that was granted. */
  ghost predicate Paid(subs: map<Id, Sub>, grants: seq<Grant>) {
    forall s :: s in subs ==> subs[s].expiresAt == subs[s].startsAt + Granted(grants, s)
  }

  // ----- all of it -----

  /** The invariants that do not involve the peers. */
  ghost predicate Core(w: World) {
    && Refs(w) && Queue(w.jobs, w.now) && OneCreateJob(w.subs.Keys, w.jobs) && Waiting(w.subs, w.jobs)
    && Effective(w.orders, w.subs, w.grants) && OrderFollows(w.orders, w.subs)
    && ExpiryJobs(w.jobs) && OpenOnce(w.jobs) && Paid(w.subs, w.grants)
  }

  ghost predicate Inv(w: World) {
    Core(w) && Served(w.subs, w.peers, w.jobs)
  }
}
