/** What each kind of change keeps. */
module ProtocolSteps {
  import opened Wrappers
  import opened Store
  import opened Protocol

  // ----- the clock -----

  lemma TickKeeps(w: World, to: Time)
    requires Inv(w) && w.now <= to
    ensures Inv(w.(now := to))
  {
    hide OneCreateJob, Waiting, Effective, OrderFollows, ExpiryJobs, OpenOnce, Paid, Served;
  }

  // ----- changes to one job -----

  predicate SameTask(a: Job, b: Job) {
    a.kind == b.kind && a.sub == b.sub && a.reason == b.reason
  }

  /** A job row may change so: same task, queued well, opened only when no other open job is like it. */
  ghost predicate MayBecome(jobs: map<Id, Job>, now: Time, j: Id, job: Job) {
    && j in jobs && SameTask(jobs[j], job) && QueuedWell(job, now)
    && (IsOpen(job) ==> IsOpen(jobs[j]) || !HasOpenJob(jobs, job.kind, job.sub))
  }

  lemma JobQueue(jobs: map<Id, Job>, now: Time, j: Id, job: Job)
    requires Queue(jobs, now) && QueuedWell(job, now)
    ensures Queue(jobs[j := job], now)
  {
  }

  lemma JobCreate(subs: set<Id>, jobs: map<Id, Job>, j: Id, job: Job)
    requires OneCreateJob(subs, jobs) && j in jobs && SameTask(jobs[j], job)
    ensures OneCreateJob(subs, jobs[j := job])
  {
    var jobs' := jobs[j := job];
    forall s | s in subs
      ensures exists i :: IsCreateJob(jobs', i, s)
    {
      var i :| IsCreateJob(jobs, i, s);
      assert IsCreateJob(jobs', i, s);
    }
    forall i, k, s | IsCreateJob(jobs', i, s) && IsCreateJob(jobs', k, s)
      ensures i == k
    {
      assert IsCreateJob(jobs, i, s) && IsCreateJob(jobs, k, s);
    }
  }

  lemma JobWaiting(subs: map<Id, Sub>, jobs: map<Id, Job>, j: Id, job: Job)
    requires Waiting(subs, jobs) && j in jobs && SameTask(jobs[j], job)
    requires job.kind == CreatePeer ==> (job.status == Succeeded <==> jobs[j].status == Succeeded)
    ensures Waiting(subs, jobs[j := job])
  {
    var jobs' := jobs[j := job];
    forall i, s | IsCreateJob(jobs', i, s) && s in subs
      ensures jobs'[i].status == Succeeded <==> subs[s].hasPeer
    {
      assert IsCreateJob(jobs, i, s);
    }
  }

  lemma JobOnce(jobs: map<Id, Job>, now: Time, j: Id, job: Job)
    requires OpenOnce(jobs) && ExpiryJobs(jobs) && MayBecome(jobs, now, j, job)
    ensures OpenOnce(jobs[j := job]) && ExpiryJobs(jobs[j := job])
  {
    var jobs' := jobs[j := job];
    forall i, k | i in jobs' && k in jobs' && Duplicates(jobs'[i], jobs'[k])
      ensures i == k
    {
    }
  }

  lemma JobCore(w: World, j: Id, job: Job)
    requires Core(w) && MayBecome(w.jobs, w.now, j, job)
    requires job.kind == CreatePeer ==> (job.status == Succeeded <==> w.jobs[j].status == Succeeded)
    ensures Core(w.(jobs := w.jobs[j := job]))
  {
    hide Queue, OneCreateJob, Waiting, Effective, OrderFollows, ExpiryJobs, OpenOnce, Paid, QueuedWell, HasOpenJob,
         IsOpen;
    JobQueue(w.jobs, w.now, j, job);
    JobCreate(w.subs.Keys, w.jobs, j, job);
    JobWaiting(w.subs, w.jobs, j, job);
    JobOnce(w.jobs, w.now, j, job);
  }

  lemma JobServed(subs: map<Id, Sub>, peers: map<Id, bool>, jobs: map<Id, Job>, j: Id, job: Job)
    requires Served(subs, peers, jobs) && j in jobs && SameTask(jobs[j], job)
    requires job.kind == EnablePeer && job.status == Succeeded ==>
               jobs[j].status == Succeeded || (job.sub in peers && peers[job.sub]) || job.sub !in peers
    ensures Served(subs, peers, jobs[j := job])
  {
    var jobs' := jobs[j := job];
    forall s | s in subs && s in peers && subs[s].status == Active && !peers[s]
      ensures EnableQueued(jobs', s)
    {
      var i :| i in jobs && jobs[i].kind == EnablePeer && jobs[i].sub == s && jobs[i].status != Succeeded;
      assert i in jobs' && jobs'[i].kind == EnablePeer && jobs'[i].sub == s && jobs'[i].status != Succeeded;
    }
  }

  lemma ClaimedWell(job: Job, now: Time, worker: Worker, at: Time)
    requires QueuedWell(job, now) && Claimable(job, at) && at <= now
    ensures QueuedWell(ClaimedJob(job, worker, at), now) && IsOpen(job) && job.status != Succeeded
  {
  }

  lemma RequeuedWell(job: Job, now: Time)
    ensures QueuedWell(RequeuedJob(job, now), now)
  {
  }

  lemma ClaimKeeps(w: World, j: Id, worker: Worker, at: Time)
    requires Inv(w) && at <= w.now
    ensures Inv(Claim(w, j, worker, at))
  {
    hide OneCreateJob, Waiting, Effective, OrderFollows, OpenOnce, Paid, Refs, QueuedWell, Claimable;
    if CanClaim(w, j, at) {
      var job := ClaimedJob(w.jobs[j], worker, at);
      ClaimedWell(w.jobs[j], w.now, worker, at);
      JobCore(w, j, job);
      JobServed(w.subs, w.peers, w.jobs, j, job);
    }
  }

  lemma BackoffGrows(k: nat)
    ensures BackoffTotal(k + 1) == BackoffTotal(k) + Backoff(k + 1) && BackoffTotal(0) == 0
  {
  }

  /** Failing keeps the attempt count, the lock and the back-off in order. */
  lemma FailedWell(job: Job, now: Time, retryable: bool)
    requires QueuedWell(job, now) && job.status == Processing
    ensures QueuedWell(FailedJob(job, now, retryable), now)
  {
    BackoffGrows(job.attempts);
  }

  lemma FailKeeps(w: World, j: Id, retryable: bool)
    requires Inv(w) && j in w.jobs && w.jobs[j].status == Processing
    ensures Inv(MarkFailed(w, j, retryable))
  {
    hide OneCreateJob, Waiting, Effective, OrderFollows, OpenOnce, Paid, Refs, QueuedWell, Claimable;
    var job := FailedJob(w.jobs[j], w.now, retryable);
    FailedWell(w.jobs[j], w.now, retryable);
    JobCore(w, j, job);
    JobServed(w.subs, w.peers, w.jobs, j, job);
  }

  lemma RetryKeeps(w: World, j: Id)
    requires Inv(w)
    ensures Inv(RetryOne(w, j))
  {
    hide OneCreateJob, Waiting, Effective, OrderFollows, OpenOnce, Paid, Refs, QueuedWell, Claimable;
    if j in w.jobs && w.jobs[j].status == PermanentFailure && MayRetry(w, w.jobs[j]) {
      var job := RequeuedJob(w.jobs[j], w.now);
      RequeuedWell(w.jobs[j], w.now);
      JobCore(w, j, job);
      JobServed(w.subs, w.peers, w.jobs, j, job);
    }
  }

  // ----- a new job -----

  lemma NewQueue(jobs: map<Id, Job>, now: Time, j: Id, job: Job)
    requires Queue(jobs, now) && j !in jobs && QueuedWell(job, now)
    ensures Queue(jobs[j := job], now)
  {
  }

  lemma NewCreate(subs: set<Id>, jobs: map<Id, Job>, j: Id, job: Job)
    requires OneCreateJob(subs, jobs) && j !in jobs && job.kind != CreatePeer
    ensures OneCreateJob(subs, jobs[j := job])
  {
    var jobs' := jobs[j := job];
    forall s | s in subs
      ensures exists i :: IsCreateJob(jobs', i, s)
    {
      var i :| IsCreateJob(jobs, i, s);
      assert IsCreateJob(jobs', i, s);
    }
    forall i, k, s | IsCreateJob(jobs', i, s) && IsCreateJob(jobs', k, s)
      ensures i == k
    {
      assert IsCreateJob(jobs, i, s) && IsCreateJob(jobs, k, s);
    }
  }

  lemma NewWaiting(subs: map<Id, Sub>, jobs: map<Id, Job>, j: Id, job: Job)
    requires Waiting(subs, jobs) && j !in jobs && job.kind != CreatePeer
    ensures Waiting(subs, jobs[j := job])
  {
    var jobs' := jobs[j := job];
    forall i, s | IsCreateJob(jobs', i, s) && s in subs
      ensures jobs'[i].status == Succeeded <==> subs[s].hasPeer
    {
      assert IsCreateJob(jobs, i, s);
    }
  }

  lemma NewOnce(jobs: map<Id, Job>, j: Id, job: Job)
    requires OpenOnce(jobs) && ExpiryJobs(jobs) && j !in jobs
    requires job.kind in {DisablePeer, RemovePeer} ==> IsExpiry(job.reason) && !HasOpenJob(jobs, job.kind, job.sub)
    ensures OpenOnce(jobs[j := job]) && ExpiryJobs(jobs[j := job])
  {
    var jobs' := jobs[j := job];
    forall i, k | i in jobs' && k in jobs' && Duplicates(jobs'[i], jobs'[k])
      ensures i == k
    {
    }
  }

  lemma NewServed(subs: map<Id, Sub>, peers: map<Id, bool>, jobs: map<Id, Job>, j: Id, job: Job)
    requires Served(subs, peers, jobs) && j !in jobs
    ensures Served(subs, peers, jobs[j := job])
  {
    forall s | s in subs && s in peers && subs[s].status == Active && !peers[s]
      ensures EnableQueued(jobs[j := job], s)
    {
      var i :| i in jobs && jobs[i].kind == EnablePeer && jobs[i].sub == s && jobs[i].status != Succeeded;
      assert i in jobs[j := job] && jobs[j := job][i] == jobs[i];
    }
  }

  /** What a new job needs: its subscription, and, to disable or remove, no open job like it. */
  ghost predicate MayQueue(w: World, kind: JobKind, s: Id, reason: Reason) {
    && s in w.subs && kind != CreatePeer
    && (kind in {DisablePeer, RemovePeer} ==> IsExpiry(reason) && !HasOpenJob(w.jobs, kind, s))
  }

  lemma EnqueueCore(w: World, kind: JobKind, s: Id, reason: Reason)
    requires Core(w) && MayQueue(w, kind, s, reason)
    ensures Core(Enqueue(w, kind, s, reason))
  {
    hide Queue, OneCreateJob, Waiting, Effective, OrderFollows, ExpiryJobs, OpenOnce, Paid, HasOpenJob;
    var job := NewJob(w, kind, s, reason);
    assert w.nextId !in w.jobs;
    NewQueue(w.jobs, w.now, w.nextId, job);
    NewCreate(w.subs.Keys, w.jobs, w.nextId, job);
    NewWaiting(w.subs, w.jobs, w.nextId, job);
    NewOnce(w.jobs, w.nextId, job);
  }

  lemma EnqueueKeeps(w: World, kind: JobKind, s: Id, reason: Reason)
    requires Inv(w) && MayQueue(w, kind, s, reason)
    ensures Inv(Enqueue(w, kind, s, reason))
  {
    EnqueueCore(w, kind, s, reason);
    NewServed(w.subs, w.peers, w.jobs, w.nextId, NewJob(w, kind, s, reason));
    hide Core, Served;
  }

  // ----- orders -----

  lemma PlaceKeeps(w: World, user: Id, server: Id, renews: Option<Id>)
    requires Inv(w)
    ensures Inv(PlaceOrder(w, user, server, renews))
  {
    hide Queue, OneCreateJob, Waiting, ExpiryJobs, OpenOnce, Paid, Served, Effective, OrderFollows;
    NewOrderKeeps(w, w.nextId, Order(user, server, AwaitingReceipt, renews));
  }

  /** An order that nothing refers to yet. */
  lemma NewOrderKeeps(w: World, o: Id, order: Order)
    requires Refs(w) && o >= w.nextId && order.status == AwaitingReceipt
    requires Effective(w.orders, w.subs, w.grants) && OrderFollows(w.orders, w.subs)
    ensures Effective(w.orders[o := order], w.subs, w.grants) && OrderFollows(w.orders[o := order], w.subs)
  {
    hide Effects;
    NoEffects(w, o);
  }

  lemma NoEffects(w: World, o: Id)
    requires Refs(w) && o !in w.orders
    ensures Effects(w.subs, w.grants, o) == 0
  {
    NoRenewals(w.grants, o);
    assert Opened(w.subs, o) == {};
  }

  lemma {:induction false} NoRenewals(grants: seq<Grant>, o: Id)
    requires forall g :: g in grants ==> g.renewal != Some(o)
    ensures Renewals(grants, o) == 0
  {
    if grants == [] {
    } else {
      NoRenewals(grants[..|grants| - 1], o);
    }
  }

  /** A status that no effect goes with may replace another such status. */
  lemma StatusKeeps(w: World, o: Id, status: OrderStatus)
    requires Core(w) && o in w.orders && !TookEffect(w.orders[o]) && status in {ReceiptSubmitted, Rejected}
    ensures Core(w.(orders := w.orders[o := w.orders[o].(status := status)]))
  {
    hide Queue, OneCreateJob, Waiting, ExpiryJobs, OpenOnce, Paid, Effects;
  }

  // ----- grants -----

  lemma {:induction false} GrantAdded(grants: seq<Grant>, g: Grant, s: Id, o: Id)
    ensures Granted(grants + [g], s) == Granted(grants, s) + if g.sub == s then g.days * DAY + g.lapsed else 0
    ensures Renewals(grants + [g], o) == Renewals(grants, o) + if g.renewal == Some(o) then 1 else 0
  {
    assert (grants + [g])[..|grants|] == grants;
  }

  lemma {:induction false} NothingGranted(grants: seq<Grant>, s: Id)
    requires forall g :: g in grants ==> g.sub != s
    ensures Granted(grants, s) == 0
  {
    if grants == [] {
    } else {
      NothingGranted(grants[..|grants| - 1], s);
    }
  }

  // ----- changes to one subscription -----

  /** Same subscription, moved to another time or status. */
  predicate SameSub(a: Sub, b: Sub) {
    a.order == b.order && a.hasPeer == b.hasPeer && a.startsAt == b.startsAt
  }

  lemma SubWaiting(subs: map<Id, Sub>, jobs: map<Id, Job>, s: Id, sub: Sub)
    requires Waiting(subs, jobs) && s in subs && WellFormedSub(sub) && sub.hasPeer == subs[s].hasPeer
    ensures Waiting(subs[s := sub], jobs)
  {
  }

  lemma SubPaid(subs: map<Id, Sub>, grants: seq<Grant>, s: Id, sub: Sub, g: Grant)
    requires Paid(subs, grants) && s in subs && g.sub == s && sub.startsAt == subs[s].startsAt
    requires sub.expiresAt == subs[s].expiresAt + g.days * DAY + g.lapsed
    ensures Paid(subs[s := sub], grants + [g])
  {
    forall t | t in subs
      ensures Granted(grants + [g], t) == Granted(grants, t) + if t == s then g.days * DAY + g.lapsed else 0
    {
      GrantAdded(grants, g, t, 0);
    }
  }

  lemma SubSamePaid(subs: map<Id, Sub>, grants: seq<Grant>, s: Id, sub: Sub)
    requires Paid(subs, grants) && s in subs && sub.startsAt == subs[s].startsAt && sub.expiresAt == subs[s].expiresAt
    ensures Paid(subs[s := sub], grants)
  {
  }

  lemma OpenedSome(subs: map<Id, Sub>, o: Id)
    ensures HasOwnSub(subs, o) <==> |Opened(subs, o)| > 0
  {
    if s :| s in subs && subs[s].order == o {
      assert s in Opened(subs, o);
    } else {
      assert Opened(subs, o) == {};
    }
  }

  lemma SameOwners(subs: map<Id, Sub>, s: Id, sub: Sub, o: Id)
    requires s in subs && sub.order == subs[s].order
    ensures Opened(subs[s := sub], o) == Opened(subs, o)
    ensures HasOwnSub(subs[s := sub], o) == HasOwnSub(subs, o)
  {
    assert Opened(subs[s := sub], o) == Opened(subs, o);
    OpenedSome(subs, o);
    OpenedSome(subs[s := sub], o);
  }

  /** No order's effects change but those of the renewing one. */
  lemma SubEffective(orders: map<Id, Order>, subs: map<Id, Sub>, grants: seq<Grant>, s: Id, sub: Sub, g: Grant)
    requires Effective(orders, subs, grants) && s in subs && sub.order == subs[s].order && g.renewal.None?
    ensures Effective(orders, subs[s := sub], grants + [g])
  {
    forall o
      ensures Effects(subs[s := sub], grants + [g], o) == Effects(subs, grants, o)
    {
      SameOwners(subs, s, sub, o);
      GrantAdded(grants, g, s, o);
    }
  }

  lemma SubSameEffective(orders: map<Id, Order>, subs: map<Id, Sub>, grants: seq<Grant>, s: Id, sub: Sub)
    requires Effective(orders, subs, grants) && s in subs && sub.order == subs[s].order
    ensures Effective(orders, subs[s := sub], grants)
  {
    forall o
      ensures Effects(subs[s := sub], grants, o) == Effects(subs, grants, o)
    {
      SameOwners(subs, s, sub, o);
    }
  }

  lemma SubFollows(orders: map<Id, Order>, subs: map<Id, Sub>, s: Id, sub: Sub)
    requires OrderFollows(orders, subs) && s in subs && sub.order == subs[s].order && StatusOf(sub) == StatusOf(subs[s])
    ensures OrderFollows(orders, subs[s := sub])
  {
    forall o
      ensures HasOwnSub(subs[s := sub], o) == HasOwnSub(subs, o)
    {
      SameOwners(subs, s, sub, o);
    }
  }

  // ----- extend -----

  lemma ExtendCore(w: World, s: Id, days: int)
    requires Core(w) && s in w.subs && w.subs[s].hasPeer && w.subs[s].removedAt.None?
    ensures var g := Grant(s, None, days, if days > 0 then Lapsed(w.subs[s], w.now) else 0);
            Core(w.(subs := w.subs[s := ExtendedSub(w.subs[s], w.now, days)], grants := w.grants + [g]))
  {
    hide Queue, OneCreateJob, Waiting, Effective, OrderFollows, ExpiryJobs, OpenOnce, Paid;
    var sub := ExtendedSub(w.subs[s], w.now, days);
    var g := Grant(s, None, days, if days > 0 then Lapsed(w.subs[s], w.now) else 0);
    WaitingSub(w.subs, w.jobs, s);
    SubWaiting(w.subs, w.jobs, s, sub);
    SubPaid(w.subs, w.grants, s, sub, g);
    SubEffective(w.orders, w.subs, w.grants, s, sub, g);
    SubFollows(w.orders, w.subs, s, sub);
    assert w.subs[s := sub].Keys == w.subs.Keys;
  }

  lemma WaitingSub(subs: map<Id, Sub>, jobs: map<Id, Job>, s: Id)
    requires Waiting(subs, jobs) && s in subs
    ensures WellFormedSub(subs[s])
  {
  }

  /** A subscription that comes back to active does so with an enable job; one that does not, as before. */
  lemma ChangedServed(subs: map<Id, Sub>, peers: map<Id, bool>, jobs: map<Id, Job>, s: Id, sub: Sub,
                      jobs': map<Id, Job>)
    requires Served(subs, peers, jobs) && s in subs
    requires sub.hasPeer == subs[s].hasPeer && sub.removedAt == subs[s].removedAt
    requires sub.status == Active ==> subs[s].status == Active || EnableQueued(jobs', s)
    requires forall j :: j in jobs ==> j in jobs' && jobs'[j] == jobs[j]
    ensures Served(subs[s := sub], peers, jobs')
  {
    forall t | t in subs && t in peers && subs[s := sub][t].status == Active && !peers[t]
      ensures EnableQueued(jobs', t)
    {
      if t != s || subs[s].status == Active {
        var i :| i in jobs && jobs[i].kind == EnablePeer && jobs[i].sub == t && jobs[i].status != Succeeded;
        assert i in jobs' && jobs'[i] == jobs[i];
      }
    }
  }

  lemma ExtendKeeps(w: World, s: Id, days: int)
    requires Inv(w)
    ensures Inv(Extend(w, s, days))
  {
    hide Queue, OneCreateJob, Effective, OrderFollows, ExpiryJobs, OpenOnce, Paid, Served, Later, Lapsed, HasOwnSub;
    if s in w.subs && days != 0 && w.subs[s].removedAt.None? && w.subs[s].hasPeer {
      var sub, sub' := w.subs[s], ExtendedSub(w.subs[s], w.now, days);
      var g := Grant(s, None, days, if days > 0 then Lapsed(sub, w.now) else 0);
      var w1 := w.(subs := w.subs[s := sub'], grants := w.grants + [g]);
      ExtendCore(w, s, days);
      var w' := Extend(w, s, days);
      assert w.nextId !in w.jobs;
      if sub.status != Active && sub'.status == Active {
        EnqueueCore(w1, EnablePeer, s, AdminExtend);
        assert w'.jobs[w.nextId].kind == EnablePeer && w'.jobs[w.nextId].sub == s
               && w'.jobs[w.nextId].status != Succeeded;
      }
      ChangedServed(w.subs, w.peers, w.jobs, s, sub', w'.jobs);
    }
  }

  // ----- renew -----

  /** If one order takes effect once more and no other does, its status may say so. */
  lemma OneMoreEffect(orders: map<Id, Order>, subs: map<Id, Sub>, grants: seq<Grant>, o: Id, status: OrderStatus,
                      subs': map<Id, Sub>, grants': seq<Grant>)
    requires Effective(orders, subs, grants) && o in orders && !TookEffect(orders[o])
             && status in {OrderProvisioning, Fulfilled}
    requires forall s, t :: s in subs' && t in subs' && subs'[s].order == subs'[t].order ==> s == t
    requires forall p :: Effects(subs', grants', p) == Effects(subs, grants, p) + if p == o then 1 else 0
    ensures Effective(orders[o := orders[o].(status := status)], subs', grants')
  {
    hide Effects;
  }

  lemma RenewEffective(orders: map<Id, Order>, subs: map<Id, Sub>, grants: seq<Grant>, o: Id, s: Id, sub: Sub, g: Grant)
    requires Effective(orders, subs, grants) && o in orders && !TookEffect(orders[o])
    requires s in subs && sub.order == subs[s].order && g.renewal == Some(o)
    ensures Effective(orders[o := orders[o].(status := Fulfilled)], subs[s := sub], grants + [g])
  {
    hide HasOwnSub, Renewals, Opened;
    forall p
      ensures Effects(subs[s := sub], grants + [g], p) == Effects(subs, grants, p) + if p == o then 1 else 0
    {
      SameOwners(subs, s, sub, p);
      GrantAdded(grants, g, s, p);
    }
    OneMoreEffect(orders, subs, grants, o, Fulfilled, subs[s := sub], grants + [g]);
  }

  lemma RenewFollows(orders: map<Id, Order>, subs: map<Id, Sub>, o: Id, s: Id, sub: Sub)
    requires OrderFollows(orders, subs) && o in orders && !HasOwnSub(subs, o)
    requires s in subs && sub.order == subs[s].order && StatusOf(sub) == StatusOf(subs[s])
    ensures OrderFollows(orders[o := orders[o].(status := Fulfilled)], subs[s := sub])
  {
    SubFollows(orders, subs, s, sub);
    assert forall t :: t in subs ==> subs[t].order != o;
  }

  lemma RenewCore(w: World, o: Id, s: Id, days: int)
    requires Core(w) && o in w.orders && !AlreadyProcessed(w, o)
    requires s in w.subs && w.subs[s].hasPeer && w.subs[s].removedAt.None?
    ensures var sub := w.subs[s];
            var renewed := sub.(expiresAt := Later(sub.expiresAt, w.now) + days * DAY, status := Active,
                                disabledAt := None);
            Core(w.(subs := w.subs[s := renewed],
                    orders := w.orders[o := w.orders[o].(status := Fulfilled)],
                    grants := w.grants + [Grant(s, Some(o), days, Lapsed(sub, w.now))]))
  {
    hide Queue, OneCreateJob, Waiting, Effective, OrderFollows, ExpiryJobs, OpenOnce, Paid, HasOwnSub;
    var sub := w.subs[s];
    var renewed := sub.(expiresAt := Later(sub.expiresAt, w.now) + days * DAY, status := Active, disabledAt := None);
    var g := Grant(s, Some(o), days, Lapsed(sub, w.now));
    WaitingSub(w.subs, w.jobs, s);
    SubWaiting(w.subs, w.jobs, s, renewed);
    SubPaid(w.subs, w.grants, s, renewed, g);
    RenewEffective(w.orders, w.subs, w.grants, o, s, renewed, g);
    RenewFollows(w.orders, w.subs, o, s, renewed);
    assert w.subs[s := renewed].Keys == w.subs.Keys;
  }

  lemma RenewKeeps(w: World, o: Id, s: Id, days: int)
    requires Inv(w) && o in w.orders && !AlreadyProcessed(w, o) && Renewable(w, o) == Some(s)
    ensures Inv(Renew(w, o, s, days))
  {
    hide Queue, OneCreateJob, Effective, OrderFollows, ExpiryJobs, OpenOnce, Paid, Served, Later, Lapsed, HasOwnSub;
    RenewCore(w, o, s, days);
    var sub := w.subs[s];
    var w' := Renew(w, o, s, days);
    assert w.nextId !in w.jobs;
    if sub.status != Active {
      var w1 := w.(subs := w'.subs, orders := w'.orders, grants := w'.grants);
      EnqueueCore(w1, EnablePeer, s, NoReason);
      assert w'.jobs[w.nextId].kind == EnablePeer && w'.jobs[w.nextId].sub == s
             && w'.jobs[w.nextId].status != Succeeded;
    }
    ChangedServed(w.subs, w.peers, w.jobs, s, w'.subs[s], w'.jobs);
  }

  // ----- a new subscription -----

  lemma OpenCreate(subs: set<Id>, jobs: map<Id, Job>, s: Id, j: Id, job: Job)
    requires OneCreateJob(subs, jobs) && s !in subs && j !in jobs && job.kind == CreatePeer && job.sub == s
    requires forall i :: i in jobs ==> jobs[i].sub in subs
    ensures OneCreateJob(subs + {s}, jobs[j := job])
  {
    var jobs' := jobs[j := job];
    forall t | t in subs + {s}
      ensures exists i :: IsCreateJob(jobs', i, t)
    {
      if t == s {
        assert IsCreateJob(jobs', j, s);
      } else {
        var i :| IsCreateJob(jobs, i, t);
        assert IsCreateJob(jobs', i, t);
      }
    }
    forall i, k, t | IsCreateJob(jobs', i, t) && IsCreateJob(jobs', k, t)
      ensures i == k
    {
      if i != j && k != j {
        assert IsCreateJob(jobs, i, t) && IsCreateJob(jobs, k, t);
      }
    }
  }

  lemma OpenWaiting(subs: map<Id, Sub>, jobs: map<Id, Job>, s: Id, sub: Sub, j: Id, job: Job)
    requires Waiting(subs, jobs) && s !in subs && j !in jobs && WellFormedSub(sub) && !sub.hasPeer
    requires job.sub == s && job.status != Succeeded && forall i :: i in jobs ==> jobs[i].sub in subs
    ensures Waiting(subs[s := sub], jobs[j := job])
  {
    var jobs', subs' := jobs[j := job], subs[s := sub];
    forall i, t | IsCreateJob(jobs', i, t) && t in subs'
      ensures jobs'[i].status == Succeeded <==> subs'[t].hasPeer
    {
      if i != j {
        assert IsCreateJob(jobs, i, t);
      }
    }
  }

  lemma NewOwner(subs: map<Id, Sub>, s: Id, sub: Sub, o: Id)
    requires s !in subs
    ensures |Opened(subs[s := sub], o)| == |Opened(subs, o)| + if sub.order == o then 1 else 0
    ensures HasOwnSub(subs[s := sub], o) <==> HasOwnSub(subs, o) || sub.order == o
  {
    assert Opened(subs[s := sub], o) == Opened(subs, o) + if sub.order == o then {s} else {};
    OpenedSome(subs, o);
    OpenedSome(subs[s := sub], o);
  }

  lemma OpenEffective(orders: map<Id, Order>, subs: map<Id, Sub>, grants: seq<Grant>, o: Id, s: Id, sub: Sub, g: Grant)
    requires Effective(orders, subs, grants) && o in orders && !TookEffect(orders[o]) && !HasOwnSub(subs, o)
    requires s !in subs && sub.order == o && g.renewal.None?
    ensures Effective(orders[o := orders[o].(status := OrderProvisioning)], subs[s := sub], grants + [g])
  {
    assert forall t :: t in subs ==> subs[t].order != o;
    hide HasOwnSub, Renewals, Opened;
    forall p
      ensures Effects(subs[s := sub], grants + [g], p) == Effects(subs, grants, p) + if p == o then 1 else 0
    {
      NewOwner(subs, s, sub, p);
      GrantAdded(grants, g, s, p);
    }
    OneMoreEffect(orders, subs, grants, o, OrderProvisioning, subs[s := sub], grants + [g]);
  }

  lemma OpenFollows(orders: map<Id, Order>, subs: map<Id, Sub>, o: Id, s: Id, sub: Sub)
    requires OrderFollows(orders, subs) && o in orders && !HasOwnSub(subs, o)
    requires s !in subs && sub.order == o && sub.status == Provisioning
    ensures OrderFollows(orders[o := orders[o].(status := OrderProvisioning)], subs[s := sub])
  {
    var subs' := subs[s := sub];
    assert forall t :: t in subs ==> subs[t].order != o;
    forall p | HasOwnSub(subs, p) || p == o
      ensures HasOwnSub(subs', p)
    {
      if p == o {
        assert s in subs' && subs'[s].order == o;
      } else {
        var t :| t in subs && subs[t].order == p;
        assert t in subs' && subs'[t].order == p;
      }
    }
  }

  lemma OpenPaid(subs: map<Id, Sub>, grants: seq<Grant>, s: Id, sub: Sub, g: Grant)
    requires Paid(subs, grants) && s !in subs && g.sub == s && (forall h :: h in grants ==> h.sub != s)
    requires sub.expiresAt == sub.startsAt + g.days * DAY && g.lapsed == 0
    ensures Paid(subs[s := sub], grants + [g])
  {
    NothingGranted(grants, s);
    forall t
      ensures Granted(grants + [g], t) == Granted(grants, t) + if t == s then g.days * DAY + g.lapsed else 0
    {
      GrantAdded(grants, g, t, 0);
    }
  }

  lemma OpenServed(subs: map<Id, Sub>, peers: map<Id, bool>, jobs: map<Id, Job>, s: Id, sub: Sub, j: Id, job: Job)
    requires Served(subs, peers, jobs) && s !in subs && s !in peers && j !in jobs && sub.status == Provisioning
             && !sub.hasPeer
    ensures Served(subs[s := sub], peers, jobs[j := job])
  {
    NewServed(subs, peers, jobs, j, job);
  }

  lemma OpenRefs(w: World, o: Id, days: int)
    requires Refs(w) && o in w.orders
    ensures Refs(OpenSubscription(w, o, days))
  {
  }

  lemma OpenKeeps(w: World, o: Id, days: int)
    requires Inv(w) && o in w.orders && !AlreadyProcessed(w, o)
    ensures Inv(OpenSubscription(w, o, days))
  {
    hide Queue, OneCreateJob, Waiting, Effective, OrderFollows, ExpiryJobs, OpenOnce, Paid, Served, HasOwnSub;
    var s, sub, g := w.nextId, NewSub(w, o, days), Grant(w.nextId, None, days, 0);
    var j, job := w.nextId + 1, NewJob(w, CreatePeer, w.nextId, NoReason);
    OpenRefs(w, o, days);
    NewQueue(w.jobs, w.now, j, job);
    OpenCreate(w.subs.Keys, w.jobs, s, j, job);
    OpenWaiting(w.subs, w.jobs, s, sub, j, job);
    OpenEffective(w.orders, w.subs, w.grants, o, s, sub, g);
    OpenFollows(w.orders, w.subs, o, s, sub);
    OpenPaid(w.subs, w.grants, s, sub, g);
    OpenServed(w.subs, w.peers, w.jobs, s, sub, j, job);
    NewOnce(w.jobs, j, job);
    assert w.subs[s := sub].Keys == w.subs.Keys + {s};
  }
}
