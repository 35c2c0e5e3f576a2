/** The terms of a sale, a renewal and an extension, to the microsecond, and whose they are. */
module ProtocolTerms {
  import opened Wrappers
  import opened Store
  import opened Protocol
  import opened ProtocolSteps
  import opened ProtocolWork
  import opened ProtocolRuns
  import opened ProtocolReplies
  import opened ProtocolTheorems
  import opened ProtocolQueue
  import opened ProtocolService

  // ----- days -----

  /** When `days` days end that are counted from the expiry, or from now if it has passed. */
  function Ends(expiresAt: Time, now: Time, days: int): Time {
    (if expiresAt < now then now else expiresAt) + days * 86_400_000_000
  }

  /** How long it has been run out. */
  function RunOutFor(expiresAt: Time, now: Time): int {
    if expiresAt < now then now - expiresAt else 0
  }

  /** `/extend` by any number of days. Days that are added count from now if the subscription has run out, days that are
      taken always count from its expiry, and the record of what was granted grows by exactly that. */
  lemma ExtendExactly(w: World, s: Id, days: int)
    requires s in w.subs && days != 0 && w.subs[s].hasPeer && w.subs[s].removedAt.None?
    ensures var w', e := Extend(w, s, days), w.subs[s].expiresAt;
            && w'.subs.Keys == w.subs.Keys && (forall t :: t in w.subs && t != s ==> w'.subs[t] == w.subs[t])
            && w'.subs[s].expiresAt == (if days > 0 then Ends(e, w.now, days) else e + days * 86_400_000_000)
            && Granted(w'.grants, s)
               == Granted(w.grants, s) + days * 86_400_000_000 + (if days > 0 then RunOutFor(e, w.now) else 0)
            && w'.subs[s].status
               == (if days > 0 && w.subs[s].status in {Disabled, Expired} then Active else w.subs[s].status)
  {
    hide Granted;
    var lapsed := if days > 0 then Lapsed(w.subs[s], w.now) else 0;
    GrantAdded(w.grants, Grant(s, None, days, lapsed), s, 0);
  }

  /** It is refused without a change for zero days, an unknown subscription, or one whose peer is not made or gone. */
  lemma ExtendRefused(w: World, s: Id, days: int)
    ensures days == 0 || s !in w.subs || !w.subs[s].hasPeer || w.subs[s].removedAt.Some? <==> Extend(w, s, days) == w
  {
    if s in w.subs && days != 0 && w.subs[s].hasPeer && w.subs[s].removedAt.None? {
      assert |Extend(w, s, days).grants| == |w.grants| + 1;
    }
  }

  // ----- approvals -----

  /** The order names a subscription of the same customer on the same server whose peer is there. */
  predicate CanRenew(w: World, o: Id, s: Id)
    requires o in w.orders
  {
    && w.orders[o].renews == Some(s) && s in w.subs
    && w.subs[s].user == w.orders[o].user && w.subs[s].server == w.orders[o].server
    && w.subs[s].hasPeer && w.subs[s].removedAt.None?
  }

  predicate AwaitsApproval(w: World, o: Id) {
    o in w.orders && w.orders[o].status in {AwaitingReceipt, ReceiptSubmitted}
  }

  /** The press was for an order that awaits approval, or it changes nothing. */
  lemma OtherwiseNothing(w: World, o: Id, days: int)
    requires !AwaitsApproval(w, o)
    ensures PressApprove(w, o, days) == w
  {
  }

  lemma RenewableIs(w: World, o: Id, s: Id)
    requires o in w.orders
    ensures Renewable(w, o) == Some(s) <==> CanRenew(w, o, s)
  {
  }

  predicate OrderBecomes(w: World, w': World, o: Id, status: OrderStatus) {
    o in w.orders && w'.orders == w.orders[o := w.orders[o].(status := status)]
  }

  /** Approving an order that renews a subscription: its days count from the expiry, or from now if that has
      passed; the subscription is active again, and gets an enable job exactly if it was not. */
  lemma RenewExactly(w: World, o: Id, s: Id, days: int)
    requires Core(w) && AwaitsApproval(w, o) && CanRenew(w, o, s)
    ensures var w', sub := PressApprove(w, o, days), w.subs[s];
            && w'.subs == w.subs[s := sub.(expiresAt := Ends(sub.expiresAt, w.now, days), status := Active,
                                           disabledAt := None)]
            && OrderBecomes(w, w', o, Fulfilled)
            && Granted(w'.grants, s)
               == Granted(w.grants, s) + days * 86_400_000_000 + RunOutFor(sub.expiresAt, w.now)
            && (if sub.status == Active then w'.jobs == w.jobs
                else w'.jobs == w.jobs[w.nextId := Job(EnablePeer, s, Pending, 0, w.now, None, None, NoReason, None)])
  {
    hide Core, Granted, HasOwnSub, Effects, Renewable;
    NoEffectYet(w, o);
    RenewableIs(w, o, s);
    GrantAdded(w.grants, Grant(s, Some(o), days, Lapsed(w.subs[s], w.now)), s, o);
  }

  /** Approving any other order opens a subscription for its customer on its server, of its days from now, with a
      create job. */
  lemma OpenExactly(w: World, o: Id, days: int)
    requires Core(w) && AwaitsApproval(w, o) && forall s :: !CanRenew(w, o, s)
    ensures var w', order, s := PressApprove(w, o, days), w.orders[o], w.nextId;
            && s !in w.subs && s + 1 !in w.jobs && OrderBecomes(w, w', o, OrderProvisioning)
            && w'.subs == w.subs[s := Sub(order.user, order.server, o, Provisioning, w.now, w.now
                                          + days * 86_400_000_000,
                                          None, None, false, DeliveryPending, 0)]
            && w'.jobs == w.jobs[s + 1 := Job(CreatePeer, s, Pending, 0, w.now, None, None, NoReason, None)]
            && Granted(w'.grants, s) == days * 86_400_000_000
  {
    hide Core, Granted, HasOwnSub, Effects, Renewable;
    NoEffectYet(w, o);
    KnownIds(w);
    if Renewable(w, o).Some? {
      RenewableIs(w, o, Renewable(w, o).value);
    }
    GrantAdded(w.grants, Grant(w.nextId, None, days, 0), w.nextId, o);
    NewGrants(w);
  }

  lemma NewGrants(w: World)
    requires Core(w)
    ensures Granted(w.grants, w.nextId) == 0
  {
    hide Queue, OneCreateJob, Waiting, Effective, OrderFollows, ExpiryJobs, OpenOnce, Paid;
    NothingGranted(w.grants, w.nextId);
  }

  // ----- whose it is -----

  predicate SameParty(order: Order, sub: Sub) {
    sub.user == order.user && sub.server == order.server
  }

  /** Every subscription is its order's customer's, on its order's server, and so is every renewal. */
  ghost predicate Owned(w: World) {
    && (forall s :: s in w.subs && w.subs[s].order in w.orders ==> SameParty(w.orders[w.subs[s].order], w.subs[s]))
    && (forall g :: g in w.grants && g.renewal.Some? && g.renewal.value in w.orders && g.sub in w.subs ==>
                      SameParty(w.orders[g.renewal.value], w.subs[g.sub]))
  }

  /** No row changes hands, and no order changes what it renews. */
  ghost predicate SameHands(w: World, w': World) {
    && (forall s :: s in w.subs ==>
                      && s in w'.subs && w'.subs[s].user == w.subs[s].user && w'.subs[s].server == w.subs[s].server
                      && w'.subs[s].order == w.subs[s].order)
    && (forall o :: o in w.orders ==>
                      && o in w'.orders && w'.orders[o].user == w.orders[o].user
                      && w'.orders[o].server == w.orders[o].server && w'.orders[o].renews == w.orders[o].renews)
  }

  /** The same rows in the same hands, and no new grant. */
  ghost predicate SameRows(w: World, w': World) {
    SameHands(w, w') && w'.subs.Keys == w.subs.Keys && w'.orders.Keys == w.orders.Keys && w'.grants == w.grants
  }

  /** One subscription's row, and perhaps its order's, updated. */
  lemma UpdatedHands(w: World, s: Id, sub: Sub, peers: map<Id, bool>)
    requires s in w.subs && SameTerms(w.subs[s], sub)
    ensures SameRows(w, w.(peers := peers, subs := w.subs[s := sub]))
    ensures forall o, status :: o in w.orders ==>
              SameRows(w, w.(peers := peers, subs := w.subs[s := sub],
                             orders := w.orders[o := w.orders[o].(status := status)]))
  {
  }

  predicate SameTerms(a: Sub, b: Sub) {
    a.user == b.user && a.server == b.server && a.order == b.order
  }

  lemma CreateHands(w: World, s: Id, outcome: Outcome)
    ensures SameRows(w, ProcessCreate(w, s, outcome).world)
  {
    hide SameRows;
    NoHands(w);
    if s in w.subs {
      var peers := w.peers[s := if s in w.peers then w.peers[s] else true];
      var sub := ActivatedSub(w.subs[s]);
      UpdatedHands(w, s, sub, peers);
      if outcome.Works? {
        var sent := sub.(delivery := if outcome.delivered then Delivered else DeliveryFailed);
        UpdatedHands(w, s, sent, peers);
        assert w.subs[s := sub][s := sent] == w.subs[s := sent];
      }
    }
  }

  lemma DisableHands(w: World, s: Id, job: Job, outcome: Outcome)
    ensures SameRows(w, ProcessDisable(w, s, job, outcome).world)
  {
    hide SameRows, Renewed;
    NoHands(w);
    if s in w.subs {
      UpdatedHands(w, s, w.subs[s].(status := Disabled, disabledAt := Some(w.now)),
                   if s in w.peers then w.peers[s := false] else w.peers);
    }
  }

  lemma RemoveHands(w: World, s: Id, job: Job, outcome: Outcome)
    ensures SameRows(w, ProcessRemove(w, s, job, outcome).world)
  {
    hide SameRows, Renewed;
    NoHands(w);
    if s in w.subs {
      UpdatedHands(w, s, w.subs[s].(status := Expired, removedAt := Some(w.now)), w.peers - {s});
    }
  }

  lemma EnableHands(w: World, s: Id, outcome: Outcome)
    ensures SameRows(w, ProcessEnable(w, s, outcome).world)
  {
    hide SameHands;
    NoHands(w);
    if s in w.subs {
      UpdatedHands(w, s, w.subs[s], w.peers[s := true]);
      assert w.subs[s := w.subs[s]] == w.subs;
    }
  }

  lemma RedeliverHands(w: World, s: Id, outcome: Outcome)
    ensures SameRows(w, ProcessRedeliver(w, s, outcome).world)
  {
    hide SameRows;
    NoHands(w);
    if s in w.subs {
      UpdatedHands(w, s, w.subs[s].(delivery := Delivered, redeliveries := w.subs[s].redeliveries + 1), w.peers);
    }
  }

  lemma ProcessHands(w: World, j: Id, outcome: Outcome)
    ensures SameRows(w, ProcessJob(w, j, outcome).world)
  {
    hide SameRows, ProcessCreate, ProcessDisable, ProcessRemove, ProcessEnable, ProcessRedeliver;
    NoHands(w);
    if j in w.jobs {
      CreateHands(w, w.jobs[j].sub, outcome);
      DisableHands(w, w.jobs[j].sub, w.jobs[j], outcome);
      RemoveHands(w, w.jobs[j].sub, w.jobs[j], outcome);
      EnableHands(w, w.jobs[j].sub, outcome);
      RedeliverHands(w, w.jobs[j].sub, outcome);
    }
  }

  lemma NoHands(w: World)
    ensures SameRows(w, w)
  {
  }

  lemma TurnHands(w: World, j: Id, outcome: Outcome)
    ensures SameRows(w, Attempt(w, j, outcome))
  {
    ProcessHands(w, j, outcome);
    hide ProcessJob, FailedJob;
  }

  lemma {:induction false} TicksGrant(w: World, rows: seq<Id>, days: seq<int>, js: seq<Id>)
    ensures ExpireAll(w, rows).grants == w.grants && CleanUpAll(w, rows).grants == w.grants
    ensures RemindAll(w, rows, days).grants == w.grants && RetryAll(w, js).grants == w.grants
    decreases |rows| + |js|
  {
    hide HasOpenJob, DueReminder;
    if rows == [] && js == [] {
    } else if rows != [] {
      TicksGrant(w, rows[..|rows| - 1], days, js);
    } else {
      TicksGrant(w, rows, days, js[..|js| - 1]);
    }
  }

  lemma SameRowsOwned(w: World, w': World)
    requires Owned(w) && SameRows(w, w')
    ensures Owned(w')
  {
    assert forall s :: s in w'.subs ==> s in w.subs;
    assert forall o :: o in w'.orders ==> o in w.orders;
  }

  /** One more grant, of a renewal or of none. */
  lemma GrantHands(w: World, w': World, g: Grant)
    requires Owned(w) && SameHands(w, w') && w'.subs.Keys == w.subs.Keys && w'.orders.Keys == w.orders.Keys
    requires w'.grants == w.grants + [g]
    requires g.renewal.Some? && g.renewal.value in w.orders && g.sub in w.subs ==>
               SameParty(w.orders[g.renewal.value], w.subs[g.sub])
    ensures Owned(w')
  {
    forall h | h in w'.grants
      ensures h in w.grants || h == g
    {
    }
    SameRowsOwned(w, w'.(grants := w.grants));
  }

  lemma RenewHands(w: World, o: Id, s: Id, days: int)
    requires Owned(w) && o in w.orders && s in w.subs && Renewable(w, o) == Some(s)
    ensures SameHands(w, Renew(w, o, s, days)) && Owned(Renew(w, o, s, days))
  {
    hide Owned, Later, Lapsed;
    GrantHands(w, Renew(w, o, s, days), Grant(s, Some(o), days, Lapsed(w.subs[s], w.now)));
  }

  lemma OpenHands(w: World, o: Id, days: int)
    requires Owned(w) && o in w.orders && w.nextId !in w.subs
    requires forall g :: g in w.grants ==> g.sub in w.subs
    ensures SameHands(w, OpenSubscription(w, o, days)) && Owned(OpenSubscription(w, o, days))
  {
    var w' := OpenSubscription(w, o, days);
    forall h | h in w'.grants
      ensures h in w.grants || h.renewal.None?
    {
    }
  }

  lemma ApproveHands(w: World, o: Id, days: int)
    requires Core(w) && Owned(w)
    ensures SameHands(w, PressApprove(w, o, days)) && Owned(PressApprove(w, o, days))
  {
    hide Core, HasOwnSub, SameHands, Owned, Renew, OpenSubscription, Renewable;
    KnownIds(w);
    GrantsKnown(w);
    NoHands(w);
    hide SameRows;
    if o in w.orders {
      if Renewable(w, o).Some? {
        RenewableIs(w, o, Renewable(w, o).value);
        RenewHands(w, o, Renewable(w, o).value, days);
      } else {
        OpenHands(w, o, days);
      }
    }
  }

  lemma GrantsKnown(w: World)
    requires Core(w)
    ensures forall g :: g in w.grants ==> g.sub in w.subs && g.sub < w.nextId
    ensures forall g :: g in w.grants && g.renewal.Some? ==> g.renewal.value in w.orders
    ensures forall s :: s in w.subs ==> w.subs[s].order in w.orders
    ensures forall s :: s in w.subs ==> w.subs[s].order < w.nextId
  {
    hide Queue, OneCreateJob, Waiting, Effective, OrderFollows, ExpiryJobs, OpenOnce, Paid;
  }

  lemma HandsOfRows(w: World, a: World, b: World)
    requires SameRows(w, a) && b.subs == a.subs && b.orders == a.orders
    ensures SameHands(w, b) && b.subs.Keys == w.subs.Keys && b.orders.Keys == w.orders.Keys
  {
  }

  lemma ExtendRows(w: World, s: Id, days: int)
    ensures var w' := Extend(w, s, days);
            && SameHands(w, w') && w'.subs.Keys == w.subs.Keys && w'.orders.Keys == w.orders.Keys
            && (w'.grants == w.grants || exists g: Grant :: g.renewal.None? && w'.grants == w.grants + [g])
  {
    hide Later, Lapsed, SameHands, SameRows;
    NoHands(w);
    if s in w.subs && days != 0 && w.subs[s].removedAt.None? && w.subs[s].hasPeer {
      var sub := ExtendedSub(w.subs[s], w.now, days);
      UpdatedHands(w, s, sub, w.peers);
      HandsOfRows(w, w.(peers := w.peers, subs := w.subs[s := sub]), Extend(w, s, days));
      assert Grant(s, None, days, if days > 0 then Lapsed(w.subs[s], w.now) else 0).renewal.None?;
    } else {
      HandsOfRows(w, w, w);
    }
  }

  lemma ExtendHands(w: World, s: Id, days: int)
    requires Owned(w)
    ensures SameHands(w, Extend(w, s, days)) && Owned(Extend(w, s, days))
  {
    hide Owned, SameHands, Extend;
    ExtendRows(w, s, days);
    var w' := Extend(w, s, days);
    if w'.grants == w.grants {
      SameRowsOwned(w, w');
    } else {
      var g: Grant :| g.renewal.None? && w'.grants == w.grants + [g];
      GrantHands(w, w', g);
    }
  }

  lemma TicksHands(w: World, rows: seq<Id>, days: seq<int>, js: seq<Id>)
    ensures SameRows(w, ExpireAll(w, rows)) && SameRows(w, CleanUpAll(w, rows))
    ensures SameRows(w, RemindAll(w, rows, days)) && SameRows(w, RetryAll(w, js))
  {
    hide ExpireAll, CleanUpAll, RemindAll, RetryAll;
    TicksLeaveRows(w, rows, days, js);
    TicksLeaveRows(w, [], days, js);
    TicksGrant(w, rows, days, js);
    TicksGrant(w, [], days, js);
  }

  lemma PlaceHands(w: World, user: Id, server: Id, renews: Option<Id>)
    requires Owned(w) && w.nextId !in w.orders && forall s :: s in w.subs ==> w.subs[s].order in w.orders
    requires forall g :: g in w.grants && g.renewal.Some? ==> g.renewal.value in w.orders
    ensures SameHands(w, PlaceOrder(w, user, server, renews)) && Owned(PlaceOrder(w, user, server, renews))
  {
  }

  /** A step that moves an order's status, or changes jobs only. */
  lemma QuietHands(w: World, step: Step)
    requires step.Tick? || step.Submit? || step.Reject? || step.AskAgain? || step.ClaimJob?
    ensures SameRows(w, Next(w, step))
  {
    hide Attempt, PressApprove, Extend, ExpireAll, CleanUpAll, RemindAll, RetryAll, PlaceOrder, Claimable;
  }

  lemma StepHands(w: World, step: Step)
    requires Core(w) && Allowed(w, step) && Owned(w)
    ensures SameHands(w, Next(w, step)) && Owned(Next(w, step))
  {
    hide Core, Attempt, PressApprove, Extend, ExpireAll, CleanUpAll, RemindAll, RetryAll, Owned, SameHands, Allowed,
         PlaceOrder;
    match step
    case Approve(o, days) => ApproveHands(w, o, days);
    case ExtendBy(s, days) => ExtendHands(w, s, days);
    case Place(user, server, renews) =>
      KnownIds(w);
      GrantsKnown(w);
      PlaceHands(w, user, server, renews);
    case _ =>
      match step {
        case Work(j, worker, outcome) => TurnHands(w, j, outcome);
        case ExpiryCheck(rows) => TicksHands(w, rows, [], []);
        case CleanUp(rows) => TicksHands(w, rows, [], []);
        case Remind(rows, thresholds) => TicksHands(w, rows, thresholds, []);
        case Retry(js) => TicksHands(w, [], [], js);
        case _ => QuietHands(w, step);
      }
      SameRowsOwned(w, Next(w, step));
  }

  /** In every reachable state a subscription, and every renewal of it, is of the customer and on the server that were
      ordered. */
  lemma {:induction false} OwnedStays(w: World, steps: seq<Step>)
    requires Core(w) && AllowedRun(w, steps) && Owned(w)
    ensures Owned(Run(w, steps))
    decreases steps
  {
    hide Core, Next, Allowed, Owned;
    if steps == [] {
    } else {
      CoreStepKeeps(w, steps[0]);
      StepHands(w, steps[0]);
      OwnedStays(Next(w, steps[0]), steps[1..]);
    }
  }

  // ----- how an order moves -----

  /** The step, and the status before, behind each new status of an order. */
  predicate MayMove(w: World, step: Step, o: Id, was: OrderStatus, status: OrderStatus) {
    match step
    case Submit(p) => p == o && was == AwaitingReceipt && status == ReceiptSubmitted
    case Approve(p, _) => p == o && was in {AwaitingReceipt, ReceiptSubmitted}
      && status in {OrderProvisioning, Fulfilled}
    case Reject(p) => p == o && was in {AwaitingReceipt, ReceiptSubmitted} && status == Rejected
    case Work(j, _, _) =>
      was == OrderProvisioning && status == Fulfilled
      && j in w.jobs && w.jobs[j].kind == CreatePeer && w.jobs[j].sub in w.subs && w.subs[w.jobs[j].sub].order == o
    case _ => false
  }

  lemma ApproveMoves(w: World, p: Id, days: int, o: Id)
    requires o in w.orders && PressApprove(w, p, days).orders[o].status != w.orders[o].status
    requires o in PressApprove(w, p, days).orders
    ensures MayMove(w, Approve(p, days), o, w.orders[o].status, PressApprove(w, p, days).orders[o].status)
  {
    hide HasOwnSub, Later, Lapsed;
  }

  /** An order moves only from awaiting a receipt to submitted, from either to rejected, provisioning or fulfilled,
      and from provisioning to fulfilled when its subscription's create job is done. */
  lemma OrderMoves(w: World, step: Step, o: Id)
    requires Core(w) && Allowed(w, step) && o in w.orders
    ensures o in Next(w, step).orders
    ensures var was, status := w.orders[o].status, Next(w, step).orders[o].status;
            status != was ==> MayMove(w, step, o, was, status)
  {
    hide Core, Attempt, PressApprove, ExpireAll, CleanUpAll, RemindAll, RetryAll;
    KnownIds(w);
    OrderWell(w, o);
    match step
    case Approve(p, days) =>
      ApproveKeepsOrder(w, p, days, o);
      if Next(w, step).orders[o].status != w.orders[o].status {
        ApproveMoves(w, p, days, o);
      }
    case Work(j, worker, outcome) =>
      if w.jobs[j].kind == CreatePeer {
        CreateWaits(w, j);
      }
      TurnMoves(w, j, outcome, o);
    case ExpiryCheck(rows) => TicksLeaveRows(w, rows, [], []);
    case CleanUp(rows) => TicksLeaveRows(w, rows, [], []);
    case Remind(rows, thresholds) => TicksLeaveRows(w, rows, thresholds, []);
    case Retry(js) => TicksLeaveRows(w, [], [], js);
    case _ =>
  }

  lemma OrderWell(w: World, o: Id)
    requires Core(w) && o in w.orders
    ensures WellFormedOrder(w.orders[o])
  {
    hide Refs, Queue, OneCreateJob, Waiting, OrderFollows, ExpiryJobs, OpenOnce, Paid, Effects;
  }

  lemma ApproveKeepsOrder(w: World, p: Id, days: int, o: Id)
    requires o in w.orders
    ensures o in PressApprove(w, p, days).orders
  {
    hide HasOwnSub, Later, Lapsed;
  }

  lemma TurnMoves(w: World, j: Id, outcome: Outcome, o: Id)
    requires o in w.orders && j in w.jobs
    ensures var orders' := Attempt(w, j, outcome).orders;
            o in orders'
            && (orders'[o] != w.orders[o] ==>
                && w.jobs[j].kind == CreatePeer && w.jobs[j].sub in w.subs && w.subs[w.jobs[j].sub].order == o
                && orders'[o].status == Fulfilled)
  {
    ProcessMoves(w, j, outcome);
    hide ProcessJob, FailedJob;
  }

  /** What a job writes of the orders. */
  lemma ProcessMoves(w: World, j: Id, outcome: Outcome)
    requires j in w.jobs
    ensures var orders', s := ProcessJob(w, j, outcome).world.orders, w.jobs[j].sub;
            orders' == w.orders
            || (w.jobs[j].kind == CreatePeer && s in w.subs && w.subs[s].order in w.orders
                && orders' == w.orders[w.subs[s].order := w.orders[w.subs[s].order].(status := Fulfilled)])
  {
    hide Renewed;
  }

  /** Placing, submitting and rejecting do so. */
  lemma OrderSteps(w: World, o: Id, user: Id, server: Id, renews: Option<Id>)
    requires Core(w)
    ensures w.nextId !in w.orders
    ensures Next(w, Place(user, server, renews)).orders
            == w.orders[w.nextId := Order(user, server, AwaitingReceipt, renews)]
    ensures o in w.orders ==> OrderBecomes(w, Next(w, Submit(o)), o, ReceiptSubmitted)
    ensures if o in w.orders && w.orders[o].status in {AwaitingReceipt, ReceiptSubmitted, Rejected}
            then OrderBecomes(w, Next(w, Reject(o)), o, Rejected)
            else Next(w, Reject(o)) == w
  {
    hide Core;
    KnownIds(w);
    if o in w.orders {
      OrderWell(w, o);
    }
  }

  // ----- retries and requests -----

  predicate NothingOpenFor(w: World, kind: JobKind, s: Id) {
    forall j :: j in w.jobs && w.jobs[j].kind == kind && w.jobs[j].sub == s ==>
                  w.jobs[j].status in {Succeeded, PermanentFailure}
  }

  /** A retry is accepted exactly for a job that failed for good, has no other job of its task open, and still has
      something to do: a create while its subscription waits, an enable while it is active with time left. The job
      is then as new, and can be claimed at once; otherwise nothing changes. */
  lemma RetryExactly(w: World, j: Id)
    requires j in w.jobs
    ensures var job, w' := w.jobs[j], RetryAll(w, [j]);
            if && job.status == PermanentFailure && NothingOpenFor(w, job.kind, job.sub) && job.sub in w.subs
               && (job.kind == CreatePeer ==> w.subs[job.sub].status == Provisioning)
               && (job.kind == EnablePeer ==>
                     w.subs[job.sub].status == Active && w.subs[job.sub].expiresAt > w.now)
            then w' == w.(jobs := w.jobs[j := Job(job.kind, job.sub, Pending, 0, w.now, None, None, job.reason, None)])
                 && CanClaim(w', j, w.now)
            else w' == w
  {
    var job := w.jobs[j];
    assert [j][..0] == [] && RetryAll(w, [j]) == RetryOne(w, j);
    NothingOpen(w, job.kind, job.sub);
    hide HasOpenJob, NothingOpenFor;
  }

  lemma NothingOpen(w: World, kind: JobKind, s: Id)
    ensures HasOpenJob(w.jobs, kind, s) <==> !NothingOpenFor(w, kind, s)
  {
    if !NothingOpenFor(w, kind, s) {
      var j :| j in w.jobs && w.jobs[j].kind == kind && w.jobs[j].sub == s
               && w.jobs[j].status !in {Succeeded, PermanentFailure};
      var status := w.jobs[j].status;
      assert status == Pending || status == Processing || status == RetryableFailure;
    }
  }

  /** A customer's request for the config queues one job, which can be claimed at once. */
  lemma RequestExactly(w: World, s: Id)
    requires Core(w) && s in w.subs
    ensures var w' := Next(w, AskAgain(s));
            && w.nextId !in w.jobs && CanClaim(w', w.nextId, w.now)
            && w' == w.(jobs := w.jobs[w.nextId := Job(Redeliver, s, Pending, 0, w.now, None, None, NoReason, None)],
                        nextId := w.nextId + 1)
  {
    hide Core;
    KnownIds(w);
  }

  // ----- the dates in the keys -----

  /** A time is on the day of its date. */
  lemma DateIsDay(t: Time)
    ensures DateOf(t) * 86_400_000_000 <= t < (DateOf(t) + 1) * 86_400_000_000
  {
  }

  /** Days that are added move the date by at least as many days, so the reminders and the notice of the new expiry have
      keys of their own: those of the old one do not hold them back. */
  lemma AddedDaysGiveNewKeys(expiresAt: Time, now: Time, days: int, s: Id, threshold: int)
    requires days > 0
    ensures var e := Ends(expiresAt, now, days);
            && DateOf(e) >= DateOf(expiresAt) + days
            && Reminder(s, threshold, DateOf(e)) != Reminder(s, threshold, DateOf(expiresAt))
            && ExpiryNotice(s, DateOf(e)) != ExpiryNotice(s, DateOf(expiresAt))
  {
    DateIsDay(expiresAt);
    DateIsDay(Ends(expiresAt, now, days));
  }
}
