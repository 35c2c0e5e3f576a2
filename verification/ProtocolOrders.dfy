/** How often an order takes effect when a receipt is sent for it late. */
module ProtocolOrders {
  import opened Wrappers
  import opened Store
  import opened Protocol
  import opened ProtocolSteps
  import opened ProtocolRuns
  import opened ProtocolReplies
  import opened ProtocolTheorems

  // ----- one approval is one effect -----

  lemma RenewAddsOne(w: World, o: Id, s: Id, days: int)
    requires o in w.orders && s in w.subs
    ensures var w' := Renew(w, o, s, days);
            Effects(w'.subs, w'.grants, o) == Effects(w.subs, w.grants, o) + 1
  {
    hide HasOwnSub, Opened, Renewals, Later, Lapsed, Enqueue;
    var w' := Renew(w, o, s, days);
    GrantAdded(w.grants, Grant(s, Some(o), days, Lapsed(w.subs[s], w.now)), s, o);
    RenewedSub(w, o, s, days);
    SameOwners(w.subs, s, w'.subs[s], o);
  }

  lemma RenewedSub(w: World, o: Id, s: Id, days: int)
    requires o in w.orders && s in w.subs
    ensures var w' := Renew(w, o, s, days);
            && s in w'.subs && w'.subs == w.subs[s := w'.subs[s]] && w'.subs[s].order == w.subs[s].order
            && w'.grants == w.grants + [Grant(s, Some(o), days, Lapsed(w.subs[s], w.now))]
  {
    hide Later, Lapsed;
  }

  lemma OpenAddsOne(w: World, o: Id, days: int)
    requires Refs(w) && o in w.orders
    ensures var w' := OpenSubscription(w, o, days);
            Effects(w'.subs, w'.grants, o) == Effects(w.subs, w.grants, o) + 1
  {
    hide HasOwnSub, Opened, Renewals;
    GrantAdded(w.grants, Grant(w.nextId, None, days, 0), w.nextId, o);
    NewOwner(w.subs, w.nextId, NewSub(w, o, days), o);
  }

  /** An approval takes effect once, or is refused and has none. */
  lemma ApproveAddsOne(w: World, o: Id, days: int)
    requires Refs(w) && o in w.orders
    ensures var w' := ApproveOrder(w, o, days);
            Effects(w'.subs, w'.grants, o) == Effects(w.subs, w.grants, o) + if AlreadyProcessed(w, o) then 0 else 1
  {
    hide Refs, Effects, AlreadyProcessed, Renew, OpenSubscription;
    if !AlreadyProcessed(w, o) {
      match Renewable(w, o)
      case Some(s) => RenewAddsOne(w, o, s, days);
      case None => OpenAddsOne(w, o, days);
    }
  }

  // ----- a late receipt -----

  /** The guard that is missing: the order was fulfilled as a renewal, so that no subscription of its own
      tells a second approval that it was processed. */
  predicate FulfilledRenewal(w: World, o: Id)
    requires o in w.orders
  {
    w.orders[o].status == Fulfilled && !HasOwnSub(w.subs, o)
  }

  lemma EffectsByStatus(w: World, o: Id)
    requires Core(w) && o in w.orders
    ensures Effects(w.subs, w.grants, o) == if TookEffect(w.orders[o]) then 1 else 0
    ensures HasOwnSub(w.subs, o) ==> TookEffect(w.orders[o])
    ensures w.orders[o].status == OrderProvisioning ==> HasOwnSub(w.subs, o)
  {
    hide Queue, OneCreateJob, Waiting, ExpiryJobs, OpenOnce, Paid, HasOwnSub, Opened;
    OpenedSome(w.subs, o);
  }

  lemma ReceiptLeavesRefs(w: World, o: Id)
    requires Core(w) && o in w.orders
    ensures Refs(SubmitReceipt(w, o))
  {
    hide Queue, OneCreateJob, Waiting, ExpiryJobs, OpenOnce, Paid, Effective, OrderFollows;
  }

  /** Sent for an order in any state, a receipt lets the next approval give it a second effect exactly
      when the order is a fulfilled renewal; the second effect is a renewal, or a new subscription if the
      renewed one was removed. */
  lemma LateReceiptTakesEffectTwice(w: World, o: Id, days: int)
    requires Core(w) && o in w.orders
    ensures var w' := PressApprove(SubmitReceipt(w, o), o, days);
            Effects(w'.subs, w'.grants, o) > 1 <==> FulfilledRenewal(w, o)
  {
    hide Core, Refs, Effects, HasOwnSub, ApproveOrder;
    var w1 := SubmitReceipt(w, o);
    EffectsByStatus(w, o);
    ReceiptLeavesRefs(w, o);
    ApproveAddsOne(w1, o, days);
    assert PressApprove(w1, o, days) == ApproveOrder(w1, o, days);
    assert AlreadyProcessed(w1, o) == HasOwnSub(w.subs, o);
  }

  // ----- such a state is reached -----

  /** A first sale to user 7 that is served, and a second order of theirs that renews it. */
  const RENEWAL: seq<Step> := [
    Place(7, 8, None), Approve(0, 30), ClaimJob(2, 1, 0), Work(2, 1, Works(true)), Place(7, 8, Some(1)), Approve(3, 30)
  ]

  const ORDER := Order(7, 8, AwaitingReceipt, None)
  const OPENED := Sub(7, 8, 0, Provisioning, 0, 30 * DAY, None, None, false, DeliveryPending, 0)
  const CREATE := Job(CreatePeer, 1, Pending, 0, 0, None, None, NoReason, None)
  const ACTIVE := OPENED.(status := Active, hasPeer := true, delivery := Delivered)

  function Placed(): World {
    World(0, map[0 := ORDER], map[], map[], map[], {}, [], 1)
  }

  function Approved(): World {
    World(0, map[0 := ORDER.(status := OrderProvisioning)], map[1 := OPENED], map[2 := CREATE], map[], {},
          [Grant(1, None, 30, 0)], 3)
  }

  function AtWork(): World {
    Approved().(jobs := map[2 := CREATE.(status := Processing, lockedAt := Some(0), lockedBy := Some(1))])
  }

  function Sold(): World {
    World(0, map[0 := ORDER.(status := Fulfilled)], map[1 := ACTIVE], map[2 := CREATE.(status := Succeeded)],
          map[1 := true], {},
          [Grant(1, None, 30, 0)], 3)
  }

  function Renewing(): World {
    Sold().(orders := map[0 := ORDER.(status := Fulfilled), 3 := ORDER.(renews := Some(1))], nextId := 4)
  }

  function RenewedSale(): World {
    Renewing().(orders := map[0 := ORDER.(status := Fulfilled), 3 := ORDER.(status := Fulfilled, renews := Some(1))],
                subs := map[1 := ACTIVE.(expiresAt := 60 * DAY)],
                grants := [Grant(1, None, 30, 0), Grant(1, Some(3), 30, 0)])
  }

  lemma PlacingFirst()
    ensures Next(Start(0), Place(7, 8, None)) == Placed()
  {
  }

  lemma ApprovingFirst()
    ensures Next(Placed(), Approve(0, 30)) == Approved()
  {
    var w := Placed();
    assert PressApprove(w, 0, 30) == OpenSubscription(w, 0, 30);
  }

  lemma Claiming()
    ensures Next(Approved(), ClaimJob(2, 1, 0)) == AtWork()
  {
  }

  lemma Working()
    ensures Next(AtWork(), Work(2, 1, Works(true))) == Sold() && Legal(AtWork(), Work(2, 1, Works(true)))
  {
    hide ProcessDisable, ProcessRemove, ProcessEnable, ProcessRedeliver, FailedJob;
  }

  lemma PlacingSecond()
    ensures Next(Sold(), Place(7, 8, Some(1))) == Renewing()
  {
  }

  lemma ApprovingSecond()
    ensures Next(Renewing(), Approve(3, 30)) == RenewedSale()
  {
    var w := Renewing();
    assert Renewable(w, 3) == Some(1);
    assert !AlreadyProcessed(w, 3);
    assert PressApprove(w, 3, 30) == Renew(w, 3, 1, 30);
  }

  /** A legal run ends in a fulfilled renewal. */
  lemma RenewalIsReached()
    ensures LegalRun(Start(0), RENEWAL) && Run(Start(0), RENEWAL) == RenewedSale()
    ensures 3 in RenewedSale().orders && FulfilledRenewal(RenewedSale(), 3) && Renewable(RenewedSale(), 3) == Some(1)
  {
    PlacingFirst();
    ApprovingFirst();
    Claiming();
    Working();
    PlacingSecond();
    ApprovingSecond();
    RunOfRenewal();
  }

  lemma RunOfRenewal()
    requires Next(Start(0), Place(7, 8, None)) == Placed() && Next(Placed(), Approve(0, 30)) == Approved()
    requires Next(Approved(), ClaimJob(2, 1, 0)) == AtWork() && Next(AtWork(), Work(2, 1, Works(true))) == Sold()
    requires Legal(AtWork(), Work(2, 1, Works(true)))
    requires Next(Sold(), Place(7, 8, Some(1))) == Renewing() && Next(Renewing(), Approve(3, 30)) == RenewedSale()
    ensures LegalRun(Start(0), RENEWAL) && Run(Start(0), RENEWAL) == RenewedSale()
  {
    hide Next;
    RunNext(Renewing(), Approve(3, 30), []);
    RunNext(Sold(), Place(7, 8, Some(1)), [Approve(3, 30)]);
    var last: seq<Step> := [Place(7, 8, Some(1)), Approve(3, 30)];
    assert [Place(7, 8, Some(1))] + [Approve(3, 30)] == last;
    assert [Approve(3, 30)] + [] == [Approve(3, 30)];
    RunNext(AtWork(), Work(2, 1, Works(true)), last);
    RunNext(Approved(), ClaimJob(2, 1, 0), [Work(2, 1, Works(true))] + last);
    RunNext(Placed(), Approve(0, 30), [ClaimJob(2, 1, 0)] + ([Work(2, 1, Works(true))] + last));
    RunNext(Start(0), Place(7, 8, None), [Approve(0, 30)] + ([ClaimJob(2, 1, 0)] + ([Work(2, 1, Works(true))] + last)));
    assert RENEWAL == [Place(7, 8, None)]
           + ([Approve(0, 30)] + ([ClaimJob(2, 1, 0)] + ([Work(2, 1, Works(true))] + last)));
  }

  /** From there, a late receipt and an approval give the same order a second effect. */
  lemma RenewalRepeats()
    ensures var w' := PressApprove(SubmitReceipt(RenewedSale(), 3), 3, 30);
            Effects(w'.subs, w'.grants, 3) > 1
  {
    hide Core, Inv, Run, LegalRun, Effects, PressApprove, RENEWAL;
    RenewalIsReached();
    ReachableInv(0, RENEWAL);
    InvIsCore(RenewedSale());
    LateReceiptTakesEffectTwice(RenewedSale(), 3, 30);
  }
}
