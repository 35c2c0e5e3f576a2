/** Every step keeps the invariant, and so does every run. */
module ProtocolRuns {
  import opened Wrappers
  import opened Store
  import opened Protocol
  import opened ProtocolSteps
  import opened ProtocolWork

  // ----- every step keeps the invariant -----

  lemma ApproveKeeps(w: World, o: Id, days: int)
    requires Inv(w)
    ensures Inv(ApproveOrder(w, o, days)) && Inv(PressApprove(w, o, days))
  {
    hide Inv, Renew, OpenSubscription;
    if o in w.orders && !AlreadyProcessed(w, o) {
      match Renewable(w, o)
      case Some(s) => RenewKeeps(w, o, s, days);
      case None => OpenKeeps(w, o, days);
    }
  }

  lemma SubmitKeeps(w: World, o: Id)
    requires Inv(w) && (o in w.orders ==> !TookEffect(w.orders[o]))
    ensures Inv(SubmitReceipt(w, o))
  {
    hide Core, Served;
    if o in w.orders {
      StatusKeeps(w, o, ReceiptSubmitted);
    }
  }

  lemma RejectKeeps(w: World, o: Id)
    requires Inv(w)
    ensures Inv(RejectOrder(w, o))
  {
    hide Core, Served;
    if o in w.orders && w.orders[o].status !in {Approved, OrderProvisioning, Fulfilled} {
      StatusKeeps(w, o, Rejected);
    }
  }

  lemma RedeliveryKeeps(w: World, s: Id)
    requires Inv(w)
    ensures Inv(RequestRedelivery(w, s))
  {
    hide Inv;
    if s in w.subs {
      EnqueueKeeps(w, Redeliver, s, NoReason);
    }
  }

  lemma SentKeeps(w: World, sent: set<Notice>)
    requires Inv(w)
    ensures Inv(w.(sent := sent))
  {
    hide Queue, OneCreateJob, Waiting, Effective, OrderFollows, ExpiryJobs, OpenOnce, Paid, Served;
  }

  lemma {:induction false} ExpireKeeps(w: World, rows: seq<Id>)
    requires Inv(w)
    ensures Inv(ExpireAll(w, rows))
  {
    hide Inv;
    if rows == [] {
    } else {
      var w1, s := ExpireAll(w, rows[..|rows| - 1]), rows[|rows| - 1];
      ExpireKeeps(w, rows[..|rows| - 1]);
      if s in w1.subs && !HasOpenJob(w1.jobs, DisablePeer, s) {
        EnqueueKeeps(w1, DisablePeer, s, SubscriptionExpired);
        SentKeeps(Enqueue(w1, DisablePeer, s, SubscriptionExpired),
                  w1.sent + {ExpiryNotice(s, DateOf(w1.subs[s].expiresAt))});
      }
    }
  }

  lemma {:induction false} CleanUpKeeps(w: World, rows: seq<Id>)
    requires Inv(w)
    ensures Inv(CleanUpAll(w, rows))
  {
    hide Inv;
    if rows == [] {
    } else {
      var w1, s := CleanUpAll(w, rows[..|rows| - 1]), rows[|rows| - 1];
      CleanUpKeeps(w, rows[..|rows| - 1]);
      if s in w1.subs && !HasOpenJob(w1.jobs, RemovePeer, s) {
        EnqueueKeeps(w1, RemovePeer, s, GracePeriodExpired);
      }
    }
  }

  lemma {:induction false} RemindKeeps(w: World, rows: seq<Id>, days: seq<int>)
    requires Inv(w)
    ensures Inv(RemindAll(w, rows, days))
  {
    hide Inv, Threshold;
    if rows == [] {
    } else {
      var w1 := RemindAll(w, rows[..|rows| - 1], days);
      RemindKeeps(w, rows[..|rows| - 1], days);
      SentKeeps(w1, RemindOne(w1, rows[|rows| - 1], days).sent);
    }
  }

  lemma {:induction false} RetryAllKeeps(w: World, js: seq<Id>)
    requires Inv(w)
    ensures Inv(RetryAll(w, js))
  {
    hide Inv, RetryOne;
    if js == [] {
    } else {
      RetryAllKeeps(w, js[..|js| - 1]);
      RetryKeeps(RetryAll(w, js[..|js| - 1]), js[|js| - 1]);
    }
  }

  /** Every step of every part keeps every invariant. */
  lemma StepKeeps(w: World, step: Step)
    requires Inv(w) && Legal(w, step)
    ensures Inv(Next(w, step))
  {
    hide Inv, PlaceOrder, SubmitReceipt, PressApprove, RejectOrder, Extend, RequestRedelivery, ExpireAll, CleanUpAll,
         RemindAll, Claim, Attempt, RetryAll;
    match step
    case Tick(to) => TickKeeps(w, to);
    case Place(user, server, renews) => PlaceKeeps(w, user, server, renews);
    case Submit(o) => SubmitKeeps(w, o);
    case Approve(o, days) => ApproveKeeps(w, o, days);
    case Reject(o) => RejectKeeps(w, o);
    case ExtendBy(s, days) => ExtendKeeps(w, s, days);
    case AskAgain(s) => RedeliveryKeeps(w, s);
    case ExpiryCheck(rows) => ExpireKeeps(w, rows);
    case CleanUp(rows) => CleanUpKeeps(w, rows);
    case Remind(rows, thresholds) => RemindKeeps(w, rows, thresholds);
    case ClaimJob(j, worker, at) => ClaimKeeps(w, j, worker, at);
    case Work(j, worker, outcome) => AttemptKeeps(w, j, outcome);
    case Retry(js) => RetryAllKeeps(w, js);
  }

  lemma StartKeeps(now: Time)
    ensures Inv(Start(now))
  {
  }

  /** Over every interleaving, from the empty database, all invariants hold. */
  lemma {:induction false} RunKeeps(w: World, steps: seq<Step>)
    requires Inv(w) && LegalRun(w, steps)
    ensures Inv(Run(w, steps))
    decreases steps
  {
    hide Inv, Next, Legal;
    if steps == [] {
    } else {
      StepKeeps(w, steps[0]);
      RunKeeps(Next(w, steps[0]), steps[1..]);
    }
  }

  lemma RunNext(w: World, step: Step, rest: seq<Step>)
    ensures LegalRun(w, [step] + rest) <==> Legal(w, step) && LegalRun(Next(w, step), rest)
    ensures AllowedRun(w, [step] + rest) <==> Allowed(w, step) && AllowedRun(Next(w, step), rest)
    ensures Run(w, [step] + rest) == Run(Next(w, step), rest)
  {
    hide Legal, Allowed, Next;
    assert ([step] + rest)[1..] == rest;
  }

  lemma ReachableInv(now: Time, steps: seq<Step>)
    requires LegalRun(Start(now), steps)
    ensures Inv(Run(Start(now), steps))
  {
    hide Inv, Run, LegalRun;
    StartKeeps(now);
    RunKeeps(Start(now), steps);
  }
}
