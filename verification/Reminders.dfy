/** Expiry reminders: each threshold once, in falling order, and none missed. */
module Reminders {
  import opened Wrappers
  import opened Store
  import opened Protocol
  import opened ProtocolSteps
  import opened ProtocolWork
  import opened ProtocolRuns
  import opened ProtocolReplies
  import opened ProtocolTheorems
  import opened ProtocolQueue

  // ----- what one step records -----

  /** The notice for a threshold is new at this step. */
  predicate Records(w: World, step: Step, notice: Notice) {
    notice !in w.sent && notice in Next(w, step).sent
  }

  lemma {:induction false} TicksSend(w: World, rows: seq<Id>, days: seq<int>, js: seq<Id>)
    ensures w.sent <= ExpireAll(w, rows).sent && CleanUpAll(w, rows).sent == w.sent && RetryAll(w, js).sent == w.sent
    ensures w.sent <= RemindAll(w, rows, days).sent
    ensures forall n :: n in ExpireAll(w, rows).sent && n !in w.sent ==> n.ExpiryNotice?
    decreases |rows| + |js|
  {
    hide HasOpenJob, DueReminder;
    if rows == [] && js == [] {
    } else if rows != [] {
      TicksSend(w, rows[..|rows| - 1], days, js);
    } else {
      TicksSend(w, rows, days, js[..|js| - 1]);
    }
  }

  lemma AttemptSends(w: World, j: Id, outcome: Outcome)
    ensures Attempt(w, j, outcome).sent == w.sent
  {
    hide FailedJob, Renewed;
  }

  /** The reminder that is due is the one recorded, for the rows that were selected. */
  lemma {:induction false} RemindSends(w: World, rows: seq<Id>, days: seq<int>, s: Id, t: int)
    requires s in w.subs
    ensures Reminder(s, t, DateOf(w.subs[s].expiresAt)) in RemindAll(w, rows, days).sent
            <==> Reminder(s, t, DateOf(w.subs[s].expiresAt)) in w.sent
                 || (s in rows && DueReminder(days, w.subs[s].expiresAt, w.now) == Some(t))
  {
    hide DueReminder, DateOf;
    if rows == [] {
    } else {
      var init, last := rows[..|rows| - 1], rows[|rows| - 1];
      assert rows == init + [last];
      RemindSends(w, init, days, s, t);
      RemindLeaves(w, init, days);
    }
  }

  lemma {:induction false} RemindLeaves(w: World, rows: seq<Id>, days: seq<int>)
    ensures RemindAll(w, rows, days) == w.(sent := RemindAll(w, rows, days).sent)
  {
    hide DueReminder, DateOf;
    if rows == [] {
    } else {
      RemindLeaves(w, rows[..|rows| - 1], days);
    }
  }

  /** Nothing but a reminder tick records a reminder, and what was recorded stays. */
  lemma StepSends(w: World, step: Step)
    ensures w.sent <= Next(w, step).sent
    ensures !step.Remind? ==> forall n :: n in Next(w, step).sent && n !in w.sent ==> n.ExpiryNotice?
  {
    hide Attempt, ExpireAll, CleanUpAll, RemindAll, RetryAll;
    match step
    case Work(j, worker, outcome) => AttemptSends(w, j, outcome);
    case ExpiryCheck(rows) => TicksSend(w, rows, [], []);
    case CleanUp(rows) => TicksSend(w, rows, [], []);
    case Remind(rows, thresholds) => TicksSend(w, rows, thresholds, []);
    case Retry(js) => TicksSend(w, [], [], js);
    case _ =>
  }

  lemma StepTime(w: World, step: Step)
    requires Allowed(w, step)
    ensures w.now <= Next(w, step).now
  {
    hide Attempt, ExpireAll, CleanUpAll, RemindAll, RetryAll;
    match step
    case Work(j, worker, outcome) => AttemptTime(w, j, outcome);
    case ExpiryCheck(rows) => TicksTime(w, rows, [], []);
    case CleanUp(rows) => TicksTime(w, rows, [], []);
    case Remind(rows, thresholds) => TicksTime(w, rows, thresholds, []);
    case Retry(js) => TicksTime(w, [], [], js);
    case _ =>
  }

  lemma AttemptTime(w: World, j: Id, outcome: Outcome)
    ensures Attempt(w, j, outcome).now == w.now
  {
    hide FailedJob, Renewed;
  }

  lemma {:induction false} TicksTime(w: World, rows: seq<Id>, days: seq<int>, js: seq<Id>)
    ensures ExpireAll(w, rows).now == w.now && CleanUpAll(w, rows).now == w.now
    ensures RemindAll(w, rows, days).now == w.now && RetryAll(w, js).now == w.now
    decreases |rows| + |js|
  {
    hide HasOpenJob, DueReminder;
    if rows == [] && js == [] {
    } else if rows != [] {
      TicksTime(w, rows[..|rows| - 1], days, js);
    } else {
      TicksTime(w, rows, days, js[..|js| - 1]);
    }
  }

  // ----- why a reminder is recorded -----

  lemma {:induction false} RemindAdds(w: World, rows: seq<Id>, days: seq<int>, n: Notice)
    requires n !in w.sent && n in RemindAll(w, rows, days).sent
    ensures n.Reminder? && n.sub in rows && n.sub in w.subs
    ensures n.date == DateOf(w.subs[n.sub].expiresAt)
    ensures DueReminder(days, w.subs[n.sub].expiresAt, w.now) == Some(n.threshold)
  {
    hide DueReminder, DateOf;
    if rows == [] {
    } else {
      var init := rows[..|rows| - 1];
      assert rows == init + [rows[|rows| - 1]];
      RemindLeaves(w, init, days);
      if n in RemindAll(w, init, days).sent {
        RemindAdds(w, init, days, n);
      }
    }
  }

  lemma {:induction false} ThresholdIsSmallest(days: seq<int>, daysLeft: int)
    requires Sorted(days) && Threshold(days, daysLeft).Some?
    ensures var t := Threshold(days, daysLeft).value;
            t in days && daysLeft <= t && forall u :: u in days && daysLeft <= u ==> t <= u
  {
    if daysLeft <= days[0] {
      forall u | u in days
        ensures days[0] <= u
      {
        var i :| 0 <= i < |days| && days[i] == u;
      }
    } else {
      ThresholdIsSmallest(days[1..], daysLeft);
      forall u | u in days && daysLeft <= u
        ensures u in days[1..]
      {
        assert days == [days[0]] + days[1..];
      }
    }
  }

  /** A reminder is recorded only for an active subscription with time left, under the date it runs out, for the
      smallest threshold that the whole days left do not exceed. */
  lemma ReminderHasCause(w: World, rows: seq<Id>, days: seq<int>, n: Notice)
    requires days != [] && Sorted(days)
    requires forall s :: s in rows && s in w.subs ==> IsExpiring(w.subs[s], w.now, days)
    requires Records(w, Remind(rows, days), n)
    ensures n.Reminder? && n.sub in w.subs
    ensures var sub := w.subs[n.sub];
            var daysLeft := (sub.expiresAt - w.now) / 86_400_000_000;
            && sub.status == Active && sub.expiresAt > w.now
            && n.date * 86_400_000_000 <= sub.expiresAt < (n.date + 1) * 86_400_000_000
            && n.threshold in days && daysLeft <= n.threshold
            && forall u :: u in days && daysLeft <= u ==> n.threshold <= u
  {
    hide Threshold, RemindAll;
    RemindAdds(w, rows, days, n);
    ThresholdIsSmallest(days, (w.subs[n.sub].expiresAt - w.now) / DAY);
  }

  // ----- falling thresholds -----

  /** Less time left never gives a larger threshold. */
  lemma {:induction false} ThresholdFalls(days: seq<int>, daysLeft: int, daysLeft': int)
    requires Sorted(days) && daysLeft' <= daysLeft
    ensures Threshold(days, daysLeft).Some? ==>
              && Threshold(days, daysLeft').Some?
              && Threshold(days, daysLeft').value <= Threshold(days, daysLeft).value
              && Threshold(days, daysLeft).value in days
  {
    if days == [] {
    } else {
      ThresholdFalls(days[1..], daysLeft, daysLeft');
    }
  }

  lemma DueFalls(days: seq<int>, expiresAt: Time, now: Time, now': Time)
    requires Sorted(days) && now <= now'
    requires DueReminder(days, expiresAt, now).Some? && DueReminder(days, expiresAt, now').Some?
    ensures DueReminder(days, expiresAt, now').value <= DueReminder(days, expiresAt, now).value
  {
    hide Threshold;
    ThresholdFalls(days, (expiresAt - now) / DAY, (expiresAt - now') / DAY);
  }

  /** The expiry date of a subscription is the same in every state of a run, and every reminder tick uses
      the same thresholds. */
  ghost predicate Steady(w: World, steps: seq<Step>, s: Id, expiresAt: Time, days: seq<int>)
    decreases steps
  {
    && s in w.subs && w.subs[s].expiresAt == expiresAt
    && (steps != [] ==>
          && (steps[0].Remind? ==> steps[0].thresholds == days)
          && Steady(Next(w, steps[0]), steps[1..], s, expiresAt, days))
  }

  /** A notice is recorded at step `i` of a run. */
  ghost predicate RecordedAt(w: World, steps: seq<Step>, i: nat, notice: Notice)
    requires i < |steps|
    decreases i
  {
    if i == 0 then Records(w, steps[0], notice) else RecordedAt(Next(w, steps[0]), steps[1..], i - 1, notice)
  }

  /** The threshold recorded at a step is the one due at a clock no earlier than the run's first. */
  lemma {:induction false} RecordedDue(w: World, steps: seq<Step>, s: Id, expiresAt: Time, days: seq<int>, i: nat,
                                       t: int)
    requires AllowedRun(w, steps) && Steady(w, steps, s, expiresAt, days) && i < |steps|
    requires RecordedAt(w, steps, i, Reminder(s, t, DateOf(expiresAt)))
    ensures Reminder(s, t, DateOf(expiresAt)) !in w.sent
    ensures exists now :: now >= w.now && DueReminder(days, expiresAt, now) == Some(t)
    decreases i
  {
    hide Next, Allowed, DueReminder, DateOf;
    StepSends(w, steps[0]);
    StepTime(w, steps[0]);
    if i == 0 {
      RecordsDue(w, steps[0], s, t);
    } else {
      RecordedDue(Next(w, steps[0]), steps[1..], s, expiresAt, days, i - 1, t);
      var now :| now >= Next(w, steps[0]).now && DueReminder(days, expiresAt, now) == Some(t);
      assert now >= w.now;
    }
  }

  lemma RecordsDue(w: World, step: Step, s: Id, t: int)
    requires s in w.subs && Records(w, step, Reminder(s, t, DateOf(w.subs[s].expiresAt)))
    ensures step.Remind? && s in step.rows && DueReminder(step.thresholds, w.subs[s].expiresAt, w.now) == Some(t)
  {
    StepSends(w, step);
    hide DueReminder, DateOf, RemindAll;
    if step.Remind? {
      RemindSends(w, step.rows, step.thresholds, s, t);
    }
  }

  /** In every run in which a subscription's expiry date stays the same, the thresholds recorded for it
      fall strictly, so each is recorded at most once. */
  lemma {:induction false} RemindersFall(w: World, steps: seq<Step>, s: Id, expiresAt: Time, days: seq<int>,
                                         i: nat, t: int, i': nat, t': int)
    requires AllowedRun(w, steps) && Steady(w, steps, s, expiresAt, days) && Sorted(days) && i < i' < |steps|
    requires RecordedAt(w, steps, i, Reminder(s, t, DateOf(expiresAt)))
    requires RecordedAt(w, steps, i', Reminder(s, t', DateOf(expiresAt)))
    ensures t > t'
    decreases i
  {
    hide Next, Allowed, DueReminder, DateOf;
    var w', rest := Next(w, steps[0]), steps[1..];
    if i == 0 {
      RecordsDue(w, steps[0], s, t);
      RecordedDue(w', rest, s, expiresAt, days, i' - 1, t');
      StepTime(w, steps[0]);
      var now :| now >= w'.now && DueReminder(days, expiresAt, now) == Some(t');
      DueFalls(days, expiresAt, w.now, now);
    } else {
      RemindersFall(w', rest, s, expiresAt, days, i - 1, t, i' - 1, t');
    }
  }

  // ----- none missed -----

  /** Sorted thresholds of at least a day, the largest at least two days above the others. */
  predicate Spaced(days: seq<int>) {
    && days != [] && Sorted(days) && days[0] >= 1
    && forall t :: t in days ==> t == Largest(days) || t + 2 <= Largest(days)
  }

  function Largest(days: seq<int>): int
    requires days != []
  {
    days[|days| - 1]
  }

  /** The default thresholds are. */
  lemma UsualIsSpaced()
    ensures Spaced([1, 3, 7])
  {
  }

  lemma InRange(days: seq<int>, t: int)
    requires days != [] && Sorted(days) && t in days
    ensures days[0] <= t <= Largest(days)
  {
    var i :| 0 <= i < |days| && days[i] == t;
  }

  /** The threshold is the smallest that the days left do not exceed. */
  lemma {:induction false} SmallestReached(days: seq<int>, daysLeft: int, t: int)
    requires Sorted(days) && t in days && daysLeft <= t && forall u :: u in days ==> u < daysLeft || u >= t
    ensures Threshold(days, daysLeft) == Some(t)
  {
    if daysLeft <= days[0] {
      assert days[0] in days;
      InRange(days, t);
    } else {
      assert t in days[1..] && forall u :: u in days[1..] ==> u in days;
      SmallestReached(days[1..], daysLeft, t);
    }
  }

  /** The time left at which each of the default thresholds is due. */
  lemma UsualDue(expiresAt: Time, now: Time)
    ensures DueReminder([1, 3, 7], expiresAt, now)
         == if expiresAt - now > 7 * DAY || expiresAt <= now then None
            else if expiresAt - now < 2 * DAY then Some(1)
            else if expiresAt - now < 4 * DAY then Some(3)
            else Some(7)
  {
    hide Threshold;
    var d := (expiresAt - now) / DAY;
    if 0 < expiresAt - now <= 7 * DAY {
      SmallestReached([1, 3, 7], d, if d <= 1 then 1 else if d <= 3 then 3 else 7);
    }
  }

  /** The reminder for a threshold has begun to be due. */
  predicate Begun(days: seq<int>, t: int, left: int)
    requires days != []
  {
    left < (t + 1) * DAY && left <= Largest(days) * DAY
  }

  lemma WholeDays(left: int, n: int)
    ensures left >= n * DAY ==> left / DAY >= n
    ensures left < (n + 1) * DAY ==> left / DAY <= n
  {
  }

  /** A reminder that begins between two ticks at most a day apart is due at the second. */
  lemma BegunIsDue(days: seq<int>, t: int, expiresAt: Time, last: Time, now: Time)
    requires Spaced(days) && t in days && last <= now <= last + DAY
    requires Begun(days, t, expiresAt - now) && !Begun(days, t, expiresAt - last)
    ensures DueReminder(days, expiresAt, now) == Some(t)
  {
    hide Threshold, Sorted;
    var left := expiresAt - now;
    InRange(days, t);
    if t == Largest(days) {
      assert left > (t - 1) * DAY;
      WholeDays(left, t - 1);
      WholeDays(left, t);
      SmallestReached(days, left / DAY, t);
    } else {
      assert left >= t * DAY;
      WholeDays(left, t);
      SmallestReached(days, left / DAY, t);
    }
  }

  /** Every reminder that had begun by a tick at `last` has been recorded. */
  predicate Caught(days: seq<int>, sent: set<Notice>, s: Id, expiresAt: Time, last: Time)
    requires days != []
  {
    forall t :: t in days && Begun(days, t, expiresAt - last) ==> Reminder(s, t, DateOf(expiresAt)) in sent
  }

  /** Reminder ticks come at most a day apart, and select the subscription when it is expiring. */
  ghost predicate DailyTicks(days: seq<int>, w: World, steps: seq<Step>, s: Id, last: Time)
    requires days != []
    decreases steps
  {
    steps == []
    || (if steps[0].Remind?
        then w.now <= last + DAY
             && (s in w.subs && IsExpiring(w.subs[s], w.now, days) ==> s in steps[0].rows)
             && DailyTicks(days, Next(w, steps[0]), steps[1..], s, w.now)
        else DailyTicks(days, Next(w, steps[0]), steps[1..], s, last))
  }

  /** The time of the run's last reminder tick. */
  ghost function LastTick(w: World, steps: seq<Step>, last: Time): Time
    decreases steps
  {
    if steps == [] then last else LastTick(Next(w, steps[0]), steps[1..], if steps[0].Remind? then w.now else last)
  }

  lemma TickCatches(days: seq<int>, w: World, rows: seq<Id>, s: Id, last: Time)
    requires Spaced(days) && s in w.subs && last <= w.now <= last + DAY
    requires Caught(days, w.sent, s, w.subs[s].expiresAt, last)
    requires w.now < w.subs[s].expiresAt ==> w.subs[s].status == Active
    requires IsExpiring(w.subs[s], w.now, days) ==> s in rows
    ensures Caught(days, RemindAll(w, rows, days).sent, s, w.subs[s].expiresAt, w.now)
  {
    hide RemindAll, DateOf, Threshold, Sorted, Begun, Spaced;
    var expiresAt := w.subs[s].expiresAt;
    SpacedIsSome(days);
    forall t | t in days && Begun(days, t, expiresAt - w.now)
      ensures Reminder(s, t, DateOf(expiresAt)) in RemindAll(w, rows, days).sent
    {
      RemindSends(w, rows, days, s, t);
      if !Begun(days, t, expiresAt - last) {
        BegunIsDue(days, t, expiresAt, last, w.now);
      }
    }
  }

  lemma SpacedIsSome(days: seq<int>)
    requires Spaced(days)
    ensures days != []
  {
  }

  // ----- an active subscription stays active until it runs out -----

  lemma AttemptLeavesActive(w: World, j: Id, outcome: Outcome, s: Id)
    requires InWork(w, j) && PaidUp(w, s)
    requires w.jobs[j].kind in {DisablePeer, RemovePeer} ==> IsExpiry(w.jobs[j].reason)
    ensures s in Attempt(w, j, outcome).subs && Attempt(w, j, outcome).subs[s].status == Active
  {
    hide ProcessJob, FailedJob, PaidUp, InWork;
    ProcessLeavesActive(w, j, outcome, s);
    assert s in w.subs && w.subs[s].status == Active by {
      PaidUpIsActive(w, s);
    }
  }

  lemma PaidUpIsActive(w: World, s: Id)
    requires PaidUp(w, s)
    ensures s in w.subs && w.subs[s].status == Active
  {
  }

  lemma ProcessLeavesActive(w: World, j: Id, outcome: Outcome, s: Id)
    requires InWork(w, j) && PaidUp(w, s)
    requires w.jobs[j].kind in {DisablePeer, RemovePeer} ==> IsExpiry(w.jobs[j].reason)
    ensures var subs' := ProcessJob(w, j, outcome).world.subs;
            s in subs' && subs'[s].status == Active
  {
  }

  lemma ApproveLeavesActive(w: World, o: Id, days: int, s: Id)
    requires s in w.subs && w.subs[s].status == Active && s < w.nextId
    ensures s in PressApprove(w, o, days).subs && PressApprove(w, o, days).subs[s].status == Active
  {
  }

  lemma StaysActive(w: World, step: Step, s: Id)
    requires Core(w) && Allowed(w, step) && PaidUp(w, s)
    ensures s in Next(w, step).subs && Next(w, step).subs[s].status == Active
  {
    hide Core, Attempt, PressApprove;
    KnownIds(w);
    match step
    case Work(j, worker, outcome) =>
      ExpiryFact(w, j);
      AttemptLeavesActive(w, j, outcome, s);
    case Approve(o, days) => ApproveLeavesActive(w, o, days, s);
    case ExpiryCheck(rows) => TicksLeaveRows(w, rows, [], []);
    case CleanUp(rows) => TicksLeaveRows(w, rows, [], []);
    case Remind(rows, thresholds) => TicksLeaveRows(w, rows, thresholds, []);
    case Retry(js) => TicksLeaveRows(w, [], [], js);
    case _ =>
  }

  lemma {:induction false} RunCatches(days: seq<int>, w: World, steps: seq<Step>, s: Id, expiresAt: Time, last: Time)
    requires Core(w) && AllowedRun(w, steps) && Spaced(days) && Steady(w, steps, s, expiresAt, days)
    requires DailyTicks(days, w, steps, s, last) && last <= w.now && Caught(days, w.sent, s, expiresAt, last)
    requires w.now < expiresAt ==> w.subs[s].status == Active
    ensures Caught(days, Run(w, steps).sent, s, expiresAt, LastTick(w, steps, last))
    decreases steps
  {
    hide Core, Allowed, DateOf, Next, Caught, IsExpiring, Spaced;
    SpacedIsSome(days);
    if steps == [] {
    } else {
      var w', rest := Next(w, steps[0]), steps[1..];
      CoreStepKeeps(w, steps[0]);
      StepTime(w, steps[0]);
      StepCatches(days, w, steps[0], s, last);
      if w.now < expiresAt {
        StaysActive(w, steps[0], s);
      }
      RunCatches(days, w', rest, s, expiresAt, if steps[0].Remind? then w.now else last);
    }
  }

  lemma StepCatches(days: seq<int>, w: World, step: Step, s: Id, last: Time)
    requires Spaced(days) && s in w.subs && last <= w.now && Caught(days, w.sent, s, w.subs[s].expiresAt, last)
    requires w.now < w.subs[s].expiresAt ==> w.subs[s].status == Active
    requires step.Remind? ==>
               && step.thresholds == days && w.now <= last + DAY
               && (IsExpiring(w.subs[s], w.now, days) ==> s in step.rows)
    ensures Caught(days, Next(w, step).sent, s, w.subs[s].expiresAt, if step.Remind? then w.now else last)
  {
    StepSends(w, step);
    hide RemindAll, IsExpiring, DateOf, Spaced, Begun;
    if step.Remind? {
      TickCatches(days, w, step.rows, s, last);
    }
  }

  /** With spaced thresholds and ticks at most a day apart, a subscription that runs down, with its expiry date
      unchanged, from above the largest threshold to the smallest gets the reminder of every threshold. */
  lemma AllRemindersSent(days: seq<int>, w: World, steps: seq<Step>, s: Id)
    requires Spaced(days)
    requires Core(w) && s in w.subs && AllowedRun(w, steps) && Steady(w, steps, s, w.subs[s].expiresAt, days)
    requires w.subs[s].status == Active && w.subs[s].expiresAt - w.now > Largest(days) * DAY
    requires DailyTicks(days, w, steps, s, w.now)
    requires w.subs[s].expiresAt - LastTick(w, steps, w.now) < (days[0] + 1) * DAY
    requires w.subs[s].expiresAt - LastTick(w, steps, w.now) <= Largest(days) * DAY
    ensures forall t :: t in days ==> Reminder(s, t, DateOf(w.subs[s].expiresAt)) in Run(w, steps).sent
  {
    hide Core, AllowedRun, Run, Steady, DailyTicks, LastTick, DateOf;
    RunCatches(days, w, steps, s, w.subs[s].expiresAt, w.now);
    forall t | t in days
      ensures Begun(days, t, w.subs[s].expiresAt - LastTick(w, steps, w.now))
    {
      InRange(days, t);
    }
  }

  /** The spacing is needed: right above another threshold, the largest is due at one instant only. */
  lemma CrowdedLargest(days: seq<int>, expiresAt: Time, now: Time)
    requires days != [] && Sorted(days) && (Largest(days) - 1) in days && Largest(days) >= 1
    ensures DueReminder(days, expiresAt, now) == Some(Largest(days)) <==> expiresAt - now == Largest(days) * DAY
  {
    hide Threshold;
    var left, t := expiresAt - now, Largest(days);
    WholeDays(left, t);
    if left == t * DAY {
      assert t in days && left / DAY == t;
      SmallestReached(days, t, t);
    } else if 0 < left < t * DAY {
      WholeDays(left, t - 1);
      ThresholdFalls(days, t - 1, left / DAY);
      SmallestReached(days, t - 1, t - 1);
    }
  }
}
