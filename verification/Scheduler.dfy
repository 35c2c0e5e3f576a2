/** The scheduler's three periodic checks. */
module Scheduler {
  import opened Wrappers
  import opened Store
  import opened Sessions
  import opened Repositories

  class SchedulerService {
    const session: Session
    const reminderDays: seq<int>
    const graceDays: int
    const subRepo: SubscriptionRepository
    const jobRepo: JobRepository
    const notifications: NotificationRepository

    /** The thresholds are in increasing order. */
    constructor (session: Session, reminderDays: seq<int>, graceDays: int)
      requires reminderDays != [] && Sorted(reminderDays)
      ensures Valid() && this.session == session && this.reminderDays == reminderDays && this.graceDays == graceDays
    {
      this.session, this.reminderDays, this.graceDays := session, reminderDays, graceDays;
      subRepo := new SubscriptionRepository(session);
      jobRepo := new JobRepository(session);
      notifications := new NotificationRepository(session);
    }

    predicate Valid() {
      && subRepo.session == session && jobRepo.session == session && notifications.session == session
      && reminderDays != [] && Sorted(reminderDays)
    }

    /** The smallest threshold that the whole days left do not exceed. */
    method MatchedDay(daysLeft: int) returns (matched: Option<int>)
      ensures matched == Threshold(reminderDays, daysLeft)
    {
      matched := None;
      for i := 0 to |reminderDays|
        invariant Threshold(reminderDays, daysLeft) == Threshold(reminderDays[i..], daysLeft)
      {
        if daysLeft <= reminderDays[i] {
          return Some(reminderDays[i]);
        }
        assert reminderDays[i..][1..] == reminderDays[i + 1..];
      }
    }

    /** `check_expiring_subscriptions`; the count is of the reminders recorded for the first time whose
        message was `delivered`. */
    method CheckExpiringSubscriptions(delivered: Id -> bool) returns (count: nat, rows: seq<Id>)
      requires Valid()
      modifies session
      ensures Distinct(rows)
      ensures forall s ::
                s in rows
                <==> s in old(session.subs) && IsExpiring(old(session.subs[s]), old(session.now), reminderDays)
      ensures session.State() == RemindAll(old(session.State()), rows, reminderDays) == session.committed
      ensures count == |Reminded(old(session.State()), rows, reminderDays, delivered)|
    {
      hide Threshold, IsExpiring, DateOf;
      ghost var before := session.State();
      var now, days := session.now, reminderDays;
      rows := subRepo.Select((sub: Sub) => IsExpiring(sub, now, days));
      count := 0;
      for i := 0 to |rows|
        invariant session.State() == RemindAll(before, rows[..i], reminderDays)
        invariant session.subs == before.subs && session.now == before.now
        invariant OnlyReminds(before.sent, session.sent, rows[..i])
        invariant count == |Reminded(before, rows[..i], reminderDays, delivered)|
      {
        assert rows[..i + 1][..i] == rows[..i];
        assert rows[i] in rows && rows[i] !in rows[..i];
        var s, sub := rows[i], session.subs[rows[i]];
        var left := sub.expiresAt - session.now;
        SelectedIsNear(sub, session.now, reminderDays);
        OneMoreReminded(before, rows, i, reminderDays, delivered);
        if left > 0 {
          var matched := MatchedDay(left / DAY);
          if matched.Some? {
            var key := Reminder(s, matched.value, DateOf(sub.expiresAt));
            var created := notifications.CreateNotificationIfNotExists(key);
            if created && delivered(s) {
              count := count + 1;
            }
          }
        }
      }
      assert rows[..|rows|] == rows;
      session.Commit();
    }

    /** `check_expired_subscriptions`; the count is of the disable jobs queued. */
    method CheckExpiredSubscriptions() returns (count: nat, rows: seq<Id>)
      requires Valid()
      modifies session
      ensures Distinct(rows)
      ensures forall s ::
                s in rows
                <==> s in old(session.subs) && old(session.subs[s]).status == Active
                     && old(session.subs[s]).expiresAt <= old(session.now)
      ensures session.State() == ExpireAll(old(session.State()), rows) == session.committed
      ensures session.nextId == old(session.nextId) + count
    {
      ghost var before := session.State();
      var now := session.now;
      rows := subRepo.Select((sub: Sub) => IsExpired(sub, now));
      count := 0;
      for i := 0 to |rows|
        invariant session.State() == ExpireAll(before, rows[..i])
        invariant session.subs == before.subs && session.nextId == before.nextId + count
      {
        assert rows[..i + 1][..i] == rows[..i];
        assert rows[i] in rows;
        var s := rows[i];
        if !HasOpenJob(session.jobs, DisablePeer, s) {
          var job := jobRepo.EnqueueJob(DisablePeer, s, SubscriptionExpired);
          var key := ExpiryNotice(s, DateOf(session.subs[s].expiresAt));
          var created := notifications.CreateNotificationIfNotExists(key);
          count := count + 1;
        }
      }
      assert rows[..|rows|] == rows;
      session.Commit();
    }

    /** `cleanup_removed_peers`; the count is of the remove jobs queued. */
    method CleanupRemovedPeers() returns (count: nat, rows: seq<Id>)
      requires Valid()
      modifies session
      ensures Distinct(rows)
      ensures forall s ::
                s in rows
                <==> s in old(session.subs) && old(session.subs[s]).status == Disabled
                     && old(session.subs[s]).disabledAt.Some?
                     && old(session.now) - old(session.subs[s]).disabledAt.value >= graceDays * DAY
      ensures session.State() == CleanUpAll(old(session.State()), rows) == session.committed
      ensures session.nextId == old(session.nextId) + count
    {
      ghost var before := session.State();
      var now, days := session.now, graceDays;
      rows := subRepo.Select((sub: Sub) => PastGrace(sub, now, days));
      count := 0;
      for i := 0 to |rows|
        invariant session.State() == CleanUpAll(before, rows[..i])
        invariant session.subs == before.subs && session.nextId == before.nextId + count
      {
        assert rows[..i + 1][..i] == rows[..i];
        assert rows[i] in rows;
        var s := rows[i];
        if !HasOpenJob(session.jobs, RemovePeer, s) {
          var job := jobRepo.EnqueueJob(RemovePeer, s, GracePeriodExpired);
          count := count + 1;
        }
      }
      assert rows[..|rows|] == rows;
      session.Commit();
    }
  }

  /** A reminder is due to the subscription and was not recorded before. */
  predicate IsNew(w: World, s: Id, days: seq<int>) {
    s in w.subs
    && var due := DueReminder(days, w.subs[s].expiresAt, w.now);
       due.Some? && Reminder(s, due.value, DateOf(w.subs[s].expiresAt)) !in w.sent
  }

  function Reminded(w: World, rows: seq<Id>, days: seq<int>, delivered: Id -> bool): set<Id> {
    set s | s in rows && IsNew(w, s, days) && delivered(s)
  }

  /** All notices since are reminders of these rows. */
  predicate OnlyReminds(before: set<Notice>, sent: set<Notice>, rows: seq<Id>) {
    before <= sent && forall n :: n in sent && n !in before ==> n.Reminder? && n.sub in rows
  }

  lemma OneMoreReminded(w: World, rows: seq<Id>, i: nat, days: seq<int>, delivered: Id -> bool)
    requires i < |rows| && rows[i] !in rows[..i]
    ensures |Reminded(w, rows[..i + 1], days, delivered)|
         == |Reminded(w, rows[..i], days, delivered)| + if IsNew(w, rows[i], days) && delivered(rows[i]) then 1 else 0
  {
    hide IsNew;
    var more := if IsNew(w, rows[i], days) && delivered(rows[i]) then {rows[i]} else {};
    assert rows[..i + 1] == rows[..i] + [rows[i]];
    assert Reminded(w, rows[..i + 1], days, delivered) == Reminded(w, rows[..i], days, delivered) + more;
  }

  /** A selected row is due a reminder exactly when its threshold is found. */
  lemma SelectedIsNear(sub: Sub, now: Time, days: seq<int>)
    requires days != [] && IsExpiring(sub, now, days)
    ensures DueReminder(days, sub.expiresAt, now) == Threshold(days, (sub.expiresAt - now) / DAY)
  {
    hide Threshold;
  }
}
