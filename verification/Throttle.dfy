/** The rate limiter of `throttling_middleware.py`: a pruned table that decides as an unpruned one would. */
module Throttle {
  import opened Wrappers

  const FORGET_AFTER_SECONDS := 60.0
  const PRUNE_AT_SIZE := 10000

  type Table = map<int, real>

  /** An event from a user, or from none, at a time in seconds. */
  datatype Event = Event(user: Option<int>, now: real)

  function Max(a: real, b: real): real {
    if a < b then b else a
  }

  function Pruned(rate: real, seen: Table, now: real): Table {
    var cutoff := now - Max(FORGET_AFTER_SECONDS, rate);
    map u | u in seen && seen[u] >= cutoff :: seen[u]
  }

  /** Too soon after the last event that was let through. A user not in the table counts as last seen at 0. */
  predicate TooSoon(rate: real, seen: Table, user: int, now: real) {
    now - (if user in seen then seen[user] else 0.0) < rate
  }

  /** The table after an event, and whether the event was let through. */
  function Handled(rate: real, seen: Table, e: Event, prunes: bool): (Table, bool) {
    if e.user.None? then (seen, true)
    else if TooSoon(rate, seen, e.user.value, e.now) then (seen, false)
    else
      var kept := if prunes && |seen| >= PRUNE_AT_SIZE then Pruned(rate, seen, e.now) else seen;
      (kept[e.user.value := e.now], true)
  }

  class ThrottlingMiddleware {
    const rate: real
    var lastSeen: Table

    constructor (rate: real)
      ensures this.rate == rate && lastSeen == map[]
    {
      this.rate := rate;
      lastSeen := map[];
    }

    method Prune(now: real)
      modifies this
      ensures lastSeen == Pruned(rate, old(lastSeen), now)
    {
      var cutoff := now - Max(FORGET_AFTER_SECONDS, rate);
      lastSeen := map u | u in lastSeen && lastSeen[u] >= cutoff :: lastSeen[u];
    }

    /** `__call__`; the event goes on to its handler when `admitted`. */
    method Call(e: Event) returns (admitted: bool)
      modifies this
      ensures (lastSeen, admitted) == Handled(rate, old(lastSeen), e, true)
    {
      if e.user.None? {
        return true;
      }
      var user := e.user.value;
      var last := if user in lastSeen then lastSeen[user] else 0.0;
      if e.now - last < rate {
        return false;
      }
      if |lastSeen| >= PRUNE_AT_SIZE {
        Prune(e.now);
      }
      lastSeen := lastSeen[user := e.now];
      return true;
    }
  }

  // ----- runs -----

  function TableAfter(rate: real, es: seq<Event>, prunes: bool): Table {
    if es == [] then map[] else Handled(rate, TableAfter(rate, es[..|es| - 1], prunes), es[|es| - 1], prunes).0
  }

  /** Whether the last of these events is let through. */
  predicate Admits(rate: real, es: seq<Event>, prunes: bool)
    requires es != []
  {
    Handled(rate, TableAfter(rate, es[..|es| - 1], prunes), es[|es| - 1], prunes).1
  }

  /** The clock never goes back. */
  predicate Clocked(es: seq<Event>) {
    forall i, j :: 0 <= i < j < |es| ==> es[i].now <= es[j].now
  }

  function Now(es: seq<Event>): real
    requires es != []
  {
    es[|es| - 1].now
  }

  /** What is missing from the pruned table is too old to matter. */
  predicate Forgets(rate: real, pruned: Table, full: Table, now: real) {
    && (forall u :: u in pruned ==> u in full && full[u] == pruned[u])
    && (forall u :: u in full ==> rate <= full[u] <= now && (u !in pruned ==> now - full[u] >= rate))
  }

  lemma {:induction false} TablesForget(rate: real, es: seq<Event>)
    requires rate >= 0.0 && Clocked(es) && es != []
    ensures Forgets(rate, TableAfter(rate, es, true), TableAfter(rate, es, false), Now(es))
    ensures Admits(rate, es, true) == Admits(rate, es, false)
  {
    hide Handled;
    var init, e := es[..|es| - 1], es[|es| - 1];
    var pruned, full := TableAfter(rate, init, true), TableAfter(rate, init, false);
    if init == [] {
    } else {
      TablesForget(rate, init);
      assert Now(init) <= e.now;
    }
    assert Forgets(rate, pruned, full, e.now);
    EventForgets(rate, pruned, full, e);
  }

  /** One event keeps the tables so, and is decided alike by both. */
  lemma EventForgets(rate: real, pruned: Table, full: Table, e: Event)
    requires rate >= 0.0 && Forgets(rate, pruned, full, e.now)
    ensures Forgets(rate, Handled(rate, pruned, e, true).0, Handled(rate, full, e, false).0, e.now)
    ensures Handled(rate, pruned, e, true).1 == Handled(rate, full, e, false).1
  {
    if e.user.Some? {
      assert TooSoon(rate, pruned, e.user.value, e.now) == TooSoon(rate, full, e.user.value, e.now);
    }
  }

  /** Whether event number `k` is let through. */
  predicate AdmitsAt(rate: real, es: seq<Event>, k: nat, prunes: bool)
    requires k < |es|
  {
    Admits(rate, es[..k + 1], prunes)
  }

  lemma AdmitsPrefix(rate: real, es: seq<Event>, n: nat, k: nat, prunes: bool)
    requires k < n <= |es|
    ensures AdmitsAt(rate, es[..n], k, prunes) == AdmitsAt(rate, es, k, prunes)
  {
    assert es[..n][..k + 1] == es[..k + 1];
  }

  /** Pruning never changes a decision. */
  lemma PruningDecidesAlike(rate: real, es: seq<Event>, k: nat)
    requires rate >= 0.0 && Clocked(es) && k < |es|
    ensures AdmitsAt(rate, es, k, true) == AdmitsAt(rate, es, k, false)
  {
    TablesForget(rate, es[..k + 1]);
  }

  /** The unpruned table remembers when each user was last let through. */
  lemma {:induction false} FullTableRemembers(rate: real, es: seq<Event>, i: nat, user: int)
    requires rate >= 0.0 && Clocked(es) && i < |es| && es[i].user == Some(user) && AdmitsAt(rate, es, i, false)
    ensures user in TableAfter(rate, es, false) && TableAfter(rate, es, false)[user] >= es[i].now
  {
    if i < |es| - 1 {
      AdmitsPrefix(rate, es, |es| - 1, i, false);
      FullTableRemembers(rate, es[..|es| - 1], i, user);
    } else {
      assert es[..i + 1] == es;
    }
  }

  /** ... and remembers nothing else. */
  lemma {:induction false} FullTableOrigin(rate: real, es: seq<Event>, user: int) returns (i: nat)
    requires rate >= 0.0 && Clocked(es) && user in TableAfter(rate, es, false)
    ensures i < |es| && es[i].user == Some(user) && AdmitsAt(rate, es, i, false)
    ensures es[i].now == TableAfter(rate, es, false)[user]
  {
    if es[|es| - 1].user == Some(user) && Admits(rate, es, false) {
      i := |es| - 1;
      assert es[..i + 1] == es;
    } else {
      i := FullTableOrigin(rate, es[..|es| - 1], user);
      AdmitsPrefix(rate, es, |es| - 1, i, false);
    }
  }

  /** A user's event is let through exactly when the clock has reached the rate limit and every earlier
      event of the user that was let through is at least the rate limit away. */
  lemma AdmitsExactly(rate: real, es: seq<Event>, k: nat, user: int)
    requires rate >= 0.0 && Clocked(es) && k < |es| && es[k].user == Some(user)
    ensures AdmitsAt(rate, es, k, true)
            <==> es[k].now >= rate
                 && forall i :: 0 <= i < k && es[i].user == Some(user) && AdmitsAt(rate, es, i, true)
                                ==> es[k].now - es[i].now >= rate
  {
    var before := es[..k];
    assert es[..k + 1][..k] == before;
    PruningDecidesAlike(rate, es, k);
    TablesForget(rate, es[..k + 1]);
    forall i | 0 <= i < k
      ensures AdmitsAt(rate, es, i, true) == AdmitsAt(rate, before, i, false)
    {
      AdmitsPrefix(rate, es, k, i, false);
      PruningDecidesAlike(rate, es, i);
    }
    if k > 0 {
      TablesForget(rate, before);
    }
    if AdmitsAt(rate, es, k, true) {
      forall i | 0 <= i < k && es[i].user == Some(user) && AdmitsAt(rate, es, i, true)
        ensures es[k].now - es[i].now >= rate
      {
        FullTableRemembers(rate, before, i, user);
      }
    } else if user in TableAfter(rate, before, false) {
      var i := FullTableOrigin(rate, before, user);
      assert before[i] == es[i] && AdmitsAt(rate, es, i, true);
    }
  }

  /** The time since the user was last let through is within a minute and the rate limit, whichever is longer. */
  predicate IsRecent(rate: real, seen: Table, now: real, user: int)
    requires user in seen
  {
    now - seen[user] <= 60.0 || now - seen[user] <= rate
  }

  /** What an event does to the table. An event without a user is let through and leaves no trace, one that is dropped
      leaves none either, and one that is let through is remembered; with ten thousand users in the table it keeps
      exactly those that are recent. */
  lemma EventExactly(rate: real, seen: Table, e: Event)
    ensures var (seen', admitted) := Handled(rate, seen, e, true);
            && (e.user.None? ==> admitted)
            && (e.user.None? || !admitted ==> seen' == seen)
            && (e.user.Some? && admitted ==>
                  && e.user.value in seen' && seen'[e.user.value] == e.now
                  && forall u :: u != e.user.value ==>
                      && (u in seen' <==> u in seen && (|seen| >= 10_000 ==> IsRecent(rate, seen, e.now, u)))
                      && (u in seen' ==> seen'[u] == seen[u]))
  {
  }
}
