/** A database session, its rows changed in place until it commits or rolls back, and the VPN host beside it. */
module Sessions {
  import opened Wrappers
  import opened Store

  class Session {
    var now: Time
    var orders: map<Id, Order>
    var subs: map<Id, Sub>
    var jobs: map<Id, Job>
    var sent: set<Notice>
    var grants: seq<Grant>
    var nextId: Id
    /** Not in the database: a rollback leaves it. */
    var peers: map<Id, bool>
    var committed: World

    constructor (w: World)
      ensures State() == w && committed == w
    {
      now, orders, subs, jobs, sent, grants, nextId, peers :=
        w.now, w.orders, w.subs, w.jobs, w.sent, w.grants, w.nextId, w.peers;
      committed := w;
    }

    function State(): World
      reads this
    {
      World(now, orders, subs, jobs, peers, sent, grants, nextId)
    }

    method Commit()
      modifies `committed
      ensures committed == State()
    {
      committed := State();
    }

    /** Back to the last commit, but for the clock and the peers. */
    method Rollback()
      modifies `orders, `subs, `jobs, `sent, `grants, `nextId
      ensures State() == committed.(now := old(now), peers := old(peers))
    {
      orders, subs, jobs := committed.orders, committed.subs, committed.jobs;
      sent, grants, nextId := committed.sent, committed.grants, committed.nextId;
    }

    method Wait(duration: nat)
      modifies `now
      ensures now == old(now) + duration
    {
      now := now + duration;
    }
  }
}
