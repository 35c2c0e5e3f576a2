/** What a worker's turn keeps: a job that finishes with its effects, or fails without any. */
module ProtocolWork {
  import opened Wrappers
  import opened Store
  import opened Protocol
  import opened ProtocolSteps

  function CompletedJob(job: Job): Job {
    job.(status := Succeeded, lockedAt := None, lockedBy := None)
  }

  predicate InWork(w: World, j: Id) {
    j in w.jobs && w.jobs[j].status == Processing
  }

  lemma CompletedWell(jobs: map<Id, Job>, now: Time, j: Id)
    requires Queue(jobs, now) && j in jobs && jobs[j].status == Processing
    ensures MayBecome(jobs, now, j, CompletedJob(jobs[j]))
  {
    assert QueuedWell(jobs[j], now);
  }

  /** A job that is not a create finishes and changes nothing else. */
  lemma CompleteCore(w: World, j: Id)
    requires Core(w) && InWork(w, j) && w.jobs[j].kind != CreatePeer
    ensures Core(MarkCompleted(w, j))
  {
    hide MayBecome, Refs, Queue, Waiting;
    CompletedWell(w.jobs, w.now, j);
    JobCore(w, j, CompletedJob(w.jobs[j]));
  }

  /** A subscription whose order, peer and times stay as they are. */
  lemma SubCore(w: World, s: Id, sub: Sub)
    requires Core(w) && s in w.subs && w.subs[s].hasPeer
    requires SameSub(w.subs[s], sub) && sub.expiresAt == w.subs[s].expiresAt
             && WellFormedSub(sub)
    ensures Core(w.(subs := w.subs[s := sub]))
  {
    hide Queue, OneCreateJob, Waiting, Effective, OrderFollows, ExpiryJobs, OpenOnce, Paid;
    WaitingSub(w.subs, w.jobs, s);
    SubWaiting(w.subs, w.jobs, s, sub);
    SubSamePaid(w.subs, w.grants, s, sub);
    SubSameEffective(w.orders, w.subs, w.grants, s, sub);
    SubFollows(w.orders, w.subs, s, sub);
    assert w.subs[s := sub].Keys == w.subs.Keys;
  }

  lemma PeersCore(w: World, peers: map<Id, bool>)
    requires Core(w) && forall s :: s in peers ==> s in w.subs
    ensures Core(w.(peers := peers))
  {
    hide Queue, OneCreateJob, Waiting, Effective, OrderFollows, ExpiryJobs, OpenOnce, Paid;
  }

  // ----- the peers -----

  /** After a disable, or a remove, of one subscription's peer: the others are served as before. */
  lemma OffServed(subs: map<Id, Sub>, peers: map<Id, bool>, jobs: map<Id, Job>, s: Id, sub: Sub, peers': map<Id, bool>)
    requires Served(subs, peers, jobs) && s in subs && sub.hasPeer && sub.status != Active
    requires sub.removedAt.None? ==> (s in peers' <==> s in peers) && subs[s].removedAt.None? && subs[s].hasPeer
    requires forall t :: t != s ==> (t in peers' <==> t in peers) && (t in peers ==> peers'[t] == peers[t])
    ensures Served(subs[s := sub], peers', jobs)
  {
  }

  lemma OnServed(subs: map<Id, Sub>, peers: map<Id, bool>, jobs: map<Id, Job>, s: Id, sub: Sub)
    requires Served(subs, peers, jobs) && s in subs && sub.hasPeer
    ensures Served(subs[s := sub], peers[s := true], jobs)
  {
  }

  // ----- the five kinds of job -----

  lemma SkipKeeps(w: World, j: Id)
    requires Inv(w) && InWork(w, j) && w.jobs[j].kind != CreatePeer
    requires var s := w.jobs[j].sub; w.jobs[j].kind == EnablePeer ==> s !in w.peers || w.peers[s]
    ensures Inv(MarkCompleted(w, j))
  {
    hide Core;
    CompleteCore(w, j);
    JobServed(w.subs, w.peers, w.jobs, j, CompletedJob(w.jobs[j]));
  }

  lemma DisableKeeps(w: World, j: Id)
    requires Inv(w) && InWork(w, j) && w.jobs[j].kind == DisablePeer && w.jobs[j].sub in w.subs
             && w.subs[w.jobs[j].sub].hasPeer
    ensures var s := w.jobs[j].sub;
            Inv(MarkCompleted(w.(peers := if s in w.peers then w.peers[s := false] else w.peers,
                                 subs := w.subs[s := w.subs[s].(status := Disabled, disabledAt := Some(w.now))]), j))
  {
    hide Core, Served;
    var s := w.jobs[j].sub;
    var sub := w.subs[s].(status := Disabled, disabledAt := Some(w.now));
    var peers := if s in w.peers then w.peers[s := false] else w.peers;
    SubCore(w, s, sub);
    PeersKnown(w);
    PeersCore(w.(subs := w.subs[s := sub]), peers);
    OffServed(w.subs, w.peers, w.jobs, s, sub, peers);
    SkipKeeps(w.(subs := w.subs[s := sub], peers := peers), j);
  }

  lemma PeersKnown(w: World)
    requires Core(w)
    ensures forall s :: s in w.peers ==> s in w.subs
    ensures forall j :: j in w.jobs ==> w.jobs[j].sub in w.subs
  {
  }

  lemma RemoveKeeps(w: World, j: Id)
    requires Inv(w) && InWork(w, j) && w.jobs[j].kind == RemovePeer && w.jobs[j].sub in w.subs
             && w.subs[w.jobs[j].sub].hasPeer
    ensures var s := w.jobs[j].sub;
            Inv(MarkCompleted(w.(peers := w.peers - {s},
                                 subs := w.subs[s := w.subs[s].(status := Expired, removedAt := Some(w.now))]), j))
  {
    hide Core, Served;
    var s := w.jobs[j].sub;
    var sub := w.subs[s].(status := Expired, removedAt := Some(w.now));
    SubCore(w, s, sub);
    PeersKnown(w);
    PeersCore(w.(subs := w.subs[s := sub]), w.peers - {s});
    OffServed(w.subs, w.peers, w.jobs, s, sub, w.peers - {s});
    SkipKeeps(w.(subs := w.subs[s := sub], peers := w.peers - {s}), j);
  }

  lemma EnableKeeps(w: World, j: Id)
    requires Inv(w) && InWork(w, j) && w.jobs[j].kind == EnablePeer && w.jobs[j].sub in w.peers
    ensures Inv(MarkCompleted(w.(peers := w.peers[w.jobs[j].sub := true]), j))
  {
    hide Core, Served;
    var s := w.jobs[j].sub;
    PeersKnown(w);
    PeersCore(w, w.peers[s := true]);
    ServedSub(w.subs, w.peers, w.jobs, s);
    OnServed(w.subs, w.peers, w.jobs, s, w.subs[s]);
    assert w.subs[s := w.subs[s]] == w.subs;
    SkipKeeps(w.(peers := w.peers[s := true]), j);
  }

  lemma ServedSub(subs: map<Id, Sub>, peers: map<Id, bool>, jobs: map<Id, Job>, s: Id)
    requires Served(subs, peers, jobs) && s in subs
    ensures s in peers ==> subs[s].hasPeer
  {
  }

  lemma RedeliverKeeps(w: World, j: Id)
    requires Inv(w) && InWork(w, j) && w.jobs[j].kind == Redeliver && w.jobs[j].sub in w.subs
             && w.subs[w.jobs[j].sub].hasPeer
    ensures var s := w.jobs[j].sub;
            Inv(MarkCompleted(w.(subs := w.subs[s := w.subs[s].(delivery := Delivered,
                                                                redeliveries := w.subs[s].redeliveries + 1)]), j))
  {
    hide Core, Served;
    var s := w.jobs[j].sub;
    var sub := w.subs[s].(delivery := Delivered, redeliveries := w.subs[s].redeliveries + 1);
    PeerStatus(w, s);
    SubCore(w, s, sub);
    ServedSub(w.subs, w.peers, w.jobs, s);
    SameServed(w.subs, w.peers, w.jobs, s, sub);
    SkipKeeps(w.(subs := w.subs[s := sub]), j);
  }

  lemma PeerStatus(w: World, s: Id)
    requires Core(w) && s in w.subs
    ensures WellFormedSub(w.subs[s])
  {
  }

  lemma SameServed(subs: map<Id, Sub>, peers: map<Id, bool>, jobs: map<Id, Job>, s: Id, sub: Sub)
    requires Served(subs, peers, jobs) && s in subs
    requires sub.hasPeer == subs[s].hasPeer && sub.removedAt == subs[s].removedAt && sub.status == subs[s].status
    ensures Served(subs[s := sub], peers, jobs)
  {
  }

  // ----- create -----

  lemma CreateWaiting(subs: map<Id, Sub>, jobs: map<Id, Job>, s: Id, sub: Sub, j: Id, job: Job)
    requires Waiting(subs, jobs) && OneCreateJob(subs.Keys, jobs) && s in subs && IsCreateJob(jobs, j, s)
    requires SameTask(jobs[j], job) && job.status == Succeeded && WellFormedSub(sub) && sub.hasPeer
    ensures Waiting(subs[s := sub], jobs[j := job])
  {
    var jobs', subs' := jobs[j := job], subs[s := sub];
    forall i, t | IsCreateJob(jobs', i, t) && t in subs'
      ensures jobs'[i].status == Succeeded <==> subs'[t].hasPeer
    {
      assert IsCreateJob(jobs, i, t);
    }
  }

  lemma CreateEffective(orders: map<Id, Order>, subs: map<Id, Sub>, grants: seq<Grant>, s: Id, sub: Sub)
    requires Effective(orders, subs, grants) && s in subs && sub.order == subs[s].order && sub.order in orders
    requires orders[sub.order].status == OrderProvisioning
    ensures Effective(orders[sub.order := orders[sub.order].(status := Fulfilled)], subs[s := sub], grants)
  {
    SubSameEffective(orders, subs, grants, s, sub);
    hide Effects;
  }

  lemma CreateFollows(orders: map<Id, Order>, subs: map<Id, Sub>, s: Id, sub: Sub)
    requires OrderFollows(orders, subs) && s in subs && sub.order == subs[s].order && sub.order in orders
    requires sub.status != Provisioning
    requires forall t :: t in subs && subs[t].order == sub.order ==> t == s
    ensures OrderFollows(orders[sub.order := orders[sub.order].(status := Fulfilled)], subs[s := sub])
  {
    forall o
      ensures HasOwnSub(subs[s := sub], o) == HasOwnSub(subs, o)
    {
      SameOwners(subs, s, sub, o);
    }
  }

  /** A create job in work: its subscription waits, and so does its order. */
  lemma CreateWaits(w: World, j: Id)
    requires Core(w) && InWork(w, j) && w.jobs[j].kind == CreatePeer
    ensures var s := w.jobs[j].sub;
            && s in w.subs && w.subs[s].order in w.orders && IsCreateJob(w.jobs, j, s)
            && w.subs[s].status == Provisioning && !w.subs[s].hasPeer && w.subs[s].removedAt.None?
            && w.orders[w.subs[s].order].status == OrderProvisioning
            && forall t :: t in w.subs && w.subs[t].order == w.subs[s].order ==> t == s
  {
    hide Queue, OneCreateJob, ExpiryJobs, OpenOnce, Paid, Effects;
    assert IsCreateJob(w.jobs, j, w.jobs[j].sub);
    assert WellFormedSub(w.subs[w.jobs[j].sub]);
  }

  /** ... and its peer is not on the host. */
  lemma CreatePending(w: World, j: Id)
    requires Inv(w) && InWork(w, j) && w.jobs[j].kind == CreatePeer
    ensures var s := w.jobs[j].sub;
            && s in w.subs && w.subs[s].order in w.orders && IsCreateJob(w.jobs, j, s)
            && w.subs[s].status == Provisioning && !w.subs[s].hasPeer && w.subs[s].removedAt.None? && s !in w.peers
            && w.orders[w.subs[s].order].status == OrderProvisioning
            && forall t :: t in w.subs && w.subs[t].order == w.subs[s].order ==> t == s
  {
    CreateWaits(w, j);
    hide Core;
  }

  function CreatedSub(sub: Sub, delivered: bool): Sub {
    sub.(status := Active, hasPeer := true, delivery := if delivered then Delivered else DeliveryFailed)
  }

  /** The writes of a create job that works. */
  function CreateDone(w: World, j: Id, delivered: bool): World
    requires j in w.jobs && w.jobs[j].sub in w.subs && w.subs[w.jobs[j].sub].order in w.orders
  {
    var s := w.jobs[j].sub;
    var o := w.subs[s].order;
    w.(peers := w.peers[s := true],
       subs := w.subs[s := CreatedSub(w.subs[s], delivered)],
       orders := w.orders[o := w.orders[o].(status := Fulfilled)],
       jobs := w.jobs[j := CompletedJob(w.jobs[j])])
  }

  lemma CreateKeeps(w: World, j: Id, delivered: bool)
    requires Inv(w) && InWork(w, j) && w.jobs[j].kind == CreatePeer
    ensures w.jobs[j].sub in w.subs && w.subs[w.jobs[j].sub].order in w.orders && Inv(CreateDone(w, j, delivered))
  {
    hide Queue, OneCreateJob, Waiting, Effective, OrderFollows, ExpiryJobs, OpenOnce, Paid, Served, IsCreateJob,
         MayBecome;
    CreatePending(w, j);
    var s := w.jobs[j].sub;
    var o, sub, job := w.subs[s].order, CreatedSub(w.subs[s], delivered), CompletedJob(w.jobs[j]);
    CompletedWell(w.jobs, w.now, j);
    CompletedQueue(w.jobs, w.now, j);
    JobCreate(w.subs.Keys, w.jobs, j, job);
    CreateWaiting(w.subs, w.jobs, s, sub, j, job);
    CreateEffective(w.orders, w.subs, w.grants, s, sub);
    CreateFollows(w.orders, w.subs, s, sub);
    JobOnce(w.jobs, w.now, j, job);
    SubSamePaid(w.subs, w.grants, s, sub);
    OnServed(w.subs, w.peers, w.jobs, s, sub);
    JobServed(w.subs[s := sub], w.peers[s := true], w.jobs, j, job);
    assert w.subs[s := sub].Keys == w.subs.Keys;
  }

  lemma CompletedQueue(jobs: map<Id, Job>, now: Time, j: Id)
    requires Queue(jobs, now) && j in jobs && jobs[j].status == Processing
    ensures Queue(jobs[j := CompletedJob(jobs[j])], now)
  {
    assert QueuedWell(jobs[j], now);
  }

  // ----- a whole turn -----

  /** A turn that raises leaves the peers alone, unless something broke after the call. */
  lemma RaisedPeers(w: World, j: Id, outcome: Outcome)
    requires !outcome.BreaksAfter? && ProcessJob(w, j, outcome).raised.Some?
    ensures ProcessJob(w, j, outcome).world == w
  {
  }

  lemma AttemptKeeps(w: World, j: Id, outcome: Outcome)
    requires Inv(w) && InWork(w, j) && !outcome.BreaksAfter?
    ensures Inv(Attempt(w, j, outcome))
  {
    var p := ProcessJob(w, j, outcome);
    PeersKnown(w);
    if p.raised.Some? {
      RaisedPeers(w, j, outcome);
      assert w.(peers := p.world.peers) == w;
      FailKeeps(w, j, !p.raised.value);
    } else {
      WorksKeeps(w, j, outcome);
    }
  }

  lemma WorksKeeps(w: World, j: Id, outcome: Outcome)
    requires Inv(w) && InWork(w, j) && !outcome.BreaksAfter? && ProcessJob(w, j, outcome).raised.None?
    ensures Inv(MarkCompleted(ProcessJob(w, j, outcome).world, j))
  {
    hide Inv, Core;
    var job := w.jobs[j];
    var s := job.sub;
    match job.kind
    case CreatePeer =>
      CreatePending(w, j);
      CreateKeeps(w, j, outcome.delivered);
      assert MarkCompleted(ProcessJob(w, j, outcome).world, j) == CreateDone(w, j, outcome.delivered);
    case DisablePeer =>
      if s in w.subs && !Renewed(w.subs[s], job, w.now) && w.subs[s].hasPeer {
        DisableKeeps(w, j);
      } else {
        SkipKeeps(w, j);
      }
    case RemovePeer =>
      if s in w.subs && !Renewed(w.subs[s], job, w.now) && w.subs[s].hasPeer {
        RemoveKeeps(w, j);
      } else {
        SkipKeeps(w, j);
      }
    case EnablePeer =>
      if s in w.subs && w.subs[s].hasPeer {
        EnableKeeps(w, j);
      } else {
        NoPeer(w, s);
        SkipKeeps(w, j);
      }
    case Redeliver =>
      if s in w.subs && w.subs[s].hasPeer {
        RedeliverKeeps(w, j);
      } else {
        SkipKeeps(w, j);
      }
  }

  lemma NoPeer(w: World, s: Id)
    requires Inv(w) && (s !in w.subs || !w.subs[s].hasPeer)
    ensures s !in w.peers
  {
    PeersKnown(w);
    hide Core;
  }
}
