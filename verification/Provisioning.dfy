/**
 The two halves meet: what the protocol takes a worker's call to do to the peers of the subscriptions is
 what the `vpnctl` command behind it does to the clients on the host, each under its subscription's label.
 */
module Provisioning {
  import opened Wrappers
  import opened Store
  import opened ConfText
  import opened Vpnctl
  import VpnctlPlans
  import VpnctlViews
  import opened VpnctlCards
  import opened VpnctlRefinement

  /** Labels of different subscriptions differ. */
  predicate Distinct(labels: map<Id, string>) {
    forall s, t :: s in labels && t in labels && labels[s] == labels[t] ==> s == t
  }

  /** Every peer of the protocol is a client of its label on the host, on exactly if it is enabled. */
  predicate Matches(peers: map<Id, bool>, clients: map<string, Client>, labels: map<Id, string>) {
    && (forall s :: s in peers ==> s in labels)
    && (forall s :: s in labels ==> (s in peers <==> labels[s] in clients))
    && (forall s :: s in peers ==> peers[s] == clients[labels[s]].enabled)
  }

  /** A label has a client config exactly if it has a client. */
  predicate FilesMatch(files: set<string>, clients: map<string, Client>, labels: map<Id, string>) {
    forall s :: s in labels ==> (labels[s] in files <==> labels[s] in clients)
  }

  // ----- the protocol's side -----

  /** What a successful call leaves of the peers. */
  function Provisioned(peers: map<Id, bool>, kind: JobKind, s: Id): map<Id, bool> {
    match kind
    case CreatePeer => peers[s := if s in peers then peers[s] else true]
    case DisablePeer => if s in peers then peers[s := false] else peers
    case EnablePeer => peers[s := true]
    case RemovePeer => peers - {s}
    case Redeliver => peers
  }

  /** Whether a job's turn gets to call the host. */
  predicate Calls(w: World, job: Job) {
    job.sub in w.subs
    && match job.kind
       case CreatePeer => true
       case DisablePeer => !Renewed(w.subs[job.sub], job, w.now) && w.subs[job.sub].hasPeer
       case RemovePeer => !Renewed(w.subs[job.sub], job, w.now) && w.subs[job.sub].hasPeer
       case EnablePeer => w.subs[job.sub].hasPeer
       case Redeliver => w.subs[job.sub].hasPeer
  }

  /** A turn changes the peers by its one successful call, and not otherwise. */
  lemma TurnProvisions(w: World, j: Id, outcome: Outcome)
    requires j in w.jobs
    ensures var job := w.jobs[j];
            Attempt(w, j, outcome).peers
            == if Calls(w, job) && !outcome.Fails? && (job.kind == EnablePeer ==> job.sub in w.peers)
               then Provisioned(w.peers, job.kind, job.sub) else w.peers
  {
    ProcessProvisions(w, j, outcome);
    hide ProcessJob, FailedJob, Calls, Provisioned;
  }

  lemma ProcessProvisions(w: World, j: Id, outcome: Outcome)
    requires j in w.jobs
    ensures var job := w.jobs[j];
            ProcessJob(w, j, outcome).world.peers
            == if Calls(w, job) && !outcome.Fails? && (job.kind == EnablePeer ==> job.sub in w.peers)
               then Provisioned(w.peers, job.kind, job.sub) else w.peers
  {
    hide Renewed;
  }

  // ----- the host's side -----

  /** The kind of job that sends a command. */
  function KindOf(c: Command): JobKind {
    match c
    case Create(_) => CreatePeer
    case Disable(_) => DisablePeer
    case Enable(_) => EnablePeer
    case Remove(_) => RemovePeer
  }

  lemma StepMatches(m: map<string, Client>, files: set<string>, c: Command, reply: Reply, m': map<string, Client>,
                    peers: map<Id, bool>, s: Id, labels: map<Id, string>)
    requires Distinct(labels) && Matches(peers, m, labels) && s in labels && NameOf(c) == labels[s]
    requires AbstractStep(m, files, c, reply, m') && FilesMatch(files, m, labels)
    ensures Matches(Provisioned(peers, KindOf(c), s), m', labels)
  {
    match c
    case Create(req) => assert s in peers <==> labels[s] in m;
    case Disable(name) =>
    case Enable(name) =>
    case Remove(name) =>
  }

  /** The names of the client configs after a command. */
  function FilesAfterCommand(files: set<string>, c: Command): set<string> {
    match c
    case Create(req) => files + {req.name}
    case Remove(name) => files - {name}
    case _ => files
  }

  lemma StepKeepsFiles(m: map<string, Client>, files: set<string>, c: Command, reply: Reply, m': map<string, Client>,
                       labels: map<Id, string>)
    requires AbstractStep(m, files, c, reply, m') && FilesMatch(files, m, labels)
    ensures FilesMatch(FilesAfterCommand(files, c), m', labels)
  {
  }

  /** Every command, on a disk that is in order, does to the clients what the protocol takes its job to
      do to the peers, or is refused and does nothing; the disk stays in order. */
  lemma CommandProvisions(cfg: Settings, d: Disk, c: Command, peers: map<Id, bool>, s: Id, labels: map<Id, string>)
    requires Lawful(cfg.lib) && Good(cfg, d) && Sound(cfg, d, c) && Distinct(labels) && s in labels
    requires NameOf(c) == labels[s] && Matches(peers, Clients(Read(cfg.lib, d)), labels)
    requires FilesMatch(d.clients.Keys, Clients(Read(cfg.lib, d)), labels)
    ensures var d' := Execute(cfg, d, c);
            && Good(cfg, d') && FilesMatch(d'.clients.Keys, Clients(Read(cfg.lib, d')), labels)
            && Matches(if PlanOf(cfg, d, c).reply.Refused? then peers else Provisioned(peers, KindOf(c), s),
                       Clients(Read(cfg.lib, d')), labels)
  {
    hide *;
    GoodStep(cfg, d, c);
    var d' := Execute(cfg, d, c);
    var m, m' := Clients(Read(cfg.lib, d)), Clients(Read(cfg.lib, d'));
    Refined(cfg, d, c, d');
    if !PlanOf(cfg, d, c).reply.Refused? {
      StepMatches(m, d.clients.Keys, c, PlanOf(cfg, d, c).reply, m', peers, s, labels);
      StepKeepsFiles(m, d.clients.Keys, c, PlanOf(cfg, d, c).reply, m', labels);
      FilesAfter(cfg, d, c);
    }
  }

  lemma GoodIsKept(cfg: Settings, d: Disk)
    requires Good(cfg, d)
    ensures WellKept(cfg.lib, d)
  {
  }

  lemma Refined(cfg: Settings, d: Disk, c: Command, d': Disk)
    requires Refines(cfg, d, c, d')
    ensures PlanOf(cfg, d, c).reply.Refused? ==> d' == d
    ensures !PlanOf(cfg, d, c).reply.Refused? ==>
              AbstractStep(Clients(Read(cfg.lib, d)), d.clients.Keys, c, PlanOf(cfg, d, c).reply,
                           Clients(Read(cfg.lib, d')))
  {
    hide AbstractStep, Clients, Read, PlanOf;
  }

  lemma FilesAfter(cfg: Settings, d: Disk, c: Command)
    requires Lawful(cfg.lib) && Good(cfg, d) && Sound(cfg, d, c) && !PlanOf(cfg, d, c).reply.Refused?
    ensures Execute(cfg, d, c).clients.Keys == FilesAfterCommand(d.clients.Keys, c)
  {
    hide Good, WellKept, Sound, Execute, Read, SavedBlocks, Lawful, Usable, Creates;
    GoodIsKept(cfg, d);
    match c
    case Create(req) => CreateFiles(cfg, d, req);
    case Disable(name) =>
      NameIsIdentifier(cfg, d, c);
      DisableReads(cfg, d, name);
    case Enable(name) => EnableSwitches(cfg, d, name);
    case Remove(name) =>
      NameIsIdentifier(cfg, d, c);
      KeptIsSaved(cfg, d);
      RemoveReads(cfg, d, name);
  }

  lemma CreateFiles(cfg: Settings, d: Disk, req: Request)
    requires Lawful(cfg.lib) && WellKept(cfg.lib, d) && Sound(cfg, d, Create(req))
             && !PlanOf(cfg, d, Create(req)).reply.Refused?
    ensures Execute(cfg, d, Create(req)).clients.Keys == d.clients.Keys + {req.name}
  {
    hide FreeAddress, IsIdentifier, Read, Tidy, FreshKey, SavedBlocks, Render, AppendBlock, Lawful, Usable, DisablePlan,
         EnablePlan, RemovePlan;
    if req.name !in d.clients {
      CreateReads(cfg, d, req, FreeAddress(cfg, d).value);
    } else {
      assert d.clients.Keys + {req.name} == d.clients.Keys;
    }
  }

  lemma EnableSwitches(cfg: Settings, d: Disk, name: string)
    requires WellKept(cfg.lib, d) && !PlanOf(cfg, d, Enable(name)).reply.Refused?
    ensures Execute(cfg, d, Enable(name)).clients == d.clients
  {
    hide WellKept, Execute, PlanOf;
    EnableReply(cfg, d, name);
    EnableReads(cfg, d, name);
  }

  lemma KeptIsSaved(cfg: Settings, d: Disk)
    requires WellKept(cfg.lib, d)
    ensures SavedBlocks(d)
  {
  }

  /** An enable is answered "not found", for good, exactly when the client is not on the host: this is
      when the protocol takes an enable job to fail permanently. */
  lemma EnableNotFound(cfg: Settings, d: Disk, name: string)
    requires IsIdentifier(name)
    ensures PlanOf(cfg, d, Enable(name)).reply == Refused(NotFound) <==> name !in Clients(Read(cfg.lib, d))
  {
    hide Views, VpnctlViews.SavedView, VpnctlViews.FindView, FindPeer, GetValue, Lines, UsedAddresses, FirstAddress,
         AppendBlock, IsIdentifier, CreatePlan, DisablePlan, RemovePlan, Clients;
    VpnctlViews.FindConf(cfg.lib, d.conf, name);
    ClientsAt(Read(cfg.lib, d), name);
  }
}
