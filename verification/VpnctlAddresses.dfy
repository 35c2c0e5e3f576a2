/**
 Addresses are not handed out twice. `vpnctl` commands, whole or stopped after any write, mix with an
 outside script that adds peers and looks only at `awg1.conf`.
 */
module VpnctlAddresses {
  import opened Wrappers
  import opened ConfText
  import opened ConfTextRender
  import opened ConfTextGrammar
  import opened Vpnctl
  import opened VpnctlPlans
  import opened VpnctlViews
  import opened VpnctlRefinement

  // ----- events -----

  /** A command killed after `stop` writes, a command whose write `fault` raises, or the outside
      script leaving its own config text and client files. A large number is a command that finishes. */
  datatype Event =
    | Kill(command: Command, stop: nat)
    | Fault(command: Command, fault: nat)
    | Outside(conf: string, clients: map<string, string>)

  function Next(cfg: Settings, d: Disk, e: Event): Disk {
    match e
    case Kill(c, stop) => Killed(cfg, d, c, stop)
    case Fault(c, fault) => Faulted(cfg, d, c, fault)
    case Outside(conf, clients) => d.(conf := conf, clients := clients)
  }

  /** The outside script adds one peer, at addresses that `awg1.conf` does not use. */
  predicate AddsPeer(lib: IpLib, conf: string, conf': string) {
    var vs, vs' := Views(lib, conf), Views(lib, conf');
    |vs'| == |vs| + 1 && vs'[..|vs|] == vs
    && vs'[|vs|].header == PEER && vs'[|vs|].addresses !! Addresses(lib, Lines(conf))
  }

  ghost predicate Legal(cfg: Settings, d: Disk, e: Event) {
    match e
    case Kill(c, _) => c.Create? ==> Usable(c.req)
    case Fault(c, _) => c.Create? ==> Usable(c.req)
    case Outside(conf, _) => AddsPeer(cfg.lib, d.conf, conf)
  }

  // ----- the files between two writes -----

  function BlockOfRequest(cfg: Settings, req: Request, a: Ip): string {
    Render(req.name, req.publicKey, req.presharedKey, cfg.lib.show(a) + "/32")
  }

  /** The config and saved files that a stopped command can leave behind. */
  ghost predicate Stage(cfg: Settings, d: Disk, c: Command, conf: string, peers: map<string, string>) {
    match c
    case Create(req) =>
      (conf == d.conf && peers == d.peers)
      || exists a :: Creates(cfg, d, req, a) && peers == d.peers[req.name := BlockOfRequest(cfg, req, a)]
                     && (conf == d.conf || conf == AppendBlock(d.conf, BlockOfRequest(cfg, req, a)))
    case Disable(name) =>
      (conf == d.conf && peers == d.peers)
      || (FindPeer(d.conf, name).Some? && (conf == d.conf || conf == WithoutPeer(d.conf, name))
          && (peers == d.peers
              || (name !in d.peers
                  && peers == d.peers[name := RStripNewlines(Join(FindPeer(d.conf, name).value.lines)) + "\n"])))
    case Enable(name) =>
      peers == d.peers
      && (conf == d.conf
          || (FindPeer(d.conf, name).None? && name in d.peers && Restorable(cfg.lib, d, name)
              && conf == AppendBlock(d.conf, RStripNewlines(d.peers[name]) + "\n")))
    case Remove(name) =>
      (conf == d.conf || conf == WithoutPeer(d.conf, name)) && (peers == d.peers || peers == d.peers - {name})
  }

  /** What `enable-peer` checks before it puts a saved block back: its first address is not in use. */
  predicate Restorable(lib: IpLib, d: Disk, name: string)
    requires name in d.peers
  {
    var ips := GetValue(Lines(d.peers[name]), ALLOWED_IPS);
    ips.Some? && FirstAddress(lib, ips.value).Some?
    && FirstAddress(lib, ips.value).value !in Addresses(lib, Lines(d.conf))
  }

  lemma CreateStage(cfg: Settings, d: Disk, req: Request, stop: nat)
    ensures Stage(cfg, d, Create(req), Killed(cfg, d, Create(req), stop).conf, Killed(cfg, d, Create(req), stop).peers)
  {
    hide Render, AppendBlock, FreeAddress;
    var ws := PlanOf(cfg, d, Create(req)).writes;
    Unroll(d, ws);
    if ws != [] {
      var a := FreeAddress(cfg, d).value;
      assert Creates(cfg, d, req, a);
      assert ws == CreateWrites(d, req, cfg.lib.show(a) + "/32");
      assert ws[1] == PutPeer(req.name, BlockOfRequest(cfg, req, a));
      assert ws[2] == PutConf(AppendBlock(d.conf, BlockOfRequest(cfg, req, a)));
    }
  }

  lemma {:induction false} DisablingWrites(d: Disk, ws: seq<Write>, name: string, saved: string, conf: string)
    requires forall w :: w in ws ==> w in {PutConf(conf), PutPeer(name, saved)} || w.DropLive?
    ensures ApplyAll(d, ws).conf in {d.conf, conf} && ApplyAll(d, ws).peers in {d.peers, d.peers[name := saved]}
    ensures PutPeer(name, saved) !in ws ==> ApplyAll(d, ws).peers == d.peers
    decreases ws
  {
    if ws == [] {
    } else {
      DisablingWrites(Apply(d, ws[0]), ws[1..], name, saved, conf);
      assert d.peers[name := saved][name := saved] == d.peers[name := saved];
    }
  }

  lemma DisableStage(cfg: Settings, d: Disk, name: string, stop: nat)
    ensures Stage(cfg, d, Disable(name), Killed(cfg, d, Disable(name), stop).conf,
                  Killed(cfg, d, Disable(name), stop).peers)
  {
    hide GetValue, FindPeer, WithoutPeer, RStripNewlines, Join, IsIdentifier, CreatePlan, EnablePlan, RemovePlan;
    var ws := PlanOf(cfg, d, Disable(name)).writes;
    if ws == [] {
    } else {
      var saved := RStripNewlines(Join(FindPeer(d.conf, name).value.lines)) + "\n";
      DisablingWrites(d, if stop < |ws| then ws[..stop] else ws, name, saved, WithoutPeer(d.conf, name));
    }
  }

  lemma EnableStage(cfg: Settings, d: Disk, name: string, stop: nat)
    ensures Stage(cfg, d, Enable(name), Killed(cfg, d, Enable(name), stop).conf,
                  Killed(cfg, d, Enable(name), stop).peers)
  {
    hide GetValue, Lines, FindPeer, AppendBlock, RStripNewlines, FirstAddress, Addresses;
    Unroll(d, PlanOf(cfg, d, Enable(name)).writes);
  }

  lemma {:induction false} RemovingWrites(d: Disk, ws: seq<Write>, name: string, conf: string)
    requires forall w :: w in ws ==> w in {PutConf(conf), DeleteClient(name), DeletePeer(name)} || w.DropLive?
    ensures ApplyAll(d, ws).conf in {d.conf, conf} && ApplyAll(d, ws).peers in {d.peers, d.peers - {name}}
    decreases ws
  {
    if ws == [] {
    } else {
      RemovingWrites(Apply(d, ws[0]), ws[1..], name, conf);
      assert d.peers - {name} - {name} == d.peers - {name};
    }
  }

  lemma RemoveStage(cfg: Settings, d: Disk, name: string, stop: nat)
    ensures Stage(cfg, d, Remove(name), Killed(cfg, d, Remove(name), stop).conf,
                  Killed(cfg, d, Remove(name), stop).peers)
  {
    hide GetValue, Lines, FindPeer, WithoutPeer, KeyToRemove;
    var ws := PlanOf(cfg, d, Remove(name)).writes;
    RemovingWrites(d, if stop < |ws| then ws[..stop] else ws, name, WithoutPeer(d.conf, name));
  }

  lemma KilledStage(cfg: Settings, d: Disk, c: Command, stop: nat)
    ensures Stage(cfg, d, c, Killed(cfg, d, c, stop).conf, Killed(cfg, d, c, stop).peers)
  {
    hide Stage, Killed;
    match c
    case Create(req) => CreateStage(cfg, d, req, stop);
    case Disable(name) => DisableStage(cfg, d, name, stop);
    case Enable(name) => EnableStage(cfg, d, name, stop);
    case Remove(name) => RemoveStage(cfg, d, name, stop);
  }

  lemma NextStage(cfg: Settings, d: Disk, e: Event)
    requires !e.Outside?
    ensures Stage(cfg, d, e.command, Next(cfg, d, e).conf, Next(cfg, d, e).peers)
  {
    match e
    case Kill(c, stop) => KilledStage(cfg, d, c, stop);
    case Fault(c, fault) => KilledStage(cfg, d, c, fault);
  }

  // ----- no two blocks share an address -----

  /** No two peer blocks of the config share an address, and every saved file is one block. */
  predicate Unshared(lib: IpLib, d: Disk) {
    SavedBlocks(d) && ConfUnshared(lib, d.conf)
  }

  predicate ConfUnshared(lib: IpLib, conf: string) {
    Pairwise(Views(lib, conf), AddressesApart)
  }

  /** An enable that gets to put a saved block back finds none of its addresses with a peer. The program
      checks the first address only; `EnableKeepsApart` shows that this is what keeps the blocks apart. */
  predicate RestoresApart(lib: IpLib, d: Disk, c: Command) {
    c.Enable? && c.name in d.peers && FindPeer(d.conf, c.name).None? && Restorable(lib, d, c.name) ==>
      SavedView(lib, d.peers[c.name]).addresses !! PeerAddresses(Views(lib, d.conf))
  }

  predicate EventRestoresApart(lib: IpLib, d: Disk, e: Event) {
    !e.Outside? ==> RestoresApart(lib, d, e.command)
  }

  lemma AppendUnshared(lib: IpLib, vs: seq<View>, v: View)
    requires Pairwise(vs, AddressesApart) && v.addresses !! ViewAddresses(vs)
    ensures Pairwise(vs + [v], AddressesApart)
  {
    forall w | w in vs
      ensures AddressesApart(w, v)
    {
      AddressMember(vs, w);
    }
    PairwiseAppend(vs, v, AddressesApart);
  }

  lemma DropUnshared(lib: IpLib, conf: string, name: string)
    requires Pairwise(Views(lib, conf), AddressesApart)
    ensures Pairwise(Views(lib, WithoutPeer(conf, name)), AddressesApart)
    ensures forall v :: v in Views(lib, WithoutPeer(conf, name)) ==> v in Views(lib, conf)
  {
    WithoutViews(lib, conf, name);
    PairwiseDrop(Views(lib, conf), name, AddressesApart);
    DropMembers(Views(lib, conf), name);
  }

  lemma CreateUnshared(cfg: Settings, d: Disk, req: Request, a: Ip)
    requires Lawful(cfg.lib) && Usable(req) && Unshared(cfg.lib, d) && Creates(cfg, d, req, a)
    ensures var block := BlockOfRequest(cfg, req, a);
            ConfUnshared(cfg.lib, AppendBlock(d.conf, block)) && SavedBlocks(d.(peers := d.peers[req.name := block]))
  {
    hide Render, AppendBlock, IsBlock, FirstAddress, SavedView, Views, Pairwise, FreeAddress, UsedAddresses,
         RStripNewlines, ValueAddresses, Prints, Lawful;
    var lib := cfg.lib;
    FreePrints(cfg, d, a);
    NewBlock(lib, d.conf, req, a);
    FreeIsUnused(cfg, d, a);
    AppendUnshared(lib, Views(lib, d.conf), NewView(lib, req, a));
  }

  lemma FreeIsUnused(cfg: Settings, d: Disk, a: Ip)
    requires FreeAddress(cfg, d) == Some(a)
    ensures a !in UsedAddresses(cfg.lib, d, true) && a !in ViewAddresses(Views(cfg.lib, d.conf))
  {
    ConfAddresses(cfg.lib, d.conf);
  }

  lemma DisableUnshared(lib: IpLib, d: Disk, name: string)
    requires Unshared(lib, d) && FindPeer(d.conf, name).Some?
    ensures var saved := RStripNewlines(Join(FindPeer(d.conf, name).value.lines)) + "\n";
            ConfUnshared(lib, WithoutPeer(d.conf, name)) && SavedBlocks(d.(peers := d.peers[name := saved]))
  {
    hide IsBlock, SavedView, Views, Pairwise, WithoutPeer, FindPeer, FindView, RStripNewlines, Join;
    SaveBlock(lib, d.conf, name);
    DropUnshared(lib, d.conf, name);
  }

  lemma EnableUnshared(lib: IpLib, d: Disk, name: string)
    requires Unshared(lib, d) && name in d.peers
    requires SavedView(lib, d.peers[name]).addresses !! PeerAddresses(Views(lib, d.conf))
    ensures ConfUnshared(lib, AppendBlock(d.conf, RStripNewlines(d.peers[name]) + "\n"))
  {
    hide AppendBlock, IsBlock, SavedView, Views, Pairwise, RStripNewlines;
    SavedIsPeer(lib, d, name);
    PairwiseAppendIff(Views(lib, d.conf), SavedView(lib, d.peers[name]));
  }

  lemma StageUnshared(cfg: Settings, d: Disk, c: Command, d': Disk)
    requires Lawful(cfg.lib) && Unshared(cfg.lib, d) && (c.Create? ==> Usable(c.req)) && RestoresApart(cfg.lib, d, c)
    requires Stage(cfg, d, c, d'.conf, d'.peers)
    ensures Unshared(cfg.lib, d')
  {
    hide GetValue, Lines, FindPeer, WithoutPeer, Render, AppendBlock, RStripNewlines, FreeAddress, FirstAddress,
         Addresses, Join, Views, IsBlock, SavedView, Pairwise, Usable, Lawful, Restorable, Creates, PeerAddresses;
    match c
    case Create(req) =>
      if !(d'.conf == d.conf && d'.peers == d.peers) {
        var a :| Creates(cfg, d, req, a) && d'.peers == d.peers[req.name := BlockOfRequest(cfg, req, a)]
                 && (d'.conf == d.conf || d'.conf == AppendBlock(d.conf, BlockOfRequest(cfg, req, a)));
        CreateUnshared(cfg, d, req, a);
      }
    case Disable(name) =>
      if FindPeer(d.conf, name).Some? {
        DisableUnshared(cfg.lib, d, name);
      }
    case Enable(name) =>
      if d'.conf != d.conf {
        EnableUnshared(cfg.lib, d, name);
      }
    case Remove(name) =>
      DropUnshared(cfg.lib, d.conf, name);
  }

  lemma OutsideUnshared(lib: IpLib, d: Disk, conf: string)
    requires Unshared(lib, d) && AddsPeer(lib, d.conf, conf)
    ensures ConfUnshared(lib, conf)
  {
    var vs, vs' := Views(lib, d.conf), Views(lib, conf);
    var v := vs'[|vs|];
    assert vs' == vs + [v];
    ConfAddresses(lib, d.conf);
    hide Views, Pairwise, IsBlock;
    AppendUnshared(lib, vs, v);
  }

  function RunEvents(cfg: Settings, d: Disk, es: seq<Event>): Disk
    decreases es
  {
    if es == [] then d else RunEvents(cfg, Next(cfg, d, es[0]), es[1..])
  }

  ghost predicate LegalRun(cfg: Settings, d: Disk, es: seq<Event>)
    decreases es
  {
    es == [] || (Legal(cfg, d, es[0]) && LegalRun(cfg, Next(cfg, d, es[0]), es[1..]))
  }

  ghost predicate RunRestoresApart(cfg: Settings, d: Disk, es: seq<Event>)
    decreases es
  {
    es == [] || (EventRestoresApart(cfg.lib, d, es[0]) && RunRestoresApart(cfg, Next(cfg, d, es[0]), es[1..]))
  }

  lemma StepUnshared(cfg: Settings, d: Disk, e: Event)
    requires Lawful(cfg.lib) && Unshared(cfg.lib, d) && Legal(cfg, d, e) && EventRestoresApart(cfg.lib, d, e)
    ensures Unshared(cfg.lib, Next(cfg, d, e))
  {
    hide ConfUnshared, RestoresApart, Killed, Faulted, AddsPeer, Stage;
    if e.Outside? {
      OutsideUnshared(cfg.lib, d, e.conf);
    } else {
      NextStage(cfg, d, e);
      StageUnshared(cfg, d, e.command, Next(cfg, d, e));
    }
  }

  /** In every run that mixes the commands, stopped anywhere, with outside additions, no two peer blocks of
      the config ever share an address, as long as no enable puts a block back on an address that a peer has. */
  lemma {:induction false} RunUnshared(cfg: Settings, d: Disk, es: seq<Event>)
    requires Lawful(cfg.lib) && Unshared(cfg.lib, d) && LegalRun(cfg, d, es) && RunRestoresApart(cfg, d, es)
    ensures Unshared(cfg.lib, RunEvents(cfg, d, es))
    decreases es
  {
    hide Unshared, Next, Legal, EventRestoresApart;
    if es == [] {
    } else {
      StepUnshared(cfg, d, es[0]);
      RunUnshared(cfg, Next(cfg, d, es[0]), es[1..]);
    }
  }

  // ----- blocks with one address -----

  /** Its `AllowedIPs` is a single address. */
  predicate SingleAddress(lib: IpLib, v: View) {
    v.allowedIps.Some? && FirstAddress(lib, v.allowedIps.value).Some?
    && v.addresses == {FirstAddress(lib, v.allowedIps.value).value}
  }

  /** Every named and every saved block has a single address, as those that `create-peer` writes do. */
  predicate Singles(lib: IpLib, d: Disk) {
    ConfSingle(lib, d.conf) && SavedSingle(lib, d.peers)
  }

  predicate ConfSingle(lib: IpLib, conf: string) {
    forall v :: v in Views(lib, conf) && v.header == PEER && v.name.Some? ==> SingleAddress(lib, v)
  }

  predicate SavedSingle(lib: IpLib, peers: map<string, string>) {
    forall n :: n in peers ==> SingleAddress(lib, SavedView(lib, peers[n]))
  }

  /** The outside script adds single addresses, too. */
  predicate AddsSingle(lib: IpLib, e: Event) {
    e.Outside? ==> ConfSingle(lib, e.conf)
  }

  lemma SinglesRestoreApart(lib: IpLib, d: Disk, c: Command)
    requires SavedBlocks(d) && SavedSingle(lib, d.peers)
    ensures RestoresApart(lib, d, c)
  {
    hide SavedBlocks, Restorable, SavedView, Views, FindPeer;
    if c.Enable? && c.name in d.peers && Restorable(lib, d, c.name) {
      SingleRestoresApart(lib, d, c.name);
    }
  }

  lemma SingleRestoresApart(lib: IpLib, d: Disk, name: string)
    requires name in d.peers && SingleAddress(lib, SavedView(lib, d.peers[name])) && Restorable(lib, d, name)
    ensures SavedView(lib, d.peers[name]).addresses !! PeerAddresses(Views(lib, d.conf))
  {
    hide FirstAddress, Views, GetValue, Lines, Addresses;
    ConfAddresses(lib, d.conf);
    PeersAmongAll(Views(lib, d.conf));
  }

  lemma {:induction false} PeersAmongAll(vs: seq<View>)
    ensures PeerAddresses(vs) <= ViewAddresses(vs)
  {
    if vs == [] {
    } else {
      PeersAmongAll(vs[1..]);
    }
  }

  lemma StageSingle(cfg: Settings, d: Disk, c: Command, d': Disk)
    requires Lawful(cfg.lib) && SavedBlocks(d) && Singles(cfg.lib, d) && (c.Create? ==> Usable(c.req))
    requires Stage(cfg, d, c, d'.conf, d'.peers)
    ensures Singles(cfg.lib, d')
  {
    hide GetValue, Lines, FindPeer, WithoutPeer, Render, AppendBlock, RStripNewlines, FreeAddress, FirstAddress,
         Addresses, Join, Views, IsBlock, SavedView, Usable, Lawful, Prints, Restorable, Creates, SingleAddress,
         FindView, DropViews;
    var lib := cfg.lib;
    match c
    case Create(req) =>
      if !(d'.conf == d.conf && d'.peers == d.peers) {
        var a :| Creates(cfg, d, req, a) && d'.peers == d.peers[req.name := BlockOfRequest(cfg, req, a)]
                 && (d'.conf == d.conf || d'.conf == AppendBlock(d.conf, BlockOfRequest(cfg, req, a)));
        CreateSingle(cfg, d, req, a);
      }
    case Disable(name) =>
      if FindPeer(d.conf, name).Some? {
        SaveBlock(lib, d.conf, name);
        FindMember(Views(lib, d.conf), name);
      }
      WithoutViews(lib, d.conf, name);
      DropMembers(Views(lib, d.conf), name);
    case Enable(name) =>
      if d'.conf != d.conf {
        SavedIsPeer(lib, d, name);
      }
    case Remove(name) =>
      WithoutViews(lib, d.conf, name);
      DropMembers(Views(lib, d.conf), name);
  }

  lemma CreateSingle(cfg: Settings, d: Disk, req: Request, a: Ip)
    requires Lawful(cfg.lib) && Usable(req) && Singles(cfg.lib, d) && Creates(cfg, d, req, a)
    ensures var block := BlockOfRequest(cfg, req, a);
            ConfSingle(cfg.lib, AppendBlock(d.conf, block)) && SavedSingle(cfg.lib, d.peers[req.name := block])
  {
    hide Render, AppendBlock, IsBlock, FirstAddress, SavedView, Views, FreeAddress, RStripNewlines, ValueAddresses,
         Prints, Lawful;
    FreePrints(cfg, d, a);
    NewBlock(cfg.lib, d.conf, req, a);
    OneAddress(cfg.lib, a);
  }

  lemma StepSingle(cfg: Settings, d: Disk, e: Event)
    requires Lawful(cfg.lib) && SavedBlocks(d) && Singles(cfg.lib, d) && Legal(cfg, d, e) && AddsSingle(cfg.lib, e)
    ensures EventRestoresApart(cfg.lib, d, e) && Singles(cfg.lib, Next(cfg, d, e))
  {
    hide ConfSingle, SavedSingle, RestoresApart, Killed, Faulted, AddsPeer, Stage, SavedBlocks;
    if !e.Outside? {
      SinglesRestoreApart(cfg.lib, d, e.command);
      NextStage(cfg, d, e);
      StageSingle(cfg, d, e.command, Next(cfg, d, e));
    }
  }

  /** If all blocks have one address, and the outside script adds only such, no enable does: nothing more is
      asked of the commands. */
  lemma {:induction false} RunSinglesUnshared(cfg: Settings, d: Disk, es: seq<Event>)
    requires Lawful(cfg.lib) && Unshared(cfg.lib, d) && Singles(cfg.lib, d) && LegalRun(cfg, d, es)
    requires forall e :: e in es ==> AddsSingle(cfg.lib, e)
    ensures Unshared(cfg.lib, RunEvents(cfg, d, es)) && RunRestoresApart(cfg, d, es)
    decreases es
  {
    hide ConfUnshared, Singles, Next, Legal, EventRestoresApart, AddsSingle, SavedBlocks;
    if es == [] {
    } else {
      StepSingle(cfg, d, es[0]);
      StepUnshared(cfg, d, es[0]);
      RunSinglesUnshared(cfg, Next(cfg, d, es[0]), es[1..]);
    }
  }

  // ----- no two clients share an address -----

  /** The addresses under a name: those of every block with that name in the config, and of its saved block. */
  predicate Holds(lib: IpLib, d: Disk, name: string, a: Ip) {
    (exists v :: v in Views(lib, d.conf) && Named(v, name) && a in v.addresses)
    || (name in d.peers && a in SavedView(lib, d.peers[name]).addresses)
  }

  ghost predicate OneHolder(lib: IpLib, d: Disk) {
    forall n, m, a :: Holds(lib, d, n, a) && Holds(lib, d, m, a) ==> n == m
  }

  lemma HeldIsUsed(lib: IpLib, d: Disk, name: string, a: Ip)
    requires Holds(lib, d, name, a)
    ensures a in UsedAddresses(lib, d, true)
  {
    ConfAddresses(lib, d.conf);
    if v :| v in Views(lib, d.conf) && Named(v, name) && a in v.addresses {
      AddressMember(Views(lib, d.conf), v);
    } else {
      assert a in Addresses(lib, Lines(d.peers[name]));
    }
  }

  /** The new disk gives a name only addresses it held before, or fresh ones that only one name gets. */
  lemma HoldersKept(lib: IpLib, d: Disk, d': Disk, name: string, given: set<Ip>)
    requires OneHolder(lib, d) && given !! UsedAddresses(lib, d, true)
    requires forall n, a :: Holds(lib, d', n, a) ==> Holds(lib, d, n, a) || (n == name && a in given)
    ensures OneHolder(lib, d')
  {
    forall n, m, a | Holds(lib, d', n, a) && Holds(lib, d', m, a)
      ensures n == m
    {
      if Holds(lib, d, n, a) {
        HeldIsUsed(lib, d, n, a);
      }
      if Holds(lib, d, m, a) {
        HeldIsUsed(lib, d, m, a);
      }
    }
  }

  lemma CreateHolders(cfg: Settings, d: Disk, req: Request, a: Ip, d': Disk)
    requires Lawful(cfg.lib) && Usable(req) && SavedBlocks(d) && OneHolder(cfg.lib, d) && Creates(cfg, d, req, a)
    requires d'.peers == d.peers[req.name := BlockOfRequest(cfg, req, a)]
    requires d'.conf == d.conf || d'.conf == AppendBlock(d.conf, BlockOfRequest(cfg, req, a))
    ensures SavedBlocks(d') && OneHolder(cfg.lib, d')
  {
    hide Render, AppendBlock, IsBlock, SavedView, Views, UsedAddresses, FreeAddress, ViewAddresses, Usable, Lawful,
         Prints, RStripNewlines;
    var lib := cfg.lib;
    var v := NewView(lib, req, a);
    FreePrints(cfg, d, a);
    NewBlock(lib, d.conf, req, a);
    assert d'.peers[req.name] == BlockOfRequest(cfg, req, a);
    forall n, b | Holds(lib, d', n, b)
      ensures Holds(lib, d, n, b) || (n == req.name && b in {a})
    {
    }
    FreeIsUnused(cfg, d, a);
    HoldersKept(lib, d, d', req.name, {a});
  }

  lemma DisableHolders(lib: IpLib, d: Disk, name: string, d': Disk)
    requires SavedBlocks(d) && OneHolder(lib, d) && FindPeer(d.conf, name).Some?
    requires d'.conf == d.conf || d'.conf == WithoutPeer(d.conf, name)
    requires d'.peers == d.peers
             || d'.peers == d.peers[name := RStripNewlines(Join(FindPeer(d.conf, name).value.lines)) + "\n"]
    ensures SavedBlocks(d') && OneHolder(lib, d')
  {
    hide IsBlock, SavedView, Views, WithoutPeer, FindPeer, FindView, UsedAddresses, RStripNewlines, Join, DropViews;
    SaveBlock(lib, d.conf, name);
    FindMember(Views(lib, d.conf), name);
    WithoutViews(lib, d.conf, name);
    DropMembers(Views(lib, d.conf), name);
    forall n, a | Holds(lib, d', n, a)
      ensures Holds(lib, d, n, a)
    {
    }
    HoldersKept(lib, d, d', name, {});
  }

  lemma EnableHolders(lib: IpLib, d: Disk, name: string, d': Disk)
    requires SavedBlocks(d) && OneHolder(lib, d) && name in d.peers
    requires d'.conf == AppendBlock(d.conf, RStripNewlines(d.peers[name]) + "\n") && d'.peers == d.peers
    ensures SavedBlocks(d') && OneHolder(lib, d')
  {
    AppendSaved(lib, d.conf, d.peers[name], name);
    BlockView(lib, d.peers[name], name);
    hide IsBlock, SavedView, Views, AppendBlock, UsedAddresses, RStripNewlines;
    forall n, a | Holds(lib, d', n, a)
      ensures Holds(lib, d, n, a)
    {
    }
    HoldersKept(lib, d, d', name, {});
  }

  lemma RemoveHolders(lib: IpLib, d: Disk, name: string, d': Disk)
    requires SavedBlocks(d) && OneHolder(lib, d)
    requires d'.conf == d.conf || d'.conf == WithoutPeer(d.conf, name)
    requires d'.peers == d.peers || d'.peers == d.peers - {name}
    ensures SavedBlocks(d') && OneHolder(lib, d')
  {
    WithoutViews(lib, d.conf, name);
    DropMembers(Views(lib, d.conf), name);
    hide IsBlock, SavedView, Views, WithoutPeer, UsedAddresses, DropViews;
    HoldersKept(lib, d, d', name, {});
  }

  lemma StageHolders(cfg: Settings, d: Disk, c: Command, d': Disk)
    requires Lawful(cfg.lib) && SavedBlocks(d) && OneHolder(cfg.lib, d) && (c.Create? ==> Usable(c.req))
    requires Stage(cfg, d, c, d'.conf, d'.peers)
    ensures SavedBlocks(d') && OneHolder(cfg.lib, d')
  {
    hide GetValue, Lines, FindPeer, WithoutPeer, Render, AppendBlock, RStripNewlines, FreeAddress, FirstAddress,
         Addresses, Join, Views, IsBlock, SavedView, Usable, Lawful, Restorable, Creates, UsedAddresses;
    if d'.conf == d.conf && d'.peers == d.peers {
      assert forall n, a :: Holds(cfg.lib, d', n, a) == Holds(cfg.lib, d, n, a);
    } else {
      match c
      case Create(req) =>
        var a :| Creates(cfg, d, req, a) && d'.peers == d.peers[req.name := BlockOfRequest(cfg, req, a)]
                 && (d'.conf == d.conf || d'.conf == AppendBlock(d.conf, BlockOfRequest(cfg, req, a)));
        CreateHolders(cfg, d, req, a, d');
      case Disable(name) => DisableHolders(cfg.lib, d, name, d');
      case Enable(name) => EnableHolders(cfg.lib, d, name, d');
      case Remove(name) => RemoveHolders(cfg.lib, d, name, d');
    }
  }

  lemma StepHolders(cfg: Settings, d: Disk, e: Event)
    requires Lawful(cfg.lib) && SavedBlocks(d) && OneHolder(cfg.lib, d) && Legal(cfg, d, e) && !e.Outside?
    ensures SavedBlocks(Next(cfg, d, e)) && OneHolder(cfg.lib, Next(cfg, d, e))
  {
    NextStage(cfg, d, e);
    StageHolders(cfg, d, e.command, Next(cfg, d, e));
  }

  /** Without outside additions, no two client names ever share an address, enabled or disabled,
      wherever the commands stop. */
  lemma {:induction false} RunOneHolder(cfg: Settings, d: Disk, es: seq<Event>)
    requires Lawful(cfg.lib) && SavedBlocks(d) && OneHolder(cfg.lib, d) && LegalRun(cfg, d, es)
    requires forall i :: 0 <= i < |es| ==> !es[i].Outside?
    ensures OneHolder(cfg.lib, RunEvents(cfg, d, es))
    decreases es
  {
    hide SavedBlocks, OneHolder, Next, Legal;
    if es == [] {
    } else {
      StepHolders(cfg, d, es[0]);
      RunOneHolder(cfg, Next(cfg, d, es[0]), es[1..]);
    }
  }

  // ----- what enable-peer checks, and what it does not -----

  /** An enable of a saved block, whether it then succeeds or fails, keeps the config's blocks apart exactly
      when it does not get to write the block, or none of the saved addresses is a peer's. The program
      checks the first address only. */
  lemma EnableKeepsApart(cfg: Settings, d: Disk, name: string)
    requires IsIdentifier(name) && name in d.peers && IsBlock(d.peers[name], name) && FindPeer(d.conf, name).None?
    requires Pairwise(Views(cfg.lib, d.conf), AddressesApart)
    ensures Pairwise(Views(cfg.lib, Execute(cfg, d, Enable(name)).conf), AddressesApart)
            <==> !Restorable(cfg.lib, d, name)
                 || SavedView(cfg.lib, d.peers[name]).addresses !! PeerAddresses(Views(cfg.lib, d.conf))
  {
    hide Views, IsBlock, SavedView, Execute, Restorable, FindPeer, IsIdentifier, Pairwise;
    EnableConf(cfg, d, name);
    if Restorable(cfg.lib, d, name) {
      SavedIsPeer(cfg.lib, d, name);
      PairwiseAppendIff(Views(cfg.lib, d.conf), SavedView(cfg.lib, d.peers[name]));
    }
  }

  /** The addresses of the peer blocks alone. */
  function PeerAddresses(vs: seq<View>): set<Ip> {
    if vs == [] then {} else (if vs[0].header == PEER then vs[0].addresses else {}) + PeerAddresses(vs[1..])
  }

  /** The config after an enable of a saved block. */
  lemma EnableConf(cfg: Settings, d: Disk, name: string)
    requires IsIdentifier(name) && name in d.peers && FindPeer(d.conf, name).None?
    ensures Execute(cfg, d, Enable(name)).conf
         == if Restorable(cfg.lib, d, name) then AppendBlock(d.conf, RStripNewlines(d.peers[name]) + "\n") else d.conf
  {
    hide IsIdentifier, AppendBlock, RStripNewlines, GetValue, Lines, FirstAddress, Addresses, FindPeer, CreatePlan,
         DisablePlan, RemovePlan;
    Unroll(d, PlanOf(cfg, d, Enable(name)).writes);
  }

  lemma SavedIsPeer(lib: IpLib, d: Disk, name: string)
    requires name in d.peers && IsBlock(d.peers[name], name)
    ensures Views(lib, AppendBlock(d.conf, RStripNewlines(d.peers[name]) + "\n"))
         == Views(lib, d.conf) + [SavedView(lib, d.peers[name])]
    ensures SavedView(lib, d.peers[name]).header == PEER
  {
    AppendSaved(lib, d.conf, d.peers[name], name);
    BlockView(lib, d.peers[name], name);
    hide IsBlock, SavedView, Views, AppendBlock, RStripNewlines;
  }

  lemma {:induction false} PairwiseAppendIff(vs: seq<View>, v: View)
    requires Pairwise(vs, AddressesApart) && v.header == PEER
    ensures Pairwise(vs + [v], AddressesApart) <==> v.addresses !! PeerAddresses(vs)
  {
    if vs == [] {
      assert (vs + [v])[1..] == [];
    } else {
      assert (vs + [v])[1..] == vs[1..] + [v];
      PairwiseAppendIff(vs[1..], v);
      assert v in vs[1..] + [v];
    }
  }

  /** A disk with one enabled client at `b` and a disabled one that was saved with the two addresses `a` and `b`. */
  function TwoAddresses(lib: IpLib, a: Ip, b: Ip): Disk {
    Disk(AppendBlock("", Render("laptop", "K1", "P1", lib.show(b) + "/32")),
         map["phone" := Render("phone", "K2", "P2", lib.show(a) + "/32," + lib.show(b) + "/32")],
         map["laptop" := "", "phone" := ""],
         map["K1" := LivePeer(Some("P1"), Some(lib.show(b) + "/32"))])
  }

  lemma ValueOfTwo(lib: IpLib, a: Ip, b: Ip)
    requires Prints(lib, a) && Prints(lib, b)
    ensures var v := lib.show(a) + "/32," + lib.show(b) + "/32";
            IsWord(v) && FirstAddress(lib, v) == Some(a) && b in ValueAddresses(lib, Some(v))
  {
    var x, y := lib.show(a) + "/32", lib.show(b) + "/32";
    var v := lib.show(a) + "/32," + lib.show(b) + "/32";
    assert v == x + "," + y;
    OneAddress(lib, a);
    OneAddress(lib, b);
    assert ',' !in x && ',' !in y;
    SplitTwo(x, y);
    StripWord(x);
    StripWord(y);
    assert lib.parse(x) == Some(a) && lib.parse(y) == Some(b);
    assert [x, y][1..] == [y];
    assert PartsAddresses(lib, [y]) == PartAddress(lib, y) + PartsAddresses(lib, []);
  }

  lemma SplitTwo(x: string, y: string)
    requires ',' !in x && ',' !in y
    ensures SplitOn(x + "," + y, ',') == [x, y]
  {
    SplitFirst(x, ',', y);
    NoComma(y);
    assert x + "," + y == x + ([','] + y);
  }

  lemma TwoAddressesRead(lib: IpLib, a: Ip, b: Ip)
    requires Prints(lib, a) && Prints(lib, b)
    ensures var d := TwoAddresses(lib, a, b);
            var vs, saved := Views(lib, d.conf), SavedView(lib, d.peers["phone"]);
            && |vs| == 2 && vs[0] == ViewOf(lib, PREAMBLE)
            && vs[1].header == PEER && vs[1].name == Some("laptop") && vs[1].addresses == {b}
            && IsBlock(d.peers["phone"], "phone")
            && saved.allowedIps.Some? && FirstAddress(lib, saved.allowedIps.value) == Some(a) && b in saved.addresses
            && saved.publicKey.Some? && saved.presharedKey.Some?
  {
    hide Render, AppendBlock, IsBlock, RStripNewlines, ValueAddresses, FirstAddress, SavedView, Lines, RStrip, Prints;
    var d := TwoAddresses(lib, a, b);
    var laptop := Render("laptop", "K1", "P1", lib.show(b) + "/32");
    OneAddress(lib, b);
    ValueOfTwo(lib, a, b);
    RenderedView(lib, "laptop", "K1", "P1", lib.show(b) + "/32");
    RenderedView(lib, "phone", "K2", "P2", lib.show(a) + "/32," + lib.show(b) + "/32");
    AppendSaved(lib, "", laptop, "laptop");
    BlockView(lib, laptop, "laptop");
    BlockView(lib, d.peers["phone"], "phone");
    EmptyText(lib);
  }

  lemma EmptyText(lib: IpLib)
    ensures Views(lib, "") == [ViewOf(lib, PREAMBLE)]
  {
  }

  /** So a block saved with two addresses can come back on an address that another peer has. */
  lemma EnableCanShare(cfg: Settings, a: Ip, b: Ip)
    requires Prints(cfg.lib, a) && Prints(cfg.lib, b) && a != b
    ensures var d := TwoAddresses(cfg.lib, a, b);
            && Pairwise(Views(cfg.lib, d.conf), AddressesApart)
            && PlanOf(cfg, d, Enable("phone")).reply.Switched?
            && !Pairwise(Views(cfg.lib, Execute(cfg, d, Enable("phone")).conf), AddressesApart)
  {
    hide Render, AppendBlock, IsBlock, RStripNewlines, FirstAddress, Views, GetValue, Lines, Addresses, FindPeer;
    var lib := cfg.lib;
    var d := TwoAddresses(lib, a, b);
    TwoAddressesRead(lib, a, b);
    var vs, saved := Views(lib, d.conf), SavedView(lib, d.peers["phone"]);
    TwoViews(vs);
    assert vs[0].addresses == Addresses(lib, PREAMBLE.lines);
    NoLines(lib);
    ConfAddresses(lib, d.conf);
    FindConf(lib, d.conf, "phone");
    assert GetValue(Lines(d.peers["phone"]), ALLOWED_IPS) == saved.allowedIps;
    assert EnablePlan(lib, d, "phone").reply.Switched?;
    EnableKeepsApart(cfg, d, "phone");
    assert b in saved.addresses && b in PeerAddresses(vs);
  }

  lemma NoLines(lib: IpLib)
    ensures Addresses(lib, PREAMBLE.lines) == {}
  {
  }

  lemma TwoViews(vs: seq<View>)
    requires |vs| == 2 && vs[0].header.None? && vs[1].header == PEER && vs[1].name == Some("laptop")
    ensures Pairwise(vs, AddressesApart) && PeerAddresses(vs) == vs[1].addresses
    ensures ViewAddresses(vs) == vs[0].addresses + vs[1].addresses
    ensures FindView(vs, "phone").None?
  {
    var rest := vs[1..];
    assert rest == [vs[1]] && rest[1..] == [];
    assert Pairwise(rest[1..], AddressesApart);
    assert Pairwise(rest, AddressesApart);
    assert PeerAddresses(rest) == vs[1].addresses + PeerAddresses(rest[1..]);
    assert ViewAddresses(rest) == vs[1].addresses + ViewAddresses(rest[1..]);
    assert FindView(rest, "phone") == FindView(rest[1..], "phone");
  }
}
