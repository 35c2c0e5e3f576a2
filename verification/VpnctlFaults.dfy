/**
 What a command that stops half-way leaves: no other client is touched, no client is lost, and the
 order of the writes shows in what can be seen between them.
 */
module VpnctlFaults {
  import opened Wrappers
  import opened ConfText
  import opened Vpnctl
  import opened VpnctlPlans
  import opened VpnctlViews
  import opened VpnctlCards
  import opened VpnctlRefinement
  import opened VpnctlRecovery

  // ----- the cards between two writes -----

  /** The steps of a create, of a disable, of an enable and of a remove, as far as they get. */
  predicate CreateStage(c: Cards, name: string, v: View, c': Cards)
    requires v.publicKey.Some?
  {
    var live := GoLive(c.live, v);
    || c' == c
    || c' == c.(live := live)
    || c' == c.(live := live, saved := c.saved[name := v])
    || c' == c.(live := live, saved := c.saved[name := v], views := c.views + [v])
    || c' == Added(c, name, v)
  }

  predicate DisableStage(c: Cards, name: string, v: View, c': Cards) {
    var saved := c.saved[name := v];
    || c' == c
    || c' == c.(saved := saved)
    || c' == c.(saved := saved, views := DropViews(c.views, name))
    || c' == TurnedOff(c, name, v)
  }

  predicate EnableStage(c: Cards, name: string, v: View, c': Cards) {
    || c' == c
    || (FindView(c.views, name).None? && c' == c.(views := c.views + [v]))
    || (v.publicKey.Some? && c' == TurnedOn(c, name, v))
  }

  predicate RemoveStage(c: Cards, name: string, c': Cards) {
    var views, live := DropViews(c.views, name), GoDown(c.live, KeyNamed(c, name));
    || c' == c
    || c' == c.(views := views)
    || c' == c.(views := views, live := live)
    || c' == c.(views := views, live := live, files := c.files - {name})
    || c' == Forgotten(c, name)
  }

  lemma ReadPut(lib: IpLib, d: Disk, name: string, t: string)
    ensures Read(lib, d.(peers := d.peers[name := t])).saved == Read(lib, d).saved[name := SavedView(lib, t)]
  {
    hide SavedView, Views;
  }

  lemma ReadDelete(lib: IpLib, d: Disk, name: string)
    ensures Read(lib, d.(peers := d.peers - {name})).saved == Read(lib, d).saved - {name}
  {
    hide SavedView, Views;
  }

  lemma CreateStops(cfg: Settings, d: Disk, req: Request, a: Ip, stop: nat)
    requires Lawful(cfg.lib) && Usable(req) && Creates(cfg, d, req, a)
    ensures CreateStage(Read(cfg.lib, d), req.name, NewView(cfg.lib, req, a),
                        Read(cfg.lib, Killed(cfg, d, Create(req), stop)))
  {
    hide Usable, Lawful, Prints, IsIdentifier, AppendBlock, Views, SavedView, Render, IsBlock, FreeAddress;
    var ips := cfg.lib.show(a) + "/32";
    var block := Render(req.name, req.publicKey, req.presharedKey, ips);
    FreePrints(cfg, d, a);
    NewBlock(cfg.lib, d.conf, req, a);
    var ws := CreateWrites(d, req, ips);
    assert PlanOf(cfg, d, Create(req)).writes == ws;
    Unroll(d, ws);
    ReadPut(cfg.lib, d, req.name, block);
  }

  /** Where a disable can stop. */
  predicate DisableStopped(d: Disk, name: string, sec: Section, d': Disk) {
    var peers := if name in d.peers then d.peers else d.peers[name := RStripNewlines(Join(sec.lines)) + "\n"];
    || d' == d
    || d' == d.(peers := peers)
    || d' == d.(peers := peers, conf := WithoutPeer(d.conf, name))
    || d' == d.(peers := peers, conf := WithoutPeer(d.conf, name),
                live := GoDown(d.live, GetValue(sec.lines, PUBLIC_KEY)))
  }

  lemma DisableDisks(cfg: Settings, d: Disk, name: string, sec: Section, stop: nat)
    requires IsIdentifier(name) && FindPeer(d.conf, name) == Some(sec)
    ensures DisableStopped(d, name, sec, Killed(cfg, d, Disable(name), stop))
  {
    hide GetValue, WithoutPeer, IsIdentifier, RStripNewlines, Join, FindPeer, CreatePlan, EnablePlan, RemovePlan;
    var saved := if name in d.peers then [] else [PutPeer(name, RStripNewlines(Join(sec.lines)) + "\n")];
    var pub := GetValue(sec.lines, PUBLIC_KEY);
    var ws := DisablePlan(d, name).writes;
    assert ws == saved + [PutConf(WithoutPeer(d.conf, name))] + (if pub.Some? then [DropLive(pub.value)] else []);
    Unroll(d, ws);
  }

  lemma DisableStops(cfg: Settings, d: Disk, name: string, stop: nat)
    requires WellKept(cfg.lib, d) && IsIdentifier(name) && FindView(Views(cfg.lib, d.conf), name).Some?
    ensures DisableStage(Read(cfg.lib, d), name, FindView(Views(cfg.lib, d.conf), name).value,
                         Read(cfg.lib, Killed(cfg, d, Disable(name), stop)))
  {
    hide IsIdentifier, Views, SavedView, IsBlock, FindPeer, WithoutPeer, FindView, DropViews, Pairwise, RStripNewlines,
         Join, Killed, GetValue;
    var lib := cfg.lib;
    FindConf(lib, d.conf, name);
    SaveBlock(lib, d.conf, name);
    WithoutViews(lib, d.conf, name);
    var sec := FindPeer(d.conf, name).value;
    DisableDisks(cfg, d, name, sec, stop);
    ReadPut(lib, d, name, RStripNewlines(Join(sec.lines)) + "\n");
    var c := Read(lib, d);
    assert name in d.peers ==> c.saved[name := c.saved[name]] == c.saved;
  }

  lemma EnableStops(cfg: Settings, d: Disk, name: string, stop: nat)
    requires SavedBlocks(d) && BlockOf(Read(cfg.lib, d), name).Some?
    ensures EnableStage(Read(cfg.lib, d), name, BlockOf(Read(cfg.lib, d), name).value,
                        Read(cfg.lib, Killed(cfg, d, Enable(name), stop)))
  {
    hide IsIdentifier, Views, IsBlock, FindPeer, GetValue, AppendBlock, FindView, RStripNewlines, FirstAddress,
         UsedAddresses, Lines, Addresses, Join, PeerName;
    FindConf(cfg.lib, d.conf, name);
    if name in d.peers {
      AppendSaved(cfg.lib, d.conf, d.peers[name], name);
    }
    Unroll(d, PlanOf(cfg, d, Enable(name)).writes);
  }

  lemma RemoveStops(cfg: Settings, d: Disk, name: string, stop: nat)
    requires SavedBlocks(d) && IsIdentifier(name)
    ensures RemoveStage(Read(cfg.lib, d), name, Read(cfg.lib, Killed(cfg, d, Remove(name), stop)))
  {
    hide IsIdentifier, Views, SavedView, IsBlock, FindPeer, GetValue, WithoutPeer, FindView, DropViews, Killed, Lines;
    VpnctlRecovery.RemoveStops(cfg, d, name, stop);
    FindConf(cfg.lib, d.conf, name);
    WithoutViews(cfg.lib, d.conf, name);
    if FindPeer(d.conf, name).None? {
      NothingToDrop(Views(cfg.lib, d.conf), name);
    }
    ReadDelete(cfg.lib, d, name);
    KeyRead(cfg.lib, d, name);
  }

  lemma KeyRead(lib: IpLib, d: Disk, name: string)
    ensures KeyToRemove(d, name) == KeyNamed(Read(lib, d), name)
  {
    hide GetValue, FindPeer, Lines, Views, FindView;
    FindConf(lib, d.conf, name);
  }

  // ----- other clients -----

  /** The key a command sets or takes off. */
  function KeyOf(r: Cards, c: Command): Option<string> {
    match c
    case Create(req) => Some(req.publicKey)
    case _ => KeyNamed(r, NameOf(c))
  }

  ghost predicate OtherKeysKept(live: map<string, LivePeer>, live': map<string, LivePeer>, key: Option<string>) {
    forall pub :: Some(pub) != key ==> (pub in live' <==> pub in live) && (pub in live ==> live'[pub] == live[pub])
  }

  ghost predicate LeavesOthers(r: Cards, r': Cards, c: Command) {
    OthersUnchanged(r, r', NameOf(c)) && OtherKeysKept(r.live, r'.live, KeyOf(r, c))
  }

  /** The maps of a stopped create differ from those before at the new name and key only. */
  predicate AtMostAdded(c: Cards, name: string, v: View, c': Cards) {
    && c'.views in {c.views, c.views + [v]}
    && c'.saved in {c.saved, c.saved[name := v]}
    && c'.files in {c.files, c.files + {name}}
  }

  lemma CreateAdds(c: Cards, name: string, v: View, c': Cards)
    requires v.publicKey.Some? && CreateStage(c, name, v, c')
    ensures AtMostAdded(c, name, v, c') && OtherKeysKept(c.live, c'.live, v.publicKey)
  {
    hide FindView;
  }

  lemma AddedLeaves(c: Cards, name: string, v: View, c': Cards)
    requires Named(v, name) && AtMostAdded(c, name, v, c')
    ensures OthersUnchanged(c, c', name)
  {
    hide FindView;
    forall n | n != name
      ensures FindView(c'.views, n) == FindView(c.views, n)
    {
      FindAppend(c.views, v, n);
    }
  }

  lemma CreateLeaves(c: Cards, req: Request, v: View, c': Cards)
    requires Named(v, req.name) && v.publicKey == Some(req.publicKey) && CreateStage(c, req.name, v, c')
    ensures LeavesOthers(c, c', Create(req)) && LeavesOthers(c, c'.(live := c'.live - {req.publicKey}), Create(req))
  {
    hide FindView, OthersUnchanged, CreateStage;
    CreateAdds(c, req.name, v, c');
    AddedLeaves(c, req.name, v, c');
    AddedLeaves(c, req.name, v, c'.(live := c'.live - {req.publicKey}));
  }

  lemma DropLeaves(c: Cards, name: string)
    ensures forall n :: FindView(DropViews(c.views, name), n) == if n == name then None else FindView(c.views, n)
  {
    forall n
      ensures FindView(DropViews(c.views, name), n) == if n == name then None else FindView(c.views, n)
    {
      FindDrop(c.views, name, n);
    }
  }

  lemma DisableLeaves(c: Cards, name: string, v: View, c': Cards)
    requires FindView(c.views, name) == Some(v) && DisableStage(c, name, v, c')
    ensures LeavesOthers(c, c', Disable(name))
  {
    hide FindView, DropViews;
    DropLeaves(c, name);
  }

  lemma EnableLeaves(c: Cards, name: string, v: View, c': Cards)
    requires BlockOf(c, name) == Some(v) && Named(v, name) && EnableStage(c, name, v, c')
    ensures LeavesOthers(c, c', Enable(name))
  {
    hide FindView;
    forall n
      ensures n != name ==> FindView(c.views + [v], n) == FindView(c.views, n)
    {
      FindAppend(c.views, v, n);
    }
  }

  lemma RemoveLeaves(c: Cards, name: string, c': Cards)
    requires RemoveStage(c, name, c')
    ensures LeavesOthers(c, c', Remove(name))
  {
    hide FindView, DropViews;
    DropLeaves(c, name);
  }

  lemma NothingDone(r: Cards, c: Command)
    ensures LeavesOthers(r, r, c)
  {
  }

  /** Nothing is written: the command was refused, or there was nothing to do. */
  predicate Idle(cfg: Settings, d: Disk, c: Command) {
    match c
    case Create(req) => !req.uuidOk || !IsIdentifier(req.name) || req.name in d.clients || FreeAddress(cfg, d).None?
    case Disable(name) => !IsIdentifier(name) || FindView(Views(cfg.lib, d.conf), name).None?
    case Enable(name) => !IsIdentifier(name) || BlockOf(Read(cfg.lib, d), name).None?
    case Remove(name) => !IsIdentifier(name)
  }

  lemma IdleWrites(cfg: Settings, d: Disk, c: Command)
    requires Idle(cfg, d, c)
    ensures PlanOf(cfg, d, c).writes == []
  {
    hide IsIdentifier, Views, FindPeer, FindView, FreeAddress, GetValue, Lines, WithoutPeer, SavedView, AppendBlock;
    FindConf(cfg.lib, d.conf, NameOf(c));
  }

  /** A command stopped after any of its writes, or by a write that raises, leaves the block, the files and the
      live peer of every other client as they were. */
  lemma StopLeavesOthers(cfg: Settings, d: Disk, c: Command, stop: nat)
    requires Lawful(cfg.lib) && WellKept(cfg.lib, d) && (c.Create? ==> Usable(c.req))
    ensures var r := Read(cfg.lib, d);
            && LeavesOthers(r, Read(cfg.lib, Killed(cfg, d, c, stop)), c)
            && LeavesOthers(r, Read(cfg.lib, Faulted(cfg, d, c, stop)), c)
  {
    hide Read, Killed, LeavesOthers, CreateStage, DisableStage, EnableStage, RemoveStage, Views, FreeAddress, Usable,
         IsIdentifier, FindView, Tidy, IsBlock, Lawful, SavedView;
    var r := Read(cfg.lib, d);
    FaultedRead(cfg, d, c, stop);
    if Idle(cfg, d, c) {
      IdleStops(cfg, d, c, stop);
      NothingDone(r, c);
    } else {
      ReadParts(cfg.lib, d);
      match c
      case Create(req) =>
        var a := FreeAddress(cfg, d).value;
        CreateStops(cfg, d, req, a, stop);
        CreateLeaves(r, req, NewView(cfg.lib, req, a), Read(cfg.lib, Killed(cfg, d, c, stop)));
      case Disable(name) =>
        DisableStops(cfg, d, name, stop);
        DisableLeaves(r, name, FindView(r.views, name).value, Read(cfg.lib, Killed(cfg, d, c, stop)));
      case Enable(name) =>
        EnableStops(cfg, d, name, stop);
        BlockIsNamed(cfg.lib, d, name);
        EnableLeaves(r, name, BlockOf(r, name).value, Read(cfg.lib, Killed(cfg, d, c, stop)));
      case Remove(name) =>
        RemoveStops(cfg, d, name, stop);
        RemoveLeaves(r, name, Read(cfg.lib, Killed(cfg, d, c, stop)));
    }
  }

  lemma ReadParts(lib: IpLib, d: Disk)
    ensures Read(lib, d).views == Views(lib, d.conf) && Read(lib, d).files == d.clients.Keys
            && Read(lib, d).live == d.live
  {
  }

  lemma IdleStops(cfg: Settings, d: Disk, c: Command, stop: nat)
    requires Idle(cfg, d, c)
    ensures Killed(cfg, d, c, stop) == d
  {
    hide PlanOf, Idle;
    IdleWrites(cfg, d, c);
  }

  lemma FaultedRead(cfg: Settings, d: Disk, c: Command, fault: nat)
    ensures var killed := Killed(cfg, d, c, fault);
            || Faulted(cfg, d, c, fault) == killed
            || (c.Create? && PlanOf(cfg, d, c).writes != []
                && var r' := Read(cfg.lib, killed);
                   Read(cfg.lib, Faulted(cfg, d, c, fault)) == r'.(live := r'.live - {c.req.publicKey}))
  {
    hide PlanOf, Views, SavedView;
  }

  lemma BlockIsNamed(lib: IpLib, d: Disk, name: string)
    requires WellKept(lib, d) && BlockOf(Read(lib, d), name).Some?
    ensures Named(BlockOf(Read(lib, d), name).value, name)
  {
    hide Views, SavedView, IsBlock, Pairwise;
    FindMember(Read(lib, d).views, name);
  }

  // ----- the client itself -----

  /** The client is there with the same block, on or off. */
  predicate SameClient(r: Cards, r': Cards, name: string) {
    && ClientNamed(r, name).Some? && ClientNamed(r', name).Some?
    && ClientNamed(r', name).value.(enabled := ClientNamed(r, name).value.enabled) == ClientNamed(r, name).value
  }

  lemma DisableKeepsClient(c: Cards, name: string, v: View, c': Cards)
    requires FindView(c.views, name) == Some(v) && DisableStage(c, name, v, c')
    ensures SameClient(c, c', name)
  {
    hide FindView, DropViews;
    DropLeaves(c, name);
  }

  lemma EnableKeepsClient(c: Cards, name: string, v: View, c': Cards)
    requires BlockOf(c, name) == Some(v) && EnableStage(c, name, v, c') && Named(v, name)
    ensures SameClient(c, c', name)
  {
    hide FindView;
    FindAppend(c.views, v, name);
  }

  /** A disable or an enable never loses its client, wherever it stops: it is there with the same key,
      preshared key and address. */
  lemma SwitchLosesNothing(cfg: Settings, d: Disk, c: Command, stop: nat)
    requires WellKept(cfg.lib, d) && (c.Disable? || c.Enable?) && NameOf(c) in Clients(Read(cfg.lib, d))
    ensures SameClient(Read(cfg.lib, d), Read(cfg.lib, Killed(cfg, d, c, stop)), NameOf(c))
  {
    hide Read, Killed, SameClient, DisableStage, EnableStage, Views, IsIdentifier, FindView, Tidy, IsBlock, ClientNamed,
         SavedView, Clients;
    var r, name := Read(cfg.lib, d), NameOf(c);
    ClientsAt(r, name);
    if Idle(cfg, d, c) {
      IdleStops(cfg, d, c, stop);
      SameAsBefore(r, name);
    } else {
      ReadParts(cfg.lib, d);
      match c
      case Disable(_) =>
        DisableStops(cfg, d, name, stop);
        DisableKeepsClient(r, name, FindView(r.views, name).value, Read(cfg.lib, Killed(cfg, d, c, stop)));
      case Enable(_) =>
        EnableStops(cfg, d, name, stop);
        BlockIsNamed(cfg.lib, d, name);
        EnableKeepsClient(r, name, BlockOf(r, name).value, Read(cfg.lib, Killed(cfg, d, c, stop)));
    }
  }

  lemma SameAsBefore(r: Cards, name: string)
    requires ClientNamed(r, name).Some?
    ensures SameClient(r, r, name)
  {
    hide ClientNamed;
  }

  /** A remove takes the saved block last: until everything else of the client is gone, it is there. */
  lemma RemoveKeepsSavedBlock(cfg: Settings, d: Disk, name: string, stop: nat)
    requires SavedBlocks(d) && IsIdentifier(name) && name in d.peers
    ensures var r, r' := Read(cfg.lib, d), Read(cfg.lib, Killed(cfg, d, Remove(name), stop));
            (name in r'.saved && r'.saved[name] == r.saved[name]) || r' == Forgotten(r, name)
  {
    hide Views, SavedView, IsBlock, FindView, DropViews, Killed, IsIdentifier;
    RemoveStops(cfg, d, name, stop);
  }

  // ----- the order of the writes -----

  /** Every peer of the config is live. */
  predicate ConfIsLive(r: Cards) {
    var conf := LiveOf(r.views);
    forall pub :: pub in conf ==> pub in r.live && r.live[pub] == conf[pub]
  }

  /** Every live peer is in the config. */
  predicate LiveIsConf(r: Cards) {
    var conf := LiveOf(r.views);
    forall pub :: pub in r.live ==> pub in conf && r.live[pub] == conf[pub]
  }

  lemma CreateOrder(c: Cards, name: string, v: View, c': Cards)
    requires Named(v, name) && v.publicKey.Some? && FreshKey(c, v.publicKey.value) && InStep(c)
    requires CreateStage(c, name, v, c')
    ensures ConfIsLive(c')
  {
    hide LiveOf;
    LiveAppend(c.views, v);
    LiveKeys(c.views, v.publicKey.value);
  }

  lemma OffOrder(c: Cards, name: string, c': Cards)
    requires Tidy(c) && InStep(c)
    requires RemoveStage(c, name, c')
             || (FindView(c.views, name).Some? && DisableStage(c, name, FindView(c.views, name).value, c'))
    ensures ConfIsLive(c')
  {
    hide LiveOf, DropViews, Pairwise, FindView;
    if FindView(c.views, name).Some? {
      LiveDrop(c.views, name, FindView(c.views, name).value);
    } else {
      NothingToDrop(c.views, name);
      SavedKeyIsOff(c, name);
    }
  }

  lemma SavedKeyIsOff(c: Cards, name: string)
    requires Tidy(c) && FindView(c.views, name).None?
    ensures KeyNamed(c, name).Some? ==> KeyNamed(c, name).value !in LiveOf(c.views)
  {
    hide Pairwise, FindView, LiveOf;
    if KeyNamed(c, name).Some? {
      LiveKeys(c.views, KeyNamed(c, name).value);
      forall v | v in c.views
        ensures !HasKey(v, KeyNamed(c, name).value)
      {
        assert KeysApart(c.saved[name], v);
      }
    }
  }

  lemma OnOrder(c: Cards, name: string, v: View, c': Cards)
    requires Tidy(c) && InStep(c) && BlockOf(c, name) == Some(v) && Named(v, name) && EnableStage(c, name, v, c')
    ensures LiveIsConf(c')
  {
    hide LiveOf, Pairwise, FindView;
    FindMember(c.views, name);
    LiveAppend(c.views, v);
    if FindView(c.views, name).Some? {
      if v.publicKey.Some? {
        LiveValue(c.views, v, v.publicKey.value);
      }
    } else {
      if v.publicKey.Some? {
        SavedKeyIsOff(c, name);
      }
    }
  }

  /** A create goes live before the config says so, and a disable or a remove leaves the config before the interface:
      wherever one of them stops, every peer of the config is live. An enable is written to the config first: wherever
      it stops, every live peer is in the config. */
  lemma ConfAndLive(cfg: Settings, d: Disk, c: Command, stop: nat)
    requires Lawful(cfg.lib) && WellKept(cfg.lib, d) && InStep(Read(cfg.lib, d))
    requires c.Create? ==> Usable(c.req) && FreshKey(Read(cfg.lib, d), c.req.publicKey)
    ensures var r' := Read(cfg.lib, Killed(cfg, d, c, stop));
            if c.Enable? then LiveIsConf(r') else ConfIsLive(r')
  {
    hide Read, Killed, CreateStage, DisableStage, EnableStage, RemoveStage, Views, FreeAddress, Usable, IsIdentifier,
         FindView, Tidy, IsBlock, Lawful, SavedView, LiveOf, FreshKey;
    var r := Read(cfg.lib, d);
    if Idle(cfg, d, c) {
      IdleStops(cfg, d, c, stop);
    } else {
      ReadParts(cfg.lib, d);
      match c
      case Create(req) =>
        var a := FreeAddress(cfg, d).value;
        CreateStops(cfg, d, req, a, stop);
        CreateOrder(r, req.name, NewView(cfg.lib, req, a), Read(cfg.lib, Killed(cfg, d, c, stop)));
      case Disable(name) =>
        DisableStops(cfg, d, name, stop);
        OffOrder(r, name, Read(cfg.lib, Killed(cfg, d, c, stop)));
      case Enable(name) =>
        EnableStops(cfg, d, name, stop);
        BlockIsNamed(cfg.lib, d, name);
        OnOrder(r, name, BlockOf(r, name).value, Read(cfg.lib, Killed(cfg, d, c, stop)));
      case Remove(name) =>
        RemoveStops(cfg, d, name, stop);
        OffOrder(r, name, Read(cfg.lib, Killed(cfg, d, c, stop)));
    }
  }

  lemma CreateCard(c: Cards, name: string, v: View, c': Cards)
    requires Named(v, name) && v.publicKey.Some? && CreateStage(c, name, v, c') && Unknown(c, name)
    ensures name !in c.files && name in c'.files ==>
              ClientNamed(c', name) == Some(ClientOf(v, true)) && v.publicKey.value in c'.live
    ensures FindView(c'.views, name).Some? ==> name in c'.saved
  {
    hide FindView;
    FindAppend(c.views, v, name);
  }

  lemma NothingYet(cfg: Settings, d: Disk, req: Request, stop: nat)
    ensures var d' := Killed(cfg, d, Create(req), stop);
            req.publicKey !in d.live && req.publicKey !in d'.live ==> d' == d
  {
    hide IsIdentifier, FreeAddress, AppendBlock, Render;
    Unroll(d, PlanOf(cfg, d, Create(req)).writes);
  }

  /** A create for a new name, wherever it stops: a client config is there only with its client, on and live; a
      block is in the config only with its saved copy; and nothing is written unless the peer was set live. */
  lemma CreateInOrder(cfg: Settings, d: Disk, req: Request, stop: nat)
    requires Lawful(cfg.lib) && Usable(req) && Unknown(Read(cfg.lib, d), req.name)
    requires req.name !in d.clients && req.publicKey !in d.live
    ensures var d' := Killed(cfg, d, Create(req), stop);
            var r', m' := Read(cfg.lib, d'), Clients(Read(cfg.lib, d'));
            && (req.name in d'.clients ==>
                  req.name in m' && m'[req.name].enabled && m'[req.name].publicKey == Some(req.publicKey)
                  && req.publicKey in d'.live)
            && (FindView(r'.views, req.name).Some? ==> req.name in d'.peers)
            && (req.publicKey !in d'.live ==> d' == d)
  {
    hide Usable, Lawful, IsIdentifier, Views, SavedView, FreeAddress, Clients, ClientNamed, Killed, CreateStage,
         FindView;
    var r, d' := Read(cfg.lib, d), Killed(cfg, d, Create(req), stop);
    NothingYet(cfg, d, req, stop);
    if Idle(cfg, d, Create(req)) {
      IdleStops(cfg, d, Create(req), stop);
    } else {
      var a := FreeAddress(cfg, d).value;
      CreateStops(cfg, d, req, a, stop);
      CreateCard(r, req.name, NewView(cfg.lib, req, a), Read(cfg.lib, d'));
      ClientsAt(Read(cfg.lib, d'), req.name);
    }
  }

  /** The live interface and the client configs after some writes of a create, not all. */
  lemma CreateUnfinished(d: Disk, req: Request, ips: string, stop: nat)
    requires stop < 4
    ensures var d' := ApplyAll(d, CreateWrites(d, req, ips)[..stop]);
            && (stop == 0 ==> d' == d) && d'.clients == d.clients
            && d'.live in {d.live, d.live[req.publicKey := LivePeer(Some(req.presharedKey), Some(ips))]}
  {
    hide Render, AppendBlock;
    Unroll(d, CreateWrites(d, req, ips));
  }

  /** A create whose write raises leaves the live interface and the client configs as they were, and everything if
      it was the first write; it is answered with a failure. */
  lemma FailedCreate(cfg: Settings, d: Disk, req: Request, fault: nat)
    requires req.publicKey !in d.live && fault < 4
    requires PlanOf(cfg, d, Create(req)).reply == Created(req.clientConf, false) && req.name !in d.clients
    ensures var d' := Faulted(cfg, d, Create(req), fault);
            && FaultedReply(cfg, d, Create(req), fault) == Refused(Failed)
            && d'.live == d.live && d'.clients == d.clients && (fault == 0 ==> d' == d)
  {
    hide IsIdentifier, FreeAddress, CreateWrites, ApplyAll;
    var ips := cfg.lib.show(FreeAddress(cfg, d).value) + "/32";
    FourWrites(d, req, ips);
    CreateUnfinished(d, req, ips, fault);
    KeyTaken(d.live, req.publicKey, LivePeer(Some(req.presharedKey), Some(ips)));
  }

  lemma FourWrites(d: Disk, req: Request, ips: string)
    ensures |CreateWrites(d, req, ips)| == 4
  {
  }

  lemma KeyTaken(live: map<string, LivePeer>, pub: string, peer: LivePeer)
    requires pub !in live
    ensures live[pub := peer] - {pub} == live && live - {pub} == live
  {
  }
}
