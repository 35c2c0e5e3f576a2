/**
 The commands of `vpnctl`, run on the text of `awg1.conf` and the client files, do on the cards what
 `VpnctlCards` says: parsing and printing commute with every command, over whole runs.
 */
module VpnctlRefinement {
  import opened Wrappers
  import opened ConfText
  import opened ConfTextRender
  import opened Vpnctl
  import opened VpnctlPlans
  import opened VpnctlViews
  import opened VpnctlCards

  /** What a disk says. */
  function Read(lib: IpLib, d: Disk): Cards {
    Cards(Views(lib, d.conf), map n | n in d.peers :: SavedView(lib, d.peers[n]), d.clients.Keys, d.live)
  }

  /** Every saved file is one peer block with the name of the file. */
  predicate SavedBlocks(d: Disk) {
    forall n :: n in d.peers ==> IsBlock(d.peers[n], n)
  }

  predicate WellKept(lib: IpLib, d: Disk) {
    SavedBlocks(d) && Tidy(Read(lib, d))
  }

  // ----- create -----

  predicate Usable(req: Request) {
    IsWord(req.publicKey) && IsWord(req.presharedKey)
  }

  lemma IdentifierIsWord(name: string)
    requires IsIdentifier(name)
    ensures IsWord(name)
  {
    forall i | 0 <= i < |name|
      ensures !IsSpace(name[i])
    {
      assert IsIdentifierChar(name[i]);
    }
  }

  /** The view of a new client's block. */
  function NewView(lib: IpLib, req: Request, a: Ip): View {
    var ips := lib.show(a) + "/32";
    View(PEER, Some(req.name), Some(req.publicKey), Some(req.presharedKey), Some(ips), {a},
         RStripNewlines(Render(req.name, req.publicKey, req.presharedKey, ips)))
  }

  lemma NewBlock(lib: IpLib, conf: string, req: Request, a: Ip)
    requires Prints(lib, a) && Usable(req) && IsIdentifier(req.name)
    ensures var block := Render(req.name, req.publicKey, req.presharedKey, lib.show(a) + "/32");
            && IsBlock(block, req.name) && SavedView(lib, block) == NewView(lib, req, a)
            && Views(lib, AppendBlock(conf, block)) == Views(lib, conf) + [NewView(lib, req, a)]
  {
    IdentifierIsWord(req.name);
    RenderedBlock(lib, req.name, req.publicKey, req.presharedKey, a);
    var block := Render(req.name, req.publicKey, req.presharedKey, lib.show(a) + "/32");
    BlockView(lib, block, req.name);
    AppendSaved(lib, conf, block, req.name);
  }

  predicate Creates(cfg: Settings, d: Disk, req: Request, a: Ip) {
    req.uuidOk && IsIdentifier(req.name) && req.name !in d.clients && FreeAddress(cfg, d) == Some(a)
  }

  lemma FreePrints(cfg: Settings, d: Disk, a: Ip)
    requires Lawful(cfg.lib) && FreeAddress(cfg, d) == Some(a)
    ensures Prints(cfg.lib, a)
  {
    hide UsedAddresses, ServerAddress, Prints;
    var i :| 0 <= i < |cfg.lib.hosts(ServerAddress(cfg, d.conf).value)|
        && cfg.lib.hosts(ServerAddress(cfg, d.conf).value)[i] == a;
  }

  /** A create that finds an address adds its card. */
  lemma CreateReads(cfg: Settings, d: Disk, req: Request, a: Ip)
    requires Lawful(cfg.lib) && Usable(req) && SavedBlocks(d) && Creates(cfg, d, req, a)
    ensures var d' := Execute(cfg, d, Create(req));
            && SavedBlocks(d') && Read(cfg.lib, d') == Added(Read(cfg.lib, d), req.name, NewView(cfg.lib, req, a))
            && d'.clients == d.clients[req.name := req.clientConf]
  {
    hide DisablePlan, EnablePlan, RemovePlan, UsedAddresses, ServerAddress, IsBlock, SavedView, Usable, Lawful, Prints,
         IsIdentifier, AppendBlock, Lines, Sections, GetValue, Addresses, Join, RStripNewlines, PeerName, FindPeer,
         WithoutPeer, FindView, DropViews, Pairwise, LiveOf, Render, ViewsOf;
    var ips := cfg.lib.show(a) + "/32";
    FreePrints(cfg, d, a);
    NewBlock(cfg.lib, d.conf, req, a);
    var block := Render(req.name, req.publicKey, req.presharedKey, ips);
    ApplyShort(d, CreateWrites(d, req, ips));
    var d' := Disk(AppendBlock(d.conf, block), d.peers[req.name := block], d.clients[req.name := req.clientConf],
                   d.live[req.publicKey := LivePeer(Some(req.presharedKey), Some(ips))]);
    assert Execute(cfg, d, Create(req)) == d';
    assert Read(cfg.lib, d').saved == Read(cfg.lib, d).saved[req.name := NewView(cfg.lib, req, a)];
  }

  // ----- disable -----

  /** A disable of an enabled client turns its card off; any other disable changes nothing. */
  lemma DisableReads(cfg: Settings, d: Disk, name: string)
    requires IsIdentifier(name) && WellKept(cfg.lib, d)
    ensures var d', c := Execute(cfg, d, Disable(name)), Read(cfg.lib, d);
            && SavedBlocks(d') && d'.clients == d.clients
            && (FindView(c.views, name).None? ==> d' == d)
            && (FindView(c.views, name).Some? ==>
                Read(cfg.lib, d') == TurnedOff(c, name, FindView(c.views, name).value))
  {
    hide CreatePlan, EnablePlan, RemovePlan, IsBlock, SavedView, Lines, Sections, GetValue, Addresses, Join,
         RStripNewlines, PeerName, FindPeer, WithoutPeer, FindView, DropViews, Pairwise, LiveOf, Render, ViewsOf;
    var lib := cfg.lib;
    FindConf(lib, d.conf, name);
    if FindPeer(d.conf, name).Some? {
      var c := Read(lib, d);
      var v := FindView(c.views, name).value;
      var saved := RStripNewlines(Join(FindPeer(d.conf, name).value.lines)) + "\n";
      SaveBlock(lib, d.conf, name);
      WithoutViews(lib, d.conf, name);
      DisableWrites(d, name, saved, v.publicKey);
      var peers' := if name in d.peers then d.peers else d.peers[name := saved];
      var d' := Execute(cfg, d, Disable(name));
      assert d' == d.(conf := WithoutPeer(d.conf, name), peers := peers', live := GoDown(d.live, v.publicKey));
      assert Read(lib, d').saved == c.saved[name := v];
    }
  }

  lemma DisableWrites(d: Disk, name: string, saved: string, pub: Option<string>)
    requires IsIdentifier(name) && FindPeer(d.conf, name).Some?
    requires saved == RStripNewlines(Join(FindPeer(d.conf, name).value.lines)) + "\n"
    requires pub == GetValue(FindPeer(d.conf, name).value.lines, PUBLIC_KEY)
    ensures ApplyAll(d, DisablePlan(d, name).writes)
         == d.(conf := WithoutPeer(d.conf, name), peers := if name in d.peers then d.peers else d.peers[name := saved],
               live := GoDown(d.live, pub))
  {
    hide CreatePlan, EnablePlan, RemovePlan, IsIdentifier, GetValue, FindPeer, WithoutPeer, RStripNewlines, Join;
    ApplyShort(d, DisablePlan(d, name).writes);
  }

  // ----- enable -----

  /** A successful enable turns the client's card on. */
  lemma EnableReads(cfg: Settings, d: Disk, name: string)
    requires WellKept(cfg.lib, d) && PlanOf(cfg, d, Enable(name)).reply.Switched?
    ensures var d', c := Execute(cfg, d, Enable(name)), Read(cfg.lib, d);
            && SavedBlocks(d') && d'.clients == d.clients
            && BlockOf(c, name).Some? && BlockOf(c, name).value.publicKey.Some?
            && Read(cfg.lib, d') == TurnedOn(c, name, BlockOf(c, name).value)
  {
    hide Lines, Sections, GetValue, Addresses, Join, RStripNewlines, PeerName, FindPeer, WithoutPeer, FindView,
         DropViews, Pairwise, LiveOf, Render, ViewsOf;
    var lib := cfg.lib;
    var c := Read(lib, d);
    FindConf(lib, d.conf, name);
    var d' := Execute(cfg, d, Enable(name));
    if FindPeer(d.conf, name).Some? {
      var v := FindView(c.views, name).value;
      GoLiveWrites(d, [], FindPeer(d.conf, name).value.lines);
      assert Read(lib, d') == TurnedOn(c, name, v);
    } else {
      var t := d.peers[name];
      var v := c.saved[name];
      AppendSaved(lib, d.conf, t, name);
      GoLiveWrites(d, [PutConf(AppendBlock(d.conf, RStripNewlines(t) + "\n"))], Lines(t));
      assert Read(lib, d').views == c.views + [v];
      assert Read(lib, d') == TurnedOn(c, name, v);
    }
  }

  lemma GoLiveWrites(d: Disk, before: seq<Write>, ls: seq<string>)
    requires |before| <= 1 && SetLivePlan(before, ls).reply.Switched?
    ensures var pub, psk, ips := GetValue(ls, PUBLIC_KEY), GetValue(ls, PRESHARED_KEY), GetValue(ls, ALLOWED_IPS);
            && pub.Some? && psk.Some? && ips.Some?
            && ApplyAll(d, SetLivePlan(before, ls).writes)
               == Apply(if before == [] then d else Apply(d, before[0]), SetLive(pub.value, psk.value, ips.value))
  {
    ApplyShort(d, SetLivePlan(before, ls).writes);
  }

  // ----- remove -----

  /** A remove forgets the card. */
  lemma RemoveReads(cfg: Settings, d: Disk, name: string)
    requires IsIdentifier(name) && SavedBlocks(d)
    ensures var d' := Execute(cfg, d, Remove(name));
            && SavedBlocks(d') && Read(cfg.lib, d') == Forgotten(Read(cfg.lib, d), name)
            && d'.clients == d.clients - {name}
  {
    hide Lines, Sections, GetValue, Addresses, Join, RStripNewlines, PeerName, FindPeer, WithoutPeer, FindView,
         DropViews, Pairwise, LiveOf, Render, ViewsOf;
    var lib := cfg.lib;
    RemoveEnds(d, name);
    FindConf(lib, d.conf, name);
    WithoutViews(lib, d.conf, name);
    if FindPeer(d.conf, name).None? {
      NothingToDrop(Views(lib, d.conf), name);
    }
    assert Read(lib, Execute(cfg, d, Remove(name))).saved == Read(lib, d).saved - {name};
  }

  // ----- one command -----

  /** What a caller owes a command: for a create, fresh keys, and for a name without a client config no block
      of that name; and a disk on which the command does not stop half-way. */
  ghost predicate Sound(cfg: Settings, d: Disk, c: Command) {
    && (PlanOf(cfg, d, c).reply.Refused? ==> PlanOf(cfg, d, c).writes == [])
    && (c.Create? ==> SoundCreate(Read(cfg.lib, d), c.req))
  }

  ghost predicate SoundCreate(r: Cards, req: Request) {
    Usable(req) && FreshKey(r, req.publicKey) && (req.name in r.files || Unknown(r, req.name))
  }

  function NameOf(c: Command): string {
    match c
    case Create(req) => req.name
    case Disable(name) => name
    case Enable(name) => name
    case Remove(name) => name
  }

  /** The same command on a map of clients, with its reply. `files` are the names that have a
      client config: a create for one of them changes nothing. */
  ghost predicate AbstractStep(m: map<string, Client>, files: set<string>, c: Command, reply: Reply,
                               m': map<string, Client>) {
    match c
    case Create(req) =>
      reply.Created? && reply.existing == (req.name in files)
      && (if reply.existing then m' == m
          else req.name !in m
               && exists ips ::
                    m' == m[req.name := Client(Some(req.publicKey), Some(req.presharedKey), Some(ips), true)])
    case Disable(name) => reply == Switched(name in m, false) && m' == Switch(m, name, false)
    case Enable(name) => reply == Switched(true, true) && name in m && m' == Switch(m, name, true)
    case Remove(name) =>
      reply == Removed(name in files || (name in m && m[name].publicKey.Some?)) && m' == m - {name}
  }

  /** A refused command changes nothing. Any other makes its abstract step. */
  ghost predicate Refines(cfg: Settings, d: Disk, c: Command, d': Disk) {
    var reply := PlanOf(cfg, d, c).reply;
    if reply.Refused? then d' == d
    else AbstractStep(Clients(Read(cfg.lib, d)), d.clients.Keys, c, reply, Clients(Read(cfg.lib, d')))
  }

  /** One command refines its abstract step, leaves every other client's block alone, and keeps the
      disk well kept and the interface in step. */
  lemma CommandRefines(cfg: Settings, d: Disk, c: Command)
    requires Lawful(cfg.lib) && WellKept(cfg.lib, d) && Sound(cfg, d, c)
    ensures var d' := Execute(cfg, d, c);
            var r, r' := Read(cfg.lib, d), Read(cfg.lib, d');
            && WellKept(cfg.lib, d')
            && OthersUnchanged(r, r', NameOf(c))
            && (InStep(r) ==> InStep(r'))
            && Refines(cfg, d, c, d')
  {
    if PlanOf(cfg, d, c).reply.Refused? {
      hide WellKept, OthersUnchanged, InStep, Read, PlanOf;
      NothingChanged(Read(cfg.lib, d), NameOf(c));
    } else {
      hide WellKept, OthersUnchanged, InStep, Read, Refines, Execute, Lawful;
      NameIsIdentifier(cfg, d, c);
      match c
      case Create(req) => CreateRefines(cfg, d, req);
      case Disable(name) => DisableRefines(cfg, d, name);
      case Enable(name) => EnableRefines(cfg, d, name);
      case Remove(name) => RemoveRefines(cfg, d, name);
    }
  }

  lemma NameIsIdentifier(cfg: Settings, d: Disk, c: Command)
    requires !PlanOf(cfg, d, c).reply.Refused?
    ensures IsIdentifier(NameOf(c)) && (c.Enable? ==> PlanOf(cfg, d, c).reply.Switched?)
  {
    hide IsIdentifier, FreeAddress, FindPeer, GetValue, FirstAddress, UsedAddresses, Lines;
  }

  lemma CreateRefines(cfg: Settings, d: Disk, req: Request)
    requires Lawful(cfg.lib) && WellKept(cfg.lib, d) && Sound(cfg, d, Create(req))
    requires !PlanOf(cfg, d, Create(req)).reply.Refused?
    ensures var d' := Execute(cfg, d, Create(req));
            var r, r' := Read(cfg.lib, d), Read(cfg.lib, d');
            && WellKept(cfg.lib, d') && OthersUnchanged(r, r', req.name) && (InStep(r) ==> InStep(r'))
            && Refines(cfg, d, Create(req), d')
  {
    if req.name !in d.clients {
      var r, a := Read(cfg.lib, d), FreeAddress(cfg, d).value;
      CreateReads(cfg, d, req, a);
      AddedTidy(r, req.name, NewView(cfg.lib, req, a));
      AddedClients(r, req.name, NewView(cfg.lib, req, a));
    }
  }

  lemma DisableRefines(cfg: Settings, d: Disk, name: string)
    requires WellKept(cfg.lib, d) && IsIdentifier(name)
    ensures var d' := Execute(cfg, d, Disable(name));
            var r, r' := Read(cfg.lib, d), Read(cfg.lib, d');
            && WellKept(cfg.lib, d') && OthersUnchanged(r, r', name) && (InStep(r) ==> InStep(r'))
            && Refines(cfg, d, Disable(name), d')
  {
    hide CreatePlan, EnablePlan, RemovePlan, Execute, IsIdentifier, TurnedOff, InStep, Lines, Sections, GetValue,
         Addresses, Join, RStripNewlines, PeerName, FindPeer, WithoutPeer, FindView, DropViews, Pairwise, LiveOf,
         Render, ViewsOf, OthersUnchanged, Tidy;
    var r := Read(cfg.lib, d);
    DisableReads(cfg, d, name);
    FindConf(cfg.lib, d.conf, name);
    ClientsAt(r, name);
    if FindView(r.views, name).Some? {
      TurnedOffTidy(r, name, FindView(r.views, name).value);
      TurnedOffClients(r, name, FindView(r.views, name).value);
    } else {
      assert Clients(r) == Switch(Clients(r), name, false);
      NothingChanged(r, name);
    }
  }

  lemma EnableReply(cfg: Settings, d: Disk, name: string)
    ensures PlanOf(cfg, d, Enable(name)).reply in {Switched(true, true), Refused(InvalidInput), Refused(NotFound),
                                                   Refused(Failed)}
  {
  }

  lemma EnableRefines(cfg: Settings, d: Disk, name: string)
    requires WellKept(cfg.lib, d) && PlanOf(cfg, d, Enable(name)).reply.Switched?
    ensures var d' := Execute(cfg, d, Enable(name));
            var r, r' := Read(cfg.lib, d), Read(cfg.lib, d');
            && WellKept(cfg.lib, d') && OthersUnchanged(r, r', name) && (InStep(r) ==> InStep(r'))
            && Refines(cfg, d, Enable(name), d')
  {
    hide Lines, Sections, GetValue, Addresses, Join, RStripNewlines, PeerName, FindPeer, WithoutPeer, FindView,
         DropViews, Pairwise, LiveOf, Render, ViewsOf, Execute, OthersUnchanged, Tidy, BlockOf, TurnedOn, Switch;
    var r := Read(cfg.lib, d);
    EnableReads(cfg, d, name);
    EnableReply(cfg, d, name);
    var v := BlockOf(r, name).value;
    TurnedOnTidy(r, name, v);
    TurnedOnClients(r, name, v);
  }

  lemma RemoveRefines(cfg: Settings, d: Disk, name: string)
    requires WellKept(cfg.lib, d) && IsIdentifier(name)
    ensures var d' := Execute(cfg, d, Remove(name));
            var r, r' := Read(cfg.lib, d), Read(cfg.lib, d');
            && WellKept(cfg.lib, d') && OthersUnchanged(r, r', name) && (InStep(r) ==> InStep(r'))
            && Refines(cfg, d, Remove(name), d')
  {
    var r := Read(cfg.lib, d);
    RemoveReads(cfg, d, name);
    ForgottenTidy(r, name);
    ForgottenClients(r, name);
    FindConf(cfg.lib, d.conf, name);
    ClientsAt(r, name);
  }

  /** The first host of the server's subnet that no block in the config, no saved block and not the server uses. */
  ghost predicate IsFirstFree(cfg: Settings, d: Disk, a: Ip) {
    exists address, server, i ::
      && ServerAddress(cfg, d.conf) == Some(address) && cfg.lib.parse(address) == Some(server)
      && 0 <= i < |cfg.lib.hosts(address)| && cfg.lib.hosts(address)[i] == a
      && a != server && a !in UsedAddresses(cfg.lib, d, true)
      && AllUsed(cfg.lib.hosts(address)[..i], UsedAddresses(cfg.lib, d, true) + {server})
  }

  lemma FreeAddressIsFirst(cfg: Settings, d: Disk, a: Ip)
    requires FreeAddress(cfg, d) == Some(a)
    ensures IsFirstFree(cfg, d, a)
  {
    hide UsedAddresses, ServerAddress, AllUsed;
    var address := ServerAddress(cfg, d.conf).value;
    var server := cfg.lib.parse(address).value;
    var used := UsedAddresses(cfg.lib, d, true) + {server};
    assert FirstFree(cfg.lib.hosts(address), used) == Some(a);
    var i :| 0 <= i < |cfg.lib.hosts(address)| && cfg.lib.hosts(address)[i] == a && a !in used
             && AllUsed(cfg.lib.hosts(address)[..i], used);
  }

  /** A create for a new name gives its client the first free address, and is refused exactly when the
      server's own settings cannot be read or every host of its subnet is taken. */
  lemma CreateAddressIsFree(cfg: Settings, d: Disk, req: Request)
    requires Lawful(cfg.lib) && WellKept(cfg.lib, d) && Sound(cfg, d, Create(req))
    requires req.uuidOk && IsIdentifier(req.name) && req.name !in d.clients
    ensures PlanOf(cfg, d, Create(req)).reply.Refused? <==>
              match ServerAddress(cfg, d.conf)
              case None => true
              case Some(address) =>
                cfg.lib.parse(address).None?
                || AllUsed(cfg.lib.hosts(address), UsedAddresses(cfg.lib, d, true) + {cfg.lib.parse(address).value})
    ensures PlanOf(cfg, d, Create(req)).reply.Created? ==>
              exists a ::
                && IsFirstFree(cfg, d, a)
                && req.name in Clients(Read(cfg.lib, Execute(cfg, d, Create(req))))
                && Clients(Read(cfg.lib, Execute(cfg, d, Create(req))))[req.name]
                   == Client(Some(req.publicKey), Some(req.presharedKey), Some(cfg.lib.show(a) + "/32"), true)
  {
    hide UsedAddresses, ServerAddress, Execute, IsFirstFree, Tidy, FreshKey, SavedBlocks, Clients;
    if PlanOf(cfg, d, Create(req)).reply.Created? {
      CreatedClient(cfg, d, req, FreeAddress(cfg, d).value);
      FreeAddressIsFirst(cfg, d, FreeAddress(cfg, d).value);
    }
  }

  lemma CreatedClient(cfg: Settings, d: Disk, req: Request, a: Ip)
    requires Lawful(cfg.lib) && WellKept(cfg.lib, d) && Sound(cfg, d, Create(req)) && Creates(cfg, d, req, a)
    ensures var m := Clients(Read(cfg.lib, Execute(cfg, d, Create(req))));
            req.name in m
            && m[req.name] == Client(Some(req.publicKey), Some(req.presharedKey), Some(cfg.lib.show(a) + "/32"), true)
  {
    CreateReads(cfg, d, req, a);
    AddedClients(Read(cfg.lib, d), req.name, NewView(cfg.lib, req, a));
  }

  // ----- runs -----

  ghost predicate SoundRun(cfg: Settings, d: Disk, cs: seq<Command>)
    decreases cs
  {
    cs == [] || (Sound(cfg, d, cs[0]) && SoundRun(cfg, Execute(cfg, d, cs[0]), cs[1..]))
  }

  ghost predicate Good(cfg: Settings, d: Disk) {
    WellKept(cfg.lib, d) && InStep(Read(cfg.lib, d))
  }

  /** Every disk of the run is well kept and in step, and every command refines its abstract step. */
  ghost predicate RunsAsMap(cfg: Settings, d: Disk, cs: seq<Command>)
    decreases cs
  {
    && Good(cfg, d)
    && (cs != [] ==> var d' := Execute(cfg, d, cs[0]); Refines(cfg, d, cs[0], d') && RunsAsMap(cfg, d', cs[1..]))
  }

  lemma GoodStep(cfg: Settings, d: Disk, c: Command)
    requires Lawful(cfg.lib) && Good(cfg, d) && Sound(cfg, d, c)
    ensures Good(cfg, Execute(cfg, d, c)) && Refines(cfg, d, c, Execute(cfg, d, c))
  {
    hide Execute, Refines, OthersUnchanged, Tidy, Views, LiveOf;
    CommandRefines(cfg, d, c);
  }

  /** Every run on text is a run on the map of clients, and the interface stays in step throughout. */
  lemma {:induction false} RunRefines(cfg: Settings, d: Disk, cs: seq<Command>)
    requires Lawful(cfg.lib) && Good(cfg, d) && SoundRun(cfg, d, cs)
    ensures RunsAsMap(cfg, d, cs)
    decreases cs
  {
    hide Good, Execute, Refines, Sound;
    if cs == [] {
    } else {
      GoodStep(cfg, d, cs[0]);
      RunRefines(cfg, Execute(cfg, d, cs[0]), cs[1..]);
    }
  }
}
