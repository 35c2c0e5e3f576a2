/**
 When each command succeeds and when it is refused, with what exit code: stated on the sections, values
 and addresses of the texts, without the functions that the commands are made of.
 */
module VpnctlReplies {
  import opened Wrappers
  import opened ConfText
  import opened ConfTextProofs
  import opened ConfTextRender
  import opened ConfTextGrammar
  import opened Vpnctl
  import opened VpnctlPlans
  import opened VpnctlViews
  import opened VpnctlCards
  import opened VpnctlRefinement

  // ----- the server's settings -----

  /** Section `i` is the first one headed `[Interface]`. */
  predicate IsFirstInterface(secs: seq<Section>, i: nat) {
    && i < |secs| && secs[i].header == Some("[Interface]") && secs[i].lines != []
    && forall k :: 0 <= k < i ==> secs[k].header != Some("[Interface]")
  }

  lemma {:induction false} InterfaceFound(secs: seq<Section>, i: nat)
    requires IsFirstInterface(secs, i)
    ensures InterfaceIn(secs) == Some(secs[i].lines[1..])
  {
    if i == 0 {
    } else {
      assert secs[0].header != Some("[Interface]");
      forall k | 0 <= k < i - 1
        ensures secs[1..][k].header != Some("[Interface]")
      {
        assert secs[1..][k] == secs[k + 1];
      }
      InterfaceFound(secs[1..], i - 1);
    }
  }

  lemma {:induction false} NoInterface(secs: seq<Section>)
    requires forall sec :: sec in secs ==> sec.header != Some("[Interface]")
    ensures InterfaceIn(secs).None?
  {
    if secs == [] {
    } else {
      assert secs[0] in secs;
      NoInterface(secs[1..]);
    }
  }

  /** A value that is a list: its first entry, and what follows the first comma. */
  function Listing(first: string, more: Option<string>): string {
    if more.Some? then first + ("," + more.value) else first
  }

  lemma FirstOfListing(first: string, more: Option<string>)
    requires ',' !in first
    ensures SplitOn(Listing(first, more), ',')[0] == first
  {
    SplitFirst(first, ',', if more.Some? then more.value else "");
  }

  /** All that a client needs of the server: its address, a port and its key. */
  predicate HasSettings(cfg: Settings, ls: seq<string>) {
    && GetValue(ls, "Address").Some? && GetValue(ls, "PrivateKey").Some?
    && (cfg.port != "" || GetValue(ls, "ListenPort").Some?)
  }

  /** A peer has the address: a block in the config or a saved one. */
  predicate IsTaken(lib: IpLib, d: Disk, a: Ip) {
    a in Addresses(lib, Lines(d.conf)) || exists n :: n in d.peers && a in Addresses(lib, Lines(d.peers[n]))
  }

  lemma UsedIsTaken(lib: IpLib, d: Disk, a: Ip)
    ensures a in UsedAddresses(lib, d, true) <==> IsTaken(lib, d, a)
  {
    hide Addresses, Lines;
  }

  predicate IsNewName(d: Disk, req: Request) {
    req.uuidOk && IsIdentifier(req.name) && req.name !in d.clients
  }

  /** A peer has the address, or it is the server's own. */
  predicate IsHeld(lib: IpLib, d: Disk, subnet: string, a: Ip) {
    IsTaken(lib, d, a) || lib.parse(subnet) == Some(a)
  }

  /** Host `k` of the subnet can be given out, and no earlier one can. */
  predicate IsFirstHost(lib: IpLib, d: Disk, subnet: string, k: nat) {
    && k < |lib.hosts(subnet)| && !IsHeld(lib, d, subnet, lib.hosts(subnet)[k])
    && forall i :: 0 <= i < k ==> IsHeld(lib, d, subnet, lib.hosts(subnet)[i])
  }

  lemma ServerAddressIs(cfg: Settings, conf: string, i: nat, first: string, more: Option<string>)
    requires IsFirstInterface(Sections(conf), i) && ',' !in first
    requires var ls := Sections(conf)[i].lines[1..];
             HasSettings(cfg, ls) && GetValue(ls, "Address") == Some(Listing(first, more))
    ensures ServerAddress(cfg, conf) == Some(Strip(first))
  {
    hide Sections, GetValue, InterfaceIn, SplitOn, Listing, Strip, IsFirstInterface;
    InterfaceFound(Sections(conf), i);
    FirstOfListing(first, more);
  }

  /** The host a new client gets, from the first `[Interface]` section that has all settings: the subnet
      is the first entry of its Address, the client gets the first host that nobody has, and the command
      is refused exactly when the subnet does not parse or every host is taken. */
  lemma CreateDecides(cfg: Settings, d: Disk, req: Request, i: nat, first: string, more: Option<string>)
    requires IsNewName(d, req) && IsFirstInterface(Sections(d.conf), i) && ',' !in first
    requires var ls := Sections(d.conf)[i].lines[1..];
             HasSettings(cfg, ls) && GetValue(ls, "Address") == Some(Listing(first, more))
    ensures var lib, subnet := cfg.lib, Strip(first);
            var p := PlanOf(cfg, d, Create(req));
            && (p == Plan([], Refused(Failed))
                <==> lib.parse(subnet).None? || forall h :: h in lib.hosts(subnet) ==> IsHeld(lib, d, subnet, h))
            && (p != Plan([], Refused(Failed)) ==>
                  && p.reply == Created(req.clientConf, false)
                  && exists k: nat :: IsFirstHost(lib, d, subnet, k)
                                      && p.writes == CreateWrites(d, req, lib.show(lib.hosts(subnet)[k]) + "/32"))
  {
    hide Sections, GetValue, ServerAddress, IsFirstInterface, HasSettings, Listing, CreateWrites, IsIdentifier, IsHeld,
         Strip, UsedAddresses;
    var lib, subnet := cfg.lib, Strip(first);
    ServerAddressIs(cfg, d.conf, i, first, more);
    if lib.parse(subnet).Some? {
      FirstFreeIsFirstHost(lib, d, subnet);
    }
  }

  lemma FirstFreeIsFirstHost(lib: IpLib, d: Disk, subnet: string)
    requires lib.parse(subnet).Some?
    ensures var r := FirstFree(lib.hosts(subnet), UsedAddresses(lib, d, true) + {lib.parse(subnet).value});
            && (r.Some? <==> exists k: nat :: IsFirstHost(lib, d, subnet, k))
            && (r.Some? ==> exists k: nat :: IsFirstHost(lib, d, subnet, k) && lib.hosts(subnet)[k] == r.value)
            && (r.None? <==> forall h :: h in lib.hosts(subnet) ==> IsHeld(lib, d, subnet, h))
  {
    hide UsedAddresses, IsTaken;
    var hosts, used := lib.hosts(subnet), UsedAddresses(lib, d, true) + {lib.parse(subnet).value};
    forall h: Ip
      ensures h in used <==> IsHeld(lib, d, subnet, h)
    {
      UsedIsTaken(lib, d, h);
    }
    var r := FirstFree(hosts, used);
    if r.Some? {
      var k :| 0 <= k < |hosts| && hosts[k] == r.value && r.value !in used && AllUsed(hosts[..k], used);
      forall i | 0 <= i < k
        ensures hosts[i] in used
      {
        assert hosts[..k][i] == hosts[i];
      }
      assert IsFirstHost(lib, d, subnet, k);
    }
  }

  /** Without such a section, or with a setting missing from it, a create is refused. */
  lemma CreateNeedsSettings(cfg: Settings, d: Disk, req: Request, i: nat)
    requires IsNewName(d, req)
    requires (forall sec :: sec in Sections(d.conf) ==> sec.header != Some("[Interface]"))
             || (IsFirstInterface(Sections(d.conf), i) && !HasSettings(cfg, Sections(d.conf)[i].lines[1..]))
    ensures PlanOf(cfg, d, Create(req)) == Plan([], Refused(Failed))
  {
    hide Sections, GetValue, InterfaceIn, IsIdentifier, Strip, SplitOn, IsFirstInterface;
    if forall sec :: sec in Sections(d.conf) ==> sec.header != Some("[Interface]") {
      NoInterface(Sections(d.conf));
    } else {
      InterfaceFound(Sections(d.conf), i);
    }
  }

  // ----- the first client of a new server -----

  const SERVER_HEADER := "[Interface]\n"
  function AddressLine(address: string): string { "Address = " + address + "\n" }
  function PortLine(port: string): string { "ListenPort = " + port + "\n" }
  function PrivateKeyLine(key: string): string { "PrivateKey = " + key + "\n" }

  function ServerLines(address: string, port: string, key: string): seq<string> {
    [SERVER_HEADER, AddressLine(address), PortLine(port), PrivateKeyLine(key)]
  }

  function ServerConf(address: string, port: string, key: string): string {
    SERVER_HEADER + AddressLine(address) + PortLine(port) + PrivateKeyLine(key)
  }

  lemma HeaderText()
    ensures IsHeader(SERVER_HEADER) && Strip(SERVER_HEADER) == "[Interface]" && IsLine(SERVER_HEADER)
  {
    assert "" + ("[" + "Interface" + "]") + "\n" == SERVER_HEADER;
    hide IsHeader, Strip;
    HeaderLine("", "Interface", "\n");
    assert "[" + "Interface" + "]" == "[Interface]";
  }

  lemma NoText()
    ensures Sections("") == [PREAMBLE]
  {
  }

  lemma PushHeader(secs: seq<Section>, l: string)
    requires |secs| >= 1 && IsHeader(l)
    ensures Push(secs, l) == secs + [Section(Some(Strip(l)), [l])]
  {
  }

  lemma ServerHeaderAlone()
    ensures EndsLine(SERVER_HEADER)
    ensures Sections(SERVER_HEADER) == [PREAMBLE, Section(Some("[Interface]"), [SERVER_HEADER])]
  {
    hide IsHeader, Strip, RStripNewlines, Sections, Push;
    HeaderText();
    NoText();
    assert "" + SERVER_HEADER == SERVER_HEADER;
    OneMoreLine("", SERVER_HEADER);
    PushHeader([PREAMBLE], SERVER_HEADER);
  }

  lemma ServerSections(address: string, port: string, key: string)
    requires IsWord(address) && IsWord(port) && IsWord(key)
    ensures Sections(ServerConf(address, port, key))
         == [PREAMBLE, Section(Some("[Interface]"), ServerLines(address, port, key))]
  {
    hide Sections, IsHeader, Strip;
    var header, ls := Some("[Interface]"), ServerLines(address, port, key);
    ServerHeaderAlone();
    FieldLine("Address = ", address);
    GrowSection(SERVER_HEADER, Section(header, [SERVER_HEADER]), AddressLine(address));
    assert [SERVER_HEADER] + [AddressLine(address)] == ls[..2];
    FieldLine("ListenPort = ", port);
    GrowSection(SERVER_HEADER + AddressLine(address), Section(header, ls[..2]), PortLine(port));
    assert ls[..2] + [PortLine(port)] == ls[..3];
    FieldLine("PrivateKey = ", key);
    GrowSection(SERVER_HEADER + AddressLine(address) + PortLine(port), Section(header, ls[..3]), PrivateKeyLine(key));
    assert ls[..3] + [PrivateKeyLine(key)] == ls;
  }

  lemma ServerValues(address: string, port: string, key: string)
    requires IsWord(address) && IsWord(port) && IsWord(key)
    ensures var ls := ServerLines(address, port, key)[1..];
            && GetValue(ls, "Address") == Some(address) && GetValue(ls, "ListenPort") == Some(port)
            && GetValue(ls, "PrivateKey") == Some(key)
  {
    hide LineValue;
    var ls := ServerLines(address, port, key)[1..];
    KeyLine("Address", address);
    KeyLine("ListenPort", port);
    KeyLine("PrivateKey", key);
    assert AddressLine(address) == "Address" + " = " + address + "\n";
    assert PortLine(port) == "ListenPort" + " = " + port + "\n";
    assert PrivateKeyLine(key) == "PrivateKey" + " = " + key + "\n";
    OtherKey(AddressLine(address), "ListenPort");
    OtherKey(AddressLine(address), "PrivateKey");
    OtherKey(PortLine(port), "PrivateKey");
    GetSkips(ls, "ListenPort");
    GetSkips(ls, "PrivateKey");
    GetSkips(ls[1..], "PrivateKey");
  }

  lemma {:induction false} NoAllowedIps(lib: IpLib, ls: seq<string>)
    requires forall l :: l in ls ==> LineValue(l, ALLOWED_IPS).None?
    ensures Addresses(lib, ls) == {}
  {
    hide LineValue;
    if ls == [] {
    } else {
      assert ls[0] in ls;
      NoAllowedIps(lib, ls[1..]);
    }
  }

  lemma ServerHasNoPeers(address: string, port: string, key: string, l: string)
    requires l in ServerLines(address, port, key)
    ensures LineValue(l, ALLOWED_IPS).None?
  {
    assert l != "" && !IsSpace(l[0]) && l[0] in "[ALP";
    assert |l| > 1 && l[1] in "Idir";
    assert |l| >= 10 ==> l[..10][1] == l[1] != ALLOWED_IPS[1];
    OtherKey(l, ALLOWED_IPS);
  }

  lemma ServerUsesNothing(lib: IpLib, address: string, port: string, key: string)
    requires IsWord(address) && IsWord(port) && IsWord(key)
    ensures Addresses(lib, Lines(ServerConf(address, port, key))) == {}
  {
    hide *;
    var ls := ServerLines(address, port, key);
    ServerSections(address, port, key);
    ConfAddresses(lib, ServerConf(address, port, key));
    forall l | l in ls
      ensures LineValue(l, ALLOWED_IPS).None?
    {
      ServerHasNoPeers(address, port, key, l);
    }
    NoAllowedIps(lib, ls);
    TwoSections(lib, Section(Some("[Interface]"), ls));
    ViewsAre(lib, ServerConf(address, port, key));
  }

  lemma ViewsAre(lib: IpLib, conf: string)
    ensures Views(lib, conf) == ViewsOf(lib, Sections(conf))
  {
  }

  lemma TwoSections(lib: IpLib, sec: Section)
    ensures ViewAddresses(ViewsOf(lib, [PREAMBLE, sec])) == Addresses(lib, sec.lines)
  {
    var vs := ViewsOf(lib, [PREAMBLE, sec]);
    assert vs[1..] == [ViewOf(lib, sec)];
    assert ViewAddresses([ViewOf(lib, sec)]) == Addresses(lib, sec.lines) by {
      assert [ViewOf(lib, sec)][1..] == [];
    }
    assert vs[0] == ViewOf(lib, PREAMBLE) && vs[0].addresses == {} by { assert Addresses(lib, []) == {}; }
  }

  /** A server without clients, in the text of its config: the first client gets the first host of the subnet that
      is not the server, and this is all that is on the disk afterwards. */
  lemma FirstClient(cfg: Settings, address: string, port: string, key: string, req: Request, k: nat)
    requires IsWord(address) && IsWord(port) && IsWord(key) && ',' !in address
    requires req.uuidOk && IsIdentifier(req.name) && cfg.lib.parse(address).Some?
    requires k < |cfg.lib.hosts(address)| && Some(cfg.lib.hosts(address)[k]) != cfg.lib.parse(address)
    requires forall i :: 0 <= i < k ==> Some(cfg.lib.hosts(address)[i]) == cfg.lib.parse(address)
    ensures var d := Disk("[Interface]\nAddress = " + address + "\nListenPort = " + port + "\nPrivateKey = " + key
                          + "\n",
                          map[], map[], map[]);
            var ips := cfg.lib.show(cfg.lib.hosts(address)[k]) + "/32";
            var block := "[Peer]\n# " + req.name + "\nPublicKey = " + req.publicKey + "\nPresharedKey = "
                         + req.presharedKey + "\nAllowedIPs = " + ips + "\n";
            && PlanOf(cfg, d, Create(req)).reply == Created(req.clientConf, false)
            && Execute(cfg, d, Create(req))
               == Disk(d.conf + "\n" + block, map[req.name := block], map[req.name := req.clientConf],
                       map[req.publicKey := LivePeer(Some(req.presharedKey), Some(ips))])
  {
    hide *;
    var ips := cfg.lib.show(cfg.lib.hosts(address)[k]) + "/32";
    var text, block := ServerConf(address, port, key), Render(req.name, req.publicKey, req.presharedKey, ips);
    var d := Disk(text, map[], map[], map[]);
    ServerText(address, port, key);
    BlockText(req, ips);
    FreshPlan(cfg, d, address, port, key, req, k);
    FreshText(text, key, block);
    FreshDisk(cfg, d, req, ips, block);
  }

  /** A line written after a text that ends in a newline. */
  lemma LineAfter(x: string, before: string, v: string)
    ensures x + "\n" + (before + v + "\n") == x + ("\n" + before) + v + "\n"
  {
  }

  lemma ServerText(address: string, port: string, key: string)
    ensures var text := ServerConf(address, port, key);
            && text == "[Interface]\nAddress = " + address + "\nListenPort = " + port + "\nPrivateKey = " + key + "\n"
            && |text| > |key| && text[|text| - 1 - |key|..] == key + "\n"
  {
    var x := "[Interface]\nAddress = " + address;
    LineAfter("[Interface]", "Address = ", address);
    LineAfter(x, "ListenPort = ", port);
    LineAfter(x + "\nListenPort = " + port, "PrivateKey = ", key);
    assert "[Interface]" + "\n" == SERVER_HEADER && "[Interface]" + ("\n" + "Address = ") == "[Interface]\nAddress = ";
    assert "\n" + "ListenPort = " == "\nListenPort = " && "\n" + "PrivateKey = " == "\nPrivateKey = ";
  }

  lemma BlockText(req: Request, ips: string)
    ensures Render(req.name, req.publicKey, req.presharedKey, ips)
         == "[Peer]\n# " + req.name + "\nPublicKey = " + req.publicKey + "\nPresharedKey = " + req.presharedKey
            + "\nAllowedIPs = " + ips + "\n"
  {
  }

  lemma FreshPlan(cfg: Settings, d: Disk, address: string, port: string, key: string, req: Request, k: nat)
    requires IsWord(address) && IsWord(port) && IsWord(key) && ',' !in address
    requires req.uuidOk && IsIdentifier(req.name) && cfg.lib.parse(address).Some?
    requires k < |cfg.lib.hosts(address)| && Some(cfg.lib.hosts(address)[k]) != cfg.lib.parse(address)
    requires forall i :: 0 <= i < k ==> Some(cfg.lib.hosts(address)[i]) == cfg.lib.parse(address)
    requires d == Disk(ServerConf(address, port, key), map[], map[], map[])
    ensures var ips := cfg.lib.show(cfg.lib.hosts(address)[k]) + "/32";
            PlanOf(cfg, d, Create(req)) == Plan(CreateWrites(d, req, ips), Created(req.clientConf, false))
  {
    hide Sections, GetValue, CreateWrites, IsIdentifier, PlanOf, Addresses, Lines, ServerConf;
    ServerSections(address, port, key);
    ServerValues(address, port, key);
    ServerUsesNothing(cfg.lib, address, port, key);
    StripWord(address);
    CreateDecides(cfg, d, req, 1, address, None);
    assert IsFirstHost(cfg.lib, d, address, k);
    forall m: nat | IsFirstHost(cfg.lib, d, address, m)
      ensures m == k
    {
    }
  }

  lemma FreshText(text: string, key: string, block: string)
    requires IsWord(key) && |text| > |key| && text[|text| - 1 - |key|..] == key + "\n"
    ensures AppendBlock(text, block) == text + "\n" + block
  {
    var t := text[..|text| - 1];
    assert text == t + seq(1, _ => '\n');
    assert t[|t| - 1] == (key + "\n")[|key| - 1];
    AppendedText(t, 1, block);
  }

  lemma FreshDisk(cfg: Settings, d: Disk, req: Request, ips: string, block: string)
    requires d.peers == map[] && d.clients == map[] && d.live == map[]
    requires PlanOf(cfg, d, Create(req)).writes == CreateWrites(d, req, ips)
    requires block == Render(req.name, req.publicKey, req.presharedKey, ips)
    ensures Execute(cfg, d, Create(req))
         == Disk(AppendBlock(d.conf, block), map[req.name := block], map[req.name := req.clientConf],
                 map[req.publicKey := LivePeer(Some(req.presharedKey), Some(ips))])
  {
    hide PlanOf, Render, AppendBlock;
    ApplyShort(d, CreateWrites(d, req, ips));
  }

  // ----- the replies of all commands -----

  /** 1 to 64 of the characters a name may have. */
  predicate IsName(s: string) {
    1 <= |s| <= 64 && forall c :: c in s ==> c in CAPITALS || c in SMALLS || c in OTHERS
  }

  lemma NameIff(s: string)
    ensures IsIdentifier(s) <==> IsName(s)
  {
    hide IsIdentifierChar, CAPITALS, SMALLS, OTHERS;
    forall c: char
      ensures IsIdentifierChar(c) <==> c in CAPITALS || c in SMALLS || c in OTHERS
    {
      NameCharacters(c);
    }
    if IsIdentifier(s) {
      assert forall i :: 0 <= i < |s| ==> IsIdentifierChar(s[i]);
    }
  }

  /** Exit code 2 is for a bad name, or a subscription id that is not a UUID, and for nothing else. */
  lemma InvalidInputIff(cfg: Settings, d: Disk, c: Command)
    ensures PlanOf(cfg, d, c).reply == Refused(InvalidInput)
            <==> !IsName(NameOf(c)) || (c.Create? && !c.req.uuidOk)
  {
    hide IsIdentifier, IsName, FreeAddress, FindPeer, GetValue, FirstAddress, UsedAddresses, Lines, KeyToRemove,
         WithoutPeer, CreateWrites;
    NameIff(NameOf(c));
  }

  /** All that an enable needs of a block. */
  predicate HasKeys(client: Client) {
    client.publicKey.Some? && client.presharedKey.Some? && client.allowedIps.Some?
  }

  /** Enable answers "not found" (exit code 3) exactly for a name without a client. For a client it succeeds
      exactly if its block has all its values and, if it is off, its first address parses and no peer in the
      config has it; otherwise it fails. */
  lemma EnableDecides(cfg: Settings, d: Disk, name: string, first: string, more: Option<string>)
    requires SavedBlocks(d) && IsIdentifier(name) && ',' !in first
    requires var m := Clients(Read(cfg.lib, d));
             name in m && m[name].allowedIps.Some? ==> m[name].allowedIps == Some(Listing(first, more))
    ensures var m, reply := Clients(Read(cfg.lib, d)), PlanOf(cfg, d, Enable(name)).reply;
            var a := cfg.lib.parse(Strip(first));
            reply == if name !in m then Refused(NotFound)
                     else if HasKeys(m[name])
                             && (m[name].enabled || (a.Some? && a.value !in Addresses(cfg.lib, Lines(d.conf))))
                     then Switched(true, true)
                     else Refused(Failed)
  {
    hide Lines, GetValue, FindPeer, Addresses, Strip, Listing, SplitOn, Clients, IsIdentifier, AppendBlock,
         RStripNewlines, Views, FindView, Join, PeerName;
    var c := Read(cfg.lib, d);
    ClientsAt(c, name);
    FindConf(cfg.lib, d.conf, name);
    FirstOfListing(first, more);
    assert UsedAddresses(cfg.lib, d, false) == Addresses(cfg.lib, Lines(d.conf));
  }

  /** Disable and remove are refused only for a bad name; they say whether there was such a client. */
  lemma OthersSucceed(cfg: Settings, d: Disk, name: string)
    requires SavedBlocks(d) && IsIdentifier(name)
    ensures var c := Read(cfg.lib, d);
            && PlanOf(cfg, d, Disable(name)).reply == Switched(name in Clients(c), false)
            && PlanOf(cfg, d, Remove(name)).reply
               == Removed(name in d.clients || (name in Clients(c) && Clients(c)[name].publicKey.Some?))
  {
    hide Lines, GetValue, FindPeer, Addresses, Clients, IsIdentifier, RStripNewlines, Views, FindView, Join, PeerName,
         WithoutPeer;
    var c := Read(cfg.lib, d);
    ClientsAt(c, name);
    FindConf(cfg.lib, d.conf, name);
  }

  // ----- a client's config -----

  /** All commands in a row, none of them stopped. */
  function ExecuteAll(cfg: Settings, d: Disk, cs: seq<Command>): Disk
    decreases cs
  {
    if cs == [] then d else ExecuteAll(cfg, Execute(cfg, d, cs[0]), cs[1..])
  }

  lemma {:induction false} WritesKeepConfig(d: Disk, ws: seq<Write>, name: string)
    requires name in d.clients
    requires forall w :: w in ws ==> w != DeleteClient(name) && !(w.PutClient? && w.name == name)
    ensures name in ApplyAll(d, ws).clients && ApplyAll(d, ws).clients[name] == d.clients[name]
    decreases ws
  {
    if ws == [] {
    } else {
      assert ws[0] in ws;
      WritesKeepConfig(Apply(d, ws[0]), ws[1..], name);
    }
  }

  lemma OwnFilesOnly(cfg: Settings, d: Disk, c: Command, name: string, w: Write)
    requires name in d.clients && c != Remove(name) && w in PlanOf(cfg, d, c).writes
    ensures w != DeleteClient(name) && !(w.PutClient? && w.name == name)
  {
    hide IsIdentifier, FreeAddress, FindPeer, GetValue, FirstAddress, UsedAddresses, Lines, KeyToRemove, WithoutPeer,
         Render, AppendBlock, RStripNewlines, Join;
  }

  lemma ConfigStays(cfg: Settings, d: Disk, c: Command, name: string)
    requires name in d.clients && c != Remove(name)
    ensures name in Execute(cfg, d, c).clients && Execute(cfg, d, c).clients[name] == d.clients[name]
  {
    hide PlanOf, ApplyAll;
    forall w | w in PlanOf(cfg, d, c).writes
      ensures w != DeleteClient(name) && !(w.PutClient? && w.name == name)
    {
      OwnFilesOnly(cfg, d, c, name, w);
    }
    WritesKeepConfig(d, PlanOf(cfg, d, c).writes, name);
  }

  lemma {:induction false} ConfigStaysAll(cfg: Settings, d: Disk, cs: seq<Command>, name: string)
    requires name in d.clients && Remove(name) !in cs
    ensures name in ExecuteAll(cfg, d, cs).clients && ExecuteAll(cfg, d, cs).clients[name] == d.clients[name]
    decreases cs
  {
    hide Execute;
    if cs == [] {
    } else {
      ConfigStays(cfg, d, cs[0], name);
      ConfigStaysAll(cfg, Execute(cfg, d, cs[0]), cs[1..], name);
    }
  }

  /** The config made for a client is what every later create for the name answers with, whatever keys
      that one draws and whatever ran in between, until the client is removed. */
  lemma FirstConfigIsReturned(cfg: Settings, d: Disk, req: Request, cs: seq<Command>, again: Request)
    requires PlanOf(cfg, d, Create(req)).reply == Created(req.clientConf, false) && req.name !in d.clients
    requires Remove(req.name) !in cs && again.name == req.name && again.uuidOk
    ensures var d' := ExecuteAll(cfg, d, [Create(req)] + cs);
            PlanOf(cfg, d', Create(again)) == Plan([], Created(req.clientConf, true))
  {
    hide ExecuteAll, FreeAddress, IsIdentifier, Render, AppendBlock;
    var d1 := Execute(cfg, d, Create(req));
    ApplyShort(d, PlanOf(cfg, d, Create(req)).writes);
    assert d1.clients == d.clients[req.name := req.clientConf];
    ConfigStaysAll(cfg, d1, cs, req.name);
    FirstOfAll(cfg, d, Create(req), cs);
  }

  lemma FirstOfAll(cfg: Settings, d: Disk, c: Command, cs: seq<Command>)
    ensures ExecuteAll(cfg, d, [c] + cs) == ExecuteAll(cfg, Execute(cfg, d, c), cs)
  {
    hide Execute;
    assert ([c] + cs)[1..] == cs;
  }
}
