/**
 The client manager `scripts/provisioner/vpnctl`: what each of its four commands writes, in order.
 A command is a plan of writes and a reply; a fault stops it after some of them.
 */
module Vpnctl {
  import opened Wrappers
  import opened ConfText

  /** What the interface holds for a public key. */
  datatype LivePeer = LivePeer(presharedKey: Option<string>, allowedIps: Option<string>)

  /** Everything the program keeps: `awg1.conf`, the `.peer` and `.conf` files of the clients by
      name, and the live interface by public key. */
  datatype Disk = Disk(
    conf: string,
    peers: map<string, string>,
    clients: map<string, string>,
    live: map<string, LivePeer>)

  datatype Write =
    | SetLive(publicKey: string, presharedKey: string, allowedIps: string)
    | DropLive(publicKey: string)
    | PutConf(text: string)
    | PutPeer(name: string, text: string)
    | PutClient(name: string, text: string)
    | DeletePeer(name: string)
    | DeleteClient(name: string)

  /** Exit codes 2, 3 and 1. */
  datatype Error = InvalidInput | NotFound | Failed

  datatype Reply =
    | Created(config: string, existing: bool)
    | Switched(found: bool, enabled: bool)
    | Removed(found: bool)
    | Refused(error: Error)

  datatype Plan = Plan(writes: seq<Write>, reply: Reply)

  function Apply(d: Disk, w: Write): Disk {
    match w
    case SetLive(pub, psk, ips) => d.(live := d.live[pub := LivePeer(Some(psk), Some(ips))])
    case DropLive(pub) => d.(live := d.live - {pub})
    case PutConf(t) => d.(conf := t)
    case PutPeer(n, t) => d.(peers := d.peers[n := t])
    case PutClient(n, t) => d.(clients := d.clients[n := t])
    case DeletePeer(n) => d.(peers := d.peers - {n})
    case DeleteClient(n) => d.(clients := d.clients - {n})
  }

  function ApplyAll(d: Disk, ws: seq<Write>): Disk
    decreases ws
  {
    if ws == [] then d else ApplyAll(Apply(d, ws[0]), ws[1..])
  }

  /** The interface without a key, if there is one to take off. */
  function GoDown(live: map<string, LivePeer>, pub: Option<string>): map<string, LivePeer> {
    if pub.Some? then live - {pub.value} else live
  }

  // ----- addresses -----

  /** The addresses in the files of these names. */
  function AddressesOf(lib: IpLib, files: map<string, string>, names: set<string>): set<Ip>
    requires names <= files.Keys
  {
    set n, a | n in names && a in Addresses(lib, Lines(files[n])) :: a
  }

  /** `used_addresses`. */
  function UsedAddresses(lib: IpLib, d: Disk, includeSaved: bool): set<Ip> {
    Addresses(lib, Lines(d.conf)) + if includeSaved then AddressesOf(lib, d.peers, d.peers.Keys) else {}
  }

  /** The first address of `hosts` that is not used. */
  function FirstFree(hosts: seq<Ip>, used: set<Ip>): (r: Option<Ip>)
    ensures r.None? <==> forall h :: h in hosts ==> h in used
    ensures r.Some? ==>
              exists i :: 0 <= i < |hosts| && hosts[i] == r.value && r.value !in used && AllUsed(hosts[..i], used)
  {
    if hosts == [] then None
    else if hosts[0] !in used then
      assert hosts[..0] == [];
      Some(hosts[0])
    else
      var r := FirstFree(hosts[1..], used);
      assert r.Some? ==> exists i :: 0 <= i < |hosts| && hosts[i] == r.value && AllUsed(hosts[..i], used) by {
        if r.Some? {
          var i :| 0 <= i < |hosts[1..]| && hosts[1..][i] == r.value && AllUsed(hosts[1..][..i], used);
          assert hosts[..i + 1] == [hosts[0]] + hosts[1..][..i];
        }
      }
      r
  }

  predicate AllUsed(hosts: seq<Ip>, used: set<Ip>) {
    forall h :: h in hosts ==> h in used
  }

  // ----- create -----

  /** A `create-peer` request with what the program draws or is told on the way: fresh keys, the
      text of the client's own config, and whether the subscription id is a UUID. */
  datatype Request = Request(uuidOk: bool, name: string, publicKey: string, presharedKey: string, clientConf: string)

  /** `port` is ENDPOINT_PORT, empty when unset. */
  datatype Settings = Settings(lib: IpLib, port: string)

  function InterfaceIn(secs: seq<Section>): Option<seq<string>> {
    if secs == [] then None
    else if secs[0].header == INTERFACE && secs[0].lines != [] then Some(secs[0].lines[1..])
    else InterfaceIn(secs[1..])
  }

  /** The server's address text, when `[Interface]` has all that a client needs. */
  function ServerAddress(cfg: Settings, conf: string): Option<string> {
    match InterfaceIn(Sections(conf))
    case None => None
    case Some(ls) =>
      var address := GetValue(ls, "Address");
      if address.None? || (cfg.port == "" && GetValue(ls, "ListenPort").None?) || GetValue(ls, "PrivateKey").None?
      then None
      else Some(Strip(SplitOn(address.value, ',')[0]))
  }

  /** The first host of the subnet that no peer, enabled or saved, and not the server itself uses. */
  function FreeAddress(cfg: Settings, d: Disk): Option<Ip> {
    match ServerAddress(cfg, d.conf)
    case None => None
    case Some(address) =>
      match cfg.lib.parse(address)
      case None => None
      case Some(server) => FirstFree(cfg.lib.hosts(address), UsedAddresses(cfg.lib, d, true) + {server})
  }

  function CreateWrites(d: Disk, req: Request, ips: string): seq<Write> {
    var block := Render(req.name, req.publicKey, req.presharedKey, ips);
    [SetLive(req.publicKey, req.presharedKey, ips), PutPeer(req.name, block), PutConf(AppendBlock(d.conf, block)),
     PutClient(req.name, req.clientConf)]
  }

  function CreatePlan(cfg: Settings, d: Disk, req: Request): Plan {
    if !req.uuidOk || !IsIdentifier(req.name) then Plan([], Refused(InvalidInput))
    else if req.name in d.clients then Plan([], Created(d.clients[req.name], true))
    else
      match FreeAddress(cfg, d)
      case None => Plan([], Refused(Failed))
      case Some(a) => Plan(CreateWrites(d, req, cfg.lib.show(a) + "/32"), Created(req.clientConf, false))
  }

  // ----- disable, enable, remove -----

  function DisablePlan(d: Disk, name: string): Plan {
    if !IsIdentifier(name) then Plan([], Refused(InvalidInput))
    else
      match FindPeer(d.conf, name)
      case None => Plan([], Switched(name in d.peers, false))
      case Some(sec) =>
        var pub := GetValue(sec.lines, PUBLIC_KEY);
        Plan((if name in d.peers then [] else [PutPeer(name, RStripNewlines(Join(sec.lines)) + "\n")])
             + [PutConf(WithoutPeer(d.conf, name))]
             + (if pub.Some? then [DropLive(pub.value)] else []),
             Switched(true, false))
  }

  /** The last step of `enable-peer`: it needs all three values of the block. */
  function SetLivePlan(before: seq<Write>, ls: seq<string>): Plan {
    var pub, psk, ips := GetValue(ls, PUBLIC_KEY), GetValue(ls, PRESHARED_KEY), GetValue(ls, ALLOWED_IPS);
    if pub.Some? && psk.Some? && ips.Some?
    then Plan(before + [SetLive(pub.value, psk.value, ips.value)], Switched(true, true))
    else Plan(before, Refused(Failed))
  }

  function EnablePlan(lib: IpLib, d: Disk, name: string): Plan {
    if !IsIdentifier(name) then Plan([], Refused(InvalidInput))
    else
      match FindPeer(d.conf, name)
      case Some(sec) => SetLivePlan([], sec.lines)
      case None =>
        if name !in d.peers then Plan([], Refused(NotFound))
        else
          var ls := Lines(d.peers[name]);
          var ips := GetValue(ls, ALLOWED_IPS);
          if ips.None? then Plan([], Refused(Failed))
          else
            match FirstAddress(lib, ips.value)
            case None => Plan([], Refused(Failed))
            case Some(a) =>
              if a in UsedAddresses(lib, d, false) then Plan([], Refused(Failed))
              else SetLivePlan([PutConf(AppendBlock(d.conf, RStripNewlines(d.peers[name]) + "\n"))], ls)
  }

  /** The key `remove-peer` takes off the interface: the block's, or else the saved one. */
  function KeyToRemove(d: Disk, name: string): Option<string> {
    match FindPeer(d.conf, name)
    case Some(sec) => GetValue(sec.lines, PUBLIC_KEY)
    case None => if name in d.peers then GetValue(Lines(d.peers[name]), PUBLIC_KEY) else None
  }

  function RemovePlan(d: Disk, name: string): Plan {
    if !IsIdentifier(name) then Plan([], Refused(InvalidInput))
    else
      var pub := KeyToRemove(d, name);
      Plan((if FindPeer(d.conf, name).Some? then [PutConf(WithoutPeer(d.conf, name))] else [])
           + (if pub.Some? then [DropLive(pub.value)] else [])
           + [DeleteClient(name), DeletePeer(name)],
           Removed(pub.Some? || name in d.clients))
  }

  // ----- commands and faults -----

  datatype Command =
    | Create(req: Request)
    | Disable(name: string)
    | Enable(name: string)
    | Remove(name: string)

  function PlanOf(cfg: Settings, d: Disk, c: Command): Plan {
    match c
    case Create(req) => CreatePlan(cfg, d, req)
    case Disable(name) => DisablePlan(d, name)
    case Enable(name) => EnablePlan(cfg.lib, d, name)
    case Remove(name) => RemovePlan(d, name)
  }

  /** A whole command, without a fault. */
  function Execute(cfg: Settings, d: Disk, c: Command): Disk {
    ApplyAll(d, PlanOf(cfg, d, c).writes)
  }

  /** A command killed after `stop` writes. */
  function Killed(cfg: Settings, d: Disk, c: Command, stop: nat): Disk {
    var ws := PlanOf(cfg, d, c).writes;
    ApplyAll(d, if stop < |ws| then ws[..stop] else ws)
  }

  /** A command whose write number `fault` raises: `create-peer` then takes the live peer off again,
      unless setting it was what failed. */
  function Faulted(cfg: Settings, d: Disk, c: Command, fault: nat): Disk {
    var ws := PlanOf(cfg, d, c).writes;
    var after := Killed(cfg, d, c, fault);
    if c.Create? && 0 < fault < |ws| then Apply(after, DropLive(c.req.publicKey)) else after
  }

  function FaultedReply(cfg: Settings, d: Disk, c: Command, fault: nat): Reply {
    var p := PlanOf(cfg, d, c);
    if fault < |p.writes| then Refused(Failed) else p.reply
  }
}
