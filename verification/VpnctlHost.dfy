/** The commands of `scripts/provisioner/vpnctl` as they run: one write after another, any of which may raise. */
module VpnctlHost {
  import opened Wrappers
  import opened ConfText
  import opened Vpnctl
  import opened VpnctlPlans

  class Host {
    const cfg: Settings
    var conf: string
    var peers: map<string, string>
    var clients: map<string, string>
    var live: map<string, LivePeer>

    function State(): Disk
      reads this
    {
      Disk(conf, peers, clients, live)
    }

    constructor (cfg: Settings, conf: string)
      ensures this.cfg == cfg && State() == Disk(conf, map[], map[], map[])
    {
      this.cfg, this.conf := cfg, conf;
      peers, clients, live := map[], map[], map[];
    }

    /** `used_addresses`: every address in the server's config and, unless told otherwise, in the saved blocks. */
    method Used(includeSaved: bool) returns (used: set<Ip>)
      ensures used == UsedAddresses(cfg.lib, State(), includeSaved)
    {
      used := Addresses(cfg.lib, Lines(conf));
      if includeSaved {
        var names := peers.Keys;
        ghost var seen: set<string> := {};
        while names != {}
          invariant names + seen == peers.Keys
          invariant used == Addresses(cfg.lib, Lines(conf)) + AddressesOf(cfg.lib, peers, seen)
          decreases names
        {
          var n :| n in names;
          OneMoreFile(cfg.lib, peers, seen, n);
          used := used + Addresses(cfg.lib, Lines(peers[n]));
          names := names - {n};
          seen := seen + {n};
        }
        assert seen == peers.Keys;
      }
    }

    /** The four writes of `cmd_create_peer`, with the handler that takes the live peer off again. */
    method Install(req: Request, ips: string, fault: nat) returns (ok: bool)
      modifies this
      ensures var d, ws := old(State()), CreateWrites(old(State()), req, ips);
              && ok == (fault >= 4)
              && State() == if ok then ApplyAll(d, ws)
                            else if fault == 0 then d
                            else Apply(ApplyAll(d, ws[..fault]), DropLive(req.publicKey))
    {
      var block := Render(req.name, req.publicKey, req.presharedKey, ips);
      ghost var d, ws := State(), CreateWrites(State(), req, ips);
      Unroll(d, ws);
      if fault == 0 {
        return false;
      }
      live := live[req.publicKey := LivePeer(Some(req.presharedKey), Some(ips))];
      if fault > 1 {
        peers := peers[req.name := block];
        if fault > 2 {
          conf := AppendBlock(conf, block);
          if fault > 3 {
            clients := clients[req.name := req.clientConf];
            return true;
          }
        }
      }
      live := live - {req.publicKey};
      return false;
    }

    /** `cmd_create_peer`. Write number `fault` raises, if the command gets that far. */
    method CreatePeer(req: Request, fault: nat) returns (reply: Reply)
      modifies this
      ensures State() == Faulted(cfg, old(State()), Create(req), fault)
      ensures reply == FaultedReply(cfg, old(State()), Create(req), fault)
    {
      if !req.uuidOk || !IsIdentifier(req.name) {
        return Refused(InvalidInput);
      }
      if req.name in clients {
        return Created(clients[req.name], true);
      }
      var address := ServerAddress(cfg, conf);
      if address.None? {
        return Refused(Failed);
      }
      var server := cfg.lib.parse(address.value);
      if server.None? {
        return Refused(Failed);
      }
      var used := Used(true);
      var client := FirstFree(cfg.lib.hosts(address.value), used + {server.value});
      if client.None? {
        return Refused(Failed);
      }
      var ips := cfg.lib.show(client.value) + "/32";
      ghost var ws := CreateWrites(State(), req, ips);
      assert PlanOf(cfg, State(), Create(req)) == Plan(ws, Created(req.clientConf, false));
      assert |ws| == 4;
      var ok := Install(req, ips, fault);
      return if ok then Created(req.clientConf, false) else Refused(Failed);
    }

    /** `cmd_disable_peer`. */
    method DisablePeer(name: string, fault: nat) returns (reply: Reply)
      modifies this
      ensures State() == Faulted(cfg, old(State()), Disable(name), fault)
      ensures reply == FaultedReply(cfg, old(State()), Disable(name), fault)
    {
      hide CreatePlan, EnablePlan, RemovePlan, GetValue, FindPeer, WithoutPeer, RStripNewlines, Join, IsIdentifier;
      if !IsIdentifier(name) {
        return Refused(InvalidInput);
      }
      var found := FindPeer(conf, name);
      if found.None? {
        return Switched(name in peers, false);
      }
      ghost var ws := DisablePlan(State(), name).writes;
      Unroll(State(), ws);
      var block := Join(found.value.lines);
      var pub := GetValue(found.value.lines, PUBLIC_KEY);
      var done := 0;
      if name !in peers {
        if fault == done {
          return Refused(Failed);
        }
        peers := peers[name := RStripNewlines(block) + "\n"];
        done := done + 1;
      }
      if fault == done {
        return Refused(Failed);
      }
      conf := WithoutPeer(conf, name);
      done := done + 1;
      if pub.Some? {
        if fault == done {
          return Refused(Failed);
        }
        live := live - {pub.value};
      }
      return Switched(true, false);
    }

    /** `cmd_enable_peer`. */
    method EnablePeer(name: string, fault: nat) returns (reply: Reply)
      modifies this
      ensures State() == Faulted(cfg, old(State()), Enable(name), fault)
      ensures reply == FaultedReply(cfg, old(State()), Enable(name), fault)
    {
      hide CreatePlan, DisablePlan, RemovePlan, GetValue, FindPeer, AppendBlock, RStripNewlines, Lines, UsedAddresses,
           FirstAddress, IsIdentifier;
      if !IsIdentifier(name) {
        return Refused(InvalidInput);
      }
      ghost var ws := EnablePlan(cfg.lib, State(), name).writes;
      Unroll(State(), ws);
      var found := FindPeer(conf, name);
      var ls: seq<string>;
      var done := 0;
      if found.Some? {
        ls := found.value.lines;
      } else {
        if name !in peers {
          return Refused(NotFound);
        }
        ls := Lines(peers[name]);
        var ips := GetValue(ls, ALLOWED_IPS);
        if ips.None? {
          return Refused(Failed);
        }
        var address := FirstAddress(cfg.lib, ips.value);
        if address.None? {
          return Refused(Failed);
        }
        var used := Used(false);
        if address.value in used || fault == done {
          return Refused(Failed);
        }
        conf := AppendBlock(conf, RStripNewlines(peers[name]) + "\n");
        done := done + 1;
      }
      var pub, psk, ips := GetValue(ls, PUBLIC_KEY), GetValue(ls, PRESHARED_KEY), GetValue(ls, ALLOWED_IPS);
      if pub.None? || psk.None? || ips.None? || fault == done {
        return Refused(Failed);
      }
      live := live[pub.value := LivePeer(psk, ips)];
      return Switched(true, true);
    }

    /** `cmd_remove_peer`. */
    method RemovePeer(name: string, fault: nat) returns (reply: Reply)
      modifies this
      ensures State() == Faulted(cfg, old(State()), Remove(name), fault)
      ensures reply == FaultedReply(cfg, old(State()), Remove(name), fault)
    {
      if !IsIdentifier(name) {
        return Refused(InvalidInput);
      }
      ghost var d, ws := State(), RemovePlan(State(), name).writes;
      var pub := KeyToRemove(State(), name);
      var block := FindPeer(conf, name);
      var done := 0;
      if block.Some? {
        if fault == done {
          return Refused(Failed);
        }
        conf := WithoutPeer(conf, name);
        ApplyNext(d, ws, done);
        done := done + 1;
      }
      if pub.Some? {
        if fault == done {
          return Refused(Failed);
        }
        live := live - {pub.value};
        ApplyNext(d, ws, done);
        done := done + 1;
      }
      var found := pub.Some? || name in clients;
      assert ws[done..] == [DeleteClient(name), DeletePeer(name)];
      var ok := DeleteFiles(name, d, ws, done, fault);
      return if ok then Removed(found) else Refused(Failed);
    }

    /** The last two writes of `cmd_remove_peer`: the client's config, then the saved block. */
    method DeleteFiles(name: string, ghost d: Disk, ghost ws: seq<Write>, done: nat, fault: nat) returns (ok: bool)
      requires done + 2 == |ws| && ws[done..] == [DeleteClient(name), DeletePeer(name)] && done <= fault
      requires State() == ApplyAll(d, ws[..done])
      modifies this
      ensures ok == (fault >= |ws|)
      ensures State() == ApplyAll(d, if fault < |ws| then ws[..fault] else ws)
    {
      assert ws[done] == ws[done..][0] && ws[done + 1] == ws[done..][1];
      ApplyNext(d, ws, done);
      ApplyNext(d, ws, done + 1);
      assert ws[..|ws|] == ws;
      if fault == done {
        return false;
      }
      clients := clients - {name};
      if fault == done + 1 {
        return false;
      }
      peers := peers - {name};
      return true;
    }
  }

  lemma OneMoreFile(lib: IpLib, files: map<string, string>, names: set<string>, n: string)
    requires names + {n} <= files.Keys
    ensures AddressesOf(lib, files, names + {n}) == AddressesOf(lib, files, names) + Addresses(lib, Lines(files[n]))
  {
  }
}
