/**
 `remove-peer` and `enable-peer` can be run again: stopped after any of their writes and then run to
 success, they leave the same config, files and live peers as one uninterrupted run.
 */
module VpnctlRecovery {
  import opened Wrappers
  import opened ConfText
  import opened Vpnctl
  import opened VpnctlPlans
  import opened VpnctlViews

  // ----- remove -----

  lemma DroppedIsGone(lib: IpLib, conf: string, name: string)
    ensures FindPeer(WithoutPeer(conf, name), name).None?
  {
    WithoutViews(lib, conf, name);
    FindDrop(Views(lib, conf), name, name);
    FindConf(lib, WithoutPeer(conf, name), name);
  }

  /** Where a remove can stop. */
  predicate RemoveStopped(d: Disk, name: string, d': Disk) {
    var pub := KeyToRemove(d, name);
    || d' == d
    || d' == d.(conf := ConfWithout(d, name))
    || d' == d.(conf := ConfWithout(d, name), live := GoDown(d.live, pub))
    || d' == d.(conf := ConfWithout(d, name), live := GoDown(d.live, pub), clients := d.clients - {name})
    || d' == Disk(ConfWithout(d, name), d.peers - {name}, d.clients - {name}, GoDown(d.live, pub))
  }

  lemma RemoveStops(cfg: Settings, d: Disk, name: string, stop: nat)
    requires IsIdentifier(name)
    ensures RemoveStopped(d, name, Killed(cfg, d, Remove(name), stop))
  {
    hide GetValue, Lines, FindPeer, WithoutPeer, KeyToRemove, IsIdentifier, CreatePlan, DisablePlan, EnablePlan;
    var ws := RemovePlan(d, name).writes;
    var conf := if FindPeer(d.conf, name).Some? then [PutConf(WithoutPeer(d.conf, name))] else [];
    var live := if KeyToRemove(d, name).Some? then [DropLive(KeyToRemove(d, name).value)] else [];
    assert ws == conf + live + [DeleteClient(name), DeletePeer(name)];
    Unroll(d, ws);
  }

  /** The key in the client's saved file, which a remove falls back on once the block is gone. */
  function SavedKey(d: Disk, name: string): Option<string> {
    if name in d.peers then GetValue(Lines(d.peers[name]), PUBLIC_KEY) else None
  }

  /** Taking the saved key off the interface does what taking the block's key off does. */
  predicate SavedKeyServes(d: Disk, name: string) {
    FindPeer(d.conf, name).None? || GoDown(d.live, SavedKey(d, name)) == GoDown(d.live, KeyToRemove(d, name))
  }

  /** Wherever a remove stopped, what is left to do ends in the same disk. */
  lemma RestOfRemove(d: Disk, name: string, d': Disk)
    requires RemoveStopped(d, name, d') && FindPeer(WithoutPeer(d.conf, name), name).None? && SavedKeyServes(d, name)
    ensures ConfWithout(d', name) == ConfWithout(d, name)
    ensures d'.peers - {name} == d.peers - {name} && d'.clients - {name} == d.clients - {name}
    ensures GoDown(d'.live, KeyToRemove(d', name)) == GoDown(d.live, KeyToRemove(d, name))
  {
    hide GetValue, Lines, FindPeer, WithoutPeer;
  }

  lemma ExecutesRemove(cfg: Settings, d: Disk, name: string)
    requires IsIdentifier(name)
    ensures Execute(cfg, d, Remove(name))
         == Disk(ConfWithout(d, name), d.peers - {name}, d.clients - {name}, GoDown(d.live, KeyToRemove(d, name)))
  {
    hide IsIdentifier, RemovePlan, CreatePlan, DisablePlan, EnablePlan;
    RemoveEnds(d, name);
  }

  lemma RemoveRecoversAt(cfg: Settings, d: Disk, name: string, stop: nat)
    requires IsIdentifier(name) && SavedKeyServes(d, name)
    ensures Execute(cfg, Killed(cfg, d, Remove(name), stop), Remove(name)) == Execute(cfg, d, Remove(name))
  {
    hide Execute, Killed, RemoveStopped, KeyToRemove, ConfWithout, GoDown, FindPeer, WithoutPeer, IsIdentifier,
         SavedKeyServes;
    var d' := Killed(cfg, d, Remove(name), stop);
    RemoveStops(cfg, d, name, stop);
    DroppedIsGone(cfg.lib, d.conf, name);
    RestOfRemove(d, name, d');
    ExecutesRemove(cfg, d, name);
    ExecutesRemove(cfg, d', name);
  }

  /** A remove that stops once it has written the config, and is run again. */
  lemma StoppedAfterConf(cfg: Settings, d: Disk, name: string)
    requires IsIdentifier(name) && FindPeer(d.conf, name).Some?
    ensures Killed(cfg, d, Remove(name), 1) == d.(conf := WithoutPeer(d.conf, name))
    ensures Execute(cfg, d.(conf := WithoutPeer(d.conf, name)), Remove(name)).live == GoDown(d.live, SavedKey(d, name))
  {
    hide GetValue, Lines, FindPeer, WithoutPeer, IsIdentifier, CreatePlan, DisablePlan, EnablePlan;
    Unroll(d, RemovePlan(d, name).writes);
    DroppedIsGone(cfg.lib, d.conf, name);
    ExecutesRemove(cfg, d.(conf := WithoutPeer(d.conf, name)), name);
  }

  /** A remove that stops anywhere and is run again ends as if it had never stopped, exactly when the client
      has no block in the config, or its saved file gives the key that the block gives. A client of the
      outside script that was never disabled has no saved file. */
  lemma RemoveRecovers(cfg: Settings, d: Disk, name: string)
    requires IsIdentifier(name)
    ensures (forall stop: nat ::
               Execute(cfg, Killed(cfg, d, Remove(name), stop), Remove(name)) == Execute(cfg, d, Remove(name)))
            <==> SavedKeyServes(d, name)
  {
    hide Execute, Killed, KeyToRemove, ConfWithout, GoDown, FindPeer, WithoutPeer, IsIdentifier, SavedKey;
    if SavedKeyServes(d, name) {
      forall stop: nat
        ensures Execute(cfg, Killed(cfg, d, Remove(name), stop), Remove(name)) == Execute(cfg, d, Remove(name))
      {
        RemoveRecoversAt(cfg, d, name, stop);
      }
    } else {
      StoppedAfterConf(cfg, d, name);
      ExecutesRemove(cfg, d, name);
      assert Execute(cfg, Killed(cfg, d, Remove(name), 1), Remove(name)) != Execute(cfg, d, Remove(name));
    }
  }

  // ----- enable -----

  /** What goes live: the values of the block in the config, or else of the saved one. */
  function LinesToEnable(d: Disk, name: string): seq<string> {
    match FindPeer(d.conf, name)
    case Some(sec) => sec.lines
    case None => if name in d.peers then Lines(d.peers[name]) else []
  }

  function ConfWith(d: Disk, name: string): string {
    if FindPeer(d.conf, name).Some? || name !in d.peers then d.conf
    else AppendBlock(d.conf, RStripNewlines(d.peers[name]) + "\n")
  }

  lemma EnableEnds(cfg: Settings, d: Disk, name: string)
    requires PlanOf(cfg, d, Enable(name)).reply.Switched?
    ensures var ls := LinesToEnable(d, name);
            var pub, psk, ips := GetValue(ls, PUBLIC_KEY), GetValue(ls, PRESHARED_KEY), GetValue(ls, ALLOWED_IPS);
            && IsIdentifier(name) && pub.Some? && psk.Some? && ips.Some?
            && Execute(cfg, d, Enable(name))
               == d.(conf := ConfWith(d, name), live := d.live[pub.value := LivePeer(psk, ips)])
  {
    hide GetValue, Lines, FindPeer, AppendBlock, RStripNewlines, FirstAddress, Addresses, IsIdentifier;
    ApplyShort(d, EnablePlan(cfg.lib, d, name).writes);
  }

  lemma EnableStops(cfg: Settings, d: Disk, name: string, stop: nat)
    requires PlanOf(cfg, d, Enable(name)).reply.Switched?
    ensures Killed(cfg, d, Enable(name), stop) in {d, d.(conf := ConfWith(d, name)), Execute(cfg, d, Enable(name))}
  {
    hide GetValue, Lines, FindPeer, AppendBlock, RStripNewlines, FirstAddress, Addresses, IsIdentifier;
    Unroll(d, EnablePlan(cfg.lib, d, name).writes);
  }

  /** Once the block is back in the config, an enable finds it there with the saved values. */
  lemma EnableAgain(cfg: Settings, d: Disk, name: string, d': Disk)
    requires (name in d.peers ==> IsBlock(d.peers[name], name)) && PlanOf(cfg, d, Enable(name)).reply.Switched?
    requires d'.conf == ConfWith(d, name) && d'.peers == d.peers && d'.clients == d.clients
    ensures FindPeer(d'.conf, name).Some? && PlanOf(cfg, d', Enable(name)).reply == Switched(true, true)
    ensures forall key :: key in {PUBLIC_KEY, PRESHARED_KEY, ALLOWED_IPS} ==>
                            GetValue(LinesToEnable(d', name), key) == GetValue(LinesToEnable(d, name), key)
  {
    var lib := cfg.lib;
    FindConf(lib, d.conf, name);
    FindConf(lib, d'.conf, name);
    EnableEnds(cfg, d, name);
    if FindPeer(d.conf, name).None? {
      AppendSaved(lib, d.conf, d.peers[name], name);
      BlockView(lib, d.peers[name], name);
      FindAppend(Views(lib, d.conf), SavedView(lib, d.peers[name]), name);
    }
  }

  /** An enable that stopped anywhere and is run again ends as if it had never stopped, and succeeds. */
  lemma EnableRecovers(cfg: Settings, d: Disk, name: string, stop: nat)
    requires (name in d.peers ==> IsBlock(d.peers[name], name)) && PlanOf(cfg, d, Enable(name)).reply.Switched?
    ensures var d' := Killed(cfg, d, Enable(name), stop);
            PlanOf(cfg, d', Enable(name)).reply.Switched?
            && Execute(cfg, d', Enable(name)) == Execute(cfg, d, Enable(name))
  {
    hide Execute, Killed, GetValue, PlanOf, FindPeer, LinesToEnable, IsBlock, AppendBlock, RStripNewlines;
    var d' := Killed(cfg, d, Enable(name), stop);
    EnableStops(cfg, d, name, stop);
    EnableEnds(cfg, d, name);
    if d' != d {
      EnableAgain(cfg, d, name, d');
      EnableEnds(cfg, d', name);
      assert PUBLIC_KEY in {PUBLIC_KEY, PRESHARED_KEY, ALLOWED_IPS};
    }
  }

  // ----- again after success -----

  lemma CreateTwice(cfg: Settings, d: Disk, req: Request)
    requires PlanOf(cfg, d, Create(req)).reply.Created?
    ensures var d' := Execute(cfg, d, Create(req));
            Execute(cfg, d', Create(req)) == d'
            && PlanOf(cfg, d', Create(req)).reply == Created(PlanOf(cfg, d, Create(req)).reply.config, true)
  {
    hide Render, AppendBlock, IsIdentifier, UsedAddresses, ServerAddress, FreeAddress, DisablePlan, EnablePlan,
         RemovePlan;
    if req.name !in d.clients {
      ApplyShort(d, PlanOf(cfg, d, Create(req)).writes);
    }
  }

  lemma DisableTwice(cfg: Settings, d: Disk, name: string)
    requires IsIdentifier(name)
    ensures var d' := Execute(cfg, d, Disable(name));
            Execute(cfg, d', Disable(name)) == d'
              && PlanOf(cfg, d', Disable(name)).reply == PlanOf(cfg, d, Disable(name)).reply
  {
    hide GetValue, WithoutPeer, RStripNewlines, Join, FindPeer, IsIdentifier, CreatePlan, EnablePlan, RemovePlan;
    if FindPeer(d.conf, name).Some? {
      ApplyShort(d, DisablePlan(d, name).writes);
      DroppedIsGone(cfg.lib, d.conf, name);
    }
  }

  lemma EnableTwice(cfg: Settings, d: Disk, name: string)
    requires PlanOf(cfg, d, Enable(name)).reply.Switched? && (name in d.peers ==> IsBlock(d.peers[name], name))
    ensures var d' := Execute(cfg, d, Enable(name));
            Execute(cfg, d', Enable(name)) == d' && PlanOf(cfg, d', Enable(name)).reply.Switched?
  {
    hide Execute, GetValue, PlanOf, FindPeer, LinesToEnable, IsBlock, AppendBlock, RStripNewlines;
    EnableEnds(cfg, d, name);
    var d' := Execute(cfg, d, Enable(name));
    EnableAgain(cfg, d, name, d');
    EnableEnds(cfg, d', name);
    assert PUBLIC_KEY in {PUBLIC_KEY, PRESHARED_KEY, ALLOWED_IPS};
  }

  lemma RemoveTwice(cfg: Settings, d: Disk, name: string)
    requires IsIdentifier(name)
    ensures var d' := Execute(cfg, d, Remove(name));
            Execute(cfg, d', Remove(name)) == d' && PlanOf(cfg, d', Remove(name)).reply == Removed(false)
  {
    RemoveEnds(d, name);
    DroppedIsGone(cfg.lib, d.conf, name);
    var d' := Execute(cfg, d, Remove(name));
    RemoveEnds(d', name);
    hide GetValue, Lines, WithoutPeer, FindPeer, IsIdentifier, CreatePlan, DisablePlan, EnablePlan, Execute;
  }

  /** Every command that succeeded can be repeated: it succeeds again and changes nothing, and a create
      gives the same client's config. */
  lemma RepeatChangesNothing(cfg: Settings, d: Disk, c: Command)
    requires !PlanOf(cfg, d, c).reply.Refused?
    requires c.Enable? && c.name in d.peers ==> IsBlock(d.peers[c.name], c.name)
    ensures var d' := Execute(cfg, d, c);
            var first, again := PlanOf(cfg, d, c).reply, PlanOf(cfg, d', c).reply;
            && Execute(cfg, d', c) == d' && !again.Refused?
            && (c.Create? ==> again == Created(first.config, true))
            && (c.Disable? ==> again == first)
            && (c.Remove? ==> again == Removed(false))
  {
    Allowed(cfg, d, c);
    hide PlanOf, Execute, IsBlock, IsIdentifier;
    match c
    case Create(req) => CreateTwice(cfg, d, req);
    case Disable(name) => DisableTwice(cfg, d, name);
    case Enable(name) => EnableTwice(cfg, d, name);
    case Remove(name) => RemoveTwice(cfg, d, name);
  }

  /** The kind of a reply follows the command's. */
  lemma Allowed(cfg: Settings, d: Disk, c: Command)
    requires !PlanOf(cfg, d, c).reply.Refused?
    ensures match c
            case Create(_) => PlanOf(cfg, d, c).reply.Created?
            case Disable(name) => IsIdentifier(name) && PlanOf(cfg, d, c).reply.Switched?
            case Enable(name) => PlanOf(cfg, d, c).reply.Switched?
            case Remove(name) => IsIdentifier(name)
  {
  }
}
