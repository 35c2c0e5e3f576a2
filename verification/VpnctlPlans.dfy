/** Running a plan one write at a time. */
module VpnctlPlans {
  import opened Wrappers
  import opened ConfText
  import opened Vpnctl

  /** The states between at most four writes. */
  lemma Unroll(d: Disk, ws: seq<Write>)
    requires |ws| <= 4
    ensures ApplyAll(d, ws[..0]) == d
    ensures |ws| >= 1 ==> ApplyAll(d, ws[..1]) == Apply(d, ws[0])
    ensures |ws| >= 2 ==> ApplyAll(d, ws[..2]) == Apply(Apply(d, ws[0]), ws[1])
    ensures |ws| >= 3 ==> ApplyAll(d, ws[..3]) == Apply(Apply(Apply(d, ws[0]), ws[1]), ws[2])
    ensures |ws| >= 4 ==> ApplyAll(d, ws[..4]) == Apply(Apply(Apply(Apply(d, ws[0]), ws[1]), ws[2]), ws[3])
    ensures ws[..|ws|] == ws
  {
    ApplyNext(d, ws, 0);
    ApplyNext(d, ws, 1);
    ApplyNext(d, ws, 2);
    ApplyNext(d, ws, 3);
  }

  lemma ApplyNext(d: Disk, ws: seq<Write>, k: nat)
    ensures k < |ws| ==> ApplyAll(d, ws[..k + 1]) == Apply(ApplyAll(d, ws[..k]), ws[k])
  {
    if k < |ws| {
      assert ws[..k + 1] == ws[..k] + [ws[k]];
      ApplyConcat(d, ws[..k], [ws[k]]);
    }
  }

  lemma {:induction false} ApplyConcat(d: Disk, a: seq<Write>, b: seq<Write>)
    ensures ApplyAll(d, a + b) == ApplyAll(ApplyAll(d, a), b)
    decreases a
  {
    if a == [] {
      assert a + b == b;
    } else {
      assert (a + b)[1..] == a[1..] + b;
      ApplyConcat(Apply(d, a[0]), a[1..], b);
    }
  }

  lemma ApplyShort(d: Disk, ws: seq<Write>)
    requires 1 <= |ws| <= 4
    ensures |ws| == 1 ==> ApplyAll(d, ws) == Apply(d, ws[0])
    ensures |ws| == 2 ==> ApplyAll(d, ws) == Apply(Apply(d, ws[0]), ws[1])
    ensures |ws| == 3 ==> ApplyAll(d, ws) == Apply(Apply(Apply(d, ws[0]), ws[1]), ws[2])
    ensures |ws| == 4 ==> ApplyAll(d, ws) == Apply(Apply(Apply(Apply(d, ws[0]), ws[1]), ws[2]), ws[3])
  {
    Unroll(d, ws);
  }

  // ----- what a remove leaves -----

  function ConfWithout(d: Disk, name: string): string {
    if FindPeer(d.conf, name).Some? then WithoutPeer(d.conf, name) else d.conf
  }

  lemma RemoveEnds(d: Disk, name: string)
    requires IsIdentifier(name)
    ensures ApplyAll(d, RemovePlan(d, name).writes)
         == Disk(ConfWithout(d, name), d.peers - {name}, d.clients - {name}, GoDown(d.live, KeyToRemove(d, name)))
  {
    hide GetValue, FindPeer, WithoutPeer, Lines, IsIdentifier, KeyToRemove, CreatePlan, DisablePlan, EnablePlan;
    var conf := if FindPeer(d.conf, name).Some? then [PutConf(WithoutPeer(d.conf, name))] else [];
    var live := if KeyToRemove(d, name).Some? then [DropLive(KeyToRemove(d, name).value)] else [];
    var files := [DeleteClient(name), DeletePeer(name)];
    assert RemovePlan(d, name).writes == conf + live + files;
    ApplyConcat(d, conf + live, files);
    ApplyConcat(d, conf, live);
    ApplyAtMostOne(d, conf);
    ApplyAtMostOne(ApplyAll(d, conf), live);
    ApplyShort(ApplyAll(d, conf + live), files);
  }

  lemma ApplyAtMostOne(d: Disk, ws: seq<Write>)
    requires |ws| <= 1
    ensures ApplyAll(d, ws) == if ws == [] then d else Apply(d, ws[0])
  {
  }
}
