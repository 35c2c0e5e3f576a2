/** Finding, dropping and appending peers, seen through the views of the sections. */
module VpnctlViews {
  import opened Wrappers
  import opened ConfText
  import opened ConfTextProofs
  import opened Vpnctl

  predicate Named(v: View, name: string) {
    v.header == PEER && v.name == Some(name)
  }

  function FindView(vs: seq<View>, name: string): Option<View> {
    if vs == [] then None else if Named(vs[0], name) then Some(vs[0]) else FindView(vs[1..], name)
  }

  function DropViews(vs: seq<View>, name: string): seq<View> {
    if vs == [] then []
    else if Named(vs[0], name) then DropViews(vs[1..], name)
    else [vs[0]] + DropViews(vs[1..], name)
  }

  /** A saved block, read as `block.splitlines()` is. */
  function SavedView(lib: IpLib, t: string): View {
    ViewOf(lib, Section(PEER, Lines(t)))
  }

  function ViewAddresses(vs: seq<View>): set<Ip> {
    if vs == [] then {} else vs[0].addresses + ViewAddresses(vs[1..])
  }

  // ----- the text operations on views -----

  lemma {:induction false} FindSections(lib: IpLib, secs: seq<Section>, name: string)
    ensures FindIn(secs, name).Some? == FindView(ViewsOf(lib, secs), name).Some?
    ensures FindIn(secs, name).Some? ==>
            ViewOf(lib, FindIn(secs, name).value) == FindView(ViewsOf(lib, secs), name).value
    ensures FindIn(secs, name).Some? ==>
              exists i :: 0 <= i < |secs| && secs[i] == FindIn(secs, name).value && IsNamedPeer(secs[i], name)
  {
    if secs != [] && !IsNamedPeer(secs[0], name) {
      FindSections(lib, secs[1..], name);
      if FindIn(secs[1..], name).Some? {
        var i :| 0 <= i < |secs[1..]| && secs[1..][i] == FindIn(secs[1..], name).value
            && IsNamedPeer(secs[1..][i], name);
        assert secs[i + 1] == FindIn(secs, name).value;
      }
    }
  }

  lemma FindConf(lib: IpLib, conf: string, name: string)
    ensures FindPeer(conf, name).Some? == FindView(Views(lib, conf), name).Some?
    ensures FindPeer(conf, name).Some? ==>
            ViewOf(lib, FindPeer(conf, name).value) == FindView(Views(lib, conf), name).value
  {
    FindSections(lib, Sections(conf), name);
  }

  lemma {:induction false} DropSections(lib: IpLib, secs: seq<Section>, name: string)
    ensures ViewsOf(lib, DropIn(secs, name)) == DropViews(ViewsOf(lib, secs), name)
  {
    if secs == [] {
    } else {
      DropSections(lib, secs[1..], name);
    }
  }

  lemma WithoutViews(lib: IpLib, conf: string, name: string)
    ensures Views(lib, WithoutPeer(conf, name)) == DropViews(Views(lib, conf), name)
  {
    WithoutPeerSections(conf, name);
    DropSections(lib, Sections(conf), name);
  }

  lemma BlockView(lib: IpLib, t: string, name: string)
    requires IsBlock(t, name)
    ensures SavedView(lib, t) == ViewOf(lib, Sections(t)[1]) && Named(SavedView(lib, t), name)
  {
    SectionsParsed(t);
    var secs := Sections(t);
    assert Flat(secs) == secs[0].lines + Flat(secs[1..]);
    assert secs[1..] == [secs[1]];
    FlatOne(secs[1]);
    assert secs[1] == Section(PEER, Lines(t));
  }

  /** Putting a saved block back. */
  lemma AppendSaved(lib: IpLib, conf: string, t: string, name: string)
    requires IsBlock(t, name)
    ensures RStripNewlines(t) + "\n" == t
    ensures Views(lib, AppendBlock(conf, t)) == Views(lib, conf) + [SavedView(lib, t)]
  {
    AppendViews(lib, conf, t, name);
    BlockView(lib, t, name);
  }

  /** What `disable-peer` saves when there is no saved block yet. */
  lemma SaveBlock(lib: IpLib, conf: string, name: string)
    requires FindPeer(conf, name).Some?
    ensures var saved := RStripNewlines(Join(FindPeer(conf, name).value.lines)) + "\n";
            IsBlock(saved, name) && Some(SavedView(lib, saved)) == FindView(Views(lib, conf), name)
  {
    var secs := Sections(conf);
    FindSections(lib, secs, name);
    var i :| 0 <= i < |secs| && secs[i] == FindIn(secs, name).value && IsNamedPeer(secs[i], name);
    SavedSection(lib, conf, i, name);
    BlockView(lib, RStripNewlines(Join(secs[i].lines)) + "\n", name);
  }

  lemma {:induction false} FlatAddresses(lib: IpLib, secs: seq<Section>)
    ensures Addresses(lib, Flat(secs)) == ViewAddresses(ViewsOf(lib, secs))
  {
    if secs == [] {
    } else {
      FlatAddresses(lib, secs[1..]);
      AddressesConcat(lib, secs[0].lines, Flat(secs[1..]));
      assert ViewsOf(lib, secs)[1..] == ViewsOf(lib, secs[1..]);
    }
  }

  /** `used_addresses` of a text is what its sections use. */
  lemma ConfAddresses(lib: IpLib, conf: string)
    ensures Addresses(lib, Lines(conf)) == ViewAddresses(Views(lib, conf))
  {
    SectionsParsed(conf);
    FlatAddresses(lib, Sections(conf));
  }

  // ----- views -----

  lemma {:induction false} FindAppend(vs: seq<View>, v: View, name: string)
    ensures FindView(vs + [v], name) == if FindView(vs, name).Some? then FindView(vs, name)
                                        else if Named(v, name) then Some(v) else None
  {
    if vs == [] {
      assert vs + [v] == [v];
      assert [v][1..] == [];
    } else {
      assert (vs + [v])[1..] == vs[1..] + [v];
      FindAppend(vs[1..], v, name);
    }
  }

  lemma {:induction false} FindDrop(vs: seq<View>, gone: string, name: string)
    ensures FindView(DropViews(vs, gone), name) == if name == gone then None else FindView(vs, name)
  {
    if vs == [] {
    } else {
      FindDrop(vs[1..], gone, name);
      if !Named(vs[0], gone) {
        assert DropViews(vs, gone)[1..] == DropViews(vs[1..], gone);
      }
    }
  }

  lemma {:induction false} DropMembers(vs: seq<View>, gone: string)
    ensures forall v :: v in DropViews(vs, gone) <==> v in vs && !Named(v, gone)
  {
    if vs == [] {
    } else {
      DropMembers(vs[1..], gone);
      assert vs == [vs[0]] + vs[1..];
    }
  }

  lemma {:induction false} FindMember(vs: seq<View>, name: string)
    ensures FindView(vs, name).Some? ==> FindView(vs, name).value in vs && Named(FindView(vs, name).value, name)
    ensures FindView(vs, name).None? ==> forall v :: v in vs ==> !Named(v, name)
  {
    if vs != [] && !Named(vs[0], name) {
      FindMember(vs[1..], name);
      assert vs == [vs[0]] + vs[1..];
    }
  }

  lemma {:induction false} AddressMember(vs: seq<View>, v: View)
    requires v in vs
    ensures v.addresses <= ViewAddresses(vs)
  {
    if v != vs[0] {
      assert vs == [vs[0]] + vs[1..];
      AddressMember(vs[1..], v);
    }
  }

  // ----- pairwise relations -----

  predicate Pairwise(vs: seq<View>, apart: (View, View) -> bool) {
    vs == [] || (Pairwise(vs[1..], apart) && forall w :: w in vs[1..] ==> apart(vs[0], w))
  }

  lemma {:induction false} PairwiseDrop(vs: seq<View>, gone: string, apart: (View, View) -> bool)
    requires Pairwise(vs, apart)
    ensures Pairwise(DropViews(vs, gone), apart)
  {
    if vs == [] {
    } else {
      PairwiseDrop(vs[1..], gone, apart);
      DropMembers(vs[1..], gone);
      if !Named(vs[0], gone) {
        assert DropViews(vs, gone)[1..] == DropViews(vs[1..], gone);
      }
    }
  }

  lemma {:induction false} PairwiseAppend(vs: seq<View>, v: View, apart: (View, View) -> bool)
    requires Pairwise(vs, apart) && forall w :: w in vs ==> apart(w, v)
    ensures Pairwise(vs + [v], apart)
  {
    if vs == [] {
      assert (vs + [v])[1..] == [];
    } else {
      assert (vs + [v])[1..] == vs[1..] + [v];
      PairwiseAppend(vs[1..], v, apart);
    }
  }

  /** Two different places of a pairwise list. */
  lemma {:induction false} PairwiseAt(vs: seq<View>, i: nat, j: nat, apart: (View, View) -> bool)
    requires Pairwise(vs, apart) && i < j < |vs|
    ensures apart(vs[i], vs[j])
  {
    if i == 0 {
      assert vs[j] == vs[1..][j - 1];
    } else {
      PairwiseAt(vs[1..], i - 1, j - 1, apart);
    }
  }

  /** Two different members of a pairwise list, for a symmetric relation. */
  lemma PairwiseMembers(vs: seq<View>, v: View, w: View, apart: (View, View) -> bool)
    requires Pairwise(vs, apart) && v in vs && w in vs && v != w
    ensures apart(v, w) || apart(w, v)
  {
    var i :| 0 <= i < |vs| && vs[i] == v;
    var j :| 0 <= j < |vs| && vs[j] == w;
    if i < j {
      PairwiseAt(vs, i, j, apart);
    } else {
      PairwiseAt(vs, j, i, apart);
    }
  }

  predicate NamesApart(v: View, w: View) {
    v.header == PEER && w.header == PEER && v.name.Some? ==> v.name != w.name
  }

  predicate KeysApart(v: View, w: View) {
    v.header == PEER && w.header == PEER && v.publicKey.Some? ==> v.publicKey != w.publicKey
  }

  predicate AddressesApart(v: View, w: View) {
    v.header == PEER && w.header == PEER ==> v.addresses !! w.addresses
  }
}
