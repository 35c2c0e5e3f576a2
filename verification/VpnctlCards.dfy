/**
 A manager of client cards: what the disk of `vpnctl` means once its texts are read. Each operation
 here is one command; `VpnctlRefinement` shows that the commands on text do exactly this.
 */
module VpnctlCards {
  import opened Wrappers
  import opened ConfText
  import opened Vpnctl
  import opened VpnctlViews

  /** The peers of the config, the saved blocks by name, the names that have a client config, and
      the live interface. */
  datatype Cards = Cards(views: seq<View>, saved: map<string, View>, files: set<string>, live: map<string, LivePeer>)

  datatype Client = Client(
    publicKey: Option<string>,
    presharedKey: Option<string>,
    allowedIps: Option<string>,
    enabled: bool)

  function ClientOf(v: View, enabled: bool): Client {
    Client(v.publicKey, v.presharedKey, v.allowedIps, enabled)
  }

  /** A client by name: its block in the config, or else its saved block, which is then disabled. */
  function ClientNamed(c: Cards, name: string): Option<Client> {
    match FindView(c.views, name)
    case Some(v) => Some(ClientOf(v, true))
    case None => if name in c.saved then Some(ClientOf(c.saved[name], false)) else None
  }

  function Names(vs: seq<View>): set<string> {
    set v | v in vs && v.header == PEER && v.name.Some? :: v.name.value
  }

  /** All clients, by name. */
  function Clients(c: Cards): map<string, Client> {
    map n | n in Names(c.views) + c.saved.Keys && ClientNamed(c, n).Some? :: ClientNamed(c, n).value
  }

  lemma ClientsAt(c: Cards, name: string)
    ensures name in Clients(c) <==> ClientNamed(c, name).Some?
    ensures name in Clients(c) ==> Clients(c)[name] == ClientNamed(c, name).value
  {
    FindMember(c.views, name);
  }

  // ----- the live interface -----

  /** The peers of a config, as `awg` would hold them. */
  function LiveOf(vs: seq<View>): map<string, LivePeer> {
    if vs == [] then map[]
    else
      var rest := LiveOf(vs[..|vs| - 1]);
      var v := vs[|vs| - 1];
      if v.header == PEER && v.publicKey.Some?
      then rest[v.publicKey.value := LivePeer(v.presharedKey, v.allowedIps)]
      else rest
  }

  lemma LiveAppend(vs: seq<View>, v: View)
    ensures LiveOf(vs + [v]) == if v.header == PEER && v.publicKey.Some?
                                then LiveOf(vs)[v.publicKey.value := LivePeer(v.presharedKey, v.allowedIps)]
                                else LiveOf(vs)
  {
    assert (vs + [v])[..|vs|] == vs;
  }

  predicate HasKey(v: View, pub: string) {
    v.header == PEER && v.publicKey == Some(pub)
  }

  lemma {:induction false} LiveKeys(vs: seq<View>, pub: string)
    ensures pub in LiveOf(vs) <==> exists v :: v in vs && HasKey(v, pub)
  {
    if vs == [] {
    } else {
      var init, last := vs[..|vs| - 1], vs[|vs| - 1];
      assert vs == init + [last];
      LiveKeys(init, pub);
      assert last in vs;
    }
  }

  lemma {:induction false} PairwiseInit(vs: seq<View>, apart: (View, View) -> bool)
    requires Pairwise(vs, apart) && vs != []
    ensures Pairwise(vs[..|vs| - 1], apart)
    ensures forall i :: 0 <= i < |vs| - 1 ==> apart(vs[i], vs[|vs| - 1])
  {
    if |vs| > 1 {
      PairwiseInit(vs[1..], apart);
      assert vs[..|vs| - 1][1..] == vs[1..][..|vs| - 2];
      assert vs[|vs| - 1] == vs[1..][|vs| - 2];
      forall i | 0 <= i < |vs| - 1
        ensures apart(vs[i], vs[|vs| - 1])
      {
        assert i > 0 ==> vs[i] == vs[1..][i - 1];
      }
    }
  }

  lemma {:induction false} LiveValue(vs: seq<View>, v: View, pub: string)
    requires Pairwise(vs, KeysApart) && v in vs && HasKey(v, pub)
    ensures pub in LiveOf(vs) && LiveOf(vs)[pub] == LivePeer(v.presharedKey, v.allowedIps)
  {
    var init, last := vs[..|vs| - 1], vs[|vs| - 1];
    assert vs == init + [last];
    if v != last {
      PairwiseInit(vs, KeysApart);
      LiveValue(init, v, pub);
    }
  }

  /** Dropping a peer drops its key and no other. */
  lemma LiveDrop(vs: seq<View>, name: string, v: View)
    requires Pairwise(vs, NamesApart) && Pairwise(vs, KeysApart) && FindView(vs, name) == Some(v)
    ensures LiveOf(DropViews(vs, name)) == if v.publicKey.Some? then LiveOf(vs) - {v.publicKey.value} else LiveOf(vs)
  {
    var kept := DropViews(vs, name);
    PairwiseDrop(vs, name, KeysApart);
    DropMembers(vs, name);
    FindMember(vs, name);
    forall pub
      ensures pub in LiveOf(kept) <==> pub in LiveOf(vs) && v.publicKey != Some(pub)
      ensures pub in LiveOf(kept) ==> LiveOf(kept)[pub] == LiveOf(vs)[pub]
    {
      LiveKeys(kept, pub);
      LiveKeys(vs, pub);
      if pub in LiveOf(vs) {
        var w :| w in vs && HasKey(w, pub);
        LiveValue(vs, w, pub);
        if v.publicKey == Some(pub) {
          forall u | u in kept
            ensures !HasKey(u, pub)
          {
            PairwiseMembers(vs, v, u, KeysApart);
          }
        } else {
          if Named(w, name) {
            assert w != v;
            PairwiseMembers(vs, v, w, NamesApart);
            assert false;
          }
          LiveValue(kept, w, pub);
        }
      }
    }
  }

  lemma {:induction false} NothingToDrop(vs: seq<View>, name: string)
    requires FindView(vs, name).None?
    ensures DropViews(vs, name) == vs
  {
    if vs == [] {
    } else {
      NothingToDrop(vs[1..], name);
    }
  }

  // ----- what fault-free runs keep -----

  /** Names and keys are unique, and saved blocks match the blocks they were saved from. */
  predicate Tidy(c: Cards) {
    && Pairwise(c.views, NamesApart)
    && Pairwise(c.views, KeysApart)
    && (forall n :: n in c.saved ==> Named(c.saved[n], n))
    && (forall n :: n in c.saved && FindView(c.views, n).Some? ==> FindView(c.views, n).value == c.saved[n])
    && (forall n, v :: n in c.saved && v in c.views && FindView(c.views, n).None? ==> KeysApart(c.saved[n], v))
    && (forall n, m :: n in c.saved && m in c.saved && n != m ==> KeysApart(c.saved[n], c.saved[m]))
  }

  /** The interface holds exactly the peers of the config. */
  predicate InStep(c: Cards) {
    c.live == LiveOf(c.views)
  }

  predicate FreshKey(c: Cards, pub: string) {
    (forall v :: v in c.views ==> !HasKey(v, pub)) && forall n :: n in c.saved ==> !HasKey(c.saved[n], pub)
  }

  /** No block, in the config or saved, has the name. */
  predicate Unknown(c: Cards, name: string) {
    FindView(c.views, name).None? && name !in c.saved
  }

  /** No other client's block or files change. */
  ghost predicate OthersUnchanged(c: Cards, c': Cards, name: string) {
    forall n :: n != name ==>
                  && FindView(c'.views, n) == FindView(c.views, n)
                  && (n in c'.saved <==> n in c.saved) && (n in c.saved ==> c'.saved[n] == c.saved[n])
                  && (n in c'.files <==> n in c.files)
  }

  function GoLive(live: map<string, LivePeer>, v: View): map<string, LivePeer>
    requires v.publicKey.Some?
  {
    live[v.publicKey.value := LivePeer(v.presharedKey, v.allowedIps)]
  }

  lemma NothingChanged(c: Cards, name: string)
    ensures OthersUnchanged(c, c, name)
  {
  }

  // ----- create -----

  function Added(c: Cards, name: string, v: View): Cards
    requires v.publicKey.Some?
  {
    Cards(c.views + [v], c.saved[name := v], c.files + {name}, GoLive(c.live, v))
  }

  lemma AddedViews(c: Cards, name: string, v: View)
    requires Tidy(c) && Unknown(c, name) && Named(v, name) && v.publicKey.Some? && FreshKey(c, v.publicKey.value)
    ensures Pairwise(c.views + [v], NamesApart) && Pairwise(c.views + [v], KeysApart)
    ensures forall n :: FindView(c.views + [v], n) == if n == name then Some(v) else FindView(c.views, n)
  {
    FindMember(c.views, name);
    forall w | w in c.views
      ensures NamesApart(w, v) && KeysApart(w, v)
    {
      assert !HasKey(w, v.publicKey.value);
    }
    PairwiseAppend(c.views, v, NamesApart);
    PairwiseAppend(c.views, v, KeysApart);
    forall n
      ensures FindView(c.views + [v], n) == if n == name then Some(v) else FindView(c.views, n)
    {
      FindAppend(c.views, v, n);
    }
  }

  /** A new client keeps the cards tidy and in step, and is the only change. */
  lemma AddedTidy(c: Cards, name: string, v: View)
    requires Tidy(c) && Unknown(c, name) && Named(v, name) && v.publicKey.Some? && FreshKey(c, v.publicKey.value)
    ensures var c' := Added(c, name, v);
            Tidy(c') && OthersUnchanged(c, c', name) && (InStep(c) ==> InStep(c'))
  {
    hide Pairwise, FindView, LiveOf;
    var c' := Added(c, name, v);
    AddedViews(c, name, v);
    LiveAppend(c.views, v);
    assert forall w :: w in c'.views ==> w in c.views || w == v;
    forall n | n in c.saved
      ensures n != name && KeysApart(c.saved[n], v) && KeysApart(v, c.saved[n])
    {
      assert !HasKey(c.saved[n], v.publicKey.value);
    }
  }

  lemma AddedClients(c: Cards, name: string, v: View)
    requires Tidy(c) && Unknown(c, name) && Named(v, name) && v.publicKey.Some? && FreshKey(c, v.publicKey.value)
    ensures name !in Clients(c) && Clients(Added(c, name, v)) == Clients(c)[name := ClientOf(v, true)]
  {
    var c' := Added(c, name, v);
    AddedViews(c, name, v);
    FindMember(c.views, name);
    ClientsAt(c, name);
    forall n
      ensures n in Clients(c') <==> n in Clients(c)[name := ClientOf(v, true)]
      ensures n in Clients(c') ==> Clients(c')[n] == Clients(c)[name := ClientOf(v, true)][n]
    {
      ClientsAt(c, n);
      ClientsAt(c', n);
    }
  }

  // ----- disable -----

  function TurnedOff(c: Cards, name: string, v: View): Cards {
    c.(views := DropViews(c.views, name), saved := c.saved[name := v], live := GoDown(c.live, v.publicKey))
  }

  lemma DroppedViews(c: Cards, name: string)
    requires Tidy(c)
    ensures var vs := DropViews(c.views, name);
            && Pairwise(vs, NamesApart) && Pairwise(vs, KeysApart)
            && (forall n :: FindView(vs, n) == if n == name then None else FindView(c.views, n))
            && (forall v :: v in vs <==> v in c.views && !Named(v, name))
  {
    PairwiseDrop(c.views, name, NamesApart);
    PairwiseDrop(c.views, name, KeysApart);
    DropMembers(c.views, name);
    forall n
      ensures FindView(DropViews(c.views, name), n) == if n == name then None else FindView(c.views, n)
    {
      FindDrop(c.views, name, n);
    }
  }

  /** The key of a block in the config is no other block's, in the config or saved. */
  lemma KeyOfEnabled(c: Cards, name: string, v: View)
    requires Tidy(c) && FindView(c.views, name) == Some(v)
    ensures forall w :: w in c.views && w != v ==> KeysApart(v, w) && KeysApart(w, v)
    ensures forall m :: m in c.saved && m != name ==> KeysApart(v, c.saved[m]) && KeysApart(c.saved[m], v)
  {
    FindMember(c.views, name);
    forall w | w in c.views && w != v
      ensures KeysApart(v, w) && KeysApart(w, v)
    {
      PairwiseMembers(c.views, v, w, KeysApart);
    }
    forall m | m in c.saved && m != name
      ensures KeysApart(v, c.saved[m]) && KeysApart(c.saved[m], v)
    {
      FindMember(c.views, m);
    }
  }

  lemma TurnedOffTidy(c: Cards, name: string, v: View)
    requires Tidy(c) && FindView(c.views, name) == Some(v)
    ensures var c' := TurnedOff(c, name, v);
            Tidy(c') && OthersUnchanged(c, c', name) && (InStep(c) ==> InStep(c'))
  {
    hide Pairwise, LiveOf, DropViews, ViewAddresses;
    FindMember(c.views, name);
    DroppedViews(c, name);
    KeyOfEnabled(c, name, v);
    LiveDrop(c.views, name, v);
  }

  function Switch(m: map<string, Client>, name: string, enabled: bool): map<string, Client> {
    if name in m then m[name := m[name].(enabled := enabled)] else m
  }

  lemma SwitchedClients(c: Cards, c': Cards, name: string, enabled: bool)
    requires ClientNamed(c, name).Some?
    requires ClientNamed(c', name) == Some(ClientNamed(c, name).value.(enabled := enabled))
    requires forall n :: n != name ==> ClientNamed(c', n) == ClientNamed(c, n)
    ensures name in Clients(c) && Clients(c') == Switch(Clients(c), name, enabled)
  {
    ClientsAt(c, name);
    forall n
      ensures n in Clients(c') <==> n in Switch(Clients(c), name, enabled)
      ensures n in Clients(c') ==> Clients(c')[n] == Switch(Clients(c), name, enabled)[n]
    {
      ClientsAt(c, n);
      ClientsAt(c', n);
    }
  }

  lemma TurnedOffClients(c: Cards, name: string, v: View)
    requires Tidy(c) && FindView(c.views, name) == Some(v)
    ensures name in Clients(c) && Clients(TurnedOff(c, name, v)) == Switch(Clients(c), name, false)
  {
    DroppedViews(c, name);
    SwitchedClients(c, TurnedOff(c, name, v), name, false);
  }

  // ----- enable -----

  function TurnedOn(c: Cards, name: string, v: View): Cards
    requires v.publicKey.Some?
  {
    c.(views := if FindView(c.views, name).Some? then c.views else c.views + [v], live := GoLive(c.live, v))
  }

  /** The block an enable puts live: the one in the config, or else the saved one. */
  function BlockOf(c: Cards, name: string): Option<View> {
    if FindView(c.views, name).Some? then FindView(c.views, name)
    else if name in c.saved then Some(c.saved[name]) else None
  }

  lemma TurnedOnViews(c: Cards, name: string, v: View)
    requires Tidy(c) && FindView(c.views, name).None? && name in c.saved && c.saved[name] == v
    ensures Pairwise(c.views + [v], NamesApart) && Pairwise(c.views + [v], KeysApart)
    ensures forall n :: FindView(c.views + [v], n) == if n == name then Some(v) else FindView(c.views, n)
  {
    FindMember(c.views, name);
    forall w | w in c.views
      ensures NamesApart(w, v) && KeysApart(w, v)
    {
      assert KeysApart(c.saved[name], w);
    }
    PairwiseAppend(c.views, v, NamesApart);
    PairwiseAppend(c.views, v, KeysApart);
    forall n
      ensures FindView(c.views + [v], n) == if n == name then Some(v) else FindView(c.views, n)
    {
      FindAppend(c.views, v, n);
    }
  }

  lemma TurnedOnTidy(c: Cards, name: string, v: View)
    requires Tidy(c) && BlockOf(c, name) == Some(v) && v.publicKey.Some?
    ensures var c' := TurnedOn(c, name, v);
            Tidy(c') && OthersUnchanged(c, c', name) && (InStep(c) ==> InStep(c'))
  {
    FindMember(c.views, name);
    if FindView(c.views, name).Some? {
      LiveValue(c.views, v, v.publicKey.value);
    } else {
      TurnedOnViews(c, name, v);
      LiveAppend(c.views, v);
    }
  }

  lemma TurnedOnClients(c: Cards, name: string, v: View)
    requires Tidy(c) && BlockOf(c, name) == Some(v) && v.publicKey.Some?
    ensures name in Clients(c) && Clients(TurnedOn(c, name, v)) == Switch(Clients(c), name, true)
  {
    if FindView(c.views, name).None? {
      TurnedOnViews(c, name, v);
    }
    SwitchedClients(c, TurnedOn(c, name, v), name, true);
  }

  // ----- remove -----

  function KeyNamed(c: Cards, name: string): Option<string> {
    match FindView(c.views, name)
    case Some(v) => v.publicKey
    case None => if name in c.saved then c.saved[name].publicKey else None
  }

  function Forgotten(c: Cards, name: string): Cards {
    Cards(DropViews(c.views, name), c.saved - {name}, c.files - {name}, GoDown(c.live, KeyNamed(c, name)))
  }

  lemma ForgottenTidy(c: Cards, name: string)
    requires Tidy(c)
    ensures var c' := Forgotten(c, name);
            Tidy(c') && OthersUnchanged(c, c', name) && (InStep(c) ==> InStep(c'))
  {
    hide Pairwise, ViewAddresses, DropViews, LiveOf, FindView;
    DroppedViews(c, name);
    if FindView(c.views, name).Some? {
      LiveDrop(c.views, name, FindView(c.views, name).value);
    } else {
      NothingToDrop(c.views, name);
      if KeyNamed(c, name).Some? {
        LiveKeys(c.views, KeyNamed(c, name).value);
        assert forall v :: v in c.views ==> KeysApart(c.saved[name], v);
      }
    }
  }

  lemma ForgottenClients(c: Cards, name: string)
    requires Tidy(c)
    ensures Clients(Forgotten(c, name)) == Clients(c) - {name}
  {
    hide Tidy, Pairwise, DropViews, FindView, LiveOf, KeyNamed, Clients;
    var c' := Forgotten(c, name);
    DroppedViews(c, name);
    forall n
      ensures n in Clients(c') <==> n in Clients(c) - {name}
      ensures n in Clients(c') ==> Clients(c')[n] == Clients(c)[n]
    {
      ClientsAt(c, n);
      ClientsAt(c', n);
    }
  }
}
