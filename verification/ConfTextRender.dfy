/** The block that `create-peer` writes parses back to what it was made from. */
module ConfTextRender {
  import opened Wrappers
  import opened ConfText
  import opened ConfTextProofs

  lemma LStripWord(s: string)
    requires s != "" && !IsSpace(s[0])
    ensures LStrip(s) == s
  {
  }

  lemma {:induction false} RStripKeepsFirst(s: string)
    requires s != "" && !IsSpace(s[0])
    ensures RStrip(s) != "" && RStrip(s)[0] == s[0]
  {
    if IsSpace(s[|s| - 1]) {
      RStripKeepsFirst(s[..|s| - 1]);
    }
  }

  lemma NotAHeader(l: string)
    requires l != "" && !IsSpace(l[0]) && l[0] != '['
    ensures !IsHeader(l)
  {
    RStripKeepsFirst(l);
  }

  lemma StripWord(v: string)
    requires IsWord(v)
    ensures Strip(v) == v && Strip(v + "\n") == v && Strip(" " + v + "\n") == v && Strip(" " + v) == v
  {
    StripNewline(v);
    StripNewline(" " + v);
    assert (" " + v)[1..] == v;
  }

  /** The line `key = v` gives its key that value. */
  lemma KeyLine(key: string, v: string)
    requires IsWord(key) && IsWord(v)
    ensures LineValue(key + " = " + v + "\n", key) == Some(v)
  {
    var l := key + " = " + v + "\n";
    LStripWord(l);
    assert l[..|key|] == key;
    assert l[|key|..] == " = " + v + "\n";
    var r := "= " + v + "\n";
    assert (" = " + v + "\n")[1..] == r;
    LStripWord(r);
    assert r[1..] == " " + v + "\n";
    StripWord(v);
  }

  /** ... and no other key any value. */
  lemma OtherKey(l: string, key: string)
    requires l != "" && !IsSpace(l[0]) && !StartsWith(l, key)
    ensures LineValue(l, key).None?
  {
    LStripWord(l);
  }

  lemma PeerHeader()
    ensures IsHeader("[Peer]\n") && Strip("[Peer]\n") == "[Peer]"
  {
    StripNewline("[Peer]");
    assert "[Peer]" + "\n" == "[Peer]\n";
    LStripWord("[Peer]");
    assert RStrip("[Peer]") == "[Peer]";
  }

  function NameLine(name: string): string { "# " + name + "\n" }
  function PublicKeyLine(pub: string): string { "PublicKey = " + pub + "\n" }
  function PresharedKeyLine(psk: string): string { "PresharedKey = " + psk + "\n" }
  function AllowedIpsLine(ips: string): string { "AllowedIPs = " + ips + "\n" }

  lemma {:induction false} WordHasNoNewline(v: string)
    requires IsWord(v)
    ensures forall i :: 0 <= i < |v| ==> v[i] != '\n'
  {
    forall i | 0 <= i < |v|
      ensures v[i] != '\n'
    {
      assert !IsSpace(v[i]);
    }
  }

  lemma FieldLine(prefix: string, v: string)
    requires IsWord(v) && prefix != "" && forall i :: 0 <= i < |prefix| ==> prefix[i] != '\n'
    ensures IsFullLine(prefix + v + "\n")
  {
    WordHasNoNewline(v);
  }

  /** One more ordinary line goes to a text's only section. */
  lemma GrowSection(t: string, sec: Section, l: string)
    requires EndsLine(t) && Sections(t) == [PREAMBLE, sec]
    requires IsFullLine(l) && !IsSpace(l[0]) && l[0] != '['
    ensures EndsLine(t + l) && Sections(t + l) == [PREAMBLE, sec.(lines := sec.lines + [l])]
  {
    OneMoreLine(t, l);
    NotAHeader(l);
  }

  function RenderedLines(name: string, pub: string, psk: string, ips: string): seq<string> {
    ["[Peer]\n", NameLine(name), PublicKeyLine(pub), PresharedKeyLine(psk), AllowedIpsLine(ips)]
  }

  lemma RenderSections(name: string, pub: string, psk: string, ips: string)
    requires IsWord(name) && IsWord(pub) && IsWord(psk) && IsWord(ips)
    ensures Sections(Render(name, pub, psk, ips)) == [PREAMBLE, Section(PEER, RenderedLines(name, pub, psk, ips))]
  {
    hide Sections, IsHeader, Strip;
    var header := "[Peer]\n";
    var ls := RenderedLines(name, pub, psk, ips);
    HeaderAlone();
    FieldLine("# ", name);
    GrowSection(header, Section(PEER, [header]), NameLine(name));
    var t1 := header + NameLine(name);
    assert [header] + [NameLine(name)] == ls[..2];
    FieldLine("PublicKey = ", pub);
    GrowSection(t1, Section(PEER, ls[..2]), PublicKeyLine(pub));
    var t2 := t1 + PublicKeyLine(pub);
    assert ls[..2] + [PublicKeyLine(pub)] == ls[..3];
    FieldLine("PresharedKey = ", psk);
    GrowSection(t2, Section(PEER, ls[..3]), PresharedKeyLine(psk));
    var t3 := t2 + PresharedKeyLine(psk);
    assert ls[..3] + [PresharedKeyLine(psk)] == ls[..4];
    FieldLine("AllowedIPs = ", ips);
    GrowSection(t3, Section(PEER, ls[..4]), AllowedIpsLine(ips));
    assert ls[..4] + [AllowedIpsLine(ips)] == ls;
  }

  lemma HeaderAlone()
    ensures Sections("[Peer]\n") == [PREAMBLE, Section(PEER, ["[Peer]\n"])]
  {
    PeerHeader();
    OneMoreLine("", "[Peer]\n");
    assert "" + "[Peer]\n" == "[Peer]\n";
  }

  lemma {:induction false} GetSkips(ls: seq<string>, key: string)
    requires |ls| > 0 && LineValue(ls[0], key).None?
    ensures GetValue(ls, key) == GetValue(ls[1..], key)
  {
  }

  lemma RenderName(name: string, pub: string, psk: string, ips: string)
    requires IsWord(name)
    ensures PeerName(RenderedLines(name, pub, psk, ips)) == Some(name)
  {
    var l := "# " + name;
    RStripNewline(l);
    assert NameLine(name) == l + "\n";
    assert l[|l| - 1] == name[|name| - 1];
    assert !IsSpace(name[|name| - 1]);
    assert RStripNewlines(l) == l;
    assert l[1..] == " " + name;
    StripWord(name);
  }

  lemma HeadLines(name: string, key: string)
    requires key in {PUBLIC_KEY, PRESHARED_KEY, ALLOWED_IPS}
    ensures LineValue("[Peer]\n", key).None? && LineValue(NameLine(name), key).None?
  {
    OtherKey("[Peer]\n", key);
    assert NameLine(name)[0] == '#';
    OtherKey(NameLine(name), key);
  }

  lemma RenderKeys(name: string, pub: string, psk: string, ips: string)
    requires IsWord(pub) && IsWord(psk) && IsWord(ips)
    ensures var ls := RenderedLines(name, pub, psk, ips);
            GetValue(ls, PUBLIC_KEY) == Some(pub) && GetValue(ls, PRESHARED_KEY) == Some(psk)
            && GetValue(ls, ALLOWED_IPS) == Some(ips)
  {
    var ls := RenderedLines(name, pub, psk, ips);
    BodyLines(pub, psk, ips);
    HeadLines(name, PUBLIC_KEY);
    HeadLines(name, PRESHARED_KEY);
    HeadLines(name, ALLOWED_IPS);
    hide LineValue, PublicKeyLine, PresharedKeyLine, AllowedIpsLine, NameLine;
    forall key | key in {PUBLIC_KEY, PRESHARED_KEY, ALLOWED_IPS}
      ensures GetValue(ls, key) == GetValue(ls[2..], key)
    {
      GetSkips(ls, key);
      GetSkips(ls[1..], key);
      assert ls[1..][1..] == ls[2..];
    }
    GetSkips(ls[2..], PRESHARED_KEY);
    GetSkips(ls[2..], ALLOWED_IPS);
    assert ls[2..][1..] == ls[3..];
    GetSkips(ls[3..], ALLOWED_IPS);
    assert ls[3..][1..] == ls[4..];
  }

  lemma BodyLines(pub: string, psk: string, ips: string)
    requires IsWord(pub) && IsWord(psk) && IsWord(ips)
    ensures LineValue(PublicKeyLine(pub), PUBLIC_KEY) == Some(pub)
    ensures LineValue(PublicKeyLine(pub), PRESHARED_KEY).None? && LineValue(PublicKeyLine(pub), ALLOWED_IPS).None?
    ensures LineValue(PresharedKeyLine(psk), PRESHARED_KEY) == Some(psk)
    ensures LineValue(PresharedKeyLine(psk), ALLOWED_IPS).None?
    ensures LineValue(AllowedIpsLine(ips), ALLOWED_IPS) == Some(ips)
  {
    hide LineValue;
    KeyLine(PUBLIC_KEY, pub);
    KeyLine(PRESHARED_KEY, psk);
    KeyLine(ALLOWED_IPS, ips);
    assert PublicKeyLine(pub) == PUBLIC_KEY + " = " + pub + "\n";
    assert PresharedKeyLine(psk) == PRESHARED_KEY + " = " + psk + "\n";
    assert AllowedIpsLine(ips) == ALLOWED_IPS + " = " + ips + "\n";
    NotTheseKeys(pub, psk);
  }

  lemma NotTheseKeys(pub: string, psk: string)
    ensures LineValue(PublicKeyLine(pub), PRESHARED_KEY).None? && LineValue(PublicKeyLine(pub), ALLOWED_IPS).None?
    ensures LineValue(PresharedKeyLine(psk), ALLOWED_IPS).None?
  {
    hide LineValue;
    assert PublicKeyLine(pub)[..12][1] != PRESHARED_KEY[1];
    OtherKey(PublicKeyLine(pub), PRESHARED_KEY);
    OtherKey(PublicKeyLine(pub), ALLOWED_IPS);
    OtherKey(PresharedKeyLine(psk), ALLOWED_IPS);
  }

  lemma {:induction false} NoComma(s: string)
    requires ',' !in s
    ensures SplitOn(s, ',') == [s]
  {
    if s == "" {
    } else {
      NoComma(s[1..]);
      assert s == [s[0]] + s[1..];
      assert s[0] in s;
    }
  }

  /** A value that is one address, as `create-peer` writes it. */
  lemma OneAddress(lib: IpLib, a: Ip)
    requires Prints(lib, a)
    ensures var v := lib.show(a) + "/32";
            IsWord(v) && ValueAddresses(lib, Some(v)) == {a} && FirstAddress(lib, v) == Some(a)
  {
    var v := lib.show(a) + "/32";
    assert IsWord(lib.show(a));
    assert forall i :: |lib.show(a)| <= i < |v| ==> v[i] == "/32"[i - |lib.show(a)|];
    assert IsWord(v);
    NoComma(v);
    StripWord(v);
    assert PartsAddresses(lib, [v]) == PartAddress(lib, v) + PartsAddresses(lib, []);
  }

  lemma RenderAddresses(lib: IpLib, name: string, pub: string, psk: string, ips: string)
    requires IsWord(pub) && IsWord(psk) && IsWord(ips)
    ensures Addresses(lib, RenderedLines(name, pub, psk, ips)) == ValueAddresses(lib, Some(ips))
  {
    var ls := RenderedLines(name, pub, psk, ips);
    HeadLines(name, ALLOWED_IPS);
    OtherKey(PublicKeyLine(pub), ALLOWED_IPS);
    OtherKey(PresharedKeyLine(psk), ALLOWED_IPS);
    KeyLine(ALLOWED_IPS, ips);
    assert AllowedIpsLine(ips) == ALLOWED_IPS + " = " + ips + "\n";
    hide LineValue, ValueAddresses, NameLine, PublicKeyLine, PresharedKeyLine, AllowedIpsLine;
    assert ls[1..][0] == NameLine(name);
    assert ls[1..][1..] == ls[2..];
    assert ls[2..][0] == PublicKeyLine(pub);
    assert ls[2..][1..] == ls[3..];
    assert ls[3..][0] == PresharedKeyLine(psk);
    assert ls[3..][1..] == ls[4..];
    assert ls[4..] == [AllowedIpsLine(ips)];
    assert ls[4..][1..] == [];
    NoAddresses(lib);
    assert Addresses(lib, ls[4..]) == ValueAddresses(lib, Some(ips));
    assert Addresses(lib, ls[3..]) == ValueAddresses(lib, Some(ips));
    assert Addresses(lib, ls[2..]) == ValueAddresses(lib, Some(ips));
    assert Addresses(lib, ls[1..]) == ValueAddresses(lib, Some(ips));
  }

  lemma NoAddresses(lib: IpLib)
    ensures ValueAddresses(lib, None) == {}
  {
  }

  /** A block in the shape `create-peer` writes, with any one-word `AllowedIPs`. */
  lemma RenderedView(lib: IpLib, name: string, pub: string, psk: string, ips: string)
    requires IsWord(name) && IsWord(pub) && IsWord(psk) && IsWord(ips)
    ensures var t := Render(name, pub, psk, ips);
            && IsBlock(t, name)
            && ViewOf(lib, Sections(t)[1])
               == View(PEER, Some(name), Some(pub), Some(psk), Some(ips), ValueAddresses(lib, Some(ips)),
                       RStripNewlines(t))
  {
    RenderSections(name, pub, psk, ips);
    RenderName(name, pub, psk, ips);
    RenderKeys(name, pub, psk, ips);
    RenderAddresses(lib, name, pub, psk, ips);
    RenderCore(name, pub, psk, ips);
  }

  /** `create-peer`'s block: one section that gives back name, keys and address. */
  lemma RenderedBlock(lib: IpLib, name: string, pub: string, psk: string, a: Ip)
    requires Prints(lib, a) && IsWord(name) && IsWord(pub) && IsWord(psk)
    ensures var ips := lib.show(a) + "/32";
            var t := Render(name, pub, psk, ips);
            && IsBlock(t, name)
            && ViewOf(lib, Sections(t)[1])
               == View(PEER, Some(name), Some(pub), Some(psk), Some(ips), {a}, RStripNewlines(t))
  {
    var ips := lib.show(a) + "/32";
    OneAddress(lib, a);
    RenderedView(lib, name, pub, psk, ips);
  }

  lemma RenderCore(name: string, pub: string, psk: string, ips: string)
    requires IsWord(ips)
    ensures var t := Render(name, pub, psk, ips);
            t == RStripNewlines(t) + "\n" && Join(RenderedLines(name, pub, psk, ips)) == t
  {
    var t := Render(name, pub, psk, ips);
    var cut := t[..|t| - 1];
    assert t == cut + "\n";
    RStripNewline(cut);
    assert cut[|cut| - 1] == ips[|ips| - 1];
    assert !IsSpace(ips[|ips| - 1]);
    var ls := RenderedLines(name, pub, psk, ips);
    assert ls == ["[Peer]\n"] + [NameLine(name)] + [PublicKeyLine(pub)] + [PresharedKeyLine(psk)]
           + [AllowedIpsLine(ips)];
    JoinConcat(["[Peer]\n"] + [NameLine(name)] + [PublicKeyLine(pub)] + [PresharedKeyLine(psk)], [AllowedIpsLine(ips)]);
    JoinConcat(["[Peer]\n"] + [NameLine(name)] + [PublicKeyLine(pub)], [PresharedKeyLine(psk)]);
    JoinConcat(["[Peer]\n"] + [NameLine(name)], [PublicKeyLine(pub)]);
    JoinConcat(["[Peer]\n"], [NameLine(name)]);
    JoinOne("[Peer]\n");
    JoinOne(NameLine(name));
    JoinOne(PublicKeyLine(pub));
    JoinOne(PresharedKeyLine(psk));
    JoinOne(AllowedIpsLine(ips));
  }
}
