/**
 Parsing and printing of `awg1.conf` commute: splitting is lossless, dropping and appending blocks
 act on the sections alone, and trailing newlines change nothing the program reads.
 */
module ConfTextProofs {
  import opened Wrappers
  import opened ConfText

  // ----- lines -----

  lemma {:induction false} JoinConcat(a: seq<string>, b: seq<string>)
    ensures Join(a + b) == Join(a) + Join(b)
  {
    if a == [] {
      assert a + b == b;
    } else {
      assert (a + b)[1..] == a[1..] + b;
      JoinConcat(a[1..], b);
    }
  }

  lemma {:induction false} FirstLineIsLine(t: string)
    requires t != ""
    ensures IsLine(FirstLine(t))
    ensures |FirstLine(t)| < |t| ==> IsFullLine(FirstLine(t))
  {
    if t[0] != '\n' && |t| > 1 {
      FirstLineIsLine(t[1..]);
    }
  }

  predicate AreLines(ls: seq<string>) {
    forall i :: 0 <= i < |ls| ==> if i < |ls| - 1 then IsFullLine(ls[i]) else IsLine(ls[i])
  }

  /** Splitting into lines loses nothing. */
  lemma {:induction false} JoinLines(t: string)
    ensures Join(Lines(t)) == t && AreLines(Lines(t))
    decreases |t|
  {
    if t == "" {
    } else {
      var l := FirstLine(t);
      FirstLineIsLine(t);
      JoinLines(t[|l|..]);
      assert t == l + t[|l|..];
    }
  }

  lemma {:induction false} FirstLineOfFull(l: string, rest: string)
    requires IsFullLine(l)
    ensures FirstLine(l + rest) == l
  {
    if |l| > 1 {
      assert (l + rest)[1..] == l[1..] + rest;
      FirstLineOfFull(l[1..], rest);
    }
  }

  lemma {:induction false} FirstLineOfLine(l: string)
    requires IsLine(l)
    ensures FirstLine(l) == l
  {
    if |l| > 1 {
      FirstLineOfLine(l[1..]);
    }
  }

  /** Joined lines split into the same lines. */
  lemma {:induction false} LinesJoin(ls: seq<string>)
    requires AreLines(ls)
    ensures Lines(Join(ls)) == ls
  {
    if |ls| == 1 {
      assert Join(ls) == ls[0];
      FirstLineOfLine(ls[0]);
    } else if |ls| > 1 {
      var rest := ls[1..];
      assert forall i :: 0 <= i < |rest| ==> rest[i] == ls[i + 1];
      LinesJoin(rest);
      FirstLineOfFull(ls[0], Join(rest));
      assert (ls[0] + Join(rest))[|ls[0]|..] == Join(rest);
    }
  }

  lemma {:induction false} LastOfJoin(ls: seq<string>)
    requires |ls| > 0 && AreLines(ls)
    ensures Join(ls) != "" && Join(ls)[|Join(ls)| - 1] == ls[|ls| - 1][|ls[|ls| - 1]| - 1]
  {
    if |ls| == 1 {
      assert Join(ls) == ls[0];
    } else {
      var rest := ls[1..];
      assert forall i :: 0 <= i < |rest| ==> rest[i] == ls[i + 1];
      LastOfJoin(rest);
    }
  }

  /** After a finished line, the next text starts a new line. */
  lemma LinesConcat(a: string, b: string)
    requires EndsLine(a)
    ensures Lines(a + b) == Lines(a) + Lines(b)
  {
    var la, lb := Lines(a), Lines(b);
    JoinLines(a);
    JoinLines(b);
    if la != [] {
      LastOfJoin(la);
    }
    JoinConcat(la, lb);
    AreLinesConcat(la, lb);
    LinesJoin(la + lb);
  }

  lemma AreLinesConcat(a: seq<string>, b: seq<string>)
    requires AreLines(a) && AreLines(b)
    requires a != [] ==> IsFullLine(a[|a| - 1])
    ensures AreLines(a + b)
  {
    forall i | 0 <= i < |a + b|
      ensures if i < |a + b| - 1 then IsFullLine((a + b)[i]) else IsLine((a + b)[i])
    {
      if i < |a| {
        assert (a + b)[i] == a[i];
      } else {
        assert (a + b)[i] == b[i - |a|];
      }
    }
  }

  /** An unfinished last line grows. */
  lemma LinesFinish(t: string)
    requires !EndsLine(t)
    ensures var ls := Lines(t);
            |ls| > 0 && Lines(t + "\n") == ls[..|ls| - 1] + [ls[|ls| - 1] + "\n"]
  {
    var ls := Lines(t);
    JoinLines(t);
    assert ls != [];
    hide Lines;
    LastOfJoin(ls);
    JoinFinished(ls);
    FinishLine(ls);
    LinesJoin(ls[..|ls| - 1] + [ls[|ls| - 1] + "\n"]);
  }

  lemma JoinFinished(ls: seq<string>)
    requires ls != []
    ensures Join(ls[..|ls| - 1] + [ls[|ls| - 1] + "\n"]) == Join(ls) + "\n"
  {
    var init, last := ls[..|ls| - 1], ls[|ls| - 1];
    hide Join;
    JoinLast(ls);
    JoinConcat(init, [last + "\n"]);
    JoinOne(last + "\n");
    Associative(Join(init), last, "\n");
  }

  lemma JoinLast(ls: seq<string>)
    requires ls != []
    ensures Join(ls) == Join(ls[..|ls| - 1]) + ls[|ls| - 1]
  {
    hide Join;
    assert ls == ls[..|ls| - 1] + [ls[|ls| - 1]];
    JoinConcat(ls[..|ls| - 1], [ls[|ls| - 1]]);
    JoinOne(ls[|ls| - 1]);
  }

  lemma FinishLine(ls: seq<string>)
    requires AreLines(ls) && ls != []
    requires var l := ls[|ls| - 1]; l[|l| - 1] != '\n'
    ensures AreLines(ls[..|ls| - 1] + [ls[|ls| - 1] + "\n"])
  {
    var init, last := ls[..|ls| - 1], ls[|ls| - 1];
    assert forall i :: 0 <= i < |init| ==> init[i] == ls[i];
    assert IsFullLine(last + "\n");
  }

  lemma JoinOne(l: string)
    ensures Join([l]) == l
  {
    assert [l][1..] == [];
  }

  // ----- sections -----

  function Flat(secs: seq<Section>): seq<string> {
    if secs == [] then [] else secs[0].lines + Flat(secs[1..])
  }

  lemma {:induction false} FlatConcat(a: seq<Section>, b: seq<Section>)
    ensures Flat(a + b) == Flat(a) + Flat(b)
  {
    if a == [] {
      assert a + b == b;
    } else {
      assert (a + b)[1..] == a[1..] + b;
      FlatConcat(a[1..], b);
    }
  }

  lemma {:induction false} TextOfFlat(secs: seq<Section>)
    ensures TextOf(secs) == Join(Flat(secs))
  {
    if secs == [] {
    } else {
      TextOfFlat(secs[1..]);
      JoinConcat(secs[0].lines, Flat(secs[1..]));
    }
  }

  predicate NoHeaders(ls: seq<string>) {
    forall i :: 0 <= i < |ls| ==> !IsHeader(ls[i])
  }

  predicate IsSection(sec: Section) {
    sec.lines != [] && IsHeader(sec.lines[0]) && sec.header == Some(Strip(sec.lines[0])) && NoHeaders(sec.lines[1..])
  }

  /** The shape of every parse: a preamble, then sections that begin with their header. */
  predicate Parsed(secs: seq<Section>) {
    && |secs| >= 1 && secs[0].header.None? && NoHeaders(secs[0].lines)
    && forall i :: 1 <= i < |secs| ==> IsSection(secs[i])
  }

  lemma FlatOne(sec: Section)
    ensures Flat([sec]) == sec.lines
  {
    assert [sec][1..] == [];
  }

  lemma FlatLast(secs: seq<Section>)
    requires |secs| >= 1
    ensures Flat(secs) == Flat(secs[..|secs| - 1]) + secs[|secs| - 1].lines
  {
    assert secs == secs[..|secs| - 1] + [secs[|secs| - 1]];
    FlatConcat(secs[..|secs| - 1], [secs[|secs| - 1]]);
    FlatOne(secs[|secs| - 1]);
  }

  lemma PushFlat(secs: seq<Section>, l: string)
    requires |secs| >= 1
    ensures Flat(Push(secs, l)) == Flat(secs) + [l]
  {
    hide IsHeader, Flat;
    if IsHeader(l) {
      FlatConcat(secs, [Section(Some(Strip(l)), [l])]);
      FlatOne(Section(Some(Strip(l)), [l]));
    } else {
      var init, current := secs[..|secs| - 1], secs[|secs| - 1];
      var longer := current.(lines := current.lines + [l]);
      FlatLast(secs);
      FlatConcat(init, [longer]);
      FlatOne(longer);
      Associative(Flat(init), current.lines, [l]);
    }
  }

  lemma Associative<T>(a: seq<T>, b: seq<T>, c: seq<T>)
    ensures (a + b) + c == a + (b + c)
  {
  }

  lemma PushParsed(secs: seq<Section>, l: string)
    requires Parsed(secs)
    ensures Parsed(Push(secs, l))
  {
    var n := |secs|;
    var r := Push(secs, l);
    if IsHeader(l) {
      assert r[..n] == secs;
      assert IsSection(r[n]);
    } else {
      assert r[..n - 1] == secs[..n - 1];
      assert r[n - 1].lines == secs[n - 1].lines + [l];
      if n > 1 {
        assert r[n - 1].lines[1..] == secs[n - 1].lines[1..] + [l];
      }
    }
  }

  /** Grouping loses nothing and always has the shape above. */
  lemma {:induction false} GroupParsed(ls: seq<string>)
    ensures Parsed(Group(ls)) && Flat(Group(ls)) == ls
  {
    if ls == [] {
    } else {
      hide Push, Parsed, Flat;
      GroupParsed(ls[..|ls| - 1]);
      PushParsed(Group(ls[..|ls| - 1]), ls[|ls| - 1]);
      PushFlat(Group(ls[..|ls| - 1]), ls[|ls| - 1]);
    }
  }

  /** The parse before its last line. */
  lemma Unpush(secs: seq<Section>) returns (fewer: seq<Section>, l: string)
    requires Parsed(secs) && Flat(secs) != []
    ensures Parsed(fewer) && Push(fewer, l) == secs
  {
    var n := |secs|;
    var last := secs[n - 1];
    FlatLast(secs);
    assert last.lines != [] by {
      assert n == 1 ==> secs[..n - 1] == [];
    }
    var m := |last.lines|;
    l := last.lines[m - 1];
    if n > 1 && m == 1 {
      fewer := secs[..n - 1];
      assert secs == fewer + [last];
      assert last.lines == [l];
    } else {
      var shorter := last.(lines := last.lines[..m - 1]);
      fewer := secs[..n - 1] + [shorter];
      if n > 1 {
        assert l == last.lines[1..][m - 2];
        assert shorter.lines[1..] == last.lines[1..][..m - 2];
      }
      assert Parsed(fewer);
      assert last.lines == shorter.lines + [l];
      assert fewer[..|fewer| - 1] == secs[..n - 1];
      assert secs == secs[..n - 1] + [last];
    }
  }

  /** A text is determined by its sections: parsing what a parse prints gives it back. */
  lemma {:induction false} GroupFlat(secs: seq<Section>)
    requires Parsed(secs)
    ensures Group(Flat(secs)) == secs
    decreases |Flat(secs)|
  {
    var ls := Flat(secs);
    if ls == [] {
      FlatLast(secs);
      assert |secs| == 1;
      assert secs[0] == PREAMBLE;
    } else {
      var fewer, l := Unpush(secs);
      PushFlat(fewer, l);
      assert ls[..|ls| - 1] == Flat(fewer);
      GroupFlat(fewer);
    }
  }

  lemma SectionsParsed(t: string)
    ensures Parsed(Sections(t)) && Flat(Sections(t)) == Lines(t) && TextOf(Sections(t)) == t
  {
    GroupParsed(Lines(t));
    TextOfFlat(Sections(t));
    JoinLines(t);
  }

  lemma ParsedConcat(a: seq<Section>, b: seq<Section>)
    requires Parsed(a) && Parsed(b)
    ensures Parsed(a + b[1..])
  {
    var r := a + b[1..];
    forall i | 1 <= i < |r|
      ensures IsSection(r[i])
    {
      assert r[i] == if i < |a| then a[i] else b[i - |a| + 1];
    }
  }

  /** Lines that begin with a header add their own sections. */
  lemma GroupConcat(a: seq<string>, b: seq<string>)
    requires Group(b)[0] == PREAMBLE
    ensures Group(a + b) == Group(a) + Group(b)[1..]
  {
    GroupParsed(a);
    GroupParsed(b);
    ParsedConcat(Group(a), Group(b));
    FlatTail(Group(a), Group(b));
    GroupFlat(Group(a) + Group(b)[1..]);
  }

  lemma FlatTail(a: seq<Section>, b: seq<Section>)
    requires |b| >= 1 && b[0].lines == []
    ensures Flat(a + b[1..]) == Flat(a) + Flat(b)
  {
    assert b == [b[0]] + b[1..];
    FlatConcat([b[0]], b[1..]);
    FlatOne(b[0]);
    FlatConcat(a, b[1..]);
  }

  lemma {:induction false} FlatSlice(secs: seq<Section>, i: nat)
    requires i < |secs|
    ensures Flat(secs) == Flat(secs[..i]) + secs[i].lines + Flat(secs[i + 1..])
  {
    if i > 0 {
      var rest := secs[1..];
      FlatSlice(rest, i - 1);
      assert secs[..i][1..] == rest[..i - 1];
      assert secs[i + 1..] == rest[i..];
    }
  }

  lemma AreLinesSlice(a: seq<string>, b: seq<string>, c: seq<string>)
    requires AreLines(a + b + c)
    ensures AreLines(b)
  {
    assert forall k :: 0 <= k < |b| ==> b[k] == (a + b + c)[|a| + k];
  }

  // ----- dropping a peer -----

  lemma {:induction false} DropParsed(secs: seq<Section>, name: string)
    requires forall i :: 0 <= i < |secs| ==> IsSection(secs[i])
    ensures forall i :: 0 <= i < |DropIn(secs, name)| ==> IsSection(DropIn(secs, name)[i])
  {
    if secs == [] {
    } else {
      assert forall i :: 0 <= i < |secs[1..]| ==> secs[1..][i] == secs[i + 1];
      DropParsed(secs[1..], name);
    }
  }

  /** Whether these are the lines of a text, with only the last perhaps unfinished. */
  lemma {:induction false} DropLines(secs: seq<Section>, name: string)
    requires AreLines(Flat(secs))
    ensures AreLines(Flat(DropIn(secs, name)))
    ensures (forall l :: l in Flat(secs) ==> IsFullLine(l)) ==>
              forall l :: l in Flat(DropIn(secs, name)) ==> IsFullLine(l)
  {
    hide AreLines, IsFullLine, IsNamedPeer;
    DropSubset(secs, name);
    if secs == [] {
    } else {
      var head, rest := secs[0].lines, Flat(secs[1..]);
      assert Flat(secs) == head + rest;
      LinesOfTail(head, rest);
      DropLines(secs[1..], name);
      if !IsNamedPeer(secs[0], name) {
        var kept := DropIn(secs[1..], name);
        assert DropIn(secs, name)[1..] == kept;
        DropSubset(secs[1..], name);
        OtherTail(head, rest, Flat(kept));
      }
    }
  }

  lemma LinesOfTail(head: seq<string>, rest: seq<string>)
    requires AreLines(head + rest)
    ensures AreLines(rest)
  {
    hide IsFullLine, IsLine;
    assert forall i :: 0 <= i < |rest| ==> rest[i] == (head + rest)[i + |head|];
  }

  lemma OtherTail(head: seq<string>, rest: seq<string>, kept: seq<string>)
    requires AreLines(head + rest) && AreLines(kept) && (kept != [] ==> rest != [])
    ensures AreLines(head + kept)
  {
    assert forall i :: 0 <= i < |head| ==> (head + rest)[i] == head[i];
    assert forall i :: 0 <= i < |head| && i < |head + rest| - 1 ==> IsFullLine(head[i]);
  }

  lemma {:induction false} DropSubset(secs: seq<Section>, name: string)
    ensures forall l :: l in Flat(DropIn(secs, name)) ==> l in Flat(secs)
    ensures |Flat(DropIn(secs, name))| <= |Flat(secs)|
  {
    if secs == [] {
    } else {
      DropSubset(secs[1..], name);
      if !IsNamedPeer(secs[0], name) {
        assert DropIn(secs, name)[1..] == DropIn(secs[1..], name);
      }
    }
  }

  /** Dropping a peer from the text drops its sections and touches no other. */
  lemma WithoutPeerSections(conf: string, name: string)
    ensures Sections(WithoutPeer(conf, name)) == DropIn(Sections(conf), name)
  {
    var secs := Sections(conf);
    SectionsParsed(conf);
    JoinLines(conf);
    var kept := DropIn(secs, name);
    assert kept == [secs[0]] + DropIn(secs[1..], name);
    assert forall i :: 0 <= i < |secs[1..]| ==> secs[1..][i] == secs[i + 1];
    DropParsed(secs[1..], name);
    assert Parsed(kept);
    DropLines(secs, name);
    TextOfFlat(kept);
    LinesJoin(Flat(kept));
    GroupFlat(kept);
  }

  // ----- trailing newlines -----

  lemma {:induction false} LStripNewline(s: string)
    ensures LStrip(s + "\n") == if LStrip(s) == "" then "" else LStrip(s) + "\n"
  {
    if s == "" {
      assert s + "\n" == "\n";
      assert "\n"[1..] == "";
    } else if IsSpace(s[0]) {
      assert (s + "\n")[1..] == s[1..] + "\n";
      LStripNewline(s[1..]);
    }
  }

  lemma RStripNewline(s: string)
    ensures RStrip(s + "\n") == RStrip(s)
    ensures RStripNewlines(s + "\n") == RStripNewlines(s)
  {
    assert (s + "\n")[..|s|] == s;
  }

  lemma StripNewline(s: string)
    ensures Strip(s + "\n") == Strip(s)
  {
    LStripNewline(s);
    RStripNewline(LStrip(s));
  }

  lemma ValueNewline(w: string)
    ensures ValueAfterEquals(w + "\n") == ValueAfterEquals(w)
  {
    StripNewline(w);
    RStripNewline(w);
  }

  /** A newline at the end of a line changes no value on it. */
  lemma LineValueNewline(l: string, key: string)
    requires key != "" && '\n' !in key
    ensures LineValue(l + "\n", key) == LineValue(l, key)
  {
    LStripNewline(l);
    var s := LStrip(l);
    if s != "" {
      if StartsWith(s, key) {
        assert (s + "\n")[..|key|] == s[..|key|];
        assert (s + "\n")[|key|..] == s[|key|..] + "\n";
        LStripNewline(s[|key|..]);
        var r := LStrip(s[|key|..]);
        if r != "" && r[0] == '=' {
          assert (r + "\n")[1..] == r[1..] + "\n";
          ValueNewline(r[1..]);
        }
      } else if |key| <= |s| {
        assert (s + "\n")[..|key|] == s[..|key|];
      } else {
        assert |key| == |s| + 1 ==> (s + "\n")[..|key|][|s|] == '\n';
      }
    }
  }

  lemma BlankLine(key: string)
    requires key != ""
    ensures LineValue("\n", key).None? && !IsHeader("\n")
  {
    LStripNewline("");
    assert "" + "\n" == "\n";
  }

  lemma {:induction false} GetValueConcat(a: seq<string>, b: seq<string>, key: string)
    ensures GetValue(a + b, key) == if GetValue(a, key).Some? then GetValue(a, key) else GetValue(b, key)
  {
    if a == [] {
      assert a + b == b;
    } else {
      assert (a + b)[1..] == a[1..] + b;
      GetValueConcat(a[1..], b, key);
    }
  }

  lemma {:induction false} AddressesConcat(lib: IpLib, a: seq<string>, b: seq<string>)
    ensures Addresses(lib, a + b) == Addresses(lib, a) + Addresses(lib, b)
  {
    if a == [] {
      assert a + b == b;
    } else {
      assert (a + b)[1..] == a[1..] + b;
      AddressesConcat(lib, a[1..], b);
    }
  }

  predicate IsKey(key: string) {
    key != "" && '\n' !in key
  }

  lemma BlankValue(ls: seq<string>, key: string)
    requires IsKey(key)
    ensures GetValue(ls + ["\n"], key) == GetValue(ls, key)
  {
    BlankLine(key);
    GetValueConcat(ls, ["\n"], key);
    assert ["\n"][1..] == [];
  }

  lemma BlankAddresses(lib: IpLib, ls: seq<string>)
    ensures Addresses(lib, ls + ["\n"]) == Addresses(lib, ls)
  {
    BlankLine(ALLOWED_IPS);
    AddressesConcat(lib, ls, ["\n"]);
    assert ["\n"][1..] == [];
  }

  lemma BlankName(ls: seq<string>)
    ensures PeerName(ls + ["\n"]) == PeerName(ls)
  {
    if |ls| == 1 {
      RStripNewline("");
      assert "" + "\n" == "\n";
      assert (ls + ["\n"])[1] == "\n";
    }
  }

  /** A blank line at the end of a section leaves its view alone. */
  lemma BlankView(lib: IpLib, sec: Section)
    ensures ViewOf(lib, sec.(lines := sec.lines + ["\n"])) == ViewOf(lib, sec)
  {
    BlankValue(sec.lines, PUBLIC_KEY);
    BlankValue(sec.lines, PRESHARED_KEY);
    BlankValue(sec.lines, ALLOWED_IPS);
    BlankAddresses(lib, sec.lines);
    BlankName(sec.lines);
    JoinConcat(sec.lines, ["\n"]);
    JoinOne("\n");
    RStripNewline(Join(sec.lines));
  }

  /** So does finishing its last line. */
  lemma FinishedView(lib: IpLib, sec: Section)
    requires AreLines(sec.lines) && |sec.lines| > 0
    ensures var n := |sec.lines|;
            ViewOf(lib, sec.(lines := sec.lines[..n - 1] + [sec.lines[n - 1] + "\n"])) == ViewOf(lib, sec)
  {
    var n := |sec.lines|;
    var init, l := sec.lines[..n - 1], sec.lines[n - 1];
    assert sec.lines == init + [l];
    var ls' := init + [l + "\n"];
    forall key | key in {PUBLIC_KEY, PRESHARED_KEY, ALLOWED_IPS}
      ensures GetValue(ls', key) == GetValue(sec.lines, key) && LineValue(l + "\n", key) == LineValue(l, key)
    {
      assert IsKey(key);
      LineValueNewline(l, key);
      GetValueConcat(init, [l], key);
      GetValueConcat(init, [l + "\n"], key);
      assert GetValue([l], key) == LineValue(l, key);
      assert GetValue([l + "\n"], key) == LineValue(l + "\n", key);
    }
    AddressesConcat(lib, init, [l]);
    AddressesConcat(lib, init, [l + "\n"]);
    assert Addresses(lib, [l]) == ValueAddresses(lib, LineValue(l, ALLOWED_IPS)) + Addresses(lib, []);
    assert Addresses(lib, [l + "\n"]) == ValueAddresses(lib, LineValue(l + "\n", ALLOWED_IPS)) + Addresses(lib, []);
    JoinConcat(init, [l]);
    JoinConcat(init, [l + "\n"]);
    assert Join([l]) == l && Join([l + "\n"]) == l + "\n";
    assert Join(ls') == Join(sec.lines) + "\n";
    RStripNewline(Join(sec.lines));
    RStripNewline(l);
  }

  /** The text of a section of a parse is made of whole lines of the text. */
  lemma SectionLines(t: string, i: nat)
    requires i < |Sections(t)|
    ensures AreLines(Sections(t)[i].lines)
  {
    var secs := Sections(t);
    SectionsParsed(t);
    JoinLines(t);
    FlatSlice(secs, i);
    AreLinesSlice(Flat(secs[..i]), secs[i].lines, Flat(secs[i + 1..]));
  }

  ghost predicate LastReplaced(a: seq<Section>, b: seq<Section>, last: Section) {
    |a| == |b| >= 1 && a[..|a| - 1] == b[..|b| - 1] && b[|b| - 1] == last
  }

  lemma LastViews(lib: IpLib, a: seq<Section>, b: seq<Section>, last: Section)
    requires LastReplaced(a, b, last) && ViewOf(lib, last) == ViewOf(lib, a[|a| - 1])
    ensures ViewsOf(lib, a) == ViewsOf(lib, b)
  {
    forall i | 0 <= i < |a|
      ensures ViewOf(lib, a[i]) == ViewOf(lib, b[i])
    {
      if i < |a| - 1 {
        assert a[i] == a[..|a| - 1][i] == b[..|b| - 1][i];
      }
    }
  }

  /** One more line after a finished one. */
  lemma OneMoreLine(t: string, l: string)
    requires EndsLine(t) && IsLine(l)
    ensures Sections(t + l) == Push(Sections(t), l)
  {
    LinesConcat(t, l);
    JoinOne(l);
    LinesJoin([l]);
    var ls := Lines(t);
    assert (ls + [l])[..|ls|] == ls;
  }

  lemma PushBlank(secs: seq<Section>)
    requires |secs| >= 1
    ensures var last := secs[|secs| - 1];
            LastReplaced(secs, Push(secs, "\n"), last.(lines := last.lines + ["\n"]))
  {
    BlankLine(PUBLIC_KEY);
  }

  lemma BlankSections(t: string)
    requires EndsLine(t)
    ensures var a := Sections(t);
            var last := a[|a| - 1];
            LastReplaced(a, Sections(t + "\n"), last.(lines := last.lines + ["\n"]))
  {
    OneMoreLine(t, "\n");
    PushBlank(Sections(t));
  }

  lemma FinishedSections(t: string)
    requires !EndsLine(t)
    ensures var a := Sections(t);
            var last := a[|a| - 1];
            var n := |last.lines|;
            n > 0 && LastReplaced(a, Sections(t + "\n"),
                                  last.(lines := last.lines[..n - 1] + [last.lines[n - 1] + "\n"]))
  {
    LinesFinish(t);
    var ls := Lines(t);
    var l := ls[|ls| - 1];
    StripNewline(l);
    assert IsHeader(l + "\n") == IsHeader(l);
    var secs := Group(ls[..|ls| - 1]);
    var ls' := ls[..|ls| - 1] + [l + "\n"];
    assert ls'[..|ls'| - 1] == ls[..|ls| - 1];
    PushFinished(secs, l);
  }

  lemma PushFinished(secs: seq<Section>, l: string)
    requires |secs| >= 1 && IsHeader(l + "\n") == IsHeader(l) && Strip(l + "\n") == Strip(l)
    ensures var a := Push(secs, l);
            var last := a[|a| - 1];
            var n := |last.lines|;
            n > 0 && LastReplaced(a, Push(secs, l + "\n"),
                                  last.(lines := last.lines[..n - 1] + [last.lines[n - 1] + "\n"]))
  {
    var a := Push(secs, l);
    var last := a[|a| - 1];
    if !IsHeader(l) {
      var current := secs[|secs| - 1].lines;
      assert last.lines == current + [l];
      assert last.lines[..|last.lines| - 1] == current;
    }
  }

  /** A newline at the end of a text changes at most the last section, and none of its view. */
  lemma TextNewline(lib: IpLib, t: string)
    ensures var a, b := Sections(t), Sections(t + "\n");
            |a| == |b| && a[..|a| - 1] == b[..|b| - 1] && Views(lib, t + "\n") == Views(lib, t)
  {
    var a, b := Sections(t), Sections(t + "\n");
    SectionLines(t, |a| - 1);
    if EndsLine(t) {
      BlankView(lib, a[|a| - 1]);
      BlankSections(t);
    } else {
      FinishedSections(t);
      FinishedView(lib, a[|a| - 1]);
    }
    LastViews(lib, a, b, b[|b| - 1]);
  }

  lemma {:induction false} TextRStrip(lib: IpLib, t: string)
    ensures var a, b := Sections(t), Sections(RStripNewlines(t));
            |a| == |b| && a[..|a| - 1] == b[..|b| - 1] && Views(lib, RStripNewlines(t)) == Views(lib, t)
  {
    if t != "" && t[|t| - 1] == '\n' {
      assert t == t[..|t| - 1] + "\n";
      TextRStrip(lib, t[..|t| - 1]);
      TextNewline(lib, t[..|t| - 1]);
    }
  }

  // ----- appending a block -----

  lemma {:induction false} ViewsConcat(lib: IpLib, a: seq<Section>, b: seq<Section>)
    ensures ViewsOf(lib, a + b) == ViewsOf(lib, a) + ViewsOf(lib, b)
  {
    if a == [] {
      assert a + b == b;
    } else {
      assert (a + b)[1..] == a[1..] + b;
      ViewsConcat(lib, a[1..], b);
    }
  }

  lemma AppendSections(conf: string, block: string, name: string)
    requires IsBlock(block, name)
    ensures Sections(AppendBlock(conf, block)) == Sections(RStripNewlines(conf) + "\n\n") + [Sections(block)[1]]
  {
    var a := RStripNewlines(conf) + "\n\n";
    LinesConcat(a, block);
    GroupConcat(Lines(a), Lines(block));
    assert Sections(block)[1..] == [Sections(block)[1]];
  }

  /** Appending a block adds its one section and leaves the views of all others alone. */
  lemma AppendViews(lib: IpLib, conf: string, block: string, name: string)
    requires IsBlock(block, name)
    ensures Views(lib, AppendBlock(conf, block)) == Views(lib, conf) + [ViewOf(lib, Sections(block)[1])]
  {
    hide ViewOf, RStripNewlines;
    var a := RStripNewlines(conf) + "\n\n";
    AppendSections(conf, block, name);
    assert Views(lib, a) == Views(lib, conf) by {
      TextRStrip(lib, conf);
      TextNewline(lib, RStripNewlines(conf));
      TextNewline(lib, RStripNewlines(conf) + "\n");
      assert a == (RStripNewlines(conf) + "\n") + "\n";
    }
    ViewsConcat(lib, Sections(a), [Sections(block)[1]]);
  }

  // ----- a section written to its own file -----

  lemma {:induction false} RStripNewlinesIdempotent(t: string)
    ensures RStripNewlines(RStripNewlines(t)) == RStripNewlines(t)
    ensures RStripNewlines(t + "\n") == RStripNewlines(t)
  {
    RStripNewline(t);
    if t != "" && t[|t| - 1] == '\n' {
      RStripNewlinesIdempotent(t[..|t| - 1]);
    }
  }

  /** A peer's section saved on its own, with its trailing newlines made one, is a block
      with the view the section had. */
  lemma SavedSection(lib: IpLib, conf: string, i: nat, name: string)
    requires i < |Sections(conf)| && IsNamedPeer(Sections(conf)[i], name)
    ensures var saved := RStripNewlines(Join(Sections(conf)[i].lines)) + "\n";
            IsBlock(saved, name) && ViewOf(lib, Sections(saved)[1]) == ViewOf(lib, Sections(conf)[i])
  {
    var sec := Sections(conf)[i];
    var t := Join(sec.lines);
    SectionAlone(conf, i);
    var cut := RStripNewlines(t);
    TextRStrip(lib, t);
    TextNewline(lib, cut);
    var saved := cut + "\n";
    assert Sections(saved)[..1] == Sections(t)[..1];
    assert Sections(saved)[0] == Sections(saved)[..1][0];
    assert Views(lib, saved)[1] == ViewOf(lib, Sections(saved)[1]);
    assert Views(lib, t)[1] == ViewOf(lib, sec);
    RStripNewlinesIdempotent(t);
    RStripNewlinesIdempotent(cut);
  }

  /** A section of a text, read on its own. */
  lemma SectionAlone(conf: string, i: nat)
    requires i < |Sections(conf)| && Sections(conf)[i].header.Some?
    ensures Sections(Join(Sections(conf)[i].lines)) == [PREAMBLE, Sections(conf)[i]]
  {
    var sec := Sections(conf)[i];
    SectionsParsed(conf);
    SectionLines(conf, i);
    LinesJoin(sec.lines);
    var own := [PREAMBLE, sec];
    assert own[1..] == [sec];
    FlatOne(sec);
    assert Flat(own) == sec.lines;
    GroupFlat(own);
  }
}
