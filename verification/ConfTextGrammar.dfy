/**
 The lines of a config as a grammar: which texts are headers, key lines and name lines, and what
 stands on them. Each pattern of the program is given by the texts that match it.
 */
module ConfTextGrammar {
  import opened Wrappers
  import opened ConfText
  import opened ConfTextProofs
  import opened ConfTextRender

  predicate Blank(s: string) {
    forall i :: 0 <= i < |s| ==> IsSpace(s[i])
  }

  /** No white space at either end. */
  predicate Trimmed(s: string) {
    s != "" ==> !IsSpace(s[0]) && !IsSpace(s[|s| - 1])
  }

  const CAPITALS := "ABCDEFGHIJKLMNOPQRSTUVWXYZ"
  const SMALLS := "abcdefghijklmnopqrstuvwxyz"
  const OTHERS := "0123456789-_"

  lemma Capital(n: nat)
    requires n < 26
    ensures |CAPITALS| == |SMALLS| == 26 && CAPITALS[n] as nat == 'A' as nat + n
  {
  }

  lemma Small(n: nat)
    requires n < 26
    ensures |CAPITALS| == |SMALLS| == 26 && SMALLS[n] as nat == 'a' as nat + n
  {
  }

  lemma Letters(c: char)
    ensures IsLetter(c) <==> c in CAPITALS || c in SMALLS
  {
    if 'A' <= c <= 'Z' {
      Capital(c as nat - 'A' as nat);
    } else if 'a' <= c <= 'z' {
      Small(c as nat - 'a' as nat);
    }
    hide CAPITALS, SMALLS;
    if i :| 0 <= i < |CAPITALS| && CAPITALS[i] == c {
      CapitalsAre(i);
    } else if i :| 0 <= i < |SMALLS| && SMALLS[i] == c {
      SmallsAre(i);
    }
  }

  lemma CapitalsAre(i: nat)
    requires i < |CAPITALS|
    ensures IsLetter(CAPITALS[i])
  {
    Capital(i);
  }

  lemma SmallsAre(i: nat)
    requires i < |SMALLS|
    ensures IsLetter(SMALLS[i])
  {
    Small(i);
  }

  /** The characters of a name, written out; none of them, nor any other that prints in ASCII, is white space. */
  lemma NameCharacters(c: char)
    ensures IsLetter(c) <==> c in CAPITALS || c in SMALLS
    ensures IsIdentifierChar(c) <==> c in CAPITALS || c in SMALLS || c in OTHERS
    ensures '!' <= c <= '~' ==> !IsSpace(c)
    ensures c in " \t\r\n" ==> IsSpace(c)
  {
    hide CAPITALS, SMALLS, IsLetter;
    Letters(c);
  }

  // ----- stripping -----

  lemma {:induction false} LStripAround(a: string, s: string)
    requires Blank(a) && (s != "" ==> !IsSpace(s[0]))
    ensures LStrip(a + s) == s
  {
    if a == "" {
      assert a + s == s;
    } else {
      assert (a + s)[1..] == a[1..] + s;
      LStripAround(a[1..], s);
    }
  }

  lemma {:induction false} RStripAround(s: string, b: string)
    requires Blank(b) && (s != "" ==> !IsSpace(s[|s| - 1]))
    ensures RStrip(s + b) == s
  {
    if b == "" {
      assert s + b == s;
    } else {
      assert (s + b)[..|s + b| - 1] == s + b[..|b| - 1];
      RStripAround(s, b[..|b| - 1]);
    }
  }

  /** Stripping takes off white space on both sides, and nothing more. */
  lemma StripAround(a: string, s: string, b: string)
    requires Blank(a) && Blank(b) && Trimmed(s)
    ensures Strip(a + s + b) == s
  {
    if s == "" {
      assert a + s + b == (a + b) + "";
      LStripAround(a + b, "");
    } else {
      assert a + s + b == a + (s + b);
      LStripAround(a, s + b);
      RStripAround(s, b);
    }
  }

  lemma {:induction false} LStripped(s: string) returns (a: string)
    ensures s == a + LStrip(s) && Blank(a) && (LStrip(s) != "" ==> !IsSpace(LStrip(s)[0]))
  {
    if s != "" && IsSpace(s[0]) {
      a := LStripped(s[1..]);
      a := [s[0]] + a;
      assert s == [s[0]] + s[1..];
    } else {
      a := "";
      assert s == "" + s;
    }
  }

  lemma {:induction false} RStripped(s: string) returns (b: string)
    ensures s == RStrip(s) + b && Blank(b) && (RStrip(s) != "" ==> !IsSpace(RStrip(s)[|RStrip(s)| - 1]))
  {
    if s != "" && IsSpace(s[|s| - 1]) {
      b := RStripped(s[..|s| - 1]);
      b := b + [s[|s| - 1]];
      assert s == s[..|s| - 1] + [s[|s| - 1]];
    } else {
      b := "";
      assert s == s + "";
    }
  }

  /** Every text is what its stripping leaves, with white space around it. */
  lemma Stripped(s: string) returns (a: string, b: string)
    ensures s == a + Strip(s) + b && Blank(a) && Blank(b) && Trimmed(Strip(s))
  {
    a := LStripped(s);
    b := RStripped(LStrip(s));
    assert s == a + (Strip(s) + b);
    if Strip(s) != "" {
      assert LStrip(s)[0] == Strip(s)[0];
    }
  }

  // ----- headers -----

  predicate IsHeaderName(name: string) {
    name != "" && forall i :: 0 <= i < |name| ==> IsLetter(name[i])
  }

  /** A line is a header exactly when it is letters in brackets, with white space around: this way ... */
  lemma HeaderLine(a: string, name: string, b: string)
    requires Blank(a) && IsHeaderName(name) && Blank(b)
    ensures IsHeader(a + ("[" + name + "]") + b) && Strip(a + ("[" + name + "]") + b) == "[" + name + "]"
  {
    StripAround(a, "[" + name + "]", b);
  }

  /** ... and that way. */
  lemma HeaderParts(l: string) returns (a: string, name: string, b: string)
    requires IsHeader(l)
    ensures l == a + ("[" + name + "]") + b && Blank(a) && IsHeaderName(name) && Blank(b)
  {
    var s := Strip(l);
    a, b := Stripped(l);
    name := s[1..|s| - 1];
    assert s == "[" + name + "]";
  }

  lemma {:induction false} AllListed(secs: seq<Section>)
    requires forall sec :: sec in secs ==> sec.header.Some?
    ensures Listed(secs) == secs
  {
    if secs == [] {
    } else {
      assert secs[0] in secs;
      AllListed(secs[1..]);
    }
  }

  /** Of a text's sections only an empty preamble is left out. */
  lemma SectionsListed(t: string)
    ensures var secs := Sections(t);
            Listed(secs) == if secs[0].lines == [] then secs[1..] else secs
  {
    hide Sections, NoHeaders, IsHeader;
    SectionsParsed(t);
    forall sec | sec in Sections(t)[1..]
      ensures sec.header.Some?
    {
      var i :| 0 <= i < |Sections(t)[1..]| && Sections(t)[1..][i] == sec;
      assert IsSection(Sections(t)[i + 1]);
    }
    AllListed(Sections(t)[1..]);
  }

  // ----- key lines -----

  /** `key = value`, with white space where the pattern allows it. */
  function KeyText(a: string, key: string, b: string, c: string, v: string, d: string): string {
    a + (key + (b + ("=" + (c + v + d))))
  }

  predicate AllBlank(a: string, b: string, c: string, d: string) {
    Blank(a) && Blank(b) && Blank(c) && Blank(d)
  }

  /** A line gives its key a value exactly when it is the key, "=" and the value, with white space around
      each: this way ... */
  lemma ValueLine(a: string, key: string, b: string, c: string, v: string, d: string)
    requires AllBlank(a, b, c, d) && IsWord(key) && Trimmed(v) && v != ""
    ensures LineValue(KeyText(a, key, b, c, v, d), key) == Some(v)
  {
    var tail := "=" + (c + v + d);
    var s := key + (b + tail);
    LStripAround(a, s);
    assert s[..|key|] == key && s[|key|..] == b + tail;
    LStripAround(b, tail);
    assert tail[1..] == c + v + d;
    StripAround(c, v, d);
  }

  /** ... and that way. */
  lemma ValueParts(l: string, key: string) returns (a: string, b: string, c: string, d: string)
    requires LineValue(l, key).Some? && Trimmed(LineValue(l, key).value)
    ensures AllBlank(a, b, c, d) && l == KeyText(a, key, b, c, LineValue(l, key).value, d)
  {
    hide LStrip, Strip, Blank, ValueAfterEquals;
    var s := LStrip(l);
    a := LStripped(l);
    b := LStripped(s[|key|..]);
    var r := LStrip(s[|key|..]);
    c, d := ValueAround(r[1..]);
    assert s == key + s[|key|..];
    assert r == "=" + r[1..];
  }

  lemma ValueAround(w: string) returns (c: string, d: string)
    requires ValueAfterEquals(w).Some? && Trimmed(ValueAfterEquals(w).value)
    ensures w == c + ValueAfterEquals(w).value + d && Blank(c) && Blank(d)
  {
    hide Strip;
    c, d := Stripped(w);
    if Strip(w) == "" {
      NewlinesStripped(w);
      assert false;
    }
  }

  lemma {:induction false} NewlinesStripped(w: string)
    ensures RStripNewlines(w) <= w && forall i :: |RStripNewlines(w)| <= i < |w| ==> w[i] == '\n'
    ensures var u := RStripNewlines(w); u != "" ==> u[|u| - 1] != '\n'
  {
    if w != "" && w[|w| - 1] == '\n' {
      NewlinesStripped(w[..|w| - 1]);
    }
  }

  lemma {:induction false} NewlinesAround(t: string, n: nat)
    requires t != "" ==> t[|t| - 1] != '\n'
    ensures RStripNewlines(t + seq(n, _ => '\n')) == t
  {
    var s := t + seq(n, _ => '\n');
    if n == 0 {
      assert s == t;
    } else {
      assert s[..|s| - 1] == t + seq(n - 1, _ => '\n');
      NewlinesAround(t, n - 1);
    }
  }

  /** After "=" and only white space, the value is the last character that is not a newline, if there is one. */
  lemma BlankValue(a: string, key: string, b: string, u: string, n: nat)
    requires Blank(a) && IsWord(key) && Blank(b) && Blank(u) && (u != "" ==> u[|u| - 1] != '\n')
    ensures LineValue(a + (key + (b + ("=" + (u + seq(n, _ => '\n'))))), key)
         == if u == "" then None else Some([u[|u| - 1]])
  {
    var w := u + seq(n, _ => '\n');
    var tail := "=" + w;
    var s := key + (b + tail);
    LStripAround(a, s);
    assert s[..|key|] == key && s[|key|..] == b + tail;
    LStripAround(b, tail);
    assert tail[1..] == w;
    assert w + "" + "" == w;
    StripAround(w, "", "");
    NewlinesAround(u, n);
  }

  /** The first line that has a value counts. */
  lemma {:induction false} FirstValue(ls: seq<string>, key: string, i: nat)
    requires i <= |ls| && forall k :: 0 <= k < i ==> LineValue(ls[k], key).None?
    ensures i == |ls| ==> GetValue(ls, key).None?
    ensures i < |ls| && LineValue(ls[i], key).Some? ==> GetValue(ls, key) == LineValue(ls[i], key)
  {
    hide LineValue;
    if i == 0 {
    } else {
      FirstValue(ls[1..], key, i - 1);
    }
  }

  // ----- name lines -----

  /** The line under a peer's header names it exactly when it is "#" and a word, with white space around
      the word: this way ... */
  lemma NameOnLine(header: string, a: string, name: string, b: string, rest: seq<string>)
    requires Blank(a) && IsWord(name) && Blank(b)
    ensures PeerName([header] + ["#" + (a + name + b)] + rest) == Some(name)
  {
    var l := "#" + (a + name + b);
    var ls := [header] + [l] + rest;
    assert ls[1] == l;
    NewlinesStripped(l);
    var k := |RStripNewlines(l)|;
    var j := |a| + |name|;
    assert l[j] == name[|name| - 1] && !IsSpace(l[j]);
    assert RStripNewlines(l) == l[..k] == "#" + (a + name + b[..k - 1 - j]);
    assert l[..k][1..] == a + name + b[..k - 1 - j];
    StripAround(a, name, b[..k - 1 - j]);
    assert Strip(RStripNewlines(l)[1..]) == name;
  }

  /** ... and that way. */
  lemma NameParts(ls: seq<string>) returns (a: string, b: string)
    requires PeerName(ls).Some?
    ensures |ls| > 1 && Blank(a) && IsWord(PeerName(ls).value) && Blank(b)
    ensures ls[1] == "#" + (a + PeerName(ls).value + b)
  {
    NewlinesStripped(ls[1]);
    var l := RStripNewlines(ls[1]);
    a, b := Stripped(l[1..]);
    assert l == "#" + l[1..];
    assert ls[1] == l + ls[1][|l|..];
    b := b + ls[1][|l|..];
  }

  // ----- lists -----

  /** A list is cut at its first separator, and a text without one is not cut. */
  lemma {:induction false} SplitFirst(x: string, sep: char, y: string)
    requires sep !in x
    ensures SplitOn(x + ([sep] + y), sep) == [x] + SplitOn(y, sep) && SplitOn(x, sep) == [x]
  {
    var s := x + ([sep] + y);
    if x == "" {
      assert s[1..] == y;
    } else {
      assert x == [x[0]] + x[1..];
      assert s[1..] == x[1..] + ([sep] + y);
      assert x[0] in x;
      SplitFirst(x[1..], sep, y);
    }
  }

  lemma {:induction false} PartListed(lib: IpLib, parts: seq<string>, a: Ip)
    ensures a in PartsAddresses(lib, parts) <==> exists k :: 0 <= k < |parts| && lib.parse(Strip(parts[k])) == Some(a)
  {
    hide Strip;
    if parts == [] {
    } else {
      PartListed(lib, parts[1..], a);
      if k :| 0 <= k < |parts| && lib.parse(Strip(parts[k])) == Some(a) {
        if k > 0 {
          assert parts[1..][k - 1] == parts[k];
        }
      }
    }
  }

  /** Entry `k` of the `AllowedIPs` list on line `i` is the address. */
  predicate IsListed(lib: IpLib, ls: seq<string>, i: nat, k: nat, a: Ip) {
    && i < |ls| && LineValue(ls[i], "AllowedIPs").Some?
    && var parts := SplitOn(LineValue(ls[i], "AllowedIPs").value, ',');
       k < |parts| && lib.parse(Strip(parts[k])) == Some(a)
  }

  /** The addresses of some lines are exactly those that an entry of an `AllowedIPs` line parses to. */
  lemma {:induction false} AddressesListed(lib: IpLib, ls: seq<string>, a: Ip)
    ensures a in Addresses(lib, ls) <==> exists i: nat, k: nat :: IsListed(lib, ls, i, k, a)
  {
    hide LineValue, Strip, SplitOn, PartsAddresses;
    if ls == [] {
    } else {
      AddressesListed(lib, ls[1..], a);
      var v := LineValue(ls[0], "AllowedIPs");
      if v.Some? {
        PartListed(lib, SplitOn(v.value, ','), a);
      }
      if a in Addresses(lib, ls) {
        if a in ValueAddresses(lib, v) {
          var k :| 0 <= k < |SplitOn(v.value, ',')| && lib.parse(Strip(SplitOn(v.value, ',')[k])) == Some(a);
          assert IsListed(lib, ls, 0, k, a);
        } else {
          var i: nat, k: nat :| IsListed(lib, ls[1..], i, k, a);
          assert IsListed(lib, ls, i + 1, k, a);
        }
      }
      if i: nat, k: nat :| IsListed(lib, ls, i, k, a) {
        if i > 0 {
          assert IsListed(lib, ls[1..], i - 1, k, a);
        }
      }
    }
  }

  // ----- peers -----

  /** The first block of the name is found. */
  lemma {:induction false} FoundFirst(secs: seq<Section>, name: string, i: nat)
    requires i < |secs| && secs[i].header == Some("[Peer]") && PeerName(secs[i].lines) == Some(name)
    requires forall k :: 0 <= k < i ==> secs[k].header != Some("[Peer]") || PeerName(secs[k].lines) != Some(name)
    ensures FindIn(secs, name) == Some(secs[i])
  {
    hide PeerName;
    if i == 0 {
    } else {
      FoundFirst(secs[1..], name, i - 1);
    }
  }

  // ----- appending -----

  /** A block goes after exactly one blank line, however many newlines the config ends in. */
  lemma AppendedText(t: string, n: nat, block: string)
    requires t != "" ==> t[|t| - 1] != '\n'
    ensures AppendBlock(t + seq(n, _ => '\n'), block) == t + "\n\n" + block
  {
    NewlinesAround(t, n);
  }
}
