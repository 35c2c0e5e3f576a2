/** What an encoded key looks like on the wire: the alphabet, the bits and the length header, written out. */
module CodecFormat {
  import opened Wrappers
  import opened ConfText
  import opened ConfTextProofs
  import opened ConfTextRender
  import opened ConfTextGrammar
  import opened Codec

  /** Table 2 of RFC 4648, section 5. */
  const ALPHABET := CAPITALS + SMALLS + OTHERS

  function Listed(n: nat): char
    requires n < 64
  {
    ALPHABET[n]
  }

  /** A byte, or zero bits after the last one. */
  function ByteAt(b: seq<Byte>, i: nat): nat {
    if i < |b| then b[i] else 0
  }

  /** Group `g`: three bytes, most significant first. */
  function GroupValue(b: seq<Byte>, g: nat): nat {
    ByteAt(b, 3 * g) * 0x1_0000 + ByteAt(b, 3 * g + 1) * 0x100 + ByteAt(b, 3 * g + 2)
  }

  /** Four characters are the four base-64 digits of a group, most significant first, and "=" stands for
      a digit without a bit of the text. */
  predicate Reads(code: string, b: seq<Byte>, g: nat)
    requires 4 * g + 4 <= |code|
  {
    var v := GroupValue(b, g);
    && code[4 * g] == Listed(v / 0x4_0000 % 64)
    && code[4 * g + 1] == Listed(v / 0x1000 % 64)
    && code[4 * g + 2] == (if 3 * g + 1 < |b| then Listed(v / 0x40 % 64) else '=')
    && code[4 * g + 3] == (if 3 * g + 2 < |b| then Listed(v % 64) else '=')
  }

  lemma Other(n: nat)
    requires n < 12
    ensures |CAPITALS| == |SMALLS| == 26 && |OTHERS| == 12 && OTHERS[n] == Symbol(n + 52)
  {
  }

  /** The symbol of a number is its entry in the table, and every entry may stand in a file name or a URL. */
  lemma SymbolIsListed(n: nat)
    requires n < 64
    ensures Symbol(n) == Listed(n) && IsIdentifierChar(Listed(n))
  {
    hide CAPITALS, SMALLS, OTHERS;
    Other(0);
    if n < 26 {
      Capital(n);
    } else if n < 52 {
      Small(n - 26);
    } else {
      Other(n - 52);
    }
  }


  lemma Digits(a: Byte, b: Byte, c: Byte)
    ensures var v: nat := a * 0x1_0000 + b * 0x100 + c;
            && v / 0x4_0000 % 64 == a / 4 && v / 0x1000 % 64 == Bits12(a, b)
            && v / 0x40 % 64 == Bits23(b, c) && v % 64 == c % 64
  {
    var v: nat := a * 0x1_0000 + b * 0x100 + c;
    assert v / 0x4_0000 == a / 4;
    assert v / 0x1000 == a * 16 + b / 16;
    assert v / 0x40 == a * 0x400 + b * 4 + c / 64;
  }

  lemma FirstSymbols(b: seq<Byte>, second: Byte, third: Byte)
    requires b != [] && second == ByteAt(b, 1) && third == ByteAt(b, 2)
    ensures var code := Encode64(b);
            && |code| >= 4 && code[0] == Symbol(b[0] / 4) && code[1] == Symbol(Bits12(b[0], second))
            && code[2] == (if |b| > 1 then Symbol(Bits23(second, third)) else '=')
            && code[3] == (if |b| > 2 then Symbol(third % 64) else '=')
            && (if |b| >= 3 then code[4..] == Encode64(b[3..]) else |code| == 4)
  {
    hide Symbol, Bits12, Bits23;
  }

  /** The first group of an encoding. */
  lemma FirstGroup(b: seq<Byte>)
    requires b != []
    ensures |Encode64(b)| >= 4 && Reads(Encode64(b), b, 0)
    ensures |b| >= 3 ==> Encode64(b)[4..] == Encode64(b[3..])
    ensures |b| < 3 ==> |Encode64(b)| == 4
  {
    hide Listed, IsIdentifierChar, Encode64, Symbol, Bits12, Bits23;
    var second: Byte, third: Byte := ByteAt(b, 1), ByteAt(b, 2);
    Digits(b[0], second, third);
    FirstSymbols(b, second, third);
    SymbolIsListed(b[0] / 4);
    SymbolIsListed(Bits12(b[0], second));
    SymbolIsListed(Bits23(second, third));
    SymbolIsListed(third % 64);
  }

  /** Every group of three bytes, the last one perhaps cut short, is four characters that read so. */
  lemma {:induction false} GroupReads(b: seq<Byte>, g: nat)
    requires 3 * g < |b|
    ensures |Encode64(b)| == 4 * ((|b| + 2) / 3) && Reads(Encode64(b), b, g)
  {
    hide Encode64, Reads;
    FirstGroup(b);
    if |b| <= 3 {
      assert |b| == 3 ==> Encode64(b[3..]) == "" by { NothingEncoded(); }
    } else {
      GroupReads(b[3..], if g == 0 then 0 else g - 1);
      if g > 0 {
        NextGroup(Encode64(b), b, g);
      }
    }
  }

  lemma NothingEncoded()
    ensures Encode64([]) == ""
  {
  }

  lemma NextGroup(code: string, b: seq<Byte>, g: nat)
    requires g > 0 && 3 * g < |b| && 4 * g + 4 <= |code| && Reads(code[4..], b[3..], g - 1)
    ensures Reads(code, b, g)
  {
    var i := 3 * (g - 1);
    assert ByteAt(b[3..], i) == ByteAt(b, 3 * g) && ByteAt(b[3..], i + 1) == ByteAt(b, 3 * g + 1)
           && ByteAt(b[3..], i + 2) == ByteAt(b, 3 * g + 2);
    assert code[4..][4 * (g - 1)] == code[4 * g] && code[4..][4 * (g - 1) + 1] == code[4 * g + 1]
           && code[4..][4 * (g - 1) + 2] == code[4 * g + 2] && code[4..][4 * (g - 1) + 3] == code[4 * g + 3];
  }

  // ----- the header -----

  /** The number that bytes are, most significant first. */
  function BigEndian(b: seq<Byte>): nat {
    if b == [] then 0 else BigEndian(b[..|b| - 1]) * 256 + b[|b| - 1]
  }

  lemma FourBytes(b: seq<Byte>)
    requires |b| == 4
    ensures HeaderValue(b) == BigEndian(b)
  {
    assert b[..3][..2] == b[..2] && b[..2][..1] == b[..1] && b[..1][..0] == [];
    var b0: nat, b1: nat, b2: nat := b[0], b[1], b[2];
    assert BigEndian(b[..1]) == b0;
    assert BigEndian(b[..2]) == b0 * 256 + b1;
    assert BigEndian(b[..3]) == (b0 * 256 + b1) * 256 + b2;
  }

  /** A key starts with a header of exactly the config's length, below 2^32. */
  lemma HeaderIsBigEndian(n: nat)
    requires n < 0x1_0000_0000
    ensures |Header(n)| == 4 && BigEndian(Header(n)) == n
  {
    HeaderRoundTrip(n);
    FourBytes(Header(n));
  }

  // ----- keys -----

  lemma {:induction false} SymbolsOnly(b: seq<Byte>)
    ensures forall i :: 0 <= i < |Unpad(Encode64(b))| ==> IsIdentifierChar(Unpad(Encode64(b))[i])
  {
    hide Encode64, Unpad, AreSymbols, Reads;
    EncodedShape(b);
    var code, t := Encode64(b), Unpad(Encode64(b));
    forall i | 0 <= i < |t|
      ensures IsIdentifierChar(t[i])
    {
      CodeLength(b);
      GroupReads(b, i / 4);
      CharRead(code, b, i);
      SymbolAt(t, i);
      assert t[i] == code[i];
    }
  }

  lemma CodeLength(b: seq<Byte>)
    ensures |Encode64(b)| == 4 * ((|b| + 2) / 3)
  {
    hide Encode64;
    if b == [] {
      NothingEncoded();
    } else {
      GroupReads(b, 0);
    }
  }

  lemma SymbolAt(t: string, i: nat)
    requires AreSymbols(t) && i < |t|
    ensures t[i] != '='
  {
  }

  lemma CharRead(code: string, b: seq<Byte>, i: nat)
    requires 4 * (i / 4) + 4 <= |code| && Reads(code, b, i / 4)
    ensures code[i] == '=' || IsIdentifierChar(code[i])
  {
    hide GroupValue, IsIdentifierChar, Listed;
    var v := GroupValue(b, i / 4);
    SymbolIsListed(v / 0x4_0000 % 64);
    SymbolIsListed(v / 0x1000 % 64);
    SymbolIsListed(v / 0x40 % 64);
    SymbolIsListed(v % 64);
    assert i == 4 * (i / 4) || i == 4 * (i / 4) + 1 || i == 4 * (i / 4) + 2 || i == 4 * (i / 4) + 3;
  }

  /** There is a key exactly for a config below 2^32 bytes. It is "vpn://" and then only characters that need no
      escape in a URL, and its bytes are the big-endian length and the compressed config. */
  lemma KeyIsUrlSafe(libs: Libs, config: string)
    ensures var n, key := |libs.utf8(config)|, EncodeVpnUrl(libs, config);
            && (key.None? <==> n >= 0x1_0000_0000)
            && (key.Some? ==>
                  && |key.value| > 6 && key.value[..6] == "vpn://"
                  && (forall i :: 6 <= i < |key.value| ==> IsIdentifierChar(key.value[i]))
                  && var data := DecodedBytes(key.value);
                     data.Some? && |data.value| >= 4 && BigEndian(data.value[..4]) == n
                     && data.value[4..] == libs.compress(libs.utf8(config)))
  {
    hide Encode64, Unpad, Header, HeaderValue, BigEndian, IsIdentifierChar, DecodedBytes, AreSymbols;
    var data := libs.utf8(config);
    if |data| < 0x1_0000_0000 {
      HeaderIsBigEndian(|data|);
      var bytes := Header(|data|) + libs.compress(data);
      assert bytes[..4] == Header(|data|) && bytes[4..] == libs.compress(data);
      SymbolsOnly(bytes);
      EncodedShape(bytes);
      BodyOfEncoded(libs, config);
      var t := Unpad(Encode64(bytes));
      KeyParts(t);
    }
  }

  lemma KeyParts(t: string)
    ensures (SCHEME + t)[..6] == "vpn://" && forall i :: 6 <= i < |SCHEME + t| ==> (SCHEME + t)[i] == t[i - 6]
  {
  }

  /** A key is read alike with or without its scheme, and with white space around it. */
  lemma KeyIsReadTolerantly(libs: Libs, config: string, a: string, b: string)
    requires |libs.utf8(config)| < 0x1_0000_0000 && Blank(a) && Blank(b)
    ensures var key := EncodeVpnUrl(libs, config).value;
            && |key| > 6
            && BotDecode(libs, a + key + b) == BotDecode(libs, key)
            && BotDecode(libs, a + key[6..] + b) == BotDecode(libs, key)
            && VpnctlDecode(libs, a + key + b) == VpnctlDecode(libs, key)
            && VpnctlDecode(libs, a + key[6..] + b) == VpnctlDecode(libs, key)
  {
    hide Encode64, Unpad, Header, IsIdentifierChar, AreSymbols, Decode64, Body;
    var data := libs.utf8(config);
    var t := Unpad(Encode64(Header(|data|) + libs.compress(data)));
    HeaderIsBigEndian(|data|);
    EncodedShape(Header(|data|) + libs.compress(data));
    SameBody(t, a, b);
    assert (SCHEME + t)[6..] == t;
  }

  lemma SameBody(t: string, a: string, b: string)
    requires AreSymbols(t) && t != "" && Blank(a) && Blank(b)
    ensures Body(a + (SCHEME + t) + b) == Body(SCHEME + t) && Body(a + t + b) == Body(SCHEME + t)
  {
    hide IsSpace;
    SchemeIsWord();
    StripAround(a, SCHEME + t, b);
    StripAround("", SCHEME + t, "");
    StripAround(a, t, b);
    assert "" + (SCHEME + t) + "" == SCHEME + t;
    assert (SCHEME + t)[..6] == SCHEME && (SCHEME + t)[6..] == t;
    NotTheScheme(t);
  }

  lemma NotTheScheme(t: string)
    requires AreSymbols(t)
    ensures !StartsWith(t, SCHEME)
  {
    if |t| >= 6 {
      assert t[..6][3] == t[3] && t[3] != ':';
    }
  }

  /** A text of any kind is a config only if its header is the length of what its stream expands to. */
  lemma LengthIsChecked(libs: Libs, url: string, data: seq<Byte>, out: seq<Byte>)
    requires DecodedBytes(url) == Some(data) && |data| >= 4 && libs.decompress(data[4..]) == Some(out)
    ensures BotDecode(libs, url) == if |out| == BigEndian(data[..4]) && out != [] then libs.text(out) else None
  {
    hide DecodedBytes, BigEndian;
    FourBytes(data[..4]);
  }

  // ----- reading any text -----

  /** The characters that Base64 is written in, with either alphabet, and the padding. */
  predicate Counts(c: char) {
    SymbolValue(c).Some? || c == '='
  }

  function Kept(s: string): string {
    if s == "" then "" else (if Counts(s[0]) then [s[0]] else "") + Kept(s[1..])
  }

  /** Other characters are skipped, wherever they are. */
  lemma {:induction false} JunkIsSkipped(s: string, quad: nat, left: nat, pads: nat)
    requires quad < 4 && (quad == 1 ==> left < 64) && (quad == 2 ==> left < 16) && (quad == 3 ==> left < 4)
    ensures Read64(s, quad, left, pads) == Read64(Kept(s), quad, left, pads)
    decreases |s|
  {
    if s == "" {
    } else {
      var rest := s[1..];
      if !Counts(s[0]) {
        JunkIsSkipped(rest, quad, left, pads);
        assert Kept(s) == Kept(rest);
      } else {
        assert Kept(s)[0] == s[0] && Kept(s)[1..] == Kept(rest);
        if s[0] == '=' {
          JunkIsSkipped(rest, quad, left, if quad >= 2 then pads + 1 else pads);
        } else {
          var n := SymbolValue(s[0]).value;
          if quad == 0 {
            JunkIsSkipped(rest, 1, n, 0);
          } else if quad == 1 {
            JunkIsSkipped(rest, 2, n % 16, 0);
          } else if quad == 2 {
            JunkIsSkipped(rest, 3, n % 4, 0);
          } else {
            JunkIsSkipped(rest, 0, 0, 0);
          }
        }
      }
    }
  }

  lemma ReadNext(s: string, quad: nat, left: nat)
    requires quad < 4 && (quad == 1 ==> left < 64) && (quad == 2 ==> left < 16) && (quad == 3 ==> left < 4)
    requires s != "" && SymbolValue(s[0]).Some? && s[0] != '='
    ensures var n := SymbolValue(s[0]).value;
            Read64(s, quad, left, 0)
            == if quad == 0 then Read64(s[1..], 1, n, 0)
               else if quad == 1 then Prepend(left * 4 + n / 16, Read64(s[1..], 2, n % 16, 0))
               else if quad == 2 then Prepend(left * 16 + n / 4, Read64(s[1..], 3, n % 4, 0))
               else Prepend(left * 64 + n, Read64(s[1..], 0, 0, 0))
  {
  }

  /** What is left after two, three or four symbols of a group. */
  lemma ReadSome(s: string, rest: string) returns (left: nat)
    requires 2 <= |s| <= 4 && AreSymbols(s)
    ensures (|s| == 2 ==> left < 16) && (|s| == 3 ==> left < 4) && (|s| == 4 ==> left == 0)
    ensures var r := Read64(rest, |s| % 4, left, 0);
            && (Decode64(s + rest).Some? <==> r.Some?)
            && (r.Some? ==> |Decode64(s + rest).value| == |s| - 1 + |r.value|)
  {
    FourSymbols(s);
    hide AreSymbols, SymbolValue, IsSpace, Read64;
    var t := s + rest;
    var n1 := SymbolValue(s[1]).value;
    ReadNext(t, 0, 0);
    ReadNext(t[1..], 1, SymbolValue(s[0]).value);
    left := n1 % 16;
    if |s| == 2 {
      assert t[1..][1..] == rest;
    } else {
      assert t[1..][1..] == t[2..];
      ReadNext(t[2..], 2, n1 % 16);
      var n2 := SymbolValue(s[2]).value;
      left := n2 % 4;
      if |s| == 3 {
        assert t[2..][1..] == rest;
      } else {
        left := 0;
        assert t[2..][1..] == t[3..];
        ReadNext(t[3..], 3, n2 % 4);
        assert t[3..][1..] == rest;
      }
    }
  }

  lemma FourSymbols(s: string)
    requires AreSymbols(s)
    ensures forall i :: 0 <= i < |s| ==> SymbolValue(s[i]).Some? && s[i] != '='
  {
  }

  /** Symbols of either alphabet, padded by the length-mod-4 rule, are some bytes unless a single one is left over. */
  lemma {:induction false} SymbolsDecode(s: string)
    requires AreSymbols(s)
    ensures var r := Decode64(s + Padding(|s|));
            && (r.Some? <==> |s| % 4 != 1) && (r.Some? ==> |r.value| == |s| * 3 / 4)
  {
    if |s| >= 4 {
      hide Decode64, IsSpace, SymbolValue;
      SymbolsDecode(s[4..]);
      var left := ReadSome(s[..4], s[4..] + Padding(|s[4..]|));
      assert s + Padding(|s|) == s[..4] + (s[4..] + Padding(|s[4..]|));
    } else {
      ShortTail(s);
    }
  }

  lemma ShortTail(s: string)
    requires AreSymbols(s) && |s| <= 3
    ensures var r := Decode64(s + Padding(|s|));
            && (r.Some? <==> |s| != 1) && (r.Some? ==> |r.value| == |s| * 3 / 4)
  {
    FourSymbols(s);
    hide AreSymbols, SymbolValue, IsSpace;
    if s == "" {
      EmptyCode();
      assert s + Padding(0) == "";
    } else if |s| == 1 {
      var t := s + Padding(1);
      ReadNext(t, 0, 0);
      assert t[1..] == "===" && "==="[1..] == "==" && "=="[1..] == "=" && "="[1..] == "";
    } else {
      var left := ReadSome(s, Padding(|s|));
      LastPadding();
    }
  }

  lemma LastPadding()
    ensures forall left: nat :: left < 16 ==> Read64(Padding(2), 2, left, 0) == Some([])
    ensures forall left: nat :: left < 4 ==> Read64(Padding(3), 3, left, 0) == Some([])
  {
    assert Padding(2) == "==" && Padding(3) == "=" && "=="[1..] == "=";
    forall left: nat | left < 16
      ensures Read64("==", 2, left, 0) == Some([])
    {
      assert Read64("=", 2, left, 1) == Some([]);
    }
  }
}
