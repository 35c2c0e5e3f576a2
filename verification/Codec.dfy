/**
 The `vpn://` form of a client config: URL-safe Base64 without padding (sections 5 and 3.2 of
 RFC 4648) around a 4-byte big-endian length and a zlib stream. The bot and `vpnctl` each have a copy.
 */
module Codec {
  import opened Wrappers
  import opened ConfText
  import opened ConfTextRender

  type Byte = n: nat | n < 256

  // ----- Base64 -----

  /** The URL-safe alphabet. */
  function Symbol(n: nat): char
    requires n < 64
  {
    if n < 26 then 'A' + n as char
    else if n < 52 then 'a' + (n - 26) as char
    else if n < 62 then '0' + (n - 52) as char
    else if n == 62 then '-' else '_'
  }

  /** `urlsafe_b64encode`. */
  function Encode64(b: seq<Byte>): string {
    if |b| == 0 then ""
    else if |b| == 1 then Symbols([b[0] / 4, Bits12(b[0], 0)]) + "=="
    else if |b| == 2 then Symbols([b[0] / 4, Bits12(b[0], b[1]), Bits23(b[1], 0)]) + "="
    else Symbols([b[0] / 4, Bits12(b[0], b[1]), Bits23(b[1], b[2]), b[2] % 64]) + Encode64(b[3..])
  }

  type Sextet = n: nat | n < 64

  /** The last 2 bits of one byte and the first 4 of the next. */
  function Bits12(a: Byte, b: Byte): Sextet { a % 4 * 16 + b / 16 }

  /** The last 4 bits of one byte and the first 2 of the next. */
  function Bits23(b: Byte, c: Byte): Sextet { b % 16 * 4 + c / 64 }

  function Symbols(ns: seq<Sextet>): (s: string)
    ensures |s| == |ns| && forall i :: 0 <= i < |ns| ==> s[i] == Symbol(ns[i])
  {
    seq(|ns|, i requires 0 <= i < |ns| => Symbol(ns[i]))
  }

  /** The value of a character when decoding; both alphabets are read. */
  function SymbolValue(c: char): (r: Option<nat>)
    ensures r.Some? ==> r.value < 64
  {
    if 'A' <= c <= 'Z' then Some(c as nat - 'A' as nat)
    else if 'a' <= c <= 'z' then Some(c as nat - 'a' as nat + 26)
    else if '0' <= c <= '9' then Some(c as nat - '0' as nat + 52)
    else if c == '-' || c == '+' then Some(62)
    else if c == '_' || c == '/' then Some(63)
    else None
  }

  /** Python's lenient Base64 reader, `quad` characters into a group whose unwritten low bits are
      `left`, after `pads` padding characters: other characters are skipped, enough padding ends the
      text, and a group cut short is an error. */
  function Read64(s: string, quad: nat, left: nat, pads: nat): Option<seq<Byte>>
    requires quad < 4 && (quad == 1 ==> left < 64) && (quad == 2 ==> left < 16) && (quad == 3 ==> left < 4)
    decreases |s|
  {
    if s == "" then if quad == 0 then Some([]) else None
    else if s[0] == '=' then
      if quad >= 2 && quad + pads + 1 >= 4 then Some([])
      else Read64(s[1..], quad, left, if quad >= 2 then pads + 1 else pads)
    else
      match SymbolValue(s[0])
      case None => Read64(s[1..], quad, left, pads)
      case Some(n) =>
        if quad == 0 then Read64(s[1..], 1, n, 0)
        else if quad == 1 then Prepend(left * 4 + n / 16, Read64(s[1..], 2, n % 16, 0))
        else if quad == 2 then Prepend(left * 16 + n / 4, Read64(s[1..], 3, n % 4, 0))
        else Prepend(left * 64 + n, Read64(s[1..], 0, 0, 0))
  }

  function Prepend(b: Byte, rest: Option<seq<Byte>>): Option<seq<Byte>> {
    match rest
    case None => None
    case Some(bs) => Some([b] + bs)
  }

  /** `urlsafe_b64decode` of an ASCII text. */
  function Decode64(s: string): Option<seq<Byte>> {
    Read64(s, 0, 0, 0)
  }

  /** `rstrip(b"=")`. */
  function Unpad(s: string): string {
    if s != "" && s[|s| - 1] == '=' then Unpad(s[..|s| - 1]) else s
  }

  /** `"=" * ((4 - len % 4) % 4)`. */
  function Padding(n: nat): string {
    seq((4 - n % 4) % 4, _ => '=')
  }

  lemma SymbolsInvert(n: nat)
    requires n < 64
    ensures SymbolValue(Symbol(n)) == Some(n) && Symbol(n) != '=' && !IsSpace(Symbol(n)) && Symbol(n) as nat < 128
  {
  }

  lemma ReadSymbol(s: string, n: nat, quad: nat, left: nat, pads: nat)
    requires n < 64 && s != "" && s[0] == Symbol(n)
    requires quad < 4 && (quad == 1 ==> left < 64) && (quad == 2 ==> left < 16) && (quad == 3 ==> left < 4)
    ensures Read64(s, quad, left, pads)
         == if quad == 0 then Read64(s[1..], 1, n, 0)
            else if quad == 1 then Prepend(left * 4 + n / 16, Read64(s[1..], 2, n % 16, 0))
            else if quad == 2 then Prepend(left * 16 + n / 4, Read64(s[1..], 3, n % 4, 0))
            else Prepend(left * 64 + n, Read64(s[1..], 0, 0, 0))
  {
    SymbolsInvert(n);
  }

  /** The sextets give the bytes back. */
  lemma BytesOfSextets(a: Byte, b: Byte, c: Byte)
    ensures a / 4 * 4 + Bits12(a, b) / 16 == a
    ensures Bits12(a, b) % 16 * 16 + Bits23(b, c) / 4 == b
    ensures Bits23(b, c) % 4 * 64 + c % 64 == c
  {
    assert Bits12(a, b) / 16 == a % 4 && Bits12(a, b) % 16 == b / 16;
    assert Bits23(b, c) / 4 == b % 16 && Bits23(b, c) % 4 == c / 64;
  }

  lemma ReadTwo(n0: Sextet, n1: Sextet, rest: string)
    ensures Decode64(Symbols([n0, n1]) + rest) == Prepend(n0 * 4 + n1 / 16, Read64(rest, 2, n1 % 16, 0))
  {
    var s := Symbols([n0, n1]) + rest;
    ReadSymbol(s, n0, 0, 0, 0);
    ReadSymbol(s[1..], n1, 1, n0, 0);
    assert s[1..][1..] == rest;
  }

  lemma ReadThird(n: Sextet, left: nat, rest: string)
    requires left < 16
    ensures Read64(Symbols([n]) + rest, 2, left, 0) == Prepend(left * 16 + n / 4, Read64(rest, 3, n % 4, 0))
  {
    var s := Symbols([n]) + rest;
    ReadSymbol(s, n, 2, left, 0);
    assert s[1..] == rest;
  }

  lemma ReadFourth(n: Sextet, left: nat, rest: string)
    requires left < 4
    ensures Read64(Symbols([n]) + rest, 3, left, 0) == Prepend(left * 64 + n, Decode64(rest))
  {
    var s := Symbols([n]) + rest;
    ReadSymbol(s, n, 3, left, 0);
    assert s[1..] == rest;
  }

  lemma ReadGroup(a: Byte, b: Byte, c: Byte, rest: string)
    ensures Decode64(Symbols([a / 4, Bits12(a, b), Bits23(b, c), c % 64]) + rest)
         == Prepend(a, Prepend(b, Prepend(c, Decode64(rest))))
  {
    hide Read64;
    var n0: Sextet, n1, n2, n3: Sextet := a / 4, Bits12(a, b), Bits23(b, c), c % 64;
    var last := Symbols([n3]) + rest;
    var tail := Symbols([n2]) + last;
    assert Symbols([n0, n1, n2, n3]) + rest == Symbols([n0, n1]) + tail;
    ReadTwo(n0, n1, tail);
    ReadThird(n2, n1 % 16, last);
    ReadFourth(n3, n2 % 4, rest);
    BytesOfSextets(a, b, c);
  }

  lemma ReadPadding()
    ensures Read64("==", 2, 0, 0) == Some([]) && Read64("=", 3, 0, 0) == Some([])
  {
    assert "=="[1..] == "=";
    assert Read64("=", 2, 0, 1) == Some([]);
  }

  lemma ReadOneByte(a: Byte)
    ensures Decode64(Symbols([a / 4, Bits12(a, 0)]) + "==") == Some([a])
  {
    hide Read64;
    ReadPadding();
    BytesOfSextets(a, 0, 0);
    ReadTwo(a / 4, Bits12(a, 0), "==");
    assert Bits12(a, 0) % 16 == 0;
    assert [a] + [] == [a];
  }

  lemma ReadTwoBytes(a: Byte, b: Byte)
    ensures Decode64(Symbols([a / 4, Bits12(a, b), Bits23(b, 0)]) + "=") == Some([a, b])
  {
    hide Read64;
    var n0: Sextet, n1, n2 := a / 4, Bits12(a, b), Bits23(b, 0);
    var last := Symbols([n2]) + "=";
    ReadPadding();
    BytesOfSextets(a, b, 0);
    assert Symbols([n0, n1, n2]) + "=" == Symbols([n0, n1]) + last;
    ReadTwo(n0, n1, last);
    ReadThird(n2, n1 % 16, "=");
    assert n2 % 4 == 0;
    assert [a] + ([b] + []) == [a, b];
  }

  lemma EmptyCode()
    ensures Decode64("") == Some([])
  {
  }

  /** Base64 decodes what it encodes. */
  lemma {:induction false} Base64RoundTrip(b: seq<Byte>)
    ensures Decode64(Encode64(b)) == Some(b)
  {
    hide Decode64, Symbols, Bits12, Bits23;
    if |b| == 1 {
      ReadOneByte(b[0]);
      assert b == [b[0]];
    } else if |b| == 2 {
      ReadTwoBytes(b[0], b[1]);
      assert b == [b[0], b[1]];
    } else if |b| == 0 {
      EmptyCode();
    } else {
      Base64RoundTrip(b[3..]);
      ReadGroup(b[0], b[1], b[2], Encode64(b[3..]));
      assert b == [b[0]] + ([b[1]] + ([b[2]] + b[3..]));
    }
  }

  lemma {:induction false} UnpadSymbols(s: string, pads: string)
    requires s != "" ==> s[|s| - 1] != '='
    requires forall i :: 0 <= i < |pads| ==> pads[i] == '='
    ensures Unpad(s + pads) == s
  {
    if pads == "" {
      assert s + pads == s;
    } else {
      assert (s + pads)[..|s + pads| - 1] == s + pads[..|pads| - 1];
      UnpadSymbols(s, pads[..|pads| - 1]);
    }
  }

  predicate AreSymbols(s: string) {
    forall i :: 0 <= i < |s| ==> SymbolValue(s[i]).Some? && !IsSpace(s[i]) && s[i] as nat < 128 && s[i] != '='
  }

  lemma SymbolsAreSymbols(ns: seq<Sextet>)
    ensures AreSymbols(Symbols(ns))
  {
    forall i | 0 <= i < |ns|
      ensures SymbolValue(Symbols(ns)[i]) == Some(ns[i]) && !IsSpace(Symbols(ns)[i]) && Symbols(ns)[i] as nat < 128
              && Symbols(ns)[i] != '='
    {
      SymbolsInvert(ns[i]);
    }
  }

  /** An encoding is symbols and then exactly the padding that the length-mod-4 rule puts back. */
  lemma {:induction false} EncodedShape(b: seq<Byte>)
    ensures var s := Unpad(Encode64(b));
            s + Padding(|s|) == Encode64(b) && AreSymbols(s) && (b != [] ==> s != "")
  {
    hide AreSymbols, Unpad, Padding, Bits12, Bits23, Symbol;
    if |b| == 0 {
      NothingPadded();
    } else if |b| == 1 {
      SymbolsAreSymbols([b[0] / 4, Bits12(b[0], 0)]);
      Padded(Symbols([b[0] / 4, Bits12(b[0], 0)]), "==");
    } else if |b| == 2 {
      SymbolsAreSymbols([b[0] / 4, Bits12(b[0], b[1]), Bits23(b[1], 0)]);
      Padded(Symbols([b[0] / 4, Bits12(b[0], b[1]), Bits23(b[1], 0)]), "=");
    } else {
      var ns: seq<Sextet> := [b[0] / 4, Bits12(b[0], b[1]), Bits23(b[1], b[2]), b[2] % 64];
      var code := Encode64(b[3..]);
      var t := Unpad(code);
      SymbolsAreSymbols(ns);
      EncodedShape(b[3..]);
      MorePadded(Symbols(ns), t);
      assert Symbols(ns) + code == (Symbols(ns) + t) + Padding(|t|);
    }
  }

  /** Symbols and some padding: unpadding gives the symbols, whose length says how much padding there was. */
  lemma Padded(s: string, pads: string)
    requires AreSymbols(s) && (|s| + |pads|) % 4 == 0 && |pads| <= 3
    requires forall i :: 0 <= i < |pads| ==> pads[i] == '='
    ensures Unpad(s + pads) == s && Padding(|s|) == pads
  {
    hide AreSymbols, Unpad;
    PaddingLength(|s|, |pads|);
    if s != "" {
      LastSymbol(s);
    }
    UnpadSymbols(s, pads);
  }

  lemma LastSymbol(s: string)
    requires AreSymbols(s) && s != ""
    ensures s[|s| - 1] != '='
  {
    hide SymbolValue, IsSpace;
  }

  lemma PaddingLength(n: nat, k: nat)
    requires (n + k) % 4 == 0 && k <= 3
    ensures (4 - n % 4) % 4 == k
  {
  }

  lemma NothingPadded()
    ensures Unpad("") == "" && Padding(0) == "" && AreSymbols("") && "" + "" == ""
  {
  }

  lemma MorePadded(g: string, t: string)
    requires |g| == 4 && AreSymbols(g) && AreSymbols(t)
    ensures Unpad((g + t) + Padding(|t|)) == g + t && Padding(|g + t|) == Padding(|t|) && AreSymbols(g + t)
  {
    assert |g + t| % 4 == |t| % 4;
    Padded(g + t, Padding(|t|));
  }

  // ----- the length header -----

  const MAX_LENGTH := 0x1_0000_0000

  /** `struct.pack(">I", n)`. */
  function Header(n: nat): seq<Byte>
    requires n < MAX_LENGTH
  {
    [n / 0x100_0000, n / 0x1_0000 % 256, n / 256 % 256, n % 256]
  }

  /** `struct.unpack(">I", b)[0]`. */
  function HeaderValue(b: seq<Byte>): nat
    requires |b| == 4
  {
    var b0: nat, b1: nat, b2: nat, b3: nat := b[0], b[1], b[2], b[3];
    b0 * 0x100_0000 + b1 * 0x1_0000 + b2 * 256 + b3
  }

  lemma HeaderRoundTrip(n: nat)
    requires n < MAX_LENGTH
    ensures HeaderValue(Header(n)) == n
  {
    var a, b := n / 256, n / 0x1_0000;
    assert a / 256 == b;
    assert b / 256 == n / 0x100_0000;
  }

  // ----- the two copies -----

  /** Python's zlib and UTF-8, each with the reader that may fail. */
  datatype Libs = Libs(
    compress: seq<Byte> -> seq<Byte>,
    decompress: seq<Byte> -> Option<seq<Byte>>,
    utf8: string -> seq<Byte>,
    text: seq<Byte> -> Option<string>)

  /** Each reader undoes its writer on this config, and only the empty config has no bytes. */
  predicate Inverse(libs: Libs, config: string) {
    var data := libs.utf8(config);
    && libs.decompress(libs.compress(data)) == Some(data)
    && libs.text(data) == Some(config)
    && (data == [] <==> config == "")
  }

  const SCHEME := "vpn://"

  /** `encode_vpn_url`, the same in both programs. None is the error of a header over 32 bits. */
  function EncodeVpnUrl(libs: Libs, config: string): Option<string> {
    var data := libs.utf8(config);
    if |data| >= MAX_LENGTH then None
    else Some(SCHEME + Unpad(Encode64(Header(|data|) + libs.compress(data))))
  }

  predicate IsAscii(s: string) {
    forall i :: 0 <= i < |s| ==> s[i] as nat < 128
  }

  /** The Base64 part of a key, with its padding back. */
  function Body(url: string): string {
    var stripped := Strip(url);
    var raw := if StartsWith(stripped, SCHEME) then stripped[|SCHEME|..] else stripped;
    raw + Padding(|raw|)
  }

  function DecodedBytes(url: string): Option<seq<Byte>> {
    if IsAscii(Body(url)) then Decode64(Body(url)) else None
  }

  /** `q_uncompress`: empty on any error. */
  function QUncompress(libs: Libs, data: seq<Byte>): seq<Byte> {
    if |data| < 4 then []
    else
      match libs.decompress(data[4..])
      case None => []
      case Some(out) => if |out| == HeaderValue(data[..4]) then out else []
  }

  /** The bot's `decode_vpn_url`. */
  function BotDecode(libs: Libs, url: string): Option<string> {
    match DecodedBytes(url)
    case None => None
    case Some(data) =>
      var out := QUncompress(libs, data);
      if out == [] then None else libs.text(out)
  }

  /** The `decode_vpn_url` of `vpnctl`: the empty string on any error. */
  function VpnctlDecode(libs: Libs, url: string): string {
    match DecodedBytes(url)
    case None => ""
    case Some(data) =>
      match libs.decompress(if |data| < 4 then [] else data[4..])
      case None => ""
      case Some(out) =>
        if |data| < 4 || |out| != HeaderValue(data[..4]) then ""
        else match libs.text(out) case None => "" case Some(s) => s
  }

  /** The Base64 part of an encoded key is what was encoded. */
  lemma BodyOfEncoded(libs: Libs, config: string)
    requires |libs.utf8(config)| < MAX_LENGTH
    ensures var data := libs.utf8(config);
            DecodedBytes(EncodeVpnUrl(libs, config).value) == Some(Header(|data|) + libs.compress(data))
  {
    hide Encode64, Decode64, Header, Unpad, AreSymbols, IsAscii, Body;
    var data := libs.utf8(config);
    var b := Header(|data|) + libs.compress(data);
    EncodedShape(b);
    Base64RoundTrip(b);
    BodyOfSymbols(Unpad(Encode64(b)));
  }

  lemma BodyOfSymbols(s: string)
    requires AreSymbols(s)
    ensures Body(SCHEME + s) == s + Padding(|s|) && IsAscii(Body(SCHEME + s))
  {
    hide SymbolValue, IsSpace;
    var url := SCHEME + s;
    SchemeIsWord();
    assert IsWord(url) by {
      assert forall i :: 0 <= i < |url| ==> url[i] == if i < 6 then SCHEME[i] else s[i - 6];
    }
    StripWord(url);
    assert url[..6] == SCHEME && url[6..] == s;
  }

  lemma SchemeIsWord()
    ensures IsWord(SCHEME)
  {
  }

  /** The bot reads every non-empty config back, and gives nothing exactly for the empty one. */
  lemma BotRoundTrip(libs: Libs, config: string)
    requires |libs.utf8(config)| < MAX_LENGTH && Inverse(libs, config)
    ensures BotDecode(libs, EncodeVpnUrl(libs, config).value) == if config == "" then None else Some(config)
  {
    hide DecodedBytes, Encode64, Unpad, Header, HeaderValue;
    var data := libs.utf8(config);
    BodyOfEncoded(libs, config);
    HeaderRoundTrip(|data|);
    HeaderLength(|data|);
    var b := Header(|data|) + libs.compress(data);
    assert b[..4] == Header(|data|) && b[4..] == libs.compress(data);
  }

  lemma HeaderLength(n: nat)
    requires n < MAX_LENGTH
    ensures |Header(n)| == 4
  {
  }

  /** The two copies read every text, encoded or not, alike: the bot's None is the other's empty string. */
  lemma CopiesAgree(libs: Libs, url: string)
    requires libs.text([]) == Some("")
    ensures VpnctlDecode(libs, url) == match BotDecode(libs, url) case None => "" case Some(s) => s
  {
  }

  /** So `vpnctl` reads every config back, the empty one too. */
  lemma VpnctlRoundTrip(libs: Libs, config: string)
    requires |libs.utf8(config)| < MAX_LENGTH && Inverse(libs, config) && libs.text([]) == Some("")
    ensures VpnctlDecode(libs, EncodeVpnUrl(libs, config).value) == config
  {
    hide DecodedBytes, VpnctlDecode, BotDecode;
    BotRoundTrip(libs, config);
    CopiesAgree(libs, EncodeVpnUrl(libs, config).value);
  }
}
