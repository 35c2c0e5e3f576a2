/**
 The text of `awg1.conf` and of the saved `.peer` files: lines, sections, keys and addresses,
 as `scripts/provisioner/vpnctl` reads them. The only line break is '\n'.
 */
module ConfText {
  import opened Wrappers

  // ----- characters -----

  /** Python's `str.isspace`, which is also the regular-expression class `\s`. */
  predicate IsSpace(c: char) {
    var n := c as int;
    9 <= n <= 13 || 28 <= n <= 32 || n == 0x85 || n == 0xA0 || n == 0x1680 || 0x2000 <= n <= 0x200A
    || n == 0x2028 || n == 0x2029 || n == 0x202F || n == 0x205F || n == 0x3000
  }

  predicate IsLetter(c: char) {
    'a' <= c <= 'z' || 'A' <= c <= 'Z'
  }

  predicate IsIdentifierChar(c: char) {
    IsLetter(c) || '0' <= c <= '9' || c == '_' || c == '-'
  }

  /** `^[a-zA-Z0-9_-]{1,64}$`, for a name that does not end in a newline. */
  predicate IsIdentifier(s: string) {
    1 <= |s| <= 64 && forall i :: 0 <= i < |s| ==> IsIdentifierChar(s[i])
  }

  /** A word: at least one character and no white space. Keys and addresses are words. */
  predicate IsWord(s: string) {
    |s| > 0 && forall i :: 0 <= i < |s| ==> !IsSpace(s[i])
  }

  // ----- stripping -----

  function LStrip(s: string): string {
    if s != "" && IsSpace(s[0]) then LStrip(s[1..]) else s
  }

  function RStrip(s: string): string {
    if s != "" && IsSpace(s[|s| - 1]) then RStrip(s[..|s| - 1]) else s
  }

  function Strip(s: string): string {
    RStrip(LStrip(s))
  }

  /** `rstrip("\n")`. */
  function RStripNewlines(s: string): string {
    if s != "" && s[|s| - 1] == '\n' then RStripNewlines(s[..|s| - 1]) else s
  }

  predicate StartsWith(s: string, prefix: string) {
    |prefix| <= |s| && s[..|prefix|] == prefix
  }

  function SplitOn(s: string, sep: char): seq<string>
    ensures |SplitOn(s, sep)| >= 1
  {
    if s == "" then [""]
    else
      var rest := SplitOn(s[1..], sep);
      if s[0] == sep then [""] + rest else [[s[0]] + rest[0]] + rest[1..]
  }

  // ----- lines -----

  /** The first line, with its newline if it has one. */
  function FirstLine(t: string): (l: string)
    ensures |l| <= |t| && l == t[..|l|]
    ensures t != "" ==> l != ""
  {
    if t == "" then "" else if t[0] == '\n' then "\n" else [t[0]] + FirstLine(t[1..])
  }

  /** `splitlines(keepends=True)`. */
  function Lines(t: string): seq<string>
    decreases |t|
  {
    if t == "" then [] else [FirstLine(t)] + Lines(t[|FirstLine(t)|..])
  }

  /** `"".join(lines)`. */
  function Join(ls: seq<string>): string {
    if ls == [] then "" else ls[0] + Join(ls[1..])
  }

  /** A line that ends in its only newline. */
  predicate IsFullLine(l: string) {
    l != "" && l[|l| - 1] == '\n' && forall i :: 0 <= i < |l| - 1 ==> l[i] != '\n'
  }

  /** A line, perhaps the unfinished last one of a text. */
  predicate IsLine(l: string) {
    l != "" && forall i :: 0 <= i < |l| - 1 ==> l[i] != '\n'
  }

  predicate EndsLine(t: string) {
    t == "" || t[|t| - 1] == '\n'
  }

  // ----- sections -----

  /** `^\s*\[[A-Za-z]+\]\s*$`. */
  predicate IsHeader(l: string) {
    var s := Strip(l);
    |s| >= 3 && s[0] == '[' && s[|s| - 1] == ']' && forall i :: 0 < i < |s| - 1 ==> IsLetter(s[i])
  }

  datatype Section = Section(header: Option<string>, lines: seq<string>)

  const PREAMBLE := Section(None, [])

  /** One more line: a header starts a section, any other line goes on with the last one. */
  function Push(secs: seq<Section>, l: string): (r: seq<Section>)
    requires |secs| >= 1
    ensures |r| >= |secs|
  {
    if IsHeader(l) then secs + [Section(Some(Strip(l)), [l])]
    else
      var current := secs[|secs| - 1];
      secs[..|secs| - 1] + [current.(lines := current.lines + [l])]
  }

  /** The sections of some lines: the lines before the first header, then one section a header. */
  function Group(ls: seq<string>): (secs: seq<Section>)
    ensures |secs| >= 1
  {
    if ls == [] then [PREAMBLE] else Push(Group(ls[..|ls| - 1]), ls[|ls| - 1])
  }

  function Sections(t: string): (secs: seq<Section>)
    ensures |secs| >= 1
  {
    Group(Lines(t))
  }

  /** What `split_sections` returns: an empty preamble is left out. */
  function Listed(secs: seq<Section>): seq<Section> {
    if secs == [] then []
    else if secs[0].header.Some? || secs[0].lines != [] then [secs[0]] + Listed(secs[1..])
    else Listed(secs[1..])
  }

  function TextOf(secs: seq<Section>): string {
    if secs == [] then "" else Join(secs[0].lines) + TextOf(secs[1..])
  }

  // ----- keys -----

  /** The value of `^\s*key\s*=\s*(.+?)\s*$` on what follows the "=". A value of white space only
      is its last character that is not a newline: the group needs one character. */
  function ValueAfterEquals(w: string): Option<string> {
    var v := Strip(w);
    if v != "" then Some(v)
    else
      var u := RStripNewlines(w);
      if u == "" then None else Some([u[|u| - 1]])
  }

  function LineValue(l: string, key: string): Option<string> {
    var s := LStrip(l);
    if StartsWith(s, key) then
      var r := LStrip(s[|key|..]);
      if r != "" && r[0] == '=' then ValueAfterEquals(r[1..]) else None
    else None
  }

  /** The value on the first line that has one. */
  function GetValue(ls: seq<string>, key: string): Option<string> {
    if ls == [] then None
    else
      var v := LineValue(ls[0], key);
      if v.Some? then v else GetValue(ls[1..], key)
  }

  /** The name in `# name`, the line after a peer's header. */
  function PeerName(ls: seq<string>): Option<string> {
    if |ls| > 1 then
      var l := RStripNewlines(ls[1]);
      if l != "" && l[0] == '#' && IsWord(Strip(l[1..])) then Some(Strip(l[1..])) else None
    else None
  }

  const PEER: Option<string> := Some("[Peer]")
  const INTERFACE: Option<string> := Some("[Interface]")
  const PUBLIC_KEY := "PublicKey"
  const PRESHARED_KEY := "PresharedKey"
  const ALLOWED_IPS := "AllowedIPs"

  // ----- addresses -----

  datatype Ip = Ip(version: nat, number: nat)

  /** Python's `ipaddress`: `parse` is `ip_interface(s).ip` (None for its ValueError), `show` is
      `str(ip)`, and `hosts` lists `ip_interface(s).network.hosts()`. */
  datatype IpLib = IpLib(parse: string -> Option<Ip>, show: Ip -> string, hosts: string -> seq<Ip>)

  /** A printed address is a word without a comma that parses back. */
  predicate Prints(lib: IpLib, a: Ip) {
    IsWord(lib.show(a)) && ',' !in lib.show(a) && lib.parse(lib.show(a) + "/32") == Some(a)
  }

  /** Every host that a subnet lists can be printed. */
  ghost predicate Lawful(lib: IpLib) {
    forall subnet, a :: a in lib.hosts(subnet) ==> Prints(lib, a)
  }

  function PartAddress(lib: IpLib, part: string): set<Ip> {
    match lib.parse(Strip(part))
    case Some(a) => {a}
    case None => {}
  }

  function PartsAddresses(lib: IpLib, parts: seq<string>): set<Ip> {
    if parts == [] then {} else PartAddress(lib, parts[0]) + PartsAddresses(lib, parts[1..])
  }

  function ValueAddresses(lib: IpLib, v: Option<string>): set<Ip> {
    if v.Some? then PartsAddresses(lib, SplitOn(v.value, ',')) else {}
  }

  /** Every address on an `AllowedIPs` line. */
  function Addresses(lib: IpLib, ls: seq<string>): set<Ip> {
    if ls == [] then {}
    else ValueAddresses(lib, LineValue(ls[0], ALLOWED_IPS)) + Addresses(lib, ls[1..])
  }

  /** The address before the first comma, the only one `enable-peer` looks at. */
  function FirstAddress(lib: IpLib, v: string): Option<Ip> {
    lib.parse(Strip(SplitOn(v, ',')[0]))
  }

  // ----- what the program sees of a section -----

  /** A section with its trailing blank lines forgotten. */
  datatype View = View(
    header: Option<string>,
    name: Option<string>,
    publicKey: Option<string>,
    presharedKey: Option<string>,
    allowedIps: Option<string>,
    addresses: set<Ip>,
    core: string)

  function ViewOf(lib: IpLib, sec: Section): View {
    View(sec.header, PeerName(sec.lines), GetValue(sec.lines, PUBLIC_KEY), GetValue(sec.lines, PRESHARED_KEY),
         GetValue(sec.lines, ALLOWED_IPS), Addresses(lib, sec.lines), RStripNewlines(Join(sec.lines)))
  }

  function ViewsOf(lib: IpLib, secs: seq<Section>): (vs: seq<View>)
    ensures |vs| == |secs|
    ensures forall i :: 0 <= i < |secs| ==> vs[i] == ViewOf(lib, secs[i])
  {
    if secs == [] then [] else [ViewOf(lib, secs[0])] + ViewsOf(lib, secs[1..])
  }

  function Views(lib: IpLib, t: string): (vs: seq<View>)
    ensures |vs| >= 1
  {
    ViewsOf(lib, Sections(t))
  }

  // ----- finding, dropping and appending a peer -----

  predicate IsNamedPeer(sec: Section, name: string) {
    sec.header == PEER && PeerName(sec.lines) == Some(name)
  }

  function FindIn(secs: seq<Section>, name: string): Option<Section> {
    if secs == [] then None
    else if IsNamedPeer(secs[0], name) then Some(secs[0])
    else FindIn(secs[1..], name)
  }

  /** `find_peer`: the first peer block of that name. */
  function FindPeer(conf: string, name: string): Option<Section> {
    FindIn(Sections(conf), name)
  }

  function DropIn(secs: seq<Section>, name: string): seq<Section> {
    if secs == [] then []
    else if IsNamedPeer(secs[0], name) then DropIn(secs[1..], name)
    else [secs[0]] + DropIn(secs[1..], name)
  }

  /** `without_peer`: the text without any peer block of that name. */
  function WithoutPeer(conf: string, name: string): string {
    TextOf(DropIn(Sections(conf), name))
  }

  /** `conf.rstrip("\n") + "\n\n" + block`. */
  function AppendBlock(conf: string, block: string): string {
    RStripNewlines(conf) + "\n\n" + block
  }

  /** The peer block that `create-peer` writes. */
  function Render(name: string, pub: string, psk: string, ips: string): string {
    "[Peer]\n" + ("# " + name + "\n") + ("PublicKey = " + pub + "\n") + ("PresharedKey = " + psk + "\n")
    + ("AllowedIPs = " + ips + "\n")
  }

  /** A text that is one peer block with that name, ending in one newline. */
  predicate IsBlock(t: string, name: string) {
    var secs := Sections(t);
    |secs| == 2 && secs[0] == PREAMBLE && IsNamedPeer(secs[1], name) && t == RStripNewlines(t) + "\n"
  }

  // ----- the loops of the program -----

  /** `split_sections`. */
  method SplitSections(t: string) returns (sections: seq<Section>)
    ensures sections == Listed(Sections(t))
  {
    var all: seq<Section> := [];
    var current := PREAMBLE;
    var ls := Lines(t);
    for i := 0 to |ls|
      invariant all + [current] == Group(ls[..i])
    {
      var line := ls[i];
      assert ls[..i + 1][..i] == ls[..i];
      assert (all + [current])[..|all|] == all;
      if IsHeader(line) {
        all := all + [current];
        current := Section(Some(Strip(line)), [line]);
      } else {
        current := current.(lines := current.lines + [line]);
      }
    }
    assert ls[..|ls|] == ls;
    all := all + [current];
    sections := Listed(all);
  }
}
