/** The address classifier in front of user-chosen endpoints (publicEgress.ts). The platform's own literal check has
already accepted the text, so only well-formed addresses get here. */
module PublicEgress {
  import opened Common

  type Text = seq<char>

  // ----- 32-bit integers of the source language -----

  const TWO_31 := 0x8000_0000
  const TWO_32 := 0x1_0000_0000

  function ToUint32(n: int): nat {
    n % TWO_32
  }

  function ToInt32(n: int): int {
    if ToUint32(n) < TWO_31 then ToUint32(n) else ToUint32(n) - TWO_32
  }

  function Pow2(k: nat): (p: nat)
    ensures p >= 1
  {
    if k == 0 then 1 else 2 * Pow2(k - 1)
  }

  /** Bitwise and of unsigned numbers. */
  function And(a: nat, b: nat): nat {
    if a == 0 || b == 0 then 0 else (if a % 2 == 1 && b % 2 == 1 then 1 else 0) + 2 * And(a / 2, b / 2)
  }

  // ----- text -----

  function Split(s: Text, sep: char): (parts: seq<Text>)
    ensures parts != []
  {
    if s == [] then [[]]
    else
      var rest := Split(s[1..], sep);
      if s[0] == sep then [[]] + rest else [[s[0]] + rest[0]] + rest[1..]
  }

  /** Split at each `::`, from the left. */
  function SplitDouble(s: Text): (parts: seq<Text>)
    ensures parts != []
  {
    if s == [] then [[]]
    else if |s| >= 2 && s[0] == ':' && s[1] == ':' then [[]] + SplitDouble(s[2..])
    else
      var rest := SplitDouble(s[1..]);
      [[s[0]] + rest[0]] + rest[1..]
  }

  predicate IsDigit(c: char) {
    '0' <= c <= '9'
  }

  predicate IsHex(c: char) {
    IsDigit(c) || 'a' <= c <= 'f'
  }

  predicate All(s: Text, p: char -> bool) {
    forall i :: 0 <= i < |s| ==> p(s[i])
  }

  function Lower(c: char): char {
    if 'A' <= c <= 'Z' then (c as int + 32) as char else c
  }

  function ToLower(s: Text): (t: Text)
    ensures |t| == |s|
  {
    seq(|s|, i requires 0 <= i < |s| => Lower(s[i]))
  }

  function Digit(d: int): char
    requires 0 <= d < 16
  {
    if d < 10 then (48 + d) as char else (87 + d) as char
  }

  function Value(c: char): int {
    if IsDigit(c) then c as int - 48 else c as int - 87
  }

  /** `toString(radix)`. */
  function Numeral(n: nat, radix: nat): Text
    requires 2 <= radix <= 16
  {
    if n < radix then [Digit(n)] else Numeral(n / radix, radix) + [Digit(n % radix)]
  }

  function NumeralValue(s: Text, radix: int): int {
    if s == [] then 0 else NumeralValue(s[..|s| - 1], radix) * radix + Value(s[|s| - 1])
  }

  function HexPrefix(s: Text): Text {
    if s == [] || !IsHex(s[0]) then [] else [s[0]] + HexPrefix(s[1..])
  }

  /** `Number.parseInt(s, 16)` on lower-case text without sign or prefix. */
  function ParseHex(s: Text): Option<int> {
    if HexPrefix(s) == [] then None else Some(NumeralValue(HexPrefix(s), 16))
  }

  // ----- IPv4 -----

  type Octets = o: seq<int> | |o| == 4 && forall i :: 0 <= i < 4 ==> 0 <= o[i] < 256 witness [0, 0, 0, 0]

  function Fold(octets: seq<Text>, acc: int): int {
    if octets == [] then acc else Fold(octets[1..], ToInt32(acc * 256) + NumeralValue(octets[0], 10))
  }

  function V4ToInt(ip: Text): nat {
    ToUint32(Fold(Split(ip, '.'), 0))
  }

  function Dot(p: Text, rest: Text): Text {
    p + ['.'] + rest
  }

  /** The dotted text of four octets. */
  function V4Text(o: Octets): Text {
    Dot(Numeral(o[0], 10), Dot(Numeral(o[1], 10), Dot(Numeral(o[2], 10), Numeral(o[3], 10))))
  }

  datatype Block = Block(base: Octets, bits: nat)

  const BLOCKS := 15

  function Blocked(i: nat): Block
    requires i < BLOCKS
  {
    if i == 0 then Block([0, 0, 0, 0], 8)
    else if i == 1 then Block([10, 0, 0, 0], 8)
    else if i == 2 then Block([100, 64, 0, 0], 10)
    else if i == 3 then Block([127, 0, 0, 0], 8)
    else if i == 4 then Block([169, 254, 0, 0], 16)
    else if i == 5 then Block([172, 16, 0, 0], 12)
    else if i == 6 then Block([192, 0, 0, 0], 24)
    else if i == 7 then Block([192, 0, 2, 0], 24)
    else if i == 8 then Block([192, 88, 99, 0], 24)
    else if i == 9 then Block([192, 168, 0, 0], 16)
    else if i == 10 then Block([198, 18, 0, 0], 15)
    else if i == 11 then Block([198, 51, 100, 0], 24)
    else if i == 12 then Block([203, 0, 113, 0], 24)
    else if i == 13 then Block([224, 0, 0, 0], 4)
    else Block([240, 0, 0, 0], 4)
  }

  function Mask(bits: nat): nat {
    if bits == 0 || bits > 32 then 0 else ToUint32(ToInt32(-1 * Pow2(32 - bits)))
  }

  predicate InBlock(n: nat, b: Block) {
    And(n, Mask(b.bits)) == And(V4ToInt(V4Text(b.base)), Mask(b.bits))
  }

  predicate IsPublicV4(ip: Text) {
    var n := V4ToInt(ip);
    !exists i :: 0 <= i < BLOCKS && InBlock(n, Blocked(i))
  }

  // ----- IPv6 -----

  type Groups = g: seq<int> | |g| == 8 && forall i :: 0 <= i < 8 ==> 0 <= g[i] <= 0xffff
    witness [0, 0, 0, 0, 0, 0, 0, 0]

  /** What the pattern for a dotted tail matches. */
  predicate Dotted(s: Text) {
    var parts := Split(s, '.');
    |parts| == 4 && forall i :: 0 <= i < 4 ==> parts[i] != [] && All(parts[i], IsDigit)
  }

  /** The leftmost place from which the rest is dotted, or the end. */
  function TailStart(s: Text): (k: nat)
    ensures k <= |s|
  {
    if s == [] || Dotted(s) then 0 else 1 + TailStart(s[1..])
  }

  function ReplaceTail(s: Text): Text {
    var k := TailStart(s);
    if k == |s| then s
    else
      var n := V4ToInt(s[k..]);
      s[..k] + Numeral(n / 0x1_0000, 16) + ":" + Numeral(n % 0x1_0000, 16)
  }

  function Fields(half: Text): seq<Text> {
    if half == [] then [] else Split(half, ':')
  }

  function ParseField(g: Text): Option<int> {
    ParseHex(if g == [] then "0" else g)
  }

  /** The fields of the halves around `::`, with zeros in the gap. */
  function Expand(halves: seq<Text>): seq<Text>
    requires 1 <= |halves| <= 2
  {
    var head := Fields(halves[0]);
    var tail := if |halves| == 2 then Fields(halves[1]) else [];
    var fill := if |halves| == 2 then 8 - |head| - |tail| else 0;
    head + seq(if fill > 0 then fill else 0, _ => "0") + tail
  }

  function Parsed(groups: seq<Text>): seq<Option<int>> {
    seq(|groups|, i requires 0 <= i < |groups| => ParseField(groups[i]))
  }

  function ParseGroups(groups: seq<Text>): Option<Groups>
    requires |groups| == 8
  {
    var out := Parsed(groups);
    if forall i :: 0 <= i < 8 ==> out[i].Some? && 0 <= out[i].value <= 0xffff
    then Some(seq(8, i requires 0 <= i < 8 => out[i].value))
    else None
  }

  function V6Groups(ip: Text): Option<Groups> {
    var s := ToLower(ip);
    if '%' in s then None
    else
      var halves := SplitDouble(ReplaceTail(s));
      if |halves| > 2 then None
      else
        var groups := Expand(halves);
        if |groups| != 8 then None else ParseGroups(groups)
  }

  function EmbeddedV4(g: Groups): Text {
    V4Text([g[6] / 256, g[6] % 256, g[7] / 256, g[7] % 256])
  }

  predicate ZeroFrom(g: Groups, lo: nat, hi: nat)
    requires hi <= 8
  {
    forall i :: lo <= i < hi ==> g[i] == 0
  }

  predicate PublicGroups(g: Groups) {
    if ZeroFrom(g, 0, 8) then false
    else if ZeroFrom(g, 0, 7) && g[7] == 1 then false
    else if ZeroFrom(g, 0, 5) && (g[5] == 0xffff || g[5] == 0) then IsPublicV4(EmbeddedV4(g))
    else if g[0] == 0x64 && g[1] == 0xff9b && ZeroFrom(g, 2, 6) then IsPublicV4(EmbeddedV4(g))
    else if And(g[0], 0xe000) != 0x2000 then false
    else if g[0] == 0x2001 && g[1] < 0x0200 then false
    else if g[0] == 0x2001 && g[1] == 0x0db8 then false
    else if g[0] == 0x2002 then false
    else if g[0] == 0x3fff && g[1] < 0x1000 then false
    else true
  }

  predicate IsPublicV6(ip: Text) {
    match V6Groups(ip)
    case None => false
    case Some(g) => PublicGroups(g)
  }
}
