/**
 * The headquarters network check of the launcher page: an address is
 * recognised when it is on a list of single addresses or inside a
 * configured range. Addresses are compared through `ipToNumber`, a
 * reduce over the dotted parts with JavaScript's `<<` and `parseInt`.
 */
module IpCheck {
  import opened JsStrings

  const TwoTo31: int := 0x8000_0000
  const TwoTo32: int := 0x1_0000_0000

  /** ECMAScript ToInt32 on an integral value: wrap to the signed 32-bit range. */
  function ToInt32(x: int): (r: int)
    ensures -TwoTo31 <= r < TwoTo31
    ensures (x - r) % TwoTo32 == 0
  {
    var m := x % TwoTo32;
    if m >= TwoTo31 then m - TwoTo32 else m
  }

  /** A JavaScript number as this code can produce it: an integer, or NaN. */
  datatype JsNum = Num(n: int) | NaN

  // ----- String.prototype.split with a one-character separator -----

  /** `s.split(sep)`: the pieces between separators, empty pieces included. */
  function Split(s: string, sep: char): (parts: seq<string>)
    ensures |parts| >= 1
  {
    if s == [] then [[]]
    else
      var init := Split(s[..|s| - 1], sep);
      var c := s[|s| - 1];
      if c == sep then init + [[]]
      else init[..|init| - 1] + [init[|init| - 1] + [c]]
  }

  /** `parts.join(sep)`. */
  function Join(parts: seq<string>, sep: char): string
    requires |parts| >= 1
  {
    if |parts| == 1 then parts[0]
    else Join(parts[..|parts| - 1], sep) + [sep] + parts[|parts| - 1]
  }

  /** No piece of a split holds the separator. */
  lemma {:induction false} SplitPieces(s: string, sep: char)
    ensures forall i :: 0 <= i < |Split(s, sep)| ==> sep !in Split(s, sep)[i]
  {
    if s != [] {
      SplitPieces(s[..|s| - 1], sep);
    }
  }

  /** Joining the pieces of a split gives back the string. */
  lemma {:induction false} JoinSplit(s: string, sep: char)
    ensures Join(Split(s, sep), sep) == s
  {
    if s != [] {
      var init := s[..|s| - 1];
      var c := s[|s| - 1];
      var p := Split(init, sep);
      JoinSplit(init, sep);
      assert s == init + [c];
      if c != sep {
        var q := Split(s, sep);
        assert q == p[..|p| - 1] + [p[|p| - 1] + [c]];
        if |p| > 1 {
          assert q[..|q| - 1] == p[..|p| - 1];
          assert Join(q, sep) == Join(p[..|p| - 1], sep) + [sep] + p[|p| - 1] + [c];
        }
      }
    }
  }

  /** Splitting a string without the separator gives the string alone. */
  lemma {:induction false} SplitNoSeparator(s: string, sep: char)
    requires sep !in s
    ensures Split(s, sep) == [s]
  {
    if s != [] {
      SplitNoSeparator(s[..|s| - 1], sep);
      assert s[..|s| - 1] + [s[|s| - 1]] == s;
    }
  }

  /** Appending a separator and a separator-free piece appends that piece to the split. */
  lemma {:induction false} SplitAppend(a: string, sep: char, b: string)
    requires sep !in b
    ensures Split(a + [sep] + b, sep) == Split(a, sep) + [b]
  {
    if b == [] {
      assert a + [sep] + b == a + [sep];
      assert (a + [sep])[..|a|] == a;
    } else {
      var b' := b[..|b| - 1];
      SplitAppend(a, sep, b');
      assert (a + [sep] + b)[..|a + [sep] + b| - 1] == a + [sep] + b';
      assert b' + [b[|b| - 1]] == b;
    }
  }

  /** Splitting a join of separator-free pieces gives the pieces back. */
  lemma {:induction false} SplitJoin(parts: seq<string>, sep: char)
    requires |parts| >= 1
    requires forall i :: 0 <= i < |parts| ==> sep !in parts[i]
    ensures Split(Join(parts, sep), sep) == parts
  {
    if |parts| == 1 {
      SplitNoSeparator(parts[0], sep);
    } else {
      var init := parts[..|parts| - 1];
      SplitJoin(init, sep);
      SplitAppend(Join(init, sep), sep, parts[|parts| - 1]);
      assert init + [parts[|parts| - 1]] == parts;
    }
  }

  // ----- parseInt(string) -----

  /** The two bases `parseInt` picks from when it is given no radix. */
  datatype Radix = Decimal | Hex

  function Base(radix: Radix): int {
    if radix.Hex? then 16 else 10
  }

  /** The value of `c` as a digit in `radix`, or -1. */
  function DigitValue(c: char, radix: Radix): (v: int)
    ensures v == -1 || 0 <= v < Base(radix)
    ensures radix == Decimal ==> v == (if '0' <= c <= '9' then c as int - '0' as int else -1)
  {
    if '0' <= c <= '9' then c as int - '0' as int
    else if radix.Hex? && 'a' <= c <= 'f' then c as int - 'a' as int + 10
    else if radix.Hex? && 'A' <= c <= 'F' then c as int - 'A' as int + 10
    else -1
  }

  /** The length of the longest prefix of `s` made of digits of `radix`. */
  function DigitRun(s: string, radix: Radix): (n: nat)
    ensures n <= |s|
  {
    if s == [] || DigitValue(s[0], radix) < 0 then 0 else 1 + DigitRun(s[1..], radix)
  }

  /** The value of a string of digits, most significant first. */
  function DigitsValue(d: string, radix: Radix): int {
    if d == [] then 0
    else
      var high := DigitsValue(d[..|d| - 1], radix);
      (if radix.Hex? then high * 16 else high * 10) + DigitValue(d[|d| - 1], radix)
  }

  /**
   * `parseInt(s)` with no radix: leading white space is skipped, then the
   * rest is read by `ParseSigned`.
   */
  function ParseInt(s: string): JsNum {
    if s != [] && IsJsWhitespace(s[0]) then ParseInt(s[1..]) else ParseSigned(s)
  }

  /**
   * `parseInt` after the white space: one sign is read, a `0x`/`0X` prefix
   * selects base 16, and the longest run of digits is read; no digit at all
   * gives NaN.
   */
  function ParseSigned(t: string): JsNum {
    var negative := t != [] && t[0] == '-';
    var u := if t != [] && (t[0] == '-' || t[0] == '+') then t[1..] else t;
    var hex := |u| >= 2 && u[0] == '0' && (u[1] == 'x' || u[1] == 'X');
    var radix := if hex then Hex else Decimal;
    var digits := if hex then u[2..] else u;
    var n := DigitRun(digits, radix);
    if n == 0 then NaN
    else
      var v := DigitsValue(digits[..n], radix);
      Num(if negative then -v else v)
  }

  /** A decimal numeral: digits only, no sign, no padding. */
  predicate IsDecimal(s: string) {
    1 <= |s| && forall i :: 0 <= i < |s| ==> '0' <= s[i] <= '9'
  }

  /** `parseInt` reads a plain decimal numeral as its value. */
  lemma ParseDecimal(s: string)
    requires IsDecimal(s)
    ensures ParseInt(s) == Num(DigitsValue(s, Decimal))
  {
    assert DigitRun(s, Decimal) == |s| by { DigitRunAll(s, Decimal); }
    assert s[..|s|] == s;
  }

  lemma {:induction false} DigitRunAll(s: string, radix: Radix)
    requires forall i :: 0 <= i < |s| ==> DigitValue(s[i], radix) >= 0
    ensures DigitRun(s, radix) == |s|
  {
    if s != [] {
      DigitRunAll(s[1..], radix);
    }
  }

  // ----- ipToNumber, as written -----

  /** `acc << 8`: the left operand is converted with ToInt32 (NaN becomes 0) and the result wraps. */
  function ShiftLeft8(acc: JsNum): int {
    ToInt32((if acc.NaN? then 0 else ToInt32(acc.n)) * 256)
  }

  /** `x + parseInt(octet)`: NaN is absorbing. */
  function Plus(x: int, y: JsNum): JsNum {
    if y.NaN? then NaN else Num(x + y.n)
  }

  /** `parseInt` of every part; it has no side effect, so it may as well be applied before the reduce. */
  function ParseAll(parts: seq<string>): (nums: seq<JsNum>)
    ensures |nums| == |parts|
  {
    if parts == [] then [] else ParseAll(parts[..|parts| - 1]) + [ParseInt(parts[|parts| - 1])]
  }

  /** `reduce((acc, octet) => (acc << 8) + parseInt(octet), 0)` over the parsed parts. */
  function FoldShift(nums: seq<JsNum>): JsNum {
    if nums == [] then Num(0)
    else Plus(ShiftLeft8(FoldShift(nums[..|nums| - 1])), nums[|nums| - 1])
  }

  /** `ipToNumber(ip)`. */
  function IpToNumber(ip: string): JsNum {
    FoldShift(ParseAll(Split(ip, '.')))
  }

  /** A JavaScript comparison `a >= b`; anything compared with NaN is false. */
  predicate AtLeast(a: JsNum, b: JsNum) {
    a.Num? && b.Num? && a.n >= b.n
  }

  /** `isIPInRange(ip, start, end)`, as written: a signed comparison, inclusive at both ends. */
  predicate IsIPInRange(ip: string, start: string, end: string) {
    var ipNum := IpToNumber(ip);
    AtLeast(ipNum, IpToNumber(start)) && AtLeast(IpToNumber(end), ipNum)
  }

  /** The address `a.b.c.d` as an unsigned 32-bit value. */
  function Quad(o: seq<int>): int
    requires |o| == 4
  {
    o[0] * 0x100_0000 + o[1] * 0x1_0000 + o[2] * 0x100 + o[3]
  }

  /** The four octets as the numbers `parseInt` gives. */
  function Nums(o: seq<int>): seq<JsNum>
    requires |o| == 4
  {
    [Num(o[0]), Num(o[1]), Num(o[2]), Num(o[3])]
  }

  /** Four octets, each in 0..255. */
  predicate Octets(o: seq<int>) {
    |o| == 4 && 0 <= o[0] <= 255 && 0 <= o[1] <= 255 && 0 <= o[2] <= 255 && 0 <= o[3] <= 255
  }

  /** A dotted quad: the parts of `ip` parse to the four octets `o`. */
  predicate DottedQuad(ip: string, o: seq<int>) {
    Octets(o) && ParseAll(Split(ip, '.')) == Nums(o)
  }

  /** Shifting a value below 2^24 left by eight bits and adding an octet. */
  lemma ShiftAddSmall(x: int, d: int)
    requires 0 <= x < 0x100_0000 && 0 <= d <= 255
    ensures ToInt32(ToInt32(x) * 256) + d == ToInt32(x * 256 + d)
  {
    assert ToInt32(x) == x;
    assert x * 256 < TwoTo32;
    assert (x * 256) % TwoTo32 == x * 256;
    assert (x * 256 + d) % TwoTo32 == x * 256 + d;
    if x * 256 < TwoTo31 {
      assert x * 256 <= TwoTo31 - 256 by {
        assert x < 0x80_0000;
      }
    }
  }

  /** The reduce over four octet parts gives the address as a signed 32-bit integer. */
  lemma FoldShiftOfOctets(o: seq<int>)
    requires Octets(o)
    ensures FoldShift(Nums(o)) == Num(ToInt32(Quad(o)))
  {
    var parts := Nums(o);
    assert parts[..1][..0] == [];
    assert FoldShift(parts[..1]) == Num(o[0]);
    assert parts[..2][..1] == parts[..1];
    assert FoldShift(parts[..2]) == Num(o[0] * 256 + o[1]);
    assert parts[..3][..2] == parts[..2];
    var x := o[0] * 0x1_0000 + o[1] * 256 + o[2];
    assert FoldShift(parts[..3]) == Num(x);
    assert parts[..4] == parts;
    ShiftAddSmall(x, o[3]);
    assert x * 256 + o[3] == Quad(o);
  }

  /** `ipToNumber` of a dotted quad is the address as a signed 32-bit integer. */
  lemma IpToNumberOfQuad(ip: string, o: seq<int>)
    requires DottedQuad(ip, o)
    ensures IpToNumber(ip) == Num(ToInt32(Quad(o)))
  {
    FoldShiftOfOctets(o);
  }

  /** Below 128.0.0.0 the signed value is the address itself. */
  lemma IpToNumberBelow128(ip: string, o: seq<int>)
    requires DottedQuad(ip, o) && o[0] < 128
    ensures IpToNumber(ip) == Num(Quad(o))
  {
    IpToNumberOfQuad(ip, o);
  }

  /** From 128.0.0.0 on, the signed value is negative: the address minus 2^32. */
  lemma IpToNumberFrom128(ip: string, o: seq<int>)
    requires DottedQuad(ip, o) && o[0] >= 128
    ensures IpToNumber(ip) == Num(Quad(o) - TwoTo32)
  {
    IpToNumberOfQuad(ip, o);
  }

  // ----- the range test as intended -----

  /** `acc * 256 + parseInt(octet)`: the reduce without the 32-bit wrap. */
  function FoldUnsigned(nums: seq<JsNum>): JsNum {
    if nums == [] then Num(0)
    else
      var acc := FoldUnsigned(nums[..|nums| - 1]);
      if acc.NaN? then NaN else Plus(acc.n * 256, nums[|nums| - 1])
  }

  /** The address as an unsigned number, so that 128.0.0.0 and above order after 127.255.255.255. */
  function IpToUnsigned(ip: string): JsNum {
    FoldUnsigned(ParseAll(Split(ip, '.')))
  }

  /** The range test with unsigned values, inclusive at both ends. */
  predicate InRange(ip: string, start: string, end: string) {
    var ipNum := IpToUnsigned(ip);
    AtLeast(ipNum, IpToUnsigned(start)) && AtLeast(IpToUnsigned(end), ipNum)
  }

  /** The unsigned reduce over four octet parts is the address. */
  lemma FoldUnsignedOfOctets(o: seq<int>)
    requires Octets(o)
    ensures FoldUnsigned(Nums(o)) == Num(Quad(o))
  {
    var parts := Nums(o);
    assert parts[..1][..0] == [];
    assert FoldUnsigned(parts[..1]) == Num(o[0]);
    assert parts[..2][..1] == parts[..1];
    assert FoldUnsigned(parts[..2]) == Num(o[0] * 256 + o[1]);
    assert parts[..3][..2] == parts[..2];
    assert FoldUnsigned(parts[..3]) == Num((o[0] * 256 + o[1]) * 256 + o[2]);
    assert parts[..4] == parts;
    assert ((o[0] * 256 + o[1]) * 256 + o[2]) * 256 + o[3] == Quad(o);
  }

  /** For dotted quads the intended test is numeric order of the addresses, both ends included. */
  lemma InRangeOfQuads(ip: string, start: string, end: string, o: seq<int>, s: seq<int>, e: seq<int>)
    requires DottedQuad(ip, o) && DottedQuad(start, s) && DottedQuad(end, e)
    ensures InRange(ip, start, end) <==> Quad(s) <= Quad(o) <= Quad(e)
  {
    FoldUnsignedOfOctets(o);
    FoldUnsignedOfOctets(s);
    FoldUnsignedOfOctets(e);
  }

  /** When every address lies below 128.0.0.0, the as-written test agrees with the intended one. */
  lemma SignedAgreesBelow128(ip: string, start: string, end: string, o: seq<int>, s: seq<int>, e: seq<int>)
    requires DottedQuad(ip, o) && DottedQuad(start, s) && DottedQuad(end, e)
    requires o[0] < 128 && s[0] < 128 && e[0] < 128
    ensures IsIPInRange(ip, start, end) == InRange(ip, start, end)
  {
    IpToNumberBelow128(ip, o);
    IpToNumberBelow128(start, s);
    IpToNumberBelow128(end, e);
    InRangeOfQuads(ip, start, end, o, s, e);
  }

  /**
   * A range that crosses 128.0.0.0 holds nothing under the as-written test:
   * its start is positive and its end negative, so no value lies between.
   */
  lemma SignedRangeAcross128IsEmpty(ip: string, start: string, end: string, o: seq<int>, s: seq<int>, e: seq<int>)
    requires DottedQuad(ip, o) && DottedQuad(start, s) && DottedQuad(end, e)
    requires s[0] < 128 <= e[0]
    ensures !IsIPInRange(ip, start, end)
  {
    IpToNumberBelow128(start, s);
    IpToNumberFrom128(end, e);
    IpToNumberOfQuad(ip, o);
  }

  /** The value of a three-digit numeral. */
  lemma ThreeDigits(d: string)
    requires |d| == 3 && IsDecimal(d)
    ensures DigitsValue(d, Decimal) == (d[0] as int - '0' as int) * 100 + (d[1] as int - '0' as int) * 10 + (d[2] as int - '0' as int)
  {
    assert forall i :: 0 <= i < |d| ==> DigitValue(d[i], Decimal) >= 0;
    assert d[..2][..1] == d[..1] && d[..1][..0] == [];
    assert DigitsValue(d[..1], Decimal) == d[0] as int - '0' as int;
    assert DigitsValue(d[..2], Decimal) == (d[0] as int - '0' as int) * 10 + (d[1] as int - '0' as int);
  }

  /** The value of a one-digit numeral. */
  lemma OneDigit(d: string)
    requires |d| == 1 && IsDecimal(d)
    ensures DigitsValue(d, Decimal) == d[0] as int - '0' as int
  {
    assert forall i :: 0 <= i < |d| ==> DigitValue(d[i], Decimal) >= 0;
    assert d[..0] == [];
    assert DigitsValue(d[..0], Decimal) == 0;
  }

  /** `a.b.c.d` is the dotted join of the four parts. */
  lemma JoinFour(a: string, b: string, c: string, d: string)
    ensures Join([a, b, c, d], '.') == a + "." + b + "." + c + "." + d
  {
    assert [a, b][..1] == [a];
    assert Join([a, b], '.') == a + "." + b;
    assert [a, b, c][..2] == [a, b];
    assert Join([a, b, c], '.') == a + "." + b + "." + c;
    assert [a, b, c, d][..3] == [a, b, c];
  }

  /** The concrete case: 128.0.0.1 lies in 127.0.0.0 to 128.0.0.5, but the as-written test says no. */
  lemma SignedRangeCounterexample()
    ensures InRange("128.0.0.1", "127.0.0.0", "128.0.0.5")
    ensures !IsIPInRange("128.0.0.1", "127.0.0.0", "128.0.0.5")
  {
    var o, s, e := [128, 0, 0, 1], [127, 0, 0, 0], [128, 0, 0, 5];
    QuadAddress();
    QuadStart();
    QuadEnd();
    InRangeOfQuads("128.0.0.1", "127.0.0.0", "128.0.0.5", o, s, e);
    SignedRangeAcross128IsEmpty("128.0.0.1", "127.0.0.0", "128.0.0.5", o, s, e);
  }

  /** The three addresses of the counterexample parse as written. */
  lemma QuadAddress()
    ensures DottedQuad("128.0.0.1", [128, 0, 0, 1])
  {
    DottedLiteral("128.0.0.1", "128", "1", [128, 0, 0, 1]);
  }

  lemma QuadStart()
    ensures DottedQuad("127.0.0.0", [127, 0, 0, 0])
  {
    DottedLiteral("127.0.0.0", "127", "0", [127, 0, 0, 0]);
  }

  lemma QuadEnd()
    ensures DottedQuad("128.0.0.5", [128, 0, 0, 5])
  {
    DottedLiteral("128.0.0.5", "128", "5", [128, 0, 0, 5]);
  }

  /** `x.0.0.y`, with a three-digit `x` and a one-digit `y`, is a dotted quad. */
  lemma DottedLiteral(ip: string, x: string, y: string, o: seq<int>)
    requires ip == x + ".0.0." + y
    requires |x| == 3 && IsDecimal(x) && |y| == 1 && IsDecimal(y)
    requires o == [(x[0] as int - '0' as int) * 100 + (x[1] as int - '0' as int) * 10 + (x[2] as int - '0' as int), 0, 0, y[0] as int - '0' as int]
    requires o[0] <= 255
    ensures DottedQuad(ip, o)
  {
    ThreeDigits(x);
    OneDigit("0");
    OneDigit(y);
    QuadLiteral(x, "0", "0", y, o[0], 0, 0, o[3]);
    JoinFour(x, "0", "0", y);
    assert x + ".0.0." + y == x + "." + "0" + "." + "0" + "." + y;
  }

  /** The dotted join of four decimal numerals is a dotted quad of their values. */
  lemma QuadLiteral(a: string, b: string, c: string, d: string, va: int, vb: int, vc: int, vd: int)
    requires IsDecimal(a) && IsDecimal(b) && IsDecimal(c) && IsDecimal(d)
    requires DigitsValue(a, Decimal) == va && DigitsValue(b, Decimal) == vb && DigitsValue(c, Decimal) == vc && DigitsValue(d, Decimal) == vd
    requires 0 <= va <= 255 && 0 <= vb <= 255 && 0 <= vc <= 255 && 0 <= vd <= 255
    ensures DottedQuad(Join([a, b, c, d], '.'), [va, vb, vc, vd])
  {
    var parts := [a, b, c, d];
    forall i | 0 <= i < 4 ensures '.' !in parts[i] {
      assert IsDecimal(parts[i]);
    }
    SplitJoin(parts, '.');
    ParseDecimal(a);
    ParseDecimal(b);
    ParseDecimal(c);
    ParseDecimal(d);
    ParseFour(a, b, c, d);
  }

  /** `ParseAll` over four parts, one step at a time. */
  lemma ParseFour(a: string, b: string, c: string, d: string)
    ensures ParseAll([a, b, c, d]) == [ParseInt(a), ParseInt(b), ParseInt(c), ParseInt(d)]
  {
    assert [a][..0] == [];
    assert ParseAll([a]) == [ParseInt(a)];
    assert [a, b][..1] == [a];
    assert ParseAll([a, b]) == [ParseInt(a), ParseInt(b)];
    assert [a, b, c][..2] == [a, b];
    assert ParseAll([a, b, c]) == [ParseInt(a), ParseInt(b), ParseInt(c)];
    assert [a, b, c, d][..3] == [a, b, c];
  }

  // ----- checkIP -----

  datatype IpRange = IpRange(start: string, end: string)

  /** The headquarters addresses the page is configured with. */
  const AllowedIps: seq<string> := ["24.207.150.155", "35.134.139.202", "162.235.104.1"]
  /** No range is configured. */
  const AllowedIpRanges: seq<IpRange> := []

  /** The range test for one address, as a function of the range. */
  function Covers(userIP: string): IpRange -> bool {
    (r: IpRange) => InRange(userIP, r.start, r.end)
  }

  /** On the list, or inside one of the ranges. */
  predicate Allowed(userIP: string, ips: seq<string>, ranges: seq<IpRange>) {
    userIP in ips || exists i :: 0 <= i < |ranges| && Covers(userIP)(ranges[i])
  }

  /** `checkIP(userIP)`, with the two configuration lists as parameters. */
  method CheckIP(userIP: string, ips: seq<string>, ranges: seq<IpRange>) returns (ok: bool)
    ensures ok <==> Allowed(userIP, ips, ranges)
  {
    if userIP in ips {
      return true;
    }
    ok := ScanRanges(ranges, Covers(userIP));
  }

  /** The loop of `checkIP` over the configured ranges: it stops at the first range the test accepts. */
  method ScanRanges(ranges: seq<IpRange>, holds: IpRange -> bool) returns (found: bool)
    ensures found <==> exists i :: 0 <= i < |ranges| && holds(ranges[i])
  {
    var i := 0;
    while i < |ranges|
      invariant 0 <= i <= |ranges|
      invariant forall j :: 0 <= j < i ==> !holds(ranges[j])
    {
      if holds(ranges[i]) {
        return true;
      }
      i := i + 1;
    }
    return false;
  }

  /** With the shipped configuration, only the three listed addresses are recognised. */
  lemma ShippedConfiguration(userIP: string)
    ensures Allowed(userIP, AllowedIps, AllowedIpRanges) <==> userIP in AllowedIps
  {
  }
}
