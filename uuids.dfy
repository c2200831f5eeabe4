/**
 * `java.util.UUID` as the beacon log uses it: 128 bits held as two 64-bit
 * halves, written out by `toString()` and read back by `fromString()` in the
 * canonical text form of section 3 of RFC 4122
 * (`xxxxxxxx-xxxx-xxxx-xxxx-xxxxxxxxxxxx`, lower-case hexadecimal).
 * The log's custom UUID serializer is exactly this pair of calls.
 */
module Uuids {
  import opened Wrappers
  import opened KotlinNumbers

  const TWO_32: int := 0x1_0000_0000
  const TWO_48: int := 0x1_0000_0000_0000

  /** The bits of a Java `long`, read as an unsigned number. */
  type U64 = x: int | 0 <= x < 0x1_0000_0000_0000_0000

  datatype Uuid = Uuid(mostSigBits: U64, leastSigBits: U64)

  /** `UUID(0, 0)`, the nil UUID. */
  const NIL: Uuid := Uuid(0, 0)

  function Pow16(n: nat): (p: nat)
    ensures p > 0
  {
    if n == 0 then 1 else 16 * Pow16(n - 1)
  }

  lemma Pow16Values()
    ensures Pow16(4) == TWO_16 && Pow16(8) == TWO_32 && Pow16(12) == TWO_48
  {
    assert Pow16(1) == 16;
    assert Pow16(2) == 0x100;
    assert Pow16(3) == 0x1000;
    assert Pow16(4) == 0x1_0000;
    assert Pow16(5) == 0x10_0000;
    assert Pow16(6) == 0x100_0000;
    assert Pow16(7) == 0x1000_0000;
    assert Pow16(8) == 0x1_0000_0000;
    assert Pow16(9) == 0x10_0000_0000;
    assert Pow16(10) == 0x100_0000_0000;
    assert Pow16(11) == 0x1000_0000_0000;
  }

  /** The digits `toString()` writes, lower case. */
  const LOWER_HEX_DIGITS: string := "0123456789abcdef"

  function HexChar(d: nat): (c: char)
    requires d < 16
    ensures c in LOWER_HEX_DIGITS
  {
    LOWER_HEX_DIGITS[d]
  }

  /** The value of one hexadecimal digit; both letter cases are accepted on input. */
  function HexValue(c: char): (r: Option<nat>)
    ensures r.Some? ==> r.value < 16
  {
    if '0' <= c <= '9' then Some(c as nat - '0' as nat)
    else if 'a' <= c <= 'f' then Some(c as nat - 'a' as nat + 10)
    else if 'A' <= c <= 'F' then Some(c as nat - 'A' as nat + 10)
    else None
  }

  lemma HexValueOfHexChar(d: nat)
    requires d < 16
    ensures HexValue(HexChar(d)) == Some(d)
  {
  }

  /** `v` as exactly `n` hexadecimal digits, most significant first, zero-padded. */
  function Digits(v: nat, n: nat): (s: string)
    requires v < Pow16(n)
    ensures |s| == n
    ensures forall i :: 0 <= i < n ==> s[i] in LOWER_HEX_DIGITS
  {
    if n == 0 then [] else Digits(v / 16, n - 1) + [HexChar(v % 16)]
  }

  /** A run of hexadecimal digits as a number; `None` when a character is not a digit. */
  function ParseHex(s: string): (r: Option<nat>)
    ensures r.Some? ==> r.value < Pow16(|s|)
  {
    if s == [] then Some(0)
    else
      match (ParseHex(s[..|s| - 1]), HexValue(s[|s| - 1]))
      case (Some(p), Some(d)) => Some(16 * p + d)
      case _ => None
  }

  lemma {:induction false} ParseDigits(v: nat, n: nat)
    requires v < Pow16(n)
    ensures ParseHex(Digits(v, n)) == Some(v)
  {
    if n > 0 {
      var s := Digits(v, n);
      assert s[..|s| - 1] == Digits(v / 16, n - 1);
      assert s[|s| - 1] == HexChar(v % 16);
      HexValueOfHexChar(v % 16);
      ParseDigits(v / 16, n - 1);
      assert ParseHex(s) == Some(16 * (v / 16) + v % 16);
      assert 16 * (v / 16) + v % 16 == v;
    }
  }

  // The five fields of section 3 of RFC 4122, in the order they are written.
  function TimeLow(u: Uuid): nat { u.mostSigBits / TWO_32 }
  function TimeMid(u: Uuid): nat { (u.mostSigBits / TWO_16) % TWO_16 }
  function TimeHiAndVersion(u: Uuid): nat { u.mostSigBits % TWO_16 }
  function ClockSeq(u: Uuid): nat { u.leastSigBits / TWO_48 }
  function Node(u: Uuid): nat { u.leastSigBits % TWO_48 }

  /** `UUID.toString()`: the 36-character canonical form. */
  function ToString(u: Uuid): (s: string)
    ensures |s| == 36
    ensures s[8] == '-' && s[13] == '-' && s[18] == '-' && s[23] == '-'
    ensures forall i :: 0 <= i < 36 && i != 8 && i != 13 && i != 18 && i != 23 ==> s[i] in LOWER_HEX_DIGITS
  {
    Pow16Values();
    Digits(TimeLow(u), 8) + "-" + Digits(TimeMid(u), 4) + "-" + Digits(TimeHiAndVersion(u), 4)
      + "-" + Digits(ClockSeq(u), 4) + "-" + Digits(Node(u), 12)
  }

  /** 36 characters: groups of 8, 4, 4, 4 and 12 hexadecimal digits with a hyphen between each two. */
  predicate Canonical(s: string)
  {
    && |s| == 36 && s[8] == '-' && s[13] == '-' && s[18] == '-' && s[23] == '-'
    && ParseHex(s[0..8]).Some? && ParseHex(s[9..13]).Some? && ParseHex(s[14..18]).Some?
    && ParseHex(s[19..23]).Some? && ParseHex(s[24..36]).Some?
  }

  /**
   * `UUID.fromString(s)` on the canonical form: five groups of 8, 4, 4, 4
   * and 12 hexadecimal digits separated by hyphens. Anything else is refused.
   */
  function FromString(s: string): (r: Option<Uuid>)
    ensures r.Some? <==> Canonical(s)
  {
    if |s| != 36 || s[8] != '-' || s[13] != '-' || s[18] != '-' || s[23] != '-' then None
    else
      match (ParseHex(s[0..8]), ParseHex(s[9..13]), ParseHex(s[14..18]), ParseHex(s[19..23]), ParseHex(s[24..36]))
      case (Some(timeLow), Some(timeMid), Some(timeHi), Some(clockSeq), Some(node)) =>
        Pow16Values();
        Some(Uuid(timeLow * TWO_32 + timeMid * TWO_16 + timeHi, clockSeq * TWO_48 + node))
      case _ => None
  }

  lemma FieldsRecompose(u: Uuid)
    ensures TimeLow(u) < TWO_32 && TimeMid(u) < TWO_16 && TimeHiAndVersion(u) < TWO_16
    ensures ClockSeq(u) < TWO_16 && Node(u) < TWO_48
    ensures TimeLow(u) * TWO_32 + TimeMid(u) * TWO_16 + TimeHiAndVersion(u) == u.mostSigBits
    ensures ClockSeq(u) * TWO_48 + Node(u) == u.leastSigBits
  {
    var m := u.mostSigBits;
    var hi := m / TWO_16;
    assert m == hi * TWO_16 + m % TWO_16;
    assert hi == (hi / TWO_16) * TWO_16 + hi % TWO_16;
    assert hi / TWO_16 == m / TWO_32;
  }

  /** The five digit groups of a canonical string are found where `FromString` looks for them. */
  lemma Segments(a: string, b: string, c: string, d: string, e: string)
    requires |a| == 8 && |b| == 4 && |c| == 4 && |d| == 4 && |e| == 12
    ensures var s := a + "-" + b + "-" + c + "-" + d + "-" + e;
      |s| == 36 && s[0..8] == a && s[9..13] == b && s[14..18] == c && s[19..23] == d && s[24..36] == e
  {
  }

  /** `FromString` assembles the two halves from the five groups it parsed. */
  lemma FromStringOfGroups(s: string, timeLow: nat, timeMid: nat, timeHi: nat, clockSeq: nat, node: nat)
    requires |s| == 36 && s[8] == '-' && s[13] == '-' && s[18] == '-' && s[23] == '-'
    requires ParseHex(s[0..8]) == Some(timeLow) && ParseHex(s[9..13]) == Some(timeMid)
    requires ParseHex(s[14..18]) == Some(timeHi) && ParseHex(s[19..23]) == Some(clockSeq)
    requires ParseHex(s[24..36]) == Some(node)
    ensures FromString(s).Some?
    ensures FromString(s).value.mostSigBits == timeLow * TWO_32 + timeMid * TWO_16 + timeHi
    ensures FromString(s).value.leastSigBits == clockSeq * TWO_48 + node
  {
  }

  /** Writing a UUID out and reading it back gives the same UUID. */
  lemma {:induction false} FromToString(u: Uuid)
    ensures FromString(ToString(u)) == Some(u)
  {
    Pow16Values();
    FieldsRecompose(u);
    var a, b, c, d, e := Digits(TimeLow(u), 8), Digits(TimeMid(u), 4), Digits(TimeHiAndVersion(u), 4),
                         Digits(ClockSeq(u), 4), Digits(Node(u), 12);
    Segments(a, b, c, d, e);
    ParseDigits(TimeLow(u), 8);
    ParseDigits(TimeMid(u), 4);
    ParseDigits(TimeHiAndVersion(u), 4);
    ParseDigits(ClockSeq(u), 4);
    ParseDigits(Node(u), 12);
    var s := ToString(u);
    assert s == a + "-" + b + "-" + c + "-" + d + "-" + e;
    assert ParseHex(s[0..8]) == Some(TimeLow(u));
    assert ParseHex(s[9..13]) == Some(TimeMid(u));
    assert ParseHex(s[14..18]) == Some(TimeHiAndVersion(u));
    assert ParseHex(s[19..23]) == Some(ClockSeq(u));
    assert ParseHex(s[24..36]) == Some(Node(u));
    FromStringOfGroups(s, TimeLow(u), TimeMid(u), TimeHiAndVersion(u), ClockSeq(u), Node(u));
    var r := FromString(s).value;
    assert r.mostSigBits == u.mostSigBits && r.leastSigBits == u.leastSigBits;
    assert r == u;
  }
}
