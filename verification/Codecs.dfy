/** The canonical hexadecimal and decimal codecs of the headless adapter. */
module Codecs {
  import opened Common

  type Byte = b: int | 0 <= b < 256

  const MAX_USIZE: int := 0xFFFF_FFFF_FFFF_FFFF
  const U128_LIMIT: int := 0x1_0000_0000_0000_0000_0000_0000_0000_0000

  // ------------------------------------------------------------------- hexadecimal

  function HexDigit(n: int): (c: char)
    requires 0 <= n < 16
    ensures HexNibble(c) == Some(n)
  {
    (if n < 10 then '0' as int + n else 'a' as int + n - 10) as char
  }

  function HexNibble(c: char): Option<int> {
    if '0' <= c <= '9' then Some(c as int - '0' as int)
    else if 'a' <= c <= 'f' then Some(c as int - 'a' as int + 10)
    else if 'A' <= c <= 'F' then Some(c as int - 'A' as int + 10)
    else None
  }

  function HexOf(bytes: seq<Byte>): string {
    if bytes == [] then "" else HexPair(bytes[0]) + HexOf(bytes[1..])
  }

  function HexPair(b: Byte): (s: string)
    ensures |s| == 2
  {
    [HexDigit(b / 16), HexDigit(b % 16)]
  }

  lemma {:induction false} HexOfAppend(a: seq<Byte>, b: seq<Byte>)
    ensures HexOf(a + b) == HexOf(a) + HexOf(b)
  {
    if a == [] {
      assert a + b == b;
    } else {
      HexOfAppend(a[1..], b);
      assert (a + b)[1..] == a[1..] + b;
      assert HexPair(a[0]) + (HexOf(a[1..]) + HexOf(b)) == HexPair(a[0]) + HexOf(a[1..]) + HexOf(b);
    }
  }

  /** `encode_hex`: the loop that pushes two digits per byte computes the recursive form. */
  method EncodeHex(bytes: seq<Byte>) returns (encoded: string)
    ensures encoded == HexOf(bytes)
  {
    encoded := "";
    for i := 0 to |bytes|
      invariant encoded == HexOf(bytes[..i])
    {
      HexOfAppend(bytes[..i], [bytes[i]]);
      assert bytes[..i + 1] == bytes[..i] + [bytes[i]];
      encoded := encoded + [HexDigit(bytes[i] / 16)];
      encoded := encoded + [HexDigit(bytes[i] % 16)];
      assert HexOf([bytes[i]]) == HexPair(bytes[i]);
    }
    assert bytes[..|bytes|] == bytes;
  }

  function DecodePairs(s: string): Option<seq<Byte>>
    requires |s| % 2 == 0
  {
    if s == "" then Some([])
    else
      var high, low, rest := HexNibble(s[0]), HexNibble(s[1]), DecodePairs(s[2..]);
      if high.Some? && low.Some? && rest.Some? then Some([16 * high.value + low.value] + rest.value) else None
  }

  /** `decode_hex_bounded` */
  function DecodeHexBounded(value: string, maximum: nat): Option<seq<Byte>> {
    if value == "" || maximum * 2 > MAX_USIZE || |value| > maximum * 2 || |value| % 2 != 0
       || exists i :: 0 <= i < |value| && value[i] as int >= 128
    then None
    else DecodePairs(value)
  }

  predicate AllHex(s: string) {
    forall i :: 0 <= i < |s| ==> HexNibble(s[i]).Some?
  }

  function LowerChar(c: char): char {
    if 'A' <= c <= 'F' then (c as int + 32) as char else c
  }

  function LowerHex(s: string): string {
    seq(|s|, i requires 0 <= i < |s| => LowerChar(s[i]))
  }

  lemma {:induction false} HexOfShape(b: seq<Byte>)
    ensures |HexOf(b)| == 2 * |b|
    ensures forall i :: 0 <= i < |HexOf(b)| ==> '0' <= HexOf(b)[i] <= '9' || 'a' <= HexOf(b)[i] <= 'f'
  {
    if b != [] {
      HexOfShape(b[1..]);
    }
  }

  lemma {:induction false} DecodePairsOfHex(b: seq<Byte>)
    ensures |HexOf(b)| == 2 * |b| && DecodePairs(HexOf(b)) == Some(b)
  {
    HexOfShape(b);
    if b != [] {
      DecodePairsOfHex(b[1..]);
      assert HexOf(b)[2..] == HexOf(b[1..]);
      assert b == [b[0]] + b[1..];
    }
  }

  lemma {:induction false} PairOfNibbles(c: char, d: char)
    requires HexNibble(c).Some? && HexNibble(d).Some?
    ensures 0 <= 16 * HexNibble(c).value + HexNibble(d).value < 256
    ensures HexPair(16 * HexNibble(c).value + HexNibble(d).value) == [LowerChar(c), LowerChar(d)]
  {
    var high, low := HexNibble(c).value, HexNibble(d).value;
    assert (16 * high + low) / 16 == high && (16 * high + low) % 16 == low;
  }

  lemma {:induction false} HexOfDecodedPairs(s: string)
    requires |s| % 2 == 0
    ensures DecodePairs(s).Some? <==> AllHex(s)
    ensures DecodePairs(s).Some? ==> HexOf(DecodePairs(s).value) == LowerHex(s)
  {
    if s != "" {
      var rest := s[2..];
      HexOfDecodedPairs(rest);
      assert s == [s[0], s[1]] + rest;
      if DecodePairs(s).Some? {
        PairOfNibbles(s[0], s[1]);
        var b := DecodePairs(s).value;
        assert b[1..] == DecodePairs(rest).value;
        assert LowerHex(s) == [LowerChar(s[0]), LowerChar(s[1])] + LowerHex(rest);
      }
    }
  }

  lemma {:induction false} AcceptedDecodes(s: string, maximum: nat)
    requires s != "" && |s| % 2 == 0 && |s| <= maximum * 2 <= MAX_USIZE
    requires DecodePairs(s).Some?
    ensures DecodeHexBounded(s, maximum) == DecodePairs(s)
  {
    HexOfDecodedPairs(s);
    HexDecodesExactly(s, maximum);
  }

  /** Decoding inverts encoding for every non-empty input within the bound. */
  lemma {:induction false} HexRoundTrip(b: seq<Byte>, s: string, maximum: nat)
    requires 0 < |b| <= maximum && maximum * 2 <= MAX_USIZE
    requires s == HexOf(b)
    ensures DecodeHexBounded(s, maximum) == Some(b)
  {
    assert |s| == 2 * |b| && DecodePairs(s) == Some(b) by {
      DecodePairsOfHex(b);
    }
    AcceptedDecodes(s, maximum);
  }

  /** Exactly the even-length hexadecimal strings within the bound decode, and re-encoding lower-cases them. */
  lemma {:induction false} HexDecodesExactly(s: string, maximum: nat)
    ensures DecodeHexBounded(s, maximum).Some? <==>
              s != "" && maximum * 2 <= MAX_USIZE && |s| <= maximum * 2 && |s| % 2 == 0 && AllHex(s)
    ensures DecodeHexBounded(s, maximum).Some? ==> HexOf(DecodeHexBounded(s, maximum).value) == LowerHex(s)
  {
    if |s| % 2 == 0 {
      HexOfDecodedPairs(s);
    }
  }

  // ----------------------------------------------------------------------- decimal

  predicate IsDigit(c: char) { '0' <= c <= '9' }

  function DigitValue(c: char): int
    requires IsDigit(c)
  {
    c as int - '0' as int
  }

  predicate AllDigits(s: string) { forall i :: 0 <= i < |s| ==> IsDigit(s[i]) }

  /** The number a digit string denotes. */
  function Value(s: string): (n: nat)
    requires AllDigits(s)
  {
    if s == "" then 0 else Value(s[..|s| - 1]) * 10 + DigitValue(s[|s| - 1])
  }

  predicate Canonical(s: string) {
    s != "" && AllDigits(s) && (|s| > 1 ==> s[0] != '0')
  }

  /** `decimal_u128`: at most 39 digits, no leading zero, and the value fits 128 bits. */
  function DecimalU128(s: string): Option<nat> {
    if s == "" || |s| > 39 || !AllDigits(s) || (|s| > 1 && s[0] == '0') then None
    else if Value(s) < U128_LIMIT then Some(Value(s)) else None
  }

  /** The canonical decimal string of a number. */
  function ToDecimal(n: nat): string {
    var last := [(n % 10 + '0' as int) as char];
    if n < 10 then last else ToDecimal(n / 10) + last
  }

  function Pow10(k: nat): nat {
    if k == 0 then 1 else 10 * Pow10(k - 1)
  }

  lemma {:induction false} ToDecimalIsCanonical(n: nat)
    ensures Canonical(ToDecimal(n)) && Value(ToDecimal(n)) == n
    ensures n > 0 ==> ToDecimal(n)[0] != '0'
  {
    var s := ToDecimal(n);
    if n >= 10 {
      ToDecimalIsCanonical(n / 10);
      assert s[..|s| - 1] == ToDecimal(n / 10);
    } else {
      assert s[..0] == "";
    }
  }

  lemma {:induction false} CanonicalIsToDecimal(s: string)
    requires Canonical(s)
    ensures ToDecimal(Value(s)) == s
    ensures s[0] != '0' ==> Value(s) > 0
  {
    var rest := s[..|s| - 1];
    if |s| > 1 {
      CanonicalIsToDecimal(rest);
      assert Value(s) / 10 == Value(rest) && Value(s) % 10 == DigitValue(s[|s| - 1]);
      assert s == rest + [s[|s| - 1]];
    } else {
      assert rest == "";
      assert s == [s[0]];
    }
  }

  lemma {:induction false} DecimalLength(n: nat, k: nat)
    requires k > 0 && n < Pow10(k)
    ensures |ToDecimal(n)| <= k
  {
    if n >= 10 {
      assert k > 1;
      DecimalLength(n / 10, k - 1);
    }
  }

  /** 39 digits are enough for every 128-bit number. */
  lemma U128FitsCap()
    ensures U128_LIMIT <= Pow10(39)
  {
    assert Pow10(8) == 1_0000_0000;
    assert Pow10(16) == 1_0000_0000_0000_0000 by { PowAdd(8, 8); }
    assert Pow10(32) == 1_0000_0000_0000_0000 * 1_0000_0000_0000_0000 by { PowAdd(16, 16); }
    assert Pow10(7) == 1000_0000;
    PowAdd(32, 7);
  }

  lemma {:induction false} PowAdd(a: nat, b: nat)
    ensures Pow10(a + b) == Pow10(a) * Pow10(b)
  {
    if a > 0 {
      PowAdd(a - 1, b);
    }
  }

  /**
   `decimal_u128` is a bijection between the canonical decimal strings of the numbers
   below 2^128 and those numbers; the length cap excludes none of them.
   */
  lemma {:induction false} DecimalBijection(n: nat, s: string)
    ensures n < U128_LIMIT ==> DecimalU128(ToDecimal(n)) == Some(n)
    ensures DecimalU128(s) == Some(n) <==> n < U128_LIMIT && s == ToDecimal(n)
  {
    ToDecimalIsCanonical(n);
    if n < U128_LIMIT {
      U128FitsCap();
      DecimalLength(n, 39);
    }
    if DecimalU128(s).Some? {
      CanonicalIsToDecimal(s);
    }
  }
}
