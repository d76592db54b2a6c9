/** Base64 VLQ as the source-map builder writes and reads it, with the 32-bit
    operators of JavaScript, next to the number system of the standard
    (section 6 of ECMA-426, alphabet of section 4 of RFC 4648). */
module Vlq {
  // ---------------------------------------------------- 32-bit operators

  const TWO31 := 0x8000_0000
  const TWO32 := 0x1_0000_0000

  /** The signed 32-bit value an operand of a bitwise operator is taken as. */
  function ToInt32(x: int): (r: int)
    ensures -TWO31 <= r < TWO31 && (-TWO31 <= x < TWO31 ==> r == x)
  {
    var m := x % TWO32;
    if m >= TWO31 then m - TWO32 else m
  }

  function Pow2(k: int): (p: int)
    requires k >= 0
    ensures p >= 1
  {
    if k == 0 then 1 else 2 * Pow2(k - 1)
  }

  /** x << k; only the low five bits of k count. */
  function ShiftLeft(x: int, k: int): int
    requires k >= 0
  {
    ToInt32(ToInt32(x) * Pow2(k % 32))
  }

  /** x >> k for the two shifts the builder uses. */
  function Halve(x: int): int
  {
    ToInt32(x) / 2
  }

  function DropDigit(x: int): int
  {
    ToInt32(x) / 32
  }

  // ------------------------------------------------------------- the alphabet

  predicate IsDigit(d: int)
  {
    0 <= d < 64
  }

  /** `integerToChar`. */
  function IntegerToChar(d: int): (c: int)
    requires IsDigit(d)
    ensures 0 <= c < 128 && c != 44 && c != 59
  {
    if d < 26 then 65 + d
    else if d < 52 then 97 + (d - 26)
    else if d < 62 then 48 + (d - 52)
    else if d == 62 then 43
    else 47
  }

  /** `charToInteger`: 255 for a byte outside the alphabet; the table also gives
      the padding character '=' the number 64. */
  function CharToInteger(c: int): (d: int)
    ensures IsDigit(d) || d == 64 || d == 255
  {
    if 65 <= c <= 90 then c - 65
    else if 97 <= c <= 122 then c - 97 + 26
    else if 48 <= c <= 57 then c - 48 + 52
    else if c == 43 then 62
    else if c == 47 then 63
    else if c == 61 then 64
    else 255
  }

  const UPPER := "ABCDEFGHIJKLMNOPQRSTUVWXYZ"
  const LOWER := "abcdefghijklmnopqrstuvwxyz"
  const DECIMAL := "0123456789"

  /** The characters of the digits, in order, and the padding character. */
  const ALPHABET := UPPER + LOWER + DECIMAL + "+/="

  lemma Letters(k: int)
    ensures |UPPER| == |LOWER| == 26 && |DECIMAL| == 10
    ensures 0 <= k < 26 ==> UPPER[k] as int == 65 + k
    ensures 0 <= k < 26 ==> LOWER[k] as int == 97 + k
    ensures 0 <= k < 10 ==> DECIMAL[k] as int == 48 + k
  {
  }

  /** The two tables are inverse to each other on the alphabet. */
  lemma AlphabetRoundTrip(c: int, d: int)
    ensures IsDigit(d) ==> CharToInteger(IntegerToChar(d)) == d
    ensures IsDigit(CharToInteger(c)) ==> IntegerToChar(CharToInteger(c)) == c
  {
  }

  /** The tables hold the characters of the alphabet and their positions in it, and
      255 stands for every other byte. */
  lemma TablesAreAlphabet(c: int)
    ensures |ALPHABET| == 65
    ensures forall d :: IsDigit(d) ==> IntegerToChar(d) == ALPHABET[d] as int
    ensures forall d :: 0 <= d < 65 ==> CharToInteger(ALPHABET[d] as int) == d
    ensures CharToInteger(c) == 255 <==> forall d :: 0 <= d < 65 ==> ALPHABET[d] as int != c
  {
    forall d | 0 <= d < 65
      ensures |ALPHABET| == 65 && CharToInteger(ALPHABET[d] as int) == d
      ensures d < 64 ==> IntegerToChar(d) == ALPHABET[d] as int
    {
      Letters(d);
      Letters(d - 26);
      Letters(d - 52);
    }
    Letters(0);
    var d := CharToInteger(c);
    if d != 255 {
      AlphabetRoundTrip(c, d);
      assert ALPHABET[d] as int == c;
    }
  }

  // ------------------------------------------------------------------ writing

  /** What `addVLQ` starts from: the magnitude shifted left, the sign below. */
  function Signed(n: int): int
  {
    if n < 0 then ShiftLeft(-n, 1) + 1 else ShiftLeft(n, 1)
  }

  /** The digits the loop of `addVLQ` emits for a 32-bit number. */
  function Digits(num: int): (ds: seq<int>)
    requires -TWO31 <= num < TWO31
    ensures |ds| >= 1 && forall i :: 0 <= i < |ds| ==> IsDigit(ds[i])
    decreases if num < 0 then 0 else num
  {
    if DropDigit(num) > 0 then [num % 32 + 32] + Digits(DropDigit(num)) else [num % 32]
  }

  function Encode(n: int): (ds: seq<int>)
    ensures |ds| >= 1 && forall i :: 0 <= i < |ds| ==> IsDigit(ds[i])
  {
    SignedRange(n);
    Digits(Signed(n))
  }

  lemma SignedRange(n: int)
    ensures -TWO31 <= Signed(n) < TWO31
    ensures Pow2(1) == 2
    ensures -TWO31 / 2 < n < TWO31 / 2 ==> Signed(n) == if n < 0 then -2 * n + 1 else 2 * n
  {
    assert Pow2(0) == 1;
    if n < 0 { EvenTop(-n); } else { EvenTop(n); }
  }

  /** Doubling leaves room for the sign bit. */
  lemma EvenTop(x: int)
    ensures ShiftLeft(x, 1) % 2 == 0 && ShiftLeft(x, 1) < TWO31 - 1
  {
    assert Pow2(0) == 1 && Pow2(1) == 2;
  }

  // ------------------------------------------------------------------ reading

  /** One digit d read by `addSource` with `value` and `shift` so far. */
  function Gather(value: int, shift: int, d: int): int
    requires shift >= 0
  {
    value + ShiftLeft(d % 32, shift)
  }

  /** The number a completed value stands for: the low bit is the sign. */
  function Unsigned(value: int): int
  {
    if ToInt32(value) % 2 == 1 then -Halve(value) else Halve(value)
  }

  /** Reads one number off the digits; None if they end inside it. */
  datatype Reading = Done(number: int, used: int) | Cut

  function Read(ds: seq<int>, value: int, shift: int): Reading
    requires shift >= 0
  {
    if ds == [] then Cut
    else
      var v := Gather(value, shift, ds[0]);
      if ds[0] / 32 % 2 == 1 then
        match Read(ds[1..], v, shift + 5)
        case Done(n, used) => Done(n, used + 1)
        case Cut => Cut
      else Done(Unsigned(v), 1)
  }

  // ------------------------------------------------------------- the standard

  /** The magnitude-and-sign number of a digit sequence, least digit first. */
  function Number(ds: seq<int>): int
  {
    if ds == [] then 0 else ds[0] % 32 + 32 * Number(ds[1..])
  }

  /** All digits but the last announce another one. */
  ghost predicate OneNumber(ds: seq<int>)
  {
    && |ds| >= 1
    && (forall i :: 0 <= i < |ds| ==> IsDigit(ds[i]))
    && (forall i :: 0 <= i < |ds| - 1 ==> ds[i] >= 32) && ds[|ds| - 1] < 32
  }

  /** The integer the standard assigns to it. */
  function FromNumber(raw: int): int
  {
    if raw % 2 == 1 then -(raw / 2) else raw / 2
  }

  lemma {:induction false} DigitsAreOneNumber(num: int)
    requires -TWO31 <= num < TWO31
    ensures OneNumber(Digits(num))
    ensures Number(Digits(num)) == if num < 0 then num % 32 else num
    decreases if num < 0 then 0 else num
  {
    if DropDigit(num) > 0 {
      DigitsAreOneNumber(DropDigit(num));
      assert Digits(num)[1..] == Digits(DropDigit(num));
    } else {
      assert Number([num % 32]) == num % 32 by { assert [num % 32][1..] == []; }
    }
  }

  lemma {:induction false} Pow2Grows(a: int, b: int)
    requires 0 <= a <= b
    ensures Pow2(a) <= Pow2(b)
    decreases b - a
  {
    if a < b { Pow2Grows(a, b - 1); }
  }

  lemma Pow2Five(k: int)
    requires k >= 0
    ensures Pow2(k + 5) == 32 * Pow2(k)
  {
    assert Pow2(k + 5) == 2 * Pow2(k + 4);
    assert Pow2(k + 4) == 2 * Pow2(k + 3);
    assert Pow2(k + 3) == 2 * Pow2(k + 2);
    assert Pow2(k + 2) == 2 * Pow2(k + 1);
  }

  lemma Pow2Table()
    ensures Pow2(30) == 0x4000_0000 && Pow2(31) == TWO31
  {
    assert Pow2(0) == 1;
    Pow2Five(0); Pow2Five(5); Pow2Five(10); Pow2Five(15); Pow2Five(20); Pow2Five(25);
    assert Pow2(31) == 2 * Pow2(30);
  }

  /** While the number stays below 2^31, gathering digits with 32-bit shifts is
      exact: no bit is lost and the sign bit is not touched. */
  lemma GatherExact(value: int, shift: int, d: int)
    requires IsDigit(d) && shift >= 0 && 0 <= value && value + (d % 32) * Pow2(shift) < TWO31
    ensures Gather(value, shift, d) == value + (d % 32) * Pow2(shift)
  {
    hide ToInt32;
    var x := d % 32;
    if x == 0 {
      assert 0 * Pow2(shift % 32) == 0 && 0 * Pow2(shift) == 0;
    } else {
      ShiftInRange(x, shift);
      assert shift % 32 == shift;
      TimesAtLeast(x, Pow2(shift));
    }
  }

  lemma ShiftInRange(x: int, shift: int)
    requires x >= 1 && shift >= 0 && x * Pow2(shift) < TWO31
    ensures shift < 31
  {
    if shift >= 31 {
      Pow2Table();
      Pow2Grows(31, shift);
      TimesAtLeast(x, Pow2(shift));
      assert false;
    }
  }

  lemma TimesAtLeast(x: int, p: int)
    requires x >= 1 && p >= 0
    ensures x * p >= p
  {
  }

  /** The reader agrees with the standard on every number below 2^31. */
  lemma {:induction false} ReadIsStandard(ds: seq<int>, value: int, shift: int, rest: seq<int>)
    requires OneNumber(ds) && shift >= 0 && value >= 0
    requires value + Number(ds) * Pow2(shift) < TWO31
    ensures Read(ds + rest, value, shift) == Done(FromNumber(value + Number(ds) * Pow2(shift)), |ds|)
    decreases |ds|
  {
    hide Gather, Pow2;
    var d, p, tail := ds[0], Pow2(shift), Number(ds[1..]);
    NumberPositive(ds[1..]);
    assert (ds + rest)[0] == d && (ds + rest)[1..] == ds[1..] + rest;
    Distribute(d % 32, tail, p);
    assert Number(ds) * p == (d % 32) * p + 32 * (tail * p);
    GatherExact(value, shift, d);
    if |ds| > 1 {
      assert d / 32 % 2 == 1;
      Pow2Five(shift);
      assert OneNumber(ds[1..]);
      Reassociate(tail, p);
      TimesAtLeast0(d % 32, p);
      ReadIsStandard(ds[1..], Gather(value, shift, d), shift + 5, rest);
    } else {
      assert d / 32 % 2 == 0;
      assert ds[1..] == [] && tail == 0;
      UnsignedExact(Gather(value, shift, d));
    }
  }

  lemma UnsignedExact(value: int)
    requires 0 <= value < TWO31
    ensures Unsigned(value) == FromNumber(value)
  {
  }

  lemma TimesAtLeast0(x: int, p: int)
    requires x >= 0 && p >= 0
    ensures x * p >= 0
  {
  }

  lemma Distribute(a: int, b: int, p: int)
    requires b >= 0 && p >= 0
    ensures (a + 32 * b) * p == a * p + 32 * (b * p) && b * p >= 0
  {
  }

  lemma Reassociate(b: int, p: int)
    ensures b * (32 * p) == 32 * (b * p)
  {
  }

  lemma {:induction false} NumberPositive(ds: seq<int>)
    ensures Number(ds) >= 0
    decreases |ds|
  {
    if ds != [] { NumberPositive(ds[1..]); }
  }

  /** The number whose digits `addVLQ` emits, the shifted value wrapped or not. */
  function Emitted(n: int): int
  {
    if Signed(n) < 0 then Signed(n) % 32 else Signed(n)
  }

  lemma EncodeIsNumber(n: int)
    ensures OneNumber(Encode(n)) && Number(Encode(n)) == Emitted(n) && 0 <= Emitted(n) < TWO31
  {
    SignedRange(n);
    DigitsAreOneNumber(Signed(n));
  }

  lemma EmittedStandsForN(n: int)
    ensures FromNumber(Emitted(n)) == n <==> -0x4000_0000 < n < 0x4000_0000
  {
    hide Signed;
    SignedRange(n);
    EncodeIsNumber(n);
    assert -0x4000_0000 < FromNumber(Emitted(n)) < 0x4000_0000;
  }

  /** Reading back what `addVLQ` wrote consumes exactly those digits, and gives the
      number back exactly when its magnitude is below 2^30. */
  lemma VlqRoundTrip(n: int, rest: seq<int>)
    ensures Read(Encode(n) + rest, 0, 0).Done? && Read(Encode(n) + rest, 0, 0).used == |Encode(n)|
    ensures Read(Encode(n) + rest, 0, 0).number == n <==> -0x4000_0000 < n < 0x4000_0000
  {
    hide Encode, Emitted, Read, FromNumber, OneNumber, Number;
    EncodeIsNumber(n);
    EmittedStandsForN(n);
    assert Pow2(0) == 1;
    assert 0 + Number(Encode(n)) * Pow2(0) == Emitted(n);
    ReadIsStandard(Encode(n), 0, 0, rest);
  }
}
