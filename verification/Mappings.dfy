/** The meaning of the `mappings` field of a source map (ECMA-426): lines are
    separated by ';', segments by ',', and a segment is 1, 4 or 5 numbers, each
    relative to the one before. */
module Mappings {
  import opened Vlq
  import opened DynamicBuffers

  const SEMICOLON := 59
  const COMMA := 44

  /** A decoded segment, all positions absolute; names are not kept. */
  datatype Seg =
    | Plain(line: int, col: int)
    | Mapped(line: int, col: int, source: int, sourceLine: int, sourceCol: int)

  /** A reader in the middle of a mappings string: the absolute positions so far,
      the number of fields of the current segment, the number being read, and the
      finished segments. */
  datatype Decoder = Decoder(
    line: int, col: int, source: int, sourceLine: int, sourceCol: int,
    fields: int, raw: int, shift: int, segs: seq<Seg>, ok: bool)

  const Fresh := Decoder(0, 0, 0, 0, 0, 0, 0, 0, [], true)

  function Here(d: Decoder): Seg
  {
    if d.fields == 1 then Plain(d.line, d.col) else Mapped(d.line, d.col, d.source, d.sourceLine, d.sourceCol)
  }

  /** The current segment ends: it has 0, 1, 4 or 5 whole numbers. */
  function Commit(d: Decoder): Decoder
  {
    if d.shift != 0 || d.fields !in {0, 1, 4, 5} then d.(ok := false)
    else if d.fields == 0 then d
    else d.(segs := d.segs + [Here(d)], fields := 0)
  }

  /** The next field of the current segment has been read. */
  function Field(d: Decoder, v: int): Decoder
  {
    var e := d.(fields := d.fields + 1, raw := 0, shift := 0);
    if d.fields == 0 then e.(col := d.col + v)
    else if d.fields == 1 then e.(source := d.source + v)
    else if d.fields == 2 then e.(sourceLine := d.sourceLine + v)
    else if d.fields == 3 then e.(sourceCol := d.sourceCol + v)
    else e
  }

  /** A number has to fit 32 bits. */
  function Digit(d: Decoder, x: int): Decoder
    requires d.shift >= 0
  {
    var raw := d.raw + (x % 32) * Pow2(d.shift);
    if raw >= TWO31 then d.(ok := false)
    else if x >= 32 then d.(raw := raw, shift := d.shift + 5)
    else Field(d, FromNumber(raw))
  }

  function Step(d: Decoder, b: int): (e: Decoder)
    requires d.shift >= 0
    ensures e.shift >= 0
  {
    if b == SEMICOLON then
      var c := Commit(d);
      c.(line := c.line + 1, col := 0)
    else if b == COMMA then Commit(d)
    else if IsDigit(CharToInteger(b)) then Digit(d, CharToInteger(b))
    else d.(ok := false)
  }

  function Decode(d: Decoder, bytes: Bytes): (e: Decoder)
    requires d.shift >= 0
    ensures e.shift >= 0
    decreases |bytes|
  {
    if bytes == [] then d else Decode(Step(d, bytes[0]), bytes[1..])
  }

  /** The segments of a whole mappings string. */
  function Finish(bytes: Bytes): Decoder
  {
    Commit(Decode(Fresh, bytes))
  }

  // ------------------------------------------------------------- about decoding

  lemma {:induction false} DecodeAppend(d: Decoder, a: Bytes, b: Bytes)
    requires d.shift >= 0
    ensures Decode(d, a + b) == Decode(Decode(d, a), b)
    decreases |a|
  {
    if a == [] {
      assert a + b == b;
    } else {
      assert (a + b)[0] == a[0] && (a + b)[1..] == a[1..] + b;
      DecodeAppend(Step(d, a[0]), a[1..], b);
    }
  }

  lemma DecodeOne(d: Decoder, b: int)
    requires d.shift >= 0
    ensures Decode(d, [b]) == Step(d, b)
  {
    assert [b][1..] == [];
  }

  /** Errors stay and segments stay. */
  lemma {:induction false} DecodeGrows(d: Decoder, bytes: Bytes)
    requires d.shift >= 0
    ensures Decode(d, bytes).ok ==> d.ok
    ensures d.segs <= Decode(d, bytes).segs
    decreases |bytes|
  {
    if bytes != [] { DecodeGrows(Step(d, bytes[0]), bytes[1..]); }
  }

  /** The line counter counts semicolons. */
  lemma {:induction false} DecodeLines(d: Decoder, bytes: Bytes)
    requires d.shift >= 0
    ensures Decode(d, bytes).line == d.line + multiset(bytes)[SEMICOLON]
    decreases |bytes|
  {
    if bytes != [] {
      assert bytes == [bytes[0]] + bytes[1..];
      DecodeLines(Step(d, bytes[0]), bytes[1..]);
    }
  }

  /** A number is its first digit and, 32 times, the rest. */
  lemma NumberSplit(ds: seq<int>, p: int)
    requires |ds| >= 1 && p >= 0
    ensures Number(ds) * p == (ds[0] % 32) * p + Number(ds[1..]) * (32 * p)
    ensures (ds[0] % 32) * p >= 0 && Number(ds[1..]) * (32 * p) >= 0
  {
    NumberPositive(ds[1..]);
    SplitTimes(Number(ds), ds[0] % 32, Number(ds[1..]), p);
  }

  lemma SplitTimes(n: int, x: int, tail: int, p: int)
    requires n == x + 32 * tail && x >= 0 && tail >= 0 && p >= 0
    ensures n * p == x * p + tail * (32 * p) && x * p >= 0 && tail * (32 * p) >= 0
  {
    Distribute(x, tail, p);
    Reassociate(tail, p);
    TimesAtLeast0(x, p);
  }

  lemma StepDigit(d: Decoder, x: int)
    requires IsDigit(x) && d.shift >= 0
    ensures Step(d, IntegerToChar(x)) == Digit(d, x)
  {
    AlphabetRoundTrip(IntegerToChar(x), x);
    hide CharToInteger;
  }

  /** The digits of one number are read as one field. */
  lemma {:induction false} DecodeDigits(d: Decoder, ds: seq<int>)
    requires OneNumber(ds) && d.shift >= 0 && d.raw >= 0
    requires d.raw + Number(ds) * Pow2(d.shift) < TWO31
    ensures Decode(d, Chars(ds)) == Field(d, FromNumber(d.raw + Number(ds) * Pow2(d.shift)))
    decreases |ds|
  {
    hide Pow2, Number, CharToInteger, IntegerToChar, FromNumber, Step;
    var x, p, cs := ds[0], Pow2(d.shift), Chars(ds);
    NumberSplit(ds, p);
    StepDigit(d, x);
    assert cs[0] == IntegerToChar(x) && cs[1..] == Chars(ds[1..]);
    if |ds| > 1 {
      Pow2Five(d.shift);
      var e := d.(raw := d.raw + (x % 32) * p, shift := d.shift + 5);
      assert Digit(d, x) == e;
      DecodeDigits(e, ds[1..]);
    } else {
      EmptyNumber(ds[1..]);
      assert Number(ds) * p == (x % 32) * p;
      assert cs == [cs[0]];
      DecodeOne(d, cs[0]);
    }
  }

  lemma EmptyNumber(ds: seq<int>)
    requires |ds| == 0
    ensures Number(ds) == 0
  {
  }

  lemma DecodeWhole(d: Decoder, ds: seq<int>)
    requires OneNumber(ds) && d.shift == 0 && d.raw == 0 && Number(ds) < TWO31
    ensures Decode(d, Chars(ds)) == Field(d, FromNumber(Number(ds)))
  {
    hide Number, OneNumber, FromNumber, Field, Decode;
    assert Pow2(0) == 1;
    assert Number(ds) * Pow2(0) == Number(ds);
    DecodeDigits(d, ds);
  }

  /** What `addVLQ` writes between two numbers is read as the number it was given. */
  lemma DecodeNumber(d: Decoder, n: int)
    requires d.shift == 0 && d.raw == 0 && -0x4000_0000 < n < 0x4000_0000
    ensures Decode(d, EncodeBytes(n)) == Field(d, n)
  {
    hide Number, Encode, FromNumber, Emitted, OneNumber, Field, Decode;
    EncodeIsNumber(n);
    EmittedStandsForN(n);
    DecodeWhole(d, Encode(n));
  }

  /** `addVLQ` writes no separator. */
  lemma EncodeNoSemicolon(n: int)
    ensures multiset(EncodeBytes(n))[SEMICOLON] == 0
  {
    assert SEMICOLON !in EncodeBytes(n);
  }
}
