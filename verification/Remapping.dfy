/** One source map's mappings carried over into another's: the decoding loop of
    `addSource` step by step, kept in step with a reader of its input and a reader
    of its output. */
module Remapping {
  import opened Vlq
  import opened DynamicBuffers
  import opened Mappings

  // ----------------------------------------------------------- loop variables

  /** The local variables of the decoding loop. */
  datatype Cursor = Cursor(
    outputLine: int, lastOutputCol: int,
    inOutputCol: int, inSourceIndex: int, inSourceLine: int, inSourceCol: int,
    shift: int, value: int, valpos: int)

  const StartCursor := Cursor(0, 0, 0, 0, 0, 0, 0, 0, 0)

  /** A source index looked up in a table; outside the table it is undefined, and
      arithmetic with it is not a number, which `addVLQ` takes for zero. */
  datatype Index = At(i: int) | Undefined

  function Lookup(remap: seq<int>, i: int): Index
  {
    if 0 <= i < |remap| then At(remap[i]) else Undefined
  }

  function Minus(a: Index, b: Index): int
  {
    if a.At? && b.At? then a.i - b.i else 0
  }

  /** The `lastSource...` fields of the builder. */
  datatype Last = Last(index: Index, line: int, col: int)

  /** What `commit` appends. */
  function CommitBytes(c: Cursor, remap: seq<int>, last: Last): Bytes
  {
    if c.valpos == 0 then []
    else
      var column := EncodeBytes(c.inOutputCol - c.lastOutputCol);
      if c.valpos == 1 then column
      else
        column + EncodeBytes(Minus(Lookup(remap, c.inSourceIndex), last.index))
        + EncodeBytes(c.inSourceLine - last.line) + EncodeBytes(c.inSourceCol - last.col)
  }

  function Committed(c: Cursor): Cursor
  {
    if c.valpos == 0 then c else c.(lastOutputCol := c.inOutputCol, valpos := 0)
  }

  function LastAfter(c: Cursor, remap: seq<int>, last: Last): Last
  {
    if c.valpos == 0 || c.valpos == 1 then last else Last(Lookup(remap, c.inSourceIndex), c.inSourceLine, c.inSourceCol)
  }

  /** A digit of the input, in 32-bit arithmetic. */
  function Consume(c: Cursor, x: int): Cursor
    requires c.shift >= 0
  {
    var value := Gather(c.value, c.shift, x);
    if x / 32 % 2 == 1 then c.(value := value, shift := c.shift + 5)
    else
      var v := Unsigned(value);
      var d := c.(valpos := c.valpos + 1, value := 0, shift := 0);
      if c.valpos == 0 then d.(inOutputCol := c.inOutputCol + v)
      else if c.valpos == 1 then d.(inSourceIndex := c.inSourceIndex + v)
      else if c.valpos == 2 then d.(inSourceLine := c.inSourceLine + v)
      else if c.valpos == 3 then d.(inSourceCol := c.inSourceCol + v)
      else d
  }

  // ------------------------------------------------- input and output in step

  predicate Small(x: int)
  {
    0 <= x < 0x4000_0000
  }

  /** Positions below 2^30 and a source index below n. */
  predicate Fits(seg: Seg, n: int)
  {
    Small(seg.col) && (seg.Mapped? ==> 0 <= seg.source < n && Small(seg.sourceLine) && Small(seg.sourceCol))
  }

  predicate AllFit(segs: seq<Seg>, n: int)
  {
    forall k :: 0 <= k < |segs| ==> Fits(segs[k], n)
  }

  /** A segment of an input, as it belongs into the output. */
  function Move(seg: Seg, line0: int, remap: seq<int>): Seg
    requires Fits(seg, |remap|)
  {
    match seg
    case Plain(line, col) => Plain(line0 + line, col)
    case Mapped(line, col, source, sourceLine, sourceCol) => Mapped(line0 + line, col, remap[source], sourceLine,
      sourceCol)
  }

  function MoveAll(segs: seq<Seg>, line0: int, remap: seq<int>): (r: seq<Seg>)
    requires AllFit(segs, |remap|)
    ensures |r| == |segs|
  {
    seq(|segs|, k requires 0 <= k < |segs| => Move(segs[k], line0, remap))
  }

  lemma MoveAllAppend(segs: seq<Seg>, seg: Seg, line0: int, remap: seq<int>)
    requires AllFit(segs + [seg], |remap|)
    ensures AllFit(segs, |remap|) && Fits(seg, |remap|)
    ensures MoveAll(segs + [seg], line0, remap) == MoveAll(segs, line0, remap) + [Move(seg, line0, remap)]
  {
    assert forall k :: 0 <= k < |segs| ==> (segs + [seg])[k] == segs[k];
    assert (segs + [seg])[|segs|] == seg;
  }

  /** The loop variables are those of a reader of the input. */
  predicate Mirrors(i: Decoder, c: Cursor)
  {
    && i.ok && i.line == c.outputLine && i.col == c.inOutputCol
    && i.source == c.inSourceIndex && i.sourceLine == c.inSourceLine && i.sourceCol == c.inSourceCol
    && i.fields == c.valpos && i.raw == c.value && i.shift == c.shift && i.shift >= 0 && i.raw >= 0
  }

  /** A reader of the output is where the builder thinks it is. */
  predicate Tracks(o: Decoder, line0: int, c: Cursor, last: Last)
  {
    && o.ok && o.raw == 0 && o.shift == 0 && o.line == line0 + c.outputLine && o.col == c.lastOutputCol
    && last == Last(At(o.source), o.sourceLine, o.sourceCol)
    && Small(o.col) && Small(o.source) && Small(o.sourceLine) && Small(o.sourceCol)
  }

  predicate Remapped(remap: seq<int>)
  {
    forall k :: 0 <= k < |remap| ==> Small(remap[k])
  }

  /** Between two segments: what has been decoded of the input has been written. */
  ghost predicate InStep(i: Decoder, o: Decoder, line0: int, before: seq<Seg>, c: Cursor, last: Last, remap: seq<int>)
  {
    && Mirrors(i, c) && Tracks(o, line0, c, last) && o.fields == 0
    && Remapped(remap) && AllFit(i.segs, |remap|)
    && o.segs == before + MoveAll(i.segs, line0, remap)
    && ((forall k :: 0 <= k < |i.segs| ==> i.segs[k].line < i.line) ==> c.lastOutputCol == 0)
  }

  predicate InRange(x: int)
  {
    -0x4000_0000 < x < 0x4000_0000
  }

  lemma FieldClean(d: Decoder, v: int)
    ensures Field(d, v).shift == 0 && Field(d, v).raw == 0
  {
  }

  lemma FourFields(o: Decoder, a: int, b: int, e: int, f: int)
    requires o.fields == 0 && o.raw == 0 && o.shift == 0
    ensures Field(Field(Field(Field(o, a), b), e), f) ==
      o.(col := o.col + a, source := o.source + b, sourceLine := o.sourceLine + e, sourceCol := o.sourceCol + f,
        fields := 4)
  {
  }

  lemma DecodeFour(o: Decoder, a: int, b: int, e: int, f: int)
    requires o.shift == 0 && o.raw == 0 && o.fields == 0
    requires InRange(a) && InRange(b) && InRange(e) && InRange(f)
    ensures Decode(o, EncodeBytes(a) + EncodeBytes(b) + EncodeBytes(e) + EncodeBytes(f)) ==
      o.(col := o.col + a, source := o.source + b, sourceLine := o.sourceLine + e, sourceCol := o.sourceCol + f,
        fields := 4)
  {
    hide EncodeBytes, Decode, Field;
    var x, y, z, u := EncodeBytes(a), EncodeBytes(b), EncodeBytes(e), EncodeBytes(f);
    DecodeAppend(o, x + y + z, u);
    DecodeAppend(o, x + y, z);
    DecodeAppend(o, x, y);
    FourFields(o, a, b, e, f);
    DecodeNumber(o, a);
    FieldClean(o, a);
    DecodeNumber(Field(o, a), b);
    FieldClean(Field(o, a), b);
    DecodeNumber(Field(Field(o, a), b), e);
    FieldClean(Field(Field(o, a), b), e);
    DecodeNumber(Field(Field(Field(o, a), b), e), f);
  }

  /** The reader of the output after a segment of the input has been committed. */
  function AfterCommit(i: Decoder, o: Decoder, remap: seq<int>): Decoder
    requires i.fields in {0, 1} || 0 <= i.source < |remap|
  {
    if i.fields == 0 then o
    else if i.fields == 1 then o.(col := i.col, fields := 1)
    else o.(col := i.col, source := remap[i.source], sourceLine := i.sourceLine, sourceCol := i.sourceCol, fields := 4)
  }

  lemma CommitDecoded(i: Decoder, o: Decoder, line0: int, c: Cursor, last: Last, remap: seq<int>)
    requires Mirrors(i, c) && Tracks(o, line0, c, last) && o.fields == 0 && Remapped(remap)
    requires i.fields in {0, 1, 4, 5} && (i.fields != 0 ==> Fits(Here(i), |remap|))
    ensures Decode(o, CommitBytes(c, remap, last)) == AfterCommit(i, o, remap)
  {
    hide Decode, EncodeBytes;
    if i.fields == 0 {
      DecodeNothing(o);
    } else {
      assert InRange(c.inOutputCol - c.lastOutputCol);
      if i.fields == 1 {
        DecodeNumber(o, c.inOutputCol - c.lastOutputCol);
      } else {
        assert InRange(c.inSourceLine - last.line) && InRange(c.inSourceCol - last.col);
        assert InRange(Minus(Lookup(remap, c.inSourceIndex), last.index));
        DecodeFour(o, c.inOutputCol - c.lastOutputCol, Minus(Lookup(remap, c.inSourceIndex), last.index),
                   c.inSourceLine - last.line, c.inSourceCol - last.col);
      }
    }
  }

  lemma DecodeNothing(o: Decoder)
    requires o.shift >= 0
    ensures Decode(o, []) == o
  {
  }

  /** Committing a well-formed segment writes the same segment, moved. */
  lemma CommitInStep(i: Decoder, o: Decoder, line0: int, before: seq<Seg>, c: Cursor, last: Last, remap: seq<int>)
    requires InStep(i, o, line0, before, c, last, remap)
    requires Commit(i).ok && AllFit(Commit(i).segs, |remap|)
    ensures var o' := Decode(o, CommitBytes(c, remap, last));
      && Tracks(o', line0, Committed(c), LastAfter(c, remap, last))
      && InStep(Commit(i), Commit(o'), line0, before, Committed(c), LastAfter(c, remap, last), remap)
      && (o'.fields == 0 ==> o' == o && i.fields == 0)
  {
    hide Decode, CommitBytes;
    if i.fields != 0 {
      assert Commit(i).segs[|i.segs|] == Here(i);
      MoveAllAppend(i.segs, Here(i), line0, remap);
    }
    CommitDecoded(i, o, line0, c, last, remap);
  }

  /** A digit that keeps the reader going keeps the loop variables in step. */
  lemma ConsumeInStep(i: Decoder, c: Cursor, b: int)
    requires Mirrors(i, c) && b != SEMICOLON && b != COMMA && Step(i, b).ok
    ensures IsDigit(CharToInteger(b)) && Mirrors(Step(i, b), Consume(c, CharToInteger(b)))
    ensures Step(i, b).segs == i.segs
  {
    hide Gather, Pow2, CharToInteger;
    var x := CharToInteger(b);
    TimesAtLeast0(x % 32, Pow2(i.shift));
    GatherExact(c.value, c.shift, x);
    UnsignedExact(Gather(c.value, c.shift, x));
  }

  lemma CommitNoSemicolon(c: Cursor, remap: seq<int>, last: Last)
    ensures multiset(CommitBytes(c, remap, last))[SEMICOLON] == 0
  {
    EncodeNoSemicolon(c.inOutputCol - c.lastOutputCol);
    EncodeNoSemicolon(Minus(Lookup(remap, c.inSourceIndex), last.index));
    EncodeNoSemicolon(c.inSourceLine - last.line);
    EncodeNoSemicolon(c.inSourceCol - last.col);
  }

  // ------------------------------------------------------ one byte of the input

  function Separated(c: Cursor, b: int): Cursor
  {
    if b == SEMICOLON then Committed(c).(inOutputCol := 0, lastOutputCol := 0, outputLine := c.outputLine + 1)
    else Committed(c)
  }

  /** A separator in the input ends the segment on both sides. */
  lemma SeparatorInStep(i: Decoder, m: Bytes, line0: int, before: seq<Seg>, c: Cursor, last: Last, remap: seq<int>,
      b: int)
    requires InStep(i, Decode(Fresh, m), line0, before, c, last, remap) && b in {SEMICOLON, COMMA}
    requires Step(i, b).ok && AllFit(Step(i, b).segs, |remap|)
    ensures InStep(Step(i, b), Decode(Fresh, m + CommitBytes(c, remap, last) + [b]), line0, before, Separated(c, b),
        LastAfter(c, remap, last), remap)
  {
    hide Decode, CommitBytes, Commit, MoveAll, AllFit, Remapped;
    var o, bytes := Decode(Fresh, m), CommitBytes(c, remap, last);
    CommitInStep(i, o, line0, before, c, last, remap);
    DecodeAppend(Fresh, m + bytes, [b]);
    DecodeAppend(Fresh, m, bytes);
    DecodeOne(Decode(o, bytes), b);
  }

  lemma DigitInStep(i: Decoder, o: Decoder, line0: int, before: seq<Seg>, c: Cursor, last: Last,
                    remap: seq<int>, b: int)
    requires InStep(i, o, line0, before, c, last, remap) && b != SEMICOLON && b != COMMA && Step(i, b).ok
    ensures IsDigit(CharToInteger(b))
    ensures InStep(Step(i, b), o, line0, before, Consume(c, CharToInteger(b)), last, remap)
  {
    hide Step, MoveAll, AllFit, Remapped;
    ConsumeInStep(i, c, b);
    DigitPlace(i, b);
  }

  lemma DigitPlace(i: Decoder, b: int)
    requires i.shift >= 0 && b != SEMICOLON && b != COMMA
    ensures Step(i, b).line == i.line && Step(i, b).segs == i.segs
  {
  }

  /** The loop variables, the appended bytes and the carried positions after one
      byte that is accepted. */
  function Fed(c: Cursor, b: int): Cursor
    requires c.shift >= 0
  {
    if b == SEMICOLON || b == COMMA then Separated(c, b) else Consume(c, CharToInteger(b))
  }

  function FedBytes(c: Cursor, b: int, remap: seq<int>, last: Last): Bytes
  {
    if b == SEMICOLON || b == COMMA then CommitBytes(c, remap, last) + [b] else []
  }

  function FedLast(c: Cursor, b: int, remap: seq<int>, last: Last): Last
  {
    if b == SEMICOLON || b == COMMA then LastAfter(c, remap, last) else last
  }

  lemma FeedInStep(i: Decoder, m: Bytes, line0: int, before: seq<Seg>, c: Cursor, last: Last,
                    remap: seq<int>, b: int)
    requires InStep(i, Decode(Fresh, m), line0, before, c, last, remap)
    requires Step(i, b).ok && AllFit(Step(i, b).segs, |remap|)
    ensures Accepted(b)
    ensures InStep(Step(i, b), Decode(Fresh, m + FedBytes(c, b, remap, last)), line0, before, Fed(c, b),
        FedLast(c, b, remap, last), remap)
  {
    if b == SEMICOLON || b == COMMA {
      SeparatorInStep(i, m, line0, before, c, last, remap, b);
      assert m + CommitBytes(c, remap, last) + [b] == m + FedBytes(c, b, remap, last);
      hide *;
    } else {
      DigitInStep(i, Decode(Fresh, m), line0, before, c, last, remap, b);
      assert m + [] == m;
      hide Decode, Step, InStep, CharToInteger, Consume;
    }
  }

  /** Every semicolon of the input is written, and nothing else writes one. */
  lemma FedLines(c: Cursor, b: int, remap: seq<int>, last: Last)
    requires c.shift >= 0
    ensures Fed(c, b).shift >= 0
    ensures Fed(c, b).outputLine == c.outputLine + multiset([b])[SEMICOLON]
    ensures multiset(FedBytes(c, b, remap, last))[SEMICOLON] == multiset([b])[SEMICOLON]
  {
    hide CommitBytes, CharToInteger;
    CommitNoSemicolon(c, remap, last);
  }

  // ------------------------------------------------------------- whole mappings

  /** The mappings m are complete up to the start of a line, and a reader of them
      ends at the positions in `last`. */
  predicate Ready(m: Bytes, last: Last)
  {
    var o := Decode(Fresh, m);
    && o.ok && o.fields == 0 && o.raw == 0 && o.shift == 0 && o.col == 0
    && last == Last(At(o.source), o.sourceLine, o.sourceCol)
    && Small(o.source) && Small(o.sourceLine) && Small(o.sourceCol)
  }

  /** Readable mappings with positions in range, on the lines of their source. */
  predicate WellFormed(input: Bytes, lines: int, n: int)
  {
    var d := Finish(input);
    && d.ok && d.line <= lines && AllFit(d.segs, n)
    && forall k :: 0 <= k < |d.segs| ==> d.segs[k].line < lines
  }

  predicate Accepted(b: int)
  {
    b == SEMICOLON || b == COMMA || CharToInteger(b) != 255
  }

  function Semicolons(n: int): Bytes
    requires n >= 0
  {
    seq(n, _ => SEMICOLON)
  }

  lemma {:induction false} DecodeSemicolons(o: Decoder, n: int)
    requires n >= 1 && o.shift >= 0 && Commit(o).ok
    ensures Decode(o, Semicolons(n)) == Commit(o).(line := o.line + n, col := 0)
    decreases n
  {
    var c := Step(o, SEMICOLON);
    assert Semicolons(n)[1..] == Semicolons(n - 1);
    if n > 1 { DecodeSemicolons(c, n - 1); }
  }

  /** What the input has decoded to so far is well-formed if all of it is. */
  lemma PrefixWellFormed(input: Bytes, ip: int, n: int)
    requires 0 <= ip < |input| && Finish(input).ok && AllFit(Finish(input).segs, n)
    ensures var i := Decode(Fresh, input[..ip]);
      && Step(i, input[ip]).ok && AllFit(Step(i, input[ip]).segs, n)
      && Decode(Fresh, input[..ip + 1]) == Step(i, input[ip])
  {
    hide Decode, Step, Fits;
    var i := Decode(Fresh, input[..ip]);
    assert input[..ip + 1] == input[..ip] + [input[ip]];
    DecodeAppend(Fresh, input[..ip], [input[ip]]);
    DecodeOne(i, input[ip]);
    assert input == input[..ip + 1] + input[ip + 1..];
    DecodeAppend(Fresh, input[..ip + 1], input[ip + 1..]);
    DecodeGrows(Decode(Fresh, input[..ip + 1]), input[ip + 1..]);
    assert Decode(Fresh, input).segs <= Finish(input).segs;
    assert forall k :: 0 <= k < |Decode(Fresh, input[..ip + 1]).segs| ==>
      Decode(Fresh, input[..ip + 1]).segs[k] == Finish(input).segs[k];
  }

  /** A segment that is still open is on the line of the reader. */
  lemma OpenSegmentLine(i: Decoder, lines: int)
    requires Commit(i).ok && forall k :: 0 <= k < |Commit(i).segs| ==> Commit(i).segs[k].line < lines
    ensures i.fields != 0 ==> i.line < lines
  {
    if i.fields != 0 {
      assert Commit(i).segs[|i.segs|] == Here(i);
    }
  }

  /** The last segment is committed and the lines are filled up. */
  lemma PaddedReady(input: Bytes, lines: int, m: Bytes, line0: int, before: seq<Seg>, c: Cursor, last: Last,
      remap: seq<int>)
    requires InStep(Decode(Fresh, input), Decode(Fresh, m), line0, before, c, last, remap)
    requires WellFormed(input, lines, |remap|)
    ensures c.outputLine <= lines
    ensures var m' := m + CommitBytes(c, remap, last) + Semicolons(lines - c.outputLine);
      && Ready(m', LastAfter(c, remap, last))
      && Decode(Fresh, m').segs == before + MoveAll(Finish(input).segs, line0, remap)
  {
    var i, o, bytes, n := Decode(Fresh, input), Decode(Fresh, m), CommitBytes(c, remap, last), lines - c.outputLine;
    CommitInStep(i, o, line0, before, c, last, remap);
    DecodeAppend(Fresh, m + bytes, Semicolons(n));
    DecodeAppend(Fresh, m, bytes);
    if n > 0 {
      DecodeSemicolons(Decode(o, bytes), n);
      hide Decode, CommitBytes;
    } else {
      OpenSegmentLine(i, lines);
      assert m + bytes + Semicolons(n) == m + bytes;
      hide Decode;
    }
  }

  predicate AllAccepted(input: Bytes)
  {
    forall k :: 0 <= k < |input| ==> Accepted(input[k])
  }

  lemma NotAllAccepted(input: Bytes, ip: int)
    requires 0 <= ip < |input| && !Accepted(input[ip])
    ensures !AllAccepted(input)
  {
  }

  function Lines(m: Bytes): int
  {
    multiset(m)[SEMICOLON]
  }

  function Segs(m: Bytes): seq<Seg>
  {
    Decode(Fresh, m).segs
  }

  /** The input can be moved into the output without leaving the range of VLQ. */
  ghost predicate Movable(m0: Bytes, last0: Last, input: Bytes, lines: int, remap: seq<int>)
  {
    Ready(m0, last0) && Remapped(remap) && WellFormed(input, lines, |remap|)
  }

  /** After ip bytes of the input. */
  ghost predicate Underway(input: Bytes, ip: int, lines: int, m0: Bytes, last0: Last, m: Bytes, c: Cursor,
      last: Last, remap: seq<int>)
  {
    && 0 <= ip <= |input| && c.shift >= 0 && AllAccepted(input[..ip])
    && c.outputLine == Lines(input[..ip]) && Lines(m) == Lines(m0) + c.outputLine
    && (Movable(m0, last0, input, lines, remap) ==>
          InStep(Decode(Fresh, input[..ip]), Decode(Fresh, m), Lines(m0), Segs(m0), c, last, remap))
  }

  lemma StartsUnderway(input: Bytes, lines: int, m0: Bytes, last0: Last, remap: seq<int>)
    ensures StartCursor.shift == 0 && Underway(input, 0, lines, m0, last0, m0, StartCursor, last0, remap)
  {
    assert input[..0] == [];
    DecodeLines(Fresh, m0);
    assert Decode(Fresh, []) == Fresh;
    assert Segs(m0) + MoveAll([], Lines(m0), remap) == Segs(m0);
    hide Decode;
  }

  lemma StaysUnderway(input: Bytes, ip: int, lines: int, m0: Bytes, last0: Last, m: Bytes, c: Cursor, last: Last,
      remap: seq<int>)
    requires Underway(input, ip, lines, m0, last0, m, c, last, remap) && ip < |input|
    ensures Movable(m0, last0, input, lines, remap) ==> Accepted(input[ip])
    ensures c.shift >= 0 && Fed(c, input[ip]).shift >= 0
    ensures Accepted(input[ip]) ==> Underway(input, ip + 1, lines, m0, last0, m + FedBytes(c, input[ip], remap, last),
                                             Fed(c, input[ip]), FedLast(c, input[ip], remap, last), remap)
  {
    hide Decode, Step, InStep, Ready, Remapped, Accepted, Fed, FedBytes, FedLast, Segs, AllFit, Commit;
    var b := input[ip];
    assert input[..ip + 1] == input[..ip] + [b];
    FedLines(c, b, remap, last);
    if Movable(m0, last0, input, lines, remap) {
      PrefixWellFormed(input, ip, |remap|);
      FeedInStep(Decode(Fresh, input[..ip]), m, Lines(m0), Segs(m0), c, last, remap, b);
    }
  }

  /** The mappings m are m0 with the whole input added: as many lines as the input
      or its source has, and the input's segments if it can be moved. */
  ghost predicate Added(input: Bytes, lines: int, m0: Bytes, last0: Last, m: Bytes, last: Last, remap: seq<int>)
  {
    && Lines(m) == Lines(m0) + Max(Lines(input), lines)
    && (Movable(m0, last0, input, lines, remap) ==>
          Ready(m, last) && Segs(m) == Segs(m0) + MoveAll(Finish(input).segs, Lines(m0), remap))
  }

  /** The whole input, the last segment and the filling up. */
  lemma EndsReady(input: Bytes, lines: int, m0: Bytes, last0: Last, m: Bytes, c: Cursor, last: Last, remap: seq<int>)
    requires Underway(input, |input|, lines, m0, last0, m, c, last, remap)
    ensures AllAccepted(input)
    ensures Added(input, lines, m0, last0, m + CommitBytes(c, remap, last) + Semicolons(Max(lines - c.outputLine, 0)),
                  LastAfter(c, remap, last), remap)
  {
    hide CommitBytes, LastAfter, InStep, Ready;
    assert input[..|input|] == input;
    CommitNoSemicolon(c, remap, last);
    CountSemicolons(Max(lines - c.outputLine, 0));
    if Movable(m0, last0, input, lines, remap) {
      PaddedReady(input, lines, m, Lines(m0), Segs(m0), c, last, remap);
    }
  }

  lemma {:induction false} CountSemicolons(n: int)
    requires n >= 0
    ensures Lines(Semicolons(n)) == n
    decreases n
  {
    if n > 0 {
      CountSemicolons(n - 1);
      assert Semicolons(n) == Semicolons(n - 1) + [SEMICOLON];
    }
  }

  function Max(a: int, b: int): int
  {
    if a > b then a else b
  }
}
