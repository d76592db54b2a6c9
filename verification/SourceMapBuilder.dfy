/** Concatenation of sources and of their source maps. The mappings of each
    source are decoded and re-encoded one byte at a time; the relative positions
    of the output carry over from one source to the next. */
module SourceMapBuilders {
  import opened Vlq
  import opened DynamicBuffers
  import opened Mappings
  import opened Remapping

  const NEWLINE := 10

  // ----------------------------------------------------------------- sources

  /** A source as `new Source(content, sourceMap)` leaves it. */
  datatype Source = Source(content: Bytes, sources: seq<string>, mappings: Bytes, sourceLines: int)

  method CountNL(b: Bytes) returns (res: int)
    ensures res == multiset(b)[NEWLINE]
  {
    res := 0;
    for i := 0 to |b|
      invariant res == multiset(b[..i])[NEWLINE]
    {
      assert b[..i + 1] == b[..i] + [b[i]];
      if b[i] == NEWLINE { res := res + 1; }
    }
    assert b[..|b|] == b;
  }

  /** Content is given a final newline unless it is empty or has one, and the
      number of lines is the number of its newlines. */
  method NewSource(content: Bytes, sources: seq<string>, mappings: Bytes) returns (s: Source)
    ensures s.sources == sources && s.mappings == mappings
    ensures content <= s.content && |s.content| <= |content| + 1
    ensures s.content == [] || s.content[|s.content| - 1] == NEWLINE
    ensures s.content == content || (|content| > 0 && content[|content| - 1] != NEWLINE
        && s.content == content + [NEWLINE])
    ensures s.sourceLines == multiset(s.content)[NEWLINE]
  {
    var lines := CountNL(content);
    var text := content;
    if |content| > 0 && content[|content| - 1] != NEWLINE {
      lines := lines + 1;
      text := content + [NEWLINE];
    }
    s := Source(text, sources, mappings, lines);
  }

  // ------------------------------------------------------------------- meaning

  /** A decoded segment with its source named. */
  datatype NamedSeg =
    | PlainName(line: int, col: int)
    | MappedName(line: int, col: int, name: string, sourceLine: int, sourceCol: int)

  function Name(seg: Seg, names: seq<string>, line0: int): NamedSeg
    requires seg.Mapped? ==> 0 <= seg.source < |names|
  {
    match seg
    case Plain(line, col) => PlainName(line0 + line, col)
    case Mapped(line, col, source, sourceLine, sourceCol) => MappedName(line0 + line, col, names[source], sourceLine,
      sourceCol)
  }

  /** Segments with their sources named, moved down by line0 lines. */
  function NameAll(segs: seq<Seg>, names: seq<string>, line0: int): (r: seq<NamedSeg>)
    requires forall k :: 0 <= k < |segs| && segs[k].Mapped? ==> 0 <= segs[k].source < |names|
    ensures |r| == |segs|
  {
    seq(|segs|, k requires 0 <= k < |segs| => Name(segs[k], names, line0))
  }

  /** The segments' sources are among n names. */
  predicate Sourced(segs: seq<Seg>, n: int)
  {
    forall k :: 0 <= k < |segs| && segs[k].Mapped? ==> 0 <= segs[k].source < n
  }

  /** The table `remap` leads from the names of an input to the names of the output. */
  predicate Maps(remap: seq<int>, from: seq<string>, to: seq<string>)
  {
    |remap| == |from| && forall k :: 0 <= k < |remap| ==> 0 <= remap[k] < |to| && to[remap[k]] == from[k]
  }

  /** Moving segments and naming them in the output is naming them in the input. */
  lemma NameMoved(segs: seq<Seg>, line0: int, remap: seq<int>, from: seq<string>, to: seq<string>)
    requires AllFit(segs, |remap|) && Maps(remap, from, to)
    ensures Sourced(MoveAll(segs, line0, remap), |to|)
    ensures NameAll(MoveAll(segs, line0, remap), to, 0) == NameAll(segs, from, line0)
  {
  }

  lemma NameAllAppend(a: seq<Seg>, b: seq<Seg>, names: seq<string>, more: seq<string>)
    requires Sourced(a, |names|) && Sourced(b, |more|) && names <= more
    ensures Sourced(a + b, |more|)
    ensures NameAll(a + b, more, 0) == NameAll(a, names, 0) + NameAll(b, more, 0)
  {
  }

  /** A builder's mappings can be read to the end and carried on from. */
  ghost predicate Faithful(m: Bytes, last: Last, names: seq<string>)
  {
    Ready(m, last) && Sourced(Finish(m).segs, |names|)
  }

  /** What mappings over a table of names say. */
  function Meaning(m: Bytes, names: seq<string>): seq<NamedSeg>
    requires Sourced(Finish(m).segs, |names|)
  {
    NameAll(Finish(m).segs, names, 0)
  }

  lemma ReadyIsFinished(m: Bytes, last: Last)
    requires Ready(m, last)
    ensures Finish(m).segs == Segs(m)
  {
    hide Decode;
  }

  /** A source whose map is well-formed for its content. */
  ghost predicate Clean(s: Source)
  {
    WellFormed(s.mappings, s.sourceLines, |s.sources|)
  }

  /** What a clean source adds to the meaning, when line0 lines come before it. */
  function Contribution(s: Source, line0: int): seq<NamedSeg>
    requires Clean(s)
  {
    NameAll(Finish(s.mappings).segs, s.sources, line0)
  }

  lemma EnoughNames(remap: seq<int>, from: seq<string>, to: seq<string>)
    requires Maps(remap, from, to) && |to| <= 0x4000_0000
    ensures Remapped(remap)
  {
  }

  lemma MeaningAdded(s: Source, m0: Bytes, last0: Last, names0: seq<string>, m: Bytes, last: Last,
      names: seq<string>, remap: seq<int>)
    requires Faithful(m0, last0, names0) && Clean(s) && Maps(remap, s.sources, names) && names0 <= names
        && |names| <= 0x4000_0000
    requires Movable(m0, last0, s.mappings, s.sourceLines, remap) ==>
        Added(s.mappings, s.sourceLines, m0, last0, m, last, remap)
    ensures Movable(m0, last0, s.mappings, s.sourceLines, remap)
    ensures Faithful(m, last, names) && Meaning(m, names) == Meaning(m0, names0) + Contribution(s, Lines(m0))
  {
    EnoughNames(remap, s.sources, names);
    ReadyIsFinished(m0, last0);
    ReadyIsFinished(m, last);
    var segs := Finish(s.mappings).segs;
    NameMoved(segs, Lines(m0), remap, s.sources, names);
    NameAllAppend(Segs(m0), MoveAll(segs, Lines(m0), remap), names0, names);
    hide Finish, Segs, Ready, Lines, MoveAll, Maps, Remapped;
  }

  /** A further line without mappings changes nothing. */
  lemma LineAdded(m: Bytes, last: Last)
    requires Ready(m, last)
    ensures Ready(m + [SEMICOLON], last) && Segs(m + [SEMICOLON]) == Segs(m)
  {
    hide Decode;
    DecodeAppend(Fresh, m, [SEMICOLON]);
    DecodeOne(Decode(Fresh, m), SEMICOLON);
  }

  lemma MeaningKept(m: Bytes, last: Last, names: seq<string>)
    requires Faithful(m, last, names)
    ensures Faithful(m + [SEMICOLON], last, names) && Meaning(m + [SEMICOLON], names) == Meaning(m, names)
  {
    hide Ready, Finish, Segs;
    LineAdded(m, last);
    ReadyIsFinished(m, last);
    ReadyIsFinished(m + [SEMICOLON], last);
  }

  function Newlines(output: Bytes): int
  {
    multiset(output)[NEWLINE]
  }

  predicate Terminated(output: Bytes)
  {
    output == [] || output[|output| - 1] == NEWLINE
  }

  /** A source as its constructor leaves it. */
  predicate Counted(s: Source)
  {
    s.sourceLines == Newlines(s.content) && Terminated(s.content)
  }

  function IndexOf(xs: seq<string>, v: string): (pos: int)
    ensures -1 <= pos < |xs|
    ensures pos >= 0 ==> xs[pos] == v && v !in xs[..pos]
    ensures pos < 0 ==> v !in xs
  {
    if xs == [] then -1
    else if xs[0] == v then 0
    else
      var p := IndexOf(xs[1..], v);
      assert xs == [xs[0]] + xs[1..];
      assert p >= 0 ==> xs[..p + 1] == [xs[0]] + xs[1..][..p];
      if p < 0 then -1 else p + 1
  }

  ghost predicate Distinct(xs: seq<string>)
  {
    forall i, j :: 0 <= i < j < |xs| ==> xs[i] != xs[j]
  }

  class SourceMapBuilder {
    const outputBuffer: DynamicBuffer
    const mappings: DynamicBuffer
    var sources: seq<string>
    var lastSourceIndex: Index
    var lastSourceLine: int
    var lastSourceCol: int

    ghost predicate Valid()
      reads this, outputBuffer, mappings
    {
      && outputBuffer.Valid() && mappings.Valid()
      && outputBuffer != mappings && outputBuffer.buffer != mappings.buffer
      && Distinct(sources)
    }

    function LastOf(): Last
      reads this
    {
      Last(lastSourceIndex, lastSourceLine, lastSourceCol)
    }

    constructor ()
      ensures Valid() && fresh(outputBuffer) && fresh(mappings) && fresh(outputBuffer.buffer) && fresh(mappings.buffer)
      ensures outputBuffer.Contents() == [] && mappings.Contents() == [] && sources == []
      ensures LastOf() == Last(At(0), 0, 0)
    {
      outputBuffer := new DynamicBuffer();
      mappings := new DynamicBuffer();
      sources := [];
      lastSourceIndex, lastSourceLine, lastSourceCol := At(0), 0, 0;
    }

    method AddLine(text: Bytes)
      requires Valid()
      modifies outputBuffer, outputBuffer.buffer, mappings, mappings.buffer
      ensures Valid()
      ensures outputBuffer.buffer == old(outputBuffer.buffer) || fresh(outputBuffer.buffer)
      ensures mappings.buffer == old(mappings.buffer) || fresh(mappings.buffer)
      ensures outputBuffer.Contents() == old(outputBuffer.Contents()) + text + [NEWLINE]
      ensures mappings.Contents() == old(mappings.Contents()) + [SEMICOLON]
    {
      outputBuffer.AddBuffer(text);
      outputBuffer.AddByte(NEWLINE);
      mappings.AddByte(SEMICOLON);
    }

    /** The names of an input join the table of names, each once. */
    method RemapSources(names: seq<string>) returns (remap: seq<int>)
      requires Distinct(sources)
      modifies `sources
      ensures Distinct(sources) && old(sources) <= sources && Maps(remap, names, sources)
      ensures |sources| <= |old(sources)| + |names|
      ensures forall v :: v in sources <==> v in old(sources) || v in names
    {
      remap := [];
      for k := 0 to |names|
        invariant Distinct(sources) && old(sources) <= sources && Maps(remap, names[..k], sources)
        invariant |sources| <= |old(sources)| + k
        invariant forall v :: v in sources <==> v in old(sources) || v in names[..k]
      {
        var pos := IndexOf(sources, names[k]);
        if pos < 0 {
          pos := |sources|;
          sources := sources + [names[k]];
        }
        remap := remap + [pos];
        assert names[..k + 1] == names[..k] + [names[k]];
      }
      assert names[..|names|] == names;
    }

    /** `commit`. */
    method CommitSegment(c: Cursor, remap: seq<int>) returns (c': Cursor)
      requires mappings.Valid()
      modifies `lastSourceIndex, `lastSourceLine, `lastSourceCol, mappings, mappings.buffer
      ensures mappings.Valid() && (mappings.buffer == old(mappings.buffer) || fresh(mappings.buffer))
      ensures mappings.Contents() == old(mappings.Contents()) + CommitBytes(c, remap, old(LastOf()))
      ensures LastOf() == LastAfter(c, remap, old(LastOf()))
      ensures c' == Committed(c) && c'.outputLine == c.outputLine
    {
      hide EncodeBytes, Lookup;
      if c.valpos == 0 {
        return c;
      }
      mappings.AddVLQ(c.inOutputCol - c.lastOutputCol);
      c' := c.(lastOutputCol := c.inOutputCol);
      if c'.valpos == 1 {
        return c'.(valpos := 0);
      }
      CommitOriginal(c', remap);
      c' := c'.(valpos := 0);
    }

    /** The second half of `commit`: the fields about the original position. */
    method CommitOriginal(c: Cursor, remap: seq<int>)
      requires mappings.Valid()
      modifies `lastSourceIndex, `lastSourceLine, `lastSourceCol, mappings, mappings.buffer
      ensures mappings.Valid() && (mappings.buffer == old(mappings.buffer) || fresh(mappings.buffer))
      ensures mappings.Contents() == old(mappings.Contents()) +
        (EncodeBytes(Minus(Lookup(remap, c.inSourceIndex), old(lastSourceIndex)))
         + EncodeBytes(c.inSourceLine - old(lastSourceLine)) + EncodeBytes(c.inSourceCol - old(lastSourceCol)))
      ensures LastOf() == Last(Lookup(remap, c.inSourceIndex), c.inSourceLine, c.inSourceCol)
    {
      hide EncodeBytes, Lookup, Minus;
      ghost var m := mappings.Contents();
      var outSourceIndex := Lookup(remap, c.inSourceIndex);
      mappings.AddVLQ(Minus(outSourceIndex, lastSourceIndex));
      ghost var x := EncodeBytes(Minus(outSourceIndex, lastSourceIndex));
      lastSourceIndex := outSourceIndex;
      mappings.AddVLQ(c.inSourceLine - lastSourceLine);
      ghost var y := EncodeBytes(c.inSourceLine - lastSourceLine);
      lastSourceLine := c.inSourceLine;
      mappings.AddVLQ(c.inSourceCol - lastSourceCol);
      ghost var z := EncodeBytes(c.inSourceCol - lastSourceCol);
      lastSourceCol := c.inSourceCol;
      assert m + x + y + z == m + (x + y + z);
    }

    /** One round of the decoding loop. */
    method Feed(b: int, c: Cursor, remap: seq<int>) returns (ok: bool, c': Cursor)
      requires mappings.Valid() && c.shift >= 0
      modifies `lastSourceIndex, `lastSourceLine, `lastSourceCol, mappings, mappings.buffer
      ensures mappings.Valid() && (mappings.buffer == old(mappings.buffer) || fresh(mappings.buffer))
      ensures ok <==> Accepted(b)
      ensures ok ==> c' == Fed(c, b) && LastOf() == FedLast(c, b, remap, old(LastOf()))
      ensures ok ==> mappings.Contents() == old(mappings.Contents()) + FedBytes(c, b, remap, old(LastOf()))
    {
      ok, c' := true, c;
      if b == SEMICOLON {
        c' := CommitSegment(c, remap);
        mappings.AddByte(SEMICOLON);
        c' := c'.(inOutputCol := 0, lastOutputCol := 0, outputLine := c'.outputLine + 1);
      } else if b == COMMA {
        c' := CommitSegment(c, remap);
        mappings.AddByte(COMMA);
      } else {
        var x := CharToInteger(b);
        if x == 255 {
          ok := false;
        } else {
          c' := ReadDigit(c, x);
        }
      }
    }

    static method ReadDigit(c: Cursor, x: int) returns (c': Cursor)
      requires c.shift >= 0
      ensures c' == Consume(c, x)
    {
      c' := c.(value := c.value + ShiftLeft(x % 32, c.shift));
      if x / 32 % 2 == 1 {
        c' := c'.(shift := c'.shift + 5);
      } else {
        var shouldNegate := ToInt32(c'.value) % 2 == 1;
        var value := Halve(c'.value);
        if shouldNegate {
          value := -value;
        }
        match c'.valpos {
          case 0 => c' := c'.(inOutputCol := c'.inOutputCol + value);
          case 1 => c' := c'.(inSourceIndex := c'.inSourceIndex + value);
          case 2 => c' := c'.(inSourceLine := c'.inSourceLine + value);
          case 3 => c' := c'.(inSourceCol := c'.inSourceCol + value);
          case _ =>
        }
        c' := c'.(valpos := c'.valpos + 1, value := 0, shift := 0);
      }
    }

    /** The decoding loop, the last `commit` and the filling up of lines. Not ok is
        the exception for a byte that is no digit. */
    method AddMappings(input: Bytes, sourceLines: int, remap: seq<int>) returns (ok: bool)
      requires mappings.Valid()
      modifies `lastSourceIndex, `lastSourceLine, `lastSourceCol, mappings, mappings.buffer
      ensures mappings.Valid() && (mappings.buffer == old(mappings.buffer) || fresh(mappings.buffer))
      ensures ok <==> AllAccepted(input)
      ensures Movable(old(mappings.Contents()), old(LastOf()), input, sourceLines, remap) ==> ok
      ensures ok ==> Added(input, sourceLines, old(mappings.Contents()), old(LastOf()), mappings.Contents(),
          LastOf(), remap)
    {
      hide *;
      ghost var m0, last0 := mappings.Contents(), LastOf();
      var ip, c := 0, StartCursor;
      ok := true;
      StartsUnderway(input, sourceLines, m0, last0, remap);
      while ip < |input|
        invariant mappings.Valid() && (mappings.buffer == old(mappings.buffer) || fresh(mappings.buffer))
        invariant ok && c.shift >= 0 && 0 <= ip <= |input|
        invariant Underway(input, ip, sourceLines, m0, last0, mappings.Contents(), c, LastOf(), remap)
      {
        StaysUnderway(input, ip, sourceLines, m0, last0, mappings.Contents(), c, LastOf(), remap);
        ok, c := Feed(input[ip], c, remap);
        ip := ip + 1;
        if !ok {
          NotAllAccepted(input, ip - 1);
          return;
        }
      }
      EndsReady(input, sourceLines, m0, last0, mappings.Contents(), c, LastOf(), remap);
      c := CommitSegment(c, remap);
      FillLines(c.outputLine, sourceLines);
    }

    method AddSource(s: Source) returns (ok: bool)
      requires Valid()
      modifies this, outputBuffer, outputBuffer.buffer, mappings, mappings.buffer
      ensures Valid()
      ensures outputBuffer.buffer == old(outputBuffer.buffer) || fresh(outputBuffer.buffer)
      ensures mappings.buffer == old(mappings.buffer) || fresh(mappings.buffer)
      ensures outputBuffer.Contents() == old(outputBuffer.Contents()) + s.content
      ensures old(sources) <= sources && |sources| <= |old(sources)| + |s.sources|
      ensures forall v :: v in sources <==> v in old(sources) || v in s.sources
      ensures ok <==> AllAccepted(s.mappings)
      ensures ok ==>
        Lines(mappings.Contents()) == old(Lines(mappings.Contents())) + Max(Lines(s.mappings), s.sourceLines)
      ensures old(Faithful(mappings.Contents(), LastOf(), sources)) && Clean(s) && |sources| <= 0x4000_0000 ==>
        && ok && Faithful(mappings.Contents(), LastOf(), sources)
        && Meaning(mappings.Contents(), sources) ==
             old(Meaning(mappings.Contents(), sources)) + Contribution(s, old(Lines(mappings.Contents())))
    {
      hide Faithful, Meaning, Contribution, Clean, Lines, AllAccepted, Movable, Maps, Ready, MoveAll;
      ghost var m0, last0, names0 := mappings.Contents(), LastOf(), sources;
      outputBuffer.AddBuffer(s.content);
      var sourceRemap := RemapSources(s.sources);
      ok := AddMappings(s.mappings, s.sourceLines, sourceRemap);
      ghost var m := mappings.Contents();
      if Faithful(m0, last0, names0) && Clean(s) && |sources| <= 0x4000_0000 {
        MeaningAdded(s, m0, last0, names0, m, LastOf(), sources, sourceRemap);
      }
    }

    /** A line without mappings for each line of the source that had none. */
    method FillLines(outputLine: int, sourceLines: int)
      requires mappings.Valid()
      modifies mappings, mappings.buffer
      ensures mappings.Valid() && (mappings.buffer == old(mappings.buffer) || fresh(mappings.buffer))
      ensures mappings.Contents() == old(mappings.Contents()) + Semicolons(Max(sourceLines - outputLine, 0))
    {
      var line := outputLine;
      assert Semicolons(0) == [];
      while line < sourceLines
        invariant mappings.Valid() && (mappings.buffer == old(mappings.buffer) || fresh(mappings.buffer))
        invariant line == outputLine || outputLine < line <= sourceLines
        invariant mappings.Contents() == old(mappings.Contents()) + Semicolons(line - outputLine)
      {
        mappings.AddByte(SEMICOLON);
        line := line + 1;
        assert Semicolons(line - outputLine) == Semicolons(line - 1 - outputLine) + [SEMICOLON];
      }
    }

    method ToContent() returns (content: Bytes)
      requires Valid()
      ensures content == outputBuffer.Contents()
    {
      content := outputBuffer.ToBuffer();
    }

    method ToSourceMap() returns (names: seq<string>, bytes: Bytes)
      requires Valid()
      ensures names == sources && bytes == mappings.Contents()
    {
      names := sources;
      bytes := mappings.ToBuffer();
    }
  }
}
