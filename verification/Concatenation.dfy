/** What a builder holds after any sequence of `addSource` and `addLine` calls. */
module Concatenations {
  import opened DynamicBuffers
  import opened Mappings
  import opened Remapping
  import opened SourceMapBuilders

  datatype Part = Whole(source: Source) | Line(text: Bytes)

  function TextOf(part: Part): Bytes
  {
    match part
    case Whole(s) => s.content
    case Line(text) => text + [NEWLINE]
  }

  /** The output. */
  function Text(parts: seq<Part>): Bytes
  {
    if parts == [] then [] else Text(parts[..|parts| - 1]) + TextOf(parts[|parts| - 1])
  }

  /** A source as its constructor leaves it; one line of text. */
  predicate Regular(part: Part)
  {
    match part
    case Whole(s) => Counted(s)
    case Line(text) => NEWLINE !in text
  }

  /** The map of a source has no more lines than its content. */
  predicate Short(part: Part)
  {
    part.Whole? ==> Lines(part.source.mappings) <= part.source.sourceLines
  }

  ghost predicate Proper(part: Part)
  {
    part.Whole? ==> Clean(part.source)
  }

  ghost predicate AllRegular(parts: seq<Part>)
  {
    forall k :: 0 <= k < |parts| ==> Regular(parts[k])
  }

  ghost predicate AllShort(parts: seq<Part>)
  {
    forall k :: 0 <= k < |parts| ==> Short(parts[k])
  }

  ghost predicate AllProper(parts: seq<Part>)
  {
    forall k :: 0 <= k < |parts| ==> Proper(parts[k])
  }

  ghost function Share(part: Part, line0: int): seq<NamedSeg>
    requires Proper(part)
  {
    if part.Whole? then Contribution(part.source, line0) else []
  }

  /** The segments of all sources in order, each source's moved down by the lines
      of the text before it. */
  ghost function Said(parts: seq<Part>): seq<NamedSeg>
    requires AllProper(parts)
  {
    if parts == [] then []
    else Said(parts[..|parts| - 1]) + Share(parts[|parts| - 1], Newlines(Text(parts[..|parts| - 1])))
  }

  function NamesOf(part: Part): seq<string>
  {
    if part.Whole? then part.source.sources else []
  }

  /** The names are those of the sources. */
  ghost predicate Pooled(parts: seq<Part>, names: seq<string>)
  {
    forall v :: v in names <==> exists k :: 0 <= k < |parts| && v in NamesOf(parts[k])
  }

  ghost predicate Joined(part: Part, names: seq<string>, names': seq<string>)
  {
    names <= names' && forall v :: v in names' <==> v in names || v in NamesOf(part)
  }

  /** The output buffer, the mappings, the carried positions and the names after
      adding some parts. */
  datatype Product = Product(output: Bytes, mappings: Bytes, last: Last, names: seq<string>)

  const Blank := Product([], [], Last(At(0), 0, 0), [])

  /** The output is the text, and the mappings have a line for each of its lines
      unless some map is too long. */
  ghost predicate InLine(parts: seq<Part>, output: Bytes, m: Bytes)
  {
    && output == Text(parts) && Terminated(output) && Lines(m) >= Newlines(output)
    && (Lines(m) == Newlines(output) <==> AllShort(parts))
  }

  /** The output says what the parts say. */
  ghost predicate Means(parts: seq<Part>, o: Product)
  {
    AllProper(parts) && |o.names| <= 0x4000_0000 ==>
      Faithful(o.mappings, o.last, o.names) && Meaning(o.mappings, o.names) == Said(parts)
  }

  ghost predicate Built(parts: seq<Part>, o: Product)
  {
    InLine(parts, o.output, o.mappings) && Pooled(parts, o.names) && Means(parts, o)
  }

  lemma NothingBuilt()
    ensures Built([], Blank)
  {
    assert Decode(Fresh, []) == Fresh;
  }

  function LinesAdded(part: Part): int
  {
    if part.Whole? then Max(Lines(part.source.mappings), part.source.sourceLines) else 1
  }

  ghost predicate MeaningAdds(part: Part, o: Product, o': Product)
  {
    Faithful(o.mappings, o.last, o.names) && Proper(part) && |o'.names| <= 0x4000_0000 ==>
      && Faithful(o'.mappings, o'.last, o'.names)
      && Meaning(o'.mappings, o'.names) == Meaning(o.mappings, o.names) + Share(part, Lines(o.mappings))
  }

  /** The contracts of `addSource` and `addLine`, on values. */
  ghost predicate AddedPart(part: Part, o: Product, o': Product)
  {
    && o'.output == o.output + TextOf(part) && Lines(o'.mappings) == Lines(o.mappings) + LinesAdded(part)
    && Joined(part, o.names, o'.names) && MeaningAdds(part, o, o')
  }

  /** Output and mappings stay line by line together, and the meaning grows by that
      of the part. */
  lemma BuiltMore(parts: seq<Part>, part: Part, o: Product, o': Product)
    requires Built(parts, o) && Regular(part) && AddedPart(part, o, o')
    ensures Built(parts + [part], o')
  {
    hide InLine, Pooled, Means;
    InLineMore(parts, part, o.output, o.mappings, o'.output, o'.mappings);
    NamesAppend(parts, part, o.names, o'.names);
    MeansMore(parts, part, o, o');
  }

  lemma InLineMore(parts: seq<Part>, part: Part, output: Bytes, m: Bytes, output': Bytes, m': Bytes)
    requires InLine(parts, output, m) && Regular(part)
    requires output' == output + TextOf(part) && Lines(m') == Lines(m) + LinesAdded(part)
    ensures InLine(parts + [part], output', m')
  {
    hide Text, AllShort, TextOf, Regular, Terminated, Lines, Short;
    TextAppend(parts, part);
    ShortAppend(parts, part);
    PartLines(part);
    TerminatedAppend(output, TextOf(part));
  }

  lemma MeansMore(parts: seq<Part>, part: Part, o: Product, o': Product)
    requires InLine(parts, o.output, o.mappings) && Means(parts, o)
    requires |o.names| <= |o'.names| && MeaningAdds(part, o, o')
    ensures Means(parts + [part], o')
  {
    hide Text, Said, Faithful, Meaning, Share, Proper, Lines, AllShort, AllProper, Terminated;
    if AllProper(parts + [part]) && |o'.names| <= 0x4000_0000 {
      SaidAppend(parts, part);
      ProperIsShort(parts);
    }
  }

  // ------------------------------------------------------------------ its steps

  lemma PartLines(part: Part)
    requires Regular(part)
    ensures Terminated(TextOf(part))
    ensures Newlines(TextOf(part)) == if part.Whole? then part.source.sourceLines else 1
    ensures Short(part) <==> part.Whole? ==> Lines(part.source.mappings) <= part.source.sourceLines
  {
  }

  lemma TextAppend(parts: seq<Part>, part: Part)
    ensures Text(parts + [part]) == Text(parts) + TextOf(part)
  {
    assert (parts + [part])[..|parts|] == parts;
  }

  lemma SaidAppend(parts: seq<Part>, part: Part)
    requires AllProper(parts + [part])
    ensures AllProper(parts) && Proper(part)
    ensures Said(parts + [part]) == Said(parts) + Share(part, Newlines(Text(parts)))
  {
    hide Proper, Share, Newlines;
    assert (parts + [part])[..|parts|] == parts && (parts + [part])[|parts|] == part;
    assert forall k :: 0 <= k < |parts| ==> parts[k] == (parts + [part])[k];
  }

  /** The mappings of a clean source are no longer than its content. */
  lemma CleanIsShort(s: Source)
    requires Clean(s)
    ensures Lines(s.mappings) <= s.sourceLines
  {
    hide Decode;
    DecodeLines(Fresh, s.mappings);
  }

  lemma ProperIsShort(parts: seq<Part>)
    requires AllProper(parts)
    ensures AllShort(parts)
  {
    forall k | 0 <= k < |parts| ensures Short(parts[k]) {
      assert Proper(parts[k]);
      if parts[k].Whole? { CleanIsShort(parts[k].source); }
    }
  }

  lemma ShortAppend(parts: seq<Part>, part: Part)
    ensures AllShort(parts + [part]) <==> AllShort(parts) && Short(part)
  {
    assert (parts + [part])[|parts|] == part;
    assert forall k :: 0 <= k < |parts| ==> parts[k] == (parts + [part])[k];
  }

  lemma NamesAppend(parts: seq<Part>, part: Part, names: seq<string>, names': seq<string>)
    requires Pooled(parts, names) && Joined(part, names, names')
    ensures Pooled(parts + [part], names') && |names| <= |names'|
  {
    var more := parts + [part];
    assert more[|parts|] == part;
    assert forall k :: 0 <= k < |parts| ==> parts[k] == more[k];
  }

  lemma TerminatedAppend(a: Bytes, b: Bytes)
    requires Terminated(a) && Terminated(b)
    ensures Terminated(a + b)
  {
  }

  // ------------------------------------------------------------- on the builder

  ghost function ProductOf(b: SourceMapBuilder): Product
    reads b, b.outputBuffer, b.outputBuffer.buffer, b.mappings, b.mappings.buffer
    requires b.Valid()
  {
    Product(b.outputBuffer.Contents(), b.mappings.Contents(), b.LastOf(), b.sources)
  }

  /** `addSource` or `addLine` after some others. */
  method AddPart(b: SourceMapBuilder, part: Part, ghost parts: seq<Part>) returns (ok: bool)
    requires b.Valid() && Built(parts, ProductOf(b)) && Regular(part)
    modifies b, b.outputBuffer, b.outputBuffer.buffer, b.mappings, b.mappings.buffer
    ensures b.Valid()
    ensures b.outputBuffer.buffer == old(b.outputBuffer.buffer) || fresh(b.outputBuffer.buffer)
    ensures b.mappings.buffer == old(b.mappings.buffer) || fresh(b.mappings.buffer)
    ensures ok <==> Readable(part)
    ensures ok ==> Built(parts + [part], ProductOf(b))
  {
    hide Built, Faithful, Meaning, Contribution, Clean, Lines, Regular, AllAccepted, SourceMapBuilder.Valid;
    ghost var o := ProductOf(b);
    match part {
      case Whole(s) =>
        ok := b.AddSource(s);
      case Line(text) =>
        b.AddLine(text);
        ok := true;
        LineAdds(text, o, ProductOf(b));
    }
    if ok {
      assert AddedPart(part, o, ProductOf(b));
      BuiltMore(parts, part, o, ProductOf(b));
    }
  }

  predicate Readable(part: Part)
  {
    part.Whole? ==> AllAccepted(part.source.mappings)
  }

  lemma LineAdds(text: Bytes, o: Product, o': Product)
    requires o'.output == o.output + text + [NEWLINE] && o'.mappings == o.mappings + [SEMICOLON]
    requires o'.last == o.last && o'.names == o.names
    ensures AddedPart(Line(text), o, o')
  {
    hide Faithful, Meaning;
    if Faithful(o.mappings, o.last, o.names) {
      MeaningKept(o.mappings, o.last, o.names);
    }
  }

  /** Any sequence of calls on a new builder. */
  method Concatenate(parts: seq<Part>) returns (ok: bool, output: Bytes, mappings: Bytes, names: seq<string>)
    requires AllRegular(parts)
    ensures ok <==> forall k :: 0 <= k < |parts| ==> Readable(parts[k])
    ensures ok ==> InLine(parts, output, mappings) && Pooled(parts, names)
    ensures ok && AllProper(parts) && |names| <= 0x4000_0000 ==>
      Finish(mappings).ok && Sourced(Finish(mappings).segs, |names|) && Meaning(mappings, names) == Said(parts)
  {
    hide Built, Regular, Readable, SourceMapBuilder.Valid;
    var b := new SourceMapBuilder();
    NothingBuilt();
    ok, output, mappings, names := true, [], [], [];
    var k := 0;
    while k < |parts|
      invariant b.Valid() && fresh(b) && fresh(b.outputBuffer) && fresh(b.mappings)
      invariant fresh(b.outputBuffer.buffer) && fresh(b.mappings.buffer)
      invariant 0 <= k <= |parts| && Built(parts[..k], ProductOf(b))
      invariant forall i :: 0 <= i < k ==> Readable(parts[i])
    {
      assert parts[..k + 1] == parts[..k] + [parts[k]];
      ok := AddPart(b, parts[k], parts[..k]);
      if !ok {
        return;
      }
      k := k + 1;
    }
    ok := true;
    assert parts[..|parts|] == parts;
    output := b.ToContent();
    names, mappings := b.ToSourceMap();
    BuiltMeans(parts, ProductOf(b));
  }

  lemma BuiltMeans(parts: seq<Part>, o: Product)
    requires Built(parts, o)
    ensures InLine(parts, o.output, o.mappings) && Pooled(parts, o.names)
    ensures AllProper(parts) && |o.names| <= 0x4000_0000 ==>
      && Finish(o.mappings).ok && Sourced(Finish(o.mappings).segs, |o.names|)
      && Meaning(o.mappings, o.names) == Said(parts)
  {
    hide Decode, Said, AllProper, InLine;
  }
}
