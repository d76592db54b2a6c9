/** Module ids: the rewriting of '.' and '..' by repeated pattern replacement is a
    walk over the segments with a stack. */
module ModuleIds {
  // ------------------------------------------------------------------ segments

  function Split(s: string): (segs: seq<string>)
    ensures |segs| >= 1
  {
    if s == "" then [""] else Prepend(s[0], Split(s[1..]))
  }

  /** One more character in front. */
  function Prepend(c: char, segs: seq<string>): (r: seq<string>)
    requires |segs| >= 1
    ensures |r| >= 1
  {
    if c == '/' then [""] + segs else [[c] + segs[0]] + segs[1..]
  }

  lemma PrependAppend(c: char, a: seq<string>, b: seq<string>)
    requires |a| >= 1
    ensures Prepend(c, a + b) == Prepend(c, a) + b
  {
    assert (a + b)[1..] == a[1..] + b;
  }

  function Join(segs: seq<string>): string
    requires |segs| >= 1
  {
    if |segs| == 1 then segs[0] else segs[0] + "/" + Join(segs[1..])
  }

  predicate SlashFree(segs: seq<string>)
  {
    forall k :: 0 <= k < |segs| ==> '/' !in segs[k]
  }

  lemma {:induction false} SplitSlash(a: string, b: string)
    ensures Split(a + "/" + b) == Split(a) + Split(b)
    decreases |a|
  {
    if a == "" {
      assert (a + "/" + b)[1..] == b;
    } else {
      var s := a + "/" + b;
      assert s[0] == a[0] && s[1..] == a[1..] + "/" + b;
      SplitSlash(a[1..], b);
      PrependAppend(a[0], Split(a[1..]), Split(b));
      hide Prepend;
    }
  }

  lemma {:induction false} SplitPlain(x: string)
    requires '/' !in x
    ensures Split(x) == [x]
    decreases |x|
  {
    if x != "" {
      SplitPlain(x[1..]);
      assert [x[0]] + x[1..] == x;
    }
  }

  lemma {:induction false} JoinSplit(s: string)
    ensures Join(Split(s)) == s && SlashFree(Split(s))
    decreases |s|
  {
    if s != "" {
      JoinSplit(s[1..]);
      JoinPrepend(s[0], Split(s[1..]));
      PrependSlashFree(s[0], Split(s[1..]));
      assert s == [s[0]] + s[1..];
      hide Join, Prepend;
    }
  }

  lemma JoinPrepend(c: char, segs: seq<string>)
    requires |segs| >= 1
    ensures Join(Prepend(c, segs)) == [c] + Join(segs)
  {
    hide Join;
    if c == '/' {
      JoinFirst("", segs);
    } else {
      JoinGlued(c, segs);
    }
  }

  lemma JoinGlued(c: char, segs: seq<string>)
    requires |segs| >= 1
    ensures Join([[c] + segs[0]] + segs[1..]) == [c] + Join(segs)
  {
    if |segs| > 1 {
      JoinLonger(c, segs[0], segs[1..]);
      hide Join;
      assert [segs[0]] + segs[1..] == segs;
    }
  }

  lemma JoinLonger(c: char, x: string, segs: seq<string>)
    requires |segs| >= 1
    ensures Join([[c] + x] + segs) == [c] + Join([x] + segs)
  {
    hide Join;
    JoinFirst([c] + x, segs);
    JoinFirst(x, segs);
    Regroup([c], x, "/");
    Regroup([c], x + "/", Join(segs));
  }

  lemma Regroup(a: string, b: string, c: string)
    ensures (a + b) + c == a + (b + c)
  {
  }

  lemma JoinFirst(x: string, segs: seq<string>)
    requires |segs| >= 1
    ensures Join([x] + segs) == x + "/" + Join(segs)
  {
    assert ([x] + segs)[1..] == segs;
  }

  lemma PrependSlashFree(c: char, segs: seq<string>)
    requires |segs| >= 1 && SlashFree(segs)
    ensures SlashFree(Prepend(c, segs))
  {
  }

  lemma {:induction false} SplitJoin(segs: seq<string>)
    requires |segs| >= 1 && SlashFree(segs)
    ensures Split(Join(segs)) == segs
    decreases |segs|
  {
    SplitPlain(segs[0]);
    if |segs| > 1 {
      SplitJoin(segs[1..]);
      SplitSlash(segs[0], Join(segs[1..]));
    }
  }

  lemma {:induction false} JoinAppend(a: seq<string>, b: seq<string>)
    requires |a| >= 1 && |b| >= 1
    ensures Join(a + b) == Join(a) + "/" + Join(b)
    decreases |a|
  {
    if |a| == 1 {
      assert (a + b)[1..] == b;
    } else {
      JoinAppend(a[1..], b);
      assert (a + b)[1..] == a[1..] + b;
    }
  }

  // ----------------------------------------------------------------- the stack

  /** A segment that '..' takes back. */
  predicate Poppable(x: string)
  {
    x != "" && x != ".."
  }

  function Push(stack: seq<string>, x: string): seq<string>
  {
    if x == "." then stack
    else if x == ".." && stack != [] && Poppable(stack[|stack| - 1]) then stack[..|stack| - 1]
    else stack + [x]
  }

  function PushAll(stack: seq<string>, segs: seq<string>): seq<string>
    decreases |segs|
  {
    if segs == [] then stack else PushAll(Push(stack, segs[0]), segs[1..])
  }

  function Front(segs: seq<string>): seq<string>
    requires |segs| >= 1
  {
    segs[..|segs| - 1]
  }

  /** '.' and '..' resolved in all segments but the last, which stays as it is. */
  function Resolved(segs: seq<string>): (r: seq<string>)
    requires |segs| >= 1
    ensures |r| >= 1
  {
    PushAll([], Front(segs)) + [segs[|segs| - 1]]
  }

  lemma {:induction false} PushAllAppend(stack: seq<string>, a: seq<string>, b: seq<string>)
    ensures PushAll(stack, a + b) == PushAll(PushAll(stack, a), b)
    decreases |a|
  {
    if a == [] {
      assert a + b == b;
    } else {
      assert (a + b)[1..] == a[1..] + b;
      PushAllAppend(Push(stack, a[0]), a[1..], b);
    }
  }

  /** Dropping a '.' changes nothing. */
  lemma DropDot(a: seq<string>, b: seq<string>)
    requires |b| >= 1
    ensures Resolved(a + ["."] + b) == Resolved(a + b)
  {
    assert Front(a + ["."] + b) == a + (["."] + Front(b));
    assert Front(a + b) == a + Front(b);
    PushAllAppend([], a, ["."] + Front(b));
    PushAllAppend([], a, Front(b));
    assert (["."] + Front(b))[1..] == Front(b);
  }

  /** Neither does dropping a segment with the '..' that takes it back. */
  lemma DropPair(a: seq<string>, x: string, b: seq<string>)
    requires |b| >= 1 && Poppable(x) && x != "."
    ensures Resolved(a + [x, ".."] + b) == Resolved(a + b)
  {
    hide PushAll;
    var st, tail := PushAll([], a), Front(b);
    PairTaken(st, x, tail);
    assert Front(a + [x, ".."] + b) == a + ([x, ".."] + tail);
    assert Front(a + b) == a + tail;
    PushAllAppend([], a, [x, ".."] + tail);
    PushAllAppend([], a, tail);
  }

  lemma PairTaken(stack: seq<string>, x: string, segs: seq<string>)
    requires Poppable(x) && x != "."
    ensures PushAll(stack, [x, ".."] + segs) == PushAll(stack, segs)
  {
    assert ([x, ".."] + segs)[1..] == [".."] + segs;
    assert ([".."] + segs)[1..] == segs;
    assert Push(stack + [x], "..") == stack;
  }

  /** Nothing is left to resolve before the last segment. */
  ghost predicate Normal(segs: seq<string>)
    requires |segs| >= 1
  {
    && (forall k :: 0 <= k < |segs| - 1 ==> segs[k] != ".")
    && (forall k :: 0 <= k < |segs| - 2 && segs[k + 1] == ".." ==> !Poppable(segs[k]))
  }

  lemma {:induction false} PushNormal(stack: seq<string>, segs: seq<string>)
    requires Normal(stack + segs + [""])
    ensures PushAll(stack, segs) == stack + segs
    decreases |segs|
  {
    if segs != [] {
      var all := stack + segs + [""];
      assert all[|stack|] == segs[0];
      assert segs[0] == ".." && stack != [] ==> !Poppable(all[|stack| - 1]);
      assert stack + [segs[0]] + segs[1..] == stack + segs;
      PushNormal(stack + [segs[0]], segs[1..]);
    }
  }

  lemma NormalIsResolved(segs: seq<string>)
    requires |segs| >= 1 && Normal(segs)
    ensures Resolved(segs) == segs
  {
    assert [] + Front(segs) + [""] == Front(segs) + [""];
    assert forall k :: 0 <= k < |segs| - 1 ==> (Front(segs) + [""])[k] == segs[k];
    PushNormal([], Front(segs));
    assert [] + Front(segs) == Front(segs);
  }

  lemma {:induction false} ResolvedIsNormal(segs: seq<string>)
    requires |segs| >= 1
    ensures Normal(Resolved(segs))
  {
    PushAllNormal([], Front(segs));
    var st := PushAll([], Front(segs));
    assert forall k :: 0 <= k < |st| ==> Resolved(segs)[k] == (st + [""])[k];
  }

  lemma {:induction false} PushAllNormal(stack: seq<string>, segs: seq<string>)
    requires Normal(stack + [""])
    ensures Normal(PushAll(stack, segs) + [""])
    decreases |segs|
  {
    if segs != [] {
      var st := Push(stack, segs[0]);
      assert forall k :: 0 <= k < |st| && k < |stack| ==> (st + [""])[k] == (stack + [""])[k];
      PushAllNormal(st, segs[1..]);
    }
  }

  lemma {:induction false} PushAllSlashFree(stack: seq<string>, segs: seq<string>)
    requires SlashFree(stack) && SlashFree(segs)
    ensures SlashFree(PushAll(stack, segs))
    decreases |segs|
  {
    if segs != [] { PushAllSlashFree(Push(stack, segs[0]), segs[1..]); }
  }

  // -------------------------------------------------------------- the patterns

  /** The group of the patterns, alternative by alternative. */
  predicate Group(x: string)
  {
    || (|x| == 1 && x[0] != '/')
    || (|x| == 2 && x[0] != '/' && x[1] != '/' && x[1] != '.')
    || (|x| == 2 && x[0] != '/' && x[0] != '.' && x[1] != '/')
    || (|x| >= 3 && '/' !in x)
  }

  lemma GroupIsPoppable(x: string)
    ensures Group(x) <==> '/' !in x && Poppable(x)
  {
    if |x| == 1 { assert x == [x[0]]; }
    if |x| == 2 { assert x == [x[0], x[1]]; }
  }

  predicate DotAt(r: string, i: int)
  {
    0 <= i && i + 3 <= |r| && r[i..i + 3] == "/./"
  }

  /** A slash at i, then the group up to j, then a way up. */
  predicate UpAt(r: string, i: int, j: int)
  {
    0 <= i < j && j + 4 <= |r| && r[i] == '/' && Group(r[i + 1..j]) && r[j..j + 4] == "/../"
  }

  /** The same without the slash, at the start. */
  predicate HeadUp(r: string, j: int)
  {
    0 <= j && j + 4 <= |r| && Group(r[..j]) && r[j..j + 4] == "/../"
  }

  /** No '.' before the last segment, the first one perhaps excepted. */
  predicate NoDots(segs: seq<string>, first: int)
  {
    forall k :: first <= k < |segs| - 1 && 0 <= k ==> segs[k] != "."
  }

  lemma CutDot(r: string, i: int)
    requires DotAt(r, i)
    ensures Resolved(Split(r[..i + 1] + r[i + 3..])) == Resolved(Split(r))
  {
    hide Split, Resolved;
    var pre, post := r[..i], r[i + 3..];
    assert r[i..i + 3][0] == r[i] && r[i..i + 3][1] == r[i + 1] && r[i..i + 3][2] == r[i + 2];
    assert r == pre + "/" + ("." + "/" + post);
    assert r[..i + 1] + post == pre + "/" + post;
    SplitSlash(pre, "." + "/" + post);
    SplitSlash(".", post);
    SplitSlash(pre, post);
    SplitPlain(".");
    assert Split(pre) + (["."] + Split(post)) == Split(pre) + ["."] + Split(post);
    DropDot(Split(pre), Split(post));
  }

  lemma CutHeadDot(r: string)
    requires |r| >= 2 && r[..2] == "./"
    ensures Resolved(Split(r[2..])) == Resolved(Split(r)) && Split(r) == ["."] + Split(r[2..])
  {
    hide Split, Resolved;
    assert r == "." + "/" + r[2..];
    SplitSlash(".", r[2..]);
    SplitPlain(".");
    DropDot([], Split(r[2..]));
    assert [] + ["."] + Split(r[2..]) == ["."] + Split(r[2..]);
    assert [] + Split(r[2..]) == Split(r[2..]);
  }

  lemma CutUp(r: string, i: int, j: int)
    requires UpAt(r, i, j) && NoDots(Split(r), 0)
    ensures var r' := r[..i + 1] + r[j + 4..];
      Resolved(Split(r')) == Resolved(Split(r)) && NoDots(Split(r'), 0)
  {
    hide Split, Resolved;
    var pre, x, post := r[..i], r[i + 1..j], r[j + 4..];
    UpParts(r, i, j);
    GroupIsPoppable(x);
    SplitSlash(pre, x + "/" + (".." + "/" + post));
    SplitSlash(x, ".." + "/" + post);
    SplitSlash("..", post);
    SplitSlash(pre, post);
    SplitPlain(x);
    SplitPlain("..");
    var a, b := Split(pre), Split(post);
    assert a + ([x] + ([".."] + b)) == a + [x, ".."] + b;
    assert (a + [x, ".."] + b)[|a|] == x;
    DropPair(a, x, b);
    forall k | 0 <= k < |a + b| - 1 ensures (a + b)[k] != "." {
      assert (a + b)[k] == (a + [x, ".."] + b)[if k < |a| then k else k + 2];
    }
  }

  lemma UpParts(r: string, i: int, j: int)
    requires UpAt(r, i, j)
    ensures r == r[..i] + "/" + (r[i + 1..j] + "/" + (".." + "/" + r[j + 4..]))
    ensures r[..i + 1] + r[j + 4..] == r[..i] + "/" + r[j + 4..]
  {
    var up := r[j..j + 4];
    assert up[0] == r[j] && up[1] == r[j + 1] && up[2] == r[j + 2] && up[3] == r[j + 3];
    assert r[j..] == "/" + (".." + "/" + r[j + 4..]);
    assert r[i + 1..] == r[i + 1..j] + r[j..];
  }

  lemma CutHeadUp(r: string, j: int)
    requires HeadUp(r, j) && NoDots(Split(r), 0)
    ensures Resolved(Split(r[j + 4..])) == Resolved(Split(r)) && Split(r) == [r[..j], ".."] + Split(r[j + 4..])
  {
    var x, b := r[..j], Split(r[j + 4..]);
    HeadUpParts(r, j);
    GroupIsPoppable(x);
    SplitSlash(x, ".." + "/" + r[j + 4..]);
    SplitSlash("..", r[j + 4..]);
    SplitPlain(x);
    SplitPlain("..");
    hide Split, Resolved, HeadUp, Group;
    DropFirstPair(x, b, Split(r));
  }

  lemma DropFirstPair(x: string, b: seq<string>, segs: seq<string>)
    requires |b| >= 1 && segs == [x] + ([".."] + b) && NoDots(segs, 0) && Poppable(x)
    ensures Resolved(segs) == Resolved(b) && segs == [x, ".."] + b
  {
    hide Resolved;
    assert segs[0] == x;
    DropPair([], x, b);
    assert [] + [x, ".."] + b == segs && [] + b == b;
  }

  lemma HeadUpParts(r: string, j: int)
    requires HeadUp(r, j)
    ensures r == r[..j] + "/" + (".." + "/" + r[j + 4..])
  {
    var up := r[j..j + 4];
    assert up[0] == r[j] && up[1] == r[j + 1] && up[2] == r[j + 2] && up[3] == r[j + 3];
  }

  /** Where segment k starts. */
  lemma Around(r: string, k: int)
    requires 0 < k < |Split(r)|
    ensures var a := Join(Split(r)[..k]); r == a + "/" + Join(Split(r)[k..])
  {
    hide Split;
    JoinSplit(r);
    JoinAppend(Split(r)[..k], Split(r)[k..]);
    assert Split(r)[..k] + Split(r)[k..] == Split(r);
  }

  lemma NoDotLeft(r: string)
    requires forall i :: !DotAt(r, i)
    ensures NoDots(Split(r), 1)
  {
    hide Split;
    var segs := Split(r);
    forall k | 1 <= k < |segs| - 1 ensures segs[k] != "." {
      Around(r, k);
      var a, b := Join(segs[..k]), segs[k + 1..];
      assert segs[k..] == [segs[k]] + b;
      JoinAppend([segs[k]], b);
      DotFound(a, segs[k], Join(b));
    }
  }

  lemma DotFound(a: string, x: string, b: string)
    ensures x == "." ==> DotAt(a + "/" + (x + "/" + b), |a|)
  {
    var r := a + "/" + (x + "/" + b);
    if x == "." { assert r[|a|..|a| + 3] == "/./"; }
  }

  lemma NoUpLeft(r: string)
    requires forall i, j :: !UpAt(r, i, j)
    ensures forall k :: 1 <= k < |Split(r)| - 2 && Split(r)[k + 1] == ".." ==> !Poppable(Split(r)[k])
  {
    hide Split;
    var segs := Split(r);
    JoinSplit(r);
    forall k | 1 <= k < |segs| - 2 && segs[k + 1] == ".." ensures !Poppable(segs[k]) {
      Around(r, k);
      var a, x, b := Join(segs[..k]), segs[k], segs[k + 2..];
      UpFirst(segs[k..]);
      assert segs[k..][2..] == b;
      var i, j := |a|, |a| + 1 + |x|;
      assert r == a + "/" + (x + "/" + (".." + "/" + Join(b)));
      GroupIsPoppable(x);
      assert r[i + 1..j] == x && r[j..j + 4] == "/../";
      assert !UpAt(r, i, j);
    }
  }

  lemma UpFirst(segs: seq<string>)
    requires |segs| >= 3 && segs[1] == ".."
    ensures Join(segs) == segs[0] + "/" + (".." + "/" + Join(segs[2..]))
  {
    assert segs[1..][1..] == segs[2..];
  }

  lemma NoHeadUpLeft(r: string)
    requires forall j :: !HeadUp(r, j)
    ensures |Split(r)| >= 3 && Split(r)[1] == ".." ==> !Poppable(Split(r)[0])
  {
    hide Split;
    var segs := Split(r);
    JoinSplit(r);
    if |segs| >= 3 && segs[1] == ".." {
      UpFirst(segs);
      var x := segs[0];
      GroupIsPoppable(x);
      assert r[..|x|] == x && r[|x|..|x| + 4] == "/../";
      assert !HeadUp(r, |x|);
    }
  }

  lemma HeadDot(r: string)
    requires NoDots(Split(r), 1)
    ensures |r| >= 2 && r[..2] == "./" ==> NoDots(Split(r[2..]), 0)
    ensures !(|r| >= 2 && r[..2] == "./") ==> NoDots(Split(r), 0)
  {
    hide Split;
    if |r| >= 2 && r[..2] == "./" {
      CutHeadDot(r);
      ShiftNoDots(Split(r), Split(r[2..]));
    } else if |Split(r)| >= 2 {
      FirstDot(r);
    }
  }

  lemma ShiftNoDots(segs: seq<string>, rest: seq<string>)
    requires segs == ["."] + rest && NoDots(segs, 1)
    ensures NoDots(rest, 0)
  {
    assert forall k :: 0 <= k < |rest| ==> rest[k] == segs[k + 1];
  }

  lemma FirstDot(r: string)
    requires |Split(r)| >= 2
    ensures Split(r)[0] == "." ==> |r| >= 2 && r[..2] == "./"
  {
    hide Split;
    Around(r, 1);
    assert Split(r)[..1] == [Split(r)[0]];
  }

  // ---------------------------------------------------------------- the methods

  /** The first match of /./ in r, or -1. */
  method FindDot(r: string) returns (i: int)
    ensures i == -1 ==> forall k :: !DotAt(r, k)
    ensures i != -1 ==> DotAt(r, i) && forall k :: k < i ==> !DotAt(r, k)
  {
    i := 0;
    while i + 3 <= |r|
      invariant 0 <= i && forall k :: k < i ==> !DotAt(r, k)
    {
      if r[i..i + 3] == "/./" { return; }
      i := i + 1;
    }
    i := -1;
  }

  /** The end of the group starting at i, if it is followed by a way up, or -1. */
  method GroupEnd(r: string, i: int) returns (j: int)
    requires 0 <= i <= |r|
    ensures j == -1 ==> forall k :: i <= k && k + 4 <= |r| && r[k..k + 4] == "/../" ==> !Group(r[i..k])
    ensures j != -1 ==> i <= j && j + 4 <= |r| && r[j..j + 4] == "/../" && Group(r[i..j])
  {
    j := i;
    while j < |r| && r[j] != '/'
      invariant i <= j <= |r| && forall m :: i <= m < j ==> r[m] != '/'
    {
      j := j + 1;
    }
    forall k | i <= k && k + 4 <= |r| && r[k..k + 4] == "/../" && k != j ensures !Group(r[i..k]) {
      assert r[k] == r[k..k + 4][0];
      assert forall m :: i <= m < k ==> r[m] in r[i..k];
      GroupIsPoppable(r[i..k]);
    }
    if j + 4 > |r| || r[j..j + 4] != "/../" || !Group(r[i..j]) {
      j := -1;
    }
  }

  /** The first match of a slash, a group and a way up, or -1. */
  method FindUp(r: string) returns (i: int, j: int)
    ensures i == -1 ==> forall k, l :: !UpAt(r, k, l)
    ensures i != -1 ==> UpAt(r, i, j) && forall k, l :: k < i ==> !UpAt(r, k, l)
  {
    i, j := 0, -1;
    while i < |r|
      invariant 0 <= i && forall k, l :: k < i ==> !UpAt(r, k, l)
    {
      if r[i] == '/' {
        j := GroupEnd(r, i + 1);
        if j != -1 { return; }
      }
      i := i + 1;
    }
    i := -1;
  }

  method NormalizeModuleId(moduleId: string) returns (r: string)
    ensures r == Join(Resolved(Split(moduleId)))
  {
    hide Resolved, Split, Join;
    r := moduleId;
    var i := FindDot(r);
    while i != -1
      invariant Resolved(Split(r)) == Resolved(Split(moduleId))
      invariant i == -1 ==> forall k :: !DotAt(r, k)
      invariant i != -1 ==> DotAt(r, i)
      decreases |r|, i != -1
    {
      CutDot(r, i);
      r := r[..i + 1] + r[i + 3..];
      i := FindDot(r);
    }
    NoDotLeft(r);
    HeadDot(r);
    if |r| >= 2 && r[..2] == "./" {
      CutHeadDot(r);
      r := r[2..];
    }
    var j;
    i, j := FindUp(r);
    while i != -1
      invariant Resolved(Split(r)) == Resolved(Split(moduleId)) && NoDots(Split(r), 0)
      invariant i == -1 ==> forall k, l :: !UpAt(r, k, l)
      invariant i != -1 ==> UpAt(r, i, j)
      decreases |r|, i != -1
    {
      CutUp(r, i, j);
      r := r[..i + 1] + r[j + 4..];
      i, j := FindUp(r);
    }
    NoUpLeft(r);
    j := GroupEnd(r, 0);
    if j != -1 {
      assert r[0..j] == r[..j];
      CutHeadUp(r, j);
      TailNormal(Split(r));
      r := r[j + 4..];
    } else {
      forall l ensures !HeadUp(r, l) {
        if 0 <= l && l + 4 <= |r| { assert r[0..l] == r[..l]; }
      }
      NoHeadUpLeft(r);
      assert Normal(Split(r));
    }
    NormalIsResolved(Split(r));
    JoinSplit(r);
  }

  lemma TailNormal(segs: seq<string>)
    requires |segs| >= 3 && NoDots(segs, 0)
    requires forall k :: 1 <= k < |segs| - 2 && segs[k + 1] == ".." ==> !Poppable(segs[k])
    ensures Normal(segs[2..])
  {
    assert forall k :: 0 <= k < |segs| - 2 ==> segs[2..][k] == segs[k + 2];
  }

  // ---------------------------------------------------------------- what it means

  /** What `_normalizeModuleId` makes of an id. */
  function Normalized(id: string): string
  {
    Join(Resolved(Split(id)))
  }

  lemma SplitNormalized(id: string)
    ensures Split(Normalized(id)) == Resolved(Split(id))
  {
    JoinSplit(id);
    PushAllSlashFree([], Front(Split(id)));
    SplitJoin(Resolved(Split(id)));
  }

  lemma NormalizedIsIdempotent(id: string)
    ensures Normalized(Normalized(id)) == Normalized(id)
  {
    SplitNormalized(id);
    ResolvedIsNormal(Split(id));
    NormalIsResolved(Resolved(Split(id)));
  }

  /** In a normalized id, ways up stand only at the front, or below an empty segment;
      the last segment is the one of the id. */
  lemma {:induction false} WaysUpInFront(id: string, k: int, l: int)
    requires 0 <= l <= k < |Split(Normalized(id))| - 1 && Split(Normalized(id))[k] == ".."
    requires forall i :: 0 <= i < k ==> Split(Normalized(id))[i] != ""
    ensures Split(Normalized(id))[l] == ".."
    decreases k - l
  {
    SplitNormalized(id);
    ResolvedIsNormal(Split(id));
    if l < k { WaysUpInFront(id, k, l + 1); }
  }

  /** The last segment is never resolved: the result is that of the stack over all
      segments exactly when the last one is no '.' and takes nothing back. */
  lemma FullyResolved(segs: seq<string>)
    requires |segs| >= 1
    ensures var stack, e := PushAll([], Front(segs)), segs[|segs| - 1];
      Resolved(segs) == PushAll([], segs) <==>
        e != "." && (e == ".." && stack != [] ==> !Poppable(stack[|stack| - 1]))
  {
    var stack, e := PushAll([], Front(segs)), segs[|segs| - 1];
    assert Front(segs) + [e] == segs;
    PushAllAppend([], Front(segs), [e]);
    assert [e][1..] == [];
    assert PushAll([], segs) == Push(stack, e);
    if PushAll([], segs) == Resolved(segs) {
      assert |Push(stack, e)| == |stack| + 1;
    }
  }

  // -------------------------------------------------------------- the resolver

  predicate StartsWith(haystack: string, needle: string)
  {
    |haystack| >= |needle| && haystack[..|needle|] == needle
  }

  predicate Absolute(id: string)
  {
    StartsWith(id, "http://") || StartsWith(id, "https://") || StartsWith(id, "file://") || StartsWith(id, "/")
  }

  /** Relative ids start with './' or '../'. */
  predicate Relative(id: string)
  {
    StartsWith(id, "./") || StartsWith(id, "../")
  }

  lemma RelativeIsNotAbsolute(id: string)
    ensures !(Relative(id) && Absolute(id))
  {
    if id != "" {
      assert id[0] == '.' <== Relative(id) by {
        if StartsWith(id, "./") { assert id[..2][0] == id[0]; }
        if StartsWith(id, "../") { assert id[..3][0] == id[0]; }
      }
      assert Absolute(id) ==> id[0] != '.' by {
        if StartsWith(id, "http://") { assert id[..7][0] == id[0]; }
        if StartsWith(id, "https://") { assert id[..8][0] == id[0]; }
        if StartsWith(id, "file://") { assert id[..7][0] == id[0]; }
        if StartsWith(id, "/") { assert id[..1][0] == id[0]; }
      }
    }
  }

  class ModuleIdResolver {
    const fromModulePath: string

    /** The id of the module up to its last slash. */
    constructor (fromModuleId: string)
      ensures fromModulePath == PathOf(fromModuleId)
    {
      var lastSlash := |fromModuleId| - 1;
      while lastSlash >= 0 && fromModuleId[lastSlash] != '/'
        invariant -1 <= lastSlash < |fromModuleId|
        invariant '/' !in fromModuleId[lastSlash + 1..]
      {
        lastSlash := lastSlash - 1;
      }
      LastSlash(fromModuleId, lastSlash);
      fromModulePath := if lastSlash != -1 then fromModuleId[..lastSlash + 1] else "";
    }

    /** A relative id is resolved segment by segment from the directory of the
        module; any other id stays. */
    method ResolveModule(moduleId: string) returns (result: string)
      ensures !Relative(moduleId) ==> result == moduleId
      ensures Relative(moduleId) ==> result == Normalized(fromModulePath + moduleId)
    {
      result := moduleId;
      RelativeIsNotAbsolute(moduleId);
      if !Absolute(result) {
        if StartsWith(result, "./") || StartsWith(result, "../") {
          result := NormalizeModuleId(fromModulePath + result);
        }
      }
    }
  }

  /** The segments of a module's directory, each followed by a slash. */
  function PathOf(id: string): string
  {
    if Front(Split(id)) == [] then "" else Join(Front(Split(id))) + "/"
  }

  lemma LastSlash(id: string, lastSlash: int)
    requires -1 <= lastSlash < |id| && '/' !in id[lastSlash + 1..] && (lastSlash >= 0 ==> id[lastSlash] == '/')
    ensures PathOf(id) == if lastSlash != -1 then id[..lastSlash + 1] else ""
  {
    var e := id[lastSlash + 1..];
    SplitPlain(e);
    if lastSlash == -1 {
      assert e == id;
    } else {
      var a := id[..lastSlash];
      assert id == a + "/" + e && id[..lastSlash + 1] == a + "/";
      SplitSlash(a, e);
      assert Front(Split(id)) == Split(a);
      JoinSplit(a);
    }
  }

  /** Resolving from a module is walking from its directory. */
  lemma ResolvedFromDirectory(from: string, id: string)
    ensures Split(Normalized(PathOf(from) + id)) == PushAll(PushAll([], Front(Split(from))),
        Front(Split(id))) + [Split(id)[|Split(id)| - 1]]
  {
    hide Split, Normalized, PushAll;
    var dir := Front(Split(from));
    SplitNormalized(PathOf(from) + id);
    JoinSplit(from);
    if dir == [] {
      assert PathOf(from) + id == id;
    } else {
      SplitJoin(dir);
      assert PathOf(from) + id == Join(dir) + "/" + id;
      SplitSlash(Join(dir), id);
    }
    assert Split(PathOf(from) + id) == dir + Split(id);
    FrontAppend(dir, Split(id));
    PushAllAppend([], dir, Front(Split(id)));
  }

  lemma FrontAppend(a: seq<string>, b: seq<string>)
    requires |b| >= 1
    ensures Front(a + b) == a + Front(b) && (a + b)[|a + b| - 1] == b[|b| - 1]
  {
  }
}
