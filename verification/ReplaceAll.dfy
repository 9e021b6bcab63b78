/** Replace-all as anchored edits (src/patch.rs, `anchored_replace_all`): each occurrence becomes
    an edit, grown by whole lines until a search finds it only where it is to land. */
module ReplaceAll {
  import opened Wrappers
  import opened Spans
  import opened Lines
  import opened Utf8
  import opened Synth

  /** What a one-pass, left-to-right replace-all of the text from `at` on yields. */
  function OnePass(t: Text, oldStr: Text, newStr: Text, at: nat): Text
    requires oldStr != [] && at <= |t|
    decreases |t| - at
  {
    if at + |oldStr| > |t| then t[at..]
    else if OccursAt(t, oldStr, at) then newStr + OnePass(t, oldStr, newStr, at + |oldStr|)
    else [t[at]] + OnePass(t, oldStr, newStr, at + 1)
  }

  /** The non-overlapping occurrences it meets, left to right. */
  function Starts(t: Text, oldStr: Text, at: nat): (r: seq<nat>)
    requires oldStr != []
    decreases |t| - at
  {
    if at + |oldStr| > |t| then []
    else if OccursAt(t, oldStr, at) then [at] + Starts(t, oldStr, at + |oldStr|)
    else Starts(t, oldStr, at + 1)
  }

  method FindStarts(t: Text, oldStr: Text) returns (starts: seq<nat>)
    requires oldStr != []
    ensures starts == Starts(t, oldStr, 0)
  {
    starts := [];
    var at := 0;
    while at + |oldStr| <= |t|
      invariant starts + Starts(t, oldStr, at) == Starts(t, oldStr, 0)
      decreases |t| - at
    {
      if OccursAt(t, oldStr, at) {
        assert starts + ([at] + Starts(t, oldStr, at + |oldStr|)) == starts + [at] + Starts(t, oldStr, at + |oldStr|);
        starts := starts + [at];
        at := at + |oldStr|;
      } else {
        at := at + 1;
      }
    }
  }

  /** Up to the next occurrence nothing changes; after the last, nothing at all. */
  ghost predicate NextIs(t: Text, oldStr: Text, newStr: Text, at: nat, starts: seq<nat>)
    requires oldStr != [] && at <= |t|
  {
    if starts == [] then OnePass(t, oldStr, newStr, at) == t[at..]
    else NextAt(t, oldStr, newStr, at, starts[0]) && starts[1..] == Starts(t, oldStr, starts[0] + |oldStr|)
  }

  ghost predicate NextAt(t: Text, oldStr: Text, newStr: Text, at: nat, x: nat)
    requires oldStr != [] && at <= |t|
  {
    at <= x && OccursAt(t, oldStr, x)
    && OnePass(t, oldStr, newStr, at) == t[at..x] + newStr + OnePass(t, oldStr, newStr, x + |oldStr|)
  }

  lemma SkipsOne(t: Text, oldStr: Text, newStr: Text, at: nat)
    requires oldStr != [] && at + |oldStr| <= |t| && !OccursAt(t, oldStr, at)
    ensures OnePass(t, oldStr, newStr, at) == [t[at]] + OnePass(t, oldStr, newStr, at + 1)
    ensures Starts(t, oldStr, at) == Starts(t, oldStr, at + 1)
  {
  }

  lemma HitUnfolds(t: Text, oldStr: Text, newStr: Text, at: nat)
    requires oldStr != [] && OccursAt(t, oldStr, at)
    ensures OnePass(t, oldStr, newStr, at) == newStr + OnePass(t, oldStr, newStr, at + |oldStr|)
    ensures Starts(t, oldStr, at) == [at] + Starts(t, oldStr, at + |oldStr|)
  {
  }

  lemma HitsHere(t: Text, oldStr: Text, newStr: Text, at: nat)
    requires oldStr != [] && OccursAt(t, oldStr, at)
    ensures NextIs(t, oldStr, newStr, at, Starts(t, oldStr, at))
  {
    HitUnfolds(t, oldStr, newStr, at);
    EmptyGap(t, at, newStr, OnePass(t, oldStr, newStr, at + |oldStr|));
    HeadTail(at, Starts(t, oldStr, at + |oldStr|));
  }

  lemma EmptyGap(t: Text, at: nat, newStr: Text, rest: Text)
    requires at <= |t|
    ensures t[at..at] + newStr + rest == newStr + rest
  {
    assert t[at..at] + newStr == newStr;
  }

  lemma HeadTail(x: nat, rest: seq<nat>)
    ensures ([x] + rest)[0] == x && ([x] + rest)[1..] == rest
  {
  }

  lemma GapGrows(t: Text, at: nat, x: nat, newStr: Text, rest: Text)
    requires at < x <= |t|
    ensures [t[at]] + (t[at + 1..x] + newStr + rest) == t[at..x] + newStr + rest
  {
    assert t[at..x] == [t[at]] + t[at + 1..x];
  }

  lemma NextAfterSkip(t: Text, oldStr: Text, newStr: Text, at: nat, starts: seq<nat>)
    requires oldStr != [] && at < |t| && NextIs(t, oldStr, newStr, at + 1, starts)
    requires OnePass(t, oldStr, newStr, at) == [t[at]] + OnePass(t, oldStr, newStr, at + 1)
    ensures NextIs(t, oldStr, newStr, at, starts)
  {
    if starts == [] {
      assert t[at..] == [t[at]] + t[at + 1..];
    } else {
      GapGrows(t, at, starts[0], newStr, OnePass(t, oldStr, newStr, starts[0] + |oldStr|));
    }
  }

  lemma {:induction false} NextStart(t: Text, oldStr: Text, newStr: Text, at: nat)
    requires oldStr != [] && at <= |t|
    ensures NextIs(t, oldStr, newStr, at, Starts(t, oldStr, at))
    decreases |t| - at
  {
    if at + |oldStr| > |t| {
      assert Starts(t, oldStr, at) == [];
    } else if OccursAt(t, oldStr, at) {
      HitsHere(t, oldStr, newStr, at);
    } else {
      NextStart(t, oldStr, newStr, at + 1);
      SkipsOne(t, oldStr, newStr, at);
      NextAfterSkip(t, oldStr, newStr, at, Starts(t, oldStr, at + 1));
    }
  }

  lemma StartsFound(t: Text, oldStr: Text, at: nat)
    requires oldStr != []
    ensures Starts(t, oldStr, at) == [] <==> forall i :: at <= i ==> !OccursAt(t, oldStr, i)
    decreases |t| - at
  {
    if at + |oldStr| <= |t| && !OccursAt(t, oldStr, at) { StartsFound(t, oldStr, at + 1); }
  }

  ///////////////////////////////////////////// windows /////////////////////////////////////////////////

  /** Where a line begins or ends: the text's own ends, and after each line feed. */
  predicate LineEdge(t: Text, i: nat)
    requires i <= |t|
  {
    i == 0 || i == |t| || t[i - 1] == LF
  }

  /** Where the line that holds the byte before `from` begins; `from` itself where a line begins there. */
  function LineStartOf(t: Text, from: nat): (i: nat)
    requires from <= |t|
    ensures i <= from && (i == 0 || t[i - 1] == LF) && forall k :: i <= k < from ==> t[k] != LF
  {
    if from == 0 || t[from - 1] == LF then from else LineStartOf(t, from - 1)
  }

  /** Where the line that holds byte `from` ends, terminator included. */
  function LineEndOf(t: Text, from: nat): (i: nat)
    requires from <= |t|
    ensures from <= i <= |t| && forall k :: from <= k < i - 1 ==> t[k] != LF
    ensures from < |t| ==> from < i && (i == |t| || t[i - 1] == LF)
    decreases |t| - from
  {
    if from == |t| then from else if t[from] == LF then from + 1 else LineEndOf(t, from + 1)
  }

  method LineStart(t: Text, from: nat) returns (i: nat)
    requires from <= |t|
    ensures i == LineStartOf(t, from)
  {
    i := from;
    while i > 0 && t[i - 1] != LF
      invariant i <= from && LineStartOf(t, from) == LineStartOf(t, i)
    {
      i := i - 1;
    }
  }

  method LineEnd(t: Text, from: nat) returns (i: nat)
    requires from <= |t|
    ensures i == LineEndOf(t, from)
  {
    i := from;
    while i < |t| && t[i] != LF
      invariant from <= i <= |t| && LineEndOf(t, from) == LineEndOf(t, i)
    {
      i := i + 1;
    }
    if i < |t| { i := i + 1; }
  }

  /** The lines around a span, and `k` more on either side, as far as there are any. */
  function Window(t: Text, at: nat, len: nat, k: nat): (w: (nat, nat))
    requires at + len <= |t|
    ensures w.0 <= at && at + len <= w.1 <= |t| && LineEdge(t, w.0) && LineEdge(t, w.1)
  {
    if k == 0 then (LineStartOf(t, at), LineEndOf(t, at + len))
    else
      var (from, to) := Window(t, at, len, k - 1);
      (if from > 0 then LineStartOf(t, from - 1) else from, if to < |t| then LineEndOf(t, to) else to)
  }

  ghost predicate WindowUnique(t: Text, at: nat, len: nat, k: nat)
    requires at + len <= |t|
  {
    var (from, to) := Window(t, at, len, k); CountOccurrences(t, t[from..to]) == 1
  }

  /** The window is the `k`th, and none before it is unique. */
  ghost predicate Widened(t: Text, at: nat, len: nat, from: nat, to: nat, k: nat)
    requires at + len <= |t|
  {
    (from, to) == Window(t, at, len, k) && forall j :: 0 <= j < k ==> !WindowUnique(t, at, len, j)
  }

  lemma WidenedMore(t: Text, at: nat, len: nat, from: nat, to: nat, k: nat)
    requires at + len <= |t| && Widened(t, at, len, from, to, k)
    requires from <= to <= |t| && CountOccurrences(t, t[from..to]) != 1
    ensures Widened(t, at, len, if from > 0 then LineStartOf(t, from - 1) else from,
                    if to < |t| then LineEndOf(t, to) else to, k + 1)
  {
    assert !WindowUnique(t, at, len, k);
  }

  lemma WindowHolds(t: Text, at: nat, len: nat, from: nat, to: nat, k: nat)
    requires at + len <= |t| && Widened(t, at, len, from, to, k)
    ensures from <= at && at + len <= to <= |t| && LineEdge(t, from) && LineEdge(t, to)
  {
  }

  lemma SliceCountedOnce(t: Text, from: nat, to: nat)
    requires from <= to <= |t| && CountOccurrences(t, t[from..to]) == 1
    ensures UniqueAt(t, t[from..to], from)
  {
    CountedOnce(t, t[from..to], from);
  }

  /** A line more on either side, as far as there is one. */
  method Widen(t: Text, ghost at: nat, ghost len: nat, from: nat, to: nat, ghost k: nat) returns (from': nat, to': nat)
    requires at + len <= |t| && Widened(t, at, len, from, to, k)
    requires from <= to <= |t| && (from > 0 || to < |t|) && CountOccurrences(t, t[from..to]) != 1
    ensures from' <= from && to <= to' <= |t| && to' - from' > to - from
    ensures Widened(t, at, len, from', to', k + 1)
  {
    WidenedMore(t, at, len, from, to, k);
    from', to' := from, to;
    if from > 0 { from' := LineStart(t, from - 1); }
    if to < |t| { to' := LineEnd(t, to); }
  }

  /** The window of whole lines around a span, widened a line at a time on both sides until it
      occurs once, and no further; the whole text does, so widening ends. */
  method UniqueWindow(t: Text, at: nat, len: nat) returns (from: nat, to: nat, ghost k: nat)
    requires len > 0 && at + len <= |t|
    ensures from <= at && at + len <= to <= |t| && LineEdge(t, from) && LineEdge(t, to)
    ensures UniqueAt(t, t[from..to], from)
    ensures Widened(t, at, len, from, to, k)
  {
    from := LineStart(t, at);
    to := LineEnd(t, at + len);
    k := 0;
    while CountOccurrences(t, t[from..to]) != 1
      invariant from <= to <= |t| && Widened(t, at, len, from, to, k)
      decreases |t| - (to - from)
    {
      WholeTextCounts(t, from, to);
      from, to := Widen(t, at, len, from, to, k);
      k := k + 1;
    }
    WindowHolds(t, at, len, from, to, k);
    SliceCountedOnce(t, from, to);
  }

  lemma WholeTextCounts(t: Text, from: nat, to: nat)
    requires from <= to <= |t| && CountOccurrences(t, t[from..to]) != 1 && t != []
    ensures from > 0 || to < |t|
  {
    WholeIsUnique(t);
    assert t[0..|t|] == t;
  }

  lemma SliceOfSlice(t: Text, from: nat, to: nat, i: nat, j: nat)
    requires from <= to <= |t| && i <= j <= to - from
    ensures t[from..to][i..j] == t[from + i..from + j]
  {
    var a, b := t[from..to][i..j], t[from + i..from + j];
    assert |a| == |b| && forall k :: 0 <= k < |a| ==> a[k] == b[k];
  }

  /** A stretch around a unique one is unique. */
  lemma WiderIsUnique(t: Text, a: nat, b: nat, from: nat, to: nat)
    requires from <= a <= b <= to <= |t| && UniqueAt(t, t[a..b], a)
    ensures CountOccurrences(t, t[from..to]) == 1
  {
    var wide := t[from..to];
    forall j | OccursAt(t, wide, j) ensures j == from {
      SliceOfSlice(t, from, to, a - from, b - from);
      SliceOfSlice(t, j, j + |wide|, a - from, b - from);
      assert OccursAt(t, t[a..b], j + (a - from));
    }
    UniqueIsFound(t, wide, from);
    FindUniqueSpec(t, wide);
  }

  lemma WindowAround(t: Text, at: nat, len: nat, j: nat, a: nat, b: nat)
    requires at + len <= |t| && a <= b && Window(t, at, len, j).0 <= a && b <= Window(t, at, len, j).1
    requires UniqueAt(t, t[a..b], a)
    ensures WindowUnique(t, at, len, j)
  {
    WiderIsUnique(t, a, b, Window(t, at, len, j).0, Window(t, at, len, j).1);
  }

  /** No stretch within an earlier window is unique, so every unique one sticks out of it. */
  lemma NoneWithinIsUnique(t: Text, at: nat, len: nat, from: nat, to: nat, k: nat, j: nat, a: nat, b: nat)
    requires at + len <= |t| && Widened(t, at, len, from, to, k) && j < k
    requires a <= b && Window(t, at, len, j).0 <= a && b <= Window(t, at, len, j).1
    ensures !UniqueAt(t, t[a..b], a)
  {
    if UniqueAt(t, t[a..b], a) {
      WindowAround(t, at, len, j, a, b);
      assert false;
    }
  }

  /** Both sides widen together, so the window chosen is not always the smallest that is unique: of
      the lines x, a, y, a the window of the first a takes in y, where x and a would do. */
  lemma NotTheSmallest()
    ensures var t: Text := [120, LF, 97, LF, 121, LF, 97, LF];
            Widened(t, 2, 1, 0, 6, 1) && LineEdge(t, 0) && LineEdge(t, 4) && UniqueAt(t, t[0..4], 0)
  {
    var t: Text := [120, LF, 97, LF, 121, LF, 97, LF];
    assert Window(t, 2, 1, 0) == (2, 4) by { assert LineEndOf(t, 3) == 4; }
    assert LineStartOf(t, 1) == LineStartOf(t, 0) == 0 && LineEndOf(t, 4) == LineEndOf(t, 5) == 6;
    assert Window(t, 2, 1, 1) == (0, 6);
    assert t[2..4] == [97, LF] && t[6..8] == [97, LF];
    assert OccursAt(t, t[2..4], 2) && OccursAt(t, t[2..4], 6);
    TwiceIsNotOnce(t, t[2..4], 2, 6);
    assert t[0..4] == [120, LF, 97, LF];
    forall j | OccursAt(t, t[0..4], j) ensures j == 0 { assert t[j..j + 4][0] == t[j]; }
  }

  lemma TwiceIsNotOnce(t: Text, needle: Text, i: nat, j: nat)
    requires OccursAt(t, needle, i) && OccursAt(t, needle, j) && i != j
    ensures CountOccurrences(t, needle) != 1
  {
    FindUniqueSpec(t, needle);
  }

  lemma EdgeIsBoundary(t: Text, i: nat)
    requires IsUtf8(t) && i <= |t| && LineEdge(t, i)
    ensures Boundary(t, i)
  {
    if 0 < i < |t| { AroundAscii(t, i - 1); }
  }

  ////////////////////////////////////////////// edits //////////////////////////////////////////////////

  /** Apply edits in turn, each span unique when its turn comes. */
  function ReplayEdits(t: Text, edits: seq<(Text, Text)>): Result<Text, nat> {
    if edits == [] then Ok(t)
    else
      match ReplayEdits(t, edits[..|edits| - 1])
      case Err(n) => Err(n)
      case Ok(now) => ReplaceUnique(now, edits[|edits| - 1].0, edits[|edits| - 1].1)
  }

  lemma ReplayOneMore(t: Text, edits: seq<(Text, Text)>, e: (Text, Text), now: Text, next: Text)
    requires ReplayEdits(t, edits) == Ok(now) && ReplaceUnique(now, e.0, e.1) == Ok(next)
    ensures ReplayEdits(t, edits + [e]) == Ok(next)
  {
    assert (edits + [e])[..|edits|] == edits;
  }

  /** A unique window with one span inside it replaced replaces exactly that span. */
  lemma WindowReplaces(t: Text, from: nat, at: nat, len: nat, to: nat, newStr: Text)
    requires from <= at && at + len <= to <= |t| && UniqueAt(t, t[from..to], from)
    ensures ReplaceUnique(t, t[from..to], t[from..at] + newStr + t[at + len..to]) == Ok(Splice(t, at, len, newStr))
  {
    UniqueIsFound(t, t[from..to], from);
    var with := t[from..at] + newStr + t[at + len..to];
    assert t[..from] + t[from..at] == t[..at];
    assert t[at + len..to] + t[to..] == t[at + len..];
    assert t[from + |t[from..to]|..] == t[to..];
    assert Splice(t, from, to - from, with) == t[..from] + (t[from..at] + newStr + t[at + len..to]) + t[to..];
    assert t[..from] + (t[from..at] + newStr + t[at + len..to]) + t[to..]
           == (t[..from] + t[from..at]) + newStr + (t[at + len..to] + t[to..]);
  }

  /** Replacing text by text in text leaves text, and every slice the code takes is text. */
  lemma SliceTexts(t: Text, oldStr: Text, newStr: Text, from: nat, at: nat, to: nat)
    requires IsUtf8(t) && IsUtf8(oldStr) && oldStr != [] && OccursAt(t, oldStr, at)
    requires from <= at && at + |oldStr| <= to <= |t| && LineEdge(t, from) && LineEdge(t, to)
    ensures IsUtf8(t[from..to]) && IsUtf8(t[from..at]) && IsUtf8(t[at + |oldStr|..to])
  {
    OccurrenceBounds(t, oldStr, at);
    EdgeIsBoundary(t, from);
    EdgeIsBoundary(t, to);
    SliceIsText(t, from, to);
    SliceIsText(t, from, at);
    SliceIsText(t, at + |oldStr|, to);
  }

  lemma SplicedIsText(t: Text, oldStr: Text, newStr: Text, at: nat)
    requires IsUtf8(t) && IsUtf8(oldStr) && IsUtf8(newStr) && oldStr != [] && OccursAt(t, oldStr, at)
    ensures IsUtf8(Splice(t, at, |oldStr|, newStr))
  {
    OccurrenceBounds(t, oldStr, at);
    HeadIsText(t, at);
    TailIsText(t, at + |oldStr|);
    JoinThree(t[..at], newStr, t[at + |oldStr|..]);
  }

  lemma HeadIsText(t: Text, i: nat)
    requires IsUtf8(t) && i <= |t| && Boundary(t, i)
    ensures IsUtf8(t[..i])
  {
    SplitAt(t, i);
  }

  lemma TailIsText(t: Text, i: nat)
    requires IsUtf8(t) && i <= |t| && Boundary(t, i)
    ensures IsUtf8(t[i..])
  {
    SplitAt(t, i);
  }

  lemma JoinThree(a: Text, b: Text, c: Text)
    requires IsUtf8(a) && IsUtf8(b) && IsUtf8(c)
    ensures IsUtf8(a + b + c)
  {
    JoinText(a, b);
    JoinText(a + b, c);
  }

  /** Where the rewriting stands: `done` is the rewritten part, the rest is untouched. */
  ghost predicate Rewriting(t: Text, oldStr: Text, newStr: Text, starts: seq<nat>, k: nat, done: Text, end: nat,
                            working: Text)
  {
    && oldStr != [] && k <= |starts| && end <= |t|
    && starts[k..] == Starts(t, oldStr, end)
    && working == done + t[end..]
    && done + OnePass(t, oldStr, newStr, end) == OnePass(t, oldStr, newStr, 0)
  }

  /** Where the next occurrence stands in the text so far. */
  lemma NextInWorking(t: Text, oldStr: Text, newStr: Text, starts: seq<nat>, k: nat, done: Text, end: nat,
                      working: Text, at: int)
    requires Rewriting(t, oldStr, newStr, starts, k, done, end, working) && k < |starts|
    requires at == starts[k] + (|done| - end)
    ensures end <= starts[k] && OccursAt(t, oldStr, starts[k])
    ensures 0 <= at && OccursAt(working, oldStr, at)
  {
    NextStart(t, oldStr, newStr, end);
    SuffixHead(starts, k);
    assert NextAt(t, oldStr, newStr, end, starts[k]);
    SpliceRest(t, done, end, starts[k], |oldStr|, newStr);
  }

  lemma RewriteNext(t: Text, oldStr: Text, newStr: Text, starts: seq<nat>, k: nat, done: Text, end: nat, working: Text,
                    at: nat, done': Text, next: Text)
    requires Rewriting(t, oldStr, newStr, starts, k, done, end, working) && k < |starts|
    requires at == starts[k] + (|done| - end) && at + |oldStr| <= |working| && end <= starts[k] <= |t|
    requires done' == done + t[end..starts[k]] + newStr && next == Splice(working, at, |oldStr|, newStr)
    ensures Rewriting(t, oldStr, newStr, starts, k + 1, done', starts[k] + |oldStr|, next)
    ensures |done'| - (starts[k] + |oldStr|) == |done| - end + (|newStr| - |oldStr|)
  {
    NextStart(t, oldStr, newStr, end);
    var x := starts[k];
    SuffixHead(starts, k);
    assert NextAt(t, oldStr, newStr, end, x);
    SpliceRest(t, done, end, x, |oldStr|, newStr);
    Regroup(done, t[end..x], newStr, OnePass(t, oldStr, newStr, x + |oldStr|));
  }

  lemma SuffixHead(starts: seq<nat>, k: nat)
    requires k < |starts|
    ensures starts[k..] != [] && starts[k..][0] == starts[k] && starts[k..][1..] == starts[k + 1..]
  {
  }

  lemma Regroup(a: Text, b: Text, c: Text, d: Text)
    ensures a + (b + c + d) == (a + b + c) + d
  {
  }

  lemma SpliceRest(t: Text, done: Text, end: nat, x: nat, len: nat, newStr: Text)
    requires end <= x && x + len <= |t|
    ensures var working, at := done + t[end..], |done| + (x - end);
            && at + len <= |working| && working[at..at + len] == t[x..x + len]
            && Splice(working, at, len, newStr) == (done + t[end..x] + newStr) + t[x + len..]
  {
    var working, at := done + t[end..], |done| + (x - end);
    assert working[..at] == done + t[end..x];
    assert working[at + len..] == t[x + len..];
  }

  /** The edits so far are text, and replay to text. */
  ghost predicate Anchored(content: Text, edits: seq<(Text, Text)>, working: Text) {
    IsUtf8(working) && ReplayEdits(content, edits) == Ok(working) && forall k :: 0 <= k < |edits| ==> IsUtf8(edits[k].0)
  }

  lemma AnchoredMore(content: Text, edits: seq<(Text, Text)>, working: Text, edit: (Text, Text), next: Text)
    requires Anchored(content, edits, working)
    requires ReplaceUnique(working, edit.0, edit.1) == Ok(next) && IsUtf8(edit.0) && IsUtf8(next)
    ensures Anchored(content, edits + [edit], next)
  {
    ReplayOneMore(content, edits, edit, working, next);
  }

  /** Anchor the `k`-th occurrence. */
  method AnchorNext(content: Text, oldStr: Text, newStr: Text, starts: seq<nat>, k: nat, working: Text, shift: int,
                    ghost done: Text, ghost end: nat)
    returns (edit: (Text, Text), next: Text, ghost done': Text, ghost end': nat)
    requires Rewriting(content, oldStr, newStr, starts, k, done, end, working) && k < |starts| && shift == |done| - end
    requires IsUtf8(working) && IsUtf8(oldStr) && IsUtf8(newStr)
    ensures Rewriting(content, oldStr, newStr, starts, k + 1, done', end', next)
    ensures |done'| - end' == shift + (|newStr| - |oldStr|)
    ensures ReplaceUnique(working, edit.0, edit.1) == Ok(next) && IsUtf8(edit.0) && IsUtf8(next)
  {
    var at := starts[k] + shift;
    NextInWorking(content, oldStr, newStr, starts, k, done, end, working, at);
    edit, next := Anchor(working, at, oldStr, newStr);
    done', end' := done + content[end..starts[k]] + newStr, starts[k] + |oldStr|;
    RewriteNext(content, oldStr, newStr, starts, k, done, end, working, at, done', next);
  }

  /** The loop over the occurrences. */
  method AnchorEach(content: Text, oldStr: Text, newStr: Text, starts: seq<nat>) returns (edits: seq<(Text, Text)>)
    requires IsUtf8(content) && IsUtf8(oldStr) && IsUtf8(newStr) && oldStr != [] && starts == Starts(content, oldStr, 0)
    ensures Anchored(content, edits, OnePass(content, oldStr, newStr, 0)) && |edits| == |starts|
  {
    var working, shift := content, 0;
    edits := [];
    ghost var done, end: nat := [], 0;
    RewriteBegins(content, oldStr, newStr, starts);
    AnchoredNone(content);
    for k := 0 to |starts|
      invariant Rewriting(content, oldStr, newStr, starts, k, done, end, working) && shift == |done| - end
      invariant Anchored(content, edits, working) && |edits| == k
    {
      var edit, next;
      edit, next, done, end := AnchorNext(content, oldStr, newStr, starts, k, working, shift, done, end);
      AnchoredMore(content, edits, working, edit, next);
      edits, working, shift := edits + [edit], next, shift + (|newStr| - |oldStr|);
    }
    RewriteEnds(content, oldStr, newStr, starts, done, end, working);
  }

  lemma AnchoredNone(content: Text)
    requires IsUtf8(content)
    ensures Anchored(content, [], content)
  {
  }

  lemma RewriteBegins(t: Text, oldStr: Text, newStr: Text, starts: seq<nat>)
    requires oldStr != [] && starts == Starts(t, oldStr, 0)
    ensures Rewriting(t, oldStr, newStr, starts, 0, [], 0, t)
  {
    assert [] + t[0..] == t && starts[0..] == starts;
    assert [] + OnePass(t, oldStr, newStr, 0) == OnePass(t, oldStr, newStr, 0);
  }

  lemma RewriteEnds(t: Text, oldStr: Text, newStr: Text, starts: seq<nat>, done: Text, end: nat, working: Text)
    requires Rewriting(t, oldStr, newStr, starts, |starts|, done, end, working)
    ensures working == OnePass(t, oldStr, newStr, 0)
  {
    NextStart(t, oldStr, newStr, end);
    assert starts[|starts|..] == [];
  }

  /** Materialize a replace-all as uniquely anchored edits.  There is nothing to anchor exactly
      where the content is not text or the old text does not occur; else replaying the edits
      gives what one pass would have, even where the new text contains the old. */
  method AnchoredReplaceAll(content: Text, oldStr: Text, newStr: Text) returns (r: Option<seq<(Text, Text)>>)
    requires IsUtf8(oldStr) && IsUtf8(newStr)
    ensures r.None? <==> oldStr == [] || !IsUtf8(content) || forall i :: 0 <= i ==> !OccursAt(content, oldStr, i)
    ensures r.Some? ==> Anchored(content, r.value, OnePass(content, oldStr, newStr, 0))
    ensures r.Some? ==> |r.value| == |Starts(content, oldStr, 0)|
  {
    if oldStr == [] || !IsUtf8(content) { return None; }
    var starts := FindStarts(content, oldStr);
    StartsFound(content, oldStr, 0);
    if starts == [] { return None; }
    var edits := AnchorEach(content, oldStr, newStr, starts);
    r := Some(edits);
  }

  /** One occurrence as an edit of its unique window. */
  method Anchor(working: Text, at: nat, oldStr: Text, newStr: Text) returns (edit: (Text, Text), next: Text)
    requires IsUtf8(working) && IsUtf8(oldStr) && IsUtf8(newStr) && oldStr != [] && OccursAt(working, oldStr, at)
    ensures next == Splice(working, at, |oldStr|, newStr) && IsUtf8(next)
    ensures ReplaceUnique(working, edit.0, edit.1) == Ok(next) && IsUtf8(edit.0)
  {
    var from, to;
    ghost var widened;
    from, to, widened := UniqueWindow(working, at, |oldStr|);
    SliceTexts(working, oldStr, newStr, from, at, to);
    WindowReplaces(working, from, at, |oldStr|, to, newStr);
    SplicedIsText(working, oldStr, newStr, at);
    edit := (working[from..to], working[from..at] + newStr + working[at + |oldStr|..to]);
    next := Splice(working, at, |oldStr|, newStr);
  }
}
