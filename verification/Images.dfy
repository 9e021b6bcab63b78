/** Images (src/segment.rs, `image_items`): what a list of entries stands for, however it is encoded
    and wherever it is cut.  The image sum is taken in its ideal form, a multiset. */
module Images {
  import opened Wrappers
  import opened Spans
  import opened Logs
  import opened Segments
  import opened Serve
  import opened Delta
  import opened Swap
  import opened SwapGood

  /** A blob, or a line of one fork; a line's id fixes the line. */
  datatype ImageItem = BlobItem(blob: Text) | LineItem(fork: string, line: Line)

  function LineImage(fork: string, lines: seq<Line>): multiset<ImageItem> {
    if lines == [] then multiset{}
    else LineImage(fork, lines[..|lines| - 1]) + multiset{LineItem(fork, lines[|lines| - 1])}
  }

  function ImageOf(item: Item): multiset<ImageItem> {
    match item
    case Span(fork, lines) => LineImage(fork, lines)
    case _ => multiset{BlobItem(item.Blob())}
  }

  function Image(items: seq<Item>): multiset<ImageItem> {
    if items == [] then multiset{} else Image(items[..|items| - 1]) + ImageOf(items[|items| - 1])
  }

  lemma LineImageCounts(fork: string, lines: seq<Line>, f: string, l: Line)
    ensures LineImage(fork, lines)[LineItem(f, l)] == if f == fork then multiset(lines)[l] else 0
  {
    if lines != [] {
      LineImageCounts(fork, lines[..|lines| - 1], f, l);
      assert lines == lines[..|lines| - 1] + [lines[|lines| - 1]];
    }
  }

  lemma NoBlobInLines(fork: string, lines: seq<Line>, t: Text)
    ensures LineImage(fork, lines)[BlobItem(t)] == 0
  {
    if lines != [] { NoBlobInLines(fork, lines[..|lines| - 1], t); }
  }

  /** How often a line of a fork is in the image: as often as it is in the fork's spans. */
  lemma {:induction false} ImageLines(items: seq<Item>, f: string, l: Line)
    ensures Image(items)[LineItem(f, l)] == multiset(SpanOf(items, f))[l]
  {
    if items != [] {
      ImageLines(items[..|items| - 1], f, l);
      var last := items[|items| - 1];
      if last.Span? { LineImageCounts(last.fork, last.lines, f, l); }
    }
  }

  predicate Yielding(item: Item, t: Text) {
    !item.Span? && item.Blob() == t
  }

  function BlobCount(items: seq<Item>, t: Text): nat {
    if items == [] then 0 else BlobCount(items[..|items| - 1], t) + if Yielding(items[|items| - 1], t) then 1 else 0
  }

  lemma {:induction false} ImageBlobs(items: seq<Item>, t: Text)
    ensures Image(items)[BlobItem(t)] == BlobCount(items, t)
  {
    if items != [] {
      ImageBlobs(items[..|items| - 1], t);
      var last := items[|items| - 1];
      if last.Span? { NoBlobInLines(last.fork, last.lines, t); }
    }
  }

  lemma BlobCountAppend(a: seq<Item>, b: seq<Item>, t: Text)
    ensures BlobCount(a + b, t) == BlobCount(a, t) + BlobCount(b, t)
  {
    if b == [] {
      assert a + b == a;
    } else {
      assert (a + b)[..|a + b| - 1] == a + b[..|b| - 1];
      BlobCountAppend(a, b[..|b| - 1], t);
    }
  }

  ghost predicate DistinctBlobs(items: seq<Item>) {
    forall i, j :: 0 <= i < j < |items| ==> !SameBlob(items[i], items[j])
  }

  ghost predicate SomeYields(items: seq<Item>, t: Text) {
    exists item :: item in items && Yielding(item, t)
  }

  /** Entries with distinct blobs count each at most once. */
  lemma {:induction false} CountsOnce(items: seq<Item>, t: Text)
    requires DistinctBlobs(items)
    ensures BlobCount(items, t) == if SomeYields(items, t) then 1 else 0
  {
    if items != [] {
      var n := |items| - 1;
      CountsOnce(items[..n], t);
      if SomeYields(items[..n], t) {
        var item :| item in items[..n] && Yielding(item, t);
        var i :| 0 <= i < n && items[i] == item;
        assert !SameBlob(items[i], items[n]);
        assert item in items;
      } else if Yielding(items[n], t) {
        assert items[n] in items;
      } else {
        forall item | item in items ensures !Yielding(item, t) {
          assert items == items[..n] + [items[n]];
        }
      }
    }
  }

  //////////////////////////////////////////// stored segments //////////////////////////////////////////

  /** A list of some segments, each once. */
  ghost predicate Lists(list: seq<Segment>, segments: set<Segment>) {
    NoRepeats(list) && forall s :: s in list <==> s in segments
  }

  lemma FlatYields(list: seq<Segment>, segments: set<Segment>, t: Text)
    requires Lists(list, segments)
    ensures SomeYields(Flat(list), t) <==> t in BlobsOf(segments)
  {
    if SomeYields(Flat(list), t) {
      var item :| item in Flat(list) && Yielding(item, t);
      var a, i := FlatMember(list, item);
      assert list[a] in list;
    }
    if t in BlobsOf(segments) {
      var item :| item in LiveItems(segments) && !item.Span? && item.Blob() == t;
      var s: Segment, i :| s in segments && 0 <= i < |s| && s[i] == item;
      var a :| 0 <= a < |list| && list[a] == s;
      var n := FlatAt(list, a, i);
      assert Flat(list)[n] in Flat(list) && Yielding(Flat(list)[n], t);
    }
  }

  lemma {:induction false} FlatDistinct(list: seq<Segment>, segments: set<Segment>)
    requires NoRepeats(list) && (forall s :: s in list ==> s in segments) && UniqueBlobs(segments)
    ensures DistinctBlobs(Flat(list))
  {
    if list != [] {
      var n := |list| - 1;
      FlatDistinct(list[..n], segments);
      var items, last := Flat(list[..n]), list[n];
      assert last in list;
      forall i, j | 0 <= i < j < |items + last| ensures !SameBlob((items + last)[i], (items + last)[j]) {
        if j < |items| {
          assert !SameBlob(items[i], items[j]);
        } else if i >= |items| {
          assert last[i - |items|] == (items + last)[i] && last[j - |items|] == (items + last)[j];
        } else {
          assert items[i] in items;
          var a, k := FlatMember(list[..n], items[i]);
          assert list[a] in list && list[a] != last;
        }
      }
    }
  }

  lemma LogRemoved(list: seq<Segment>, k: nat, f: string)
    requires k < |list|
    ensures multiset(LogFrom(list, f)) == multiset(LogFrom(list[..k] + list[k + 1..], f)) + multiset(SpanOf(list[k], f))
  {
    assert list == list[..k] + [list[k]] + list[k + 1..];
    LogFromAppend(list[..k] + [list[k]], list[k + 1..], f);
    LogFromAppend(list[..k], [list[k]], f);
    LogFromAppend(list[..k], list[k + 1..], f);
    assert [list[k]][..0] == [];
    assert LogFrom([list[k]], f) == SpanOf(list[k], f);
  }

  lemma RemovedNoRepeats(list: seq<Segment>, k: nat)
    requires k < |list| && NoRepeats(list)
    ensures NoRepeats(list[..k] + list[k + 1..])
    ensures forall s :: s in list[..k] + list[k + 1..] <==> s in list && s != list[k]
  {
    var rest := list[..k] + list[k + 1..];
    forall s | s in list && s != list[k] ensures s in rest {
      var i :| 0 <= i < |list| && list[i] == s;
      assert s == rest[if i < k then i else i - 1];
    }
    forall s | s in rest ensures s in list && s != list[k] {
      var i :| 0 <= i < |rest| && rest[i] == s;
      assert s == list[if i < k then i else i + 1];
    }
  }

  /** `a` holds every segment of `b`, and nothing of the fork elsewhere. */
  ghost predicate Covers(a: seq<Segment>, b: seq<Segment>, f: string) {
    (forall s :: s in b ==> s in a) && forall s :: s in a && s !in b ==> SpanOf(s, f) == []
  }

  lemma CoversInit(a: seq<Segment>, b: seq<Segment>, f: string)
    requires a != [] && NoRepeats(a) && Covers(a, b, f) && a[|a| - 1] !in b
    ensures Covers(a[..|a| - 1], b, f)
  {
    assert a == a[..|a| - 1] + [a[|a| - 1]];
  }

  lemma CoversBoth(a: seq<Segment>, b: seq<Segment>, k: nat, f: string)
    requires a != [] && NoRepeats(a) && Covers(a, b, f) && k < |b| && NoRepeats(b) && b[k] == a[|a| - 1]
    ensures Covers(a[..|a| - 1], b[..k] + b[k + 1..], f)
  {
    var n := |a| - 1;
    RemovedNoRepeats(b, k);
    assert a == a[..n] + [a[n]];
    forall s | s in b[..k] + b[k + 1..] ensures s in a[..n] {
      assert s in b && s != a[n];
    }
    forall s | s in a[..n] && s !in b[..k] + b[k + 1..] ensures SpanOf(s, f) == [] {
      var i :| 0 <= i < n && a[i] == s;
      assert s != a[n];
    }
  }

  lemma FirstIsIn(list: seq<Segment>)
    requires list != []
    ensures list[0] in list
  {
  }

  /** Two lists of segments that carry a fork carry the same lines of it, whatever their order. */
  lemma {:induction false} SameLog(a: seq<Segment>, b: seq<Segment>, f: string)
    requires NoRepeats(a) && NoRepeats(b) && Covers(a, b, f)
    ensures multiset(LogFrom(a, f)) == multiset(LogFrom(b, f))
    decreases |a|
  {
    if a == [] {
      if b != [] { FirstIsIn(b); }
    } else {
      var n := |a| - 1;
      assert a[n] in a;
      if a[n] in b {
        var k :| 0 <= k < |b| && b[k] == a[n];
        CoversBoth(a, b, k, f);
        RemovedNoRepeats(b, k);
        LogRemoved(b, k, f);
        SameLog(a[..n], b[..k] + b[k + 1..], f);
      } else {
        CoversInit(a, b, f);
        SameLog(a[..n], b, f);
        assert LogFrom(a[..n], f) + [] == LogFrom(a[..n], f);
      }
    }
  }

  lemma WithinMembers(list: seq<Segment>, c: set<Segment>)
    requires NoRepeats(list)
    ensures NoRepeats(Within(list, c)) && forall s :: s in Within(list, c) <==> s in list && s in c
  {
    if list != [] {
      var n := |list| - 1;
      WithinMembers(list[..n], c);
      assert list == list[..n] + [list[n]];
    }
  }

  lemma UnlistedHasNone(b: ServeManifest, s: Segment, f: string)
    requires SegmentSound(b, s) && !(f in b.forks && s in b.forks[f].logSegments)
    ensures SpanOf(s, f) == []
  {
    NoneOfFork(s, f);
  }

  lemma {:induction false} NoneOfFork(items: seq<Item>, f: string)
    requires forall i :: 0 <= i < |items| && items[i].Span? ==> items[i].fork != f
    ensures SpanOf(items, f) == []
  {
    if items != [] { NoneOfFork(items[..|items| - 1], f); }
  }

  /** What the folded segments hold of a fork is what its list assembles from them. */
  lemma FoldedLines(b: ServeManifest, depth: map<Text, nat>, limit: nat, folded: set<Segment>, list: seq<Segment>,
                    f: string)
    requires Good(b, depth, limit) && folded <= b.segments.Keys && Lists(list, folded)
    ensures multiset(SpanOf(Flat(list), f)) == multiset(FoldedLog(b, folded, f))
  {
    LogIsFlat(list, f);
    if f in b.forks {
      assert HeadSound(b, f);
      WithinMembers(b.forks[f].logSegments, folded);
      forall s | s in list && s !in Within(b.forks[f].logSegments, folded) ensures SpanOf(s, f) == [] {
        assert SegmentSound(b, s);
        UnlistedHasNone(b, s, f);
      }
      SameLog(list, Within(b.forks[f].logSegments, folded), f);
    } else {
      forall s | s in list ensures SpanOf(s, f) == [] {
        assert SegmentSound(b, s);
        UnlistedHasNone(b, s, f);
      }
      SameLog(list, [], f);
    }
  }

  //////////////////////////////////////////// conservation /////////////////////////////////////////////

  /** What the writer checks before it publishes: the built image is the folded image and what the
      push adds.  `list` names the folded segments. */
  predicate Balances(built: seq<Segment>, list: seq<Segment>, plan: Plan) {
    Image(Flat(built)) == Image(Flat(list)) + Image(plan.items + plan.spans)
  }

  lemma BuiltLines(at: Attempt, f: string)
    requires at.Honest()
    ensures SpanOf(Flat(at.built), f) == FoldedLog(at.Base(), at.folded, f) + SpanOf(at.plan.spans, f)
  {
    SpanOfAppend(at.items, at.spans, f);
    NoSpans(at.items, f);
    assert [] + SpanOf(at.spans, f) == SpanOf(at.spans, f);
  }

  lemma PlannedLines(at: Attempt, f: string)
    requires at.Honest()
    ensures SpanOf(at.plan.items + at.plan.spans, f) == SpanOf(at.plan.spans, f)
  {
    SpanOfAppend(at.plan.items, at.plan.spans, f);
    NoSpans(at.plan.items, f);
    assert [] + SpanOf(at.plan.spans, f) == SpanOf(at.plan.spans, f);
  }

  lemma LinesBalance(at: Attempt, list: seq<Segment>, f: string, l: Line)
    requires at.Honest() && Lists(list, at.folded)
    ensures Image(Flat(at.built))[LineItem(f, l)]
         == Image(Flat(list))[LineItem(f, l)] + Image(at.plan.items + at.plan.spans)[LineItem(f, l)]
  {
    ImageLines(Flat(at.built), f, l);
    ImageLines(Flat(list), f, l);
    ImageLines(at.plan.items + at.plan.spans, f, l);
    BuiltLines(at, f);
    PlannedLines(at, f);
    FoldedLines(at.Base(), at.depth, at.limit, at.folded, list, f);
  }

  lemma NoBlobs(spans: seq<Item>, t: Text)
    requires forall i :: 0 <= i < |spans| ==> spans[i].Span?
    ensures BlobCount(spans, t) == 0
  {
    if spans != [] { NoBlobs(spans[..|spans| - 1], t); }
  }

  lemma ItemsThenSpans(items: seq<Item>, spans: seq<Item>, t: Text)
    requires DistinctBlobs(items) && forall i :: 0 <= i < |spans| ==> spans[i].Span?
    ensures BlobCount(items + spans, t) == if SomeYields(items, t) then 1 else 0
  {
    BlobCountAppend(items, spans, t);
    NoBlobs(spans, t);
    CountsOnce(items, t);
  }

  lemma BuiltBlobs(at: Attempt, t: Text)
    requires at.Honest()
    ensures BlobCount(Flat(at.built), t) == if SomeYields(at.items, t) then 1 else 0
  {
    ItemsThenSpans(at.items, at.spans, t);
  }

  lemma PlannedBlobs(at: Attempt, t: Text)
    requires at.Honest()
    ensures BlobCount(at.plan.items + at.plan.spans, t) == if SomeYields(at.plan.items, t) then 1 else 0
  {
    ItemsThenSpans(at.plan.items, at.plan.spans, t);
  }

  lemma FoldedBlobs(at: Attempt, list: seq<Segment>, t: Text)
    requires at.Honest() && Lists(list, at.folded)
    ensures BlobCount(Flat(list), t) == if t in BlobsOf(at.folded) then 1 else 0
  {
    FlatDistinct(list, at.Base().segments.Keys);
    CountsOnce(Flat(list), t);
    FlatYields(list, at.folded, t);
  }

  lemma BlobsBalance(at: Attempt, list: seq<Segment>, t: Text)
    requires at.Honest() && Lists(list, at.folded)
    ensures Image(Flat(at.built))[BlobItem(t)]
         == Image(Flat(list))[BlobItem(t)] + Image(at.plan.items + at.plan.spans)[BlobItem(t)]
  {
    ImageBlobs(Flat(at.built), t);
    ImageBlobs(Flat(list), t);
    ImageBlobs(at.plan.items + at.plan.spans, t);
    BuiltBlobs(at, t);
    PlannedBlobs(at, t);
    FoldedBlobs(at, list, t);
    ItemsYield(at, t);
  }

  /** A blob to store is folded or sent, and never both. */
  lemma ItemsYield(at: Attempt, t: Text)
    requires at.Honest()
    ensures SomeYields(at.items, t) <==> t in BlobsOf(at.folded) || SomeYields(at.plan.items, t)
    ensures !(t in BlobsOf(at.folded) && SomeYields(at.plan.items, t))
  {
    if SomeYields(at.items, t) {
      var item :| item in at.items && Yielding(item, t);
      assert item in at.plan.items || item in LiveItems(at.folded);
    }
    if t in BlobsOf(at.folded) {
      var item :| item in LiveItems(at.folded) && !item.Span? && item.Blob() == t;
      assert item in at.items && Yielding(item, t);
      assert item in LiveItems(at.Base().segments.Keys);
    }
    if SomeYields(at.plan.items, t) {
      var item :| item in at.plan.items && Yielding(item, t);
      assert item in at.items;
      var i :| 0 <= i < |at.plan.items| && at.plan.items[i] == item;
      assert t in at.pool - BlobsOf(at.Base().segments.Keys);
    }
  }

  /** Folding conserves the image: nothing is lost, invented or stored twice, whichever segments
      were folded and wherever the new ones were cut. */
  lemma ImageConserved(at: Attempt, list: seq<Segment>)
    requires at.Honest() && Lists(list, at.folded)
    ensures Balances(at.built, list, at.plan)
  {
    forall x: ImageItem
      ensures Image(Flat(at.built))[x] == (Image(Flat(list)) + Image(at.plan.items + at.plan.spans))[x]
    {
      match x {
        case BlobItem(t) => BlobsBalance(at, list, t);
        case LineItem(f, l) => LinesBalance(at, list, f, l);
      }
    }
  }

  ////////////////////////////////////////// across a swap //////////////////////////////////////////////

  lemma ImageAppend(a: seq<Item>, b: seq<Item>)
    ensures Image(a + b) == Image(a) + Image(b)
  {
    if b == [] {
      assert a + b == a;
    } else {
      assert (a + b)[..|a + b| - 1] == a + b[..|b| - 1];
      ImageAppend(a, b[..|b| - 1]);
    }
  }

  lemma FlatImages(a: seq<Segment>, b: seq<Segment>)
    ensures Image(Flat(a + b)) == Image(Flat(a)) + Image(Flat(b))
  {
    if b == [] {
      assert a + b == a;
    } else {
      assert (a + b)[..|a + b| - 1] == a + b[..|b| - 1];
      FlatImages(a, b[..|b| - 1]);
      ImageAppend(Flat(a + b[..|b| - 1]), b[|b| - 1]);
      ImageAppend(Flat(b[..|b| - 1]), b[|b| - 1]);
    }
  }

  /** The image of some segments does not depend on the order they are listed in. */
  lemma {:induction false} ImagePermuted(a: seq<Segment>, b: seq<Segment>)
    requires multiset(a) == multiset(b)
    ensures Image(Flat(a)) == Image(Flat(b))
  {
    assert |a| == |multiset(a)| == |multiset(b)| == |b|;
    if a != [] {
      var n, last := |a| - 1, a[|a| - 1];
      assert a == a[..n] + [last];
      assert last in multiset(b);
      var i: nat :| i < |b| && b[i] == last;
      assert b == b[..i] + ([last] + b[i + 1..]);
      var rest := b[..i] + b[i + 1..];
      assert multiset(rest) == multiset(b) - multiset{last} && multiset(a[..n]) == multiset(a) - multiset{last};
      ImagePermuted(a[..n], rest);
      FlatImages(a[..n], [last]);
      FlatImages(b[..i], b[i + 1..]);
      FlatImages(b[..i], [last] + b[i + 1..]);
      FlatImages([last], b[i + 1..]);
    }
  }

  lemma {:induction false} CountsMembers(list: seq<Segment>, s: Segment)
    requires NoRepeats(list)
    ensures multiset(list)[s] == if s in list then 1 else 0
  {
    if list != [] {
      var n := |list| - 1;
      CountsMembers(list[..n], s);
      assert list == list[..n] + [list[n]];
    }
  }

  lemma SameImage(a: seq<Segment>, b: seq<Segment>, segments: set<Segment>)
    requires Lists(a, segments) && Lists(b, segments)
    ensures Image(Flat(a)) == Image(Flat(b))
  {
    forall s ensures multiset(a)[s] == multiset(b)[s] {
      CountsMembers(a, s);
      CountsMembers(b, s);
    }
    ImagePermuted(a, b);
  }

  lemma JoinedLists(a: seq<Segment>, x: set<Segment>, b: seq<Segment>, y: set<Segment>, both: set<Segment>)
    requires Lists(a, x) && Lists(b, y) && x !! y && both == x + y
    ensures Lists(a + b, both)
  {
    JoinNoRepeats(a, b);
    forall s ensures s in a + b <==> s in both { assert s in a + b <==> s in a || s in b; }
  }

  lemma SplitLists(list: seq<Segment>, segments: set<Segment>, folded: set<Segment>)
    requires Lists(list, segments) && folded <= segments
    ensures Lists(Within(list, folded), folded) && Lists(Outside(list, folded), segments - folded)
    ensures Lists(Within(list, folded) + Outside(list, folded), segments)
  {
    WithinMembers(list, folded);
    OutsideNoRepeats(list, folded);
    forall s ensures s in Outside(list, folded) <==> s in segments - folded { MemberOutside(list, folded, s); }
    JoinedLists(Within(list, folded), folded, Outside(list, folded), segments - folded, segments);
  }

  lemma PublishedLists(at: Attempt, kept: seq<Segment>)
    requires at.Honest() && Lists(kept, at.Base().segments.Keys - at.folded)
    ensures Lists(kept + at.built, at.Result().segments.Keys)
  {
    BuiltDistinct(at);
    var built := set s | s in at.built;
    forall s | s in built ensures s !in at.Base().segments.Keys - at.folded { BuiltIsNew(at, s); }
    JoinedLists(kept, at.Base().segments.Keys - at.folded, at.built, built, at.Result().segments.Keys);
  }

  /** The group equation of a swap, checkable from two manifests alone: the image the store holds
      grows by exactly the entries the push adds, and by nothing where it only compacts.  The lists
      name the live segments before and after, in any order. */
  lemma SwapDelta(at: Attempt, before: seq<Segment>, after: seq<Segment>)
    requires at.Honest()
    requires Lists(before, at.Base().segments.Keys) && Lists(after, at.Result().segments.Keys)
    ensures Image(Flat(after)) == Image(Flat(before)) + Image(at.plan.items + at.plan.spans)
  {
    var gone, kept := Within(before, at.folded), Outside(before, at.folded);
    SplitLists(before, at.Base().segments.Keys, at.folded);
    SameImage(before, gone + kept, at.Base().segments.Keys);
    FlatImages(gone, kept);
    PublishedLists(at, kept);
    SameImage(after, kept + at.built, at.Result().segments.Keys);
    FlatImages(kept, at.built);
    ImageConserved(at, gone);
  }
}
