/** Every swap publishes a good manifest that extends the one before it (src/delta.rs). */
module SwapGood {
  import opened Wrappers
  import opened Spans
  import opened Logs
  import opened Segments
  import opened Serve
  import opened Remote
  import opened Delta
  import opened Swap

  //////////////////////////////////////////////// logs /////////////////////////////////////////////////

  /** A published fork's old log and pushed span make its local log. */
  lemma LogsMeet(b: ServeManifest, local: Local, synced: map<string, Id>, f: string)
    requires f in local && Chained(local[f].lines) && Publishes(b, local, synced, f)
    requires f in b.forks ==> HeadSound(b, f)
    ensures LogBefore(b, f) + Pushed(b, local, synced, f) == local[f].lines
  {
    if f in b.forks { DecideIsSafe(b.forks[f], LogOf(b, f), local[f].lines, SyncedAt(synced, f)); }
  }

  /** Where a fork is published with a new head, its assembled log is the local one. */
  lemma PublishedLog(at: Attempt, f: string)
    requires at.Honest() && f in at.plan.heads
    ensures f in at.local && LogBefore(at.Base(), f) + Pushed(at.Base(), at.local, at.synced, f) == at.local[f].lines
    ensures at.plan.heads[f].headId == HeadId(at.local[f].lines)
  {
    assert f in at.Base().forks ==> HeadSound(at.Base(), f);
    LogsMeet(at.Base(), at.local, at.synced, f);
  }

  lemma UnpublishedLog(at: Attempt, f: string)
    requires at.Honest() && f in at.Base().forks && f !in at.plan.heads
    ensures Pushed(at.Base(), at.local, at.synced, f) == []
  {
  }

  /** Every fork's next log is a chain up to its published head. */
  lemma NextChained(at: Attempt, f: string)
    requires at.Honest() && f in at.Result().forks
    ensures Chained(LogOf(at.Result(), f)) && HeadId(LogOf(at.Result(), f)) == at.Result().forks[f].headId
  {
    NextLog(at, f);
    if f in at.plan.heads {
      PublishedLog(at, f);
    } else {
      UnpublishedLog(at, f);
      assert HeadSound(at.Base(), f);
      assert LogOf(at.Base(), f) + [] == LogOf(at.Base(), f);
    }
  }

  /////////////////////////////////////////////// segments //////////////////////////////////////////////

  lemma MemberOutside(list: seq<Segment>, c: set<Segment>, s: Segment)
    ensures s in Outside(list, c) <==> s in list && s !in c
  {
    if list != [] {
      MemberOutside(list[..|list| - 1], c, s);
      assert list == list[..|list| - 1] + [list[|list| - 1]];
    }
  }

  lemma MemberCarrying(built: seq<Segment>, f: string, s: Segment)
    ensures s in Carrying(built, f) <==> s in built && SpanOf(s, f) != []
  {
    if built != [] {
      MemberCarrying(built[..|built| - 1], f, s);
      assert built == built[..|built| - 1] + [built[|built| - 1]];
    }
  }

  lemma OutsideNoRepeats(list: seq<Segment>, c: set<Segment>)
    requires NoRepeats(list)
    ensures NoRepeats(Outside(list, c))
  {
    if list != [] {
      var init, last := list[..|list| - 1], list[|list| - 1];
      OutsideNoRepeats(init, c);
      MemberOutside(init, c, last);
      AppendNoRepeats(Outside(init, c), last);
    }
  }

  lemma AppendNoRepeats(list: seq<Segment>, s: Segment)
    requires NoRepeats(list)
    ensures s !in list ==> NoRepeats(list + [s])
  {
  }

  lemma CarryingNoRepeats(built: seq<Segment>, f: string)
    requires NoRepeats(built)
    ensures NoRepeats(Carrying(built, f))
  {
    if built != [] {
      var init, last := built[..|built| - 1], built[|built| - 1];
      CarryingNoRepeats(init, f);
      MemberCarrying(init, f, last);
      AppendNoRepeats(Carrying(init, f), last);
    }
  }

  /** The lines of an entry are lines of its segment. */
  lemma SpanMember(s: Segment, i: nat)
    requires i < |s| && s[i].Span?
    ensures forall l :: l in s[i].lines ==> l in SpanOf(s, s[i].fork)
  {
    if i < |s| - 1 { SpanMember(s[..|s| - 1], i); }
  }

  lemma LogMember(list: seq<Segment>, s: Segment, f: string, l: Line)
    requires s in list && l in SpanOf(s, f)
    ensures l in LogFrom(list, f)
  {
    if s != list[|list| - 1] { LogMember(list[..|list| - 1], s, f, l); }
  }

  lemma BuiltDistinct(at: Attempt)
    requires at.Honest()
    ensures NoRepeats(at.built) && ClashFree(Flat(at.built))
  {
    InputsClashFree(at.Base(), at.folded, at.plan, at.items, at.spans);
    forall a, c | 0 <= a < c < |at.built| ensures at.built[a] != at.built[c] {
      if at.built[a] == at.built[c] { PlacesClashFree(at.built, a, 0, c, 0); }
    }
  }

  /** Where the entry of a built segment comes from. */
  lemma BuiltEntry(at: Attempt, a: nat, i: nat)
    requires at.Honest() && a < |at.built| && i < |at.built[a]|
    ensures at.built[a][i] in at.items || at.built[a][i] in at.spans
  {
    var n := FlatAt(at.built, a, i);
    assert Flat(at.built)[n] == (at.items + at.spans)[n];
  }

  /** A blob the push packs is in no segment that stays. */
  lemma PackedIsNew(at: Attempt, s: Segment, i: nat, item: Item)
    requires at.Honest() && s in at.Base().segments && s !in at.folded && i < |s| && item in at.items
    ensures !SameBlob(s[i], item)
  {
    if item in at.plan.items {
      SentIsNew(at, item);
      assert !s[i].Span? ==> s[i] in LiveItems(at.Base().segments.Keys);
    } else {
      FoldedIsGone(at.Base(), at.folded, s, i, item);
    }
  }

  lemma FoldedIsGone(b: ServeManifest, folded: set<Segment>, s: Segment, i: nat, item: Item)
    requires UniqueBlobs(b.segments.Keys) && folded <= b.segments.Keys && item in LiveItems(folded)
    requires s in b.segments && s !in folded && i < |s|
    ensures !SameBlob(s[i], item)
  {
    var t: Segment, j: nat :| t in folded && j < |t| && !t[j].Span? && t[j] == item;
    if SameBlob(s[i], item) { StoredOnce(b, s, i, t, j); }
  }

  lemma StoredOnce(b: ServeManifest, s: Segment, i: nat, t: Segment, j: nat)
    requires UniqueBlobs(b.segments.Keys) && s in b.segments && t in b.segments && i < |s| && j < |t|
        && SameBlob(s[i], t[j])
    ensures s == t && i == j
  {
  }

  lemma SentIsNew(at: Attempt, item: Item)
    requires at.Honest() && item in at.plan.items
    ensures !item.Span? && item.Blob() in at.pool && item.Blob() !in BlobsOf(at.Base().segments.Keys)
  {
    ItemIsSent(at.plan.items, at.plan.spans, at.pool - BlobsOf(at.Base().segments.Keys), at.depth, at.plan.depth,
               at.limit, item);
  }

  lemma ItemIsSent(items: seq<Item>, spans: seq<Item>, send: set<Text>, known: map<Text, nat>, depth: map<Text, nat>,
                   limit: nat, item: Item)
    requires IsItems(items, spans, send, known, depth, limit) && item in items
    ensures !item.Span? && item.Blob() in send
  {
    var i :| 0 <= i < |items| && items[i] == item;
  }

  /** A line already in the log of a fork is in no span the push packs for it. */
  lemma SpanIsNew(at: Attempt, s: Segment, i: nat, span: Item)
    requires at.Honest() && s in at.Base().segments && s !in at.folded && i < |s| && span in at.spans && s[i].Span?
    ensures s[i] != span
  {
    if s[i] == span {
      var b, f, line := at.Base(), s[i].fork, s[i].lines;
      assert SegmentSound(b, s);
      var l := line[0];
      SpanMember(s, i);
      MemberOutside(ListBefore(b, f), at.folded, s);
      LogMember(Outside(ListBefore(b, f), at.folded), s, f, l);
      var k :| 0 <= k < |at.spans| && at.spans[k] == span;
      SpanMember(at.spans, k);
      NextLogSplits(at, f);
      NextChained(at, f);
      TwicePresent(LogFrom(Outside(ListBefore(b, f), at.folded), f), SpanOf(at.spans, f), l);
    }
  }

  lemma TwicePresent(a: seq<Line>, b: seq<Line>, l: Line)
    requires l in a && l in b
    ensures !Chained(a + b)
  {
    var i: nat :| i < |a| && a[i] == l;
    var j: nat :| j < |b| && b[j] == l;
    if Chained(a + b) { LinesDistinct(a + b, i, |a| + j); }
  }

  /** No built segment is one that stays. */
  lemma BuiltIsNew(at: Attempt, s: Segment)
    requires at.Honest() && s in at.built
    ensures !(s in at.Base().segments && s !in at.folded)
  {
    var a: nat :| a < |at.built| && at.built[a] == s;
    BuiltEntry(at, a, 0);
    if s in at.Base().segments && s !in at.folded {
      if s[0] in at.items { PackedIsNew(at, s, 0, s[0]); } else { SpanIsNew(at, s, 0, s[0]); }
    }
  }

  lemma NextHeadSound(at: Attempt, f: string)
    requires at.Honest() && f in at.Result().forks
    ensures HeadSound(at.Result(), f)
  {
    NextList(at, f);
    NextChained(at, f);
    NextListNoRepeats(at, f);
    forall s | s in at.Result().forks[f].logSegments ensures s in at.Result().segments { NextListLive(at, f, s); }
  }

  lemma NextListLive(at: Attempt, f: string, s: Segment)
    requires at.Honest() && f in at.Result().forks
    requires s in Outside(ListBefore(at.Base(), f), at.folded) + Carrying(at.built, f)
    ensures s in at.Result().segments
  {
    KeptListSound(at, f);
    MemberOutside(ListBefore(at.Base(), f), at.folded, s);
    MemberCarrying(at.built, f, s);
  }

  lemma NextListNoRepeats(at: Attempt, f: string)
    requires at.Honest() && f in at.Result().forks
    ensures NoRepeats(Outside(ListBefore(at.Base(), f), at.folded) + Carrying(at.built, f))
  {
    BuiltDistinct(at);
    KeptListSound(at, f);
    OutsideNoRepeats(ListBefore(at.Base(), f), at.folded);
    CarryingNoRepeats(at.built, f);
    forall s | s in Carrying(at.built, f) ensures s !in Outside(ListBefore(at.Base(), f), at.folded) {
      MemberOutside(ListBefore(at.Base(), f), at.folded, s);
      MemberCarrying(at.built, f, s);
      BuiltIsNew(at, s);
    }
    JoinNoRepeats(Outside(ListBefore(at.Base(), f), at.folded), Carrying(at.built, f));
  }

  lemma JoinNoRepeats(a: seq<Segment>, b: seq<Segment>)
    requires NoRepeats(a) && NoRepeats(b) && forall s :: s in b ==> s !in a
    ensures NoRepeats(a + b)
  {
    forall i, j | 0 <= i < j < |a + b| ensures (a + b)[i] != (a + b)[j] {
      if i < |a| <= j { assert b[j - |a|] in b; }
    }
  }

  lemma KeptListSound(at: Attempt, f: string)
    requires at.Honest() && f in at.Result().forks
    ensures NoRepeats(ListBefore(at.Base(), f)) && forall s :: s in ListBefore(at.Base(), f) ==> s in at.Base().segments
  {
    if f in at.Base().forks { assert HeadSound(at.Base(), f); }
  }

  lemma NextSegmentSound(at: Attempt, s: Segment)
    requires at.Honest() && s in at.Result().segments
    ensures SegmentSound(at.Result(), s)
  {
    if s in at.built {
      BuiltSegmentSound(at, s);
    } else {
      assert SegmentSound(at.Base(), s);
      forall i | 0 <= i < |s| && s[i].Span?
        ensures s[i].fork in at.Result().forks && s in at.Result().forks[s[i].fork].logSegments {
        NextList(at, s[i].fork);
        MemberOutside(ListBefore(at.Base(), s[i].fork), at.folded, s);
      }
    }
  }

  lemma BuiltSegmentSound(at: Attempt, s: Segment)
    requires at.Honest() && s in at.built
    ensures SegmentSound(at.Result(), s)
  {
    var a: nat :| a < |at.built| && at.built[a] == s;
    BuiltDistinct(at);
    forall i, j | 0 <= i < j < |s| && s[i].Span? && s[j].Span? ensures s[i].fork != s[j].fork {
      if s[i].fork == s[j].fork { PlacesClashFree(at.built, a, i, a, j); }
    }
    forall i | 0 <= i < |s| && s[i].Span?
      ensures s[i].lines != [] && s[i].fork in at.Result().forks && s in at.Result().forks[s[i].fork].logSegments
    {
      BuiltEntry(at, a, i);
      var k :| 0 <= k < |at.spans| && at.spans[k] == s[i];
      var f := s[i].fork;
      NextList(at, f);
      SpanMember(s, i);
      assert s[i].lines[0] in SpanOf(s, f);
      MemberCarrying(at.built, f, s);
    }
  }

  /** The image stays a set. */
  lemma NextUnique(at: Attempt)
    requires at.Honest()
    ensures UniqueBlobs(at.Result().segments.Keys)
  {
    BuiltDistinct(at);
    forall s: Segment, t: Segment, i, j
      | s in at.Result().segments && t in at.Result().segments && 0 <= i < |s| && 0 <= j < |t| && SameBlob(s[i], t[j])
      ensures s == t && i == j
    {
      NextStoredOnce(at, s, i, t, j);
    }
  }

  lemma NextStoredOnce(at: Attempt, s: Segment, i: nat, t: Segment, j: nat)
    requires at.Honest() && ClashFree(Flat(at.built))
    requires s in at.Result().segments && t in at.Result().segments && i < |s| && j < |t| && SameBlob(s[i], t[j])
    ensures s == t && i == j
  {
    if s in at.built && t in at.built {
      var a: nat :| a < |at.built| && at.built[a] == s;
      var c: nat :| c < |at.built| && at.built[c] == t;
      PlacesClashFree(at.built, a, i, c, j);
    } else if s in at.built {
      BuiltKeptApart(at, s, i, t, j);
    } else if t in at.built {
      BuiltKeptApart(at, t, j, s, i);
    } else {
      StoredOnce(at.Base(), s, i, t, j);
    }
  }

  lemma BuiltKeptApart(at: Attempt, s: Segment, i: nat, t: Segment, j: nat)
    requires at.Honest() && s in at.built && i < |s| && t in at.Base().segments && t !in at.folded && j < |t|
    ensures !SameBlob(s[i], t[j]) && !SameBlob(t[j], s[i])
  {
    var a: nat :| a < |at.built| && at.built[a] == s;
    BuiltEntry(at, a, i);
    if s[i] in at.items { PackedIsNew(at, t, j, s[i]); } else { SpanShares(at, s[i], t[j]); }
  }

  lemma SpanShares(at: Attempt, span: Item, other: Item)
    requires at.Honest() && span in at.spans
    ensures !SameBlob(span, other) && !SameBlob(other, span)
  {
  }

  //////////////////////////////////////////////// items ////////////////////////////////////////////////

  /** Folding and cutting lose no item and invent none: what is live next is what was live and
      what the push sends. */
  lemma NextItems(at: Attempt)
    requires at.Honest()
    ensures forall item :: item in LiveItems(at.Result().segments.Keys) <==>
              item in LiveItems(at.Base().segments.Keys) || item in at.plan.items
  {
    forall item ensures item in LiveItems(at.Result().segments.Keys) ==>
                          item in LiveItems(at.Base().segments.Keys) || item in at.plan.items
    {
      if item in LiveItems(at.Result().segments.Keys) { LiveWasKnown(at, item); }
    }
    forall item ensures item in LiveItems(at.Base().segments.Keys) || item in at.plan.items ==>
                          item in LiveItems(at.Result().segments.Keys)
    {
      if item in LiveItems(at.Base().segments.Keys) || item in at.plan.items { KnownIsLive(at, item); }
    }
  }

  lemma LiveWasKnown(at: Attempt, item: Item)
    requires at.Honest() && item in LiveItems(at.Result().segments.Keys)
    ensures item in LiveItems(at.Base().segments.Keys) || item in at.plan.items
  {
    var s: Segment, i: nat :| s in at.Result().segments && i < |s| && !s[i].Span? && s[i] == item;
    if s in at.built {
      var a: nat :| a < |at.built| && at.built[a] == s;
      BuiltEntry(at, a, i);
      SubsetItems(at.folded, at.Base().segments.Keys);
    }
  }

  lemma SubsetItems(a: set<Segment>, b: set<Segment>)
    requires a <= b
    ensures LiveItems(a) <= LiveItems(b)
  {
  }

  lemma KnownIsLive(at: Attempt, item: Item)
    requires at.Honest() && (item in LiveItems(at.Base().segments.Keys) || item in at.plan.items)
    ensures item in LiveItems(at.Result().segments.Keys)
  {
    if item in at.plan.items || item in LiveItems(at.folded) {
      assert item in at.items;
      assert item in at.items + at.spans;
      var a, i := FlatMember(at.built, item);
      assert at.built[a] in at.Result().segments;
    } else {
      var s: Segment, i: nat :| s in at.Base().segments && i < |s| && !s[i].Span? && s[i] == item;
      assert s !in at.folded;
    }
  }

  /** Depths of what is sent, beside depths of what is stored, rank both. */
  lemma RankMerged(stored: set<Item>, items: seq<Item>, all: set<Item>, known: map<Text, nat>, more: map<Text, nat>)
    requires Ranked(stored, known) && more.Keys !! known.Keys
    requires forall item :: item in all <==> item in stored || item in items
    requires forall i :: 0 <= i < |items| ==> !items[i].Span? && RankedItem(items[i], known + more)
    requires forall t :: t in more ==> exists i :: 0 <= i < |items| && items[i].Blob() == t
    ensures Ranked(all, known + more)
  {
    var both := known + more;
    forall item | item in all ensures !item.Span? && RankedItem(item, both) {
      if item in stored { StillRanked(item, known, more); }
    }
    forall b | b in both ensures Yields(all, b) {
      if b in more {
        var i :| 0 <= i < |items| && items[i].Blob() == b;
        assert items[i] in all;
      } else {
        YieldsMore(stored, all, b);
      }
    }
  }

  lemma YieldsMore(some: set<Item>, all: set<Item>, b: Text)
    requires some <= all && Yields(some, b)
    ensures Yields(all, b)
  {
    var item :| item in some && !item.Span? && item.Blob() == b;
    assert item in all;
  }

  lemma StillRanked(item: Item, known: map<Text, nat>, more: map<Text, nat>)
    requires !item.Span? && RankedItem(item, known) && more.Keys !! known.Keys
    ensures RankedItem(item, known + more)
  {
  }

  lemma StoredDepths(b: ServeManifest, depth: map<Text, nat>, limit: nat)
    requires Good(b, depth, limit)
    ensures depth.Keys <= BlobsOf(b.segments.Keys)
  {
    forall t | t in depth ensures t in BlobsOf(b.segments.Keys) {
      assert Yields(LiveItems(b.segments.Keys), t);
      var item :| item in LiveItems(b.segments.Keys) && !item.Span? && item.Blob() == t;
    }
  }

  lemma NextRanked(at: Attempt)
    requires at.Honest()
    ensures Ranked(LiveItems(at.Result().segments.Keys), at.depth + at.plan.depth)
    ensures Bounded(at.depth + at.plan.depth, at.limit)
  {
    NextItems(at);
    StoredDepths(at.Base(), at.depth, at.limit);
    RankMerged(LiveItems(at.Base().segments.Keys), at.plan.items, LiveItems(at.Result().segments.Keys), at.depth,
               at.plan.depth);
  }

  lemma NextReplayable(at: Attempt, item: Item)
    requires at.Honest() && item in LiveItems(at.Result().segments.Keys)
    ensures Replayable(at.Result(), item)
  {
    NextItems(at);
    if item.Construct? {
      if item in LiveItems(at.Base().segments.Keys) {
        assert Replayable(at.Base(), item);
        var f :| f in at.Base().forks && item.line in LogOf(at.Base(), f);
        assert f in at.Result().forks;
        NextLog(at, f);
      } else {
        var i :| 0 <= i < |at.plan.items| && at.plan.items[i] == item;
        assert FromSpans(item, at.plan.spans);
        var k :| 0 <= k < |at.plan.spans| && at.plan.spans[k].Span? && item.line in at.plan.spans[k].lines;
        var f := at.plan.spans[k].fork;
        SpanMember(at.plan.spans, k);
        assert SpanOf(at.plan.spans, f) == Pushed(at.Base(), at.local, at.synced, f);
        assert f in at.Result().forks;
        NextLog(at, f);
      }
    }
  }

  //////////////////////////////////////////// the swap /////////////////////////////////////////////////

  /** One manifest extends another: no fork disappears, and every fork's log grows. */
  ghost predicate Extends(before: ServeManifest, after: ServeManifest) {
    forall f :: f in before.forks ==> f in after.forks && LogOf(before, f) <= LogOf(after, f)
  }

  /** A push over a good manifest publishes a good manifest that extends it. */
  lemma SwapIsGood(at: Attempt)
    requires at.Honest()
    ensures Good(at.Result(), at.depth + at.plan.depth, at.limit)
    ensures Extends(at.Base(), at.Result())
  {
    forall f | f in at.Result().forks ensures HeadSound(at.Result(), f) { NextHeadSound(at, f); }
    forall s | s in at.Result().segments ensures SegmentSound(at.Result(), s) { NextSegmentSound(at, s); }
    NextUnique(at);
    NextRanked(at);
    forall item | item in LiveItems(at.Result().segments.Keys) ensures Replayable(at.Result(), item) {
      NextReplayable(at, item);
    }
    forall f | f in at.Base().forks ensures f in at.Result().forks && LogOf(at.Base(), f) <= LogOf(at.Result(), f) {
      assert f in at.Result().forks;
      NextLog(at, f);
    }
  }

  /** The store afterwards holds what it held and the pusher's whole pool. */
  lemma SwapCarriesBlobs(at: Attempt)
    requires at.Honest()
    ensures BlobsOf(at.Result().segments.Keys) == BlobsOf(at.Base().segments.Keys) + at.pool
  {
    NextItems(at);
    BlobsJoin(LiveItems(at.Base().segments.Keys), at.plan.items, LiveItems(at.Result().segments.Keys), at.pool);
  }

  lemma BlobsJoin(stored: set<Item>, items: seq<Item>, all: set<Item>, pool: set<Text>)
    requires forall item :: item in all <==> item in stored || item in items
    requires forall i :: 0 <= i < |items| ==> !items[i].Span? && items[i].Blob() in pool
    requires forall t :: t in pool - BlobsIn(stored) ==> exists i :: 0 <= i < |items| && items[i].Blob() == t
    ensures BlobsIn(all) == BlobsIn(stored) + pool
  {
    forall t | t in pool && t !in BlobsIn(stored) ensures t in BlobsIn(all) {
      assert t in pool - BlobsIn(stored);
      var i :| 0 <= i < |items| && items[i].Blob() == t;
      assert items[i] in all;
    }
    forall t | t in BlobsIn(stored) ensures t in BlobsIn(all) {
      var item :| item in stored && !item.Span? && item.Blob() == t;
      assert item in all;
    }
  }

  /** Every fork a push publishes reads exactly as it does locally; every other, as before. */
  lemma SwapCarriesLogs(at: Attempt, f: string)
    requires at.Honest() && f in at.Result().forks
    ensures if f in at.plan.heads then f in at.local && LogOf(at.Result(), f) == at.local[f].lines
            else f in at.Base().forks && LogOf(at.Result(), f) == LogOf(at.Base(), f)
  {
    NextLog(at, f);
    if f in at.plan.heads {
      PublishedLog(at, f);
    } else {
      UnpublishedLog(at, f);
      assert LogOf(at.Base(), f) + [] == LogOf(at.Base(), f);
    }
  }
}
