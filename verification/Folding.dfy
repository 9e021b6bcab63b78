/** Reading folded segments back (src/delta.rs, `fold_inputs`): their blobs as stored, and each
    fork's spans in the order its list gives them. */
module Folding {
  import opened Wrappers
  import opened Spans
  import opened Patch
  import opened Logs
  import opened Segments
  import opened Serve
  import opened Remote
  import opened Delta
  import opened Swap
  import opened Images

  /** A span of a segment, by segment and fork. */
  type SpanKey = (Segment, string)

  function NonSpans(items: seq<Item>): seq<Item> {
    if items == [] then []
    else NonSpans(items[..|items| - 1]) + if items[|items| - 1].Span? then [] else [items[|items| - 1]]
  }

  lemma NonSpansAppend(a: seq<Item>, b: seq<Item>)
    ensures NonSpans(a + b) == NonSpans(a) + NonSpans(b)
  {
    if b == [] {
      assert a + b == a;
    } else {
      assert (a + b)[..|a + b| - 1] == a + b[..|b| - 1];
      NonSpansAppend(a, b[..|b| - 1]);
    }
  }

  lemma NonSpansMembers(items: seq<Item>)
    ensures forall item :: item in NonSpans(items) <==> item in items && !item.Span?
  {
    if items != [] {
      NonSpansMembers(items[..|items| - 1]);
      assert items == items[..|items| - 1] + [items[|items| - 1]];
    }
  }

  function ForksIn(items: seq<Item>): set<string> {
    set i | 0 <= i < |items| && items[i].Span? :: items[i].fork
  }

  /** Two spans of one fork in one segment. */
  predicate TwoSpans(items: seq<Item>) {
    exists i, j :: 0 <= i < j < |items| && items[i].Span? && items[j].Span? && items[i].fork == items[j].fork
  }

  predicate Names(b: ServeManifest, f: string, s: Segment) {
    f in b.forks && s in b.forks[f].logSegments
  }

  /** A folded segment holds two spans of a fork, or a span of a fork that does not list it. */
  ghost predicate Misfiled(b: ServeManifest, folded: set<Segment>) {
    exists s :: s in folded && (TwoSpans(s) || exists f :: f in ForksIn(s) && !Names(b, f, s))
  }

  lemma NoneMisfiled(b: ServeManifest, depth: map<Text, nat>, limit: nat, folded: set<Segment>)
    requires Good(b, depth, limit) && folded <= b.segments.Keys
    ensures !Misfiled(b, folded)
  {
    forall s | s in folded ensures !TwoSpans(s) && forall f :: f in ForksIn(s) ==> Names(b, f, s) {
      assert SegmentSound(b, s);
    }
  }

  ///////////////////////////////////////////// one segment /////////////////////////////////////////////

  function KeysOf(s: Segment, part: seq<Item>): set<SpanKey> {
    set f | f in ForksIn(part) :: (s, f)
  }

  /** What has been read of one segment, on top of what was read before it. */
  ghost predicate Reading(s: Segment, k: nat, items0: seq<Item>, raw0: map<SpanKey, seq<Line>>, items: seq<Item>,
                          raw: map<SpanKey, seq<Line>>)
  {
    && k <= |s| && !TwoSpans(s[..k]) && items == items0 + NonSpans(s[..k])
    && raw.Keys == raw0.Keys + KeysOf(s, s[..k])
    && (forall key :: key in raw0 ==> raw[key] == raw0[key])
    && forall f :: f in ForksIn(s[..k]) ==> raw[(s, f)] == SpanOf(s[..k], f)
  }

  lemma ReadStart(s: Segment, items: seq<Item>, raw: map<SpanKey, seq<Line>>)
    ensures Reading(s, 0, items, raw, items, raw)
  {
    assert s[..0] == [] && items + [] == items;
  }

  lemma ForksInMore(s: Segment, k: nat)
    requires k < |s|
    ensures ForksIn(s[..k + 1]) == ForksIn(s[..k]) + if s[k].Span? then {s[k].fork} else {}
  {
    forall f | f in ForksIn(s[..k]) ensures f in ForksIn(s[..k + 1]) {
      var i :| 0 <= i < k && s[..k][i].Span? && s[..k][i].fork == f;
      assert s[..k + 1][i] == s[..k][i];
    }
    if s[k].Span? { assert s[..k + 1][k].fork in ForksIn(s[..k + 1]); }
  }

  lemma PartMore(s: Segment, k: nat, f: string)
    requires k < |s|
    ensures SpanOf(s[..k + 1], f) == SpanOf(s[..k], f) + if s[k].Span? && s[k].fork == f then s[k].lines else []
    ensures NonSpans(s[..k + 1]) == NonSpans(s[..k]) + if s[k].Span? then [] else [s[k]]
  {
    assert s[..k + 1][..k] == s[..k];
  }

  lemma TwoSpansMore(s: Segment, k: nat)
    requires k < |s| && !TwoSpans(s[..k])
    ensures TwoSpans(s[..k + 1]) <==> s[k].Span? && s[k].fork in ForksIn(s[..k])
  {
    if s[k].Span? && s[k].fork in ForksIn(s[..k]) {
      var i :| 0 <= i < k && s[..k][i].Span? && s[..k][i].fork == s[k].fork;
      assert s[..k + 1][i] == s[i] && s[..k + 1][k] == s[k];
    }
    if TwoSpans(s[..k + 1]) {
      var i, j :| 0 <= i < j < k + 1 && s[..k + 1][i].Span? && s[..k + 1][j].Span?
        && s[..k + 1][i].fork == s[..k + 1][j].fork;
      if j < k { assert s[..k][i] == s[i] && s[..k][j] == s[j]; }
      assert s[..k][i] == s[i];
    }
  }

  lemma TwoSpansStay(s: Segment, k: nat)
    requires k <= |s| && TwoSpans(s[..k])
    ensures TwoSpans(s)
  {
    var i, j :| 0 <= i < j < k && s[..k][i].Span? && s[..k][j].Span? && s[..k][i].fork == s[..k][j].fork;
    assert s[i] == s[..k][i] && s[j] == s[..k][j];
  }

  lemma NoSpanYet(items: seq<Item>, f: string)
    requires f !in ForksIn(items)
    ensures SpanOf(items, f) == []
  {
    forall i | 0 <= i < |items| && items[i].Span? ensures items[i].fork != f { assert items[i].fork in ForksIn(items); }
    NoneOfFork(items, f);
  }

  lemma ReadMore(s: Segment, k: nat, items0: seq<Item>, raw0: map<SpanKey, seq<Line>>, items: seq<Item>,
                 raw: map<SpanKey, seq<Line>>)
    requires Reading(s, k, items0, raw0, items, raw) && k < |s| && !(s[k].Span? && s[k].fork in ForksIn(s[..k]))
    requires forall f :: (s, f) !in raw0
    ensures if s[k].Span? then Reading(s, k + 1, items0, raw0, items, raw[(s, s[k].fork) := s[k].lines])
            else Reading(s, k + 1, items0, raw0, items + [s[k]], raw)
  {
    TwoSpansMore(s, k);
    ForksInMore(s, k);
    forall f
      ensures SpanOf(s[..k + 1], f) == SpanOf(s[..k], f) + if s[k].Span? && s[k].fork == f then s[k].lines else [] {
      PartMore(s, k, f);
    }
    PartMore(s, k, "");
    if s[k].Span? {
      NoSpanYet(s[..k], s[k].fork);
      assert [] + s[k].lines == s[k].lines;
    }
  }

  /** One folded segment's entries; two spans of a fork are corruption. */
  method ReadSegment(s: Segment, items0: seq<Item>, raw0: map<SpanKey, seq<Line>>)
    returns (r: Option<(seq<Item>, map<SpanKey, seq<Line>>)>)
    requires forall f :: (s, f) !in raw0
    ensures r.None? <==> TwoSpans(s)
    ensures r.Some? ==> Reading(s, |s|, items0, raw0, r.value.0, r.value.1)
  {
    var items, raw := items0, raw0;
    ReadStart(s, items, raw);
    for k := 0 to |s|
      invariant Reading(s, k, items0, raw0, items, raw)
    {
      TwoSpansMore(s, k);
      if s[k].Span? && (s, s[k].fork) in raw {
        TwoSpansStay(s, k + 1);
        return None;
      }
      ReadMore(s, k, items0, raw0, items, raw);
      if s[k].Span? { raw := raw[(s, s[k].fork) := s[k].lines]; } else { items := items + [s[k]]; }
    }
    assert s[..|s|] == s;
    r := Some((items, raw));
  }

  //////////////////////////////////////////// all segments /////////////////////////////////////////////

  /** Every span of the segments read so far, and nothing else. */
  ghost predicate RawOf(raw: map<SpanKey, seq<Line>>, segments: seq<Segment>) {
    && (forall s, f :: (s, f) in raw <==> s in segments && f in ForksIn(s))
    && forall s, f :: (s, f) in raw ==> raw[(s, f)] == SpanOf(s, f)
  }

  lemma RawMore(raw: map<SpanKey, seq<Line>>, segments: seq<Segment>, s: Segment, items: seq<Item>, items': seq<Item>,
                raw': map<SpanKey, seq<Line>>)
    requires RawOf(raw, segments) && s !in segments && Reading(s, |s|, items, raw, items', raw')
    ensures RawOf(raw', segments + [s]) && items' == items + NonSpans(s)
  {
    assert s[..|s|] == s;
    forall t, f ensures (t, f) in raw' <==> t in segments + [s] && f in ForksIn(t) {
      assert (t, f) in KeysOf(s, s) <==> t == s && f in ForksIn(s);
    }
  }

  /** Every folded segment's entries, in the order given. */
  method ReadAll(list: seq<Segment>) returns (r: Option<(seq<Item>, map<SpanKey, seq<Line>>)>)
    requires NoRepeats(list)
    ensures r.None? <==> exists s :: s in list && TwoSpans(s)
    ensures r.Some? ==> r.value.0 == NonSpans(Flat(list)) && RawOf(r.value.1, list)
  {
    var items: seq<Item>, raw: map<SpanKey, seq<Line>> := [], map[];
    for k := 0 to |list|
      invariant forall s :: s in list[..k] ==> !TwoSpans(s)
      invariant items == NonSpans(Flat(list[..k])) && RawOf(raw, list[..k])
    {
      assert list[k] !in list[..k];
      var read := ReadSegment(list[k], items, raw);
      if read.None? {
        assert list[k] in list;
        return None;
      }
      RawMore(raw, list[..k], list[k], items, read.value.0, read.value.1);
      assert list[..k + 1] == list[..k] + [list[k]] && list[..k + 1][..k] == list[..k];
      NonSpansAppend(Flat(list[..k]), list[k]);
      items, raw := read.value.0, read.value.1;
    }
    assert list[..|list|] == list;
    r := Some((items, raw));
  }

  ///////////////////////////////////////////// by fork /////////////////////////////////////////////////

  /** The spans not yet claimed: those of forks to come, or that no list named. */
  ghost predicate Unclaimed(rest: map<SpanKey, seq<Line>>, raw: map<SpanKey, seq<Line>>, b: ServeManifest,
                            done: set<string>)
  {
    && (forall s, f :: (s, f) in rest <==> (s, f) in raw && !(f in done && Names(b, f, s)))
    && forall s, f :: (s, f) in rest ==> rest[(s, f)] == raw[(s, f)]
  }

  /** `rest` is what is left of `rest0` once the fork has claimed its spans of some segments. */
  ghost predicate Claimed(rest: map<SpanKey, seq<Line>>, rest0: map<SpanKey, seq<Line>>, f: string,
                          segments: seq<Segment>)
  {
    && (forall s, g :: (s, g) in rest <==> (s, g) in rest0 && !(g == f && s in segments))
    && forall s, g :: (s, g) in rest ==> rest[(s, g)] == rest0[(s, g)]
  }

  lemma ClaimedMore(rest: map<SpanKey, seq<Line>>, rest0: map<SpanKey, seq<Line>>, f: string, segments: seq<Segment>,
                    s: Segment)
    requires Claimed(rest, rest0, f, segments)
    ensures Claimed(rest - {(s, f)}, rest0, f, segments + [s])
  {
  }

  /** Claim one fork's spans, in its list's order. */
  method ClaimFork(rest0: map<SpanKey, seq<Line>>, list: seq<Segment>, f: string, ghost segments: seq<Segment>,
                   ghost folded: set<Segment>)
    returns (lines: seq<Line>, rest: map<SpanKey, seq<Line>>)
    requires NoRepeats(list) && forall s :: s in segments <==> s in folded
    requires forall s :: (s, f) in rest0 <==> s in segments && f in ForksIn(s)
    requires forall s :: (s, f) in rest0 ==> rest0[(s, f)] == SpanOf(s, f)
    ensures lines == LogFrom(Within(list, folded), f) && Claimed(rest, rest0, f, list)
  {
    lines, rest := [], rest0;
    for k := 0 to |list|
      invariant lines == LogFrom(Within(list[..k], folded), f)
      invariant Claimed(rest, rest0, f, list[..k])
    {
      var s := list[k];
      assert s !in list[..k];
      ClaimStep(list, k, folded, f);
      ClaimedMore(rest, rest0, f, list[..k], s);
      assert list[..k + 1] == list[..k] + [s];
      if (s, f) in rest { lines := lines + rest[(s, f)]; }
      rest := rest - {(s, f)};
    }
    assert list[..|list|] == list;
  }

  lemma ClaimStep(list: seq<Segment>, k: nat, folded: set<Segment>, f: string)
    requires k < |list|
    ensures LogFrom(Within(list[..k + 1], folded), f)
         == LogFrom(Within(list[..k], folded), f) + if list[k] in folded
           && f in ForksIn(list[k]) then SpanOf(list[k], f) else []
  {
    assert list[..k + 1][..k] == list[..k];
    LogFromAppend(Within(list[..k], folded), [list[k]], f);
    assert [list[k]][..0] == [];
    assert LogFrom([list[k]], f) == SpanOf(list[k], f);
    if f !in ForksIn(list[k]) { NoSpanYet(list[k], f); }
    assert Within(list[..k], folded) + [] == Within(list[..k], folded);
  }

  lemma ClaimedOne(rest: map<SpanKey, seq<Line>>, rest': map<SpanKey, seq<Line>>, raw: map<SpanKey, seq<Line>>,
                   b: ServeManifest, done: set<string>, f: string)
    requires Unclaimed(rest, raw, b, done) && f in b.forks && f !in done
    requires Claimed(rest', rest, f, b.forks[f].logSegments)
    ensures Unclaimed(rest', raw, b, done + {f})
  {
  }

  /** Every fork's folded lines; a span no list names is corruption. */
  method ClaimAll(b: ServeManifest, raw: map<SpanKey, seq<Line>>, ghost segments: seq<Segment>,
                  ghost folded: set<Segment>)
    returns (r: Option<map<string, seq<Line>>>)
    requires RawOf(raw, segments) && (forall s :: s in segments <==> s in folded)
    requires forall f :: f in b.forks ==> NoRepeats(b.forks[f].logSegments)
    ensures r.None? <==> exists s, f :: (s, f) in raw && !Names(b, f, s)
    ensures r.Some? ==> r.value.Keys == b.forks.Keys && forall f :: f in b.forks ==>
        r.value[f] == FoldedLog(b, folded, f)
  {
    var byFork: map<string, seq<Line>>, rest := map[], raw;
    while b.forks.Keys - byFork.Keys != {}
      invariant byFork.Keys <= b.forks.Keys && forall f :: f in byFork ==> byFork[f] == FoldedLog(b, folded, f)
      invariant Unclaimed(rest, raw, b, byFork.Keys)
      decreases b.forks.Keys - byFork.Keys
    {
      var f :| f in b.forks.Keys - byFork.Keys;
      var lines, next := ClaimFork(rest, b.forks[f].logSegments, f, segments, folded);
      ClaimedOne(rest, next, raw, b, byFork.Keys, f);
      byFork, rest := byFork[f := lines], next;
    }
    forall f | f in b.forks ensures f in byFork { assert f !in b.forks.Keys - byFork.Keys; }
    if rest.Keys != {} {
      var key :| key in rest;
      assert (key.0, key.1) in rest;
      return None;
    }
    forall s, f | (s, f) in raw ensures Names(b, f, s) { assert (s, f) !in rest; }
    r := Some(byFork);
  }

  /** Read the folded segments back: an error exactly where a span is misfiled. */
  method FoldInputs(b: ServeManifest, folded: set<Segment>, list: seq<Segment>)
    returns (r: Result<(seq<Item>, map<string, seq<Line>>), Error>)
    requires Lists(list, folded) && forall f :: f in b.forks ==> NoRepeats(b.forks[f].logSegments)
    ensures r.Err? <==> Misfiled(b, folded)
    ensures r.Err? ==> r == Err(Corrupt)
    ensures r.Ok? ==> r.value.0 == NonSpans(Flat(list)) && r.value.1.Keys == b.forks.Keys
    ensures r.Ok? ==> forall f :: f in b.forks ==> r.value.1[f] == FoldedLog(b, folded, f)
  {
    var read := ReadAll(list);
    if read.None? { return Err(Corrupt); }
    var byFork := ClaimAll(b, read.value.1, list, folded);
    if byFork.None? { return Err(Corrupt); }
    r := Ok((read.value.0, byFork.value));
  }

  //////////////////////////////////////////// with the plan ////////////////////////////////////////////

  /** A blob would be stored by two entries. */
  predicate StoredTwice(items: seq<Item>) {
    exists i, j :: 0 <= i < j < |items| && SameBlob(items[i], items[j])
  }

  /** What a plan's items are apart from: each other, and everything stored. */
  ghost predicate NewItems(b: ServeManifest, plan: Plan) {
    && (forall i :: 0 <= i < |plan.items| ==> !plan.items[i].Span? && plan.items[i].Blob() !in BlobsOf(b.segments.Keys))
    && forall i, j :: 0 <= i < j < |plan.items| ==> plan.items[i].Blob() != plan.items[j].Blob()
  }

  lemma {:induction false} NonSpansDistinct(items: seq<Item>)
    requires DistinctBlobs(items)
    ensures DistinctBlobs(NonSpans(items))
  {
    if items != [] {
      var n := |items| - 1;
      NonSpansDistinct(items[..n]);
      NonSpansMembers(items[..n]);
      var kept := NonSpans(items[..n]);
      forall i | 0 <= i < |kept| ensures !SameBlob(kept[i], items[n]) {
        assert kept[i] in kept;
        var k :| 0 <= k < n && items[k] == kept[i];
        assert !SameBlob(items[k], items[n]);
      }
    }
  }

  lemma FoldedMembers(list: seq<Segment>, folded: set<Segment>)
    requires Lists(list, folded)
    ensures forall item :: item in NonSpans(Flat(list)) <==> item in LiveItems(folded)
  {
    NonSpansMembers(Flat(list));
    forall item | item in NonSpans(Flat(list)) ensures item in LiveItems(folded) {
      var a, i := FlatMember(list, item);
      assert list[a] in list;
    }
    forall item | item in LiveItems(folded) ensures item in NonSpans(Flat(list)) {
      var s: Segment, i :| s in folded && 0 <= i < |s| && !s[i].Span? && s[i] == item;
      var a :| 0 <= a < |list| && list[a] == s;
      var n := FlatAt(list, a, i);
      assert Flat(list)[n] in Flat(list);
    }
  }

  /** Over a good manifest nothing folded is stored twice, nor stored again by the plan. */
  lemma JoinedDistinct(b: ServeManifest, folded: set<Segment>, list: seq<Segment>, plan: Plan)
    requires UniqueBlobs(b.segments.Keys) && folded <= b.segments.Keys && Lists(list, folded) && NewItems(b, plan)
    ensures !StoredTwice(NonSpans(Flat(list)) + plan.items)
  {
    FlatDistinct(list, b.segments.Keys);
    NonSpansDistinct(Flat(list));
    FoldedMembers(list, folded);
    var kept := NonSpans(Flat(list));
    var items := kept + plan.items;
    forall i, j | 0 <= i < j < |items| ensures !SameBlob(items[i], items[j]) {
      if j < |kept| {
        assert !SameBlob(kept[i], kept[j]);
      } else if i < |kept| {
        assert kept[i] in kept && kept[i] in LiveItems(b.segments.Keys);
        assert !plan.items[j - |kept|].Span? && plan.items[j - |kept|].Blob() !in BlobsOf(b.segments.Keys);
      } else {
        assert plan.items[i - |kept|].Blob() != plan.items[j - |kept|].Blob();
      }
    }
  }

  lemma JoinedIsFold(b: ServeManifest, folded: set<Segment>, list: seq<Segment>, plan: Plan, spans: seq<Item>)
    requires Lists(list, folded) && NewItems(b, plan) && !StoredTwice(NonSpans(Flat(list)) + plan.items)
    requires IsSpans(spans, b.forks.Keys + plan.heads.Keys, f => FoldedLog(b, folded, f) + SpanOf(plan.spans, f))
    ensures IsFold(b, folded, plan, NonSpans(Flat(list)) + plan.items, spans)
  {
    var kept := NonSpans(Flat(list));
    FoldedMembers(list, folded);
    NonSpansMembers(Flat(list));
    var items := kept + plan.items;
    forall i | 0 <= i < |items| ensures !items[i].Span? {
      if i < |kept| { assert kept[i] in kept; }
    }
    forall i, j | 0 <= i < j < |items| ensures items[i].Blob() != items[j].Blob() {
      assert !SameBlob(items[i], items[j]);
    }
  }
}
