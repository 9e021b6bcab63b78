/** The manifest a push publishes (src/delta.rs, `assemble`), and what every swap keeps. */
module Swap {
  import opened Wrappers
  import opened Spans
  import opened Patch
  import opened Logs
  import opened Segments
  import opened Serve
  import opened Remote
  import opened Delta

  /** The lines of a fork the folded segments hold, in its list's order. */
  function FoldedLog(b: ServeManifest, folded: set<Segment>, f: string): seq<Line> {
    if f in b.forks then LogFrom(Within(b.forks[f].logSegments, folded), f) else []
  }

  /** The inputs of the segments to build: what is folded and what is pushed, each fork's
      spans coalesced in log order. */
  ghost predicate IsFold(b: ServeManifest, folded: set<Segment>, plan: Plan, items: seq<Item>, spans: seq<Item>) {
    && (forall i :: 0 <= i < |items| ==> !items[i].Span?)
    && (forall i, j :: 0 <= i < j < |items| ==> items[i].Blob() != items[j].Blob())
    && (forall item :: item in items <==> item in plan.items || item in LiveItems(folded))
    && IsSpans(spans, b.forks.Keys + plan.heads.Keys, f => FoldedLog(b, folded, f) + SpanOf(plan.spans, f))
  }

  /** The built segments that carry a span of the fork. */
  function Carrying(built: seq<Segment>, f: string): seq<Segment> {
    if built == [] then []
    else
      var last := built[|built| - 1];
      Carrying(built[..|built| - 1], f) + if SpanOf(last, f) != [] then [last] else []
  }

  function Relisted(head: ForkHead, f: string, folded: set<Segment>, built: seq<Segment>): ForkHead {
    head.(logSegments := Outside(head.logSegments, folded) + Carrying(built, f))
  }

  /** The next manifest: planned heads replace the old, folded segments leave every list and
      the live set, built ones enter. */
  function Next(published: Option<ServeManifest>, heads: map<string, ForkHead>, folded: set<Segment>,
                built: seq<Segment>, packedLen: Segment -> nat): ServeManifest
  {
    var b := BaseOf(published);
    var forks := b.forks + heads;
    ServeManifest(b.number + 1, published,
                  map f | f in forks :: Relisted(forks[f], f, folded, built),
                  map s | s in b.segments.Keys - folded + (set s | s in built) :: if s in built then packedLen(s)
                    else b.segments[s],
                  folded)
  }

  /** One push attempt, as far as its outcome goes. */
  datatype Attempt = Attempt(published: Option<ServeManifest>, depth: map<Text, nat>, limit: nat, local: Local,
                             pool: set<Text>, synced: map<string, Id>, plan: Plan, folded: set<Segment>,
                             items: seq<Item>, spans: seq<Item>, built: seq<Segment>, packedLen: Segment -> nat)
  {
    function Base(): ServeManifest {
      BaseOf(published)
    }

    function Result(): ServeManifest {
      Next(published, plan.heads, folded, built, packedLen)
    }

    /** Planned over a good manifest. */
    ghost predicate Planned() {
      Good(Base(), depth, limit) && LocalSound(local) && IsPlan(Base(), depth, local, pool, synced, limit, plan)
    }

    predicate Empty() {
      plan.items == [] && plan.spans == [] && plan.heads == map[]
    }

    /** The attempt planned, folded and built as a push does, over a good manifest. */
    ghost predicate Honest() {
      && Planned()
      && Foldable(Base(), folded) && IsFold(Base(), folded, plan, items, spans)
      && Flat(built) == items + spans && forall k :: 0 <= k < |built| ==> built[k] != []
    }
  }

  ////////////////////////////////////////////// positions //////////////////////////////////////////////

  predicate Clashes(x: Item, y: Item) {
    SameBlob(x, y) || (x.Span? && y.Span? && x.fork == y.fork)
  }

  ghost predicate ClashFree(inputs: seq<Item>) {
    forall m, n :: 0 <= m < n < |inputs| ==> !Clashes(inputs[m], inputs[n])
  }

  lemma FlatPrefix(built: seq<Segment>, a: nat)
    requires a <= |built|
    ensures Flat(built[..a]) <= Flat(built)
  {
    if a < |built| {
      FlatPrefix(built[..|built| - 1], a);
      assert built[..|built| - 1][..a] == built[..a];
    } else {
      assert built[..a] == built;
    }
  }

  /** Where an entry of a built segment stands among the inputs. */
  lemma FlatAt(built: seq<Segment>, a: nat, i: nat) returns (n: nat)
    requires a < |built| && i < |built[a]|
    ensures n == |Flat(built[..a])| + i && n < |Flat(built[..a + 1])| <= |Flat(built)|
    ensures Flat(built)[n] == built[a][i]
  {
    FlatPrefix(built, a + 1);
    assert built[..a + 1][..a] == built[..a];
    n := |Flat(built[..a])| + i;
    assert Flat(built[..a + 1])[n] == built[a][i];
  }

  lemma FlatLonger(built: seq<Segment>, a: nat, c: nat)
    requires a < c <= |built|
    ensures |Flat(built[..a + 1])| <= |Flat(built[..c])|
  {
    FlatPrefix(built[..c], a + 1);
    assert built[..c][..a + 1] == built[..a + 1];
  }

  /** Entries at different places of clash-free inputs do not clash. */
  lemma PlacesClashFree(built: seq<Segment>, a: nat, i: nat, c: nat, j: nat)
    requires ClashFree(Flat(built)) && a < |built| && c < |built| && i < |built[a]| && j < |built[c]|
    requires Clashes(built[a][i], built[c][j])
    ensures a == c && i == j
  {
    var m := FlatAt(built, a, i);
    var n := FlatAt(built, c, j);
    if a < c { FlatLonger(built, a, c); }
    if c < a { FlatLonger(built, c, a); }
    OnePlace(Flat(built), m, n);
  }

  lemma OnePlace(inputs: seq<Item>, m: nat, n: nat)
    requires ClashFree(inputs) && m < |inputs| && n < |inputs| && Clashes(inputs[m], inputs[n])
    ensures m == n
  {
    ClashesBothWays(inputs[m], inputs[n]);
  }

  lemma ClashesBothWays(x: Item, y: Item)
    ensures Clashes(x, y) == Clashes(y, x)
  {
  }

  lemma FlatMember(built: seq<Segment>, item: Item) returns (a: nat, i: nat)
    requires item in Flat(built)
    ensures a < |built| && i < |built[a]| && built[a][i] == item
  {
    var last := |built| - 1;
    if item in built[last] {
      a := last;
      i :| 0 <= i < |built[last]| && built[last][i] == item;
    } else {
      a, i := FlatMember(built[..last], item);
    }
  }

  lemma InputsClashFree(b: ServeManifest, folded: set<Segment>, plan: Plan, items: seq<Item>, spans: seq<Item>)
    requires IsFold(b, folded, plan, items, spans)
    ensures ClashFree(items + spans)
  {
  }

  /////////////////////////////////////////////// logs //////////////////////////////////////////////////

  lemma CarryingKeepsLog(built: seq<Segment>, f: string)
    ensures LogFrom(Carrying(built, f), f) == LogFrom(built, f)
  {
    if built != [] {
      var init, last := built[..|built| - 1], built[|built| - 1];
      CarryingKeepsLog(init, f);
      LogFromAppend(Carrying(init, f), if SpanOf(last, f) != [] then [last] else [], f);
      assert [last][..0] == [];
      assert LogFrom([last], f) == SpanOf(last, f);
    }
  }

  lemma NoSpans(items: seq<Item>, f: string)
    requires forall i :: 0 <= i < |items| ==> !items[i].Span?
    ensures SpanOf(items, f) == []
  {
    if items != [] { NoSpans(items[..|items| - 1], f); }
  }

  lemma WithinAll(list: seq<Segment>, c: set<Segment>)
    requires forall k :: 0 <= k < |list| ==> list[k] in c
    ensures Within(list, c) == list && Outside(list, c) == []
  {
    if list != [] { WithinAll(list[..|list| - 1], c); }
  }

  /** Where the folded segments are a suffix of the list, the log splits at the cut. */
  lemma SuffixSplits(list: seq<Segment>, c: set<Segment>, cut: nat)
    requires CutsAt(list, c, cut)
    ensures Outside(list, c) == list[..cut] && Within(list, c) == list[cut..]
  {
    if list != [] {
      var init, last := list[..|list| - 1], list[|list| - 1];
      assert list == init + [last];
      if cut == |list| {
        SuffixSplits(init, c, cut - 1);
        assert last !in c;
        assert init[..cut - 1] + [last] == list[..cut];
      } else {
        SuffixSplits(init, c, cut);
        assert last in c;
        assert init[..cut] == list[..cut] && init[cut..] + [last] == list[cut..];
      }
    }
  }

  lemma FoldedSplits(list: seq<Segment>, c: set<Segment>, f: string)
    requires IsSuffix(list, c)
    ensures LogFrom(Outside(list, c), f) + LogFrom(Within(list, c), f) == LogFrom(list, f)
  {
    var cut: nat :| CutsAt(list, c, cut);
    SuffixSplits(list, c, cut);
    assert list == list[..cut] + list[cut..];
    LogFromAppend(list[..cut], list[cut..], f);
  }

  function LogBefore(b: ServeManifest, f: string): seq<Line> {
    if f in b.forks then LogOf(b, f) else []
  }

  function ListBefore(b: ServeManifest, f: string): seq<Segment> {
    if f in b.forks then b.forks[f].logSegments else []
  }

  lemma NextList(at: Attempt, f: string)
    requires at.Honest() && f in at.Result().forks
    ensures at.Result().forks[f].logSegments == Outside(ListBefore(at.Base(), f), at.folded) + Carrying(at.built, f)
  {
  }

  lemma BuiltLog(at: Attempt, f: string)
    requires at.Honest()
    ensures LogFrom(Carrying(at.built, f), f) == SpanOf(at.spans, f)
  {
    CarryingKeepsLog(at.built, f);
    LogIsFlat(at.built, f);
    SpanOfAppend(at.items, at.spans, f);
    NoSpans(at.items, f);
    assert [] + SpanOf(at.spans, f) == SpanOf(at.spans, f);
  }

  lemma SpansPlanned(at: Attempt, f: string)
    requires at.Honest()
    ensures SpanOf(at.spans, f) == FoldedLog(at.Base(), at.folded, f) + Pushed(at.Base(), at.local, at.synced, f)
  {
    assert SpanOf(at.plan.spans, f) == Pushed(at.Base(), at.local, at.synced, f);
  }

  /** What stays of a fork's list, then what is built for it. */
  lemma NextLogSplits(at: Attempt, f: string)
    requires at.Honest() && f in at.Result().forks
    ensures LogOf(at.Result(), f) == LogFrom(Outside(ListBefore(at.Base(), f), at.folded), f) + SpanOf(at.spans, f)
  {
    NextList(at, f);
    LogFromAppend(Outside(ListBefore(at.Base(), f), at.folded), Carrying(at.built, f), f);
    BuiltLog(at, f);
  }

  lemma KeptAndFolded(at: Attempt, f: string)
    requires at.Honest()
    ensures LogFrom(Outside(ListBefore(at.Base(), f), at.folded), f) + FoldedLog(at.Base(), at.folded, f)
        == LogBefore(at.Base(), f)
  {
    if f in at.Base().forks {
      assert Foldable(at.Base(), at.folded);
      FoldedSplits(at.Base().forks[f].logSegments, at.folded, f);
    }
  }

  /** Folding is order-safe: after a swap each fork's log is its old log followed by its pushed
      span, whatever was folded and wherever the segments were cut. */
  lemma NextLog(at: Attempt, f: string)
    requires at.Honest() && f in at.Result().forks
    ensures LogOf(at.Result(), f) == LogBefore(at.Base(), f) + Pushed(at.Base(), at.local, at.synced, f)
  {
    NextLogSplits(at, f);
    SpansPlanned(at, f);
    KeptAndFolded(at, f);
    Regroup(LogFrom(Outside(ListBefore(at.Base(), f), at.folded), f), FoldedLog(at.Base(), at.folded, f),
            Pushed(at.Base(), at.local, at.synced, f));
  }

  lemma Regroup(a: seq<Line>, b: seq<Line>, c: seq<Line>)
    ensures a + (b + c) == (a + b) + c
  {
  }
}
