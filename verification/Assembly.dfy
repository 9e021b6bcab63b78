/** A push, planned and assembled (src/delta.rs): the steps that make an honest attempt. */
module Assembly {
  import opened Wrappers
  import opened Spans
  import opened Patch
  import opened Logs
  import opened Segments
  import opened Serve
  import opened Remote
  import opened Delta
  import opened PlanPush
  import opened Swap
  import opened SwapGood
  import opened Images
  import opened Folding

  ////////////////////////////////////////////// the plan ///////////////////////////////////////////////

  function ItemFor(t: Text, classes: Classes): Item {
    if t in classes && classes[t].AsConstruct? then Construct(t, classes[t].base, classes[t].line) else Keyframe(t)
  }

  function DepthFor(t: Text, classes: Classes): nat {
    if t in classes then ClassDepth(classes[t]) else 0
  }

  ghost predicate ItemsSoFar(items: seq<Item>, done: set<Text>, classes: Classes) {
    && (forall i :: 0 <= i < |items| ==>
        !items[i].Span? && items[i].Blob() in done && items[i] == ItemFor(items[i].Blob(), classes))
    && (forall i, j :: 0 <= i < j < |items| ==> items[i].Blob() != items[j].Blob())
    && forall t :: t in done ==> exists i :: 0 <= i < |items| && items[i].Blob() == t
  }

  lemma ItemAdded(items: seq<Item>, done: set<Text>, classes: Classes, t: Text)
    requires ItemsSoFar(items, done, classes) && t !in done
    ensures ItemsSoFar(items + [ItemFor(t, classes)], done + {t}, classes)
  {
    var more := items + [ItemFor(t, classes)];
    forall u | u in done + {t} ensures exists i :: 0 <= i < |more| && more[i].Blob() == u {
      if u == t {
        assert more[|items|].Blob() == t;
      } else {
        var i :| 0 <= i < |items| && items[i].Blob() == u;
        assert more[i].Blob() == u;
      }
    }
  }

  /** Every blob to send, as it was classified. */
  method ListItems(send: set<Text>, classes: Classes) returns (items: seq<Item>)
    ensures ItemsSoFar(items, send, classes)
  {
    items := [];
    var done: set<Text> := {};
    while send - done != {}
      invariant done <= send && ItemsSoFar(items, done, classes)
      decreases send - done
    {
      var t :| t in send - done;
      ItemAdded(items, done, classes, t);
      items, done := items + [ItemFor(t, classes)], done + {t};
    }
    forall t | t in send ensures t in done { assert t !in send - done; }
    assert done == send;
  }

  lemma ItemRanked(t: Text, known: map<Text, nat>, classes: Classes, cands: seq<Candidate>, limit: nat, send: set<Text>,
                   depth: map<Text, nat>)
    requires t in send && classes.Keys <= send && known.Keys !! send
    requires ClassesSound(known, classes, cands, limit)
    requires depth == map u | u in send :: DepthFor(u, classes)
    ensures RankedItem(ItemFor(t, classes), known + depth) && depth[t] <= limit
  {
    if t in classes { assert ClassSound(known, classes, t, cands, limit); }
  }

  lemma ItemsPlanned(items: seq<Item>, spans: seq<Item>, send: set<Text>, known: map<Text, nat>, classes: Classes,
                     cands: seq<Candidate>, limit: nat)
    requires ItemsSoFar(items, send, classes) && ClassesSound(known, classes, cands, limit)
        && Candidates(cands, spans, send)
    requires known.Keys !! send && forall t :: t in classes <==> exists c :: c in cands && c.target == t
    ensures IsItems(items, spans, send, known, map t | t in send :: DepthFor(t, classes), limit)
  {
    var depth := map t | t in send :: DepthFor(t, classes);
    forall t | t in send ensures RankedItem(ItemFor(t, classes), known + depth) && depth[t] <= limit {
      ItemRanked(t, known, classes, cands, limit, send, depth);
    }
    forall i | 0 <= i < |items| ensures FromSpans(items[i], spans) {
      if items[i].Construct? {
        var t := items[i].target;
        assert ClassSound(known, classes, t, cands, limit);
        assert Candidate(t, items[i].base, items[i].line) in cands;
      }
    }
  }

  lemma CandidatesAreSent(cands: seq<Candidate>, spans: seq<Item>, send: set<Text>)
    requires Candidates(cands, spans, send)
    ensures Distinct(cands) && TargetsOf(cands) <= send
  {
  }

  /** The plan of a push: an error exactly where a fork diverged (or a construct's base cannot be
      read), else one that meets `IsPlan` over the depths the view holds. */
  method PlanOf(b: ServeManifest, view: View, local: Local, pool: set<Text>, synced: map<string, Id>, limit: nat)
    returns (r: Result<Plan, Error>)
    requires Good(b, view.depth, limit) && view.blobs.Keys == BlobsOf(b.segments.Keys)
    ensures (exists f :: f in local && DecisionFor(b, local, synced, f).Diverged?) <==> r == Err(Invalid)
    ensures r.Ok? ==> IsPlan(b, view.depth, local, pool, synced, limit, r.value)
  {
    var forks := DecideForks(b, local, synced);
    if forks.Err? { return Err(Invalid); }
    var (heads, now) := forks.value;
    var lines := map f | f in local :: Pushed(b, local, synced, f);
    var spans := ListSpans(lines);
    SpansAreAll(spans, lines, b, local, synced, heads.Keys);
    var send := pool - view.blobs.Keys;
    StoredDepths(b, view.depth, limit);
    var cands := Collect(spans, send);
    CandidatesAreSent(cands, spans, send);
    ghost var stuck;
    var classes;
    classes, stuck := Classify(view.depth, send, pool, cands, limit);
    if classes.Err? { return Err(Io); }
    ClassifiedIsSound(view.depth, classes.value, send, cands, stuck, limit);
    var items := ListItems(send, classes.value);
    ItemsPlanned(items, spans, send, view.depth, classes.value, cands, limit);
    r := Ok(Plan(items, spans, heads, now, map t | t in send :: DepthFor(t, classes.value)));
  }

  ////////////////////////////////////////////// assembly ///////////////////////////////////////////////

  lemma PlanIsNew(b: ServeManifest, known: map<Text, nat>, local: Local, pool: set<Text>, synced: map<string, Id>,
                  limit: nat, plan: Plan)
    requires IsPlan(b, known, local, pool, synced, limit, plan)
    ensures NewItems(b, plan) && SpansOf(plan.spans, plan.heads.Keys)
  {
  }

  lemma NoneFolded(b: ServeManifest, f: string)
    ensures FoldedLog(b, {}, f) == []
  {
    if f in b.forks { WithinNone(b.forks[f].logSegments); }
  }

  lemma FoldingNone(b: ServeManifest)
    ensures Foldable(b, {})
  {
    forall f | f in b.forks ensures IsSuffix(b.forks[f].logSegments, {}) {
      assert CutsAt(b.forks[f].logSegments, {}, |b.forks[f].logSegments|);
    }
  }

  /** Unfolded, a plan is its own inputs. */
  lemma PlanIsFold(b: ServeManifest, known: map<Text, nat>, local: Local, pool: set<Text>, synced: map<string, Id>,
                   limit: nat, plan: Plan)
    requires IsPlan(b, known, local, pool, synced, limit, plan)
    ensures IsFold(b, {}, plan, plan.items, plan.spans)
  {
    PlanIsNew(b, known, local, pool, synced, limit, plan);
    NothingFolds(b, plan);
  }

  lemma NothingFolds(b: ServeManifest, plan: Plan)
    requires NewItems(b, plan) && SpansOf(plan.spans, plan.heads.Keys)
    ensures IsFold(b, {}, plan, plan.items, plan.spans)
  {
    forall f ensures FoldedLog(b, {}, f) + SpanOf(plan.spans, f) == SpanOf(plan.spans, f) { NoneFolded(b, f); }
  }

  lemma WithinNone(list: seq<Segment>)
    ensures Within(list, {}) == []
  {
    if list != [] { WithinNone(list[..|list| - 1]); }
  }

  /** A set of segments, each once, in some order. */
  method ListSegments(segments: set<Segment>) returns (list: seq<Segment>)
    ensures Lists(list, segments)
  {
    list := [];
    var todo := segments;
    while todo != {}
      invariant todo <= segments && NoRepeats(list)
      invariant forall s :: s in list <==> s in segments && s !in todo
      decreases |todo|
    {
      var s :| s in todo;
      list, todo := list + [s], todo - {s};
    }
  }

  lemma FoldSpans(b: ServeManifest, folded: set<Segment>, plan: Plan, spans: seq<Item>, lines: map<string, seq<Line>>)
    requires SpansOf(plan.spans, plan.heads.Keys) && SpansSoFar(spans, lines.Keys, lines)
    requires lines.Keys == b.forks.Keys + plan.heads.Keys
    requires forall f :: f in lines ==> lines[f] == FoldedLog(b, folded, f) + SpanOf(plan.spans, f)
    ensures IsSpans(spans, b.forks.Keys + plan.heads.Keys, f => FoldedLog(b, folded, f) + SpanOf(plan.spans, f))
  {
    forall f ensures SpanOf(spans, f) == FoldedLog(b, folded, f) + SpanOf(plan.spans, f) {
      if f !in lines { NoSpanOf(plan.spans, plan.heads.Keys, f); }
    }
  }

  /** Each fork's folded lines and pushed span as one. */
  method JoinSpans(b: ServeManifest, ghost folded: set<Segment>, byFork: map<string, seq<Line>>, plan: Plan)
    returns (spans: seq<Item>)
    requires byFork.Keys == b.forks.Keys && forall f :: f in b.forks ==> byFork[f] == FoldedLog(b, folded, f)
    requires SpansOf(plan.spans, plan.heads.Keys)
    ensures IsSpans(spans, b.forks.Keys + plan.heads.Keys, f => FoldedLog(b, folded, f) + SpanOf(plan.spans, f))
  {
    var lines := map f | f in b.forks.Keys + plan.heads.Keys :: (if f in byFork then byFork[f] else [])
      + SpanOf(plan.spans, f);
    spans := ListSpans(lines);
    FoldSpans(b, folded, plan, spans, lines);
  }

  /** The folded entries and the planned ones, each fork's spans made one: refused where a span is
      misfiled or a blob would be stored twice, which a good manifest rules out. */
  method JoinInputs(b: ServeManifest, folded: set<Segment>, list: seq<Segment>, plan: Plan, ghost depth: map<Text, nat>,
                    ghost limit: nat)
    returns (r: Result<(seq<Item>, seq<Item>), Error>)
    requires Good(b, depth, limit) && folded <= b.segments.Keys && Lists(list, folded) && NewItems(b, plan)
    requires SpansOf(plan.spans, plan.heads.Keys)
    ensures r.Ok? && IsFold(b, folded, plan, r.value.0, r.value.1)
  {
    NoneMisfiled(b, depth, limit, folded);
    ListsOnce(b, depth, limit);
    var read := FoldInputs(b, folded, list);
    if read.Err? { return Err(Corrupt); }
    var spans := JoinSpans(b, folded, read.value.1, plan);
    JoinedDistinct(b, folded, list, plan);
    var items := read.value.0 + plan.items;
    if StoredTwice(items) { return Err(Corrupt); }
    JoinedIsFold(b, folded, list, plan, spans);
    r := Ok((items, spans));
  }

  lemma ListsOnce(b: ServeManifest, depth: map<Text, nat>, limit: nat)
    requires Good(b, depth, limit)
    ensures forall f :: f in b.forks ==> NoRepeats(b.forks[f].logSegments)
  {
    forall f | f in b.forks ensures NoRepeats(b.forks[f].logSegments) { assert HeadSound(b, f); }
  }

  lemma NoSpanOf(spans: seq<Item>, forks: set<string>, f: string)
    requires SpansOf(spans, forks) && f !in forks
    ensures SpanOf(spans, f) == []
  {
    if spans != [] { NoSpanOf(spans[..|spans| - 1], forks, f); }
  }

  /** What to build: the plan's own inputs, or, once enough small segments have gathered, those
      joined with what the segments to fold hold. */
  method FoldPlan(b: ServeManifest, plan: Plan, policy: Policy, ghost depth: map<Text, nat>, ghost local: Local,
                  ghost pool: set<Text>, ghost synced: map<string, Id>)
    returns (r: Result<(seq<Item>, seq<Item>), Error>, folded: set<Segment>, list: seq<Segment>)
    requires Good(b, depth, policy.keyframeInterval)
        && IsPlan(b, depth, local, pool, synced, policy.keyframeInterval, plan)
    ensures Foldable(b, folded) && folded <= b.segments.Keys && Lists(list, folded)
    ensures r.Ok? && IsFold(b, folded, plan, r.value.0, r.value.1)
  {
    var candidates := CompactionCandidates(b, policy.smallSegment);
    folded := if |candidates| >= policy.compactTrigger then candidates else {};
    list := ListSegments(folded);
    FoldingNone(b);
    PlanIsFold(b, depth, local, pool, synced, policy.keyframeInterval, plan);
    r := Ok((plan.items, plan.spans));
    if folded != {} {
      PlanIsNew(b, depth, local, pool, synced, policy.keyframeInterval, plan);
      r := JoinInputs(b, folded, list, plan, depth, policy.keyframeInterval);
    }
  }

  /** From an honest plan to an honest attempt: what it built, and the manifest it would publish;
      `None` exactly for an empty plan.  Over a good manifest no check on the way fails. */
  method Assemble(published: Option<ServeManifest>, view: View, local: Local, pool: set<Text>, synced: map<string, Id>,
                  plan: Plan, policy: Policy)
    returns (r: Result<Option<(seq<Segment>, ServeManifest)>, Error>, ghost at: Attempt)
    requires Good(BaseOf(published), view.depth, policy.keyframeInterval) && LocalSound(local)
    requires IsPlan(BaseOf(published), view.depth, local, pool, synced, policy.keyframeInterval, plan)
    ensures at.Planned() && at.published == published && at.local == local && at.pool == pool && at.synced == synced
            && at.plan == plan && at.limit == policy.keyframeInterval
    ensures r.Ok? && (r.value.None? <==> at.Empty())
    ensures r.value.Some? ==> at.Honest() && r.value.value == (at.built, at.Result())
  {
    var b := BaseOf(published);
    at := Attempt(published, view.depth, policy.keyframeInterval, local, pool, synced, plan, {}, plan.items, plan.spans,
                  [], policy.packedLen);
    if plan.items == [] && plan.spans == [] && plan.heads == map[] { return Ok(None), at; }
    var inputs, folded, list := FoldPlan(b, plan, policy, view.depth, local, pool, synced);
    if inputs.Err? { return Err(Corrupt), at; }
    var (items, spans) := inputs.value;
    var built := BuildSegments(items + spans, policy.segmentTarget, policy.lineLen);
    at := Attempt(published, view.depth, policy.keyframeInterval, local, pool, synced, plan, folded, items, spans,
                  built, policy.packedLen);
    ImageConserved(at, list);
    if !Balances(built, list, plan) { return Err(Corrupt), at; }
    r := Ok(Some((built, Next(published, plan.heads, folded, built, policy.packedLen))));
  }
}
