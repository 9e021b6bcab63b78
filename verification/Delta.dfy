/** What planning a push decides (src/delta.rs): where each fork stands, what is sent, what may fold. */
module Delta {
  import opened Wrappers
  import opened Spans
  import opened Patch
  import opened Setsum
  import opened Logs
  import opened Segments
  import opened Serve
  import opened Remote

  /** Packing policy; the lengths stand for the bytes of a stored line and of a payload. */
  datatype Policy = Policy(segmentTarget: nat, keyframeInterval: nat, compactTrigger: nat, smallSegment: nat,
                           lineLen: Line -> nat, packedLen: Segment -> nat)

  datatype LocalFork = LocalFork(anchor: Sum, sum: Sum, lines: seq<Line>)

  type Local = map<string, LocalFork>

  /** Loading a local fork has checked its chain. */
  ghost predicate LocalSound(local: Local) {
    forall f :: f in local ==> Chained(local[f].lines)
  }

  /** An empty store plans like an empty manifest. */
  const NOTHING := ServeManifest(0, None, map[], map[], {})

  function BaseOf(published: Option<ServeManifest>): ServeManifest {
    if published.Some? then published.value else NOTHING
  }

  //////////////////////////////////////////// fork ranges //////////////////////////////////////////////

  datatype Decision = InSync | Advance(from: nat) | Behind | Diverged

  function PositionOf(lines: seq<Line>, id: Id): (r: Option<nat>)
    ensures r.Some? ==> r.value < |lines| && Of(lines[r.value]) == id
    ensures r.None? ==> forall k :: 0 <= k < |lines| ==> Of(lines[k]) != id
  {
    if lines == [] then None
    else match PositionOf(lines[..|lines| - 1], id)
      case Some(k) => Some(k)
      case None => if Of(lines[|lines| - 1]) == id then Some(|lines| - 1) else None
  }

  /** What a push does with one local fork. */
  function Decide(remote: Option<ForkHead>, lines: seq<Line>, synced: Option<Id>): Decision {
    if remote.None? then Advance(0)
    else if remote.value.headId == HeadId(lines) then InSync
    else if remote.value.headId == Root then Advance(0)
    else match PositionOf(lines, remote.value.headId)
      case Some(p) => Advance(p + 1)
      case None => if synced == Some(HeadId(lines)) then Behind else Diverged
  }

  /** A fork is pushed past exactly where the store's log is a prefix of the local one; one
      that is not is left alone or refused, never spliced. */
  lemma DecideIsSafe(remote: ForkHead, log: seq<Line>, lines: seq<Line>, synced: Option<Id>)
    requires Chained(lines) && Chained(log) && remote.headId == HeadId(log)
    ensures var d := Decide(Some(remote), lines, synced);
            && (d.InSync? <==> log == lines)
            && (d.Advance? <==> log < lines)
            && (d.Advance? ==> d.from == |log| && lines[..d.from] == log)
            && (d.Behind? || d.Diverged? <==> !(log <= lines))
            && (d.Diverged? <==> !(log <= lines) && synced != Some(HeadId(lines)))
  {
    if remote.headId == HeadId(lines) {
      HeadFixesLog(log, lines);
    } else if log != [] {
      assert log <= lines ==> lines[|log| - 1] == log[|log| - 1];
      assert log[..|log|] == log;
      match PositionOf(lines, remote.headId) {
        case Some(p) => SharedLineSharesPrefix(log, lines, |log| - 1, p);
        case None =>
      }
    }
  }

  function HeadOf(b: ServeManifest, f: string): Option<ForkHead> {
    if f in b.forks then Some(b.forks[f]) else None
  }

  function SyncedAt(synced: map<string, Id>, f: string): Option<Id> {
    if f in synced then Some(synced[f]) else None
  }

  function DecisionFor(b: ServeManifest, local: Local, synced: map<string, Id>, f: string): Decision
    requires f in local
  {
    Decide(HeadOf(b, f), local[f].lines, SyncedAt(synced, f))
  }

  /** The lines of a fork this push carries. */
  function Pushed(b: ServeManifest, local: Local, synced: map<string, Id>, f: string): seq<Line> {
    if f !in local then []
    else match DecisionFor(b, local, synced, f)
      case Advance(from) => if from <= |local[f].lines| then local[f].lines[from..] else []
      case _ => []
  }

  function NewHead(b: ServeManifest, local: Local, f: string): ForkHead
    requires f in local
  {
    ForkHead(local[f].anchor, HeadId(local[f].lines), local[f].sum, if f in b.forks then b.forks[f].logSegments else [])
  }

  /** Forks whose head is published: those that advance, and those whose anchor moved. */
  predicate Publishes(b: ServeManifest, local: Local, synced: map<string, Id>, f: string)
    requires f in local
  {
    match DecisionFor(b, local, synced, f)
    case Advance(_) => true
    case InSync => f in b.forks && (b.forks[f].anchor != local[f].anchor || b.forks[f].headSum != local[f].sum)
    case _ => false
  }

  /** The heads published for some of the forks. */
  function NewHeads(b: ServeManifest, local: Local, synced: map<string, Id>, forks: set<string>): map<string, ForkHead>
    requires forks <= local.Keys
  {
    map f | f in forks && Publishes(b, local, synced, f) :: NewHead(b, local, f)
  }

  /** Once the push is through, these forks' heads are the store's. */
  function NewSynced(b: ServeManifest, local: Local, synced: map<string, Id>, forks: set<string>): map<string, Id>
    requires forks <= local.Keys
  {
    map f | f in forks && (DecisionFor(b, local, synced, f).InSync? || DecisionFor(b, local, synced, f).Advance?) ::
      HeadId(local[f].lines)
  }

  datatype Plan = Plan(items: seq<Item>, spans: seq<Item>, heads: map<string, ForkHead>, synced: map<string, Id>,
                       depth: map<Text, nat>)

  /** Non-empty spans of some of the forks, one each. */
  ghost predicate SpansOf(spans: seq<Item>, forks: set<string>) {
    && (forall i :: 0 <= i < |spans| ==> spans[i].Span? && spans[i].lines != [] && spans[i].fork in forks)
    && forall i, j :: 0 <= i < j < |spans| ==> spans[i].fork != spans[j].fork
  }

  /** Spans of the forks that are together exactly what `lines` assigns each. */
  ghost predicate IsSpans(spans: seq<Item>, forks: set<string>, lines: string -> seq<Line>) {
    SpansOf(spans, forks) && forall f :: SpanOf(spans, f) == lines(f)
  }

  /** Items: each a blob the store lacks, exactly once; a construct among them replays from a
      line being pushed, and is one deeper than a base that is stored or sent. */
  ghost predicate IsItems(items: seq<Item>, spans: seq<Item>, send: set<Text>, known: map<Text, nat>,
                          depth: map<Text, nat>, limit: nat)
  {
    && depth.Keys == send && Bounded(depth, limit)
    && (forall i :: 0 <= i < |items| ==>
          !items[i].Span? && items[i].Blob() in send && RankedItem(items[i], known + depth)
            && FromSpans(items[i], spans))
    && (forall i, j :: 0 <= i < j < |items| ==> items[i].Blob() != items[j].Blob())
    && forall t :: t in send ==> exists i :: 0 <= i < |items| && items[i].Blob() == t
  }

  predicate FromSpans(item: Item, spans: seq<Item>) {
    item.Construct? ==>
      && ConstructBlob(item.base, item.line, item.target).Ok?
      && exists k :: 0 <= k < |spans| && spans[k].Span? && item.line in spans[k].lines
  }

  /** What a plan against `b` is: no fork diverged, and exactly what the store lacks. */
  ghost predicate IsPlan(b: ServeManifest, known: map<Text, nat>, local: Local, pool: set<Text>,
                         synced: map<string, Id>, limit: nat, plan: Plan)
  {
    && (forall f :: f in local ==> !DecisionFor(b, local, synced, f).Diverged?)
    && plan.heads == NewHeads(b, local, synced, local.Keys) && plan.synced == NewSynced(b, local, synced, local.Keys)
    && IsSpans(plan.spans, plan.heads.Keys, f => Pushed(b, local, synced, f))
    && IsItems(plan.items, plan.spans, pool - BlobsOf(b.segments.Keys), known, plan.depth, limit)
  }

  ///////////////////////////////////////////// compaction //////////////////////////////////////////////

  function Within(list: seq<Segment>, c: set<Segment>): seq<Segment> {
    if list == [] then []
    else Within(list[..|list| - 1], c) + if list[|list| - 1] in c then [list[|list| - 1]] else []
  }

  function Outside(list: seq<Segment>, c: set<Segment>): seq<Segment> {
    if list == [] then []
    else Outside(list[..|list| - 1], c) + if list[|list| - 1] in c then [] else [list[|list| - 1]]
  }

  /** `c` meets the list in a suffix of it, from `cut` on. */
  predicate CutsAt(list: seq<Segment>, c: set<Segment>, cut: nat) {
    && cut <= |list|
    && (forall k :: 0 <= k < cut ==> list[k] !in c)
    && forall k :: cut <= k < |list| ==> list[k] in c
  }

  ghost predicate IsSuffix(list: seq<Segment>, c: set<Segment>) {
    exists cut: nat :: CutsAt(list, c, cut)
  }

  /** Each list meets the set in a suffix, so what a swap folds comes last in every log. */
  ghost predicate Foldable(b: ServeManifest, c: set<Segment>) {
    c <= b.segments.Keys && forall f :: f in b.forks ==> IsSuffix(b.forks[f].logSegments, c)
  }

  function Small(b: ServeManifest, threshold: nat): set<Segment> {
    set s | s in b.segments && b.segments[s] < threshold
  }

  function LastOutside(list: seq<Segment>, c: set<Segment>): (r: Option<nat>)
    ensures r.Some? ==> r.value < |list| && list[r.value] !in c && forall k :: r.value < k < |list| ==> list[k] in c
    ensures r.None? ==> forall k :: 0 <= k < |list| ==> list[k] in c
  {
    if list == [] then None
    else if list[|list| - 1] !in c then Some(|list| - 1)
    else LastOutside(list[..|list| - 1], c)
  }

  /** Segments before one that cannot fold cannot fold either. */
  lemma NoneBefore(list: seq<Segment>, c: set<Segment>, d: set<Segment>, last: nat)
    requires last < |list| && list[last] !in c && d <= c && IsSuffix(list, d)
    ensures forall k :: 0 <= k < last ==> list[k] !in d
  {
    var cut: nat :| CutsAt(list, d, cut);
    assert last < cut;
  }

  /** One pass over the forks' lists, dropping what no suffix can hold. */
  method DropUnfoldable(b: ServeManifest, start: set<Segment>) returns (c: set<Segment>)
    ensures c <= start
    ensures forall d :: d <= start && Foldable(b, d) ==> d <= c
    ensures c == start ==> forall f :: f in b.forks ==> IsSuffix(b.forks[f].logSegments, c)
  {
    c := start;
    var todo := b.forks.Keys;
    while todo != {}
      invariant todo <= b.forks.Keys && c <= start
      invariant forall d :: d <= start && Foldable(b, d) ==> d <= c
      invariant c == start ==> forall f :: f in b.forks && f !in todo ==> IsSuffix(b.forks[f].logSegments, c)
      decreases |todo|
    {
      var f :| f in todo;
      var list := b.forks[f].logSegments;
      var last := LastOutside(list, c);
      ghost var before := c;
      if last.Some? {
        var dropped := set k | 0 <= k < last.value :: list[k];
        forall d | d <= start && Foldable(b, d) ensures d <= c - dropped {
          NoneBefore(list, c, d, last.value);
        }
        c := c - dropped;
        assert forall k :: 0 <= k < last.value ==> list[k] in dropped;
        assert c == start ==> c == before;
        assert c == before ==> CutsAt(list, c, last.value + 1);
      } else {
        assert CutsAt(list, c, 0);
      }
      todo := todo - {f};
    }
  }

  /** The greatest foldable set among the small segments. */
  method CompactionCandidates(b: ServeManifest, threshold: nat) returns (c: set<Segment>)
    ensures c <= Small(b, threshold) && Foldable(b, c)
    ensures forall d :: d <= Small(b, threshold) && Foldable(b, d) ==> d <= c
  {
    c := Small(b, threshold);
    while true
      invariant c <= Small(b, threshold)
      invariant forall d :: d <= Small(b, threshold) && Foldable(b, d) ==> d <= c
      decreases |c|
    {
      var next := DropUnfoldable(b, c);
      if next == c { return; }
      Shrunk(next, c);
      c := next;
    }
  }

  lemma Shrunk(a: set<Segment>, b: set<Segment>)
    requires a < b
    ensures |a| < |b|
  {
    assert b == a + (b - a);
  }
}
