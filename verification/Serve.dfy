/** The serve-manifest and unpacking (src/serve.rs). */
module Serve {
  import opened Wrappers
  import opened Spans
  import opened Patch
  import opened Setsum
  import opened Logs
  import opened Segments

  datatype ForkHead = ForkHead(anchor: Sum, headId: Id, headSum: Sum, logSegments: seq<Segment>)

  /** A manifest names its predecessor, so it is chained to every swap before it.  `segments`
      maps each live segment to the size of its payload. */
  datatype ServeManifest = ServeManifest(number: nat, prev: Option<ServeManifest>, forks: map<string, ForkHead>,
                                         segments: map<Segment, nat>, retire: set<Segment>)

  /** The entries of live segments that yield blobs. */
  function LiveItems(segments: set<Segment>): set<Item> {
    set s: Segment, i | s in segments && 0 <= i < |s| && !s[i].Span? :: s[i]
  }

  function BlobsIn(items: set<Item>): set<Text> {
    set item | item in items && !item.Span? :: item.Blob()
  }

  function BlobsOf(segments: set<Segment>): set<Text> {
    BlobsIn(LiveItems(segments))
  }

  /** A fork's log as its head's list assembles it. */
  function LogOf(m: ServeManifest, fork: string): seq<Line>
    requires fork in m.forks
  {
    LogFrom(m.forks[fork].logSegments, fork)
  }

  predicate NoRepeats<T(==)>(list: seq<T>) {
    forall i, j :: 0 <= i < j < |list| ==> list[i] != list[j]
  }

  predicate SameBlob(a: Item, b: Item) {
    !a.Span? && !b.Span? && a.Blob() == b.Blob()
  }

  /** No two entries, in one segment or two, yield the same blob. */
  ghost predicate UniqueBlobs(segments: set<Segment>) {
    forall s: Segment, t: Segment, i, j ::
      s in segments && t in segments && 0 <= i < |s| && 0 <= j < |t| && SameBlob(s[i], t[j]) ==> s == t && i == j
  }

  /** A fork's list names live segments, each once, and assembles a chain up to its head. */
  ghost predicate HeadSound(m: ServeManifest, fork: string)
    requires fork in m.forks
  {
    var head := m.forks[fork];
    && (forall s :: s in head.logSegments ==> s in m.segments)
    && NoRepeats(head.logSegments)
    && Chained(LogOf(m, fork)) && HeadId(LogOf(m, fork)) == head.headId
  }

  /** A live segment is not empty, holds at most one span of a fork, and every span it holds
      belongs to a fork that lists it. */
  ghost predicate SegmentSound(m: ServeManifest, s: Segment) {
    && s != []
    && (forall i, j :: 0 <= i < j < |s| && s[i].Span? && s[j].Span? ==> s[i].fork != s[j].fork)
    && forall i :: 0 <= i < |s| && s[i].Span? ==>
         s[i].lines != [] && s[i].fork in m.forks && s in m.forks[s[i].fork].logSegments
  }

  function DepthIn(depth: map<Text, nat>, blob: Text): Option<nat> {
    if blob == EMPTY then Some(0) else if blob in depth then Some(depth[blob]) else None
  }

  /** How deep an entry's construct chain runs: one more than its base's. */
  predicate RankedItem(item: Item, depth: map<Text, nat>)
    requires !item.Span?
  {
    match item
    case Keyframe(content) => content in depth && depth[content] == 0
    case Construct(target, base, _) =>
      target in depth && DepthIn(depth, base).Some? && depth[target] == DepthIn(depth, base).value + 1
  }

  /** `depth` gives each stored blob the length of its construct chain: bases are stored (or
      empty) and no chain is a cycle. */
  ghost predicate Ranked(items: set<Item>, depth: map<Text, nat>) {
    && (forall item :: item in items ==> !item.Span? && RankedItem(item, depth))
    && forall b :: b in depth ==> Yields(items, b)
  }

  predicate Yields(items: set<Item>, blob: Text) {
    exists item :: item in items && !item.Span? && item.Blob() == blob
  }

  ghost predicate Bounded(depth: map<Text, nat>, limit: nat) {
    forall b :: b in depth ==> depth[b] <= limit
  }

  /** A construct replays to its target, from a line some fork's log holds. */
  ghost predicate Replayable(m: ServeManifest, item: Item) {
    item.Construct? ==>
      && ConstructBlob(item.base, item.line, item.target).Ok?
      && exists f :: f in m.forks && item.line in LogOf(m, f)
  }

  /** What every published manifest keeps. */
  ghost predicate Good(m: ServeManifest, depth: map<Text, nat>, limit: nat) {
    && (forall f :: f in m.forks ==> HeadSound(m, f))
    && (forall s :: s in m.segments ==> SegmentSound(m, s))
    && UniqueBlobs(m.segments.Keys)
    && Ranked(LiveItems(m.segments.Keys), depth) && Bounded(depth, limit)
    && forall item :: item in LiveItems(m.segments.Keys) ==> Replayable(m, item)
  }

  ///////////////////////////////////////////// unpacking ///////////////////////////////////////////////

  datatype Unpacked = Unpacked(blobs: set<Text>, logs: map<string, seq<Line>>)

  /** The lines packed anywhere in the live segments. */
  function PackedLines(segments: set<Segment>): set<Line> {
    set s: Segment, i, k | s in segments && 0 <= i < |s| && s[i].Span? && 0 <= k < |s[i].lines| :: s[i].lines[k]
  }

  predicate Ready(c: Item, blobs: set<Text>)
    requires c.Construct?
  {
    c.base == EMPTY || c.base in blobs
  }

  /** Everything gathered so far is a blob the segments hold, and what is pending is the rest. */
  ghost predicate Gathered(items: set<Item>, blobs: set<Text>, pending: seq<Item>) {
    && (forall c :: c in pending ==> c.Construct? && c in items)
    && (forall b :: b in blobs ==> Yields(items, b))
    && forall item :: item in items ==> !item.Span? && (item.Blob() in blobs || item in pending)
  }

  /** The shallowest pending construct is ready: its base is known. */
  lemma {:induction false} SomeReady(items: set<Item>, blobs: set<Text>, pending: seq<Item>, depth: map<Text, nat>,
                                     k: nat)
    returns (ready: Item)
    requires Gathered(items, blobs, pending) && Ranked(items, depth) && k < |pending|
    ensures ready in pending && Ready(ready, blobs)
    decreases depth[pending[k].target]
  {
    var c := pending[k];
    assert c in pending;
    assert RankedItem(c, depth);
    if Ready(c, blobs) {
      ready := c;
    } else {
      var below: Item :| below in items && below.Blob() == c.base;
      assert RankedItem(below, depth);
      assert below in pending;
      var j: nat :| j < |pending| && pending[j] == below;
      ready := SomeReady(items, blobs, pending, depth, j);
    }
  }

  /** First pass: everything with stored bytes; constructs wait. */
  method Gather(segments: set<Segment>) returns (blobs: set<Text>, pending: seq<Item>)
    ensures Gathered(LiveItems(segments), blobs, pending)
  {
    blobs, pending := {}, [];
    var todo := segments;
    while todo != {}
      invariant todo <= segments
      invariant Gathered(LiveItems(segments - todo), blobs, pending)
      decreases |todo|
    {
      var s :| s in todo;
      var done := segments - todo;
      for i := 0 to |s|
        invariant Gathered(LiveItems(done) + LiveItems({s[..i]}), blobs, pending)
      {
        ItemsGrow(s, i);
        match s[i] {
          case Keyframe(content) => blobs := blobs + {content};
          case Construct(_, _, _) => pending := pending + [s[i]];
          case Span(_, _) =>
        }
      }
      assert s[..|s|] == s;
      LiveSplit(done, s);
      todo := todo - {s};
      assert segments - todo == done + {s};
    }
    assert segments - {} == segments;
  }

  lemma ItemsGrow(s: Segment, i: nat)
    requires i < |s|
    ensures LiveItems({s[..i + 1]}) == LiveItems({s[..i]}) + if s[i].Span? then {} else {s[i]}
  {
    forall item | item in LiveItems({s[..i]}) ensures item in LiveItems({s[..i + 1]}) {
      var k :| 0 <= k < i && s[..i][k] == item;
      assert s[..i + 1][k] == item;
    }
    assert s[..i + 1][i] == s[i];
    forall item | item in LiveItems({s[..i + 1]}) ensures item in LiveItems({s[..i]}) || item == s[i] {
      var k :| 0 <= k < i + 1 && s[..i + 1][k] == item;
      if k < i { assert s[..i][k] == item; }
    }
  }

  lemma LiveSplit(done: set<Segment>, s: Segment)
    ensures LiveItems(done + {s}) == LiveItems(done) + LiveItems({s})
  {
  }

  predicate Sane(c: Item, lines: set<Line>)
    requires c.Construct?
  {
    c.line in lines && ConstructBlob(c.base, c.line, c.target).Ok?
  }

  /** One round: materialize every construct whose base is known, defer the others. */
  method Round(lines: set<Line>, known: set<Text>, pending: seq<Item>)
    returns (r: Result<set<Text>, Error>, deferred: seq<Item>)
    requires forall c :: c in pending ==> c.Construct?
    ensures r.Err? ==> exists c :: c in pending && !Sane(c, lines)
    ensures r.Ok? ==> known <= r.value && |deferred| <= |pending|
    ensures r.Ok? ==> forall c :: c in deferred ==> c in pending
    ensures r.Ok? ==> forall c :: c in pending ==> c in deferred || c.target in r.value
    ensures r.Ok? ==> forall b :: b in r.value ==> b in known || exists c :: c in pending && c.target == b
    ensures r.Ok? && |deferred| == |pending| ==> forall c :: c in pending ==> !Ready(c, known)
  {
    var blobs := known;
    deferred := [];
    for k := 0 to |pending|
      invariant |deferred| <= k && known <= blobs
      invariant forall c :: c in deferred ==> c in pending
      invariant forall j :: 0 <= j < k ==> pending[j] in deferred || pending[j].target in blobs
      invariant forall b :: b in blobs ==> b in known || exists c :: c in pending && c.target == b
      invariant |deferred| == k ==> blobs == known && forall j :: 0 <= j < k ==> !Ready(pending[j], known)
    {
      var c := pending[k];
      if !Ready(c, blobs) {
        deferred := deferred + [c];
      } else {
        if c.line !in lines { return Err(Corrupt), deferred; }
        var bytes := Reconstruct(c.base, c.line, c.target);
        if bytes.Err? { return Err(bytes.error), deferred; }
        blobs := blobs + {c.target};
      }
    }
    r := Ok(blobs);
  }

  lemma GatheredStep(items: set<Item>, blobs: set<Text>, pending: seq<Item>, blobs': set<Text>, deferred: seq<Item>)
    requires Gathered(items, blobs, pending) && blobs <= blobs'
    requires forall c :: c in deferred ==> c in pending
    requires forall c :: c in pending ==> c in deferred || c.target in blobs'
    requires forall b :: b in blobs' ==> b in blobs || exists c :: c in pending && c.target == b
    ensures Gathered(items, blobs', deferred)
  {
    forall b | b in blobs' ensures Yields(items, b) {
      if b !in blobs {
        var c :| c in pending && c.target == b;
        assert c in items && c.Blob() == b;
      }
    }
  }

  /** What a pack that yields everything must satisfy. */
  ghost predicate Resolvable(items: set<Item>, lines: set<Line>, depth: map<Text, nat>) {
    && (forall item :: item in items ==> !item.Span? && (item.Construct? ==> Sane(item, lines)))
    && Ranked(items, depth)
  }

  lemma NotStuck(items: set<Item>, lines: set<Line>, blobs: set<Text>, pending: seq<Item>, depth: map<Text, nat>)
    requires Gathered(items, blobs, pending) && pending != []
    requires forall c :: c in pending ==> !Ready(c, blobs)
    ensures !Resolvable(items, lines, depth)
  {
    if Resolvable(items, lines, depth) {
      var _ := SomeReady(items, blobs, pending, depth, 0);
    }
  }

  /** Second pass: constructs to a fixpoint.  Chains of bounded depth never get stuck. */
  method Resolve(ghost items: set<Item>, lines: set<Line>, stored: set<Text>, constructs: seq<Item>,
                 ghost depth: map<Text, nat>) returns (r: Result<set<Text>, Error>)
    requires Gathered(items, stored, constructs)
    ensures r.Ok? ==> forall b :: b in r.value <==> Yields(items, b)
    ensures Resolvable(items, lines, depth) ==> r.Ok?
  {
    var blobs, pending := stored, constructs;
    while pending != []
      invariant Gathered(items, blobs, pending)
      decreases |pending|
    {
      var round, deferred := Round(lines, blobs, pending);
      if round.Err? {
        return Err(round.error);
      }
      if |deferred| == |pending| {
        NotStuck(items, lines, blobs, pending, depth);
        return Err(Corrupt);
      }
      GatheredStep(items, blobs, pending, round.value, deferred);
      blobs, pending := round.value, deferred;
    }
    r := Ok(blobs);
  }

  /** Every fork's log, put together from its list. */
  method AssembleLogs(m: ServeManifest) returns (logs: map<string, seq<Line>>)
    ensures logs.Keys == m.forks.Keys
    ensures forall f :: f in m.forks ==> logs[f] == LogOf(m, f)
  {
    logs := map[];
    var todo := m.forks.Keys;
    while todo != {}
      invariant todo <= m.forks.Keys && logs.Keys == m.forks.Keys - todo
      invariant forall f :: f in logs ==> logs[f] == LogOf(m, f)
      decreases |todo|
    {
      var f :| f in todo;
      var list, lines := m.forks[f].logSegments, [];
      for k := 0 to |list|
        invariant lines == LogFrom(list[..k], f)
      {
        assert list[..k + 1][..k] == list[..k];
        lines := lines + SpanOf(list[k], f);
      }
      assert list[..|list|] == list;
      logs, todo := logs[f := lines], todo - {f};
    }
  }

  /** Verify and unpack the live segments: exactly their blobs, and exactly each fork's log.
      A good manifest always unpacks. */
  method UnpackSegments(m: ServeManifest, ghost depth: map<Text, nat>, ghost limit: nat)
    returns (r: Result<Unpacked, Error>)
    ensures r.Ok? ==> r.value.blobs == BlobsOf(m.segments.Keys)
    ensures r.Ok? ==> r.value.logs.Keys == m.forks.Keys && forall f :: f in m.forks ==> r.value.logs[f] == LogOf(m, f)
    ensures Good(m, depth, limit) ==> r.Ok?
  {
    var stored, constructs := Gather(m.segments.Keys);
    ghost var items := LiveItems(m.segments.Keys);
    var lines := PackedLines(m.segments.Keys);
    if Good(m, depth, limit) { GoodIsResolvable(m, depth, limit); }
    var blobs := Resolve(items, lines, stored, constructs, depth);
    if blobs.Err? { return Err(blobs.error); }
    forall b ensures b in blobs.value <==> b in BlobsOf(m.segments.Keys) {
      if Yields(items, b) {
        var item :| item in items && item.Blob() == b;
      }
    }
    var logs := AssembleLogs(m);
    r := Ok(Unpacked(blobs.value, logs));
  }

  lemma SpanLinesPacked(segments: set<Segment>, s: Segment, fork: string, n: nat)
    requires s in segments && n <= |s|
    ensures forall l :: l in SpanOf(s[..n], fork) ==> l in PackedLines(segments)
  {
    if n > 0 {
      assert s[..n][..n - 1] == s[..n - 1];
      SpanLinesPacked(segments, s, fork, n - 1);
      forall l | l in SpanOf(s[..n], fork) ensures l in PackedLines(segments) {
        if l !in SpanOf(s[..n - 1], fork) {
          assert s[n - 1].Span? && l in s[n - 1].lines;
        }
      }
    }
  }

  lemma LogLinesPacked(segments: set<Segment>, list: seq<Segment>, fork: string)
    requires forall s :: s in list ==> s in segments
    ensures forall l :: l in LogFrom(list, fork) ==> l in PackedLines(segments)
  {
    if list != [] {
      var n := |list| - 1;
      LogLinesPacked(segments, list[..n], fork);
      assert list[n] in list;
      assert list[n][..|list[n]|] == list[n];
      SpanLinesPacked(segments, list[n], fork, |list[n]|);
    }
  }

  lemma GoodIsResolvable(m: ServeManifest, depth: map<Text, nat>, limit: nat)
    requires Good(m, depth, limit)
    ensures Resolvable(LiveItems(m.segments.Keys), PackedLines(m.segments.Keys), depth)
  {
    var items := LiveItems(m.segments.Keys);
    forall item | item in items && item.Construct? ensures Sane(item, PackedLines(m.segments.Keys)) {
      assert Replayable(m, item);
      var f :| f in m.forks && item.line in LogOf(m, f);
      assert HeadSound(m, f);
      LogLinesPacked(m.segments.Keys, m.forks[f].logSegments, f);
    }
  }
}
