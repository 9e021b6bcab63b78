/** What a client knows of a store (src/remote.rs): finding its latest manifest, and the view a
    push is planned against. */
module Remote {
  import opened Wrappers
  import opened Spans
  import opened Patch
  import opened Logs
  import opened Segments
  import opened Serve

  ///////////////////////////////////////////// discovery ///////////////////////////////////////////////

  /** `manifest/<n>.json` for n from 1, without gaps: all a store of manifests ever holds. */
  type Store = seq<ServeManifest>

  function Get(store: Store, number: nat): Option<ServeManifest> {
    if 1 <= number <= |store| then Some(store[number - 1]) else None
  }

  function Latest(store: Store): Option<ServeManifest> {
    if store == [] then None else Some(store[|store| - 1])
  }

  predicate ChainedAt(store: Store, n: nat)
    requires n < |store|
  {
    store[n].number == n + 1 && store[n].prev == if n == 0 then None else Some(store[n - 1])
  }

  /** Each manifest carries its number and chains to the one before it. */
  ghost predicate StoreChained(store: Store) {
    forall n :: 0 <= n < |store| ==> ChainedAt(store, n)
  }

  lemma LatestIsHeld(store: Store)
    requires StoreChained(store) && store != []
    ensures Get(store, store[|store| - 1].number) == Latest(store)
  {
    assert ChainedAt(store, |store| - 1);
  }

  /** Confirm the cached manifest, or fall back to listing; then probe forward to the end. */
  method Discover(store: Store, cached: Option<ServeManifest>) returns (r: Result<Option<ServeManifest>, Error>)
    ensures StoreChained(store) ==> r == Ok(Latest(store))
    ensures r.Ok? && r.value.Some? ==> Get(store, r.value.value.number + 1).None?
  {
    var warm := if cached.Some? && Get(store, cached.value.number) == cached then cached else None;
    if warm.None? { warm := Latest(store); }
    if warm.None? { return Ok(None); }
    var current := warm.value;
    if StoreChained(store) { LatestIsHeld(store); }
    while Get(store, current.number + 1).Some?
      invariant StoreChained(store) ==> Get(store, current.number) == Some(current)
      decreases |store| - current.number
    {
      var next := Get(store, current.number + 1).value;
      assert StoreChained(store) ==> ChainedAt(store, current.number);
      if next.number != current.number + 1 || next.prev != Some(current) { return Err(Corrupt); }
      current := next;
    }
    r := Ok(Some(current));
  }

  //////////////////////////////////////////////// views ////////////////////////////////////////////////

  /** Each stored blob's segment, and the length of the chain of constructs under it. */
  datatype View = View(blobs: map<Text, Segment>, depth: map<Text, nat>)

  type Place = (Segment, nat)

  function EntryAt(p: Place): Item
    requires p.1 < |p.0|
  {
    p.0[p.1]
  }

  predicate Listed(done: set<Segment>, s: Segment, i: nat, p: Place) {
    p.1 < |p.0| && !EntryAt(p).Span? && (p.0 in done || (p.0 == s && p.1 < i))
  }

  /** One blob's index entry: its place, and its base when that place is a construct. */
  predicate IndexedAt(b: Text, p: Place, blobs: map<Text, Segment>, bases: map<Text, Text>) {
    && p.1 < |p.0| && !EntryAt(p).Span? && EntryAt(p).Blob() == b
    && b in blobs && blobs[b] == p.0
    && (b in bases <==> EntryAt(p).Construct?) && (b in bases ==> bases[b] == EntryAt(p).base)
  }

  /** The index of the entries seen so far: each under its blob, at its one place. */
  ghost predicate Indexed(done: set<Segment>, s: Segment, i: nat, where_: map<Text, Place>, blobs: map<Text, Segment>,
                          bases: map<Text, Text>)
  {
    && where_.Keys == blobs.Keys && bases.Keys <= blobs.Keys
    && (forall p: Place :: Listed(done, s, i, p) ==> EntryAt(p).Blob() in where_ && where_[EntryAt(p).Blob()] == p)
    && forall b :: b in where_ ==> Listed(done, s, i, where_[b]) && IndexedAt(b, where_[b], blobs, bases)
  }

  /** The index is complete: the image is a set... */
  lemma IndexedIsUnique(segments: set<Segment>, where_: map<Text, Place>, blobs: map<Text, Segment>,
                        bases: map<Text, Text>)
    requires Indexed(segments, [], 0, where_, blobs, bases)
    ensures UniqueBlobs(segments)
  {
    forall s: Segment, t: Segment, i, j | s in segments && t in segments && 0 <= i < |s| && 0 <= j < |t|
      && SameBlob(s[i], t[j])
      ensures s == t && i == j
    {
      SamePlace(segments, where_, blobs, bases, (s, i), (t, j));
    }
  }

  lemma SamePlace(segments: set<Segment>, where_: map<Text, Place>, blobs: map<Text, Segment>, bases: map<Text, Text>,
                  p: Place, q: Place)
    requires Indexed(segments, [], 0, where_, blobs, bases) && p.0 in segments && q.0 in segments
    requires p.1 < |p.0| && q.1 < |q.0| && SameBlob(EntryAt(p), EntryAt(q))
    ensures p == q
  {
    assert Listed(segments, [], 0, p) && Listed(segments, [], 0, q);
  }

  /** ...and the index is the graph of its constructs. */
  lemma IndexedIsGraph(segments: set<Segment>, where_: map<Text, Place>, blobs: map<Text, Segment>,
                       bases: map<Text, Text>)
    requires Indexed(segments, [], 0, where_, blobs, bases)
    ensures IsGraph(segments, blobs.Keys, bases)
  {
    forall item | item in LiveItems(segments) ensures item.Blob() in blobs && Edge(item, bases) {
      var s: Segment, i :| s in segments && 0 <= i < |s| && !s[i].Span? && s[i] == item;
      assert Listed(segments, [], 0, (s, i));
      assert IndexedAt(item.Blob(), (s, i), blobs, bases);
    }
    forall b | b in blobs ensures b in BlobsOf(segments) {
      var p := where_[b];
      assert Listed(segments, [], 0, p) && IndexedAt(b, p, blobs, bases);
      assert EntryAt(p) in LiveItems(segments);
    }
  }

  predicate Edge(item: Item, bases: map<Text, Text>)
    requires !item.Span?
  {
    if item.Construct? then item.target in bases && bases[item.target] == item.base else item.content !in bases
  }

  /** The stored blobs, and the base of each that is a construct. */
  ghost predicate IsGraph(segments: set<Segment>, keys: set<Text>, bases: map<Text, Text>) {
    && keys == BlobsOf(segments) && bases.Keys <= keys
    && forall item :: item in LiveItems(segments) ==> Edge(item, bases)
  }

  lemma IndexStep(done: set<Segment>, s: Segment, i: nat, where_: map<Text, Place>, blobs: map<Text, Segment>,
                  bases: map<Text, Text>)
    requires Indexed(done, s, i, where_, blobs, bases) && i < |s| && s !in done
    ensures s[i].Span? ==> Indexed(done, s, i + 1, where_, blobs, bases)
    ensures !s[i].Span? && s[i].Blob() !in blobs ==>
              Indexed(done, s, i + 1, where_[s[i].Blob() := (s, i)], blobs[s[i].Blob() := s],
                      if s[i].Construct? then bases[s[i].target := s[i].base] else bases)
  {
    forall p: Place | Listed(done, s, i + 1, p) && p != (s, i) ensures Listed(done, s, i, p) {}
  }

  lemma IndexRefused(segments: set<Segment>, done: set<Segment>, s: Segment, i: nat, where_: map<Text, Place>,
                     blobs: map<Text, Segment>, bases: map<Text, Text>)
    requires Indexed(done, s, i, where_, blobs, bases) && i < |s| && done <= segments && s in segments && s !in done
    requires !s[i].Span? && s[i].Blob() in blobs
    ensures !UniqueBlobs(segments)
  {
    var p := where_[s[i].Blob()];
    assert Listed(done, s, i, p);
    assert SameBlob(p.0[p.1], s[i]);
  }

  /** Index one segment's table; refuse a blob another entry already stores. */
  method IndexSegment(s: Segment, blobs0: map<Text, Segment>, bases0: map<Text, Text>,
                      ghost segments: set<Segment>, ghost done: set<Segment>, ghost where0: map<Text, Place>)
    returns (ok: bool, blobs: map<Text, Segment>, bases: map<Text, Text>, ghost where_: map<Text, Place>)
    requires done <= segments && s in segments && s !in done
    requires Indexed(done, s, 0, where0, blobs0, bases0)
    ensures ok ==> Indexed(done, s, |s|, where_, blobs, bases)
    ensures !ok ==> !UniqueBlobs(segments)
  {
    blobs, bases, where_ := blobs0, bases0, where0;
    for i := 0 to |s|
      invariant Indexed(done, s, i, where_, blobs, bases)
    {
      IndexStep(done, s, i, where_, blobs, bases);
      var item: Item := s[i];
      if !item.Span? {
        if item.Blob() in blobs {
          IndexRefused(segments, done, s, i, where_, blobs, bases);
          ok := false;
          return;
        }
        blobs, where_ := blobs[item.Blob() := s], where_[item.Blob() := (s, i)];
        if item.Construct? { bases := bases[item.target := item.base]; }
      }
    }
    ok := true;
  }

  /** Index every live segment. */
  method Index(segments: set<Segment>) returns (r: Result<(map<Text, Segment>, map<Text, Text>), Error>)
    ensures r.Ok? <==> UniqueBlobs(segments)
    ensures r.Ok? ==> IsGraph(segments, r.value.0.Keys, r.value.1)
  {
    var blobs: map<Text, Segment>, bases: map<Text, Text> := map[], map[];
    ghost var where_: map<Text, Place> := map[];
    var todo := segments;
    while todo != {}
      invariant todo <= segments
      invariant Indexed(segments - todo, [], 0, where_, blobs, bases)
      decreases |todo|
    {
      var s: Segment :| s in todo;
      StartSegment(segments - todo, s, where_, blobs, bases);
      var ok;
      ok, blobs, bases, where_ := IndexSegment(s, blobs, bases, segments, segments - todo, where_);
      if !ok { return Err(Corrupt); }
      NextSegment(segments - todo, s, segments - (todo - {s}), where_, blobs, bases);
      todo := todo - {s};
    }
    assert segments - todo == segments;
    IndexedIsUnique(segments, where_, blobs, bases);
    IndexedIsGraph(segments, where_, blobs, bases);
    r := Ok((blobs, bases));
  }

  lemma StartSegment(done: set<Segment>, s: Segment, where_: map<Text, Place>, blobs: map<Text, Segment>,
                     bases: map<Text, Text>)
    requires Indexed(done, [], 0, where_, blobs, bases)
    ensures Indexed(done, s, 0, where_, blobs, bases)
  {
    forall p: Place ensures Listed(done, s, 0, p) == Listed(done, [], 0, p) {}
  }

  lemma NextSegment(done: set<Segment>, s: Segment, next: set<Segment>, where_: map<Text, Place>,
                    blobs: map<Text, Segment>, bases: map<Text, Text>)
    requires Indexed(done, s, |s|, where_, blobs, bases) && next == done + {s}
    ensures Indexed(next, [], 0, where_, blobs, bases)
  {
    forall p: Place ensures Listed(next, [], 0, p) == Listed(done, s, |s|, p) {}
  }

  /////////////////////////////////////////////// depths ////////////////////////////////////////////////

  predicate Deep(b: Text, bases: map<Text, Text>, depth: map<Text, nat>)
    requires b in depth
  {
    if b in bases then DepthIn(depth, bases[b]).Some?
      && depth[b] == DepthIn(depth, bases[b]).value + 1 else depth[b] == 0
  }

  /** Every depth known so far is the length of a chain. */
  ghost predicate Known(keys: set<Text>, bases: map<Text, Text>, depth: map<Text, nat>) {
    depth.Keys <= keys && forall b :: b in depth ==> Deep(b, bases, depth)
  }

  ghost predicate AllKnown(keys: set<Text>, bases: map<Text, Text>, depth: map<Text, nat>) {
    depth.Keys == keys && Known(keys, bases, depth)
  }

  /** A walk down from `start`: constructs not yet ranked, each on the one before it. */
  ghost predicate Walked(keys: set<Text>, bases: map<Text, Text>, depth: map<Text, nat>, chain: seq<Text>, end: Text) {
    && (forall k :: 0 <= k < |chain| ==> chain[k] in keys && chain[k] in bases && chain[k] !in depth)
    && (forall k :: 0 <= k < |chain| - 1 ==> bases[chain[k]] == chain[k + 1])
    && (chain != [] ==> bases[chain[|chain| - 1]] == end)
    && forall k :: 0 < k < |chain| ==> chain[k] != EMPTY
  }

  /** Where a rank exists the walk strictly descends it, so it meets no blob twice. */
  lemma WalkDescends(keys: set<Text>, bases: map<Text, Text>, depth: map<Text, nat>, chain: seq<Text>, end: Text,
                     rank: map<Text, nat>, k: nat)
    requires Walked(keys, bases, depth, chain, end) && AllKnown(keys, bases, rank) && end in keys && end != EMPTY
    requires k < |chain|
    ensures rank[chain[k]] > rank[end]
    decreases |chain| - k
  {
    assert Deep(chain[k], bases, rank);
    if k < |chain| - 1 {
      WalkDescends(keys, bases, depth, chain, end, rank, k + 1);
      assert bases[chain[k]] == chain[k + 1];
    }
  }

  /** Unwind a walk: each blob one deeper than the next. */
  method UnwindWalk(keys: set<Text>, bases: map<Text, Text>, depth: map<Text, nat>, chain: seq<Text>, end: Text,
                    bottom: nat)
    returns (ranked: map<Text, nat>)
    requires Known(keys, bases, depth) && Walked(keys, bases, depth, chain, end)
    requires chain != [] ==> DepthIn(depth, end) == Some(bottom)
    requires NoRepeats(chain)
    ensures Known(keys, bases, ranked) && depth.Keys <= ranked.Keys
    ensures forall b :: b in chain ==> b in ranked
  {
    ranked := depth;
    var d, k := bottom, |chain|;
    while k > 0
      invariant 0 <= k <= |chain|
      invariant Known(keys, bases, ranked) && ranked.Keys == depth.Keys + (set j | k <= j < |chain| :: chain[j])
      invariant chain != [] ==> DepthIn(ranked, if k < |chain| then chain[k] else end) == Some(d) || (k == 0)
    {
      k := k - 1;
      d := d + 1;
      ghost var before := ranked;
      ranked := ranked[chain[k] := d];
      KnownStep(keys, bases, before, chain[k], d);
    }
  }

  lemma KnownStep(keys: set<Text>, bases: map<Text, Text>, depth: map<Text, nat>, b: Text, d: nat)
    requires Known(keys, bases, depth) && b in keys && b in bases && b !in depth
    requires DepthIn(depth, bases[b]).Some? && d == DepthIn(depth, bases[b]).value + 1
    ensures Known(keys, bases, depth[b := d])
  {
    var next := depth[b := d];
    forall c | c in next ensures Deep(c, bases, next) {
      if c != b { assert Deep(c, bases, depth); }
    }
  }

  lemma BaseIsHeld(keys: set<Text>, bases: map<Text, Text>, rank: map<Text, nat>, b: Text)
    requires AllKnown(keys, bases, rank) && b in keys && b in bases
    ensures bases[b] == EMPTY || bases[b] in keys
  {
    assert Deep(b, bases, rank);
  }

  /** Follow bases from `start` until one is ranked or stored whole, then rank the chain upwards. */
  method Walk(keys: set<Text>, bases: map<Text, Text>, start: Text, depth: map<Text, nat>, ghost rank: map<Text, nat>)
    returns (r: Result<map<Text, nat>, Error>)
    requires Known(keys, bases, depth) && start in keys
    ensures r.Ok? ==> Known(keys, bases, r.value) && depth.Keys <= r.value.Keys && start in r.value
    ensures AllKnown(keys, bases, rank) ==> r.Ok?
  {
    var chain: seq<Text>, seen: set<Text>, cursor := [], {}, start;
    var known := depth;
    while cursor !in known && cursor in bases
      invariant cursor in keys && known == depth
      invariant Walked(keys, bases, depth, chain, cursor) && NoRepeats(chain)
      invariant if chain == [] then cursor == start else chain[0] == start && cursor != EMPTY
      invariant forall c :: c in seen <==> c in chain
      decreases keys - seen
    {
      if cursor in seen {
        if AllKnown(keys, bases, rank) {
          var k :| 0 <= k < |chain| && chain[k] == cursor;
          WalkDescends(keys, bases, depth, chain, cursor, rank, k);
        }
        return Err(Corrupt);
      }
      var base := bases[cursor];
      chain, seen := chain + [cursor], seen + {cursor};
      if base == EMPTY {
        known := UnwindWalk(keys, bases, depth, chain, EMPTY, 0);
        return Ok(known);
      }
      if AllKnown(keys, bases, rank) { BaseIsHeld(keys, bases, rank, cursor); }
      if base !in keys { return Err(Corrupt); }
      cursor := base;
    }
    if cursor !in known {
      known := known[cursor := 0];
      KeyframeKnown(keys, bases, depth, cursor);
    }
    known := UnwindWalk(keys, bases, known, chain, cursor, known[cursor]);
    r := Ok(known);
  }

  lemma KeyframeKnown(keys: set<Text>, bases: map<Text, Text>, depth: map<Text, nat>, b: Text)
    requires Known(keys, bases, depth) && b in keys && b !in bases && b !in depth
    ensures Known(keys, bases, depth[b := 0])
  {
    var next := depth[b := 0];
    forall c | c in next ensures Deep(c, bases, next) {
      if c != b { assert Deep(c, bases, depth); }
    }
  }

  /** On a graph of constructs, knowing every depth is ranking every entry. */
  lemma KnownIsRanked(segments: set<Segment>, keys: set<Text>, bases: map<Text, Text>, depth: map<Text, nat>)
    requires IsGraph(segments, keys, bases)
    ensures AllKnown(keys, bases, depth) <==> Ranked(LiveItems(segments), depth)
  {
    var items := LiveItems(segments);
    if AllKnown(keys, bases, depth) {
      forall item | item in items ensures RankedItem(item, depth) {
        assert Edge(item, bases) && item.Blob() in keys;
        assert Deep(item.Blob(), bases, depth);
      }
      forall b | b in depth ensures Yields(items, b) {
        var item :| item in items && item.Blob() == b;
      }
    }
    if Ranked(items, depth) {
      forall b | b in keys ensures b in depth && Deep(b, bases, depth) {
        var item :| item in items && item.Blob() == b;
        assert Edge(item, bases) && RankedItem(item, depth);
      }
      forall b | b in depth ensures b in keys {
        var item :| item in items && !item.Span? && item.Blob() == b;
      }
    }
  }

  /** Load a view: it succeeds exactly when the image is a set whose construct bases are live
      and whose chains are not cycles, and its depths are the chains' lengths. */
  method Load(segments: set<Segment>, ghost rank: map<Text, nat>) returns (r: Result<View, Error>)
    ensures r.Ok? ==> UniqueBlobs(segments) && Ranked(LiveItems(segments), r.value.depth)
    ensures r.Ok? ==> r.value.blobs.Keys == BlobsOf(segments) && r.value.depth.Keys == BlobsOf(segments)
    ensures UniqueBlobs(segments) && Ranked(LiveItems(segments), rank) ==> r.Ok?
  {
    var index := Index(segments);
    if index.Err? { return Err(index.error); }
    var (blobs, bases) := index.value;
    KnownIsRanked(segments, blobs.Keys, bases, rank);
    var depth: map<Text, nat> := map[];
    var todo := blobs.Keys;
    while todo != {}
      invariant todo <= blobs.Keys
      invariant Known(blobs.Keys, bases, depth) && blobs.Keys - todo <= depth.Keys
      decreases |todo|
    {
      var start :| start in todo;
      var walked := Walk(blobs.Keys, bases, start, depth, rank);
      if walked.Err? { return Err(walked.error); }
      depth, todo := walked.value, todo - {start};
    }
    KnownIsRanked(segments, blobs.Keys, bases, depth);
    r := Ok(View(blobs, depth));
  }

  /** Depths are determined by what is stored. */
  lemma {:induction false} RankIsUnique(items: set<Item>, d: map<Text, nat>, e: map<Text, nat>, b: Text)
    requires Ranked(items, d) && Ranked(items, e) && b in d
    ensures b in e && d[b] == e[b]
    decreases d[b]
  {
    assert Yields(items, b);
    var item :| item in items && !item.Span? && item.Blob() == b;
    assert RankedItem(item, d) && RankedItem(item, e);
    if item.Construct? && item.base != EMPTY { RankIsUnique(items, d, e, item.base); }
  }
}
