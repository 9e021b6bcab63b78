/** When a restore finds every anchor (src/serve.rs, `restore`): wherever each fork began at or past
    its parent's anchor, and not always where a snapshot has moved that anchor further on. */
module Restorable {
  import opened Wrappers
  import opened Patch
  import opened Setsum
  import opened Logs
  import opened Repo
  import opened Restoring
  import opened AnchorSearch
  import Tripwire

  /** A packed fork as a sound repository holds it: the log is sound from the state the fork began
      at, and the anchor is a state it passed through. */
  ghost predicate Begun(f: Packed, base: State) {
    && Keyed(base) && Sound(base, f.lines)
    && var there := StateAfter(base, f.lines[..StartOf(f.lines, f.anchor)]);
       there.Some? && SumOf(there.value) == f.anchor
  }

  /** The fork's anchor, or a state its log reaches from there on. */
  predicate Reaches(f: Packed, s: Sum) {
    s == f.anchor || exists k :: StartOf(f.lines, f.anchor) <= k < |f.lines| && f.lines[k].sumAfter == s
  }

  /** Every fork's anchor is the empty manifest, or is reached by a fork of lower rank. */
  ghost predicate Rooted(forks: Forks, bases: map<string, State>, rank: map<string, nat>) {
    && bases.Keys == forks.Keys == rank.Keys
    && forall f :: f in forks ==> Begun(forks[f], bases[f]) && Follows(forks, rank, f)
  }

  predicate Follows(forks: Forks, rank: map<string, nat>, f: string)
    requires rank.Keys == forks.Keys && f in forks
  {
    forks[f].anchor == ZERO || exists g :: g in forks && rank[g] < rank[f] && Reaches(forks[g], forks[f].anchor)
  }

  /** A known anchor teaches every later state of its log. */
  lemma AnchorLearns(f: Packed, base: State, from: State, k: nat)
    requires Begun(f, base) && Keyed(from) && SumOf(from) == f.anchor
    requires StartOf(f.lines, f.anchor) <= k < |f.lines|
    ensures Learns(from, f.lines, k)
  {
    var start := StartOf(f.lines, f.anchor);
    InitialIsBase(base, f.lines);
    SoundReplaysFrom(base, f.lines, start);
    SumFixesManifest(from, StateAfter(base, f.lines[..start]).value);
    if SumOf(base) == f.anchor {
      SoundReplaysFrom(base, f.lines, 0);
      assert f.lines[..0] == [];
      SumFixesManifest(from, base);
    }
  }

  lemma TaughtIsKnown(forks: Forks, known: Known, more: Known, f: string, s: Sum, k: nat)
    requires IsRound(forks, known, more) && f in forks && s in known
    requires k < |forks[f].lines| && Learns(known[s], forks[f].lines, k)
    ensures forks[f].lines[k].sumAfter in more
  {
    var x := forks[f].lines[k].sumAfter;
    assert x in LearntFrom(known[s], forks[f].lines);
    assert x in LearntIn(forks[f].lines, known, known.Keys);
    assert x in LearntOf(forks, known, forks.Keys);
  }

  /** With every fork of lower rank crossed off, the next round crosses this one off. */
  lemma CrossedNext(forks: Forks, bases: map<string, State>, rank: map<string, nat>, ks: seq<Known>, n: nat, f: string)
    requires Rooted(forks, bases, rank) && Rounds(forks, ks) && n + 1 < |ks| && f in forks
    requires forall g :: g in forks && rank[g] < rank[f] ==> g in Crossed(forks, ks, n)
    ensures f in Crossed(forks, ks, n + 1)
  {
    if forks[f].anchor == ZERO {
      RoundsGrow(forks, ks, 0, n + 1);
    } else {
      var g :| g in forks && rank[g] < rank[f] && Reaches(forks[g], forks[f].anchor);
      var anchor := forks[g].anchor;
      assert g in Crossed(forks, ks, n) && anchor in ks[n];
      RoundsGrow(forks, ks, n, n + 1);
      if forks[f].anchor != anchor {
        var k :| StartOf(forks[g].lines, anchor) <= k < |forks[g].lines|
                 && forks[g].lines[k].sumAfter == forks[f].anchor;
        assert IsRound(forks, ks[n], ks[n + 1]);
        AnchorLearns(forks[g], bases[g], ks[n][anchor], k);
        TaughtIsKnown(forks, ks[n], ks[n + 1], g, anchor, k);
      }
    }
  }

  lemma LeastRanked(names: set<string>, rank: map<string, nat>) returns (f: string)
    requires names != {} && names <= rank.Keys
    ensures f in names && forall g :: g in names ==> rank[f] <= rank[g]
  {
    f :| f in names;
    if names != {f} {
      var g := LeastRanked(names - {f}, rank);
      if rank[g] < rank[f] { f := g; }
    }
  }

  /** Where every fork began at or past the anchor of the fork it came from, restore finds every anchor. */
  lemma RootedRestores(forks: Forks, bases: map<string, State>, rank: map<string, nat>)
    requires Rooted(forks, bases, rank)
    ensures !Stalled(forks)
  {
    forall ks, n: nat | Rounds(forks, ks) && n + 1 < |ks| && Crossed(forks, ks, n) != forks.Keys
      ensures !Stalls(forks, ks, n)
    {
      CrossedGrows(forks, ks, n, n + 1);
      var left := forks.Keys - Crossed(forks, ks, n);
      assert left != {} by { assert forks.Keys == Crossed(forks, ks, n) + left; }
      var f := LeastRanked(left, rank);
      CrossedNext(forks, bases, rank, ks, n, f);
    }
  }

  //////////////////////////////////////// a snapshot in the way ////////////////////////////////////////

  const A := Record("100644", "/a", [])
  const B := Record("100644", "/b", [])
  const C := Record("100644", "/c", [])

  const ONE: State := map["/a" := A]
  const TWO: State := map["/a" := A, "/b" := B]
  const THREE: State := map["/a" := A, "/b" := B, "/c" := C]

  const NOTE := Note("", Agent, None, None, Tripwire.Unobserved, None, None, "")

  function LineOf(prev: Id, realized: seq<Entry>, after: State): Line {
    Line(prev, [], realized, SumOf(after), 0, NOTE)
  }

  const ADDS_C := LineOf(Root, [Entry(None, Some(C))], THREE)
  const DROPS_BC := LineOf(Of(ADDS_C), [Entry(Some(B), None), Entry(Some(C), None)], ONE)

  const MAIN := Packed(ZERO, [LineOf(Root, [Entry(None, Some(A))], ONE)])
  const WORK := Packed(SumOf(ONE), [LineOf(Root, [Entry(None, Some(B))], TWO)])
  const SIDE := Packed(SumOf(ONE), [ADDS_C, DROPS_BC])
  const LATE := Packed(SumOf(THREE), [])

  /** `main` adds a; `work`, from its head, adds b; `side`, from `work`'s head, adds c, where `late` is
      made, then drops b and c, and is snapshotted there. */
  const FORKS: Forks := map["main" := MAIN, "work" := WORK, "side" := SIDE, "late" := LATE]

  lemma ReplaysOne(s: State, e: Entry)
    ensures Replay(s, [e]) == if Adjudicates(s, e) then Some(Step(s, e)) else None
  {
    assert [e][..0] == [];
  }

  lemma OneLineIsSound(base: State, line: Line, after: State)
    requires line.prev == Root && Replay(base, line.realized) == Some(after) && line.sumAfter == SumOf(after)
    ensures Sound(base, [line]) && StateAfter(base, [line]) == Some(after)
  {
    var lines := [line];
    assert lines[..0] == [] && StateAfter(base, []) == Some(base) && Sound(base, []);
    assert StateAfter(base, lines) == Replay(base, lines[0].realized);
  }

  lemma TwoLinesAreSound(base: State, a: Line, b: Line, mid: State, after: State)
    requires Sound(base, [a]) && StateAfter(base, [a]) == Some(mid)
    requires b.prev == Of(a) && Replay(mid, b.realized) == Some(after) && b.sumAfter == SumOf(after)
    ensures Sound(base, [a, b]) && StateAfter(base, [a, b]) == Some(after)
  {
    assert [a, b][..1] == [a];
  }

  lemma SideIsSound()
    ensures Sound(TWO, SIDE.lines) && StateAfter(TWO, SIDE.lines) == Some(ONE)
  {
    var dropB, dropC := Entry(Some(B), None), Entry(Some(C), None);
    ReplaysOne(TWO, Entry(None, Some(C)));
    OneLineIsSound(TWO, ADDS_C, THREE);
    ReplaysOne(THREE, dropB);
    assert DROPS_BC.realized[..1] == [dropB];
    assert Step(Step(THREE, dropB), dropC) == ONE;
    TwoLinesAreSound(TWO, ADDS_C, DROPS_BC, THREE, ONE);
  }

  lemma OneLineBegun(base: State, e: Entry, after: State)
    requires Keyed(base) && Adjudicates(base, e) && Step(base, e) == after && SumOf(after) != SumOf(base)
    ensures Begun(Packed(SumOf(base), [LineOf(Root, [e], after)]), base)
  {
    var lines := [LineOf(Root, [e], after)];
    ReplaysOne(base, e);
    OneLineIsSound(base, lines[0], after);
    LastStateSpec(lines, SumOf(base));
    assert lines[..0] == [];
  }

  lemma OneLineTeaches(base: State, e: Entry, after: State, from: State)
    requires Keyed(base) && Adjudicates(base, e) && Step(base, e) == after && SumOf(after) != SumOf(base)
    requires Keyed(from) && SumOf(from) == SumOf(base)
    ensures Learns(from, [LineOf(Root, [e], after)], 0)
  {
    var f := Packed(SumOf(base), [LineOf(Root, [e], after)]);
    OneLineBegun(base, e, after);
    LastStateSpec(f.lines, f.anchor);
    AnchorLearns(f, base, from, 0);
  }

  lemma HeldIsSummed(s: State, p: Path)
    requires p in s
    ensures s[p] in SumOf(s)
  {
    assert s[p] in s.Values;
  }

  lemma SumsDiffer()
    ensures SumOf(map[]) == ZERO && ZERO !in {SumOf(ONE), SumOf(TWO), SumOf(THREE)}
    ensures SumOf(ONE) != SumOf(TWO) && SumOf(ONE) != SumOf(THREE) && SumOf(TWO) != SumOf(THREE)
  {
    HeldIsSummed(ONE, "/a");
    HeldIsSummed(TWO, "/a");
    HeldIsSummed(TWO, "/b");
    HeldIsSummed(THREE, "/b");
    HeldIsSummed(THREE, "/c");
    assert B !in ONE.Values && C !in ONE.Values && C !in TWO.Values;
  }

  lemma SideBegun()
    ensures Begun(SIDE, TWO)
  {
    SideIsSound();
    LastStateSpec(SIDE.lines, SumOf(ONE));
    assert SIDE.lines[..2] == SIDE.lines;
  }

  lemma LateBegun()
    ensures Begun(LATE, THREE)
  {
    assert LATE.lines[..0] == [];
  }

  /** An honest repository: each log is sound, and each fork began at the empty manifest or at a state
      of another's log. */
  lemma HonestForks()
    ensures Begun(MAIN, map[]) && Begun(WORK, ONE) && Begun(SIDE, TWO) && Begun(LATE, THREE)
    ensures MAIN.lines[0].sumAfter == SumOf(ONE) && WORK.lines[0].sumAfter == SumOf(TWO)
    ensures SIDE.lines[0].sumAfter == SumOf(THREE)
  {
    SumsDiffer();
    OneLineBegun(map[], Entry(None, Some(A)), ONE);
    OneLineBegun(ONE, Entry(None, Some(B)), TWO);
    SideBegun();
    LateBegun();
  }

  /** To enter a log before its first line one must know the state it began at. */
  lemma FirstLineNeedsBase(from: State, base: State, lines: seq<Line>)
    requires Keyed(base) && Sound(base, lines) && Learns(from, lines, 0)
    ensures SumOf(from) == SumOf(base)
  {
    InitialIsBase(base, lines);
  }

  /** How a round learns a state. */
  lemma LearntHow(forks: Forks, known: Known, x: Sum) returns (g: string, s: Sum, k: nat)
    requires KnownSound(known) && x in LearntBy(forks, known)
    ensures g in forks && s in known && k < |forks[g].lines|
    ensures Learns(known[s], forks[g].lines, k) && forks[g].lines[k].sumAfter == x
  {
    g :| g in forks && x in LearntIn(forks[g].lines, known, known.Keys);
    s :| s in known && x in LearntFrom(known[s], forks[g].lines);
    k :| 0 <= k < |forks[g].lines| && Learns(known[s], forks[g].lines, k) && forks[g].lines[k].sumAfter == x;
  }

  /** No line but this one ends where it does. */
  ghost predicate Only(forks: Forks, x: Sum, f: string) {
    forall g, k :: g in forks && 0 <= k < |forks[g].lines| && forks[g].lines[k].sumAfter == x ==> g == f && k == 0
  }

  /** A state that only a log's first line leads to is learnt where the log's base is known. */
  lemma TaughtBy(forks: Forks, known: Known, more: Known, f: string, base: State, x: Sum)
    requires IsRound(forks, known, more) && f in forks && Begun(forks[f], base)
    requires Only(forks, x, f) && x !in known && SumOf(base) !in known
    ensures x !in more
  {
    if x in more {
      var g, s, k := LearntHow(forks, known, x);
      FirstLineNeedsBase(known[s], base, forks[f].lines);
      assert false;
    }
  }

  lemma OnlyHere(g: string, k: nat)
    requires g in FORKS && k < |FORKS[g].lines|
    ensures FORKS[g].lines[k].sumAfter == SumOf(TWO) ==> g == "work" && k == 0
    ensures FORKS[g].lines[k].sumAfter == SumOf(THREE) ==> g == "side" && k == 0
  {
    SumsDiffer();
  }

  lemma OnlyOnce()
    ensures Only(FORKS, SumOf(TWO), "work") && Only(FORKS, SumOf(THREE), "side")
  {
    forall g, k: nat | g in FORKS && k < |FORKS[g].lines|
      ensures FORKS[g].lines[k].sumAfter == SumOf(TWO) ==> g == "work" && k == 0
      ensures FORKS[g].lines[k].sumAfter == SumOf(THREE) ==> g == "side" && k == 0
    {
      OnlyHere(g, k);
    }
  }

  lemma TwoNeedsOne(known: Known, more: Known)
    requires IsRound(FORKS, known, more) && SumOf(TWO) !in known && SumOf(ONE) !in known
    ensures SumOf(TWO) !in more
  {
    HonestForks();
    OnlyOnce();
    TaughtBy(FORKS, known, more, "work", ONE, SumOf(TWO));
  }

  lemma ThreeNeedsTwo(known: Known, more: Known)
    requires IsRound(FORKS, known, more) && SumOf(THREE) !in known && SumOf(TWO) !in known
    ensures SumOf(THREE) !in more
  {
    HonestForks();
    OnlyOnce();
    TaughtBy(FORKS, known, more, "side", TWO, SumOf(THREE));
  }

  lemma AddsA()
    ensures Adjudicates(map[], Entry(None, Some(A))) && Step(map[], Entry(None, Some(A))) == ONE
  {
  }

  lemma AddsB()
    ensures Adjudicates(ONE, Entry(None, Some(B))) && Step(ONE, Entry(None, Some(B))) == TWO
  {
  }

  lemma OneLineTaught(forks: Forks, known: Known, more: Known, f: string, base: State, e: Entry, after: State)
    requires IsRound(forks, known, more) && f in forks && forks[f].lines == [LineOf(Root, [e], after)]
    requires Keyed(base) && Adjudicates(base, e) && Step(base, e) == after && SumOf(after) != SumOf(base)
    requires SumOf(base) in known
    ensures SumOf(base) in more && SumOf(after) in more
  {
    OneLineTeaches(base, e, after, known[SumOf(base)]);
    TaughtIsKnown(forks, known, more, f, SumOf(base), 0);
    RoundGrows(forks, known, more);
  }

  lemma MainTeaches(known: Known, more: Known)
    requires IsRound(FORKS, known, more) && ZERO in known
    ensures ZERO in more && SumOf(ONE) in more
  {
    SumsDiffer();
    AddsA();
    OneLineTaught(FORKS, known, more, "main", map[], Entry(None, Some(A)), ONE);
  }

  lemma WorkTeaches(known: Known, more: Known)
    requires IsRound(FORKS, known, more) && SumOf(ONE) in known
    ensures SumOf(ONE) in more && SumOf(TWO) in more
  {
    SumsDiffer();
    AddsB();
    OneLineTaught(FORKS, known, more, "work", ONE, Entry(None, Some(B)), TWO);
  }

  const EARLY := {"main", "work", "side"}

  /** The anchors of all forks but `late` are known. */
  ghost predicate AllButLate(known: Known) {
    ZERO in known && SumOf(ONE) in known && SumOf(THREE) !in known
  }

  ghost predicate AllAnchors(known: Known) {
    ZERO in known && SumOf(ONE) in known && SumOf(THREE) in known
  }

  lemma FirstRound(k1: Known)
    requires IsRound(FORKS, EMPTY, k1)
    ensures AllButLate(k1) && SumOf(TWO) !in k1
  {
    SumsDiffer();
    TwoNeedsOne(EMPTY, k1);
    ThreeNeedsTwo(EMPTY, k1);
    MainTeaches(EMPTY, k1);
  }

  lemma SecondRound(k1: Known, k2: Known)
    requires IsRound(FORKS, k1, k2)
    requires AllButLate(k1) && SumOf(TWO) !in k1
    ensures AllButLate(k2) && SumOf(TWO) in k2
  {
    ThreeNeedsTwo(k1, k2);
    MainTeaches(k1, k2);
    WorkTeaches(k1, k2);
  }

  lemma ThirdRound(k2: Known, k3: Known)
    requires IsRound(FORKS, k2, k3) && AllButLate(k2) && SumOf(TWO) in k2
    ensures AllAnchors(k3)
  {
    SideTeaches(k2[SumOf(TWO)]);
    TaughtIsKnown(FORKS, k2, k3, "side", SumOf(TWO), 0);
    RoundGrows(FORKS, k2, k3);
  }

  lemma SideTeaches(from: State)
    requires Keyed(from) && SumOf(from) == SumOf(TWO)
    ensures Learns(from, SIDE.lines, 0)
  {
    SideIsSound();
    SumFixesManifest(from, TWO);
    InitialIsBase(TWO, SIDE.lines);
    assert SIDE.lines[..0] == [];
    SoundReplaysFrom(TWO, SIDE.lines, 0);
  }

  lemma CrossedEarly(ks: seq<Known>, n: nat)
    requires 0 < n < |ks| && AllButLate(ks[n])
    ensures Crossed(FORKS, ks, n) == EARLY
  {
  }

  lemma CrossedLate(ks: seq<Known>, n: nat)
    requires 0 < n < |ks| && AllAnchors(ks[n])
    ensures Crossed(FORKS, ks, n) == FORKS.Keys
  {
  }

  lemma NextRound(forks: Forks, known: Known) returns (more: Known)
    requires KnownSound(known)
    ensures IsRound(forks, known, more) && KnownSound(more)
  {
    more := Next(forks, known);
  }

  lemma FourRounds(forks: Forks, ks: seq<Known>)
    requires |ks| == 4 && ks[0] == EMPTY
    requires IsRound(forks, ks[0], ks[1]) && IsRound(forks, ks[1], ks[2]) && IsRound(forks, ks[2], ks[3])
    ensures Rounds(forks, ks)
  {
  }

  /** What each of the first three rounds leaves. */
  lemma ThreeRounds() returns (ks: seq<Known>)
    ensures |ks| == 4 && Rounds(FORKS, ks)
    ensures AllButLate(ks[1]) && AllButLate(ks[2]) && AllAnchors(ks[3])
  {
    EmptyIsSound();
    var k1 := NextRound(FORKS, EMPTY);
    var k2 := NextRound(FORKS, k1);
    var k3 := NextRound(FORKS, k2);
    ks := [EMPTY, k1, k2, k3];
    FourRounds(FORKS, ks);
    FirstRound(k1);
    SecondRound(k1, k2);
    ThirdRound(k2, k3);
  }

  lemma StallIs(forks: Forks, ks: seq<Known>, n: nat, some: set<string>, f: string)
    requires Rounds(forks, ks) && n + 1 < |ks| && f in forks && f !in some
    requires Crossed(forks, ks, n) == some && Crossed(forks, ks, n + 1) == some
    ensures StallsAt(forks, ks, n) && Stalled(forks)
  {
    assert f in forks.Keys;
    assert StallsAt(forks, ks, n);
  }

  /** The search gives up in a round that learns a state, though one round more would have found the
      one anchor it misses. */
  lemma SnapshotStalls() returns (ks: seq<Known>)
    ensures |ks| == 4 && StallsAt(FORKS, ks, 1) && Crossed(FORKS, ks, 3) == FORKS.Keys
    ensures Stalled(FORKS)
  {
    ks := ThreeRounds();
    CrossedEarly(ks, 1);
    CrossedEarly(ks, 2);
    CrossedLate(ks, 3);
    StallIs(FORKS, ks, 1, EARLY, "late");
  }
}
