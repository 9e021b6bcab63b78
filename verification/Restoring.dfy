/** Deriving anchors on restore (src/serve.rs, `restore`): manifests are replayed from the logs,
    and none is recorded under a sum that is not its own. */
module Restoring {
  import opened Wrappers
  import opened Patch
  import opened Setsum
  import opened Logs
  import opened Repo
  import Columns

  type Known = map<Sum, State>

  /** Every manifest recorded has the sum it is keyed by. */
  ghost predicate KnownSound(known: Known) {
    forall s :: s in known ==> Keyed(known[s]) && SumOf(known[s]) == s
  }

  /** Undo the first line's arithmetic: the sum of whatever the log was built on. */
  function InitialSum(lines: seq<Line>): Option<Sum> {
    if lines == [] then None else Some(FoldSum(lines[0].sumAfter, Inverse(lines[0].realized)))
  }

  /** Undoing the first line's arithmetic names the base of a sound history. */
  lemma InitialIsBase(base: State, lines: seq<Line>)
    requires Keyed(base) && Sound(base, lines) && lines != []
    ensures InitialSum(lines) == Some(SumOf(base))
  {
    SoundIsTallied(base, lines);
    var realized := lines[0].realized;
    forall r ensures Coef(FoldSum(lines[0].sumAfter, Inverse(realized)), r) == Coef(SumOf(base), r) {
      CoefFold(lines[0].sumAfter, Inverse(realized), r);
      CoefFold(SumOf(base), realized, r);
      Columns.InverseDelta(realized, r);
    }
    SumsEqual(FoldSum(lines[0].sumAfter, Inverse(realized)), SumOf(base));
  }

  /** Where replay from a known state enters a log, if it is on it. */
  function EntryPoint(from: Sum, lines: seq<Line>): (r: Option<nat>)
    ensures r.Some? ==> r.value <= |lines|
  {
    if InitialSum(lines) == Some(from) then Some(0)
    else match LastStatePosition(lines, from)
      case Some(i) => Some(i + 1)
      case None => None
  }

  /** What is known only grows, and soundly. */
  ghost predicate Extended(known0: Known, known: Known) {
    KnownSound(known) && known0.Keys <= known.Keys && forall s :: s in known0 ==> known[s] == known0[s]
  }

  /** The lines from `start` to `end` replay from `from`, each to the sum it claims. */
  ghost predicate AllReplay(from: State, lines: seq<Line>, start: nat, end: nat) {
    start <= end <= |lines| && forall i :: start <= i < end ==> ReplaysAt(from, lines, start, i)
  }

  ghost predicate ReplaysAt(from: State, lines: seq<Line>, start: nat, i: nat)
    requires start <= i < |lines|
  {
    && StateAfter(from, lines[start..i]).Some? && StateAfter(from, lines[start..i + 1]).Some?
    && FoldSum(SumOf(StateAfter(from, lines[start..i]).value), lines[i].realized) == lines[i].sumAfter
  }

  lemma StopsReplay(from: State, lines: seq<Line>, start: nat, i: nat, before: State)
    requires start <= i < |lines| && StateAfter(from, lines[start..i]) == Some(before)
    requires Replay(before, lines[i].realized).None? || FoldSum(SumOf(before), lines[i].realized) != lines[i].sumAfter
    ensures !ReplaysAt(from, lines, start, i)
  {
    assert lines[start..i + 1][..i - start] == lines[start..i];
  }

  /** Where a derivation stands before line `i`: the state there, and the sums since `start` learnt. */
  ghost predicate Deriving(from: State, lines: seq<Line>, start: nat, i: nat, now: State, known0: Known, known: Known) {
    && start <= i <= |lines| && Keyed(now) && Extended(known0, known)
    && StateAfter(from, lines[start..i]) == Some(now)
    && AllReplay(from, lines, start, i) && known.Keys == known0.Keys + SumsIn(lines, start, i)
  }

  lemma DerivesMore(from: State, lines: seq<Line>, start: nat, i: nat, now: State, known0: Known, known: Known,
                    next: State)
    requires Deriving(from, lines, start, i, now, known0, known) && i < |lines|
    requires Replay(now, lines[i].realized) == Some(next) && FoldSum(SumOf(now), lines[i].realized) == lines[i].sumAfter
    ensures SumOf(next) == lines[i].sumAfter
    ensures Deriving(from, lines, start, i + 1, next, known0,
                     if lines[i].sumAfter in known then known else known[lines[i].sumAfter := next])
  {
    ReplaySum(now, lines[i].realized);
    SliceGrows(from, lines, start, i, now);
    ReplaysMore(from, lines, start, i, now);
    SumsInMore(lines, start, i);
    KnownGrows(known0, known, next);
  }

  lemma StartsDeriving(from: State, lines: seq<Line>, start: nat, known0: Known)
    requires start <= |lines| && Keyed(from) && KnownSound(known0)
    ensures Deriving(from, lines, start, start, from, known0, known0)
  {
    assert lines[start..start] == [];
  }

  lemma SliceGrows(from: State, lines: seq<Line>, start: nat, i: nat, now: State)
    requires start <= i < |lines| && StateAfter(from, lines[start..i]) == Some(now)
    ensures StateAfter(from, lines[start..i + 1]) == Replay(now, lines[i].realized)
  {
    var upto := lines[start..i + 1];
    assert |upto| == i + 1 - start && upto[|upto| - 1] == lines[i];
    assert upto[..|upto| - 1] == lines[start..i];
  }

  lemma KnownGrows(known0: Known, known: Known, m: State)
    requires Extended(known0, known) && Keyed(m)
    ensures Extended(known0, if SumOf(m) in known then known else known[SumOf(m) := m])
  {
  }

  /** A line that replay from a known state learns: the log is entered at or before it, and every
      line up to it replays to the sum it claims. */
  ghost predicate Learns(from: State, lines: seq<Line>, k: nat) {
    && k < |lines|
    && var start := EntryPoint(SumOf(from), lines);
       start.Some? && start.value <= k && AllReplay(from, lines, start.value, k + 1)
  }

  ghost function LearntFrom(from: State, lines: seq<Line>): set<Sum> {
    set k | 0 <= k < |lines| && Learns(from, lines, k) :: lines[k].sumAfter
  }

  function SumsIn(lines: seq<Line>, start: nat, end: nat): set<Sum>
    requires start <= end <= |lines|
  {
    set k | start <= k < end :: lines[k].sumAfter
  }

  lemma SumsInMore(lines: seq<Line>, start: nat, i: nat)
    requires start <= i < |lines|
    ensures SumsIn(lines, start, i + 1) == SumsIn(lines, start, i) + {lines[i].sumAfter}
  {
  }

  lemma NothingLearnt(from: State, lines: seq<Line>)
    requires EntryPoint(SumOf(from), lines).None?
    ensures LearntFrom(from, lines) == {}
  {
  }

  /** What is learnt is what replay reaches before it stops. */
  lemma LearntUpTo(from: State, lines: seq<Line>, start: nat, end: nat)
    requires EntryPoint(SumOf(from), lines) == Some(start) && AllReplay(from, lines, start, end)
    requires end < |lines| ==> !ReplaysAt(from, lines, start, end)
    ensures LearntFrom(from, lines) == SumsIn(lines, start, end)
  {
    forall k: nat | k < |lines| ensures Learns(from, lines, k) <==> start <= k < end {
      if start <= k < end { assert AllReplay(from, lines, start, k + 1); }
    }
  }

  lemma ReplaysMore(from: State, lines: seq<Line>, start: nat, i: nat, now: State)
    requires AllReplay(from, lines, start, i) && i < |lines| && StateAfter(from, lines[start..i]) == Some(now)
    requires Replay(now, lines[i].realized).Some? && FoldSum(SumOf(now), lines[i].realized) == lines[i].sumAfter
    ensures AllReplay(from, lines, start, i + 1)
  {
    SliceGrows(from, lines, start, i, now);
  }

  /** Replay a log from a known state, keeping each state under its sum; where the arithmetic or
      the replay disagrees with a line, stop there. */
  method Derive(from: State, lines: seq<Line>, known0: Known) returns (known: Known)
    requires Keyed(from) && KnownSound(known0)
    ensures Extended(known0, known) && known.Keys == known0.Keys + LearntFrom(from, lines)
  {
    known := known0;
    var start := EntryPoint(SumOf(from), lines);
    if start.None? {
      NothingLearnt(from, lines);
      return;
    }
    var m := new Manifest(from);
    var sum := SumOf(from);
    StartsDeriving(from, lines, start.value, known0);
    for i := start.value to |lines|
      invariant fresh(m) && sum == SumOf(m.elements)
      invariant Deriving(from, lines, start.value, i, m.elements, known0, known)
    {
      ghost var before := m.elements;
      var ok := ApplyRealizedToManifest(m, lines[i].realized);
      sum := FoldSum(sum, lines[i].realized);
      if !ok || sum != lines[i].sumAfter {
        StopsReplay(from, lines, start.value, i, before);
        LearntUpTo(from, lines, start.value, i);
        return;
      }
      DerivesMore(from, lines, start.value, i, before, known0, known, m.elements);
      if lines[i].sumAfter !in known { known := known[lines[i].sumAfter := m.elements]; }
    }
    LearntUpTo(from, lines, start.value, |lines|);
  }

  /** A sound history replays to its end from any state it passed through. */
  lemma SoundReplaysFrom(base: State, lines: seq<Line>, start: nat)
    requires Keyed(base) && Sound(base, lines) && start <= |lines|
    ensures StateAfter(base, lines[..start]).Some? && Keyed(StateAfter(base, lines[..start]).value)
    ensures AllReplay(StateAfter(base, lines[..start]).value, lines, start, |lines|)
  {
    SoundStates(base, lines, start);
    var from := StateAfter(base, lines[..start]).value;
    forall i | start <= i < |lines| ensures ReplaysAt(from, lines, start, i) {
      SoundReplaysAt(base, lines, start, i);
    }
  }

  lemma StateBetween(base: State, lines: seq<Line>, start: nat, i: nat)
    requires start <= i <= |lines| && StateAfter(base, lines[..start]).Some?
    ensures StateAfter(StateAfter(base, lines[..start]).value, lines[start..i]) == StateAfter(base, lines[..i])
  {
    StateAfterAppend(base, lines[..start], lines[start..i]);
    assert lines[..start] + lines[start..i] == lines[..i];
  }

  /** Each line of a sound history adds up. */
  lemma SoundAddsUp(base: State, lines: seq<Line>, i: nat)
    requires Keyed(base) && Sound(base, lines) && i < |lines|
    ensures StateAfter(base, lines[..i]).Some? && StateAfter(base, lines[..i + 1]).Some?
    ensures FoldSum(SumOf(StateAfter(base, lines[..i]).value), lines[i].realized) == lines[i].sumAfter
  {
    SoundStates(base, lines, i);
    SoundStates(base, lines, i + 1);
    assert lines[..i + 1][..i] == lines[..i];
    ReplaySum(StateAfter(base, lines[..i]).value, lines[i].realized);
  }

  lemma SoundReplaysAt(base: State, lines: seq<Line>, start: nat, i: nat)
    requires Keyed(base) && Sound(base, lines) && start <= i < |lines| && StateAfter(base, lines[..start]).Some?
    ensures ReplaysAt(StateAfter(base, lines[..start]).value, lines, start, i)
  {
    SoundAddsUp(base, lines, i);
    StateBetween(base, lines, start, i);
    StateBetween(base, lines, start, i + 1);
  }
}
