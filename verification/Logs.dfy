/** The log (src/log.rs): sealed lines, their chain, and the arithmetic each line carries.

    A line's id is an injective digest of everything else in it, `prev` included, so an id is
    modelled by the line itself: naming a line names its whole prefix. */
module Logs {
  import opened Wrappers
  import opened Patch
  import opened Setsum
  import opened Tripwire

  datatype Id = Root | Of(line: Line)

  datatype Provenance = Agent | Andon | Union | Fusing

  datatype Fuse = Fuse(name: string, from: Id, to: Id)

  datatype Origin = Origin(fork: string, id: Id)

  /** The annotation.  `facts` stands for what travels uninterpreted: session, prose, import
      and harness facts. */
  datatype Note = Note(author: string, provenance: Provenance, reason: Option<string>, sig: Option<string>,
                       observed: Reads, origin: Option<Origin>, fuse: Option<Fuse>, facts: string)

  datatype Line = Line(prev: Id, intent: seq<Op>, realized: seq<Entry>, sumAfter: Sum, stamp: nat, note: Note)

  /** The requirements a line's provenance puts on what it carries. */
  predicate Admissible(intent: seq<Op>, realized: seq<Entry>, note: Note) {
    && (note.fuse.Some? ==> realized == [])
    && match note.provenance
       case Agent => true
       case Fusing => note.fuse.Some? && note.fuse.value.name != "" && intent == []
       case Andon => note.reason.Some? && note.reason.value != "" && note.sig.Some?
       case Union => note.origin.Some?
  }

  predicate ValidLine(line: Line) {
    Admissible(line.intent, line.realized, line.note)
  }

  /** Seal a line: validate it and stamp the commit time unless it already carries one. */
  function Seal(line: Line, clock: nat): (r: Result<Line, Error>)
    ensures r.Ok? <==> ValidLine(line)
    ensures r.Ok? ==> r.value == line.(stamp := r.value.stamp) && ValidLine(r.value)
  {
    if !ValidLine(line) then Err(Invalid)
    else Ok(if line.stamp == 0 then line.(stamp := clock) else line)
  }

  function HeadId(lines: seq<Line>): Id {
    if lines == [] then Root else Of(lines[|lines| - 1])
  }

  /** Every line names its predecessor, the first one nothing. */
  predicate Chained(lines: seq<Line>) {
    lines == [] || (Chained(lines[..|lines| - 1]) && lines[|lines| - 1].prev == HeadId(lines[..|lines| - 1]))
  }

  /** A head id fixes the whole log behind it. */
  lemma {:induction false} HeadFixesLog(a: seq<Line>, b: seq<Line>)
    requires Chained(a) && Chained(b) && HeadId(a) == HeadId(b)
    ensures a == b
  {
    if a != [] {
      var m, n := |a| - 1, |b| - 1;
      HeadFixesLog(a[..m], b[..n]);
      assert a == a[..m] + [a[m]];
      assert b == b[..n] + [b[n]];
    }
  }

  lemma ChainedPrefix(lines: seq<Line>, k: nat)
    requires Chained(lines) && k <= |lines|
    ensures Chained(lines[..k])
  {
    if k < |lines| {
      ChainedPrefix(lines[..|lines| - 1], k);
      assert lines[..|lines| - 1][..k] == lines[..k];
    } else {
      assert lines[..k] == lines;
    }
  }

  /** A line both logs hold puts it, and everything before it, at the same place in both. */
  lemma SharedLineSharesPrefix(a: seq<Line>, b: seq<Line>, i: nat, j: nat)
    requires Chained(a) && Chained(b) && i < |a| && j < |b| && a[i] == b[j]
    ensures i == j && a[..i + 1] == b[..j + 1]
  {
    ChainedPrefix(a, i + 1);
    ChainedPrefix(b, j + 1);
    HeadFixesLog(a[..i + 1], b[..j + 1]);
    assert |a[..i + 1]| == |b[..j + 1]|;
  }

  /** No line appears twice in a chain. */
  lemma LinesDistinct(lines: seq<Line>, i: nat, j: nat)
    requires Chained(lines) && i < |lines| && j < |lines| && lines[i] == lines[j]
    ensures i == j
  {
    SharedLineSharesPrefix(lines, lines, i, j);
  }

  ////////////////////////////////////////////// arithmetic /////////////////////////////////////////////

  /** The last position whose `sumAfter` names the state. */
  function LastStatePosition(lines: seq<Line>, sum: Sum): (r: Option<nat>)
    ensures r.Some? ==> r.value < |lines|
  {
    if lines == [] then None
    else if lines[|lines| - 1].sumAfter == sum then Some(|lines| - 1)
    else LastStatePosition(lines[..|lines| - 1], sum)
  }

  lemma LastStateSpec(lines: seq<Line>, sum: Sum)
    ensures match LastStatePosition(lines, sum)
            case Some(i) => i < |lines| && lines[i].sumAfter == sum
                            && forall k :: i < k < |lines| ==> lines[k].sumAfter != sum
            case None => forall k :: 0 <= k < |lines| ==> lines[k].sumAfter != sum
  {
    if lines != [] { LastStateSpec(lines[..|lines| - 1], sum); }
  }

  /** Each line's sum is its predecessor's plus its own realized arithmetic. */
  predicate Summed(anchor: Sum, lines: seq<Line>) {
    lines == [] ||
    var init, last := lines[..|lines| - 1], lines[|lines| - 1];
    Summed(anchor, init) && last.sumAfter == FoldSum(SumAt(anchor, init), last.realized)
  }

  /** The state sum a log claims to have reached. */
  function SumAt(anchor: Sum, lines: seq<Line>): Sum {
    if lines == [] then anchor else lines[|lines| - 1].sumAfter
  }

  lemma SummedPrefix(anchor: Sum, lines: seq<Line>, k: nat)
    requires Summed(anchor, lines) && k <= |lines|
    ensures Summed(anchor, lines[..k])
  {
    if k < |lines| {
      SummedPrefix(anchor, lines[..|lines| - 1], k);
      assert lines[..|lines| - 1][..k] == lines[..k];
    } else {
      assert lines[..k] == lines;
    }
  }

  /** Verify a chain: linkage and every line's arithmetic; returns the final sum. */
  method VerifyChain(anchor: Sum, lines: seq<Line>) returns (r: Result<Sum, Error>)
    ensures r.Ok? <==> Chained(lines) && Summed(anchor, lines)
    ensures r.Ok? ==> r.value == SumAt(anchor, lines)
  {
    var sum, prev := anchor, Root;
    for i := 0 to |lines|
      invariant Chained(lines[..i]) && Summed(anchor, lines[..i])
      invariant sum == SumAt(anchor, lines[..i]) && prev == HeadId(lines[..i])
    {
      ghost var upto := lines[..i + 1];
      assert upto[..i] == lines[..i];
      if lines[i].prev != prev || FoldSum(sum, lines[i].realized) != lines[i].sumAfter {
        if Chained(lines) && Summed(anchor, lines) {
          ChainedPrefix(lines, i + 1);
          SummedPrefix(anchor, lines, i + 1);
        }
        return Err(Corrupt);
      }
      sum, prev := lines[i].sumAfter, Of(lines[i]);
    }
    assert lines[..|lines|] == lines;
    r := Ok(sum);
  }

  ////////////////////////////////////////////// histories //////////////////////////////////////////////

  /** The manifest a log's realized deltas reach from `base`, when all of them adjudicate. */
  function StateAfter(base: State, lines: seq<Line>): Option<State> {
    if lines == [] then Some(base)
    else
      var before := StateAfter(base, lines[..|lines| - 1]);
      if before.None? then None else Replay(before.value, lines[|lines| - 1].realized)
  }

  /** A trustworthy history from `base`: chained, adjudicated, and summing to what it claims. */
  predicate Sound(base: State, lines: seq<Line>) {
    lines == [] ||
    var init, last := lines[..|lines| - 1], lines[|lines| - 1];
    && Sound(base, init)
    && last.prev == HeadId(init)
    && StateAfter(base, lines).Some?
    && last.sumAfter == SumOf(StateAfter(base, lines).value)
  }

  lemma SoundStates(base: State, lines: seq<Line>, k: nat)
    requires Keyed(base) && Sound(base, lines) && k <= |lines|
    ensures Sound(base, lines[..k]) && StateAfter(base, lines[..k]).Some?
    ensures Keyed(StateAfter(base, lines[..k]).value)
    ensures k > 0 ==> lines[k - 1].sumAfter == SumOf(StateAfter(base, lines[..k]).value)
  {
    if k < |lines| {
      SoundStates(base, lines[..|lines| - 1], k);
      assert lines[..|lines| - 1][..k] == lines[..k];
    } else {
      assert lines[..k] == lines;
      if k > 0 {
        var init := lines[..k - 1];
        SoundStates(base, init, k - 1);
        assert init[..k - 1] == init;
        ReplaySum(StateAfter(base, init).value, lines[k - 1].realized);
      }
    }
  }

  /** Sound histories are exactly those that chain, add up, and replay. */
  lemma {:induction false} SoundIff(base: State, lines: seq<Line>)
    requires Keyed(base)
    ensures Sound(base, lines) <==>
            Chained(lines) && Summed(SumOf(base), lines) && StateAfter(base, lines).Some?
  {
    if lines != [] {
      var n := |lines| - 1;
      var init := lines[..n];
      SoundIff(base, init);
      if Sound(base, init) && StateAfter(base, lines).Some? {
        SoundStates(base, init, n);
        assert init[..n] == init;
        ReplaySum(StateAfter(base, init).value, lines[n].realized);
      }
    }
  }

  lemma StateAfterAppend(base: State, a: seq<Line>, b: seq<Line>)
    ensures StateAfter(base, a + b) ==
            (if StateAfter(base, a).Some? then StateAfter(StateAfter(base, a).value, b) else None)
  {
    if b == [] {
      assert a + b == a;
    } else {
      assert (a + b)[..|a + b| - 1] == a + b[..|b| - 1];
      StateAfterAppend(base, a, b[..|b| - 1]);
    }
  }

  /** One more line keeps a history sound exactly when it chains, adjudicates and adds up. */
  lemma SoundExtends(base: State, lines: seq<Line>, line: Line)
    requires Keyed(base) && Sound(base, lines)
    ensures StateAfter(base, lines).Some?
    ensures var s := StateAfter(base, lines).value;
            Sound(base, lines + [line]) <==>
            line.prev == HeadId(lines) && Replay(s, line.realized).Some?
              && line.sumAfter == FoldSum(SumOf(s), line.realized)
    ensures StateAfter(base, lines + [line]) == Replay(StateAfter(base, lines).value, line.realized)
  {
    var all := lines + [line];
    assert all[..|lines|] == lines;
    SoundStates(base, lines, |lines|);
    assert lines[..|lines|] == lines;
    if Replay(StateAfter(base, lines).value, line.realized).Some? {
      ReplaySum(StateAfter(base, lines).value, line.realized);
    }
  }
}
