/** The session planner (src/claude.rs): pass 1 replays the calls and folds later edits
    into the calls whose bytes they rewrite; pass 2 replays the plan strictly, and where that
    declines lands each call's own intent instead. */
module Planner {
  import opened Wrappers
  import opened Spans
  import opened Patch
  import opened Tracks
  import opened Programs

  /** One call's fate.  A landed line holds the intent to land, the one its call came with, and
      the seats of the calls it absorbed. */
  datatype Outcome =
    | Land(intent: seq<Op>, faithful: seq<Op>, absorbed: seq<nat>)
    | Absorbed(faithful: seq<Op>)
    | Skip

  function CallSeats(call: nat, ops: seq<Op>): (r: seq<Seated>)
    ensures |r| == |ops|
  {
    seq(|ops|, k requires 0 <= k < |ops| => Seated(call, k, ops[k]))
  }

  /** The ops the plan lands, in order, each with its seat. */
  function Flatten(planned: seq<Outcome>): seq<Seated> {
    if planned == [] then []
    else
      var last := planned[|planned| - 1];
      Flatten(planned[..|planned| - 1]) + if last.Land? then CallSeats(|planned| - 1, last.intent) else []
  }

  /** A plan and a program for it that lands by offset. */
  ghost predicate Planned(prog: seq<Step>, start: State, planned: seq<Outcome>) {
    PosRun(prog, start).Some? && Ascending(prog) && Erased(prog) == Flatten(planned)
  }

  lemma FlattenAt(planned: seq<Outcome>, i: nat)
    requires i < |Flatten(planned)|
    ensures var e := Flatten(planned)[i];
            e.call < |planned| && planned[e.call].Land? && e.op < |planned[e.call].intent|
            && planned[e.call].intent[e.op] == e.act
  {
    if i < |Flatten(planned[..|planned| - 1])| { FlattenAt(planned[..|planned| - 1], i); }
  }

  /** Rewriting one call's ops rewrites exactly that call's seats. */
  lemma FlattenUpdate(planned: seq<Outcome>, call: nat, next: Outcome, i: nat)
    requires call < |planned| && planned[call].Land? && next.Land? && |next.intent| == |planned[call].intent|
    ensures |Flatten(planned[call := next])| == |Flatten(planned)|
    ensures i < |Flatten(planned)| ==>
              var e := Flatten(planned)[i];
              e.call == call ==> e.op < |next.intent|
    ensures i < |Flatten(planned)| ==>
              var e := Flatten(planned)[i];
              Flatten(planned[call := next])[i] == if e.call == call then Seated(call, e.op, next.intent[e.op]) else e
  {
    var planned' := planned[call := next];
    var init := planned[..|planned| - 1];
    if call < |planned| - 1 {
      assert planned'[..|planned'| - 1] == init[call := next];
      FlattenUpdate(init, call, next, i);
    } else {
      assert planned'[..|planned'| - 1] == init;
      if i < |Flatten(init)| { FlattenAt(init, i); }
    }
  }

  //////////////////////////////////////////////// replay ///////////////////////////////////////////////

  datatype Verdict = Declined | Failed(error: Error) | Done(planned: seq<Outcome>, state: State, pool: set<Text>)

  /** One more line of the plan, on what the replay before it left. */
  function LandOne(before: Verdict, last: Outcome, strict: bool): Verdict {
    if !before.Done? then before
    else if !last.Land? then Done(before.planned + [last], before.state, before.pool)
    else match RunOps(last.intent, before.state, before.pool)
      case Ok(r) => Done(before.planned + [last], r.state, before.pool + r.blobs)
      case Err(Precondition) => if strict then Declined else Done(before.planned + [Skip], before.state, before.pool)
      case Err(e) => Failed(e)
  }

  /** Replay the plan's lines from `s`.  Where an intent does not apply, strict gives up
      and lenient goes on without it. */
  function Replayed(planned: seq<Outcome>, s: State, pool: set<Text>, strict: bool): Verdict {
    if planned == [] then Done([], s, pool)
    else LandOne(Replayed(planned[..|planned| - 1], s, pool, strict), planned[|planned| - 1], strict)
  }

  lemma ReplayedPrefix(planned: seq<Outcome>, s: State, pool: set<Text>, strict: bool, k: nat)
    requires k <= |planned|
    ensures !Replayed(planned[..k], s, pool, strict).Done? ==>
              Replayed(planned, s, pool, strict) == Replayed(planned[..k], s, pool, strict)
  {
    if k < |planned| {
      var init := planned[..|planned| - 1];
      ReplayedPrefix(init, s, pool, strict, k);
      assert init[..k] == planned[..k];
    } else {
      assert planned[..k] == planned;
    }
  }

  method Replay(planned: seq<Outcome>, start: State, pool: set<Text>, strict: bool) returns (v: Verdict)
    requires Keyed(start)
    ensures v == Replayed(planned, start, pool, strict)
  {
    var manifest := new Manifest(start);
    var out, known := [], pool;
    for i := 0 to |planned|
      invariant Keyed(manifest.elements)
      invariant fresh(manifest)
      invariant Replayed(planned[..i], start, pool, strict) == Done(out, manifest.elements, known)
    {
      assert planned[..i + 1][..i] == planned[..i];
      ReplayedPrefix(planned, start, pool, strict, i + 1);
      if planned[i].Land? {
        var applied := ApplyIntent(planned[i].intent, manifest, known);
        match applied {
          case Ok(r) =>
            out, known := out + [planned[i]], known + r.blobs;
          case Err(Precondition) =>
            if strict { return Declined; }
            out := out + [Skip];
          case Err(e) =>
            return Failed(e);
        }
      } else {
        out := out + [planned[i]];
      }
    }
    assert planned[..|planned|] == planned;
    v := Done(out, manifest.elements, known);
  }

  /** One call's ops, where replay by offset and replay by search both succeed. */
  lemma CallIsPinned(steps: seq<Step>, ops: seq<Op>, s: State, pool: set<Text>)
    requires Keyed(s) && |steps| == |ops| && forall k :: 0 <= k < |ops| ==> steps[k].act == ops[k]
    requires PosRun(steps, s).Some? && RunOps(ops, s, pool).Ok?
    ensures RunOps(ops, s, pool).value.state == PosRun(steps, s).value
    ensures Keyed(PosRun(steps, s).value)
  {
    if ops != [] {
      var n := |ops| - 1;
      CallIsPinned(steps[..n], ops[..n], s, pool);
      var r := RunOps(ops[..n], s, pool).value;
      SearchIsPinned(steps[n], r.state, pool + r.blobs);
      AppliedLands(ops[n], r.state, pool + r.blobs, 0, 0);
    }
  }

  /** The steps of the last call, apart from those before it. */
  lemma LastCall(planned: seq<Outcome>, prog: seq<Step>) returns (a: seq<Step>, b: seq<Step>)
    requires planned != [] && Erased(prog) == Flatten(planned)
    ensures prog == a + b && Erased(a) == Flatten(planned[..|planned| - 1])
    ensures var last := planned[|planned| - 1];
            if last.Land? then |b| == |last.intent| && forall k :: 0 <= k < |b| ==>
              b[k].act == last.intent[k] else b == []
  {
    var init, last := planned[..|planned| - 1], planned[|planned| - 1];
    var n := |Flatten(init)|;
    a, b := prog[..n], prog[n..];
    assert Erased(a) == Erased(prog)[..n];
    if last.Land? {
      forall k | 0 <= k < |b| ensures b[k].act == last.intent[k] {
        assert Erased(prog)[n + k] == Seated(b[k].call, b[k].op, b[k].act);
        assert Flatten(planned)[n + k] == CallSeats(|init|, last.intent)[k];
      }
    }
  }

  /** A plan that lands by offset and replays strictly ends where the offsets say. */
  lemma {:induction false} StrictIsPinned(planned: seq<Outcome>, prog: seq<Step>, s: State, pool: set<Text>)
    requires Keyed(s) && Erased(prog) == Flatten(planned) && PosRun(prog, s).Some?
    requires Replayed(planned, s, pool, true).Done?
    ensures Replayed(planned, s, pool, true).state == PosRun(prog, s).value
    ensures Keyed(PosRun(prog, s).value)
  {
    if planned != [] {
      var init, last := planned[..|planned| - 1], planned[|planned| - 1];
      var a, b := LastCall(planned, prog);
      PosRunAppend(a, b, s);
      StrictIsPinned(init, a, s, pool);
      if last.Land? {
        var before := Replayed(init, s, pool, true);
        CallIsPinned(b, last.intent, before.state, before.pool);
      }
    }
  }
}
