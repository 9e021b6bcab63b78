/** Pass 1 of the planner (src/claude.rs): staging, absorption and attribution over the
    session's tracked paths. */
module Sessions {
  import opened Wrappers
  import opened Spans
  import opened Patch
  import opened Tracks
  import opened Programs
  import opened Planner
  import opened PassState

  function Overlay(planned: seq<Outcome>, owner: Option<nat>, rewritten: map<nat, Text>): seq<Outcome> {
    if owner.Some? && owner.value < |planned| && planned[owner.value].Land?
    then planned[owner.value := planned[owner.value].(intent := Respelled(planned[owner.value].intent, rewritten))]
    else planned
  }

  /** A track's runs against the true origins, and every run from a seat before this one. */
  ghost predicate Tracked(runs: seq<Run>, prog: seq<Step>, start: State, p: Path, call: nat, op: nat)
    requires PosRun(prog, start).Some?
  {
    && Ordered(runs) && Sound(runs, Origins(prog, start, p))
    && forall r :: r in runs ==> SeatLess(r.call, r.op, call, op)
  }

  ghost predicate SeatsBefore(prog: seq<Step>, call: nat, op: nat) {
    forall st :: st in prog ==> SeatLess(st.call, st.op, call, op)
  }

  /** One absorbed edit: the program folds, and so does the overlaid plan. */
  lemma FoldMatches(prog: seq<Step>, start: State, planned: seq<Outcome>, next: Outcome,
                    p: Path, pos: nat, m: nat, with: Text, call: nat, op: nat, seat: nat)
    requires PosRun(prog, start).Some? && Ascending(prog) && Erased(prog) == Flatten(planned)
    requires Region(Origins(prog, start, p), pos, m, call, op, seat)
    requires call < |planned| && planned[call].Land? && next.Land? && |next.intent| == |planned[call].intent|
    requires op < |next.intent| && planned[call].intent[op].Edit? && seat + m <= |planned[call].intent[op].newStr|
    requires next.intent == planned[call].intent[op :=
               planned[call].intent[op].(newStr := Splice(planned[call].intent[op].newStr, seat, m, with))]
    ensures Erased(Fold(prog, p, pos, m, with, call, op, seat)) == Flatten(planned[call := next])
  {
    var prog' := Fold(prog, p, pos, m, with, call, op, seat);
    FlattenUpdate(planned, call, next, 0);
    forall i: nat | i < |prog| ensures Erased(prog')[i] == Flatten(planned[call := next])[i] {
      FoldSeats(prog, p, pos, m, with, call, op, seat, i);
      FlattenUpdate(planned, call, next, i);
      FlattenAt(planned, i);
      assert Erased(prog)[i] == Seated(prog[i].call, prog[i].op, prog[i].act);
      if prog[i].call == call && prog[i].op == op {
        FoldSpells(prog, start, p, pos, m, with, call, op, seat, i);
      }
    }
  }

  /** The owner named by a run is a landed edit of that path. */
  lemma OwnerIsLanded(prog: seq<Step>, start: State, planned: seq<Outcome>, p: Path, x: nat)
    requires PosRun(prog, start).Some? && Erased(prog) == Flatten(planned)
    requires x < |Origins(prog, start, p)| && Origins(prog, start, p)[x].Wrote?
    ensures var o := Origins(prog, start, p)[x];
            o.call < |planned| && planned[o.call].Land? && o.op < |planned[o.call].intent|
            && planned[o.call].intent[o.op].Edit? && planned[o.call].intent[o.op].path == p
            && Spells(planned[o.call].intent[o.op].newStr, o.offset, BlobAt(PosRun(prog, start).value, p), x)
  {
    var i := SeatHolds(prog, start, p, x);
    assert Erased(prog)[i] == Seated(prog[i].call, prog[i].op, prog[i].act);
    FlattenAt(planned, i);
  }

  /** An op met at `at`: it lands there, and for an edit the search could find nothing else. */
  ghost predicate Meets(op: Op, at: nat, s: State, t: State) {
    && Lands(Step(0, 0, op, at), s) == Some(t)
    && (op.Edit? ==> UniqueAt(s[op.path].blob, op.oldStr, at))
    && Keyed(t)
  }

  /** The states an intent passes through, and the offset each op met. */
  ghost predicate IsTrace(ops: seq<Op>, ats: seq<nat>, states: seq<State>) {
    && |ats| == |ops| && |states| == |ops| + 1 && Keyed(states[0])
    && forall k :: 0 <= k < |ops| ==> Meets(ops[k], ats[k], states[k], states[k + 1])
  }

  lemma AppliedMeets(op: Op, s: State, known: set<Text>) returns (at: nat)
    requires Keyed(s) && ApplyOp(op, s, known).Ok?
    ensures Meets(op, at, s, ApplyOp(op, s, known).value.state)
  {
    AppliedLands(op, s, known, 0, 0);
    at := OffsetOf(op, s);
  }

  /** An intent that applies has a trace, ending where it ends. */
  lemma TraceOf(ops: seq<Op>, s: State, pool: set<Text>) returns (ats: seq<nat>, states: seq<State>)
    requires Keyed(s) && RunOps(ops, s, pool).Ok?
    ensures IsTrace(ops, ats, states)
    ensures states[0] == s && states[|ops|] == RunOps(ops, s, pool).value.state
  {
    if ops == [] {
      ats, states := [], [s];
    } else {
      var init, next := ops[..|ops| - 1], RunOps(ops, s, pool).value.state;
      assert RunOps(init, s, pool).Ok?;
      ats, states := TraceOf(init, s, pool);
      TraceKeyed(init, ats, states);
      var at := LastMeets(ops, s, pool, states[|init|]);
      TraceGrow(init, ats, states, ops[|ops| - 1], at, next);
      assert init + [ops[|ops| - 1]] == ops;
      ats, states := ats + [at], states + [next];
    }
  }

  lemma LastMeets(ops: seq<Op>, s: State, pool: set<Text>, before: State) returns (at: nat)
    requires ops != [] && RunOps(ops, s, pool).Ok? && Keyed(before)
    requires RunOps(ops[..|ops| - 1], s, pool).Ok? && RunOps(ops[..|ops| - 1], s, pool).value.state == before
    ensures Meets(ops[|ops| - 1], at, before, RunOps(ops, s, pool).value.state)
  {
    at := AppliedMeets(ops[|ops| - 1], before, pool + RunOps(ops[..|ops| - 1], s, pool).value.blobs);
  }

  lemma TraceKeyed(ops: seq<Op>, ats: seq<nat>, states: seq<State>)
    requires IsTrace(ops, ats, states)
    ensures Keyed(states[|ops|])
  {
    if ops != [] { assert Meets(ops[|ops| - 1], ats[|ops| - 1], states[|ops| - 1], states[|ops|]); }
  }

  lemma TraceGrow(ops: seq<Op>, ats: seq<nat>, states: seq<State>, op: Op, at: nat, next: State)
    requires IsTrace(ops, ats, states) && Meets(op, at, states[|ops|], next)
    ensures IsTrace(ops + [op], ats + [at], states + [next])
  {
    var ops', ats', states' := ops + [op], ats + [at], states + [next];
    forall k | 0 <= k < |ops'| ensures Meets(ops'[k], ats'[k], states'[k], states'[k + 1]) {
      if k < |ops| { assert Meets(ops[k], ats[k], states[k], states[k + 1]); }
    }
  }

  /** The first `k` ops of a call, seated where they landed. */
  function StepsOf(call: nat, ops: seq<Op>, ats: seq<nat>, k: nat): seq<Step>
    requires k <= |ops| == |ats|
  {
    seq(k, j requires 0 <= j < k => Step(call, j, ops[j], ats[j]))
  }

  lemma StepsGrow(before: seq<Step>, call: nat, ops: seq<Op>, ats: seq<nat>, k: nat)
    requires k < |ops| == |ats|
    ensures before + StepsOf(call, ops, ats, k + 1)
        == before + StepsOf(call, ops, ats, k) + [Step(call, k, ops[k], ats[k])]
  {
    assert StepsOf(call, ops, ats, k + 1) == StepsOf(call, ops, ats, k) + [Step(call, k, ops[k], ats[k])];
  }

  /** The plan lands by offset at `s`, the staged contents are `s`'s, and every track is
      sound, with all seats before (`call`, `op`). */
  ghost predicate InStep(n: Pass, prog: seq<Step>, start: State, s: State, call: nat, op: nat) {
    && PosRun(prog, start) == Some(s)
    && Ascending(prog) && SeatsBefore(prog, call, op)
    && (forall p :: p in n.contents ==> p in s && s[p].blob == n.contents[p])
    && (forall p :: p in n.tracks ==> p in n.contents && Tracked(n.tracks[p].runs, prog, start, p, call, op))
  }

  /** The span falls inside one run, of a landed edit of the owner, on the bytes of its `new_str`. */
  ghost predicate FallsOn(h: Spot, planned: seq<Outcome>, owner: Option<nat>, rewritten: map<nat, Text>, runs: seq<Run>,
                          op: Op)
    requires op.Edit?
  {
    && Within(runs, h.idx, h.at, |op.oldStr|) && 0 <= runs[h.idx].at
    && h.into == runs[h.idx].call && h.op == runs[h.idx].op && h.seat == SeatOf(runs, h.idx, h.at)
    && (owner.Some? ==> owner.value == h.into)
    && h.into < |planned| && planned[h.into].Land?
    && h.op < |planned[h.into].intent| && planned[h.into].intent[h.op].Edit?
    && var target := if h.op in rewritten then rewritten[h.op] else planned[h.into].intent[h.op].newStr;
       h.seat + |op.oldStr| <= |target| && h.spliced == Splice(target, h.seat, |op.oldStr|, op.newStr)
  }

  /** A place is where the fold's premises hold. */
  lemma PlaceFalls(planned: seq<Outcome>, f: Partial, op: Op, path: Path)
    requires PlaceOf(planned, f, op, path).Some? && forall run :: run in f.marks.runs ==> run.at >= 0
    ensures FallsOn(PlaceOf(planned, f, op, path).value, planned, f.owner, f.rewritten, f.marks.runs, op)
  {
    assert f.marks.runs[PlaceOf(planned, f, op, path).value.idx] in f.marks.runs;
  }

  /** The planner's working state.  `prog` is the plan as a positional program. */
  class Session {
    var planned: seq<Outcome>
    var tracks: map<Path, Marks>
    var contents: map<Path, Text>
    ghost var prog: seq<Step>

    constructor ()
      ensures Notes() == Pass([], map[], map[]) && prog == []
    {
      planned, tracks, contents, prog := [], map[], map[], [];
    }

    /** The working state as a value. */
    function Notes(): Pass
      reads this
    {
      Pass(planned, tracks, contents)
    }

    ghost predicate Valid(start: State, s: State)
      reads this
    {
      Keyed(s) && InStep(Notes(), prog, start, s, |planned|, 0) && Erased(prog) == Flatten(planned)
    }

    /** Note what each path of the intent holds in `s`, where no content is staged for it yet. */
    method Stage(intent: seq<Op>, pool: set<Text>, s: State, ghost start: State)
      requires Valid(start, s)
      modifies `contents
      ensures Valid(start, s)
      ensures contents == Staged(old(contents), intent, pool, s)
    {
      assert intent[..0] == [];
      for k := 0 to |intent|
        invariant Valid(start, s) && contents == Staged(old(contents), intent[..k], pool, s)
      {
        StagedMore(old(contents), intent, k, pool, s);
        var p := intent[k].path;
        if p !in contents && p in s && s[p].blob in pool {
          contents := contents[p := s[p].blob];
        }
      }
      assert intent[..|intent|] == intent;
    }

    /** One op of a call under absorption: it folds exactly where its span has a place.  `folding`
        is the plan so far as a program. */
    method FoldOne(track: Track, op: Op, path: Path, content: Text, owner: Option<nat>, rewritten: map<nat, Text>,
                   ghost start: State, ghost s: State, ghost folding: seq<Step>, ghost cur: State, ghost met: nat,
                   ghost next: State, ghost seat: nat)
      returns (ok: bool, into: nat, rewritten': map<nat, Text>, content': Text, ghost folding': seq<Step>)
      requires Progress(planned, prog, s, owner, rewritten, track.runs, path, content, start, folding, cur, seat)
      requires Meets(op, met, cur, next)
      modifies track
      ensures ok ==> Progress(planned, prog, s, Some(into), rewritten', track.runs, path, content', start, folding',
                              next, seat)
      ensures old(FoldOp(planned, Partial(owner, rewritten, Marks(track.runs, track.scars), content), op, path))
           == if ok then Some(Partial(Some(into), rewritten', Marks(track.runs, track.scars), content')) else None
    {
      ghost var f := Partial(owner, rewritten, Marks(track.runs, track.scars), content);
      RunsAreSeated(planned, prog, s, owner, rewritten, track.runs, path, content, start, folding, cur, seat);
      var place := PlaceOf(planned, Partial(owner, rewritten, Marks(track.runs, track.scars), content), op, path);
      if place.None? { return false, 0, rewritten, content, folding; }
      var h := place.value;
      PlaceFalls(planned, f, op, path);
      ProgressStep(planned, prog, s, owner, h, rewritten, track.runs, path, content, start, folding, cur, met, next,
                   seat, op);
      ok, into, rewritten' := true, h.into, rewritten[h.op := h.spliced];
      content' := Splice(content, h.at, |op.oldStr|, op.newStr);
      folding' := Fold(folding, path, h.at, |op.oldStr|, op.newStr, h.into, h.op, h.seat);
      track.RewriteWithin(h.idx, h.at, |op.oldStr|, |op.newStr|);
    }

    /** Try to absorb a call: it folds exactly where every op of it has a place in one earlier call.
        Then `planned` differs in that call's `new_str`s and absorbed list, and `prog` still lands on
        the state the call left; else nothing moves. */
    method Absorb(seat: nat, intent: seq<Op>, ghost start: State, ghost ats: seq<nat>, ghost states: seq<State>)
      returns (folded: bool)
      requires IsTrace(intent, ats, states) && Valid(start, states[0]) && seat == |planned|
      modifies this
      ensures folded == old(FoldOf(Notes(), intent).Some?)
      ensures folded ==> Valid(start, states[|intent|])
      ensures folded ==> Notes() == old(AfterFold(Notes(), seat, intent, FoldOf(Notes(), intent).value))
      ensures folded ==> exists into: nat :: FoldedInto(old(planned), planned, into, seat)
      ensures !folded ==> unchanged(this) && Valid(start, states[0])
    {
      if |intent| == 0 { return false; }
      var path := intent[0].path;
      if path !in tracks || path !in contents { return false; }
      var track := new Track(tracks[path].runs, tracks[path].scars);
      var content := contents[path];
      var owner: Option<nat> := None;
      var rewritten: map<nat, Text> := map[];
      ghost var folding := prog;
      ghost var s := states[0];
      ghost var f := Partial(None, map[], tracks[path], content);
      StartFolding(planned, tracks[path].runs, path, content, start, prog, s, seat);
      assert intent[..0] == [];
      for k := 0 to |intent|
        modifies track
        invariant fresh(track) && Valid(start, s)
        invariant k > 0 ==> owner.Some?
        invariant Progress(planned, prog, s, owner, rewritten, track.runs, path, content, start, folding, states[k],
                           seat)
        invariant FoldOps(planned, f, intent[..k], path)
               == Some(Partial(owner, rewritten, Marks(track.runs, track.scars), content))
      {
        FoldMore(planned, f, intent, path, k);
        var ok, into, next, replaced;
        ghost var folded';
        ok, into, next, replaced, folded' :=
          FoldOne(track, intent[k], path, content, owner, rewritten, start, s, folding, states[k], ats[k],
                  states[k + 1], seat);
        if !ok {
          FoldStops(planned, f, intent, path, k + 1);
          return false;
        }
        owner, rewritten, content, folding := Some(into), next, replaced, folded';
      }
      assert intent[..|intent|] == intent;
      Commit(seat, owner.value, rewritten, track, path, content, start, s, folding, states[|intent|]);
      folded := true;
    }

    /** The fold held for every op: the owner's line takes the rewrite and lists the call. */
    method Commit(seat: nat, into: nat, rewritten: map<nat, Text>, track: Track, path: Path, content: Text,
                  ghost start: State, ghost s: State, ghost folding: seq<Step>, ghost cur: State)
      requires Valid(start, s) && seat == |planned|
      requires Progress(planned, prog, s, Some(into), rewritten, track.runs, path, content, start, folding, cur, seat)
      modifies this
      ensures Valid(start, cur) && FoldedInto(old(planned), planned, into, seat)
      ensures into < |old(planned)| && old(planned)[into].Land?
      ensures planned == old(planned)[into := old(planned)[into].(
                intent := Respelled(old(planned)[into].intent, rewritten),
                absorbed := old(planned)[into].absorbed + [seat])]
      ensures tracks == old(tracks)[path := Marks(track.runs, track.scars)]
      ensures contents == old(contents)[path := content]
    {
      var line := planned[into];
      var spelled := Respelled(line.intent, rewritten);
      ghost var shadow := Overlay(planned, Some(into), rewritten);
      planned := planned[into := line.(intent := spelled, absorbed := line.absorbed + [seat])];
      FlattenSame(shadow, planned);
      tracks := tracks[path := Marks(track.runs, track.scars)];
      contents := contents[path := content];
      prog := folding;
      forall p | p in tracks ensures p in contents && Tracked(tracks[p].runs, prog, start, p, seat, 0) {
        if p != path {
          TrackedElsewhere(tracks[p].runs, old(prog), prog, start, p, seat);
        }
      }
    }

    /** Attribute one op's bytes to it, carrying the path's staged content forward. */
    method AttributeOne(seat: nat, k: nat, op: Op)
      modifies `tracks, `contents
      ensures Notes() == CarryOp(old(Notes()), seat, k, op)
    {
      match op {
        case Edit(path, oldStr, newStr) =>
          if path in contents {
            var found := FindUnique(contents[path], oldStr);
            if found.Err? {
              tracks, contents := tracks - {path}, contents - {path};
            } else {
              var marks := if path in tracks then tracks[path] else Marks([], {});
              var track := new Track(marks.runs, marks.scars);
              track.Edit(found.value, |oldStr|, |newStr|, seat, k);
              tracks := tracks[path := Marks(track.runs, track.scars)];
              contents := contents[path := Splice(contents[path], found.value, |oldStr|, newStr)];
            }
          }
        case Create(path, _, _, _) =>
          tracks, contents := tracks - {path}, contents - {path};
        case Delete(path, _) =>
          tracks, contents := tracks - {path}, contents - {path};
        case Chmod(_, _, _) =>
      }
    }

    method AttributeNext(seat: nat, intent: seq<Op>, k: nat, ghost before: seq<Step>, ghost start: State,
                         ghost ats: seq<nat>, ghost states: seq<State>)
      requires IsTrace(intent, ats, states) && k < |intent|
      requires InStep(Notes(), prog, start, states[k], seat, k) && prog == before + StepsOf(seat, intent, ats, k)
      modifies `tracks, `contents, `prog
      ensures InStep(Notes(), prog, start, states[k + 1], seat, k + 1)
      ensures prog == before + StepsOf(seat, intent, ats, k + 1)
      ensures Notes() == CarryOp(old(Notes()), seat, k, intent[k])
    {
      ghost var st := TraceStep(seat, intent, ats, states, k);
      ghost var n := Notes();
      AttributeOne(seat, k, intent[k]);
      AttributeStep(n, prog, start, states[k], states[k + 1], st);
      StepsGrow(before, seat, intent, ats, k);
      prog := prog + [st];
    }

    /** Extend `prog` by a call's ops, each where it landed, and bring every track up to date. */
    method Attribute(seat: nat, intent: seq<Op>, ghost start: State, ghost ats: seq<nat>, ghost states: seq<State>)
      requires IsTrace(intent, ats, states) && Valid(start, states[0]) && seat == |planned|
      modifies `tracks, `contents, `prog
      ensures InStep(Notes(), prog, start, states[|intent|], seat, |intent|)
      ensures Erased(prog) == Flatten(planned) + CallSeats(seat, intent)
      ensures Notes() == CarryOps(old(Notes()), seat, intent)
    {
      ghost var before := prog;
      assert intent[..0] == [];
      for k := 0 to |intent|
        invariant planned == old(planned)
        invariant InStep(Notes(), prog, start, states[k], seat, k)
        invariant prog == before + StepsOf(seat, intent, ats, k)
        invariant Notes() == CarryOps(old(Notes()), seat, intent[..k])
      {
        assert intent[..k + 1][..k] == intent[..k];
        AttributeNext(seat, intent, k, before, start, ats, states);
      }
      assert intent[..|intent|] == intent;
      assert Erased(prog) == Erased(before) + CallSeats(seat, intent);
    }

    /** Append the outcome of a call whose fold, attribution or skip is done. */
    method Record(outcome: Outcome, ghost start: State, ghost s: State)
      requires Keyed(s) && InStep(Notes(), prog, start, s, |planned| + 1, 0)
      requires Erased(prog) == Flatten(planned) + if outcome.Land? then CallSeats(|planned|, outcome.intent) else []
      modifies `planned
      ensures planned == old(planned) + [outcome] && Valid(start, s)
    {
      planned := planned + [outcome];
      assert planned[..|planned| - 1] == old(planned);
    }
  }

  /** The `k`th op of a traced call, seated. */
  lemma TraceStep(call: nat, ops: seq<Op>, ats: seq<nat>, states: seq<State>, k: nat) returns (st: Step)
    requires IsTrace(ops, ats, states) && k < |ops|
    ensures st == Step(call, k, ops[k], ats[k])
    ensures Lands(st, states[k]) == Some(states[k + 1]) && Keyed(states[k + 1])
  {
    assert Meets(ops[k], ats[k], states[k], states[k + 1]);
    st := Step(call, k, ops[k], ats[k]);
  }

  lemma InStepLater(n: Pass, prog: seq<Step>, start: State, s: State, call: nat, op: nat)
    requires InStep(n, prog, start, s, call, op)
    ensures InStep(n, prog, start, s, call + 1, 0)
  {}

  /** Staged contents follow the state one op on. */
  lemma ContentsStep(contents: map<Path, Text>, contents': map<Path, Text>, s: State, t: State, st: Step, p: Path)
    requires Lands(st, s) == Some(t) && p in contents'
    requires forall q :: q in contents ==> q in s && s[q].blob == contents[q]
    requires st.act.Edit? && st.act.path in contents ==>
               st.at + |st.act.oldStr| <= |contents[st.act.path]|
               && contents' == contents[st.act.path :=
                   Splice(contents[st.act.path], st.at, |st.act.oldStr|, st.act.newStr)]
    requires st.act.Chmod? || (st.act.Edit? && st.act.path !in contents) ==> contents' == contents
    requires st.act.Create? || st.act.Delete? ==> contents' == contents - {st.act.path}
    ensures p in t && t[p].blob == contents'[p]
  {}

  lemma AttributeStep(n: Pass, prog: seq<Step>, start: State, s: State, t: State, st: Step)
    requires InStep(n, prog, start, s, st.call, st.op) && Lands(st, s) == Some(t)
    requires st.act.Edit? ==> UniqueAt(s[st.act.path].blob, st.act.oldStr, st.at)
    ensures InStep(CarryOp(n, st.call, st.op, st.act), prog + [st], start, t, st.call, st.op + 1)
  {
    var n' := CarryOp(n, st.call, st.op, st.act);
    SeatsStep(prog, st.call, st.op, st);
    RunLast(prog, st, start, st.act.path);
    if st.act.Edit? { UniqueIsFound(s[st.act.path].blob, st.act.oldStr, st.at); }
    forall p | p in n'.contents ensures p in t && t[p].blob == n'.contents[p] {
      ContentsStep(n.contents, n'.contents, s, t, st, p);
    }
    forall p | p in n'.tracks
      ensures p in n'.contents && Tracked(n'.tracks[p].runs, prog + [st], start, p, st.call, st.op + 1) {
      TracksStep(n, prog, start, s, t, st, p);
    }
  }

  lemma TracksStep(n: Pass, prog: seq<Step>, start: State, s: State, t: State, st: Step, p: Path)
    requires InStep(n, prog, start, s, st.call, st.op) && Lands(st, s) == Some(t)
    requires st.act.Edit? ==> UniqueAt(s[st.act.path].blob, st.act.oldStr, st.at)
    requires p in CarryOp(n, st.call, st.op, st.act).tracks
    ensures p in CarryOp(n, st.call, st.op, st.act).contents && PosRun(prog + [st], start).Some?
    ensures Tracked(CarryOp(n, st.call, st.op, st.act).tracks[p].runs, prog + [st], start, p, st.call, st.op + 1)
  {
    if st.act.Edit? { UniqueIsFound(s[st.act.path].blob, st.act.oldStr, st.at); }
    if p == st.act.path && st.act.Edit? {
      var runs := if p in n.tracks then n.tracks[p].runs else [];
      assert Tracked(runs, prog, start, p, st.call, st.op);
      TrackedEdit(runs, prog, start, st, p);
    } else {
      TrackedBeside(n.tracks[p].runs, prog, start, st, p);
    }
  }

  lemma SeatsStep(prog: seq<Step>, call: nat, op: nat, st: Step)
    requires Ascending(prog) && SeatsBefore(prog, call, op) && st.call == call && st.op == op
    ensures Ascending(prog + [st]) && SeatsBefore(prog + [st], call, op + 1)
  {
    var prog' := prog + [st];
    forall i, j | 0 <= i < j < |prog'| ensures SeatLess(prog'[i].call, prog'[i].op, prog'[j].call, prog'[j].op) {
      assert i < |prog| && prog[i] in prog;
    }
  }

  /** A track whose path the step does not edit. */
  lemma TrackedBeside(runs: seq<Run>, prog: seq<Step>, start: State, st: Step, p: Path)
    requires PosRun(prog, start).Some? && Lands(st, PosRun(prog, start).value).Some?
    requires Tracked(runs, prog, start, p, st.call, st.op)
    requires st.act.path != p || st.act.Chmod?
    ensures PosRun(prog + [st], start).Some? && Tracked(runs, prog + [st], start, p, st.call, st.op + 1)
  {
    RunLast(prog, st, start, p);
  }

  /** The track of the path the step edits. */
  lemma TrackedEdit(runs: seq<Run>, prog: seq<Step>, start: State, st: Step, p: Path)
    requires PosRun(prog, start).Some? && Lands(st, PosRun(prog, start).value).Some?
    requires Tracked(runs, prog, start, p, st.call, st.op)
    requires st.act.Edit? && st.act.path == p
    ensures PosRun(prog + [st], start).Some?
    ensures Tracked(EditRuns(runs, st.at, |st.act.oldStr|, |st.act.newStr|, st.call, st.op), prog + [st], start, p,
                    st.call, st.op + 1)
  {
    RunLast(prog, st, start, p);
    var oldLen, newLen := |st.act.oldStr|, |st.act.newStr|;
    EditSound(runs, Origins(prog, start, p), st.at, oldLen, newLen, st.call, st.op);
    EditRunsMembers(runs, st.at, oldLen, newLen, st.call, st.op);
    var runs' := EditRuns(runs, st.at, oldLen, newLen, st.call, st.op);
    forall r | r in runs' ensures SeatLess(r.call, r.op, st.call, st.op + 1) {
      if r in CutAll(runs, st.at, oldLen, newLen) {
        var i := PieceSource(runs, st.at, oldLen, newLen, r);
        PieceClear(runs[i], r, st.at, oldLen, newLen);
        assert runs[i] in runs;
      }
    }
  }

  /** What the planner knows while a call is being folded. */
  ghost predicate Folding(planned: seq<Outcome>, owner: Option<nat>, rewritten: map<nat, Text>, runs: seq<Run>,
                          path: Path, content: Text, start: State, folding: seq<Step>, cur: State, seat: nat)
  {
    && Keyed(cur) && path in cur && cur[path].blob == content
    && PosRun(folding, start) == Some(cur)
    && Ascending(folding) && SeatsBefore(folding, seat, 0)
    && Tracked(runs, folding, start, path, seat, 0)
    && (owner.Some? ==> owner.value < |planned| && planned[owner.value].Land?)
    && (owner.None? ==> rewritten == map[])
    && Erased(folding) == Flatten(Overlay(planned, owner, rewritten))
  }

  ghost predicate SameElsewhere(prog: seq<Step>, prog': seq<Step>, start: State, path: Path) {
    && PosRun(prog, start).Some? && PosRun(prog', start).Some?
    && forall q :: q != path ==> Origins(prog', start, q) == Origins(prog, start, q)
  }

  /** A fold under way: everything off `path` is still as it was before the call. */
  ghost predicate Progress(planned: seq<Outcome>, prog: seq<Step>, s: State, owner: Option<nat>,
                           rewritten: map<nat, Text>, runs: seq<Run>, path: Path, content: Text, start: State,
                           folding: seq<Step>, cur: State, seat: nat)
  {
    && Folding(planned, owner, rewritten, runs, path, content, start, folding, cur, seat)
    && OnlyDiffersAt(s, cur, path, content)
    && SameElsewhere(prog, folding, start, path)
  }

  lemma StartFolding(planned: seq<Outcome>, runs: seq<Run>, path: Path, content: Text, start: State,
                     prog: seq<Step>, s: State, seat: nat)
    requires Keyed(s) && path in s && s[path].blob == content
    requires PosRun(prog, start) == Some(s) && Ascending(prog) && SeatsBefore(prog, seat, 0)
    requires Tracked(runs, prog, start, path, seat, 0) && Erased(prog) == Flatten(planned)
    ensures Progress(planned, prog, s, None, map[], runs, path, content, start, prog, s, seat)
  {}

  lemma RunsAreSeated(planned: seq<Outcome>, prog: seq<Step>, s: State, owner: Option<nat>, rewritten: map<nat, Text>,
                      runs: seq<Run>, path: Path, content: Text, start: State, folding: seq<Step>, cur: State,
                      seat: nat)
    requires Progress(planned, prog, s, owner, rewritten, runs, path, content, start, folding, cur, seat)
    ensures forall run :: run in runs ==> run.at >= 0
  {
  }

  lemma ProgressStep(planned: seq<Outcome>, prog: seq<Step>, s: State, owner: Option<nat>, h: Spot,
                     rewritten: map<nat, Text>, runs: seq<Run>, path: Path, content: Text, start: State,
                     folding: seq<Step>, cur: State, met: nat, next: State, seat: nat, op: Op)
    requires Progress(planned, prog, s, owner, rewritten, runs, path, content, start, folding, cur, seat)
    requires op.Edit? && op.path == path && Meets(op, met, cur, next) && UniqueAt(content, op.oldStr, h.at)
    requires FallsOn(h, planned, owner, rewritten, runs, op)
    ensures Progress(planned, prog, s, Some(h.into), rewritten[h.op := h.spliced],
                     RewriteRuns(runs, h.idx, h.at, |op.oldStr|, |op.newStr|), path,
                     Splice(content, h.at, |op.oldStr|, op.newStr),
                     start, Fold(folding, path, h.at, |op.oldStr|, op.newStr, h.into, h.op, h.seat), next, seat)
  {
    assert met == h.at;
    AbsorbStep(folding, start, runs, path, seat, h.idx, h.at, |op.oldStr|, op.newStr);
    OverlayStep(folding, start, planned, owner, h.into, rewritten, h.op, h.spliced, path, h.at, |op.oldStr|, op.newStr,
                h.seat);
    assert next == Patched(cur, path, h.at, |op.oldStr|, op.newStr);
  }

  lemma TrackedElsewhere(runs: seq<Run>, prog: seq<Step>, prog': seq<Step>, start: State, p: Path, seat: nat)
    requires PosRun(prog, start).Some? && PosRun(prog', start).Some?
        && Origins(prog', start, p) == Origins(prog, start, p)
    requires Tracked(runs, prog, start, p, seat, 0)
    ensures Tracked(runs, prog', start, p, seat, 0)
  {}

  lemma FlattenSame(a: seq<Outcome>, b: seq<Outcome>)
    requires |a| == |b|
    requires forall i :: 0 <= i < |a| ==> a[i].Land? == b[i].Land? && (a[i].Land? ==> a[i].intent == b[i].intent)
    ensures Flatten(a) == Flatten(b)
  {
    if a != [] { FlattenSame(a[..|a| - 1], b[..|b| - 1]); }
  }

  lemma OverlayStep(folding: seq<Step>, start: State, planned: seq<Outcome>, owner: Option<nat>, into: nat,
                    rewritten: map<nat, Text>, op: nat, spliced: Text,
                    path: Path, at: nat, oldLen: nat, newStr: Text, seat: nat)
    requires PosRun(folding, start).Some? && Ascending(folding)
    requires Erased(folding) == Flatten(Overlay(planned, owner, rewritten))
    requires Region(Origins(folding, start, path), at, oldLen, into, op, seat)
    requires into < |planned| && planned[into].Land? && op < |planned[into].intent| && planned[into].intent[op].Edit?
    requires owner == Some(into) || (owner.None? && rewritten == map[])
    requires var target := if op in rewritten then rewritten[op] else planned[into].intent[op].newStr;
             seat + oldLen <= |target| && spliced == Splice(target, seat, oldLen, newStr)
    ensures Erased(Fold(folding, path, at, oldLen, newStr, into, op, seat))
         == Flatten(Overlay(planned, Some(into), rewritten[op := spliced]))
  {
    var shadow, next := Overlay(planned, owner, rewritten), Overlay(planned, Some(into), rewritten[op := spliced]);
    var ops := planned[into].intent;
    assert Respelled(ops, map[]) == ops;
    assert shadow[into].intent == Respelled(ops, rewritten);
    FoldMatches(folding, start, shadow, next[into], path, at, oldLen, newStr, into, op, seat);
    assert next == shadow[into := next[into]];
  }

  /** `t` is `s` but for `p`, which holds `content`. */
  ghost predicate OnlyDiffersAt(s: State, t: State, p: Path, content: Text) {
    && p in t && t[p].blob == content
    && forall q :: q != p ==> (q in s <==> q in t) && (q in s ==> s[q] == t[q])
  }

  /** The plan after a fold: the owner's line takes the rewrite and lists the call. */
  ghost predicate FoldedInto(before: seq<Outcome>, after: seq<Outcome>, into: nat, seat: nat) {
    && into < |before| == |after| && before[into].Land? && after[into].Land?
    && after[into].faithful == before[into].faithful
    && after[into].absorbed == before[into].absorbed + [seat]
    && SameButNewStr(before[into].intent, after[into].intent)
    && forall i :: 0 <= i < |before| && i != into ==> after[i] == before[i]
  }

  /** The same ops but for the `new_str` of edits. */
  predicate SameButNewStr(a: seq<Op>, b: seq<Op>) {
    |a| == |b| && forall j :: 0 <= j < |a| ==>
      a[j] == b[j] || (a[j].Edit? && b[j].Edit? && b[j] == a[j].(newStr := b[j].newStr))
  }

  /** The bytes inside one run are its op's, untouched. */
  lemma RunIsRegion(runs: seq<Run>, o: Provenance, idx: nat, at: nat, oldLen: nat)
    requires Sound(runs, o) && Within(runs, idx, at, oldLen) && 0 <= runs[idx].at
    ensures Region(o, at, oldLen, runs[idx].call, runs[idx].op, SeatOf(runs, idx, at))
  {
    assert runs[idx] in runs;
    assert forall x :: at <= x < at + oldLen ==> Covers(runs[idx], x);
  }

  lemma FoldSeatsBefore(prog: seq<Step>, p: Path, pos: nat, m: nat, with: Text, call: nat, op: nat, at: nat, seat: nat)
    requires SeatsBefore(prog, seat, 0)
    ensures SeatsBefore(Fold(prog, p, pos, m, with, call, op, at), seat, 0)
  {
    var prog' := Fold(prog, p, pos, m, with, call, op, at);
    forall i: nat | i < |prog'| ensures SeatLess(prog'[i].call, prog'[i].op, seat, 0) {
      FoldSeats(prog, p, pos, m, with, call, op, at, i);
      assert prog[i] in prog;
    }
  }

  /** The track of a path whose run `idx` was rewritten, for the program folded there. */
  lemma RewriteTracked(prog: seq<Step>, prog': seq<Step>, start: State, runs: seq<Run>, p: Path, seat: nat,
                       idx: nat, at: nat, oldLen: nat, newLen: nat)
    requires PosRun(prog, start).Some? && PosRun(prog', start).Some? && Tracked(runs, prog, start, p, seat, 0)
    requires Within(runs, idx, at, oldLen) && 0 <= runs[idx].at && at + oldLen <= |Origins(prog, start, p)|
    requires Origins(prog', start, p)
          == RewriteOrigins(Origins(prog, start, p), at, oldLen, newLen, runs[idx].call, runs[idx].op,
                            SeatOf(runs, idx, at))
    ensures Tracked(RewriteRuns(runs, idx, at, oldLen, newLen), prog', start, p, seat, 0)
  {
    RewriteOrdered(runs, idx, at, oldLen, newLen);
    RewriteSound(runs, Origins(prog, start, p), idx, at, oldLen, newLen);
    var runs' := RewriteRuns(runs, idx, at, oldLen, newLen);
    forall i | 0 <= i < |runs'| ensures SeatLess(runs'[i].call, runs'[i].op, seat, 0) {
      assert runs[i] in runs;
    }
  }

  /** One absorbed edit keeps the track sound for the folded program. */
  lemma AbsorbStep(prog: seq<Step>, start: State, runs: seq<Run>, p: Path, seat: nat,
                   idx: nat, at: nat, oldLen: nat, newStr: Text)
    requires PosRun(prog, start).Some? && Ascending(prog) && SeatsBefore(prog, seat, 0)
    requires Tracked(runs, prog, start, p, seat, 0) && Within(runs, idx, at, oldLen)
    requires 0 <= runs[idx].at
    ensures Region(Origins(prog, start, p), at, oldLen, runs[idx].call, runs[idx].op, SeatOf(runs, idx, at))
    ensures var prog' := Fold(prog, p, at, oldLen, newStr, runs[idx].call, runs[idx].op, SeatOf(runs, idx, at));
            && p in PosRun(prog, start).value && at + oldLen <= |PosRun(prog, start).value[p].blob|
            && PosRun(prog', start) == Some(Patched(PosRun(prog, start).value, p, at, oldLen, newStr))
            && Ascending(prog') && SeatsBefore(prog', seat, 0)
            && Tracked(RewriteRuns(runs, idx, at, oldLen, |newStr|), prog', start, p, seat, 0)
            && forall q :: q != p ==> Origins(prog', start, q) == Origins(prog, start, q)
  {
    var r, seatAt := runs[idx], SeatOf(runs, idx, at);
    RunIsRegion(runs, Origins(prog, start, p), idx, at, oldLen);
    var prog' := Fold(prog, p, at, oldLen, newStr, r.call, r.op, seatAt);
    FoldKeeps(prog, start, p, at, oldLen, newStr, r.call, r.op, seatAt);
    FoldAscending(prog, p, at, oldLen, newStr, r.call, r.op, seatAt);
    FoldSeatsBefore(prog, p, at, oldLen, newStr, r.call, r.op, seatAt, seat);
    RewriteTracked(prog, prog', start, runs, p, seat, idx, at, oldLen, |newStr|);
    forall q | q != p ensures Origins(prog', start, q) == Origins(prog, start, q) {
      FoldElsewhere(prog, start, p, at, oldLen, newStr, r.call, r.op, seatAt, q);
    }
  }
}
