/** What pass 1 of the planner keeps (src/claude.rs), as values: the plan so far, each path's track,
    and each path's staged content; and what one call does to them. */
module PassState {
  import opened Wrappers
  import opened Spans
  import opened Patch
  import opened Tracks
  import opened Planner
  import Utf8

  /** A path's track as the session stores it: an owned value, never shared. */
  datatype Marks = Marks(runs: seq<Run>, scars: set<nat>)

  datatype Pass = Pass(planned: seq<Outcome>, tracks: map<Path, Marks>, contents: map<Path, Text>)

  ////////////////////////////////////////////// staging ////////////////////////////////////////////////

  /** The paths an intent names whose content the pool can supply. */
  function Stageable(intent: seq<Op>, pool: set<Text>, s: State): set<Path> {
    set k | 0 <= k < |intent| && intent[k].path in s && s[intent[k].path].blob in pool :: intent[k].path
  }

  /** What staging an intent leaves: each such path, at the content already carried for it if any. */
  function Staged(contents: map<Path, Text>, intent: seq<Op>, pool: set<Text>, s: State): map<Path, Text> {
    map p | p in contents.Keys + Stageable(intent, pool, s) :: if p in contents then contents[p] else s[p].blob
  }

  lemma StagedMore(contents: map<Path, Text>, intent: seq<Op>, k: nat, pool: set<Text>, s: State)
    requires k < |intent|
    ensures var now, p := Staged(contents, intent[..k], pool, s), intent[k].path;
            Staged(contents, intent[..k + 1], pool, s)
            == if p !in now && p in s && s[p].blob in pool then now[p := s[p].blob] else now
  {
    assert intent[..k + 1] == intent[..k] + [intent[k]];
    assert Stageable(intent[..k + 1], pool, s)
        == Stageable(intent[..k], pool, s) + Stageable([intent[k]], pool, s);
  }

  ///////////////////////////////////////////// absorption //////////////////////////////////////////////

  /** `str::get`: the slice, when both ends are char boundaries of the text. */
  function Slice(t: Text, start: int, end: int): Option<Text> {
    if 0 <= start <= end <= |t| && Utf8.Boundary(t, start) && Utf8.Boundary(t, end) then Some(t[start..end]) else None
  }

  /** The first run that contains `[at, end)`. */
  function Position(runs: seq<Run>, at: nat, end: nat): (r: Option<nat>)
    ensures r.Some? ==> r.value < |runs| && runs[r.value].start <= at && end <= runs[r.value].end
    decreases |runs|
  {
    if runs == [] then None
    else
      var earlier := Position(runs[..|runs| - 1], at, end);
      if earlier.Some? then earlier
      else if runs[|runs| - 1].start <= at && end <= runs[|runs| - 1].end then Some(|runs| - 1) else None
  }

  /** The ops of the owning call with its rewritten `new_str`s in place. */
  function Respelled(ops: seq<Op>, rewritten: map<nat, Text>): (r: seq<Op>)
    ensures |r| == |ops|
  {
    seq(|ops|, j requires 0 <= j < |ops| =>
      if j in rewritten && ops[j].Edit? then ops[j].(newStr := rewritten[j]) else ops[j])
  }

  /** Where a rewrite falls: at `at`, within run `idx`, on `seat` of op `op` of call `into`, whose
      `new_str` it leaves `spliced`. */
  datatype Spot = Spot(into: nat, idx: nat, at: nat, op: nat, seat: nat, spliced: Text)

  /** A call half folded: into which call, the `new_str`s rewritten there, and the path's track and
      content as the fold leaves them. */
  datatype Partial = Partial(owner: Option<nat>, rewritten: map<nat, Text>, marks: Marks, content: Text)

  /** Where an op's span falls: inside one run, of a landed edit of the owner, whose text there
      is still what the op replaces. */
  function PlaceOf(planned: seq<Outcome>, f: Partial, op: Op, path: Path): (r: Option<Spot>)
    ensures r.Some? ==>
              && op.Edit? && op.path == path && UniqueAt(f.content, op.oldStr, r.value.at)
              && Within(f.marks.runs, r.value.idx, r.value.at, |op.oldStr|)
  {
    if !op.Edit? || op.path != path || op.oldStr == [] || FindUnique(f.content, op.oldStr).Err? then None
    else
      var at, len := FindUnique(f.content, op.oldStr).value, |op.oldStr|;
      match Position(f.marks.runs, at, at + len)
      case None => None
      case Some(idx) =>
        var run := f.marks.runs[idx];
        var into := if f.owner.Some? then f.owner.value else run.call;
        if into != run.call || !LandsEdit(planned, into, run.op) then None
        else
          var target := if run.op in f.rewritten then f.rewritten[run.op] else planned[into].intent[run.op].newStr;
          var seat := run.at + (at - run.start);
          if Slice(target, seat, seat + len) != Some(op.oldStr) then None
          else Some(Spot(into, idx, at, run.op, seat, Splice(target, seat, len, op.newStr)))
  }

  /** The seat is an edit of a call that lands. */
  predicate LandsEdit(planned: seq<Outcome>, call: nat, op: nat) {
    call < |planned| && planned[call].Land? && op < |planned[call].intent| && planned[call].intent[op].Edit?
  }

  /** One op of a call under absorption: it folds exactly where its span has a place. */
  function FoldOp(planned: seq<Outcome>, f: Partial, op: Op, path: Path): Option<Partial> {
    match PlaceOf(planned, f, op, path)
    case None => None
    case Some(h) =>
      var oldLen, newLen := |op.oldStr|, |op.newStr|;
      Some(Partial(Some(h.into), f.rewritten[h.op := h.spliced],
                   Marks(RewriteRuns(f.marks.runs, h.idx, h.at, oldLen, newLen),
                         ShiftScars(f.marks.scars, h.at, oldLen, newLen)),
                   Splice(f.content, h.at, oldLen, op.newStr)))
  }

  /** A call's ops, each folding into what the ones before it left. */
  function FoldOps(planned: seq<Outcome>, f: Partial, ops: seq<Op>, path: Path): Option<Partial> {
    if ops == [] then Some(f)
    else
      match FoldOps(planned, f, ops[..|ops| - 1], path)
      case None => None
      case Some(g) => FoldOp(planned, g, ops[|ops| - 1], path)
  }

  lemma FoldMore(planned: seq<Outcome>, f: Partial, ops: seq<Op>, path: Path, k: nat)
    requires k < |ops|
    ensures FoldOps(planned, f, ops[..k + 1], path)
         == match FoldOps(planned, f, ops[..k], path)
            case None => None
            case Some(g) => FoldOp(planned, g, ops[k], path)
  {
    assert ops[..k + 1][..k] == ops[..k];
  }

  lemma {:induction false} FoldStops(planned: seq<Outcome>, f: Partial, ops: seq<Op>, path: Path, k: nat)
    requires k <= |ops| && FoldOps(planned, f, ops[..k], path).None?
    ensures FoldOps(planned, f, ops, path).None?
    decreases |ops|
  {
    if k == |ops| {
      assert ops[..k] == ops;
    } else {
      var init := ops[..|ops| - 1];
      assert init[..k] == ops[..k];
      FoldStops(planned, f, init, path, k);
    }
  }

  lemma {:induction false} FoldNames(planned: seq<Outcome>, f: Partial, ops: seq<Op>, path: Path)
    requires ops != [] && FoldOps(planned, f, ops, path).Some?
    ensures var owner := FoldOps(planned, f, ops, path).value.owner;
            owner.Some? && owner.value < |planned| && planned[owner.value].Land?
  {
    var g := FoldOps(planned, f, ops[..|ops| - 1], path).value;
    var h := PlaceOf(planned, g, ops[|ops| - 1], path).value;
  }

  /** Whether, and how, a whole call folds: all of its ops into one earlier call, on one tracked path. */
  function FoldOf(n: Pass, ops: seq<Op>): Option<Partial> {
    if ops == [] || ops[0].path !in n.tracks || ops[0].path !in n.contents then None
    else
      var path := ops[0].path;
      FoldOps(n.planned, Partial(None, map[], n.tracks[path], n.contents[path]), ops, path)
  }

  /** The plan, tracks and contents once a call has folded: its owner's line takes the rewrite and
      lists the call. */
  function AfterFold(n: Pass, seat: nat, ops: seq<Op>, f: Partial): Pass
    requires FoldOf(n, ops) == Some(f)
  {
    var path := ops[0].path;
    FoldNames(n.planned, Partial(None, map[], n.tracks[path], n.contents[path]), ops, path);
    var into := f.owner.value;
    var line := n.planned[into];
    Pass(n.planned[into := line.(intent := Respelled(line.intent, f.rewritten), absorbed := line.absorbed + [seat])],
         n.tracks[path := f.marks], n.contents[path := f.content])
  }

  ///////////////////////////////////////////// attribution /////////////////////////////////////////////

  /** How one op moves the tracks and staged contents.  An edit that cannot be located
      degrades to no runs; a create or delete leaves nothing to attribute. */
  function CarryOp(n: Pass, seat: nat, k: nat, op: Op): Pass {
    var p := op.path;
    if op.Chmod? || (op.Edit? && p !in n.contents) then n
    else if op.Edit? && FindUnique(n.contents[p], op.oldStr).Ok? then
      var at, oldLen, newLen := FindUnique(n.contents[p], op.oldStr).value, |op.oldStr|, |op.newStr|;
      var marks := if p in n.tracks then n.tracks[p] else Marks([], {});
      n.(contents := n.contents[p := Splice(n.contents[p], at, oldLen, op.newStr)],
         tracks := n.tracks[p := Marks(EditRuns(marks.runs, at, oldLen, newLen, seat, k),
                                       EditScars(marks.scars, at, oldLen, newLen))])
    else n.(tracks := n.tracks - {p}, contents := n.contents - {p})
  }

  function CarryOps(n: Pass, seat: nat, ops: seq<Op>): Pass {
    if ops == [] then n
    else CarryOp(CarryOps(n, seat, ops[..|ops| - 1]), seat, |ops| - 1, ops[|ops| - 1])
  }

  /////////////////////////////////////////////// one call //////////////////////////////////////////////

  /** What a call that applied does: it folds where it can, else it lands and is attributed. */
  function Taken(n: Pass, ops: seq<Op>): Pass {
    var seat := |n.planned|;
    match FoldOf(n, ops)
    case Some(f) =>
      var after := AfterFold(n, seat, ops, f);
      after.(planned := after.planned + [Absorbed(ops)])
    case None =>
      var after := CarryOps(n, seat, ops);
      after.(planned := n.planned + [Land(ops, ops, [])])
  }

  function Skipped(n: Pass): Pass {
    n.(planned := n.planned + [Skip])
  }
}
