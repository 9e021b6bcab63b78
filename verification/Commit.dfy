/** Committing a difference (src/diff.rs, src/repo.rs `commit` and `repoint`): the path changes
    between two manifests, and the two forms in which they replay. */
module Commit {
  import opened Wrappers
  import opened Spans
  import opened Patch
  import opened Logs
  import opened Strata
  import opened Reenact
  import opened Repo
  import opened Synth
  import opened Lines

  datatype Change = Change(path: Path, before: Option<Record>, after: Option<Record>)

  function Get(s: State, p: Path): Option<Record> {
    if p in s then Some(s[p]) else None
  }

  ghost predicate IsChange(before: State, after: State, c: Change) {
    c.before == Get(before, c.path) && c.after == Get(after, c.path) && c.before != c.after
  }

  predicate Listed(changes: seq<Change>, p: Path) {
    exists k :: 0 <= k < |changes| && changes[k].path == p
  }

  /** One change for each of the paths that differs, and nothing else. */
  ghost predicate IsDiffOn(before: State, after: State, paths: set<Path>, changes: seq<Change>) {
    && (forall k :: 0 <= k < |changes| ==> IsChange(before, after, changes[k]) && changes[k].path in paths)
    && (forall i, j :: 0 <= i < j < |changes| ==> changes[i].path != changes[j].path)
    && forall p :: p in paths && Get(before, p) != Get(after, p) ==> Listed(changes, p)
  }

  /** The difference of two manifests, one change for each path that differs. */
  ghost predicate IsDiff(before: State, after: State, changes: seq<Change>) {
    IsDiffOn(before, after, before.Keys + after.Keys, changes)
  }

  lemma DiffMore(before: State, after: State, done: set<Path>, changes: seq<Change>, p: Path)
    requires IsDiffOn(before, after, done, changes) && p !in done
    ensures IsDiffOn(before, after, done + {p},
                     if Get(before, p) != Get(after, p) then changes + [Change(p, Get(before, p), Get(after, p))]
                       else changes)
  {
    if Get(before, p) != Get(after, p) {
      var more := changes + [Change(p, Get(before, p), Get(after, p))];
      assert more[|changes|].path == p;
      forall q | q in done && Get(before, q) != Get(after, q) ensures Listed(more, q) {
        var k :| 0 <= k < |changes| && changes[k].path == q;
        assert more[k].path == q;
      }
    }
  }

  method DiffManifests(before: State, after: State) returns (changes: seq<Change>)
    ensures IsDiff(before, after, changes)
  {
    changes := [];
    var all, done: set<Path> := before.Keys + after.Keys, {};
    while all - done != {}
      invariant done <= all && IsDiffOn(before, after, done, changes)
      decreases all - done
    {
      var p :| p in all - done;
      DiffMore(before, after, done, changes, p);
      if Get(before, p) != Get(after, p) { changes := changes + [Change(p, Get(before, p), Get(after, p))]; }
      done := done + {p};
    }
    forall p | p in all ensures p in done { assert p !in all - done; }
    assert done == all;
  }

  /** `after` on the paths done, `before` elsewhere. */
  function Mixed(before: State, after: State, done: set<Path>): State {
    map p | p in before.Keys + after.Keys && (if p in done then p in after else p in before) ::
      if p in done then after[p] else before[p]
  }

  function PathsOf(changes: seq<Change>): set<Path> {
    set k | 0 <= k < |changes| :: changes[k].path
  }

  lemma ListedIsPath(changes: seq<Change>, p: Path)
    ensures Listed(changes, p) <==> p in PathsOf(changes)
  {
  }

  lemma MixedAt(before: State, after: State, done: set<Path>, p: Path)
    ensures Get(Mixed(before, after, done), p) == if p in done then Get(after, p) else Get(before, p)
  {
  }

  lemma GetFixes(s: State, t: State)
    requires forall p :: Get(s, p) == Get(t, p)
    ensures s == t
  {
    forall p ensures p in s <==> p in t { assert Get(s, p) == Get(t, p); }
    forall p | p in s ensures s[p] == t[p] { assert Get(s, p) == Get(t, p); }
  }

  lemma NoneDone(before: State, after: State)
    ensures Mixed(before, after, {}) == before
  {
    forall p ensures Get(Mixed(before, after, {}), p) == Get(before, p) { MixedAt(before, after, {}, p); }
    GetFixes(Mixed(before, after, {}), before);
  }

  lemma AllDone(before: State, after: State, changes: seq<Change>)
    requires IsDiff(before, after, changes)
    ensures Mixed(before, after, PathsOf(changes)) == after
  {
    var done := PathsOf(changes);
    forall p ensures Get(Mixed(before, after, done), p) == Get(after, p) {
      MixedAt(before, after, done, p);
      ListedIsPath(changes, p);
    }
    GetFixes(Mixed(before, after, done), after);
  }

  /** `p` moved to what `after` holds there. */
  function Moved(s: State, after: State, p: Path): State {
    if p in after then s[p := after[p]] else s - {p}
  }

  lemma MixedMore(before: State, after: State, done: set<Path>, p: Path)
    ensures Mixed(before, after, done + {p}) == Moved(Mixed(before, after, done), after, p)
  {
    var s := Mixed(before, after, done);
    forall q ensures Get(Mixed(before, after, done + {p}), q) == Get(Moved(s, after, p), q) {
      MixedAt(before, after, done, q);
      MixedAt(before, after, done + {p}, q);
    }
    GetFixes(Mixed(before, after, done + {p}), Moved(s, after, p));
  }

  lemma PathsMore(changes: seq<Change>, k: nat)
    requires k < |changes|
    ensures PathsOf(changes[..k + 1]) == PathsOf(changes[..k]) + {changes[k].path}
  {
    var p := changes[k].path;
    forall q ensures q in PathsOf(changes[..k + 1]) <==> q in PathsOf(changes[..k]) || q == p {
      if q == p { assert changes[..k + 1][k].path == p; }
      if q in PathsOf(changes[..k]) {
        var j :| 0 <= j < k && changes[..k][j].path == q;
        assert changes[..k + 1][j].path == q;
      }
    }
  }

  /** One more path done: only that path moves, from its before to its after. */
  lemma MixedStep(before: State, after: State, changes: seq<Change>, k: nat)
    requires IsDiff(before, after, changes) && k < |changes|
    ensures Get(Mixed(before, after, PathsOf(changes[..k])), changes[k].path) == changes[k].before
    ensures Mixed(before, after, PathsOf(changes[..k + 1]))
        == Moved(Mixed(before, after, PathsOf(changes[..k])), after, changes[k].path)
    ensures IsChange(before, after, changes[k])
  {
    var p := changes[k].path;
    PathsMore(changes, k);
    MixedMore(before, after, PathsOf(changes[..k]), p);
    MixedAt(before, after, PathsOf(changes[..k]), p);
    assert p !in PathsOf(changes[..k]);
  }

  ////////////////////////////////////////////// realized ///////////////////////////////////////////////

  function RealizedOf(changes: seq<Change>): seq<Entry> {
    seq(|changes|, k requires 0 <= k < |changes| => Entry(changes[k].before, changes[k].after))
  }

  /** The delta a commit or a repoint records adjudicates against the state it leaves, and
      reaches the state it names. */
  lemma {:induction false} DiffReplays(before: State, after: State, changes: seq<Change>, k: nat)
    requires IsDiff(before, after, changes) && Keyed(before) && Keyed(after) && k <= |changes|
    ensures Replay(before, RealizedOf(changes[..k])) == Some(Mixed(before, after, PathsOf(changes[..k])))
  {
    if k == 0 {
      NoneDone(before, after);
      assert PathsOf(changes[..0]) == {};
    } else {
      DiffReplays(before, after, changes, k - 1);
      MixedStep(before, after, changes, k - 1);
      var all := RealizedOf(changes[..k]);
      assert all[..k - 1] == RealizedOf(changes[..k - 1]);
      assert all[k - 1] == Entry(changes[k - 1].before, changes[k - 1].after);
      EntryMoves(Mixed(before, after, PathsOf(changes[..k - 1])), after, changes[k - 1]);
    }
  }

  lemma EntryMoves(s: State, after: State, c: Change)
    requires Get(s, c.path) == c.before && Get(after, c.path) == c.after && c.before != c.after
    requires c.before.Some? ==> c.before.value.path == c.path
    requires c.after.Some? ==> c.after.value.path == c.path
    ensures var e := Entry(c.before, c.after);
            Adjudicates(s, e) && Step(s, e) == Moved(s, after, c.path)
  {
  }

  lemma CommitReplays(before: State, after: State, changes: seq<Change>)
    requires IsDiff(before, after, changes) && Keyed(before) && Keyed(after)
    ensures Replay(before, RealizedOf(changes)) == Some(after)
  {
    DiffReplays(before, after, changes, |changes|);
    assert changes[..|changes|] == changes;
    AllDone(before, after, changes);
  }

  /////////////////////////////////////////////// intent ////////////////////////////////////////////////

  const SYMLINK: Mode := "120000"

  function CreateOf(r: Record): Op {
    Create(r.path, r.mode, Some(r.blob), None)
  }

  function DeleteOf(r: Record): Op {
    Delete(r.path, r.blob)
  }

  /** The ops a change becomes: a create, a delete, a chmod, a span edit where the content is
      text and the mode held, else the element consumed and recreated. */
  ghost predicate Synthesized(c: Change, ops: seq<Op>) {
    match (c.before, c.after)
    case (None, Some(after)) => ops == [CreateOf(after)]
    case (Some(before), None) => ops == [DeleteOf(before)]
    case (Some(before), Some(after)) =>
      if before.blob == after.blob then ops == [Chmod(c.path, before.mode, after.mode)]
      else if before.mode == after.mode && before.mode != SYMLINK && IsUtf8(before.blob) && IsUtf8(after.blob)
        && before.blob != []
      then |ops| == 1 && ops[0].Edit? && ops[0].path == c.path
        && IsSpanEdit(before.blob, after.blob, ops[0].oldStr, ops[0].newStr)
      else ops == [DeleteOf(before), CreateOf(after)]
    case (None, None) => false
  }

  function FlatOps(parts: seq<seq<Op>>): seq<Op> {
    if parts == [] then [] else FlatOps(parts[..|parts| - 1]) + parts[|parts| - 1]
  }

  method SynthesizeOne(c: Change, pool: set<Text>) returns (r: Result<seq<Op>, Error>)
    ensures r.Ok? ==> Synthesized(c, r.value)
    ensures r.Err? ==> (c.before.None? && c.after.None?)
                       || (c.before.Some? && c.after.Some?
                           && !(c.before.value.blob in pool && c.after.value.blob in pool))
  {
    match (c.before, c.after) {
      case (None, Some(after)) => return Ok([CreateOf(after)]);
      case (Some(before), None) => return Ok([DeleteOf(before)]);
      case (None, None) => return Err(Invalid);
      case (Some(before), Some(after)) =>
        if before.blob == after.blob { return Ok([Chmod(c.path, before.mode, after.mode)]); }
        if before.mode == after.mode && before.mode != SYMLINK {
          if before.blob !in pool || after.blob !in pool { return Err(Io); }
          var edit := SynthesizeEdit(before.blob, after.blob);
          if edit.Some? { return Ok([Edit(c.path, edit.value.0, edit.value.1)]); }
        }
        return Ok([DeleteOf(before), CreateOf(after)]);
    }
  }

  method SynthesizeIntent(changes: seq<Change>, pool: set<Text>)
    returns (r: Result<seq<Op>, Error>, ghost parts: seq<seq<Op>>)
    ensures r.Ok? ==> r.value == FlatOps(parts) && |parts| == |changes|
                      && forall k :: 0 <= k < |changes| ==> Synthesized(changes[k], parts[k])
    ensures (forall c :: c in changes ==> (c.before.Some? || c.after.Some?)
                                          && (c.before.Some? ==> c.before.value.blob in pool)
                                          && (c.after.Some? ==> c.after.value.blob in pool))
            ==> r.Ok?
  {
    var ops: seq<Op> := [];
    parts := [];
    for k := 0 to |changes|
      invariant |parts| == k && ops == FlatOps(parts)
      invariant forall j :: 0 <= j < k ==> Synthesized(changes[j], parts[j])
    {
      var one := SynthesizeOne(changes[k], pool);
      if one.Err? {
        assert changes[k] in changes;
        return Err(one.error), parts;
      }
      assert (parts + [one.value])[..k] == parts;
      ops, parts := ops + one.value, parts + [one.value];
    }
    r := Ok(ops);
  }

  /** Every record of a manifest is well formed and its content pooled. */
  ghost predicate Materializable(s: State, pool: set<Text>) {
    Keyed(s) && forall p :: p in s ==> ValidPath(p) && ValidMode(s[p].mode) && s[p].blob in pool
  }

  lemma RunOpsOne(ops: seq<Op>, op: Op, s: State, pool: set<Text>)
    requires RunOps(ops, s, pool).Ok? && ApplyOp(op, RunOps(ops, s, pool).value.state,
                                                 pool + RunOps(ops, s, pool).value.blobs).Ok?
    ensures RunOps(ops + [op], s, pool).Ok?
    ensures RunOps(ops + [op], s, pool).value.state
            == ApplyOp(op, RunOps(ops, s, pool).value.state, pool + RunOps(ops, s, pool).value.blobs).value.state
  {
    assert (ops + [op])[..|ops|] == ops;
  }

  /** Both sides of a change are well formed and pooled. */
  predicate Usable(c: Change, pool: set<Text>) {
    && ValidPath(c.path)
    && (c.before.Some? ==>
          c.before.value.path == c.path && ValidMode(c.before.value.mode) && c.before.value.blob in pool)
    && (c.after.Some? ==>
          c.after.value.path == c.path && ValidMode(c.after.value.mode) && c.after.value.blob in pool)
  }

  lemma ChangesUsable(before: State, after: State, changes: seq<Change>, pool: set<Text>, k: nat)
    requires IsDiff(before, after, changes) && Materializable(before, pool) && Materializable(after, pool)
        && k < |changes|
    ensures Usable(changes[k], pool) && IsChange(before, after, changes[k])
  {
    assert IsChange(before, after, changes[k]);
  }

  /** The ops of one change, from a state that holds its before, reach its after. */
  lemma ChangeRuns(c: Change, part: seq<Op>, ops: seq<Op>, before: State, after: State, pool: set<Text>)
    requires Synthesized(c, part) && RunOps(ops, before, pool).Ok? && c.before != c.after
    requires Get(RunOps(ops, before, pool).value.state, c.path) == c.before && Get(after, c.path) == c.after
    requires Usable(c, pool)
    ensures RunOps(ops + part, before, pool).Ok?
    ensures RunOps(ops + part, before, pool).value.state == Moved(RunOps(ops, before, pool).value.state, after, c.path)
  {
    var run := RunOps(ops, before, pool).value;
    var known := pool + run.blobs;
    if |part| == 1 {
      OneOpMoves(c, part[0], run.state, after, known);
      RunOpsOne(ops, part[0], before, pool);
      assert part == [part[0]];
    } else {
      TwoOpsMove(c, run.state, after, known);
      RunOpsOne(ops, part[0], before, pool);
      RunOpsOne(ops + [part[0]], part[1], before, pool);
      assert ops + [part[0]] + [part[1]] == ops + part;
    }
  }

  lemma OneOpMoves(c: Change, op: Op, s: State, after: State, known: set<Text>)
    requires Synthesized(c, [op]) && Usable(c, known) && c.before != c.after
    requires Get(s, c.path) == c.before && Get(after, c.path) == c.after
    ensures ApplyOp(op, s, known).Ok? && ApplyOp(op, s, known).value.state == Moved(s, after, c.path)
  {
    assert [op][0] == op;
  }

  lemma TwoOpsMove(c: Change, s: State, after: State, known: set<Text>)
    requires c.before.Some? && c.after.Some? && Usable(c, known)
    requires Get(s, c.path) == c.before && Get(after, c.path) == c.after
    ensures ApplyOp(DeleteOf(c.before.value), s, known).Ok?
    ensures var mid := ApplyOp(DeleteOf(c.before.value), s, known).value.state;
            forall more: set<Text> {:trigger ApplyOp(CreateOf(c.after.value), mid, more)} :: known <= more ==>
              ApplyOp(CreateOf(c.after.value), mid, more).Ok?
              && ApplyOp(CreateOf(c.after.value), mid, more).value.state == Moved(s, after, c.path)
  {
    assert (s - {c.path})[c.path := c.after.value] == s[c.path := c.after.value];
  }

  predicate RunsTo(ops: seq<Op>, s: State, pool: set<Text>, t: State) {
    RunOps(ops, s, pool).Ok? && RunOps(ops, s, pool).value.state == t
  }

  lemma {:induction false} IntentRuns(before: State, after: State, changes: seq<Change>, parts: seq<seq<Op>>,
                                      pool: set<Text>, k: nat)
    requires IsDiff(before, after, changes) && Materializable(before, pool) && Materializable(after, pool)
    requires |parts| == |changes| && k <= |changes| && forall j :: 0 <= j < |changes| ==>
        Synthesized(changes[j], parts[j])
    ensures RunsTo(FlatOps(parts[..k]), before, pool, Mixed(before, after, PathsOf(changes[..k])))
  {
    if k == 0 {
      IntentStarts(before, after, changes, parts, pool);
    } else {
      IntentRuns(before, after, changes, parts, pool, k - 1);
      IntentRunsOn(before, after, changes, parts, pool, k - 1, k);
    }
  }

  lemma IntentStarts(before: State, after: State, changes: seq<Change>, parts: seq<seq<Op>>, pool: set<Text>)
    ensures RunsTo(FlatOps(parts[..0]), before, pool, Mixed(before, after, PathsOf(changes[..0])))
  {
    NoneDone(before, after);
    assert parts[..0] == [] && PathsOf(changes[..0]) == {};
  }

  lemma IntentRunsOn(before: State, after: State, changes: seq<Change>, parts: seq<seq<Op>>, pool: set<Text>, k: nat,
                     n: nat)
    requires IsDiff(before, after, changes) && Materializable(before, pool) && Materializable(after, pool)
    requires |parts| == |changes| && k < |changes| && n == k + 1 && Synthesized(changes[k], parts[k])
    requires RunsTo(FlatOps(parts[..k]), before, pool, Mixed(before, after, PathsOf(changes[..k])))
    ensures RunsTo(FlatOps(parts[..n]), before, pool, Mixed(before, after, PathsOf(changes[..n])))
  {
    FlatOpsLast(parts, n);
    IntentStep(before, after, changes, k, n, parts[k], FlatOps(parts[..k]), FlatOps(parts[..n]), pool);
  }

  lemma FlatOpsLast(parts: seq<seq<Op>>, k: nat)
    requires 0 < k <= |parts|
    ensures FlatOps(parts[..k]) == FlatOps(parts[..k - 1]) + parts[k - 1]
  {
    assert parts[..k][..k - 1] == parts[..k - 1];
  }

  lemma IntentStep(before: State, after: State, changes: seq<Change>, k: nat, n: nat, part: seq<Op>, ops: seq<Op>,
                   all: seq<Op>, pool: set<Text>)
    requires IsDiff(before, after, changes) && Materializable(before, pool) && Materializable(after, pool)
    requires k < |changes| && n == k + 1 && all == ops + part
    requires Synthesized(changes[k], part) && RunsTo(ops, before, pool, Mixed(before, after, PathsOf(changes[..k])))
    ensures RunsTo(all, before, pool, Mixed(before, after, PathsOf(changes[..n])))
  {
    MixedStep(before, after, changes, k);
    ChangesUsable(before, after, changes, pool, k);
    ChangeRuns(changes[k], part, ops, before, after, pool);
  }

  /** A synthesized intent replays: from the state it left, to exactly the state it names. */
  lemma SynthesizedIntentReplays(before: State, after: State, changes: seq<Change>, parts: seq<seq<Op>>,
                                 pool: set<Text>)
    requires IsDiff(before, after, changes) && Materializable(before, pool) && Materializable(after, pool)
    requires |parts| == |changes| && forall j :: 0 <= j < |changes| ==> Synthesized(changes[j], parts[j])
    ensures RunOps(FlatOps(parts), before, pool).Ok? && RunOps(FlatOps(parts), before, pool).value.state == after
  {
    IntentRuns(before, after, changes, parts, pool, |changes|);
    assert parts[..|parts|] == parts;
    assert changes[..|changes|] == changes;
    AllDone(before, after, changes);
  }

  ////////////////////////////////////////// the two forms agree ////////////////////////////////////////

  /** A change names two different records at one path, each fit to be created from the pool. */
  predicate IsMove(c: Change, pool: set<Text>) {
    Usable(c, pool) && c.before != c.after
  }

  lemma OneOpBlobs(c: Change, op: Op, s: State, known: set<Text>, pool: set<Text>)
    requires Synthesized(c, [op]) && Usable(c, pool) && Get(s, c.path) == c.before && ApplyOp(op, s, known).Ok?
    ensures ApplyOp(op, s, known).value.blobs <= pool
  {
    assert [op][0] == op;
  }

  lemma RunOpsSplit(ops: seq<Op>, op: Op, s: State, pool: set<Text>)
    requires RunOps(ops + [op], s, pool).Ok?
    ensures RunOps(ops, s, pool).Ok?
    ensures var before := RunOps(ops, s, pool).value;
            && ApplyOp(op, before.state, pool + before.blobs).Ok?
            && RunOps(ops + [op], s, pool).value.blobs
               == before.blobs + ApplyOp(op, before.state, pool + before.blobs).value.blobs
  {
    assert (ops + [op])[..|ops|] == ops;
  }

  lemma ChangeBlobs(c: Change, part: seq<Op>, ops: seq<Op>, s: State, more: set<Text>, pool: set<Text>)
    requires Synthesized(c, part) && Usable(c, pool) && RunOps(ops + part, s, more).Ok? && RunOps(ops, s, more).Ok?
    requires Get(RunOps(ops, s, more).value.state, c.path) == c.before && RunOps(ops, s, more).value.blobs <= pool
    ensures RunOps(ops + part, s, more).value.blobs <= pool
  {
    if |part| == 1 {
      assert part == [part[0]];
      OneMoreBlobs(c, part[0], ops, s, more, pool);
    } else {
      assert ops + part == (ops + [part[0]]) + [part[1]];
      NoMoreBlobs(ops + [part[0]], part[1], s, more);
      NoMoreBlobs(ops, part[0], s, more);
    }
  }

  lemma OneMoreBlobs(c: Change, op: Op, ops: seq<Op>, s: State, more: set<Text>, pool: set<Text>)
    requires Synthesized(c, [op]) && Usable(c, pool) && RunOps(ops + [op], s, more).Ok? && RunOps(ops, s, more).Ok?
    requires Get(RunOps(ops, s, more).value.state, c.path) == c.before && RunOps(ops, s, more).value.blobs <= pool
    ensures RunOps(ops + [op], s, more).value.blobs <= pool
  {
    var before := RunOps(ops, s, more).value;
    RunOpsSplit(ops, op, s, more);
    OneOpBlobs(c, op, before.state, more + before.blobs, pool);
  }

  lemma NoMoreBlobs(ops: seq<Op>, op: Op, s: State, more: set<Text>)
    requires op.Delete? || (op.Create? && op.inline.None?)
    requires RunOps(ops + [op], s, more).Ok?
    ensures RunOps(ops, s, more).Ok? && RunOps(ops + [op], s, more).value.blobs == RunOps(ops, s, more).value.blobs
  {
    RunOpsSplit(ops, op, s, more);
  }

  lemma EntryIsBefore(u: State, c: Change, pool: set<Text>)
    requires IsMove(c, pool) && Keyed(u) && Adjudicates(u, Entry(c.before, c.after))
    ensures Get(u, c.path) == c.before && Keyed(Step(u, Entry(c.before, c.after)))
    ensures Get(Step(u, Entry(c.before, c.after)), c.path) == c.after
    ensures Moved(u, Step(u, Entry(c.before, c.after)), c.path) == Step(u, Entry(c.before, c.after))
  {
  }

  /** Wherever the delta of some changes replays, their synthesized ops run to the same state. */
  lemma {:induction false} OpsFollow(changes: seq<Change>, parts: seq<seq<Op>>, pool: set<Text>, t: State,
                                     more: set<Text>, k: nat)
    requires |parts| == |changes| && k <= |changes| && Keyed(t) && pool <= more
    requires forall j :: 0 <= j < |changes| ==> Synthesized(changes[j], parts[j]) && IsMove(changes[j], pool)
    requires Replay(t, RealizedOf(changes[..k])).Some?
    ensures Keyed(Replay(t, RealizedOf(changes[..k])).value)
    ensures RunsTo(FlatOps(parts[..k]), t, more, Replay(t, RealizedOf(changes[..k])).value)
    ensures RunOps(FlatOps(parts[..k]), t, more).value.blobs <= pool
  {
    if k > 0 {
      var all, c := RealizedOf(changes[..k]), changes[k - 1];
      assert all[..k - 1] == RealizedOf(changes[..k - 1]) && all[k - 1] == Entry(c.before, c.after);
      ReplayLast(t, RealizedOf(changes[..k - 1]), all);
      OpsFollow(changes, parts, pool, t, more, k - 1);
      FlatOpsLast(parts, k);
      PartFollows(c, parts[k - 1], FlatOps(parts[..k - 1]), pool, t, more,
                  Replay(t, RealizedOf(changes[..k - 1])).value);
    }
  }

  lemma PartFollows(c: Change, part: seq<Op>, ops: seq<Op>, pool: set<Text>, t: State, more: set<Text>, u: State)
    requires Synthesized(c, part) && IsMove(c, pool) && pool <= more && Keyed(u)
        && Adjudicates(u, Entry(c.before, c.after))
    requires RunsTo(ops, t, more, u) && RunOps(ops, t, more).value.blobs <= pool
    ensures Keyed(Step(u, Entry(c.before, c.after))) && RunsTo(ops + part, t, more, Step(u, Entry(c.before, c.after)))
    ensures RunOps(ops + part, t, more).value.blobs <= pool
  {
    EntryIsBefore(u, c, pool);
    ChangeRuns(c, part, ops, t, Step(u, Entry(c.before, c.after)), more);
    ChangeBlobs(c, part, ops, t, more, pool);
  }

  /** A commit's line re-enacts: its intent is another form of the delta it records. */
  lemma CommitReenacts(changes: seq<Change>, parts: seq<seq<Op>>, pool: set<Text>)
    requires |parts| == |changes|
    requires forall j :: 0 <= j < |changes| ==> Synthesized(changes[j], parts[j]) && IsMove(changes[j], pool)
    ensures Reenacts(FlatOps(parts), RealizedOf(changes), pool)
  {
    assert parts[..|parts|] == parts && changes[..|changes|] == changes;
    forall t: State, more: set<Text> ensures ReenactsAt(FlatOps(parts), RealizedOf(changes), pool, t, more) {
      if Keyed(t) && pool <= more && Replay(t, RealizedOf(changes)).Some? {
        OpsFollow(changes, parts, pool, t, more, |changes|);
      }
    }
  }

  /////////////////////////////////////////////// commit ////////////////////////////////////////////////

  function TrimSlashes(f: string): string {
    if f != [] && f[|f| - 1] == '/' then TrimSlashes(f[..|f| - 1]) else f
  }

  /** The path is the filter's, or lies under it. */
  predicate Under(p: Path, filter: string) {
    p == TrimSlashes(filter) || TrimSlashes(filter) + "/" <= p
  }

  predicate Chosen(p: Path, filters: Option<seq<string>>) {
    filters.Some? ==> exists k :: 0 <= k < |filters.value| && Under(p, filters.value[k])
  }

  function Kept(changes: seq<Change>, filters: Option<seq<string>>): seq<Change> {
    if changes == [] then []
    else Kept(changes[..|changes| - 1], filters)
         + if Chosen(changes[|changes| - 1].path, filters) then [changes[|changes| - 1]] else []
  }

  /** The paths a commit moves. */
  function Committed(before: State, after: State, filters: Option<seq<string>>): set<Path> {
    set p | p in before.Keys + after.Keys && Get(before, p) != Get(after, p) && Chosen(p, filters)
  }

  lemma KeptMembers(changes: seq<Change>, filters: Option<seq<string>>)
    ensures forall c :: c in Kept(changes, filters) <==> c in changes && Chosen(c.path, filters)
    ensures |Kept(changes, filters)| <= |changes|
  {
    if changes != [] {
      KeptMembers(changes[..|changes| - 1], filters);
      assert changes == changes[..|changes| - 1] + [changes[|changes| - 1]];
    }
  }

  lemma KeptDistinct(changes: seq<Change>, filters: Option<seq<string>>)
    requires forall i, j :: 0 <= i < j < |changes| ==> changes[i].path != changes[j].path
    ensures forall i, j :: 0 <= i < j < |Kept(changes, filters)| ==>
        Kept(changes, filters)[i].path != Kept(changes, filters)[j].path
  {
    if changes != [] {
      var n := |changes| - 1;
      KeptDistinct(changes[..n], filters);
      KeptMembers(changes[..n], filters);
      var kept := Kept(changes[..n], filters);
      forall i | 0 <= i < |kept| ensures kept[i].path != changes[n].path {
        assert kept[i] in kept;
        var k :| 0 <= k < n && changes[k] == kept[i];
      }
    }
  }

  /** The changes a commit keeps are a whole diff, to the state with only the chosen paths moved. */
  lemma KeptIsDiff(before: State, after: State, changes: seq<Change>, filters: Option<seq<string>>)
    requires IsDiff(before, after, changes)
    ensures IsDiff(before, Mixed(before, after, Committed(before, after, filters)), Kept(changes, filters))
  {
    var kept, done := Kept(changes, filters), Committed(before, after, filters);
    var mixed := Mixed(before, after, done);
    KeptMembers(changes, filters);
    KeptDistinct(changes, filters);
    forall k | 0 <= k < |kept| ensures IsChange(before, mixed, kept[k]) && kept[k].path in before.Keys + mixed.Keys {
      assert kept[k] in kept;
      var i :| 0 <= i < |changes| && changes[i] == kept[k];
      assert IsChange(before, after, changes[i]);
      MixedAt(before, after, done, kept[k].path);
    }
    forall p | p in before.Keys + mixed.Keys && Get(before, p) != Get(mixed, p) ensures Listed(kept, p) {
      MixedAt(before, after, done, p);
      var i :| 0 <= i < |changes| && changes[i].path == p;
      assert changes[i] in kept;
    }
  }

  lemma AllCommitted(before: State, after: State)
    ensures Mixed(before, after, Committed(before, after, None)) == after
  {
    forall p ensures Get(Mixed(before, after, Committed(before, after, None)), p) == Get(after, p) {
      MixedAt(before, after, Committed(before, after, None), p);
    }
    GetFixes(Mixed(before, after, Committed(before, after, None)), after);
  }

  lemma MixedKeyed(before: State, after: State, done: set<Path>)
    requires Keyed(before) && Keyed(after)
    ensures Keyed(Mixed(before, after, done))
  {
  }

  lemma DiffIsMoves(before: State, after: State, changes: seq<Change>, pool: set<Text>)
    requires IsDiff(before, after, changes) && Materializable(before, pool) && Materializable(after, pool)
    ensures forall k :: 0 <= k < |changes| ==> IsMove(changes[k], pool)
    ensures AddsPooled(RealizedOf(changes), pool)
  {
    forall k | 0 <= k < |changes| ensures IsMove(changes[k], pool) { ChangesUsable(before, after, changes, pool, k); }
  }

  lemma MixedMaterializable(before: State, after: State, done: set<Path>, pool: set<Text>)
    requires Materializable(before, pool) && Materializable(after, pool)
    ensures Materializable(Mixed(before, after, done), pool)
  {
  }

  lemma NothingKept(before: State, after: State, changes: seq<Change>)
    requires IsDiff(before, after, changes)
    ensures changes == [] <==> before == after
  {
    if changes == [] {
      forall p ensures Get(before, p) == Get(after, p) {}
      GetFixes(before, after);
    } else {
      assert IsChange(before, after, changes[0]);
    }
  }

  /** A note any delta may carry. */
  predicate Plain(note: Note) {
    note.fuse.None? && note.provenance.Agent?
  }

  /** The kept changes, and where they lead. */
  lemma KeptReplays(before: State, after: State, changes: seq<Change>, filters: Option<seq<string>>)
    requires IsDiff(before, after, changes) && Keyed(before) && Keyed(after)
    ensures var mixed := Mixed(before, after, Committed(before, after, filters));
            && IsDiff(before, mixed, Kept(changes, filters))
            && Replay(before, RealizedOf(Kept(changes, filters))) == Some(mixed)
            && (Kept(changes, filters) == [] <==> Committed(before, after, filters) == {})
  {
    var done := Committed(before, after, filters);
    var mixed := Mixed(before, after, done);
    KeptIsDiff(before, after, changes, filters);
    MixedKeyed(before, after, done);
    CommitReplays(before, mixed, Kept(changes, filters));
    NothingKept(before, mixed, Kept(changes, filters));
    if done == {} { NoneDone(before, after); }
    if p :| p in done { MixedAt(before, after, done, p); }
  }

  lemma KeptUsable(before: State, after: State, kept: seq<Change>, pool: set<Text>)
    requires IsDiff(before, after, kept) && Materializable(before, pool) && Materializable(after, pool)
    ensures AddsPooled(RealizedOf(kept), pool)
    ensures forall c :: c in kept ==> (c.before.Some? || c.after.Some?)
                                      && (c.before.Some? ==> c.before.value.blob in pool)
                                      && (c.after.Some? ==> c.after.value.blob in pool)
    ensures forall parts: seq<seq<Op>> ::
              |parts| == |kept| && (forall j :: 0 <= j < |kept| ==> Synthesized(kept[j], parts[j])) ==>
                Reenacts(FlatOps(parts), RealizedOf(kept), pool)
  {
    DiffIsMoves(before, after, kept, pool);
    forall parts: seq<seq<Op>> | |parts| == |kept| && forall j :: 0 <= j < |kept| ==> Synthesized(kept[j], parts[j])
      ensures Reenacts(FlatOps(parts), RealizedOf(kept), pool)
    {
      CommitReenacts(kept, parts, pool);
    }
  }

  /** A commit's line before it is sealed: its delta leads to the chosen paths' working records, and
      where all of it is fit to recreate, its intent is another form of that delta. */
  ghost predicate Drafted(before: State, working: State, filters: Option<seq<string>>, pool: set<Text>, intent: seq<Op>,
                          realized: seq<Entry>)
  {
    && Committed(before, working, filters) != {}
    && Replay(before, realized) == Some(Mixed(before, working, Committed(before, working, filters)))
    && (Materializable(before, pool) && Materializable(working, pool) ==>
        AddsPooled(realized, pool) && Reenacts(intent, realized, pool))
  }

  method DraftCommit(before: State, working: State, filters: Option<seq<string>>, pool: set<Text>)
    returns (r: Result<(seq<Op>, seq<Entry>), Error>)
    requires Keyed(before) && Keyed(working)
    ensures r.Ok? ==> Drafted(before, working, filters, pool, r.value.0, r.value.1)
    ensures Materializable(before, pool) && Materializable(working, pool) ==>
        (r.Ok? <==> Committed(before, working, filters) != {})
  {
    var changes := DiffManifests(before, working);
    var kept := Kept(changes, filters);
    KeptReplays(before, working, changes, filters);
    if kept == [] { return Err(Precondition); }
    if Materializable(before, pool) && Materializable(working, pool) {
      MixedMaterializable(before, working, Committed(before, working, filters), pool);
      KeptUsable(before, Mixed(before, working, Committed(before, working, filters)), kept, pool);
    }
    var intent;
    ghost var parts;
    intent, parts := SynthesizeIntent(kept, pool);
    if intent.Err? { return Err(intent.error); }
    r := Ok((intent.value, RealizedOf(kept)));
  }

  lemma PlainIsAdmissible(intent: seq<Op>, realized: seq<Entry>, note: Note)
    requires Plain(note)
    ensures Admissible(intent, realized, note)
  {
  }

  /** Land a delta whose target is known. */
  method LandDelta(repo: Repository, fork: string, intent: seq<Op>, realized: seq<Entry>, ghost target: State,
                   note: Note, clock: nat)
    returns (r: Result<Line, Error>)
    requires repo.Valid() && fork in repo.forks && Replay(repo.Head(fork), realized) == Some(target)
    modifies repo`forks
    ensures repo.Valid()
    ensures r.Ok? <==> AddsPooled(realized, repo.pool) && Admissible(intent, realized, note)
    ensures r.Err? ==> repo.forks == old(repo.forks)
    ensures r.Ok? ==>
        && repo.forks == Grown(old(repo.forks), fork, [r.value])
        && repo.Head(fork) == target && r.value.intent == intent
    ensures r.Ok? && old(repo.Reenacting()) ==> (repo.Reenacting() <==> Reenacts(intent, realized, repo.pool))
  {
    r := repo.ApplyRealized(fork, intent, realized, note, clock);
  }

  /** Land a delta beside another form of itself. */
  method LandDraft(repo: Repository, fork: string, intent: seq<Op>, realized: seq<Entry>, ghost target: State,
                   note: Note, clock: nat)
    returns (r: Result<Line, Error>)
    requires repo.Valid() && fork in repo.forks && Replay(repo.Head(fork), realized) == Some(target)
    modifies repo`forks
    ensures repo.Valid()
    ensures r.Err? ==> repo.forks == old(repo.forks)
    ensures r.Ok? ==> repo.forks == Grown(old(repo.forks), fork, [r.value]) && repo.Head(fork) == target
    ensures AddsPooled(realized, repo.pool) && Reenacts(intent, realized, repo.pool) && Plain(note) ==>
              r.Ok? && (old(repo.Reenacting()) ==> repo.Reenacting())
  {
    if Plain(note) { PlainIsAdmissible(intent, realized, note); }
    r := LandDelta(repo, fork, intent, realized, target, note, clock);
  }

  /** Commit what the working tree changed: the head moves to the working manifest (on the paths the
      filters choose), and the line's intent is another form of its delta. */
  method CommitTree(repo: Repository, fork: string, working: State, filters: Option<seq<string>>, note: Note,
                    clock: nat)
    returns (r: Result<Line, Error>)
    requires repo.Valid() && Keyed(working)
    modifies repo`forks
    ensures repo.Valid()
    ensures r.Err? ==> repo.forks == old(repo.forks)
    ensures r.Ok? ==>
              && fork in old(repo.forks) && repo.forks == Grown(old(repo.forks), fork, [r.value])
              && repo.Head(fork) == Mixed(old(repo.Head(fork)), working,
                                          Committed(old(repo.Head(fork)), working, filters))
    ensures r.Ok? && filters.None? ==> repo.Head(fork) == working
    ensures fork in old(repo.forks) && Plain(note) &&
            Materializable(old(repo.Head(fork)), repo.pool) && Materializable(working, repo.pool) ==>
              && (r.Ok? <==> Committed(old(repo.Head(fork)), working, filters) != {})
              && (old(repo.Reenacting()) ==> repo.Reenacting())
  {
    var loaded := repo.CurrentState(fork);
    if loaded.Err? { return Err(loaded.error); }
    AllCommitted(loaded.value.manifest, working);
    r := CommitFrom(repo, fork, loaded.value.manifest, working, filters, note, clock);
  }

  method CommitFrom(repo: Repository, fork: string, before: State, working: State, filters: Option<seq<string>>,
                    note: Note, clock: nat)
    returns (r: Result<Line, Error>)
    requires repo.Valid() && fork in repo.forks && before == repo.Head(fork) && Keyed(before) && Keyed(working)
    modifies repo`forks
    ensures repo.Valid()
    ensures r.Err? ==> repo.forks == old(repo.forks)
    ensures r.Ok? ==> repo.forks == Grown(old(repo.forks), fork, [r.value])
                      && repo.Head(fork) == Mixed(before, working, Committed(before, working, filters))
    ensures Materializable(before, repo.pool) && Materializable(working, repo.pool) && Plain(note) ==>
              (r.Ok? <==> Committed(before, working, filters) != {}) && (old(repo.Reenacting()) ==> repo.Reenacting())
  {
    var draft := DraftCommit(before, working, filters, repo.pool);
    if draft.Err? { return Err(draft.error); }
    ghost var target := Mixed(before, working, Committed(before, working, filters));
    r := LandDraft(repo, fork, draft.value.0, draft.value.1, target, note, clock);
  }

  /** A delta that leaves a state other than it found does not move nothing. */
  lemma Moves(before: State, realized: seq<Entry>, after: State)
    requires Keyed(before) && Replay(before, realized) == Some(after) && before != after
    ensures !MovesNothing(realized)
  {
  }

  /** Every blob the target holds where it differs from the state left is pooled. */
  ghost predicate TargetPooled(before: State, target: State, pool: set<Text>) {
    forall p :: p in target && Get(before, p) != Get(target, p) ==> target[p].blob in pool
  }

  lemma DiffPooled(before: State, after: State, changes: seq<Change>, pool: set<Text>)
    requires IsDiff(before, after, changes)
    ensures AddsPooled(RealizedOf(changes), pool) <==> TargetPooled(before, after, pool)
  {
    var realized := RealizedOf(changes);
    if AddsPooled(realized, pool) {
      forall p | p in after && Get(before, p) != Get(after, p) ensures after[p].blob in pool {
        assert Listed(changes, p);
        var k :| 0 <= k < |changes| && changes[k].path == p;
        assert IsChange(before, after, changes[k]) && realized[k].add == Some(after[p]);
      }
    }
    if TargetPooled(before, after, pool) {
      forall k | 0 <= k < |realized| && realized[k].add.Some? ensures realized[k].add.value.blob in pool {
        assert IsChange(before, after, changes[k]);
        assert changes[k].path in after;
      }
    }
  }

  /** What moving a manifest by its difference from another does. */
  lemma MoveLands(before: State, target: State, changes: seq<Change>, note: Note, pool: set<Text>)
    requires IsDiff(before, target, changes) && Keyed(before) && Keyed(target) && before != target
    ensures Replay(before, RealizedOf(changes)) == Some(target)
    ensures !Reenacts([], RealizedOf(changes), pool)
    ensures Plain(note) ==> (AddsPooled(RealizedOf(changes), pool) && Admissible([], RealizedOf(changes), note)
                             <==> TargetPooled(before, target, pool))
  {
    CommitReplays(before, target, changes);
    Moves(before, RealizedOf(changes), target);
    SilentReenacts(RealizedOf(changes), pool);
    DiffPooled(before, target, changes, pool);
    if Plain(note) { PlainIsAdmissible([], RealizedOf(changes), note); }
  }

  /** Repoint a fork at a state: the head moves there by one line without an intent, so from then on
      the repository no longer re-enacts.  It is refused exactly where there is no such fork, the
      fork is there already, or a blob the move adds is not pooled. */
  method Repoint(repo: Repository, fork: string, target: State, note: Note, clock: nat) returns (r: Result<Line, Error>)
    requires repo.Valid() && Keyed(target)
    modifies repo`forks
    ensures repo.Valid()
    ensures r.Err? ==> repo.forks == old(repo.forks)
    ensures r.Ok? ==>
              && fork in old(repo.forks) && repo.forks == Grown(old(repo.forks), fork, [r.value])
              && repo.Head(fork) == target && old(repo.Head(fork)) != target && r.value.intent == []
    ensures Plain(note) ==>
              (r.Ok? <==> && fork in old(repo.forks) && old(repo.Head(fork)) != target
                          && TargetPooled(old(repo.Head(fork)), target, repo.pool))
    ensures r.Ok? && old(repo.Reenacting()) ==> !repo.Reenacting()
  {
    var loaded := repo.CurrentState(fork);
    if loaded.Err? { return Err(loaded.error); }
    r := RepointFrom(repo, fork, loaded.value.manifest, target, note, clock);
  }

  /** Land a delta that no empty intent re-enacts. */
  method LandMove(repo: Repository, fork: string, realized: seq<Entry>, ghost target: State, note: Note, clock: nat)
    returns (r: Result<Line, Error>)
    requires repo.Valid() && fork in repo.forks && Replay(repo.Head(fork), realized) == Some(target)
    requires !Reenacts([], realized, repo.pool)
    modifies repo`forks
    ensures repo.Valid()
    ensures r.Ok? <==> AddsPooled(realized, repo.pool) && Admissible([], realized, note)
    ensures r.Err? ==> repo.forks == old(repo.forks)
    ensures r.Ok? ==>
        && repo.forks == Grown(old(repo.forks), fork, [r.value])
        && repo.Head(fork) == target && r.value.intent == []
    ensures r.Ok? && old(repo.Reenacting()) ==> !repo.Reenacting()
  {
    r := LandDelta(repo, fork, [], realized, target, note, clock);
  }

  method RepointFrom(repo: Repository, fork: string, before: State, target: State, note: Note, clock: nat)
    returns (r: Result<Line, Error>)
    requires repo.Valid() && fork in repo.forks && before == repo.Head(fork) && Keyed(before) && Keyed(target)
    modifies repo`forks
    ensures repo.Valid()
    ensures r.Err? ==> repo.forks == old(repo.forks)
    ensures r.Ok? ==> repo.forks == Grown(old(repo.forks), fork, [r.value])
                      && repo.Head(fork) == target && before != target && r.value.intent == []
    ensures Plain(note) ==> (r.Ok? <==> before != target && TargetPooled(before, target, repo.pool))
    ensures r.Ok? && old(repo.Reenacting()) ==> !repo.Reenacting()
  {
    var changes := DiffManifests(before, target);
    NothingKept(before, target, changes);
    if changes == [] { return Err(Invalid); }
    MoveLands(before, target, changes, note, repo.pool);
    r := LandMove(repo, fork, RealizedOf(changes), target, note, clock);
  }
}
