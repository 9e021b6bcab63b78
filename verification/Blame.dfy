/** Replays that must agree with application (src/segment.rs `construct_blob`, src/blame.rs):
    one path's bytes rebuilt from ops alone, and who wrote each of them. */
module Blame {
  import opened Wrappers
  import opened Spans
  import opened Patch
  import opened Logs
  import Strata
  import opened Segments
  import opened Repo
  import opened Reenact
  import opened Unions
  import opened UnionLaws
  import opened PlanPush
  import opened Lines

  ///////////////////////////////////////////// constructs //////////////////////////////////////////////

  /** Every create of the path carries its content inline. */
  predicate InlineAt(ops: seq<Op>, p: Path) {
    forall k :: 0 <= k < |ops| && ops[k].Create? && ops[k].path == p ==> ops[k].inline.Some? && ops[k].blob.None?
  }

  lemma OpReplays(op: Op, s: State, known: set<Text>, p: Path, content: Text)
    requires Keyed(s) && ApplyOp(op, s, known).Ok? && InlineAt([op], p)
    requires p in s ==> content == s[p].blob
    ensures ReplayOp(op, p, content).Ok?
    ensures var t := ApplyOp(op, s, known).value.state;
            p in t ==> ReplayOp(op, p, content) == Ok(t[p].blob)
  {
    assert op.Create? && op.path == p ==> [op][0].inline.Some? && [op][0].blob.None?;
  }

  /** Replaying a line's ops for one path, over the blob it held before the line, gives the
      blob the application left there. */
  lemma {:induction false} PathReplays(ops: seq<Op>, s: State, pool: set<Text>, p: Path)
    requires Keyed(s) && RunOps(ops, s, pool).Ok? && InlineAt(ops, p)
    ensures Keyed(RunOps(ops, s, pool).value.state)
    ensures ReplayPath(ops, p, BlobAt(s, p)).Ok?
    ensures var t := RunOps(ops, s, pool).value.state;
            p in t ==> ReplayPath(ops, p, BlobAt(s, p)) == Ok(t[p].blob)
  {
    if ops != [] {
      var n := |ops| - 1;
      PathReplays(ops[..n], s, pool, p);
      var before := RunOps(ops[..n], s, pool).value;
      assert InlineAt([ops[n]], p) by {
        assert [ops[n]][0] == ops[n];
      }
      OpReplays(ops[n], before.state, pool + before.blobs, p, ReplayPath(ops[..n], p, BlobAt(s, p)).value);
    }
  }

  predicate AddsAt(e: Entry, p: Path, blob: Text) {
    e.add.Some? && e.add.value.path == p && e.add.value.blob == blob
  }

  /** No other path in the line adds the blob. */
  predicate OnlyAt(realized: seq<Entry>, p: Path, blob: Text) {
    forall k :: 0 <= k < |realized| && realized[k].add.Some? && realized[k].add.value.blob == blob ==>
      realized[k].add.value.path == p
  }

  lemma OnlyTarget(realized: seq<Entry>, p: Path, blob: Text)
    requires OnlyAt(realized, p, blob) && exists k :: 0 <= k < |realized| && AddsAt(realized[k], p, blob)
    ensures TargetPath(realized, blob) == Some(p)
  {
    var n := |realized| - 1;
    if !AddsAt(realized[n], p, blob) {
      var k :| 0 <= k < |realized| && AddsAt(realized[k], p, blob);
      assert AddsAt(realized[..n][k], p, blob);
      OnlyTarget(realized[..n], p, blob);
    }
  }

  /** The last op of a run: one more entry, adjudicated on the state before it. */
  lemma LastEntry(ops: seq<Op>, s: State, pool: set<Text>) returns (before: Realization, e: Entry)
    requires Keyed(s) && ops != [] && RunOps(ops, s, pool).Ok?
    ensures RunOps(ops[..|ops| - 1], s, pool) == Ok(before) && Keyed(before.state)
    ensures var run := RunOps(ops, s, pool).value;
            && run.realized == before.realized + [e] && Adjudicates(before.state, e)
               && run.state == Step(before.state, e)
            && WritePaths(run.realized) == WritePaths(before.realized) + EntryPaths(e)
  {
    var n := |ops| - 1;
    before := RunOps(ops[..n], s, pool).value;
    Strata.IntentRealizes(ops[..n], s, pool);
    var run := RunOps(ops, s, pool).value;
    e := run.realized[|before.realized|];
    Strata.OpRealizes(ops[n], before.state, pool + before.blobs);
    assert run.realized[..|before.realized|] == before.realized;
  }

  lemma StepAt(s: State, e: Entry, p: Path)
    requires Adjudicates(s, e)
    ensures p !in EntryPaths(e) ==> SameAt(s, Step(s, e), p)
    ensures p in EntryPaths(e) && p in Step(s, e) ==> AddsAt(e, p, Step(s, e)[p].blob)
    ensures p in EntryPaths(e) && Keyed(s) ==> BaseFor([e], p) == BlobAt(s, p)
  {
    assert [e][1..] == [];
  }

  /** A path the delta touches and leaves present was last given its blob by some entry; one it
      does not touch keeps its record. */
  lemma {:induction false} LastAdd(ops: seq<Op>, s: State, pool: set<Text>, p: Path)
    requires Keyed(s) && RunOps(ops, s, pool).Ok?
    ensures var run := RunOps(ops, s, pool).value;
            && (p !in WritePaths(run.realized) ==> SameAt(s, run.state, p))
            && (p in WritePaths(run.realized) && p in run.state ==> Added(run.realized, p, run.state[p].blob))
  {
    if ops != [] {
      var before, e := LastEntry(ops, s, pool);
      LastAdd(ops[..|ops| - 1], s, pool, p);
      StepAt(before.state, e, p);
      if p in before.state { AddedMore(before.realized, e, p, before.state[p].blob); }
      if p in Step(before.state, e) { AddedMore(before.realized, e, p, Step(before.state, e)[p].blob); }
    }
  }

  predicate Added(realized: seq<Entry>, p: Path, blob: Text) {
    exists k :: 0 <= k < |realized| && AddsAt(realized[k], p, blob)
  }

  lemma AddedMore(realized: seq<Entry>, e: Entry, p: Path, blob: Text)
    ensures Added(realized, p, blob) || AddsAt(e, p, blob) ==> Added(realized + [e], p, blob)
  {
    if k :| 0 <= k < |realized| && AddsAt(realized[k], p, blob) { assert AddsAt((realized + [e])[k], p, blob); }
    if AddsAt(e, p, blob) { assert AddsAt((realized + [e])[|realized|], p, blob); }
  }

  /** What the planner takes for a candidate's base is the blob the path held before the line. */
  lemma BaseForAppend(a: seq<Entry>, e: Entry, p: Path)
    ensures p in WritePaths(a) ==> BaseFor(a + [e], p) == BaseFor(a, p)
    ensures p !in WritePaths(a) ==> BaseFor(a + [e], p) == BaseFor([e], p)
  {
    if a == [] {
      assert a + [e] == [e];
    } else {
      WritesHead(a, p);
      assert (a + [e])[1..] == a[1..] + [e];
      BaseForAppend(a[1..], e, p);
    }
  }

  lemma WritesHead(a: seq<Entry>, p: Path)
    requires a != []
    ensures p in WritePaths(a) <==> p in EntryPaths(a[0]) || p in WritePaths(a[1..])
  {
    if |a| > 1 {
      WritesHead(a[..|a| - 1], p);
      assert a[..|a| - 1][1..] == a[1..][..|a| - 2];
    } else {
      assert a[..0] == [] && a[1..] == [];
    }
  }

  lemma {:induction false} BaseIsBefore(ops: seq<Op>, s: State, pool: set<Text>, p: Path)
    requires Keyed(s) && RunOps(ops, s, pool).Ok?
    ensures p in WritePaths(RunOps(ops, s, pool).value.realized) ==>
        BaseFor(RunOps(ops, s, pool).value.realized, p) == BlobAt(s, p)
  {
    if ops != [] {
      var before, e := LastEntry(ops, s, pool);
      BaseIsBefore(ops[..|ops| - 1], s, pool, p);
      LastAdd(ops[..|ops| - 1], s, pool, p);
      BaseForAppend(before.realized, e, p);
      StepAt(before.state, e, p);
    }
  }

  /** A construct candidate replays: for a line an application realized, a path it creates only
      inline, and the blob it leaves there, the base the planner takes and the line's ops
      reproduce the blob, provided no other path in the line adds that same blob. */
  lemma ConstructAgrees(line: Line, s: State, pool: set<Text>, p: Path)
    requires Keyed(s) && RunOps(line.intent, s, pool).Ok?
    requires var run := RunOps(line.intent, s, pool).value;
             && line.realized == run.realized && p in run.state && p in WritePaths(run.realized)
             && InlineAt(line.intent, p) && OnlyAt(run.realized, p, run.state[p].blob)
    ensures var blob := RunOps(line.intent, s, pool).value.state[p].blob;
            ConstructBlob(BaseFor(line.realized, p), line, blob) == Ok(blob)
  {
    var run := RunOps(line.intent, s, pool).value;
    LastAdd(line.intent, s, pool, p);
    OnlyTarget(run.realized, p, run.state[p].blob);
    BaseIsBefore(line.intent, s, pool, p);
    PathReplays(line.intent, s, pool, p);
  }

  //////////////////////////////////////////////// blame ////////////////////////////////////////////////

  /** One path's bytes as replayed so far, and for each the history line that wrote it. */
  datatype Owned = Owned(content: Text, owners: seq<nat>, present: bool)

  const NOBODY := Owned([], [], false)

  function Repeated(idx: nat, n: nat): (r: seq<nat>)
    ensures |r| == n && forall k :: 0 <= k < n ==> r[k] == idx
  {
    seq(n, _ => idx)
  }

  function BlameOp(b: Owned, op: Op, idx: nat, path: Path, pool: set<Text>): Result<Owned, Error>
    requires |b.owners| == |b.content|
  {
    if op.path != path then Ok(b)
    else match op
      case Create(_, _, blob, inline) =>
        if blob.Some? then
          if blob.value in pool then Ok(Owned(blob.value, Repeated(idx, |blob.value|), true)) else Err(Io)
        else if inline.Some? then Ok(Owned(inline.value, Repeated(idx, |inline.value|), true))
        else Err(Corrupt)
      case Edit(_, oldStr, newStr) =>
        (match FindUnique(b.content, oldStr)
         case Err(_) => Err(Corrupt)
         case Ok(at) =>
           Ok(Owned(Splice(b.content, at, |oldStr|, newStr),
                    b.owners[..at] + Repeated(idx, |newStr|) + b.owners[at + |oldStr|..], b.present)))
      case Delete(_, _) => Ok(Owned([], [], false))
      case Chmod(_, _, _) => Ok(b)
  }

  /** One line's ops, all stamped with the line. */
  function BlameOps(b: Owned, ops: seq<Op>, idx: nat, path: Path, pool: set<Text>): (r: Result<Owned, Error>)
    requires |b.owners| == |b.content|
    ensures r.Ok? ==> |r.value.owners| == |r.value.content|
  {
    if ops == [] then Ok(b)
    else match BlameOps(b, ops[..|ops| - 1], idx, path, pool)
      case Err(e) => Err(e)
      case Ok(now) => BlameOp(now, ops[|ops| - 1], idx, path, pool)
  }

  function BlameLines(history: seq<Line>, path: Path, pool: set<Text>): (r: Result<Owned, Error>)
    ensures r.Ok? ==> |r.value.owners| == |r.value.content|
  {
    if history == [] then Ok(NOBODY)
    else match BlameLines(history[..|history| - 1], path, pool)
      case Err(e) => Err(e)
      case Ok(now) => BlameOps(now, history[|history| - 1].intent, |history| - 1, path, pool)
  }

  ///////////////////////////////////////// blame agrees ////////////////////////////////////////////////

  /** A history of applications from the empty state: each line's intent ran, in its pool, on
      the state the lines before it left. */
  ghost predicate Applied(history: seq<Line>, states: seq<State>, pools: seq<set<Text>>, pool: set<Text>) {
    && |states| == |history| + 1 && |pools| == |history| && states[0] == map[]
    && forall k :: 0 <= k < |history| ==> AppliedAt(history, states, pools, pool, k)
  }

  ghost predicate AppliedAt(history: seq<Line>, states: seq<State>, pools: seq<set<Text>>, pool: set<Text>, k: nat)
    requires |states| == |history| + 1 && |pools| == |history| && k < |history|
  {
    var run := RunOps(history[k].intent, states[k], pools[k]);
    run.Ok? && run.value.state == states[k + 1] && pools[k] + run.value.blobs <= pool
  }

  /** The blame of a path shows the manifest's blob there, one owner per byte. */
  predicate Shows(b: Owned, s: State, path: Path) {
    && |b.owners| == |b.content| && (b.present <==> path in s)
    && b.content == if path in s then s[path].blob else []
  }

  lemma OpShown(b: Owned, op: Op, s: State, known: set<Text>, idx: nat, path: Path, pool: set<Text>)
    requires Shows(b, s, path) && Keyed(s) && ApplyOp(op, s, known).Ok? && known <= pool
    ensures BlameOp(b, op, idx, path, pool).Ok?
    ensures Shows(BlameOp(b, op, idx, path, pool).value, ApplyOp(op, s, known).value.state, path)
  {
  }

  lemma {:induction false} OpsShown(b: Owned, ops: seq<Op>, s: State, known: set<Text>, idx: nat, path: Path,
                                    pool: set<Text>)
    requires Shows(b, s, path) && Keyed(s) && RunOps(ops, s, known).Ok?
        && known + RunOps(ops, s, known).value.blobs <= pool
    ensures Keyed(RunOps(ops, s, known).value.state)
    ensures BlameOps(b, ops, idx, path, pool).Ok?
    ensures Shows(BlameOps(b, ops, idx, path, pool).value, RunOps(ops, s, known).value.state, path)
  {
    if ops != [] {
      var n := |ops| - 1;
      OpsShown(b, ops[..n], s, known, idx, path, pool);
      var before := RunOps(ops[..n], s, known).value;
      OpShown(BlameOps(b, ops[..n], idx, path, pool).value, ops[n], before.state, known + before.blobs, idx, path,
              pool);
      Strata.OpRealizes(ops[n], before.state, known + before.blobs);
    }
  }

  /** Blame replays what application applied: it never fails on a history of applications, and
      its bytes are the manifest's blob at every state, with one owner for each. */
  lemma {:induction false} BlameAgrees(history: seq<Line>, states: seq<State>, pools: seq<set<Text>>, pool: set<Text>,
                                       path: Path, n: nat)
    requires Applied(history, states, pools, pool) && n <= |history|
    ensures Keyed(states[n])
    ensures BlameLines(history[..n], path, pool).Ok?
    ensures Shows(BlameLines(history[..n], path, pool).value, states[n], path)
  {
    if n == 0 {
      assert history[..0] == [];
    } else {
      BlameAgrees(history, states, pools, pool, path, n - 1);
      assert history[..n][..n - 1] == history[..n - 1];
      assert AppliedAt(history, states, pools, pool, n - 1);
      OpsShown(BlameLines(history[..n - 1], path, pool).value, history[n - 1].intent, states[n - 1], pools[n - 1],
               n - 1, path, pool);
    }
  }

  ghost predicate Reaches(lines: seq<Line>, k: nat)
    requires k <= |lines|
  {
    StateAfter(map[], lines[..k]).Some? && Keyed(StateAfter(map[], lines[..k]).value)
  }

  /** A sound log from the empty state, each line re-enacting, is a history of applications. */
  lemma LoggedIsApplied(lines: seq<Line>, pool: set<Text>) returns (states: seq<State>, pools: seq<set<Text>>)
    requires Sound(map[], lines) && AllReenact(lines, pool)
    ensures Applied(lines, states, pools, pool)
    ensures StateAfter(map[], lines) == Some(states[|lines|])
  {
    forall k: nat | k <= |lines| ensures Reaches(lines, k) { SoundStates(map[], lines, k); }
    states := seq(|lines| + 1, k requires 0 <= k <= |lines| =>
                  assert Reaches(lines, k); StateAfter(map[], lines[..k]).value);
    pools := seq(|lines|, _ => pool);
    forall k: nat | k < |lines| ensures AppliedAt(lines, states, pools, pool, k) {
      assert Reaches(lines, k) && Reaches(lines, k + 1);
      StateStep(lines, k);
      assert lines[k] in lines;
      assert ReenactsAt(lines[k].intent, lines[k].realized, pool, states[k], pool);
    }
    assert lines[..0] == [] && lines[..|lines|] == lines;
  }

  lemma StateStep(lines: seq<Line>, k: nat)
    requires k < |lines| && StateAfter(map[], lines[..k]).Some?
    ensures StateAfter(map[], lines[..k + 1]) == Replay(StateAfter(map[], lines[..k]).value, lines[k].realized)
  {
    assert lines[..k + 1][..k] == lines[..k];
  }

  lemma BlameShows(lines: seq<Line>, pool: set<Text>, path: Path, head: State)
    requires Sound(map[], lines) && AllReenact(lines, pool) && StateAfter(map[], lines) == Some(head)
    ensures BlameLines(lines, path, pool).Ok? && Shows(BlameLines(lines, path, pool).value, head, path)
  {
    var states, pools := LoggedIsApplied(lines, pool);
    BlameAgrees(lines, states, pools, pool, path, |lines|);
    assert lines[..|lines|] == lines;
  }

  /** Every fork that began empty and grew by applications and unions (and whatever else keeps the
      repository re-enacting) can be blamed, and blame shows its head. */
  lemma BlameShowsHead(repo: Repository, fork: string, path: Path)
    requires repo.Valid() && repo.Reenacting() && fork in repo.forks && repo.bases[fork] == map[]
    ensures BlameLines(repo.forks[fork].log, path, repo.pool).Ok?
    ensures Shows(BlameLines(repo.forks[fork].log, path, repo.pool).value, repo.Head(fork), path)
  {
    SoundForkLoads(repo.anchors, repo.forks[fork], repo.bases[fork]);
    BlameShows(repo.forks[fork].log, repo.pool, path, repo.Head(fork));
  }

  /** The line's intent names other paths only. */
  predicate SilentOn(line: Line, path: Path) {
    forall op :: op in line.intent ==> op.path != path
  }

  lemma {:induction false} OpsElsewhere(b: Owned, ops: seq<Op>, idx: nat, path: Path, pool: set<Text>)
    requires |b.owners| == |b.content| && forall op :: op in ops ==> op.path != path
    ensures BlameOps(b, ops, idx, path, pool) == Ok(b)
  {
    if ops != [] { OpsElsewhere(b, ops[..|ops| - 1], idx, path, pool); }
  }

  /** Blame stands still over lines whose intents do not name the path. */
  lemma {:induction false} SilentLinesKeep(history: seq<Line>, path: Path, pool: set<Text>, k: nat)
    requires k <= |history| && BlameLines(history[..k], path, pool).Ok?
    requires forall i :: k <= i < |history| ==> SilentOn(history[i], path)
    ensures BlameLines(history, path, pool) == BlameLines(history[..k], path, pool)
    decreases |history|
  {
    if k == |history| {
      assert history[..k] == history;
    } else {
      var n := |history| - 1;
      assert history[..n][..k] == history[..k];
      SilentLinesKeep(history[..n], path, pool, k);
      OpsElsewhere(BlameLines(history[..n], path, pool).value, history[n].intent, n, path, pool);
    }
  }

  /** After any stretch of lines whose intents do not name the path, such as batches and repoints
      land, blame shows the manifest exactly where the whole stretch left the path as it was. */
  lemma SilentLinesShow(history: seq<Line>, path: Path, pool: set<Text>, k: nat, before: State, after: State)
    requires k <= |history| && BlameLines(history[..k], path, pool).Ok?
    requires Shows(BlameLines(history[..k], path, pool).value, before, path)
    requires forall i :: k <= i < |history| ==> SilentOn(history[i], path)
    ensures BlameLines(history, path, pool).Ok?
    ensures Shows(BlameLines(history, path, pool).value, after, path)
            <==> (path in before <==> path in after) && BlobAt(before, path) == BlobAt(after, path)
  {
    SilentLinesKeep(history, path, pool, k);
  }

  /** Such a line can hide a file from blame: the one a batch creates in an empty fork is in the
      manifest, and blame finds nobody there. */
  lemma SilentLineHides(line: Line, r: Record, pool: set<Text>)
    requires line.intent == [] && line.realized == [Entry(None, Some(r))]
    ensures Replay(map[], line.realized) == Some(map[r.path := r])
    ensures BlameLines([line], r.path, pool) == Ok(NOBODY) && !Shows(NOBODY, map[r.path := r], r.path)
  {
    assert line.realized[..0] == [] && [line][..0] == [];
    assert Replay(map[], line.realized[..0]) == Some(map[]);
    SilentLinesKeep([line], r.path, pool, 0);
  }

  ///////////////////////////////////////////// ownership ///////////////////////////////////////////////

  /** Where each byte of `now` stood in `then`, for the bytes owned by lines before `j`; -1 for
      the others.  Order is kept, and nothing but the first `j` lines' bytes is inherited. */
  ghost predicate Inherits(now: Owned, was: Owned, j: nat, from: seq<int>) {
    && |now.owners| == |now.content| == |from| && |was.owners| == |was.content|
    && (forall k :: 0 <= k < |from| ==> (now.owners[k] < j <==> 0 <= from[k]))
    && (forall k :: 0 <= k < |from| && 0 <= from[k] ==> from[k] < |was.content| && SameByte(now, k, was, from[k]))
    && forall k, l :: 0 <= k < l < |from| && 0 <= from[k] && 0 <= from[l] ==> from[k] < from[l]
  }

  predicate SameByte(b: Owned, k: nat, c: Owned, l: nat)
    requires |b.owners| == |b.content| && |c.owners| == |c.content| && k < |b.content| && l < |c.content|
  {
    b.content[k] == c.content[l] && b.owners[k] == c.owners[l]
  }

  function Fresh(n: nat): (r: seq<int>)
    ensures |r| == n && forall k :: 0 <= k < n ==> r[k] == -1
  {
    seq(n, _ => -1)
  }

  /** A later op inherits what it does not write, in order. */
  lemma OpInherits(now: Owned, was: Owned, j: nat, from: seq<int>, op: Op, idx: nat, path: Path, pool: set<Text>)
    returns (next: seq<int>)
    requires Inherits(now, was, j, from) && j <= idx && BlameOp(now, op, idx, path, pool).Ok?
    ensures Inherits(BlameOp(now, op, idx, path, pool).value, was, j, next)
  {
    var b := BlameOp(now, op, idx, path, pool).value;
    if op.path == path && op.Edit? {
      next := EditInherits(now, was, j, from, FindUnique(now.content, op.oldStr).value, |op.oldStr|, op.newStr, idx);
    } else if op.path == path && !op.Chmod? {
      next := Fresh(|b.content|);
    } else {
      next := from;
    }
  }

  lemma EditInherits(now: Owned, was: Owned, j: nat, from: seq<int>, at: nat, len: nat, newStr: Text, idx: nat)
    returns (next: seq<int>)
    requires Inherits(now, was, j, from) && j <= idx && at + len <= |now.content|
    ensures Inherits(Owned(Splice(now.content, at, len, newStr),
                           now.owners[..at] + Repeated(idx, |newStr|) + now.owners[at + len..], now.present), was, j,
                     next)
  {
    next := from[..at] + Fresh(|newStr|) + from[at + len..];
    var b := Owned(Splice(now.content, at, len, newStr),
                   now.owners[..at] + Repeated(idx, |newStr|) + now.owners[at + len..], now.present);
    forall k | 0 <= k < |next| ensures (b.owners[k] < j <==> 0 <= next[k])
    {
      if k >= at + |newStr| { assert next[k] == from[k - |newStr| + len]; }
    }
    forall k | 0 <= k < |next| && 0 <= next[k] ensures next[k] < |was.content| && SameByte(b, k, was, next[k]) {
      if k < at { assert SameByte(now, k, was, from[k]); }
      else { assert SameByte(now, k - |newStr| + len, was, from[k - |newStr| + len]); }
    }
  }

  lemma {:induction false} OpsInherit(now: Owned, was: Owned, j: nat, from: seq<int>, ops: seq<Op>, idx: nat,
                                      path: Path, pool: set<Text>)
    returns (next: seq<int>)
    requires Inherits(now, was, j, from) && j <= idx && BlameOps(now, ops, idx, path, pool).Ok?
    ensures Inherits(BlameOps(now, ops, idx, path, pool).value, was, j, next)
  {
    if ops == [] {
      next := from;
    } else {
      var n := |ops| - 1;
      var mid := OpsInherit(now, was, j, from, ops[..n], idx, path, pool);
      next := OpInherits(BlameOps(now, ops[..n], idx, path, pool).value, was, j, mid, ops[n], idx, path, pool);
    }
  }

  lemma {:induction false} OwnersBelow(history: seq<Line>, path: Path, pool: set<Text>, n: nat, k: nat)
    requires n <= |history| && BlameLines(history[..n], path, pool).Ok?
        && k < |BlameLines(history[..n], path, pool).value.owners|
    ensures BlameLines(history[..n], path, pool).value.owners[k] < n
    decreases n
  {
    assert history[..0] == [];
    if n > 0 {
      assert history[..n][..n - 1] == history[..n - 1];
      var before := BlameLines(history[..n - 1], path, pool).value;
      forall l | 0 <= l < |before.owners| ensures before.owners[l] < n { OwnersBelow(history, path, pool, n - 1, l); }
      OpsOwnBelow(before, history[n - 1].intent, n - 1, path, pool);
    }
  }

  lemma OpsOwnBelow(b: Owned, ops: seq<Op>, idx: nat, path: Path, pool: set<Text>)
    requires |b.owners| == |b.content| && BlameOps(b, ops, idx, path, pool).Ok?
    requires forall l :: 0 <= l < |b.owners| ==> b.owners[l] <= idx
    ensures forall l :: 0 <= l < |BlameOps(b, ops, idx, path, pool).value.owners| ==>
              BlameOps(b, ops, idx, path, pool).value.owners[l] <= idx
  {
    if ops != [] { OpsOwnBelow(b, ops[..|ops| - 1], idx, path, pool); }
  }

  lemma InheritsItself(was: Owned, j: nat) returns (from: seq<int>)
    requires |was.owners| == |was.content| && forall k :: 0 <= k < |was.content| ==> was.owners[k] < j
    ensures Inherits(was, was, j, from)
  {
    from := seq(|was.content|, k => k);
  }

  /** For any point in the history, the bytes blamed on lines before it are exactly those the path
      already held there, under the same owners and in the same order. */
  lemma {:induction false} OwnerKeeps(history: seq<Line>, path: Path, pool: set<Text>, j: nat, n: nat)
    returns (from: seq<int>)
    requires j <= n <= |history| && BlameLines(history[..j], path, pool).Ok? && BlameLines(history[..n], path, pool).Ok?
    ensures Inherits(BlameLines(history[..n], path, pool).value, BlameLines(history[..j], path, pool).value, j, from)
  {
    var was := BlameLines(history[..j], path, pool).value;
    if n == j {
      forall k | 0 <= k < |was.content| ensures was.owners[k] < j { OwnersBelow(history, path, pool, j, k); }
      from := InheritsItself(was, j);
    } else {
      assert history[..n][..n - 1] == history[..n - 1];
      var mid := OwnerKeeps(history, path, pool, j, n - 1);
      from := OpsInherit(BlameLines(history[..n - 1], path, pool).value, was, j, mid, history[n - 1].intent, n - 1,
                         path, pool);
    }
  }

  ////////////////////////////////////////////// writers ////////////////////////////////////////////////

  /** A byte of an op's text: the op at `op` of line `line` put it there, `offset` bytes in. */
  datatype Written = Written(line: nat, op: nat, offset: nat)

  /** The path's bytes after the lines before `i` and the first `k` ops of line `i`. */
  function BytesAt(history: seq<Line>, path: Path, pool: set<Text>, i: nat, k: nat): Text
    requires i < |history| && k <= |history[i].intent|
  {
    match BlameLines(history[..i], path, pool)
    case Err(_) => []
    case Ok(b) =>
      match BlameOps(b, history[i].intent[..k], i, path, pool)
      case Err(_) => []
      case Ok(now) => now.content
  }

  /** Where a byte the path holds after an op was before it. */
  datatype Source = Here(offset: nat) | From(at: nat) | Nowhere

  /** Ops elsewhere and edits of other bytes leave a byte where it was or move it along; a byte of
      the op's own text comes from there. */
  function SourceOf(op: Op, path: Path, bytes: Text, x: nat): Source {
    if op.path != path || op.Chmod? then From(x)
    else if op.Delete? then Nowhere
    else if op.Create? then Here(x)
    else
      match FindUnique(bytes, op.oldStr)
      case Err(_) => Nowhere
      case Ok(at) =>
        if x < at then From(x)
        else if x < at + |op.newStr| then Here(x - at)
        else From(x - |op.newStr| + |op.oldStr|)
  }

  /** Who wrote byte `x` last, traced back through the path's bytes alone. */
  function Writer(history: seq<Line>, path: Path, pool: set<Text>, i: nat, k: nat, x: nat): Option<Written>
    requires i < |history| && k <= |history[i].intent|
    decreases i, k
  {
    if k == 0 then if i == 0 then None else Writer(history, path, pool, i - 1, |history[i - 1].intent|, x)
    else
      match SourceOf(history[i].intent[k - 1], path, BytesAt(history, path, pool, i, k - 1), x)
      case Here(offset) => Some(Written(i, k - 1, offset))
      case From(y) => Writer(history, path, pool, i, k - 1, y)
      case Nowhere => None
  }

  /** The text an op puts on its path. */
  function TextOf(op: Op): Text {
    match op
    case Edit(_, _, newStr) => newStr
    case Create(_, _, blob, inline) =>
      if blob.Some? then blob.value else if inline.Some? then inline.value else []
    case _ => []
  }

  /** The byte is one the op named does put on the path. */
  predicate Puts(history: seq<Line>, path: Path, w: Written, byte: Byte) {
    && w.line < |history| && w.op < |history[w.line].intent|
    && var op := history[w.line].intent[w.op];
       op.path == path && w.offset < |TextOf(op)| && TextOf(op)[w.offset] == byte
  }

  /** Every byte has the owner its writer gives it, and is the byte that writer put there. */
  ghost predicate OwnsRightly(history: seq<Line>, path: Path, pool: set<Text>, i: nat, k: nat, b: Owned)
    requires i < |history| && k <= |history[i].intent|
  {
    && |b.owners| == |b.content|
    && forall x :: 0 <= x < |b.content| ==> OwnedRightly(history, path, pool, i, k, b, x)
  }

  ghost predicate OwnedRightly(history: seq<Line>, path: Path, pool: set<Text>, i: nat, k: nat, b: Owned, x: nat)
    requires i < |history| && k <= |history[i].intent| && x < |b.content| == |b.owners|
  {
    && var w := Writer(history, path, pool, i, k, x);
       w.Some? && w.value.line == b.owners[x] && Puts(history, path, w.value, b.content[x])
  }

  /** What one op does to the bytes and to their owners is one thing. */
  lemma OpMoves(b: Owned, op: Op, idx: nat, path: Path, pool: set<Text>, now: Owned, x: nat)
    requires |b.owners| == |b.content| && BlameOp(b, op, idx, path, pool) == Ok(now) && x < |now.content|
    ensures |now.owners| == |now.content|
    ensures match SourceOf(op, path, b.content, x)
            case Here(offset) =>
              && op.path == path && now.owners[x] == idx
              && offset < |TextOf(op)| && TextOf(op)[offset] == now.content[x]
            case From(y) => y < |b.content| && SameByte(now, x, b, y)
            case Nowhere => false
  {
    if op.path == path && op.Edit? {
      EditMoves(b, FindUnique(b.content, op.oldStr).value, |op.oldStr|, op.newStr, idx, now, x);
    }
  }

  lemma EditMoves(b: Owned, at: nat, len: nat, newStr: Text, idx: nat, now: Owned, x: nat)
    requires |b.owners| == |b.content| && at + len <= |b.content| && x < |now.content|
    requires now == Owned(Splice(b.content, at, len, newStr),
                          b.owners[..at] + Repeated(idx, |newStr|) + b.owners[at + len..], b.present)
    ensures |now.owners| == |now.content|
    ensures x < at ==> SameByte(now, x, b, x)
    ensures at <= x < at + |newStr| ==> now.content[x] == newStr[x - at] && now.owners[x] == idx
    ensures at + |newStr| <= x ==> x - |newStr| + len < |b.content| && SameByte(now, x, b, x - |newStr| + len)
  {
  }

  lemma WriterStep(history: seq<Line>, path: Path, pool: set<Text>, i: nat, k: nat, x: nat)
    requires i < |history| && k < |history[i].intent|
    ensures Writer(history, path, pool, i, k + 1, x)
            == match SourceOf(history[i].intent[k], path, BytesAt(history, path, pool, i, k), x)
               case Here(offset) => Some(Written(i, k, offset))
               case From(y) => Writer(history, path, pool, i, k, y)
               case Nowhere => None
  {
  }

  lemma OpOwnsByte(history: seq<Line>, path: Path, pool: set<Text>, i: nat, k: nat, b: Owned, now: Owned, x: nat)
    requires i < |history| && k < |history[i].intent| && OwnsRightly(history, path, pool, i, k, b)
    requires BytesAt(history, path, pool, i, k) == b.content && x < |now.content|
    requires BlameOp(b, history[i].intent[k], i, path, pool) == Ok(now)
    ensures |now.owners| == |now.content| && OwnedRightly(history, path, pool, i, k + 1, now, x)
  {
    OpMoves(b, history[i].intent[k], i, path, pool, now, x);
    WriterStep(history, path, pool, i, k, x);
    match SourceOf(history[i].intent[k], path, b.content, x) {
      case From(y) => assert OwnedRightly(history, path, pool, i, k, b, y);
      case _ =>
    }
  }

  lemma OpOwnsRightly(history: seq<Line>, path: Path, pool: set<Text>, i: nat, k: nat, b: Owned, now: Owned)
    requires i < |history| && k < |history[i].intent| && OwnsRightly(history, path, pool, i, k, b)
    requires BytesAt(history, path, pool, i, k) == b.content
    requires BlameOp(b, history[i].intent[k], i, path, pool) == Ok(now) && |now.owners| == |now.content|
    ensures OwnsRightly(history, path, pool, i, k + 1, now)
  {
    var next := k + 1;
    forall x: nat | x < |now.content| ensures OwnedRightly(history, path, pool, i, next, now, x) {
      OpOwnsByte(history, path, pool, i, k, b, now, x);
    }
  }

  lemma {:induction false} OpsOwnRightly(history: seq<Line>, path: Path, pool: set<Text>, i: nat, k: nat, b: Owned)
    requires i < |history| && k <= |history[i].intent| && BlameLines(history[..i], path, pool) == Ok(b)
    requires OwnsRightly(history, path, pool, i, 0, b) && BlameOps(b, history[i].intent[..k], i, path, pool).Ok?
    ensures OwnsRightly(history, path, pool, i, k, BlameOps(b, history[i].intent[..k], i, path, pool).value)
  {
    var intent := history[i].intent;
    if k == 0 {
      assert intent[..0] == [];
    } else {
      assert intent[..k][..k - 1] == intent[..k - 1] && intent[..k][k - 1] == intent[k - 1];
      OpsOwnRightly(history, path, pool, i, k - 1, b);
      OpOwnsRightly(history, path, pool, i, k - 1, BlameOps(b, intent[..k - 1], i, path, pool).value,
                    BlameOps(b, intent[..k], i, path, pool).value);
    }
  }

  /** At the start of line `i` things stand as at the end of the line before it. */
  lemma {:induction false} LinesOwnRightly(history: seq<Line>, path: Path, pool: set<Text>, i: nat)
    requires i < |history| && BlameLines(history[..i], path, pool).Ok?
    ensures OwnsRightly(history, path, pool, i, 0, BlameLines(history[..i], path, pool).value)
    decreases i
  {
    if i == 0 {
      assert history[..0] == [];
    } else {
      BlamedBefore(history, path, pool, i);
      var before := BlameLines(history[..i - 1], path, pool).value;
      LinesOwnRightly(history, path, pool, i - 1);
      OpsOwnRightly(history, path, pool, i - 1, |history[i - 1].intent|, before);
      var now := BlameLines(history[..i], path, pool).value;
      forall x: nat | x < |now.content| ensures OwnedRightly(history, path, pool, i, 0, now, x) {
        assert OwnedRightly(history, path, pool, i - 1, |history[i - 1].intent|, now, x);
      }
    }
  }

  lemma BlamedBefore(history: seq<Line>, path: Path, pool: set<Text>, i: nat)
    requires 0 < i <= |history| && BlameLines(history[..i], path, pool).Ok?
    ensures BlameLines(history[..i - 1], path, pool).Ok?
    ensures var intent := history[i - 1].intent;
            BlameOps(BlameLines(history[..i - 1], path, pool).value, intent[..|intent|], i - 1, path, pool)
            == BlameLines(history[..i], path, pool)
  {
    var intent := history[i - 1].intent;
    assert history[..i][..i - 1] == history[..i - 1] && history[..i][i - 1] == history[i - 1];
    assert intent[..|intent|] == intent;
  }

  /** The owner of a byte is the last line to write it: the one whose op put it on the path, no op
      after that one having written it again. */
  lemma OwnerWroteLast(history: seq<Line>, path: Path, pool: set<Text>, n: nat, x: nat)
    requires 0 < n <= |history| && BlameLines(history[..n], path, pool).Ok?
    requires x < |BlameLines(history[..n], path, pool).value.content|
    ensures var b, w := BlameLines(history[..n], path, pool).value,
                        Writer(history, path, pool, n - 1, |history[n - 1].intent|, x);
            w.Some? && w.value.line == b.owners[x] && Puts(history, path, w.value, b.content[x])
  {
    BlamedBefore(history, path, pool, n);
    LinesOwnRightly(history, path, pool, n - 1);
    OpsOwnRightly(history, path, pool, n - 1, |history[n - 1].intent|, BlameLines(history[..n - 1], path, pool).value);
    assert OwnedRightly(history, path, pool, n - 1, |history[n - 1].intent|,
                        BlameLines(history[..n], path, pool).value, x);
  }

  ///////////////////////////////////////////// rolling up //////////////////////////////////////////////

  /** One rendered line: the line that owns its text. */
  datatype BlamedLine = BlamedLine(owner: nat, text: Text)

  function Newest(owners: seq<nat>): (n: nat)
    requires owners != []
    ensures n in owners && forall k :: 0 <= k < |owners| ==> owners[k] <= n
  {
    if |owners| == 1 then owners[0]
    else var n := Newest(owners[1..]); if owners[0] > n then owners[0] else n
  }

  function Stripped(line: Text): Text
    requires line != []
  {
    if line[|line| - 1] == LF then line[..|line| - 1] else line
  }

  /** Where the line that begins at `start` ends, terminator included. */
  function EndOfLine(content: Text, start: nat): (end: nat)
    requires start < |content|
    ensures start < end <= |content|
  {
    start + FirstLf(content[start..])
  }

  /** Each line from `start` on, under the newest owner among its bytes. */
  function RolledFrom(content: Text, owners: seq<nat>, start: nat): seq<BlamedLine>
    requires |owners| == |content| && start <= |content|
    decreases |content| - start
  {
    if start == |content| then []
    else
      var end := EndOfLine(content, start);
      [BlamedLine(Newest(owners[start..end]), Stripped(content[start..end]))] + RolledFrom(content, owners, end)
  }

  function RolledUp(content: Text, owners: seq<nat>): seq<BlamedLine>
    requires |owners| == |content|
  {
    RolledFrom(content, owners, 0)
  }

  /** One rendered line for each line: its terminator stripped, under the newest owner of its bytes. */
  predicate Renders(out: seq<BlamedLine>, lines: seq<Text>, owners: seq<nat>) {
    if lines == [] then out == [] && owners == []
    else
      && out != [] && 0 < |lines[0]| <= |owners|
      && out[0] == BlamedLine(Newest(owners[..|lines[0]|]), Stripped(lines[0]))
      && Renders(out[1..], lines[1..], owners[|lines[0]|..])
  }

  lemma RendersOneMore(line: BlamedLine, text: Text, ours: seq<nat>, rest: seq<nat>, all: seq<nat>,
                       out: seq<BlamedLine>, lines: seq<Text>)
    requires text != [] && |ours| == |text| && line == BlamedLine(Newest(ours), Stripped(text))
    requires Renders(out, lines, rest) && all == ours + rest
    ensures Renders([line] + out, [text] + lines, all)
  {
    assert ([line] + out)[1..] == out && ([text] + lines)[1..] == lines;
    assert all[..|text|] == ours && all[|text|..] == rest;
  }

  lemma SplitsFrom(content: Text, start: nat)
    requires start < |content|
    ensures var end := EndOfLine(content, start);
            SplitKeepLines(content[start..]) == [content[start..end]] + SplitKeepLines(content[end..])
  {
    var end := EndOfLine(content, start);
    assert content[start..][..end - start] == content[start..end];
    assert content[start..][end - start..] == content[end..];
  }

  /** Rendering loses no line and hides no owner. */
  lemma {:induction false} RolledFromLines(content: Text, owners: seq<nat>, start: nat)
    requires |owners| == |content| && start <= |content|
    ensures Renders(RolledFrom(content, owners, start), SplitKeepLines(content[start..]), owners[start..])
    decreases |content| - start
  {
    if start < |content| {
      var end := EndOfLine(content, start);
      RolledFromLines(content, owners, end);
      RendersOneMore(BlamedLine(Newest(owners[start..end]), Stripped(content[start..end])), content[start..end],
                     owners[start..end], owners[end..], owners[start..], RolledFrom(content, owners, end),
                     SplitKeepLines(content[end..]));
      SplitsFrom(content, start);
      RolledUnfolds(content, owners, start);
    }
  }

  lemma RolledUpLines(content: Text, owners: seq<nat>)
    requires |owners| == |content|
    ensures Renders(RolledUp(content, owners), SplitKeepLines(content), owners)
  {
    RolledFromLines(content, owners, 0);
    assert content[0..] == content && owners[0..] == owners;
  }

  lemma FirstLfIs(t: Text, n: nat)
    requires 0 < n <= |t| && (forall k :: 0 <= k < n - 1 ==> t[k] != LF) && (t[n - 1] == LF || n == |t|)
    ensures FirstLf(t) == n
  {
    if n > 1 { FirstLfIs(t[1..], n - 1); }
  }

  predicate NoLfIn(content: Text, start: nat, end: nat) {
    forall k :: start <= k < end && k < |content| ==> content[k] != LF
  }

  lemma LineEndsAt(content: Text, start: nat, end: nat)
    requires start < end <= |content| && (content[end - 1] == LF || end == |content|)
    requires NoLfIn(content, start, end - 1)
    ensures EndOfLine(content, start) == end
  {
    FirstLfIs(content[start..], end - start);
  }

  ghost predicate Rolling(content: Text, owners: seq<nat>, out: seq<BlamedLine>, start: nat) {
    && |owners| == |content| && start <= |content|
    && RolledUp(content, owners) == out + RolledFrom(content, owners, start)
  }

  lemma RollingStep(content: Text, owners: seq<nat>, out: seq<BlamedLine>, start: nat, end: nat, line: BlamedLine)
    requires Rolling(content, owners, out, start) && start < |content| && end == EndOfLine(content, start)
    requires line == BlamedLine(Newest(owners[start..end]), Stripped(content[start..end]))
    ensures Rolling(content, owners, out + [line], end)
  {
    RolledUnfolds(content, owners, start);
    OneMore(out, line, RolledFrom(content, owners, end));
  }

  lemma RolledUnfolds(content: Text, owners: seq<nat>, start: nat)
    requires |owners| == |content| && start < |content|
    ensures var end := EndOfLine(content, start);
            RolledFrom(content, owners, start)
            == [BlamedLine(Newest(owners[start..end]), Stripped(content[start..end]))]
              + RolledFrom(content, owners, end)
  {
  }

  lemma OneMore(out: seq<BlamedLine>, line: BlamedLine, rest: seq<BlamedLine>)
    ensures out + ([line] + rest) == (out + [line]) + rest
  {
  }

  lemma RollingStarts(content: Text, owners: seq<nat>)
    requires |owners| == |content|
    ensures Rolling(content, owners, [], 0)
  {
    assert [] + RolledUp(content, owners) == RolledUp(content, owners);
  }

  method RollUpLines(content: Text, owners: seq<nat>) returns (out: seq<BlamedLine>)
    requires |owners| == |content|
    ensures out == RolledUp(content, owners)
  {
    out := [];
    var start, i := 0, 0;
    RollingStarts(content, owners);
    while i < |content|
      invariant start <= i <= |content|
      invariant NoLfIn(content, start, i)
      invariant Rolling(content, owners, out, start)
    {
      if content[i] == LF {
        out := Emit(content, owners, start, i + 1, out);
        start := i + 1;
      }
      i := i + 1;
    }
    if start < |content| { out := Emit(content, owners, start, |content|, out); }
    RollingEnds(content, owners, out);
  }

  lemma RollingEnds(content: Text, owners: seq<nat>, out: seq<BlamedLine>)
    requires Rolling(content, owners, out, |content|)
    ensures out == RolledUp(content, owners)
  {
    assert out + [] == out;
  }

  method Emit(content: Text, owners: seq<nat>, start: nat, end: nat, before: seq<BlamedLine>)
    returns (out: seq<BlamedLine>)
    requires Rolling(content, owners, before, start) && start < end <= |content|
    requires NoLfIn(content, start, end - 1) && (content[end - 1] == LF || end == |content|)
    ensures Rolling(content, owners, out, end)
  {
    LineEndsAt(content, start, end);
    var line := BlamedLine(Newest(owners[start..end]), Stripped(content[start..end]));
    RollingStep(content, owners, before, start, end, line);
    out := before + [line];
  }

  /** Blame a path across a history, oldest line first. */
  method BlamePath(path: Path, history: seq<Line>, pool: set<Text>) returns (r: Result<seq<BlamedLine>, Error>)
    ensures match BlameLines(history, path, pool)
            case Err(e) => r == Err(e)
            case Ok(b) => r == if b.present then Ok(RolledUp(b.content, b.owners)) else Err(Invalid)
  {
    var b := NOBODY;
    for i := 0 to |history|
      invariant BlameLines(history[..i], path, pool) == Ok(b)
    {
      assert history[..i + 1][..i] == history[..i];
      var one := BlameOps(b, history[i].intent, i, path, pool);
      if one.Err? {
        BlameStops(history, path, pool, i + 1);
        return Err(one.error);
      }
      b := one.value;
    }
    assert history[..|history|] == history;
    if !b.present { return Err(Invalid); }
    var out := RollUpLines(b.content, b.owners);
    r := Ok(out);
  }

  lemma BlameStops(history: seq<Line>, path: Path, pool: set<Text>, k: nat)
    requires k <= |history| && BlameLines(history[..k], path, pool).Err?
    ensures BlameLines(history, path, pool) == BlameLines(history[..k], path, pool)
  {
    if k < |history| {
      assert history[..|history| - 1][..k] == history[..k];
      BlameStops(history[..|history| - 1], path, pool, k);
    } else {
      assert history[..k] == history;
    }
  }
}
