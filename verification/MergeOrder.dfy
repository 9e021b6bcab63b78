/** Order of unions (src/union.rs): forks of one anchor that write apart and recorded no reads
    merge, in whatever order, to the same manifest. */
module MergeOrder {
  import opened Wrappers
  import opened Spans
  import opened Patch
  import opened Setsum
  import opened Tripwire
  import opened Logs
  import opened Repo
  import opened Unions
  import opened UnionLaws

  /** A fork to be merged: its name and its log. */
  datatype Branch = Branch(name: string, lines: seq<Line>)

  /** The paths a log writes. */
  function WritesOf(lines: seq<Line>): set<Path> {
    if lines == [] then {} else WritesOf(lines[..|lines| - 1]) + WritePaths(lines[|lines| - 1].realized)
  }

  lemma WritesAppend(a: seq<Line>, b: seq<Line>)
    ensures WritesOf(a + b) == WritesOf(a) + WritesOf(b)
  {
    if b == [] {
      assert a + b == a;
    } else {
      assert (a + b)[..|a + b| - 1] == a + b[..|b| - 1];
      WritesAppend(a, b[..|b| - 1]);
    }
  }

  lemma WritesOne(line: Line)
    ensures WritesOf([line]) == WritePaths(line.realized)
  {
    assert [line][..0] == [];
  }

  lemma WritesMember(lines: seq<Line>, i: nat)
    requires i < |lines|
    ensures WritePaths(lines[i].realized) <= WritesOf(lines)
  {
    if i < |lines| - 1 { WritesMember(lines[..|lines| - 1], i); }
  }

  /** A log of valid lines that recorded no reads. */
  predicate Quiet(lines: seq<Line>) {
    forall k :: 0 <= k < |lines| ==> ValidLine(lines[k]) && lines[k].note.observed == Unobserved
  }

  predicate NoneFrom(lines: seq<Line>, fork: string) {
    forall k :: 0 <= k < |lines| ==> !FromFork(lines[k], fork)
  }

  lemma EntryPathsHold(e: Entry)
    ensures e.remove.Some? ==> e.remove.value.path in EntryPaths(e)
    ensures e.add.Some? ==> e.add.value.path in EntryPaths(e)
  {
  }

  /** A delta that writes no path changes nothing. */
  lemma IdleReplay(s: State, realized: seq<Entry>)
    requires WritePaths(realized) == {}
    ensures Replay(s, realized) == Some(s)
  {
    if realized != [] {
      IdleReplay(s, realized[..|realized| - 1]);
      var e := realized[|realized| - 1];
      EntryPathsHold(e);
    }
  }

  lemma CarriedIsHere(log: seq<Line>, source: string, line: Line) returns (i: nat)
    requires NoneFrom(log, source) && Of(line) in CarriedBy(log, source)
    ensures i < |log| && log[i] == line
  {
    var n := |log| - 1;
    if log[n] == line { i := n; } else { i := CarriedIsHere(log[..n], source, line); }
  }

  lemma NothingStale(ctx: Context, line: Line, target: State, pool: set<Text>)
    requires line.note.observed == Unobserved
    ensures StaleConflicts(ctx, line, target, pool) == {}
  {
  }

  lemma QuietStrandsNothing(lines: seq<Line>, writers: map<Path, Id>, before: State, after: State, pool: set<Text>)
    requires Quiet(lines)
    ensures AllStranded(lines, writers, before, after, pool) == {}
  {
    if lines != [] {
      QuietStrandsNothing(lines[..|lines| - 1], writers, before, after, pool);
      assert StrandedConflicts(lines[|lines| - 1], writers, before, after, pool) == {};
    }
  }

  ///////////////////////////////////////// one disjoint union //////////////////////////////////////////

  /** A fork that can be merged into `log` blindly: sound from the anchor, quiet, and writing
      no path the log writes. */
  ghost predicate Apart(m0: State, b: Branch, log: seq<Line>) {
    && Sound(m0, b.lines) && Quiet(b.lines)
    && WritesOf(b.lines) !! WritesOf(log) && NoneFrom(log, b.name)
  }

  /** Everything staged comes from the branch, quiet, and writes within its paths. */
  predicate FromBranch(staged: seq<Landed>, name: string, paths: set<Path>) {
    && Quiet(LinesOf(staged)) && WritesOf(LinesOf(staged)) <= paths
    && forall k :: 0 <= k < |staged| ==> FromFork(staged[k].line, name)
  }

  lemma FromBranchStep(staged: seq<Landed>, name: string, paths: set<Path>, l: Landed)
    requires FromBranch(staged, name, paths)
    requires ValidLine(l.line) && l.line.note.observed == Unobserved && FromFork(l.line, name)
    requires WritePaths(l.line.realized) <= paths
    ensures FromBranch(staged + [l], name, paths)
  {
    LinesAppend(staged, l);
    WritesAppend(LinesOf(staged), [l.line]);
    WritesOne(l.line);
  }

  /** Where the replay stands: nothing conflicts, and the scratch shows the branch's own state
      on its paths (or, where the sums agreed from the start, has not moved at all). */
  ghost predicate Progress(ctx: Context, st: Stage, start: Stage, reach: State, paths: set<Path>) {
    && st.conflicts == {}
    && FromBranch(st.staged, ctx.source, paths)
    && Kept(start.scratch, st.scratch, paths)
    && (if ctx.identical then st.scratch == start.scratch else Agree(st.scratch, reach, paths))
  }

  /** What landing one line of an apart branch does: stratum 2, no conflict. */
  lemma LandsDirectly(ctx: Context, line: Line, st: Stage)
    requires ValidLine(line) && line.note.observed == Unobserved && st.conflicts == {}
    requires Replay(st.scratch, line.realized).Some?
    ensures LandLine(ctx, line, st).Ok?
    ensures var now := LandLine(ctx, line, st).value;
            && now.conflicts == {} && now.scratch == Replay(st.scratch, line.realized).value
            && |now.staged| == |st.staged| + 1 && now.staged == st.staged + [now.staged[|st.staged|]]
            && var l := now.staged[|st.staged|].line;
               ValidLine(l) && l.note.observed == Unobserved && FromFork(l, ctx.source) && l.realized == line.realized
  {
    NothingStale(ctx, line, st.scratch, st.pool + {});
  }

  lemma ScratchStep(ctx: Context, s: State, t: State, start: State, realized: seq<Entry>, paths: set<Path>)
    requires Agree(s, t, paths) && Kept(start, s, paths) && WritePaths(realized) <= paths && Replay(t, realized).Some?
    ensures Replay(s, realized).Some?
    ensures Agree(Replay(s, realized).value, Replay(t, realized).value, paths)
        && Kept(start, Replay(s, realized).value, paths)
  {
    ReplayFrame(s, t, realized, paths);
    KeptTwice(start, s, Replay(s, realized).value, paths);
  }

  /** Landing one more line of an apart branch goes through stratum 2. */
  lemma LandApart(ctx: Context, line: Line, st: Stage, start: Stage, reach: State, paths: set<Path>)
    requires Progress(ctx, st, start, reach, paths)
    requires ValidLine(line) && line.note.observed == Unobserved && WritePaths(line.realized) <= paths
    requires Replay(reach, line.realized).Some?
    requires ctx.identical ==> line.note.fuse.Some?
    ensures LandLine(ctx, line, st).Ok?
    ensures Progress(ctx, LandLine(ctx, line, st).value, start, Replay(reach, line.realized).value, paths)
  {
    if !ctx.identical { ScratchStep(ctx, st.scratch, reach, start.scratch, line.realized, paths); }
    LandsDirectly(ctx, line, st);
    FromBranchStep(st.staged, ctx.source, paths, LandLine(ctx, line, st).value.staged[|st.staged|]);
  }

  /** A carried line of an apart branch can only be one that writes nothing. */
  lemma CarriedIsIdle(m0: State, b: Branch, log: seq<Line>, line: Line)
    requires Apart(m0, b, log) && Of(line) in CarriedBy(log, b.name) && WritePaths(line.realized) <= WritesOf(b.lines)
    ensures WritePaths(line.realized) == {}
  {
    var i := CarriedIsHere(log, b.name, line);
    WritesMember(log, i);
  }

  lemma {:induction false} LandAllApart(m0: State, b: Branch, log: seq<Line>, ctx: Context, start: Stage, k: nat)
    requires Keyed(m0) && Apart(m0, b, log) && k <= |b.lines|
    requires ctx.source == b.name && ctx.carried == CarriedBy(log, b.name)
    requires start.staged == [] && start.conflicts == {} && Agree(start.scratch, m0, WritesOf(b.lines))
    ensures StateAfter(m0, b.lines[..k]).Some? && LandAll(ctx, b.lines[..k], start).Ok?
    ensures Progress(ctx, LandAll(ctx, b.lines[..k], start).value, start, StateAfter(m0, b.lines[..k]).value,
                     WritesOf(b.lines))
  {
    var paths := WritesOf(b.lines);
    SoundStates(m0, b.lines, k);
    if k == 0 {
      assert LinesOf([]) == [];
      assert b.lines[..0] == [];
    } else {
      LandAllApart(m0, b, log, ctx, start, k - 1);
      assert b.lines[..k][..k - 1] == b.lines[..k - 1];
      var line := b.lines[k - 1];
      WritesMember(b.lines, k - 1);
      var st, reach := LandAll(ctx, b.lines[..k - 1], start).value, StateAfter(m0, b.lines[..k - 1]).value;
      if Of(line) in ctx.carried {
        CarriedIsIdle(m0, b, log, line);
        IdleReplay(reach, line.realized);
      } else if !Skips(ctx, line) {
        LandApart(ctx, line, st, start, reach, paths);
      }
    }
  }

  lemma HistoryFrame(base: State, lines: seq<Line>)
    requires StateAfter(base, lines).Some?
    ensures Kept(base, StateAfter(base, lines).value, WritesOf(lines))
  {
    if lines != [] {
      var init, last := lines[..|lines| - 1], lines[|lines| - 1];
      HistoryFrame(base, init);
      var s, paths := StateAfter(base, init).value, WritePaths(last.realized);
      ReplayFrame(s, s, last.realized, paths);
      forall p | p !in WritesOf(lines) ensures SameAt(base, StateAfter(base, lines).value, p) {
        assert SameAt(base, s, p);
        assert SameAt(s, StateAfter(base, lines).value, p);
      }
    }
  }

  /** The state a merge of an apart branch must reach: the branch's own on its paths, the
      target's elsewhere. */
  ghost predicate Merged(before: State, from: State, after: State, paths: set<Path>) {
    Agree(after, from, paths) && Kept(before, after, paths)
  }

  /** A union of `b` into a target whose log is `log`, both forks of the anchor state `m0`. */
  function UnionInto(m0: State, b: Branch, log: seq<Line>, author: string, clock: nat,
                     pool: set<Text>): Result<Outcome, Error>
    requires StateAfter(m0, b.lines).Some? && StateAfter(m0, log).Some?
  {
    var from, target := HeadState(m0, b.lines), HeadState(m0, log);
    Merge(ContextOf(b.name, author, clock, from, SumOf(m0), target), from, target, pool)
  }

  /** The replay of an apart branch stages a sound, quiet batch that reaches the merged state. */
  lemma ApartStage(m0: State, b: Branch, log: seq<Line>, ctx: Context, start: Stage)
    requires Keyed(m0) && Sound(m0, log) && Apart(m0, b, log)
    requires StateAfter(m0, b.lines).Some? && StateAfter(m0, log).Some? && Staged(m0, log, start)
    requires ctx.source == b.name && ctx.carried == CarriedBy(log, b.name)
    requires ctx.identical ==> StateAfter(m0, b.lines) == StateAfter(m0, log)
    requires start.staged == [] && start.conflicts == {} && start.scratch == StateAfter(m0, log).value
    ensures LandAll(ctx, b.lines, start).Ok?
    ensures var st := LandAll(ctx, b.lines, start).value;
            && Staged(m0, log, st) && st.conflicts == {} && FromBranch(st.staged, b.name, WritesOf(b.lines))
            && Merged(start.scratch, StateAfter(m0, b.lines).value, st.scratch, WritesOf(b.lines))
  {
    HistoryFrame(m0, log);
    assert Agree(start.scratch, m0, WritesOf(b.lines));
    LandAllApart(m0, b, log, ctx, start, |b.lines|);
    assert b.lines[..|b.lines|] == b.lines;
    LandAllStaged(m0, log, ctx, b.lines, start);
  }

  lemma TailIsQuiet(log: seq<Line>, k: nat)
    requires Quiet(log) && k <= |log|
    ensures Quiet(log[k..])
  {
    assert forall i :: 0 <= i < |log[k..]| ==> log[k..][i] in log;
  }

  /** One union of an apart branch completes, whether or not the equal-sum shortcut fires. */
  lemma ApartUnion(m0: State, b: Branch, log: seq<Line>, author: string, clock: nat, pool: set<Text>)
    returns (staged: seq<Landed>)
    requires Keyed(m0) && Sound(m0, log) && Quiet(log) && Apart(m0, b, log)
    ensures StateAfter(m0, b.lines).Some? && StateAfter(m0, log).Some?
    ensures var r := UnionInto(m0, b, log, author, clock, pool);
            r.Ok? && r.value.Complete() && staged == r.value.landed
    ensures Sound(m0, log + LinesOf(staged)) && StateAfter(m0, log + LinesOf(staged)).Some?
    ensures Merged(StateAfter(m0, log).value, StateAfter(m0, b.lines).value,
                   StateAfter(m0, log + LinesOf(staged)).value, WritesOf(b.lines))
    ensures FromBranch(staged, b.name, WritesOf(b.lines))
  {
    SoundIsTallied(m0, b.lines);
    SoundIsTallied(m0, log);
    var from, target := HeadState(m0, b.lines), HeadState(m0, log);
    var ctx := ContextOf(b.name, author, clock, from, SumOf(m0), target);
    var start := StartStage(b.name, target, pool);
    StartStaged(m0, target, b.name, pool);
    if ctx.identical { SumFixesManifest(from.manifest, target.manifest); }
    ApartStage(m0, b, log, ctx, start);
    var st := LandAll(ctx, b.lines, start).value;
    TailIsQuiet(log, StartOf(log, SumOf(m0)));
    QuietStrandsNothing(ctx.concurrent, st.writers, target.manifest, st.scratch, st.pool);
    staged := st.staged;
  }

  //////////////////////////////////////// any order of unions //////////////////////////////////////////

  /** The pool a union leaves: what it held, and any blob stratum 3 re-realized. */
  function PoolAfter(m0: State, b: Branch, log: seq<Line>, author: string, clock: nat, pool: set<Text>): set<Text>
    requires StateAfter(m0, b.lines).Some? && StateAfter(m0, log).Some?
  {
    var from, target := HeadState(m0, b.lines), HeadState(m0, log);
    match LandAll(ContextOf(b.name, author, clock, from, SumOf(m0), target), b.lines, StartStage(b.name, target, pool))
    case Ok(st) => st.pool
    case Err(_) => pool
  }

  /** The target's log after a union of each branch in turn, when every one completes. */
  function UnionAll(m0: State, branches: seq<Branch>, log: seq<Line>, author: string, clock: nat,
                    pool: set<Text>): Option<seq<Line>>
  {
    if branches == [] then Some(log)
    else
      var b := branches[0];
      if StateAfter(m0, b.lines).None? || StateAfter(m0, log).None? then None
      else
        match UnionInto(m0, b, log, author, clock, pool)
        case Err(_) => None
        case Ok(o) =>
          if !o.Complete() then None
          else UnionAll(m0, branches[1..], log + LinesOf(o.landed), author, clock,
                        PoolAfter(m0, b, log, author, clock, pool))
  }

  /** Branches that may be merged blindly, in any order: each sound from the anchor, quiet, and
      apart from the target and from every other.  No index appears, so order cannot matter. */
  ghost predicate AllApart(m0: State, branches: seq<Branch>, log: seq<Line>) {
    && (forall b :: b in branches ==> Apart(m0, b, log) && multiset(branches)[b] == 1)
    && forall b, c :: b in branches && c in branches && b != c ==>
       b.name != c.name && WritesOf(b.lines) !! WritesOf(c.lines)
  }

  /** Path by path, where a merge of all branches must stand: a branch's state on the paths
      that branch writes, the start's everywhere else. */
  ghost predicate MergedAll(m0: State, branches: seq<Branch>, start: State, after: State) {
    && (forall b :: b in branches ==>
          && StateAfter(m0, b.lines).Some?
          && Agree(after, StateAfter(m0, b.lines).value, WritesOf(b.lines)))
    && forall p :: (forall b :: b in branches ==> p !in WritesOf(b.lines)) ==> SameAt(start, after, p)
  }

  lemma RestApart(m0: State, branches: seq<Branch>, log: seq<Line>, staged: seq<Landed>)
    requires branches != [] && AllApart(m0, branches, log)
    requires Quiet(log) && FromBranch(staged, branches[0].name, WritesOf(branches[0].lines))
    ensures Quiet(log + LinesOf(staged))
    ensures AllApart(m0, branches[1..], log + LinesOf(staged))
    ensures branches[0] !in branches[1..]
  {
    var rest := branches[1..];
    assert branches == [branches[0]] + rest;
    assert multiset(branches) == multiset{branches[0]} + multiset(rest);
    WritesAppend(log, LinesOf(staged));
    forall b | b in rest ensures Apart(m0, b, log + LinesOf(staged)) && multiset(rest)[b] == 1 {
      assert b in multiset(rest);
      assert b in branches && b != branches[0];
      assert Apart(m0, b, log);
    }
  }

  /** A union that completes hands its log and its pool to the ones after it. */
  lemma UnionAllStep(m0: State, branches: seq<Branch>, log: seq<Line>, author: string, clock: nat, pool: set<Text>,
                     o: Outcome)
    requires branches != [] && StateAfter(m0, branches[0].lines).Some? && StateAfter(m0, log).Some?
    requires UnionInto(m0, branches[0], log, author, clock, pool) == Ok(o) && o.Complete()
    ensures UnionAll(m0, branches, log, author, clock, pool)
         == UnionAll(m0, branches[1..], log + LinesOf(o.landed), author, clock,
                     PoolAfter(m0, branches[0], log, author, clock, pool))
  {
  }

  /** Every union in the sequence completes, and the result is the merge of all branches. */
  lemma {:induction false} DisjointUnionsComplete(m0: State, branches: seq<Branch>, log: seq<Line>, author: string,
                                                  clock: nat, pool: set<Text>)
    returns (final: seq<Line>)
    requires Keyed(m0) && Sound(m0, log) && Quiet(log) && AllApart(m0, branches, log)
    ensures UnionAll(m0, branches, log, author, clock, pool) == Some(final)
    ensures Sound(m0, final) && StateAfter(m0, final).Some? && StateAfter(m0, log).Some?
    ensures MergedAll(m0, branches, StateAfter(m0, log).value, StateAfter(m0, final).value)
  {
    SoundIsTallied(m0, log);
    if branches == [] {
      final := log;
    } else {
      var b, rest := branches[0], branches[1..];
      var staged := ApartUnion(m0, b, log, author, clock, pool);
      RestApart(m0, branches, log, staged);
      UnionAllStep(m0, branches, log, author, clock, pool, UnionInto(m0, b, log, author, clock, pool).value);
      final := DisjointUnionsComplete(m0, rest, log + LinesOf(staged), author, clock,
                                      PoolAfter(m0, b, log, author, clock, pool));
      MergedOneMore(m0, branches, log, StateAfter(m0, log).value, StateAfter(m0, log + LinesOf(staged)).value,
                    StateAfter(m0, final).value);
    }
  }

  lemma MergedOneMore(m0: State, branches: seq<Branch>, log: seq<Line>, start: State, mid: State, after: State)
    requires branches != [] && AllApart(m0, branches, log) && branches[0] !in branches[1..]
    requires StateAfter(m0, branches[0].lines).Some?
    requires Merged(start, StateAfter(m0, branches[0].lines).value, mid, WritesOf(branches[0].lines))
    requires MergedAll(m0, branches[1..], mid, after)
    ensures MergedAll(m0, branches, start, after)
  {
    var b, rest := branches[0], branches[1..];
    var paths := WritesOf(b.lines);
    assert forall c :: c in branches <==> c == b || c in rest;
    forall p | p in paths ensures SameAt(after, StateAfter(m0, b.lines).value, p) {
      assert forall c :: c in rest ==> p !in WritesOf(c.lines);
      assert SameAt(mid, after, p);
      assert SameAt(mid, StateAfter(m0, b.lines).value, p);
    }
    forall p | forall c :: c in branches ==> p !in WritesOf(c.lines) ensures SameAt(start, after, p) {
      assert p !in paths;
      assert forall c :: c in rest ==> p !in WritesOf(c.lines);
      assert SameAt(start, mid, p) && SameAt(mid, after, p);
    }
  }

  /** Union order does not matter: both orders complete and reach the same manifest. */
  lemma UnionOrderDoesNotMatter(m0: State, a: seq<Branch>, b: seq<Branch>, log: seq<Line>, author: string, clock: nat,
                                pool: set<Text>)
    requires Keyed(m0) && Sound(m0, log) && Quiet(log) && AllApart(m0, a, log)
    requires multiset(a) == multiset(b)
    ensures var x, y := UnionAll(m0, a, log, author, clock, pool), UnionAll(m0, b, log, author, clock, pool);
            && x.Some? && y.Some?
            && StateAfter(m0, x.value).Some? && StateAfter(m0, x.value) == StateAfter(m0, y.value)
  {
    assert forall c :: (c in a <==> c in multiset(a)) && (c in b <==> c in multiset(b));
    assert AllApart(m0, b, log);
    var x := DisjointUnionsComplete(m0, a, log, author, clock, pool);
    var y := DisjointUnionsComplete(m0, b, log, author, clock, pool);
    var s, t := StateAfter(m0, x).value, StateAfter(m0, y).value;
    var start := StateAfter(m0, log).value;
    forall p ensures SameAt(s, t, p) {
      if c :| c in a && p in WritesOf(c.lines) {
        assert c in b;
        assert SameAt(s, StateAfter(m0, c.lines).value, p);
        assert SameAt(t, StateAfter(m0, c.lines).value, p);
      } else {
        assert forall c :: c in b ==> p !in WritesOf(c.lines);
        assert SameAt(start, s, p) && SameAt(start, t, p);
      }
    }
    SameEverywhere(s, t);
  }

  ////////////////////////////////////////////// digests ////////////////////////////////////////////////

  /** What a log's realized arithmetic does to one record's coefficient. */
  function Digest(lines: seq<Line>, r: Record): int {
    if lines == [] then 0 else Digest(lines[..|lines| - 1], r) + Delta(lines[|lines| - 1].realized, r)
  }

  function Digests(branches: seq<Branch>, r: Record): int {
    if branches == [] then 0 else Digest(branches[0].lines, r) + Digests(branches[1..], r)
  }

  lemma DeltaElsewhere(realized: seq<Entry>, r: Record)
    requires r.path !in WritePaths(realized)
    ensures Delta(realized, r) == 0
  {
    if realized != [] {
      DeltaElsewhere(realized[..|realized| - 1], r);
      EntryPathsHold(realized[|realized| - 1]);
    }
  }

  lemma DigestElsewhere(lines: seq<Line>, r: Record)
    requires r.path !in WritesOf(lines)
    ensures Digest(lines, r) == 0
  {
    if lines != [] {
      DigestElsewhere(lines[..|lines| - 1], r);
      DeltaElsewhere(lines[|lines| - 1].realized, r);
    }
  }

  /** A sound history moves its base's sum by its digest. */
  lemma DigestIsSum(base: State, lines: seq<Line>, r: Record)
    requires Keyed(base) && Sound(base, lines)
    ensures StateAfter(base, lines).Some?
    ensures Coef(SumOf(StateAfter(base, lines).value), r) == Coef(SumOf(base), r) + Digest(lines, r)
  {
    if lines != [] {
      var n := |lines| - 1;
      DigestIsSum(base, lines[..n], r);
      SoundIsTallied(base, lines[..n]);
      ReplaySum(StateAfter(base, lines[..n]).value, lines[n].realized);
      CoefFold(SumOf(StateAfter(base, lines[..n]).value), lines[n].realized, r);
    }
  }

  lemma DigestsElsewhere(branches: seq<Branch>, r: Record)
    requires forall b :: b in branches ==> r.path !in WritesOf(b.lines)
    ensures Digests(branches, r) == 0
  {
    if branches != [] {
      DigestElsewhere(branches[0].lines, r);
      DigestsElsewhere(branches[1..], r);
    }
  }

  lemma DigestsOfOne(m0: State, branches: seq<Branch>, log: seq<Line>, b: Branch, r: Record)
    requires AllApart(m0, branches, log) && b in branches && r.path in WritesOf(b.lines)
    ensures Digests(branches, r) == Digest(b.lines, r)
  {
    var first, rest := branches[0], branches[1..];
    RestApart0(m0, branches, log);
    if b == first {
      DigestsElsewhere(rest, r);
    } else {
      DigestElsewhere(first.lines, r);
      DigestsOfOne(m0, rest, log, b, r);
    }
  }

  lemma RestApart0(m0: State, branches: seq<Branch>, log: seq<Line>)
    requires branches != [] && AllApart(m0, branches, log)
    ensures AllApart(m0, branches[1..], log) && branches[0] !in branches[1..]
  {
    var rest := branches[1..];
    assert branches == [branches[0]] + rest;
    assert multiset(branches) == multiset{branches[0]} + multiset(rest);
    forall b | b in rest ensures Apart(m0, b, log) && multiset(rest)[b] == 1 {
      assert b in multiset(rest);
      assert b in branches && b != branches[0];
    }
  }

  lemma SameCoef(s: State, t: State, r: Record)
    requires Keyed(s) && Keyed(t) && SameAt(s, t, r.path)
    ensures Coef(SumOf(s), r) == Coef(SumOf(t), r)
  {
    CoefSumOf(s, r);
    CoefSumOf(t, r);
  }

  /** The merged manifest's sum is the target's plus every branch's digest, though no union
      re-applied any branch's lines to the state they were written against. */
  lemma MergedSumIsDigests(m0: State, branches: seq<Branch>, log: seq<Line>, author: string, clock: nat,
                           pool: set<Text>, r: Record)
    requires Keyed(m0) && Sound(m0, log) && Quiet(log) && AllApart(m0, branches, log)
    ensures StateAfter(m0, log).Some?
    ensures var final := UnionAll(m0, branches, log, author, clock, pool);
            && final.Some? && StateAfter(m0, final.value).Some?
            && Coef(SumOf(StateAfter(m0, final.value).value), r)
               == Coef(SumOf(StateAfter(m0, log).value), r) + Digests(branches, r)
  {
    var final := DisjointUnionsComplete(m0, branches, log, author, clock, pool);
    var start, after := StateAfter(m0, log).value, StateAfter(m0, final).value;
    SoundIsTallied(m0, log);
    SoundIsTallied(m0, final);
    if b :| b in branches && r.path in WritesOf(b.lines) {
      DigestsOfOne(m0, branches, log, b, r);
      assert Apart(m0, b, log);
      DigestIsSum(m0, b.lines, r);
      SoundIsTallied(m0, b.lines);
      assert SameAt(after, StateAfter(m0, b.lines).value, r.path);
      SameCoef(after, StateAfter(m0, b.lines).value, r);
      HistoryFrame(m0, log);
      assert SameAt(m0, start, r.path);
      SameCoef(m0, start, r);
    } else {
      DigestsElsewhere(branches, r);
      SameCoef(start, after, r);
    }
  }
}
