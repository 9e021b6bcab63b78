/** Laws of union: repeating a complete one lands nothing, commuting lines swap, and disjoint
    work merges to one state in every order (src/union.rs). */
module UnionLaws {
  import opened Wrappers
  import opened Spans
  import opened Patch
  import opened Setsum
  import opened Tripwire
  import opened Logs
  import opened Repo
  import opened Unions

  ///////////////////////////////////////////// frames //////////////////////////////////////////////////

  predicate SameAt(s: State, t: State, p: Path) {
    (p in s <==> p in t) && (p in s ==> s[p] == t[p])
  }

  ghost predicate Agree(s: State, t: State, paths: set<Path>) {
    forall p :: p in paths ==> SameAt(s, t, p)
  }

  /** `t` differs from `s` only on `paths`. */
  ghost predicate Kept(s: State, t: State, paths: set<Path>) {
    forall p :: p !in paths ==> SameAt(s, t, p)
  }

  lemma SameEverywhere(s: State, t: State)
    requires forall p :: SameAt(s, t, p)
    ensures s == t
  {
    assert forall p :: p in s ==> SameAt(s, t, p);
    assert forall p :: p in t ==> SameAt(s, t, p);
  }

  lemma StepFrame(s: State, t: State, e: Entry, paths: set<Path>)
    requires EntryPaths(e) <= paths && Agree(s, t, paths)
    ensures Adjudicates(s, e) == Adjudicates(t, e)
    ensures Agree(Step(s, e), Step(t, e), paths) && Kept(s, Step(s, e), paths)
  {
    assert e.remove.Some? ==> SameAt(s, t, e.remove.value.path);
    assert e.add.Some? ==> SameAt(s, t, e.add.value.path);
  }

  /** A delta sees and changes only the paths it writes. */
  lemma {:induction false} ReplayFrame(s: State, t: State, realized: seq<Entry>, paths: set<Path>)
    requires WritePaths(realized) <= paths && Agree(s, t, paths)
    ensures Replay(s, realized).Some? == Replay(t, realized).Some?
    ensures Replay(s, realized).Some? ==>
              && Agree(Replay(s, realized).value, Replay(t, realized).value, paths)
              && Kept(s, Replay(s, realized).value, paths)
  {
    if realized != [] {
      var init := realized[..|realized| - 1];
      ReplayFrame(s, t, init, paths);
      if Replay(s, init).Some? {
        var s', t' := Replay(s, init).value, Replay(t, init).value;
        StepFrame(s', t', realized[|realized| - 1], paths);
        KeptTwice(s, s', Step(s', realized[|realized| - 1]), paths);
      }
    }
  }

  lemma KeptTwice(s: State, t: State, u: State, paths: set<Path>)
    requires Kept(s, t, paths) && Kept(t, u, paths)
    ensures Kept(s, u, paths)
  {
    forall p | p !in paths ensures SameAt(s, u, p) {
      assert SameAt(s, t, p) && SameAt(t, u, p);
    }
  }

  /** One after the other, where the first adjudicates: each result is visible on its own paths. */
  lemma ReplayBoth(s: State, a: seq<Entry>, b: seq<Entry>)
    requires WritePaths(a) !! WritePaths(b)
    ensures Replay(s, a + b).Some? <==> Replay(s, a).Some? && Replay(s, b).Some?
    ensures Replay(s, a + b).Some? ==>
              var t := Replay(s, a + b).value;
              && Agree(t, Replay(s, a).value, WritePaths(a)) && Agree(t, Replay(s, b).value, WritePaths(b))
              && Kept(s, t, WritePaths(a) + WritePaths(b))
  {
    ReplayAppend(s, a, b);
    if Replay(s, a).Some? {
      var t := Replay(s, a).value;
      ReplayFrame(s, s, a, WritePaths(a));
      assert Kept(s, t, WritePaths(a));
      assert Agree(t, s, WritePaths(b));
      ReplayFrame(t, s, b, WritePaths(b));
    }
  }

  /** Disjoint deltas commute, adjudication included. */
  lemma DisjointSwap(s: State, a: seq<Entry>, b: seq<Entry>)
    requires WritePaths(a) !! WritePaths(b)
    ensures Replay(s, a + b) == Replay(s, b + a)
  {
    ReplayBoth(s, a, b);
    ReplayBoth(s, b, a);
    if Replay(s, a + b).Some? {
      var t, u := Replay(s, a + b).value, Replay(s, b + a).value;
      forall p ensures SameAt(t, u, p) {
        if p in WritePaths(a) {
          assert SameAt(t, Replay(s, a).value, p) && SameAt(u, Replay(s, a).value, p);
        } else if p in WritePaths(b) {
          assert SameAt(t, Replay(s, b).value, p) && SameAt(u, Replay(s, b).value, p);
        } else {
          assert SameAt(s, t, p) && SameAt(s, u, p);
        }
      }
      SameEverywhere(t, u);
    }
  }

  /** What the certificate certifies: commuting lines reach the same state in either order,
      and neither makes a read of the other stale, whatever manifest they meet. */
  lemma CommutingLinesSwap(a: Line, b: Line, s: State, own: Option<State>, pool: set<Text>)
    requires Commutes(a, b)
    ensures Replay(s, a.realized + b.realized) == Replay(s, b.realized + a.realized)
    ensures Commutes(b, a)
    ensures Replay(s, a.realized).Some? ==>
              forall k :: 0 <= k < |b.note.observed.records| && b.note.observed.records[k].Scoped? ==>
                ReadIsStale(b.note.observed.records[k], own, Replay(s, a.realized).value, pool)
                == ReadIsStale(b.note.observed.records[k], own, s, pool)
  {
    DisjointSwap(s, a.realized, b.realized);
    var records := b.note.observed.records;
    if Replay(s, a.realized).Some? {
      var t := Replay(s, a.realized).value;
      ReplayFrame(s, s, a.realized, WritePaths(a.realized));
      forall k | 0 <= k < |records| && records[k].Scoped?
        ensures ReadIsStale(records[k], own, t, pool) == ReadIsStale(records[k], own, s, pool)
      {
        assert records[k].path in ReadPaths(b.note.observed).value;
        assert SameAt(s, t, records[k].path);
      }
    }
  }

  //////////////////////////////////////////// repetition ///////////////////////////////////////////////

  lemma CarriedAppend(a: seq<Line>, b: seq<Line>, source: string)
    ensures CarriedBy(a + b, source) == CarriedBy(a, source) + CarriedBy(b, source)
  {
    if b == [] {
      assert a + b == a;
    } else {
      assert (a + b)[..|a + b| - 1] == a + b[..|b| - 1];
      CarriedAppend(a, b[..|b| - 1], source);
    }
  }

  /** A source line is skipped, or some staged line names it as its origin. */
  predicate Settled(ctx: Context, line: Line, staged: seq<Landed>) {
    Skips(ctx, line) || Of(line) in CarriedBy(LinesOf(staged), ctx.source)
  }

  lemma LandCarries(ctx: Context, line: Line, st: Stage)
    requires LandLine(ctx, line, st).Ok?
    ensures var staged := LandLine(ctx, line, st).value.staged;
            && CarriedBy(LinesOf(st.staged), ctx.source) <= CarriedBy(LinesOf(staged), ctx.source)
            && Of(line) in CarriedBy(LinesOf(staged), ctx.source)
  {
    var landed := LandLine(ctx, line, st).value.staged[|st.staged|];
    LinesAppend(st.staged, landed);
    CarriedAppend(LinesOf(st.staged), [landed.line], ctx.source);
    CarriedLast(landed.line, ctx.source);
  }

  lemma {:induction false} LandedIsCarried(ctx: Context, lines: seq<Line>, st: Stage, after: Stage, i: nat)
    requires i < |lines| && LandAll(ctx, lines, st) == Ok(after)
    ensures Settled(ctx, lines[i], after.staged)
  {
    var before := LandAllSettles(ctx, lines, st, after, lines[i]);
    if i < |lines| - 1 { LandedIsCarried(ctx, lines[..|lines| - 1], st, before, i); }
  }

  lemma LandKeepsSettled(ctx: Context, line: Line, st: Stage, after: Stage, other: Line)
    requires LandLine(ctx, line, st) == Ok(after)
    ensures Settled(ctx, line, after.staged)
    ensures Settled(ctx, other, st.staged) ==> Settled(ctx, other, after.staged)
  {
    LandCarries(ctx, line, st);
  }

  /** The last line is settled, and what was settled stays so. */
  lemma LandAllSettles(ctx: Context, lines: seq<Line>, st: Stage, after: Stage, other: Line) returns (before: Stage)
    requires lines != [] && LandAll(ctx, lines, st) == Ok(after)
    ensures LandAll(ctx, lines[..|lines| - 1], st) == Ok(before)
    ensures Settled(ctx, lines[|lines| - 1], after.staged)
    ensures Settled(ctx, other, before.staged) ==> Settled(ctx, other, after.staged)
  {
    before := LandAll(ctx, lines[..|lines| - 1], st).value;
    if !Skips(ctx, lines[|lines| - 1]) { LandKeepsSettled(ctx, lines[|lines| - 1], before, after, other); }
  }

  lemma CarriedLast(line: Line, source: string)
    ensures FromFork(line, source) ==> line.note.origin.value.id in CarriedBy([line], source)
  {
    assert [line][..0] == [];
  }

  /** Where the sums already agree only fuses travel, and a fuse moves no sum. */
  lemma IdenticalMovesNothing(ctx: Context, lines: seq<Line>, st: Stage)
    requires ctx.identical && LandAll(ctx, lines, st).Ok?
    ensures LandAll(ctx, lines, st).value.sum == st.sum
  {
    if lines != [] {
      IdenticalMovesNothing(ctx, lines[..|lines| - 1], st);
    }
  }

  lemma AllSkipped(ctx: Context, lines: seq<Line>, st: Stage)
    requires forall i :: 0 <= i < |lines| ==> Skips(ctx, lines[i])
    ensures LandAll(ctx, lines, st) == Ok(st)
  {
    if lines != [] { AllSkipped(ctx, lines[..|lines| - 1], st); }
  }

  lemma NothingStranded(lines: seq<Line>, before: State, after: State, pool: set<Text>)
    ensures AllStranded(lines, map[], before, after, pool) == {}
  {
    if lines != [] { NothingStranded(lines[..|lines| - 1], before, after, pool); }
  }

  /** The target after a union landed `outcome`. */
  function After(base: State, target: ForkState, outcome: Outcome): ForkState
    requires StateAfter(base, target.lines + LinesOf(outcome.landed)).Some?
  {
    HeadState(base, target.lines + LinesOf(outcome.landed))
  }

  function HeadState(base: State, lines: seq<Line>): ForkState
    requires StateAfter(base, lines).Some?
  {
    var m := StateAfter(base, lines).value;
    ForkState(m, SumOf(m), HeadId(lines), lines)
  }

  lemma SettledIsSkipped(ctx: Context, ctx': Context, line: Line, log: seq<Line>, staged: seq<Landed>)
    requires Settled(ctx, line, staged) && ctx.source == ctx'.source
    requires ctx.carried == CarriedBy(log, ctx.source) && ctx'.carried == CarriedBy(log + LinesOf(staged), ctx.source)
    requires ctx.identical ==> ctx'.identical
    ensures Skips(ctx', line)
  {
    CarriedAppend(log, LinesOf(staged), ctx.source);
  }

  /** A union none of whose lines lands reports nothing. */
  lemma IdleMerge(ctx: Context, from: ForkState, target: ForkState, pool: set<Text>)
    requires forall i :: 0 <= i < |from.lines| ==> Skips(ctx, from.lines[i])
    ensures Merge(ctx, from, target, pool) == Ok(Outcome(ctx.identical, [], None, {}))
  {
    AllSkipped(ctx, from.lines, StartStage(ctx.source, target, pool));
    NothingStranded(ctx.concurrent, target.manifest, target.manifest, pool);
  }

  /** What a complete union lands leaves every source line settled, in the same state the
      arithmetic claims. */
  lemma CompleteSettles(base: State, target: ForkState, from: ForkState, ctx: Context, pool: set<Text>)
    requires Keyed(base) && Sound(base, target.lines) && StateAfter(base, target.lines).Some?
    requires target == HeadState(base, target.lines)
    requires Merge(ctx, from, target, pool).Ok? && Merge(ctx, from, target, pool).value.Complete()
    ensures var landed := Merge(ctx, from, target, pool).value.landed;
            && StateAfter(base, target.lines + LinesOf(landed)).Some?
            && (forall i :: 0 <= i < |from.lines| ==> Settled(ctx, from.lines[i], landed))
            && (ctx.identical ==> SumOf(StateAfter(base, target.lines + LinesOf(landed)).value) == target.sum)
  {
    var start := StartStage(ctx.source, target, pool);
    SoundIsTallied(base, target.lines);
    StartStaged(base, target, ctx.source, pool);
    LandAllStaged(base, target.lines, ctx, from.lines, start);
    forall i | 0 <= i < |from.lines| ensures Settled(ctx, from.lines[i], LandAll(ctx, from.lines, start).value.staged) {
      LandedIsCarried(ctx, from.lines, start, LandAll(ctx, from.lines, start).value, i);
    }
    if ctx.identical { IdenticalMovesNothing(ctx, from.lines, start); }
  }

  /** Repeating a complete union at once lands no line and is complete again. */
  lemma RepeatLandsNothing(base: State, target: ForkState, from: ForkState, anchor: Sum, source: string,
                           author: string, clock: nat, pool: set<Text>, author': string, clock': nat, pool': set<Text>)
    requires Keyed(base) && Sound(base, target.lines) && StateAfter(base, target.lines).Some?
    requires target == HeadState(base, target.lines)
    requires var r := Merge(ContextOf(source, author, clock, from, anchor, target), from, target, pool);
             r.Ok? && r.value.Complete()
    ensures var r := Merge(ContextOf(source, author, clock, from, anchor, target), from, target, pool);
            && StateAfter(base, target.lines + LinesOf(r.value.landed)).Some?
            && var again := After(base, target, r.value);
               var ctx := ContextOf(source, author', clock', from, anchor, again);
               Merge(ctx, from, again, pool') == Ok(Outcome(ctx.identical, [], None, {}))
  {
    var ctx := ContextOf(source, author, clock, from, anchor, target);
    CompleteSettles(base, target, from, ctx, pool);
    var outcome := Merge(ctx, from, target, pool).value;
    var again := After(base, target, outcome);
    var ctx' := ContextOf(source, author', clock', from, anchor, again);
    forall i | 0 <= i < |from.lines| ensures Skips(ctx', from.lines[i]) {
      SettledIsSkipped(ctx, ctx', from.lines[i], target.lines, outcome.landed);
    }
    IdleMerge(ctx', from, again, pool');
  }

  ////////////////////////////////////////// reads that stand ///////////////////////////////////////////

  lemma ConflictsGrow(ctx: Context, lines: seq<Line>, st: Stage, k: nat)
    requires k <= |lines| && LandAll(ctx, lines, st).Ok?
    ensures LandAll(ctx, lines[..k], st).Ok?
    ensures LandAll(ctx, lines[..k], st).value.conflicts <= LandAll(ctx, lines, st).value.conflicts
  {
    if k < |lines| {
      ConflictsGrow(ctx, lines[..|lines| - 1], st, k);
      assert lines[..|lines| - 1][..k] == lines[..k];
    } else {
      assert lines[..k] == lines;
    }
  }

  /** Every read of a landed line stands: where a concurrent target line wrote its path, the
      read was not stale against the state the line landed on. */
  lemma LandedReadsStand(ctx: Context, from: ForkState, target: ForkState, pool: set<Text>, i: nat, j: nat, k: nat)
    requires Merge(ctx, from, target, pool).Ok? && Merge(ctx, from, target, pool).value.Complete()
    requires i < |from.lines| && !Skips(ctx, from.lines[i]) && j < |ctx.concurrent|
    requires from.lines[i].note.observed.Observed? && k < |from.lines[i].note.observed.records|
    requires WritePaths(ctx.concurrent[j].realized) != {}
    ensures LandAll(ctx, from.lines[..i], StartStage(ctx.source, target, pool)).Ok?
    ensures LandAll(ctx, from.lines[..i + 1], StartStage(ctx.source, target, pool)).Ok?
    ensures var start := StartStage(ctx.source, target, pool);
            var before, after := LandAll(ctx, from.lines[..i], start).value,
              LandAll(ctx, from.lines[..i + 1], start).value;
            var read := from.lines[i].note.observed.records[k];
            && read.Scoped?
            && (read.path in WritePaths(ctx.concurrent[j].realized) ==>
                !ReadIsStale(read, None, before.scratch, after.pool))
  {
    var start := StartStage(ctx.source, target, pool);
    ConflictsGrow(ctx, from.lines, start, i + 1);
    ConflictsGrow(ctx, from.lines[..i + 1], start, i);
    assert from.lines[..i + 1][..i] == from.lines[..i];
    var before, after := LandAll(ctx, from.lines[..i], start).value, LandAll(ctx, from.lines[..i + 1], start).value;
    NoStaleConflict(ctx, from.lines[i], before.scratch, after.pool, j);
    StaleReadIsListed(from.lines[i], WritePaths(ctx.concurrent[j].realized), before.scratch, after.pool, k);
  }

  lemma NoStaleConflict(ctx: Context, line: Line, target: State, pool: set<Text>, j: nat)
    requires j < |ctx.concurrent| && StaleConflicts(ctx, line, target, pool) == {}
    ensures StaleReads(line, WritePaths(ctx.concurrent[j].realized), target, pool) == {}
  {
    var writes := WritePaths(ctx.concurrent[j].realized);
    var c := Conflict(Of(line), Of(ctx.concurrent[j]), StaleReads(line, writes, target, pool), IncomingReadStale);
    assert StaleReads(line, writes, target, pool) != {} ==> c in StaleConflicts(ctx, line, target, pool);
  }

  lemma StaleReadIsListed(line: Line, writes: set<Path>, target: State, pool: set<Text>, k: nat)
    requires line.note.observed.Observed? && k < |line.note.observed.records|
    requires writes != {}
    ensures var read := line.note.observed.records[k];
            read.Everywhere? || (read.path in writes && ReadIsStale(read, None, target, pool)) ==>
              StaleReads(line, writes, target, pool) != {}
  {
    var records := line.note.observed.records;
    var read := records[k];
    assert read in records;
    if Everywhere !in records {
      if read.path in writes && ReadIsStale(read, None, target, pool) {
        assert read.path in StaleReads(line, writes, target, pool);
      }
    }
  }

  /** What the union wrote strands none of the reads the target's own concurrent lines made. */
  lemma TargetReadsStand(lines: seq<Line>, writers: map<Path, Id>, before: State, after: State, pool: set<Text>, j: nat,
                         k: nat)
    requires AllStranded(lines, writers, before, after, pool) == {} && j < |lines|
    requires lines[j].note.observed.Observed? && k < |lines[j].note.observed.records|
    requires writers != map[]
    ensures var read := lines[j].note.observed.records[k];
            read.Scoped? && (read.path in writers ==> !ReadIsStale(read, Some(before), after, pool))
  {
    if j < |lines| - 1 {
      TargetReadsStand(lines[..|lines| - 1], writers, before, after, pool, j, k);
    } else {
      var records := lines[j].note.observed.records;
      assert records[k] in records;
      var p :| p in writers;
      NotStranded(lines[j], writers, before, after, pool, p);
      assert records[k].Scoped?;
      if records[k].path in writers { NotStranded(lines[j], writers, before, after, pool, records[k].path); }
    }
  }

  lemma NotStranded(line: Line, writers: map<Path, Id>, before: State, after: State, pool: set<Text>, p: Path)
    requires p in writers && StrandedConflicts(line, writers, before, after, pool) == {}
    ensures !Strands(line, p, before, after, pool)
  {
    if Strands(line, p, before, after, pool) { StrandingIsListed(line, writers, before, after, pool, p); }
  }

  lemma StrandingIsListed(line: Line, writers: map<Path, Id>, before: State, after: State, pool: set<Text>, p: Path)
    requires p in writers && Strands(line, p, before, after, pool)
    ensures StrandedConflicts(line, writers, before, after, pool) != {}
  {
    var stranded := set q | q in writers && Strands(line, q, before, after, pool);
    assert p in stranded;
    assert Conflict(writers[p], Of(line), (set q | q in stranded && writers[q] == writers[p]),
                    IncomingWriteHitsTargetRead)
           in StrandedConflicts(line, writers, before, after, pool);
  }
}
