/** Union (src/union.rs): a source's lines land on a target all together or not at all, each by the
    gentlest stratum that adjudicates. */
module Unions {
  import opened Wrappers
  import opened Spans
  import opened Patch
  import opened Setsum
  import opened Tripwire
  import opened Logs
  import opened Strata
  import opened Reenact
  import opened Repo

  datatype Stratum = RealizedReplay | IntentReplay

  datatype Landed = Landed(line: Line, origin: Id, stratum: Stratum)

  datatype Direction = IncomingReadStale | IncomingWriteHitsTargetRead

  datatype Conflict = Conflict(source: Id, target: Id, paths: set<Path>, direction: Direction)

  datatype Outcome = Outcome(alreadyIdentical: bool, landed: seq<Landed>, needsReenactment: Option<Id>,
                             conflicts: set<Conflict>)
  {
    predicate Complete() {
      needsReenactment.None? && conflicts == {}
    }
  }

  ///////////////////////////////////////// writes and reads ////////////////////////////////////////////

  function EntryPaths(e: Entry): set<Path> {
    (if e.remove.Some? then {e.remove.value.path} else {}) + (if e.add.Some? then {e.add.value.path} else {})
  }

  /** The paths a realized delta touches. */
  function WritePaths(realized: seq<Entry>): set<Path> {
    if realized == [] then {} else WritePaths(realized[..|realized| - 1]) + EntryPaths(realized[|realized| - 1])
  }

  /** The paths an observed read set covers; `None` when it is unobserved or unbounded. */
  function ReadPaths(observed: Reads): Option<set<Path>> {
    match observed
    case Unobserved => None
    case Spilled => None
    case Observed(records) =>
      if Everywhere in records then None
      else Some(set k | 0 <= k < |records| && records[k].Scoped? :: records[k].path)
  }

  /** Two lines commute when neither writes what the other read or wrote. */
  predicate Commutes(a: Line, b: Line) {
    var wa, wb := WritePaths(a.realized), WritePaths(b.realized);
    var ra, rb := ReadPaths(a.note.observed), ReadPaths(b.note.observed);
    wa !! wb && ra.Some? && rb.Some? && wa !! rb.value && wb !! ra.value
  }

  /** The paths of a line's reads that concurrent writes made stale. */
  function StaleReads(line: Line, writes: set<Path>, target: State, pool: set<Text>): set<Path> {
    if writes == {} then {}
    else match line.note.observed
      case Unobserved => {}
      case Spilled => writes
      case Observed(records) =>
        if Everywhere in records then writes
        else set k | 0 <= k < |records| && records[k].Scoped? && records[k].path in writes
                     && ReadIsStale(records[k], None, target, pool) :: records[k].path
  }

  /** Whether landing a write of `p` strands one of the target line's reads. */
  predicate Strands(line: Line, p: Path, before: State, after: State, pool: set<Text>) {
    match line.note.observed
    case Unobserved => false
    case Spilled => true
    case Observed(records) =>
      || Everywhere in records
      || exists k :: 0 <= k < |records| && records[k].Scoped? && records[k].path == p
                     && ReadIsStale(records[k], Some(before), after, pool)
  }

  /** One conflict for each source line that strands a read of this target line. */
  function StrandedConflicts(line: Line, writers: map<Path, Id>, before: State, after: State,
                             pool: set<Text>): set<Conflict>
  {
    var stranded := set p | p in writers && Strands(line, p, before, after, pool);
    set p | p in stranded ::
      Conflict(writers[p], Of(line), (set q | q in stranded && writers[q] == writers[p]), IncomingWriteHitsTargetRead)
  }

  function AllStranded(lines: seq<Line>, writers: map<Path, Id>, before: State, after: State,
                       pool: set<Text>): set<Conflict>
  {
    if lines == [] then {}
    else AllStranded(lines[..|lines| - 1], writers, before, after, pool)
         + StrandedConflicts(lines[|lines| - 1], writers, before, after, pool)
  }

  /////////////////////////////////////////// the merge /////////////////////////////////////////////////

  /** What the target already carries: its own lines, and the source lines they re-enact. */
  function CarriedBy(lines: seq<Line>, source: string): set<Id> {
    if lines == [] then {}
    else
      var last := lines[|lines| - 1];
      CarriedBy(lines[..|lines| - 1], source) + {Of(last)}
      + if FromFork(last, source) then {last.note.origin.value.id} else {}
  }

  predicate FromFork(line: Line, source: string) {
    line.note.origin.Some? && line.note.origin.value.fork == source
  }

  function Rekeys(lines: seq<Line>, source: string): map<Id, Id> {
    if lines == [] then map[]
    else
      var last, before := lines[|lines| - 1], Rekeys(lines[..|lines| - 1], source);
      if FromFork(last, source) then before[last.note.origin.value.id := Of(last)] else before
  }

  function Rekeyed(id: Id, rekey: map<Id, Id>): Id {
    if id in rekey then rekey[id] else id
  }

  /** What stays fixed while the source's lines are replayed. */
  datatype Context = Context(source: string, author: string, clock: nat, carried: set<Id>, identical: bool,
                             concurrent: seq<Line>)

  /** The in-memory replay state; nothing of it is durable. */
  datatype Stage = Stage(scratch: State, sum: Sum, prev: Id, staged: seq<Landed>, rekey: map<Id, Id>,
                         writers: map<Path, Id>, conflicts: set<Conflict>, pool: set<Text>)

  /** Why a merge stops: a line only re-enactment could land, or a fault. */
  datatype Halt = Gate(line: Id) | Fault(error: Error)

  datatype Move = Move(realized: seq<Entry>, stratum: Stratum, state: State, blobs: set<Text>)

  /** Stratum 2 where the realized delta adjudicates, else stratum 3. */
  function Realize(line: Line, scratch: State, pool: set<Text>): Result<Move, Halt> {
    match Replay(scratch, line.realized)
    case Some(s) => Ok(Move(line.realized, RealizedReplay, s, {}))
    case None =>
      match RunOps(line.intent, scratch, pool)
      case Ok(run) => Ok(Move(run.realized, IntentReplay, run.state, run.blobs))
      case Err(e) => Err(if e == Precondition then Gate(Of(line)) else Fault(e))
  }

  /** The landed line's annotation: union provenance, its origin, its fuse span re-keyed. */
  function Carry(ctx: Context, line: Line, rekey: map<Id, Id>): Note {
    line.note.(author := ctx.author, provenance := Provenance.Union, reason := None, sig := None,
               origin := Some(Origin(ctx.source, Of(line))),
               fuse := match line.note.fuse
                       case None => None
                       case Some(f) => Some(Fuse(f.name, Rekeyed(f.from, rekey), Rekeyed(f.to, rekey))))
  }

  function StaleConflicts(ctx: Context, line: Line, target: State, pool: set<Text>): set<Conflict> {
    set k | 0 <= k < |ctx.concurrent| && StaleReads(line, WritePaths(ctx.concurrent[k].realized), target, pool) != {} ::
      Conflict(Of(line), Of(ctx.concurrent[k]), StaleReads(line, WritePaths(ctx.concurrent[k].realized), target, pool),
               IncomingReadStale)
  }

  function Wrote(writers: map<Path, Id>, paths: set<Path>, id: Id): map<Path, Id> {
    map p | p in writers.Keys + paths :: if p in paths then id else writers[p]
  }

  function LandLine(ctx: Context, line: Line, st: Stage): Result<Stage, Halt> {
    match Realize(line, st.scratch, st.pool)
    case Err(h) => Err(h)
    case Ok(m) =>
      var pool := st.pool + m.blobs;
      var sum := FoldSum(st.sum, m.realized);
      match Seal(Line(st.prev, line.intent, m.realized, sum, 0, Carry(ctx, line, st.rekey)), ctx.clock)
      case Err(e) => Err(Fault(e))
      case Ok(landed) =>
        Ok(Stage(m.state, sum, Of(landed), st.staged + [Landed(landed, Of(line), m.stratum)],
                 st.rekey[Of(line) := Of(landed)], Wrote(st.writers, WritePaths(m.realized), Of(line)),
                 st.conflicts + StaleConflicts(ctx, line, st.scratch, pool), pool))
  }

  /** Lines the target carries do not land; nor, where the sums agree, does anything but a fuse. */
  predicate Skips(ctx: Context, line: Line) {
    Of(line) in ctx.carried || (ctx.identical && line.note.fuse.None?)
  }

  function LandAll(ctx: Context, lines: seq<Line>, st: Stage): Result<Stage, Halt> {
    if lines == [] then Ok(st)
    else
      match LandAll(ctx, lines[..|lines| - 1], st)
      case Err(h) => Err(h)
      case Ok(now) => if Skips(ctx, lines[|lines| - 1]) then Ok(now) else LandLine(ctx, lines[|lines| - 1], now)
  }

  function LinesOf(staged: seq<Landed>): seq<Line> {
    seq(|staged|, k requires 0 <= k < |staged| => staged[k].line)
  }

  function ContextOf(source: string, author: string, clock: nat, from: ForkState, anchor: Sum,
                     target: ForkState): Context
  {
    Context(source, author, clock, CarriedBy(target.lines, source), from.sum == target.sum,
            target.lines[StartOf(target.lines, anchor)..])
  }

  function StartStage(source: string, target: ForkState, pool: set<Text>): Stage {
    Stage(target.manifest, target.sum, target.headId, [], Rekeys(target.lines, source), map[], {}, pool)
  }

  /** The whole decision: what a union of `from` into `target` reports and would land. */
  function Merge(ctx: Context, from: ForkState, target: ForkState, pool: set<Text>): Result<Outcome, Error> {
    match LandAll(ctx, from.lines, StartStage(ctx.source, target, pool))
    case Err(Gate(id)) => Ok(Outcome(ctx.identical, [], Some(id), {}))
    case Err(Fault(e)) => Err(e)
    case Ok(st) =>
      var conflicts := st.conflicts + AllStranded(ctx.concurrent, st.writers, target.manifest, st.scratch, st.pool);
      Ok(Outcome(ctx.identical, if conflicts == {} then st.staged else [], None, conflicts))
  }

  lemma LandAllStops(ctx: Context, lines: seq<Line>, st: Stage, k: nat)
    requires k <= |lines| && LandAll(ctx, lines[..k], st).Err?
    ensures LandAll(ctx, lines, st) == LandAll(ctx, lines[..k], st)
  {
    if k < |lines| {
      assert lines[..|lines| - 1][..k] == lines[..k];
      LandAllStops(ctx, lines[..|lines| - 1], st, k);
    } else {
      assert lines[..k] == lines;
    }
  }

  ////////////////////////////////////////// all or nothing /////////////////////////////////////////////

  /** What is staged is, at every line, a sound continuation of the target's history. */
  ghost predicate Staged(base: State, log: seq<Line>, st: Stage) {
    && Keyed(st.scratch) && st.sum == SumOf(st.scratch)
    && Sound(base, log + LinesOf(st.staged))
    && StateAfter(base, log + LinesOf(st.staged)) == Some(st.scratch)
    && st.prev == HeadId(log + LinesOf(st.staged))
  }

  lemma RealizeReplays(line: Line, scratch: State, pool: set<Text>)
    requires Keyed(scratch) && Realize(line, scratch, pool).Ok?
    ensures var m := Realize(line, scratch, pool).value;
            Replay(scratch, m.realized) == Some(m.state) && Keyed(m.state)
  {
    if Replay(scratch, line.realized).Some? { ReplaySum(scratch, line.realized); }
    else { IntentRealizes(line.intent, scratch, pool); }
  }

  lemma LinesAppend(staged: seq<Landed>, l: Landed)
    ensures LinesOf(staged + [l]) == LinesOf(staged) + [l.line]
  {
  }

  lemma LandStaged(base: State, log: seq<Line>, ctx: Context, line: Line, st: Stage)
    requires Keyed(base) && Staged(base, log, st) && LandLine(ctx, line, st).Ok?
    ensures Staged(base, log, LandLine(ctx, line, st).value)
  {
    RealizeReplays(line, st.scratch, st.pool);
    var now := LandLine(ctx, line, st).value;
    var landed := now.staged[|st.staged|];
    LinesAppend(st.staged, landed);
    SoundStep(base, log + LinesOf(st.staged), st.scratch, landed.line);
    assert log + (LinesOf(st.staged) + [landed.line]) == log + LinesOf(st.staged) + [landed.line];
  }

  /** The batch a merge stages chains from the target's head, and its arithmetic matches the
      replayed manifest at every line. */
  lemma {:induction false} LandAllStaged(base: State, log: seq<Line>, ctx: Context, lines: seq<Line>, st: Stage)
    requires Keyed(base) && Staged(base, log, st) && LandAll(ctx, lines, st).Ok?
    ensures Staged(base, log, LandAll(ctx, lines, st).value)
  {
    if lines != [] {
      var init, last := lines[..|lines| - 1], lines[|lines| - 1];
      LandAllStaged(base, log, ctx, init, st);
      if !Skips(ctx, last) { LandStaged(base, log, ctx, last, LandAll(ctx, init, st).value); }
    }
  }

  lemma StartStaged(base: State, target: ForkState, source: string, pool: set<Text>)
    requires Keyed(target.manifest) && Sound(base, target.lines)
    requires StateAfter(base, target.lines) == Some(target.manifest)
    requires target.sum == SumOf(target.manifest) && target.headId == HeadId(target.lines)
    ensures Staged(base, target.lines, StartStage(source, target, pool))
  {
    assert target.lines + LinesOf([]) == target.lines;
  }

  /** What a union lands keeps the target's history sound; an incomplete union lands nothing. */
  lemma MergeIsSound(base: State, ctx: Context, from: ForkState, target: ForkState, pool: set<Text>)
    requires Keyed(base) && Keyed(target.manifest) && Sound(base, target.lines)
    requires StateAfter(base, target.lines) == Some(target.manifest)
    requires target.sum == SumOf(target.manifest) && target.headId == HeadId(target.lines)
    requires Merge(ctx, from, target, pool).Ok?
    ensures var outcome := Merge(ctx, from, target, pool).value;
            && Sound(base, target.lines + LinesOf(outcome.landed))
            && (outcome.landed != [] ==> outcome.Complete())
  {
    StartStaged(base, target, ctx.source, pool);
    var start := StartStage(ctx.source, target, pool);
    if LandAll(ctx, from.lines, start).Ok? { LandAllStaged(base, target.lines, ctx, from.lines, start); }
    assert target.lines + LinesOf([]) == target.lines;
  }

  /** What a union would land extends the target's log soundly. */
  lemma MergeExtends(repo: Repository, ctx: Context, from: ForkState, target: string)
    requires repo.Valid() && target in repo.forks && Merge(ctx, from, repo.StateOf(target), repo.pool).Ok?
    ensures Sound(repo.bases[target],
                  repo.forks[target].log + LinesOf(Merge(ctx, from, repo.StateOf(target), repo.pool).value.landed))
  {
    SoundForkLoads(repo.anchors, repo.forks[target], repo.bases[target]);
    MergeIsSound(repo.bases[target], ctx, from, repo.StateOf(target), repo.pool);
  }

  /** A landed line re-enacts: by the shortcut its delta is the one it came with, else the one its
      intent has just realized. */
  lemma LandReenacts(ctx: Context, line: Line, st: Stage, now: Stage)
    requires Keyed(st.scratch) && LandLine(ctx, line, st) == Ok(now)
    requires Reenacts(line.intent, line.realized, st.pool) && AllReenact(LinesOf(st.staged), st.pool)
    ensures AllReenact(LinesOf(now.staged), now.pool) && st.pool <= now.pool
  {
    var landed := now.staged[|st.staged|].line;
    LinesAppend(st.staged, now.staged[|st.staged|]);
    if Replay(st.scratch, line.realized).None? {
      RanReenacts(line.intent, st.scratch, st.pool);
    } else {
      MorePool(line.intent, line.realized, st.pool, now.pool);
    }
    OneMoreLine(LinesOf(st.staged), landed, st.pool, now.pool);
  }

  lemma {:induction false} LandAllReenacts(base: State, log: seq<Line>, ctx: Context, lines: seq<Line>, st: Stage,
                                           now: Stage)
    requires Keyed(base) && Staged(base, log, st) && LandAll(ctx, lines, st) == Ok(now)
    requires AllReenact(lines, st.pool) && AllReenact(LinesOf(st.staged), st.pool)
    ensures AllReenact(LinesOf(now.staged), now.pool) && st.pool <= now.pool
  {
    if lines != [] {
      var init, last := lines[..|lines| - 1], lines[|lines| - 1];
      var before := LandAll(ctx, init, st).value;
      assert last in lines;
      LandAllReenacts(base, log, ctx, init, st, before);
      LandAllStaged(base, log, ctx, init, st);
      if !Skips(ctx, last) {
        MorePool(last.intent, last.realized, st.pool, before.pool);
        LandReenacts(ctx, last, before, now);
      }
    }
  }

  /** What a union lands re-enacts, where the source's lines do. */
  lemma MergeReenacts(repo: Repository, ctx: Context, from: ForkState, target: string, written: set<Text>)
    requires repo.Valid() && target in repo.forks && Merge(ctx, from, repo.StateOf(target), repo.pool).Ok?
    requires AllReenact(from.lines, repo.pool)
    requires var landing := LandAll(ctx, from.lines, StartStage(ctx.source, repo.StateOf(target), repo.pool));
             landing.Ok? ==> written == landing.value.pool
    ensures AllReenact(LinesOf(Merge(ctx, from, repo.StateOf(target), repo.pool).value.landed), written)
  {
    var into := repo.StateOf(target);
    var start := StartStage(ctx.source, into, repo.pool);
    if LandAll(ctx, from.lines, start).Ok? {
      SoundForkLoads(repo.anchors, repo.forks[target], repo.bases[target]);
      StartStaged(repo.bases[target], into, ctx.source, repo.pool);
      LandAllReenacts(repo.bases[target], into.lines, ctx, from.lines, start, LandAll(ctx, from.lines, start).value);
    }
  }

  /** Replay the source's lines in memory; only re-realized blobs are written on the way. */
  method ReplaySource(ctx: Context, from: ForkState, target: ForkState, pool: set<Text>)
    returns (r: Result<Outcome, Error>, written: set<Text>)
    ensures r == Merge(ctx, from, target, pool) && pool <= written
    ensures var landing := LandAll(ctx, from.lines, StartStage(ctx.source, target, pool));
            landing.Ok? ==> written == landing.value.pool
  {
    var start := StartStage(ctx.source, target, pool);
    var stage := start;
    for i := 0 to |from.lines|
      invariant LandAll(ctx, from.lines[..i], start) == Ok(stage)
      invariant pool <= stage.pool
    {
      assert from.lines[..i + 1][..i] == from.lines[..i];
      if !Skips(ctx, from.lines[i]) {
        var landing := LandLine(ctx, from.lines[i], stage);
        match landing {
          case Err(Gate(id)) =>
            LandAllStops(ctx, from.lines, start, i + 1);
            return Ok(Outcome(ctx.identical, [], Some(id), {})), stage.pool;
          case Err(Fault(e)) =>
            LandAllStops(ctx, from.lines, start, i + 1);
            return Err(e), stage.pool;
          case Ok(now) => stage := now;
        }
      }
    }
    assert from.lines[..|from.lines|] == from.lines;
    var conflicts := stage.conflicts + AllStranded(ctx.concurrent, stage.writers, target.manifest, stage.scratch,
                                                   stage.pool);
    r, written := Ok(Outcome(ctx.identical, if conflicts == {} then stage.staged else [], None, conflicts)), stage.pool;
  }

  /** What a union decides, of two forks the repository holds. */
  ghost function Decided(repo: Repository, source: string, target: string, author: string,
                         clock: nat): Result<Outcome, Error>
    reads repo
    requires repo.Valid() && source in repo.forks && target in repo.forks
  {
    var from, into := repo.StateOf(source), repo.StateOf(target);
    Merge(ContextOf(source, author, clock, from, repo.forks[source].anchor, into), from, into, repo.pool)
  }

  /** The in-memory half: nothing is written but re-realized blobs. */
  method Validate(repo: Repository, source: string, target: string, author: string, clock: nat)
    returns (r: Result<Outcome, Error>)
    requires repo.Valid()
    modifies repo`pool
    ensures repo.Valid() && old(repo.pool) <= repo.pool
    ensures source !in repo.forks || target !in repo.forks ==> r == Err(Invalid)
    ensures source in repo.forks && target in repo.forks ==> r == old(Decided(repo, source, target, author, clock))
    ensures r.Ok? ==>
        && target in repo.forks
        && Sound(repo.bases[target], repo.forks[target].log + LinesOf(r.value.landed))
    ensures old(repo.Reenacting()) ==> repo.Reenacting() && (r.Ok? ==> AllReenact(LinesOf(r.value.landed), repo.pool))
  {
    var loaded := repo.CurrentState(source);
    if loaded.Err? { return Err(Invalid); }
    var from := loaded.value;
    loaded := repo.CurrentState(target);
    if loaded.Err? { return Err(Invalid); }
    var into := loaded.value;
    r := ReplayInto(repo, target, ContextOf(source, author, clock, from, repo.forks[source].anchor, into), from, into);
  }

  /** Replay the source's lines on the target's head, keeping the blobs they write. */
  method ReplayInto(repo: Repository, target: string, ctx: Context, from: ForkState, into: ForkState)
    returns (r: Result<Outcome, Error>)
    requires repo.Valid() && target in repo.forks && into == repo.StateOf(target)
    modifies repo`pool
    ensures repo.Valid() && old(repo.pool) <= repo.pool
    ensures r == Merge(ctx, from, into, old(repo.pool))
    ensures r.Ok? ==> Sound(repo.bases[target], repo.forks[target].log + LinesOf(r.value.landed))
    ensures old(repo.Reenacting()) ==> repo.Reenacting()
    ensures old(repo.Reenacting()) && AllReenact(from.lines, old(repo.pool)) && r.Ok? ==>
              AllReenact(LinesOf(r.value.landed), repo.pool)
  {
    var written;
    r, written := ReplaySource(ctx, from, into, repo.pool);
    if r.Ok? { MergeExtends(repo, ctx, from, target); }
    if r.Ok? && AllReenact(from.lines, repo.pool) { MergeReenacts(repo, ctx, from, target, written); }
    KeepBlobs(repo, written);
  }

  method KeepBlobs(repo: Repository, written: set<Text>)
    requires repo.Valid() && repo.pool <= written
    modifies repo`pool
    ensures repo.Valid() && repo.pool == written
    ensures old(repo.Reenacting()) ==> repo.Reenacting()
  {
    MorePoolLogs(repo.forks, repo.pool, written);
    repo.pool := written;
  }

  /** The write: a complete union's lines as one batch, of any other nothing. */
  method Land(repo: Repository, target: string, r: Result<Outcome, Error>)
    requires repo.Valid()
    requires r.Ok? ==>
        && target in repo.forks
        && Sound(repo.bases[target], repo.forks[target].log + LinesOf(r.value.landed))
    modifies repo`forks
    ensures repo.Valid()
    ensures r.Err? || !r.value.Complete() ==> repo.forks == old(repo.forks)
    ensures r.Ok? && r.value.Complete() ==>
              target in old(repo.forks) && repo.forks == Grown(old(repo.forks), target, LinesOf(r.value.landed))
    ensures old(repo.Reenacting()) && (r.Ok? ==> AllReenact(LinesOf(r.value.landed), repo.pool)) ==> repo.Reenacting()
  {
    if r.Ok? && r.value.Complete() {
      repo.AppendSealed(target, LinesOf(r.value.landed));
    }
  }

  /** Union under one lock: validate everything in memory, then append one batch or nothing. */
  method Union(repo: Repository, source: string, target: string, author: string, clock: nat)
    returns (r: Result<Outcome, Error>)
    requires repo.Valid()
    modifies repo`pool, repo`forks
    ensures repo.Valid() && old(repo.pool) <= repo.pool
    ensures r.Err? || !r.value.Complete() ==> repo.forks == old(repo.forks)
    ensures r.Ok? && r.value.Complete() ==>
              target in old(repo.forks) && repo.forks == Grown(old(repo.forks), target, LinesOf(r.value.landed))
    ensures source !in old(repo.forks) || target !in old(repo.forks) ==> r == Err(Invalid)
    ensures source in old(repo.forks) && target in old(repo.forks) ==>
        r == old(Decided(repo, source, target, author, clock))
    ensures old(repo.Reenacting()) ==> repo.Reenacting()
  {
    r := Validate(repo, source, target, author, clock);
    Land(repo, target, r);
  }
}
