/** The repository's forks as a state machine (src/repo.rs): load, apply, batch append,
    snapshot, fork, and inverse replay to any logged state. */
module Repo {
  import opened Wrappers
  import opened Spans
  import opened Patch
  import opened Setsum
  import opened Logs
  import opened Strata
  import opened Reenact

  /** A fork file (`anchor`, `manifest`) and its log. */
  datatype ForkDir = ForkDir(anchor: Sum, manifest: Sum, log: seq<Line>)

  /** A fork name is one safe path component. */
  predicate ValidForkName(name: string) {
    name != "" && name != "." && name != ".." && '/' !in name && '\0' !in name && '\n' !in name
  }

  datatype ForkState = ForkState(manifest: State, sum: Sum, headId: Id, lines: seq<Line>)

  /** The anchor manifests on disk, keyed by the sum in their file name. */
  type Anchors = map<Sum, State>

  function ReadAnchor(anchors: Anchors, sum: Sum): Result<State, Error> {
    if sum !in anchors then Err(Io)
    else if SumOf(anchors[sum]) != sum then Err(Corrupt)
    else Ok(anchors[sum])
  }

  /** A fork file repointed at a state; the log stays. */
  function Repointed(f: ForkDir, m: State): ForkDir {
    ForkDir(SumOf(m), SumOf(m), f.log)
  }

  /** Put-if-absent. */
  function WriteAnchor(anchors: Anchors, m: State): Anchors {
    if SumOf(m) in anchors then anchors else anchors[SumOf(m) := m]
  }

  /** How many lines the anchor already accounts for. */
  function StartOf(lines: seq<Line>, anchor: Sum): (start: nat)
    ensures start <= |lines|
  {
    match LastStatePosition(lines, anchor)
    case Some(i) => i + 1
    case None => 0
  }

  /** Every line after the first adds up from the one before it. */
  predicate Tallied(lines: seq<Line>) {
    |lines| <= 1 ||
    var init, last := lines[..|lines| - 1], lines[|lines| - 1];
    Tallied(init) && last.sumAfter == FoldSum(init[|init| - 1].sumAfter, last.realized)
  }

  /** What loading a fork checks, and what it answers. */
  function Loaded(anchors: Anchors, f: ForkDir): Result<ForkState, Error> {
    match ReadAnchor(anchors, f.manifest)
    case Err(e) => Err(e)
    case Ok(anchor) =>
      var lines := f.log;
      var start := StartOf(lines, f.anchor);
      if SumOf(anchor) != f.anchor || !Chained(lines) || !Tallied(lines) then Err(Corrupt)
      else if start == 0 && lines != [] && lines[0].sumAfter != FoldSum(f.anchor, lines[0].realized) then Err(Corrupt)
      else match StateAfter(anchor, lines[start..])
        case None => Err(Precondition)
        case Some(m) =>
          if lines != [] && lines[|lines| - 1].sumAfter != SumOf(m) then Err(Corrupt)
          else Ok(ForkState(m, SumOf(m), HeadId(lines), lines))
  }

  ////////////////////////////////////// what loading establishes ///////////////////////////////////////

  lemma TalliedIsSummed(anchor: Sum, lines: seq<Line>)
    ensures Summed(anchor, lines) <==>
            Tallied(lines) && (lines != [] ==> lines[0].sumAfter == FoldSum(anchor, lines[0].realized))
  {
    if |lines| > 1 {
      TalliedIsSummed(anchor, lines[..|lines| - 1]);
    } else if |lines| == 1 {
      assert lines[..0] == [];
      assert Summed(anchor, lines[..0]);
    }
  }

  /** A fork whose anchor no line has reached loads exactly when its log is a trustworthy
      history from the anchor's manifest. */
  lemma LoadsIffSound(anchors: Anchors, f: ForkDir)
    requires f.manifest == f.anchor && f.anchor in anchors
    requires Keyed(anchors[f.anchor]) && SumOf(anchors[f.anchor]) == f.anchor
    requires LastStatePosition(f.log, f.anchor).None?
    ensures Loaded(anchors, f).Ok? <==> Sound(anchors[f.anchor], f.log)
  {
    var anchor, lines := anchors[f.anchor], f.log;
    assert lines[0..] == lines;
    TalliedIsSummed(f.anchor, lines);
    SoundIff(anchor, lines);
    if Sound(anchor, lines) {
      SoundStates(anchor, lines, |lines|);
      assert lines[..|lines|] == lines;
    }
  }

  /** A fork whose log is a trustworthy history from `base`, anchored at a state on it: the one
      after the last line that reached the anchor's sum, or `base` itself. */
  ghost predicate ForkSound(anchors: Anchors, f: ForkDir, base: State) {
    && Keyed(base) && Sound(base, f.log)
    && f.manifest == f.anchor && f.anchor in anchors
    && SumOf(anchors[f.anchor]) == f.anchor
    && StateAfter(base, f.log[..StartOf(f.log, f.anchor)]) == Some(anchors[f.anchor])
  }

  lemma SoundIsTallied(base: State, lines: seq<Line>)
    requires Keyed(base) && Sound(base, lines)
    ensures Chained(lines) && Tallied(lines) && StateAfter(base, lines).Some? && Keyed(StateAfter(base, lines).value)
    ensures lines != [] ==> lines[0].sumAfter == FoldSum(SumOf(base), lines[0].realized)
    ensures lines != [] ==> lines[|lines| - 1].sumAfter == SumOf(StateAfter(base, lines).value)
  {
    SoundIff(base, lines);
    TalliedIsSummed(SumOf(base), lines);
    SoundStates(base, lines, |lines|);
    assert lines[..|lines|] == lines;
  }

  /** Loading a sound fork succeeds: the last state of its history, whose sum is the last
      line's, and its head. */
  lemma SoundForkLoads(anchors: Anchors, f: ForkDir, base: State)
    requires ForkSound(anchors, f, base)
    ensures StateAfter(base, f.log).Some? && Keyed(StateAfter(base, f.log).value)
    ensures var m := StateAfter(base, f.log).value;
            Loaded(anchors, f) == Ok(ForkState(m, SumOf(m), HeadId(f.log), f.log))
    ensures f.log != [] ==> SumOf(StateAfter(base, f.log).value) == f.log[|f.log| - 1].sumAfter
  {
    var start := StartOf(f.log, f.anchor);
    assert f.log == f.log[..start] + f.log[start..];
    StateAfterAppend(base, f.log[..start], f.log[start..]);
    SoundIsTallied(base, f.log);
    assert f.log[..0] == [];
  }

  lemma StartsLater(log: seq<Line>, more: seq<Line>, anchor: Sum)
    requires log <= more
    ensures StartOf(log, anchor) <= StartOf(more, anchor)
    ensures StartOf(more, anchor) > 0 ==> more[StartOf(more, anchor) - 1].sumAfter == anchor
  {
    var start := StartOf(log, anchor);
    LastStateSpec(log, anchor);
    LastStateSpec(more, anchor);
    if start > 0 { assert more[start - 1] == log[start - 1]; }
  }

  /** Where replay starts in a longer log: at the same line, or a later one that left the same state. */
  lemma StartMoves(f: ForkDir, base: State, log: seq<Line>)
    requires Keyed(base) && Sound(base, log) && f.log <= log
    requires StateAfter(base, f.log[..StartOf(f.log, f.anchor)]).Some?
    requires SumOf(StateAfter(base, f.log[..StartOf(f.log, f.anchor)]).value) == f.anchor
    ensures StateAfter(base, log[..StartOf(log, f.anchor)]) == StateAfter(base, f.log[..StartOf(f.log, f.anchor)])
  {
    var start, next := StartOf(f.log, f.anchor), StartOf(log, f.anchor);
    StartsLater(f.log, log, f.anchor);
    assert log[..start] == f.log[..start];
    if next != start { SameSumSameState(base, log, start, next); }
  }

  /** Two places of a sound history with one sum hold one state. */
  lemma SameSumSameState(base: State, log: seq<Line>, i: nat, j: nat)
    requires Keyed(base) && Sound(base, log) && i <= |log| && 0 < j <= |log|
    requires StateAfter(base, log[..i]).Some? && SumOf(StateAfter(base, log[..i]).value) == log[j - 1].sumAfter
    ensures StateAfter(base, log[..j]) == StateAfter(base, log[..i])
  {
    SoundStates(base, log, i);
    SoundStates(base, log, j);
    SumFixesManifest(StateAfter(base, log[..i]).value, StateAfter(base, log[..j]).value);
  }

  /** Appending lines that keep the history sound keeps the fork sound. */
  lemma AppendKeepsSound(anchors: Anchors, f: ForkDir, base: State, lines: seq<Line>)
    requires ForkSound(anchors, f, base) && Sound(base, f.log + lines)
    ensures ForkSound(anchors, f.(log := f.log + lines), base)
  {
    StartMoves(f, base, f.log + lines);
  }

  lemma MoreAnchorsKeepSound(anchors: Anchors, more: Anchors, f: ForkDir, base: State)
    requires ForkSound(anchors, f, base)
    requires f.anchor in more && more[f.anchor] == anchors[f.anchor]
    ensures ForkSound(more, f, base)
  {
  }

  /** The line a head's own sum points at left the head's state. */
  lemma HeadAnchors(log: seq<Line>, base: State, m: State)
    requires Keyed(base) && Sound(base, log) && StateAfter(base, log) == Some(m)
    ensures StateAfter(base, log[..StartOf(log, SumOf(m))]) == Some(m)
  {
    var start := StartOf(log, SumOf(m));
    LastStateSpec(log, SumOf(m));
    SoundIsTallied(base, log);
    SoundStates(base, log, start);
    assert log[..|log|] == log;
    if start > 0 { SumFixesManifest(m, StateAfter(base, log[..start]).value); }
    else { assert log == []; }
  }

  /** Repointing a fork at its current state keeps its history and what it loads. */
  lemma SnapshotKeepsSound(anchors: Anchors, f: ForkDir, base: State, m: State)
    requires ForkSound(anchors, f, base) && AnchorsSound(anchors)
    requires StateAfter(base, f.log) == Some(m)
    ensures ForkSound(WriteAnchor(anchors, m), Repointed(f, m), base)
    ensures Loaded(WriteAnchor(anchors, m), Repointed(f, m)) == Loaded(anchors, f)
  {
    SoundForkLoads(anchors, f, base);
    WriteAnchorKeeps(anchors, m);
    HeadAnchors(f.log, base, m);
    SoundForkLoads(WriteAnchor(anchors, m), Repointed(f, m), base);
  }

  /** Every anchor manifest is keyed by its own sum. */
  ghost predicate AnchorsSound(anchors: Anchors) {
    forall s :: s in anchors ==> Keyed(anchors[s]) && SumOf(anchors[s]) == s
  }

  ghost predicate RepoSound(forks: map<string, ForkDir>, anchors: Anchors, bases: map<string, State>) {
    && AnchorsSound(anchors)
    && forks.Keys == bases.Keys
    && forall n :: n in forks ==> ForkSound(anchors, forks[n], bases[n])
  }

  /** One fork's log grown by `lines`; nothing else changes. */
  function Grown(forks: map<string, ForkDir>, n: string, lines: seq<Line>): map<string, ForkDir>
    requires n in forks
  {
    forks[n := forks[n].(log := forks[n].log + lines)]
  }

  lemma GrownKeepsRepo(forks: map<string, ForkDir>, anchors: Anchors, bases: map<string, State>, n: string,
                       lines: seq<Line>)
    requires RepoSound(forks, anchors, bases) && n in forks
    requires Sound(bases[n], forks[n].log + lines)
    ensures RepoSound(Grown(forks, n, lines), anchors, bases)
  {
    AppendKeepsSound(anchors, forks[n], bases[n], lines);
    ReplacedKeepsRepo(forks, anchors, bases, n, forks[n].(log := forks[n].log + lines));
  }

  lemma WriteAnchorKeeps(anchors: Anchors, m: State)
    requires AnchorsSound(anchors) && Keyed(m)
    ensures AnchorsSound(WriteAnchor(anchors, m))
    ensures SumOf(m) in WriteAnchor(anchors, m) && WriteAnchor(anchors, m)[SumOf(m)] == m
    ensures forall s :: s in anchors ==> s in WriteAnchor(anchors, m) && WriteAnchor(anchors, m)[s] == anchors[s]
  {
    if SumOf(m) in anchors { SumFixesManifest(m, anchors[SumOf(m)]); }
  }

  /** More anchor manifests unsettle no fork. */
  lemma MoreAnchorsKeepRepo(forks: map<string, ForkDir>, anchors: Anchors, more: Anchors, bases: map<string, State>)
    requires RepoSound(forks, anchors, bases) && AnchorsSound(more)
    requires forall s :: s in anchors ==> s in more && more[s] == anchors[s]
    ensures RepoSound(forks, more, bases)
  {
    forall n | n in forks ensures ForkSound(more, forks[n], bases[n]) {
      MoreAnchorsKeepSound(anchors, more, forks[n], bases[n]);
    }
  }

  /** One fork may be replaced by a sound one. */
  lemma ReplacedKeepsRepo(forks: map<string, ForkDir>, anchors: Anchors, bases: map<string, State>, n: string,
                          g: ForkDir)
    requires RepoSound(forks, anchors, bases) && n in forks && ForkSound(anchors, g, bases[n])
    ensures RepoSound(forks[n := g], anchors, bases)
  {
  }

  lemma SnapshotKeepsRepo(forks: map<string, ForkDir>, anchors: Anchors, bases: map<string, State>, n: string, m: State)
    requires RepoSound(forks, anchors, bases) && n in forks && StateAfter(bases[n], forks[n].log) == Some(m)
    ensures RepoSound(forks[n := Repointed(forks[n], m)], WriteAnchor(anchors, m), bases)
  {
    SnapshotFork(anchors, forks[n], bases[n], m);
    MoreAnchorsKeepRepo(forks, anchors, WriteAnchor(anchors, m), bases);
    ReplacedKeepsRepo(forks, WriteAnchor(anchors, m), bases, n, Repointed(forks[n], m));
  }

  lemma SnapshotFork(anchors: Anchors, f: ForkDir, base: State, m: State)
    requires ForkSound(anchors, f, base) && AnchorsSound(anchors) && StateAfter(base, f.log) == Some(m)
    ensures AnchorsSound(WriteAnchor(anchors, m)) && ForkSound(WriteAnchor(anchors, m), Repointed(f, m), base)
    ensures forall s :: s in anchors ==> s in WriteAnchor(anchors, m) && WriteAnchor(anchors, m)[s] == anchors[s]
  {
    SoundForkLoads(anchors, f, base);
    SnapshotKeepsSound(anchors, f, base, m);
    WriteAnchorKeeps(anchors, m);
  }

  /** A fork with no lines, anchored at a state. */
  function ForkAt(m: State): ForkDir {
    ForkDir(SumOf(m), SumOf(m), [])
  }

  lemma FreshForkSound(anchors: Anchors, m: State)
    requires Keyed(m) && SumOf(m) in anchors && anchors[SumOf(m)] == m
    ensures ForkSound(anchors, ForkAt(m), m)
  {
    assert ForkAt(m).log[..0] == [];
  }

  lemma WriteAnchorKeepsRepo(forks: map<string, ForkDir>, anchors: Anchors, bases: map<string, State>, m: State)
    requires RepoSound(forks, anchors, bases) && Keyed(m)
    ensures RepoSound(forks, WriteAnchor(anchors, m), bases)
    ensures ForkSound(WriteAnchor(anchors, m), ForkAt(m), m)
  {
    WriteAnchorKeeps(anchors, m);
    MoreAnchorsKeepRepo(forks, anchors, WriteAnchor(anchors, m), bases);
    FreshForkSound(WriteAnchor(anchors, m), m);
  }

  lemma AddedKeepsRepo(forks: map<string, ForkDir>, anchors: Anchors, bases: map<string, State>, n: string, g: ForkDir,
                       m: State)
    requires RepoSound(forks, anchors, bases) && n !in forks && ForkSound(anchors, g, m)
    ensures RepoSound(forks[n := g], anchors, bases[n := m])
  {
  }

  /** Every line of every fork re-enacts its delta. */
  ghost predicate LogsReenact(forks: map<string, ForkDir>, pool: set<Text>) {
    forall n :: n in forks ==> AllReenact(forks[n].log, pool)
  }

  lemma MorePoolLogs(forks: map<string, ForkDir>, pool: set<Text>, pool': set<Text>)
    requires pool <= pool'
    ensures LogsReenact(forks, pool) ==> LogsReenact(forks, pool')
  {
    if LogsReenact(forks, pool) {
      forall n | n in forks ensures AllReenact(forks[n].log, pool') { MorePoolAll(forks[n].log, pool, pool'); }
    }
  }

  /** A fork's new lines keep the repository re-enacting exactly where they re-enact. */
  lemma GrownReenacts(forks: map<string, ForkDir>, n: string, lines: seq<Line>, pool: set<Text>)
    requires n in forks
    ensures LogsReenact(forks, pool) ==> (LogsReenact(Grown(forks, n, lines), pool) <==> AllReenact(lines, pool))
  {
    var grown := Grown(forks, n, lines);
    if LogsReenact(grown, pool) {
      forall line | line in lines ensures Reenacts(line.intent, line.realized, pool) { assert line in grown[n].log; }
    }
    if LogsReenact(forks, pool) && AllReenact(lines, pool) {
      forall f | f in grown ensures AllReenact(grown[f].log, pool) { assert AllReenact(forks[f].log, pool); }
    }
  }

  /** Re-anchoring a fork, or adding one without lines, moves no log. */
  lemma SameLogsReenact(forks: map<string, ForkDir>, n: string, g: ForkDir, pool: set<Text>)
    requires g.log == if n in forks then forks[n].log else []
    ensures LogsReenact(forks, pool) ==> LogsReenact(forks[n := g], pool)
  {
  }

  /** The line an application seals: the intent ran on the head, in the pool it found, and the line
      records just that; the pool now holds what it wrote. */
  ghost predicate Performs(line: Line, intent: seq<Op>, note: Note, head: State, log: seq<Line>, known: set<Text>,
                           pool: set<Text>)
  {
    && RunOps(intent, head, known).Ok?
    && var run := RunOps(intent, head, known).value;
       && line.intent == intent && line.realized == run.realized && line.note == note
       && line.prev == HeadId(log) && line.sumAfter == FoldSum(SumOf(head), run.realized)
       && Replay(head, run.realized) == Some(run.state) && pool == known + run.blobs
  }

  /** An applied intent re-enacts. */
  lemma GrownByOne(forks: map<string, ForkDir>, n: string, line: Line, pool: set<Text>)
    requires n in forks
    ensures LogsReenact(forks, pool) ==>
              (LogsReenact(Grown(forks, n, [line]), pool) <==> Reenacts(line.intent, line.realized, pool))
  {
    GrownReenacts(forks, n, [line], pool);
    assert line in [line];
  }

  /** A snapshot keeps the repository sound, and every log as it was. */
  lemma SnapshotKeeps(forks: map<string, ForkDir>, anchors: Anchors, bases: map<string, State>, pool: set<Text>,
                      n: string, m: State)
    requires RepoSound(forks, anchors, bases) && n in forks && StateAfter(bases[n], forks[n].log) == Some(m)
    ensures RepoSound(forks[n := Repointed(forks[n], m)], WriteAnchor(anchors, m), bases)
    ensures LogsReenact(forks, pool) ==> LogsReenact(forks[n := Repointed(forks[n], m)], pool)
  {
    SnapshotKeepsRepo(forks, anchors, bases, n, m);
    SameLogsReenact(forks, n, Repointed(forks[n], m), pool);
  }

  /** So does a new fork, at a manifest that is kept. */
  lemma NewForkKeeps(forks: map<string, ForkDir>, anchors: Anchors, bases: map<string, State>, pool: set<Text>,
                     n: string, m: State)
    requires RepoSound(forks, anchors, bases) && n !in forks && Keyed(m)
    ensures RepoSound(forks[n := ForkAt(m)], WriteAnchor(anchors, m), bases[n := m])
    ensures LogsReenact(forks, pool) ==> LogsReenact(forks[n := ForkAt(m)], pool)
  {
    WriteAnchorKeepsRepo(forks, anchors, bases, m);
    AddedKeepsRepo(forks, WriteAnchor(anchors, m), bases, n, ForkAt(m), m);
    SameLogsReenact(forks, n, ForkAt(m), pool);
  }

  lemma PerformedReenacts(forks: map<string, ForkDir>, n: string, line: Line, intent: seq<Op>, note: Note, head: State,
                          known: set<Text>, pool: set<Text>)
    requires n in forks && Keyed(head) && Performs(line, intent, note, head, forks[n].log, known, pool)
    ensures LogsReenact(forks, known) ==> LogsReenact(Grown(forks, n, [line]), pool)
  {
    MorePoolLogs(forks, known, pool);
    RanReenacts(intent, head, known);
    GrownReenacts(forks, n, [line], pool);
  }

  /** A batch's lines carry no intent: they re-enact exactly where every draft moves nothing. */
  lemma BatchReenacts(log: seq<Line>, landed: seq<Line>, batch: seq<Draft>, pool: set<Text>)
    requires Carries(log, log + landed, batch)
    ensures AllReenact(landed, pool) <==> forall k :: 0 <= k < |batch| ==> MovesNothing(batch[k].realized)
  {
    forall k | 0 <= k < |batch|
      ensures landed[k].intent == [] && landed[k].realized == batch[k].realized
      ensures Reenacts(landed[k].intent, landed[k].realized, pool) <==> MovesNothing(batch[k].realized)
    {
      assert (log + landed)[|log| + k] == landed[k];
      SilentReenacts(batch[k].realized, pool);
    }
    if AllReenact(landed, pool) {
      forall k | 0 <= k < |batch| ensures MovesNothing(batch[k].realized) { assert landed[k] in landed; }
    }
  }

  /** Any state with the sum of a logged line is the state that line left. */
  lemma StatesWithSum(base: State, lines: seq<Line>, sum: Sum, t: State)
    requires Keyed(base) && Sound(base, lines) && Keyed(t) && SumOf(t) == sum
    ensures forall i :: 0 <= i < |lines| && lines[i].sumAfter == sum ==> StateAfter(base, lines[..i + 1]) == Some(t)
  {
    forall i | 0 <= i < |lines| && lines[i].sumAfter == sum ensures StateAfter(base, lines[..i + 1]) == Some(t) {
      SoundStates(base, lines, i + 1);
      SumFixesManifest(t, StateAfter(base, lines[..i + 1]).value);
    }
  }

  /** Undoing a history's last line restores the state before it. */
  lemma LineUndone(base: State, lines: seq<Line>, k: nat)
    requires Keyed(base) && Sound(base, lines) && k < |lines|
    ensures StateAfter(base, lines[..k]).Some? && StateAfter(base, lines[..k + 1]).Some?
    ensures Replay(StateAfter(base, lines[..k + 1]).value, Inverse(lines[k].realized)) == StateAfter(base, lines[..k])
  {
    SoundStates(base, lines, k);
    SoundStates(base, lines, k + 1);
    assert lines[..k + 1][..k] == lines[..k];
    ReplayUndone(StateAfter(base, lines[..k]).value, lines[k].realized);
  }

  lemma TalliedPrefix(lines: seq<Line>, k: nat)
    requires Tallied(lines) && k <= |lines|
    ensures Tallied(lines[..k])
  {
    if k < |lines| && |lines| > 1 {
      TalliedPrefix(lines[..|lines| - 1], k);
      assert lines[..|lines| - 1][..k] == lines[..k];
    } else if k == |lines| {
      assert lines[..k] == lines;
    }
  }

  lemma StateAfterPrefix(base: State, lines: seq<Line>, k: nat)
    requires StateAfter(base, lines).Some? && k <= |lines|
    ensures StateAfter(base, lines[..k]).Some?
  {
    StateAfterAppend(base, lines[..k], lines[k..]);
    assert lines == lines[..k] + lines[k..];
  }

  ///////////////////////////////////////////// the machine /////////////////////////////////////////////

  /** One entry of a batch: what to land, its annotation, its commit time. */
  datatype Draft = Draft(realized: seq<Entry>, note: Note, stamp: nat)

  predicate AddsPooled(realized: seq<Entry>, pool: set<Text>) {
    forall k :: 0 <= k < |realized| && realized[k].add.Some? ==> realized[k].add.value.blob in pool
  }

  /** The state a batch reaches when every draft of it is acceptable in turn. */
  function Accepted(drafts: seq<Draft>, s: State, pool: set<Text>): Option<State> {
    if drafts == [] then Some(s)
    else
      var before, d := Accepted(drafts[..|drafts| - 1], s, pool), drafts[|drafts| - 1];
      if before.None? || !AddsPooled(d.realized, pool) || !Admissible([], d.realized, d.note) then None
      else Replay(before.value, d.realized)
  }

  lemma AcceptedPrefix(drafts: seq<Draft>, s: State, pool: set<Text>, k: nat)
    requires Accepted(drafts, s, pool).Some? && k <= |drafts|
    ensures Accepted(drafts[..k], s, pool).Some?
  {
    if k < |drafts| {
      AcceptedPrefix(drafts[..|drafts| - 1], s, pool, k);
      assert drafts[..|drafts| - 1][..k] == drafts[..k];
    } else {
      assert drafts[..k] == drafts;
    }
  }

  /** `after` is `before` with one line for each draft. */
  predicate Carries(before: seq<Line>, after: seq<Line>, drafts: seq<Draft>) {
    && |after| == |before| + |drafts| && after[..|before|] == before
    && forall i :: 0 <= i < |drafts| ==>
         && after[|before| + i].realized == drafts[i].realized && after[|before| + i].note == drafts[i].note
         && after[|before| + i].intent == []
  }

  /** Where a batch stands: what is sealed so far is a sound history carrying its drafts. */
  ghost predicate Batched(base: State, log: seq<Line>, lines: seq<Line>, drafts: seq<Draft>, s: State, pool: set<Text>,
                          now: State)
  {
    && Sound(base, log + lines) && StateAfter(base, log + lines) == Some(now) && Keyed(now)
    && Carries(log, log + lines, drafts) && Accepted(drafts, s, pool) == Some(now)
  }

  lemma StartsBatched(base: State, log: seq<Line>, s: State, pool: set<Text>)
    requires Keyed(base) && Sound(base, log) && StateAfter(base, log) == Some(s) && Keyed(s)
    ensures log + [] == log && Batched(base, log, [], [], s, pool, s)
  {
    assert log + [] == log;
  }

  lemma CarriesStep(log: seq<Line>, after: seq<Line>, drafts: seq<Draft>, d: Draft, line: Line)
    requires Carries(log, after, drafts)
    requires line.realized == d.realized && line.note == d.note && line.intent == []
    ensures Carries(log, after + [line], drafts + [d])
  {
    var after', drafts' := after + [line], drafts + [d];
    assert after'[..|log|] == after[..|log|];
    forall i | 0 <= i < |drafts'|
      ensures after'[|log| + i].realized == drafts'[i].realized && after'[|log| + i].note == drafts'[i].note
              && after'[|log| + i].intent == []
    {
      if i < |drafts| { assert after'[|log| + i] == after[|log| + i] && drafts'[i] == drafts[i]; }
    }
  }

  lemma AcceptedStep(drafts: seq<Draft>, s: State, pool: set<Text>, now: State, d: Draft)
    requires Accepted(drafts, s, pool) == Some(now)
    requires AddsPooled(d.realized, pool) && Admissible([], d.realized, d.note)
    ensures Accepted(drafts + [d], s, pool) == Replay(now, d.realized)
  {
    assert (drafts + [d])[..|drafts|] == drafts;
  }

  lemma SoundStep(base: State, lines: seq<Line>, now: State, line: Line)
    requires Keyed(base) && Sound(base, lines) && StateAfter(base, lines) == Some(now) && Keyed(now)
    requires line.prev == HeadId(lines) && Replay(now, line.realized).Some?
    requires line.sumAfter == FoldSum(SumOf(now), line.realized)
    ensures Sound(base, lines + [line]) && StateAfter(base, lines + [line]) == Replay(now, line.realized)
    ensures Keyed(Replay(now, line.realized).value) && SumOf(Replay(now, line.realized).value) == line.sumAfter
    ensures HeadId(lines + [line]) == Of(line)
  {
    SoundExtends(base, lines, line);
    ReplaySum(now, line.realized);
  }

  lemma BatchStep(base: State, log: seq<Line>, lines: seq<Line>, drafts: seq<Draft>, s: State, pool: set<Text>,
                  now: State, d: Draft, line: Line)
    requires Keyed(base) && Batched(base, log, lines, drafts, s, pool, now)
    requires Replay(now, d.realized).Some? && AddsPooled(d.realized, pool) && ValidLine(line)
    requires line == Line(HeadId(log + lines), [], d.realized, FoldSum(SumOf(now), d.realized), line.stamp, d.note)
    ensures Batched(base, log, lines + [line], drafts + [d], s, pool, Replay(now, d.realized).value)
    ensures SumOf(Replay(now, d.realized).value) == line.sumAfter
    ensures HeadId(log + (lines + [line])) == Of(line)
  {
    SoundStep(base, log + lines, now, line);
    CarriesStep(log, log + lines, drafts, d, line);
    AcceptedStep(drafts, s, pool, now, d);
    assert log + (lines + [line]) == log + lines + [line];
  }

  /** A draft that is refused refuses the whole batch. */
  lemma BatchStops(batch: seq<Draft>, i: nat, s: State, pool: set<Text>, now: State)
    requires i < |batch| && Accepted(batch[..i], s, pool) == Some(now)
    requires Replay(now, batch[i].realized).None? || !AddsPooled(batch[i].realized, pool)
             || !Admissible([], batch[i].realized, batch[i].note)
    ensures Accepted(batch, s, pool).None?
  {
    assert batch[..i + 1][..i] == batch[..i];
    assert Accepted(batch[..i + 1], s, pool).None?;
    if Accepted(batch, s, pool).Some? { AcceptedPrefix(batch, s, pool, i + 1); }
  }

  /** Where sealing a batch stands: the first `i` drafts sealed, and what the next line must continue. */
  ghost predicate Sealing(base: State, log: seq<Line>, lines: seq<Line>, batch: seq<Draft>, i: nat, s: State,
                          pool: set<Text>, now: State, sum: Sum, prev: Id)
  {
    && i <= |batch| && Keyed(base) && Batched(base, log, lines, batch[..i], s, pool, now)
    && sum == SumOf(now) && prev == HeadId(log + lines)
  }

  lemma StartsSealing(base: State, log: seq<Line>, batch: seq<Draft>, s: State, pool: set<Text>)
    requires Keyed(base) && Sound(base, log) && StateAfter(base, log) == Some(s) && Keyed(s)
    ensures Sealing(base, log, [], batch, 0, s, pool, s, SumOf(s), HeadId(log))
  {
    StartsBatched(base, log, s, pool);
  }

  lemma AllSealed(base: State, log: seq<Line>, lines: seq<Line>, batch: seq<Draft>, s: State, pool: set<Text>,
                  now: State, sum: Sum, prev: Id)
    requires Sealing(base, log, lines, batch, |batch|, s, pool, now, sum, prev)
    ensures Accepted(batch, s, pool) == Some(now) && Batched(base, log, lines, batch, s, pool, now)
  {
    assert batch[..|batch|] == batch;
  }

  class Repository {
    var forks: map<string, ForkDir>
    var anchors: Anchors
    var pool: set<Text>
    /** The state each fork's history began at. */
    ghost var bases: map<string, State>

    ghost predicate Valid()
      reads `forks, `anchors, `bases
    {
      RepoSound(forks, anchors, bases)
    }

    /** No line of any fork means anything but what it realized. */
    ghost predicate Reenacting()
      reads `forks, `pool
    {
      LogsReenact(forks, pool)
    }

    /** The manifest a fork's history has reached. */
    ghost function Head(fork: string): State
      reads `forks, `anchors, `bases
      requires Valid() && fork in forks
    {
      SoundForkLoads(anchors, forks[fork], bases[fork]);
      StateAfter(bases[fork], forks[fork].log).value
    }

    /** What loading a fork answers. */
    ghost function StateOf(fork: string): ForkState
      reads `forks, `anchors, `bases
      requires Valid() && fork in forks
    {
      ForkState(Head(fork), SumOf(Head(fork)), HeadId(forks[fork].log), forks[fork].log)
    }

    /** An empty repository has a `main` fork anchored at zero. */
    constructor ()
      ensures Valid()
      ensures forks == map["main" := ForkDir(ZERO, ZERO, [])] && bases == map["main" := map[]]
      ensures anchors == map[ZERO := map[]] && pool == {} && Reenacting()
    {
      forks, anchors, pool := map["main" := ForkDir(ZERO, ZERO, [])], map[ZERO := map[]], {};
      bases := map["main" := map[]];
      assert SumOf(map[]) == ZERO;
      FreshForkSound(map[ZERO := map[]], map[]);
    }

    /** Loading a fork the repository holds always succeeds, at the sum its last line claims. */
    method CurrentState(fork: string) returns (r: Result<ForkState, Error>)
      requires Valid()
      ensures r.Ok? <==> fork in forks
      ensures r.Ok? ==> r.value == StateOf(fork)
      ensures r.Ok? ==> Keyed(Head(fork))
      ensures r.Ok? && forks[fork].log != [] ==> r.value.sum == forks[fork].log[|forks[fork].log| - 1].sumAfter
    {
      if fork !in forks { return Err(Invalid); }
      SoundForkLoads(anchors, forks[fork], bases[fork]);
      r := Load(forks[fork]);
    }

    /** Load a fork: check its anchor, its chain and its arithmetic, and replay it. */
    method Load(f: ForkDir) returns (r: Result<ForkState, Error>)
      ensures r == Loaded(anchors, f)
    {
      var anchor := ReadAnchor(anchors, f.manifest);
      if anchor.Err? { return Err(anchor.error); }
      var lines, start := f.log, StartOf(f.log, f.anchor);
      if SumOf(anchor.value) != f.anchor { return Err(Corrupt); }
      var linked := VerifyLinks(lines);
      if !linked { return Err(Corrupt); }
      if start == 0 && lines != [] && lines[0].sumAfter != FoldSum(f.anchor, lines[0].realized) { return Err(Corrupt); }
      var m := ReplayLines(anchor.value, lines[start..]);
      if m.None? { return Err(Precondition); }
      if lines != [] && lines[|lines| - 1].sumAfter != SumOf(m.value) { return Err(Corrupt); }
      r := Ok(ForkState(m.value, SumOf(m.value), HeadId(lines), lines));
    }

    /** Whether each line continues the one before it, by id and by sum. */
    method VerifyLinks(lines: seq<Line>) returns (ok: bool)
      ensures ok == (Chained(lines) && Tallied(lines))
    {
      var prev := Root;
      for i := 0 to |lines|
        invariant Chained(lines[..i]) && Tallied(lines[..i]) && prev == HeadId(lines[..i])
      {
        assert lines[..i + 1][..i] == lines[..i];
        if lines[i].prev != prev || (i > 0 && lines[i].sumAfter != FoldSum(lines[i - 1].sumAfter, lines[i].realized)) {
          if Chained(lines) && Tallied(lines) {
            ChainedPrefix(lines, i + 1);
            TalliedPrefix(lines, i + 1);
          }
          return false;
        }
        prev := Of(lines[i]);
      }
      assert lines[..|lines|] == lines;
      ok := true;
    }

    method ReplayLines(anchor: State, lines: seq<Line>) returns (s: Option<State>)
      ensures s == StateAfter(anchor, lines)
    {
      var m := new Manifest(anchor);
      for i := 0 to |lines|
        invariant fresh(m) && StateAfter(anchor, lines[..i]) == Some(m.elements)
      {
        assert lines[..i + 1][..i] == lines[..i];
        var ok := ApplyRealizedToManifest(m, lines[i].realized);
        if !ok {
          if StateAfter(anchor, lines).Some? { StateAfterPrefix(anchor, lines, i + 1); }
          return None;
        }
      }
      assert lines[..|lines|] == lines;
      s := Some(m.elements);
    }

    /** Append one sealed line at the head. */
    method AppendOne(fork: string, line: Line, ghost head: State)
      requires Valid() && fork in forks && StateAfter(bases[fork], forks[fork].log) == Some(head) && Keyed(head)
      requires line.prev == HeadId(forks[fork].log) && Replay(head, line.realized).Some?
      requires line.sumAfter == FoldSum(SumOf(head), line.realized)
      modifies this`forks
      ensures Valid() && forks == Grown(old(forks), fork, [line])
      ensures StateAfter(bases[fork], forks[fork].log) == Replay(head, line.realized)
    {
      SoundStep(bases[fork], forks[fork].log, head, line);
      AppendSealed(fork, [line]);
    }

    /** Run an intent at a fork's head and seal its line; only its new blobs are written. */
    method SealIntent(fork: string, intent: seq<Op>, note: Note, clock: nat)
      returns (r: Result<Line, Error>, ghost head: State)
      requires Valid()
      modifies this`pool
      ensures old(pool) <= pool
      ensures r.Ok? <==> (fork in forks && RunOps(intent, Head(fork), old(pool)).Ok?
                          && Admissible(intent, RunOps(intent, Head(fork), old(pool)).value.realized, note))
      ensures r.Ok? ==> head == Head(fork) && StateAfter(bases[fork], forks[fork].log) == Some(head) && Keyed(head)
      ensures r.Ok? ==> Performs(r.value, intent, note, head, forks[fork].log, old(pool), pool)
    {
      head := map[];
      var loaded := CurrentState(fork);
      if loaded.Err? { return Err(loaded.error), head; }
      var state := loaded.value;
      head := state.manifest;
      HeadIsReached(fork);
      var m := new Manifest(state.manifest);
      var run := ApplyIntent(intent, m, pool);
      if run.Err? { return Err(run.error), head; }
      pool := pool + run.value.blobs;
      IntentRealizes(intent, state.manifest, old(pool));
      r := Seal(Line(state.headId, intent, run.value.realized, FoldSum(state.sum, run.value.realized), 0, note), clock);
    }

    /** Apply an intent: one new line, or nothing at all in the log. */
    method Apply(fork: string, intent: seq<Op>, note: Note, clock: nat) returns (r: Result<Line, Error>)
      requires Valid()
      modifies this`forks, this`pool
      ensures Valid()
      ensures r.Ok? <==> (fork in old(forks) && RunOps(intent, old(Head(fork)), old(pool)).Ok?
                          && Admissible(intent, RunOps(intent, old(Head(fork)), old(pool)).value.realized, note))
      ensures r.Err? ==> forks == old(forks) && old(pool) <= pool
      ensures r.Ok? ==>
                && forks == Grown(old(forks), fork, [r.value])
                && Performs(r.value, intent, note, old(Head(fork)), old(forks)[fork].log, old(pool), pool)
                && Head(fork) == RunOps(intent, old(Head(fork)), old(pool)).value.state
      ensures old(Reenacting()) ==> Reenacting()
    {
      ghost var head;
      r, head := SealIntent(fork, intent, note, clock);
      MorePoolLogs(forks, old(pool), pool);
      if r.Err? { return; }
      LandSealed(fork, r.value, intent, note, head, old(pool));
    }

    /** Append the line an intent was sealed into. */
    method LandSealed(fork: string, line: Line, ghost intent: seq<Op>, ghost note: Note, ghost head: State,
                      ghost known: set<Text>)
      requires Valid() && fork in forks && StateAfter(bases[fork], forks[fork].log) == Some(head) && Keyed(head)
      requires Performs(line, intent, note, head, forks[fork].log, known, pool)
      modifies this`forks
      ensures Valid() && forks == Grown(old(forks), fork, [line])
      ensures Head(fork) == RunOps(intent, head, known).value.state
      ensures LogsReenact(old(forks), known) ==> Reenacting()
    {
      PerformedReenacts(forks, fork, line, intent, note, head, known, pool);
      AppendOne(fork, line, head);
      HeadIs(fork, RunOps(intent, head, known).value.state);
    }

    /** Land a delta as it stands, whatever intent it comes with: the head moves by the delta alone, and
        the repository goes on re-enacting exactly where the intent is another form of it. */
    method ApplyRealized(fork: string, intent: seq<Op>, realized: seq<Entry>, note: Note, clock: nat)
      returns (r: Result<Line, Error>)
      requires Valid()
      modifies this`forks
      ensures Valid()
      ensures r.Ok? <==> (fork in old(forks) && Replay(old(Head(fork)), realized).Some? && AddsPooled(realized, pool)
                          && Admissible(intent, realized, note))
      ensures r.Err? ==> forks == old(forks)
      ensures r.Ok? ==>
                && forks == Grown(old(forks), fork, [r.value])
                && r.value.intent == intent && r.value.realized == realized && r.value.note == note
                && Some(Head(fork)) == Replay(old(Head(fork)), realized)
      ensures r.Ok? && old(Reenacting()) ==> (Reenacting() <==> Reenacts(intent, realized, pool))
    {
      ghost var head;
      r, head := SealDelta(fork, intent, realized, note, clock);
      if r.Err? { return; }
      GrownByOne(forks, fork, r.value, pool);
      AppendOne(fork, r.value, head);
    }

    /** Adjudicate a delta against the head, and seal its line. */
    method SealDelta(fork: string, intent: seq<Op>, realized: seq<Entry>, note: Note, clock: nat)
      returns (r: Result<Line, Error>, ghost head: State)
      requires Valid()
      ensures r.Ok? <==> (fork in forks && Replay(Head(fork), realized).Some? && AddsPooled(realized, pool)
                          && Admissible(intent, realized, note))
      ensures r.Ok? ==> head == Head(fork) && StateAfter(bases[fork], forks[fork].log) == Some(head) && Keyed(head)
      ensures r.Ok? ==>
                && r.value.intent == intent && r.value.realized == realized && r.value.note == note
                && r.value.prev == HeadId(forks[fork].log) && r.value.sumAfter == FoldSum(SumOf(head), realized)
    {
      head := map[];
      var loaded := CurrentState(fork);
      if loaded.Err? { return Err(loaded.error), head; }
      var state := loaded.value;
      head := state.manifest;
      HeadIsReached(fork);
      var m := new Manifest(state.manifest);
      var ok := ApplyRealizedToManifest(m, realized);
      if !ok || !AddsPooled(realized, pool) { return Err(Precondition), head; }
      r := Seal(Line(state.headId, intent, realized, FoldSum(state.sum, realized), 0, note), clock);
    }

    /** Append lines already sealed and chained: the commit point of a union. */
    method AppendSealed(fork: string, lines: seq<Line>)
      requires Valid() && fork in forks && Sound(bases[fork], forks[fork].log + lines)
      modifies this`forks
      ensures Valid()
      ensures forks == Grown(old(forks), fork, lines)
      ensures old(Reenacting()) ==> (Reenacting() <==> AllReenact(lines, pool))
    {
      GrownKeepsRepo(forks, anchors, bases, fork, lines);
      GrownReenacts(forks, fork, lines, pool);
      forks := Grown(forks, fork, lines);
    }

    /** Append a batch of realized deltas: every one of them, or nothing. */
    method AppendRealizedBatch(fork: string, batch: seq<Draft>, clock: nat)
      returns (r: Result<nat, Error>, ghost landed: seq<Line>)
      requires Valid()
      modifies this`forks
      ensures Valid()
      ensures r.Ok? <==> fork in old(forks) && Accepted(batch, old(Head(fork)), pool).Some?
      ensures r.Err? ==> forks == old(forks)
      ensures r.Ok? ==>
                && r.value == |batch|
                && forks == Grown(old(forks), fork, landed)
                && Batched(bases[fork], old(forks)[fork].log, landed, batch, old(Head(fork)), pool, Head(fork))
      ensures r.Ok? && old(Reenacting()) ==>
                (Reenacting() <==> forall k :: 0 <= k < |batch| ==> MovesNothing(batch[k].realized))
    {
      var loaded := CurrentState(fork);
      if loaded.Err? { return Err(loaded.error), []; }
      var lines := SealBatch(loaded.value, batch, clock, bases[fork]);
      if lines.Err? { return Err(lines.error), []; }
      LandBatch(fork, lines.value, batch);
      r, landed := Ok(|lines.value|), lines.value;
    }

    /** Append the lines a batch was sealed into. */
    method LandBatch(fork: string, lines: seq<Line>, ghost batch: seq<Draft>)
      requires Valid() && fork in forks && Sound(bases[fork], forks[fork].log + lines)
      requires Carries(forks[fork].log, forks[fork].log + lines, batch)
      modifies this`forks
      ensures Valid() && forks == Grown(old(forks), fork, lines)
      ensures old(Reenacting()) ==>
                (Reenacting() <==> forall k :: 0 <= k < |batch| ==> MovesNothing(batch[k].realized))
    {
      BatchReenacts(forks[fork].log, lines, batch, pool);
      AppendSealed(fork, lines);
    }

    /** Adjudicate one draft against the state the batch has reached, and seal its line. */
    method SealDraft(m: Manifest, sum: Sum, prev: Id, batch: seq<Draft>, i: nat, clock: nat,
                     ghost base: State, ghost log: seq<Line>, ghost lines: seq<Line>, ghost s: State)
      returns (r: Result<Line, Error>)
      requires i < |batch| && Sealing(base, log, lines, batch, i, s, pool, m.elements, sum, prev)
      modifies m
      ensures r.Err? ==> Accepted(batch, s, pool).None?
      ensures r.Ok? ==> Sealing(base, log, lines + [r.value], batch, i + 1, s, pool, m.elements, r.value.sumAfter,
                                Of(r.value))
    {
      var d := batch[i];
      ghost var before := m.elements;
      var ok := ApplyRealizedToManifest(m, d.realized);
      if !ok || !AddsPooled(d.realized, pool) {
        BatchStops(batch, i, s, pool, before);
        return Err(Precondition);
      }
      r := Seal(Line(prev, [], d.realized, FoldSum(sum, d.realized), d.stamp, d.note), clock);
      if r.Err? {
        BatchStops(batch, i, s, pool, before);
        return;
      }
      BatchStep(base, log, lines, batch[..i], s, pool, before, d, r.value);
      assert batch[..i + 1] == batch[..i] + [d];
    }

    /** Every draft of a batch sealed in turn, or the first refusal; nothing is written here. */
    method SealBatch(state: ForkState, batch: seq<Draft>, clock: nat, ghost base: State)
      returns (r: Result<seq<Line>, Error>)
      requires Keyed(base) && Sound(base, state.lines) && StateAfter(base, state.lines) == Some(state.manifest)
      requires Keyed(state.manifest) && state.sum == SumOf(state.manifest) && state.headId == HeadId(state.lines)
      ensures r.Ok? <==> Accepted(batch, state.manifest, pool).Some?
      ensures r.Ok? ==> Batched(base, state.lines, r.value, batch, state.manifest, pool,
                                Accepted(batch, state.manifest, pool).value)
    {
      var m := new Manifest(state.manifest);
      var sum, prev, lines := state.sum, state.headId, [];
      StartsSealing(base, state.lines, batch, state.manifest, pool);
      for i := 0 to |batch|
        invariant fresh(m)
        invariant Sealing(base, state.lines, lines, batch, i, state.manifest, pool, m.elements, sum, prev)
      {
        var sealed := SealDraft(m, sum, prev, batch, i, clock, base, state.lines, lines, state.manifest);
        if sealed.Err? { return Err(sealed.error); }
        lines, sum, prev := lines + [sealed.value], sealed.value.sumAfter, Of(sealed.value);
      }
      AllSealed(base, state.lines, lines, batch, state.manifest, pool, m.elements, sum, prev);
      r := Ok(lines);
    }

    /** Re-anchor a fork at its head.  Its log and the state it loads stay as they were. */
    method Snapshot(fork: string) returns (r: Result<Sum, Error>)
      requires Valid()
      modifies this`forks, this`anchors
      ensures Valid()
      ensures r.Ok? <==> fork in old(forks)
      ensures r.Err? ==> forks == old(forks) && anchors == old(anchors)
      ensures r.Ok? ==>
                && r.value == SumOf(old(Head(fork)))
                && forks == old(forks)[fork := Repointed(old(forks)[fork], old(Head(fork)))]
                && Head(fork) == old(Head(fork))
      ensures old(Reenacting()) ==> Reenacting()
    {
      var loaded := CurrentState(fork);
      if loaded.Err? { return Err(loaded.error); }
      var m := loaded.value.manifest;
      HeadIsReached(fork);
      SnapshotKeeps(forks, anchors, bases, pool, fork, m);
      Rewrite(forks[fork := Repointed(forks[fork], m)], WriteAnchor(anchors, m));
      HeadIs(fork, m);
      r := Ok(SumOf(m));
    }

    lemma HeadIsReached(fork: string)
      requires Valid() && fork in forks
      ensures StateAfter(bases[fork], forks[fork].log) == Some(Head(fork)) && Keyed(Head(fork))
    {
      SoundForkLoads(anchors, forks[fork], bases[fork]);
    }

    lemma HeadIs(fork: string, m: State)
      requires Valid() && fork in forks && StateAfter(bases[fork], forks[fork].log) == Some(m)
      ensures Head(fork) == m
    {
    }

    /** Swap in forks and anchors that are as sound as the old ones. */
    method Rewrite(nextForks: map<string, ForkDir>, nextAnchors: Anchors)
      requires RepoSound(nextForks, nextAnchors, bases) && (LogsReenact(forks, pool) ==> LogsReenact(nextForks, pool))
      modifies this`forks, this`anchors
      ensures Valid() && forks == nextForks && anchors == nextAnchors
      ensures old(Reenacting()) ==> Reenacting()
    {
      forks, anchors := nextForks, nextAnchors;
    }

    /** And with a new fork among them. */
    method Enlarge(nextForks: map<string, ForkDir>, nextAnchors: Anchors, ghost nextBases: map<string, State>)
      requires RepoSound(nextForks, nextAnchors, nextBases)
      requires LogsReenact(forks, pool) ==> LogsReenact(nextForks, pool)
      modifies this`forks, this`anchors, this`bases
      ensures Valid() && forks == nextForks && anchors == nextAnchors && bases == nextBases
      ensures old(Reenacting()) ==> Reenacting()
    {
      forks, anchors, bases := nextForks, nextAnchors, nextBases;
    }

    /** A new fork, with no lines, at the head of an old one. */
    method CreateFork(name: string, fromFork: string) returns (r: Result<ForkDir, Error>)
      requires Valid()
      modifies this
      ensures Valid() && pool == old(pool)
      ensures r.Ok? <==> fromFork in old(forks) && name !in old(forks) && ValidForkName(name)
      ensures r.Err? ==> forks == old(forks)
      ensures r.Ok? ==>
                && r.value == ForkAt(old(Head(fromFork))) && forks == old(forks)[name := r.value]
                && bases == old(bases)[name := old(Head(fromFork))]
      ensures old(Reenacting()) ==> Reenacting()
    {
      var loaded := CurrentState(fromFork);
      if loaded.Err? { return Err(loaded.error); }
      var m := loaded.value.manifest;
      if !ValidForkName(name) || name in forks {
        WriteAnchorKeepsRepo(forks, anchors, bases, m);
        Rewrite(forks, WriteAnchor(anchors, m));
        return Err(Invalid);
      }
      NewForkKeeps(forks, anchors, bases, pool, name, m);
      Enlarge(forks[name := ForkAt(m)], WriteAnchor(anchors, m), bases[name := m]);
      r := Ok(ForkAt(m));
    }

    /** Undo lines from the head until the sum is met: the state returned is the one held there. */
    method ManifestAt(fork: string, sum: Sum) returns (r: Result<State, Error>)
      requires Valid()
      ensures r.Ok? <==> (fork in forks && (sum == SumOf(Head(fork)) || sum == forks[fork].anchor
                          || exists i :: 0 <= i < |forks[fork].log| && forks[fork].log[i].sumAfter == sum))
      ensures r.Ok? ==> Keyed(r.value) && SumOf(r.value) == sum
      ensures fork in forks ==> forall i :: 0 <= i < |forks[fork].log| && forks[fork].log[i].sumAfter == sum ==>
                StateAfter(bases[fork], forks[fork].log[..i + 1]) == Some(r.value)
    {
      var loaded := CurrentState(fork);
      if loaded.Err? { return Err(loaded.error); }
      var f, state := forks[fork], loaded.value;
      ghost var base := bases[fork];
      SoundForkLoads(anchors, f, base);
      LastStateSpec(f.log, sum);
      var pos := LastStatePosition(f.log, sum);
      if state.sum == sum {
        r := Ok(state.manifest);
      } else if f.anchor == sum {
        r := Ok(anchors[f.anchor]);
      } else if pos.None? {
        return Err(Invalid);
      } else {
        var m := Unwind(state.manifest, f.log, pos.value, base);
        r := if SumOf(m) != sum then Err(Corrupt) else Ok(m);
      }
      StatesWithSum(base, f.log, sum, r.value);
    }

    /** Walk backward from the head, applying inverses, to the state after line `pos`. */
    method Unwind(head: State, log: seq<Line>, pos: nat, ghost base: State) returns (s: State)
      requires Keyed(base) && Sound(base, log) && pos < |log|
      requires StateAfter(base, log) == Some(head)
      ensures StateAfter(base, log[..pos + 1]) == Some(s) && Keyed(s) && SumOf(s) == log[pos].sumAfter
    {
      var m := new Manifest(head);
      var k := |log|;
      assert log[..k] == log;
      while k > pos + 1
        invariant fresh(m) && pos + 1 <= k <= |log|
        invariant StateAfter(base, log[..k]) == Some(m.elements)
      {
        k := k - 1;
        LineUndone(base, log, k);
        var _ := ApplyRealizedToManifest(m, Inverse(log[k].realized));
      }
      SoundStates(base, log, k);
      s := m.elements;
    }
  }
}
