/** The push planner's steps (src/delta.rs, `plan`): fork ranges, construct candidates, and the
    classification fixpoint. */
module PlanPush {
  import opened Wrappers
  import opened Spans
  import opened Patch
  import opened Logs
  import opened Segments
  import opened Serve
  import opened Remote
  import opened Delta

  //////////////////////////////////////////// fork ranges //////////////////////////////////////////////

  /** The spans of the forks done so far, given what each fork is to carry. */
  ghost predicate SpansSoFar(spans: seq<Item>, done: set<string>, lines: map<string, seq<Line>>)
    requires done <= lines.Keys
  {
    SpansOf(spans, done) && forall f :: SpanOf(spans, f) == if f in done then lines[f] else []
  }

  lemma SpanOne(f: string, lines: seq<Line>, g: string)
    ensures SpanOf([Span(f, lines)], g) == if g == f then lines else []
  {
    assert [Span(f, lines)][..0] == [];
  }

  lemma SpanGrown(spans: seq<Item>, f: string, lines: seq<Line>, g: string)
    ensures SpanOf(spans + [Span(f, lines)], g) == if g == f then SpanOf(spans, f) + lines else SpanOf(spans, g)
  {
    SpanOfAppend(spans, [Span(f, lines)], g);
    SpanOne(f, lines, g);
    assert SpanOf(spans, g) + [] == SpanOf(spans, g);
  }

  lemma MoreSpans(spans: seq<Item>, forks: set<string>, f: string, lines: seq<Line>)
    requires SpansOf(spans, forks) && f !in forks && lines != []
    ensures SpansOf(spans + [Span(f, lines)], forks + {f})
  {
  }

  lemma SpansStep(spans: seq<Item>, done: set<string>, lines: map<string, seq<Line>>, f: string)
    requires done <= lines.Keys && f in lines && SpansSoFar(spans, done, lines) && f !in done && lines[f] != []
    ensures SpansSoFar(spans + [Span(f, lines[f])], done + {f}, lines)
  {
    var more := spans + [Span(f, lines[f])];
    MoreSpans(spans, done, f, lines[f]);
    assert SpanOf(spans, f) + lines[f] == lines[f];
    forall g ensures SpanOf(more, g) == if g in done + {f} then lines[g] else [] { SpanGrown(spans, f, lines[f], g); }
  }

  /** Only published forks carry lines. */
  lemma PushedPublishes(b: ServeManifest, local: Local, synced: map<string, Id>, f: string)
    requires Pushed(b, local, synced, f) != []
    ensures f in local && Publishes(b, local, synced, f)
  {
  }

  /** A span for every fork that carries lines, in some order. */
  method ListSpans(lines: map<string, seq<Line>>) returns (spans: seq<Item>)
    ensures SpansSoFar(spans, lines.Keys, lines)
  {
    spans := [];
    var done: set<string> := {};
    while lines.Keys - done != {}
      invariant done <= lines.Keys
      invariant SpansSoFar(spans, done, lines)
      decreases lines.Keys - done
    {
      var f :| f in lines.Keys - done;
      if lines[f] != [] {
        SpansStep(spans, done, lines, f);
        spans := spans + [Span(f, lines[f])];
      }
      done := done + {f};
    }
    assert done == lines.Keys;
  }

  lemma SpansAreAll(spans: seq<Item>, lines: map<string, seq<Line>>, b: ServeManifest, local: Local,
                    synced: map<string, Id>, heads: set<string>)
    requires SpansSoFar(spans, lines.Keys, lines)
    requires lines == map f | f in local :: Pushed(b, local, synced, f)
    requires forall f :: f in heads <==> f in local && Publishes(b, local, synced, f)
    ensures IsSpans(spans, heads, f => Pushed(b, local, synced, f))
  {
    forall i | 0 <= i < |spans| ensures spans[i].fork in heads {
      var f := spans[i].fork;
      SpanIsCarried(spans, i);
      assert SpanOf(spans, f) == lines[f];
      PushedPublishes(b, local, synced, f);
    }
  }

  lemma SpanIsCarried(spans: seq<Item>, i: nat)
    requires i < |spans| && spans[i].Span? && spans[i].lines != []
    ensures SpanOf(spans, spans[i].fork) != []
  {
    if i < |spans| - 1 { SpanIsCarried(spans[..|spans| - 1], i); }
  }

  lemma ForkDecided(b: ServeManifest, local: Local, synced: map<string, Id>, done: set<string>, f: string)
    requires done <= local.Keys && f in local && f !in done
    ensures NewHeads(b, local, synced, done + {f})
         == if Publishes(b, local, synced, f) then NewHeads(b, local, synced, done)[f := NewHead(b, local, f)]
            else NewHeads(b, local, synced, done)
    ensures NewSynced(b, local, synced, done + {f})
         == if DecisionFor(b, local, synced, f).InSync? || DecisionFor(b, local, synced, f).Advance?
            then NewSynced(b, local, synced, done)[f := HeadId(local[f].lines)] else NewSynced(b, local, synced, done)
  {
  }

  /** Decide every local fork; a diverged one refuses the push. */
  method DecideForks(b: ServeManifest, local: Local, synced: map<string, Id>)
    returns (r: Result<(map<string, ForkHead>, map<string, Id>), Error>)
    ensures r.Err? ==> r == Err(Invalid) && exists f :: f in local && DecisionFor(b, local, synced, f).Diverged?
    ensures r.Ok? ==> forall f :: f in local ==> !DecisionFor(b, local, synced, f).Diverged?
    ensures r.Ok? ==> r.value == (NewHeads(b, local, synced, local.Keys), NewSynced(b, local, synced, local.Keys))
  {
    var heads: map<string, ForkHead>, now: map<string, Id> := map[], map[];
    var done: set<string> := {};
    while local.Keys - done != {}
      invariant done <= local.Keys
      invariant forall f :: f in done ==> !DecisionFor(b, local, synced, f).Diverged?
      invariant heads == NewHeads(b, local, synced, done) && now == NewSynced(b, local, synced, done)
      decreases local.Keys - done
    {
      var f :| f in local.Keys - done;
      var decision := DecisionFor(b, local, synced, f);
      if decision.Diverged? { return Err(Invalid); }
      ForkDecided(b, local, synced, done, f);
      if decision.InSync? || decision.Advance? { now := now[f := HeadId(local[f].lines)]; }
      if Publishes(b, local, synced, f) { heads := heads[f := NewHead(b, local, f)]; }
      done := done + {f};
    }
    assert done == local.Keys;
    r := Ok((heads, now));
  }

  ///////////////////////////////////////////// candidates //////////////////////////////////////////////

  /** A blob some line in the push adds, and what that line found at its path. */
  datatype Candidate = Candidate(target: Text, base: Text, line: Line)

  /** What the first entry on the path removed, or the empty blob where it removed nothing. */
  function BaseFor(realized: seq<Entry>, path: Path): Text {
    if realized == [] then EMPTY
    else if realized[0].remove.Some? && realized[0].remove.value.path == path then realized[0].remove.value.blob
    else if realized[0].add.Some? && realized[0].add.value.path == path then EMPTY
    else BaseFor(realized[1..], path)
  }

  /** An entry of the candidate's line adds its target, on a path whose content before the line is
      the base. */
  ghost predicate Derived(c: Candidate) {
    exists i :: 0 <= i < |c.line.realized| && Adds(c.line, i, c.target)
                && c.base == BaseFor(c.line.realized, c.line.realized[i].add.value.path)
  }

  predicate Adds(line: Line, i: nat, blob: Text)
    requires i < |line.realized|
  {
    line.realized[i].add.Some? && line.realized[i].add.value.blob == blob
  }

  predicate Distinct(cands: seq<Candidate>) {
    forall i, j :: 0 <= i < j < |cands| ==> cands[i].target != cands[j].target
  }

  function TargetsOf(cands: seq<Candidate>): set<Text> {
    set c | c in cands :: c.target
  }

  ghost predicate Candidates(cands: seq<Candidate>, spans: seq<Item>, send: set<Text>) {
    Distinct(cands) && forall c :: c in cands ==> c.target in send && Carried(c.line, spans) && Derived(c)
  }

  predicate Carried(line: Line, spans: seq<Item>) {
    exists k :: 0 <= k < |spans| && spans[k].Span? && line in spans[k].lines
  }

  /** Every blob to send that one of the line's first `n` entries adds has been seen. */
  ghost predicate Sought(line: Line, n: nat, send: set<Text>, seen: set<Text>) {
    forall i, t :: 0 <= i < n && i < |line.realized| && t in send && Adds(line, i, t) ==> t in seen
  }

  lemma NextTarget(cands: seq<Candidate>, c: Candidate)
    ensures TargetsOf(cands + [c]) == TargetsOf(cands) + {c.target}
  {
    forall t ensures t in TargetsOf(cands + [c]) <==> t in TargetsOf(cands) + {c.target} {
      assert forall d :: d in cands + [c] <==> d in cands || d == c;
    }
  }

  lemma OneMoreTarget(cands: seq<Candidate>, c: Candidate)
    requires Distinct(cands) && c.target !in TargetsOf(cands)
    ensures TargetsOf(cands + [c]) == TargetsOf(cands) + {c.target} && Distinct(cands + [c])
  {
    NextTarget(cands, c);
    forall k | 0 <= k < |cands| ensures cands[k].target in TargetsOf(cands) { assert cands[k] in cands; }
  }

  /** A line's candidates join those of the lines before it: one for each blob to send that it adds
      and none before it did. */
  method LineCandidates(line: Line, spans: seq<Item>, send: set<Text>, before: seq<Candidate>)
    returns (cands: seq<Candidate>)
    requires Candidates(before, spans, send) && Carried(line, spans)
    ensures Candidates(cands, spans, send) && before <= cands
    ensures forall k :: |before| <= k < |cands| ==> cands[k].line == line
    ensures Sought(line, |line.realized|, send, TargetsOf(cands))
  {
    cands := before;
    var seen := TargetsOf(before);
    for i := 0 to |line.realized|
      invariant Candidates(cands, spans, send) && before <= cands && seen == TargetsOf(cands)
      invariant forall k :: |before| <= k < |cands| ==> cands[k].line == line
      invariant Sought(line, i, send, seen)
    {
      var add := line.realized[i].add;
      if add.Some? && add.value.blob in send && add.value.blob !in seen {
        var c := Candidate(add.value.blob, BaseFor(line.realized, add.value.path), line);
        assert Adds(line, i, c.target);
        OneMoreTarget(cands, c);
        cands, seen := cands + [c], seen + {c.target};
      }
    }
  }

  /** The first `n` lines of a span have been through `LineCandidates`. */
  ghost predicate Covered(span: Item, n: nat, send: set<Text>, seen: set<Text>) {
    span.Span? && forall k :: 0 <= k < n && k < |span.lines| ==>
                    Sought(span.lines[k], |span.lines[k].realized|, send, seen)
  }

  lemma CoveredGrows(span: Item, n: nat, send: set<Text>, cands: seq<Candidate>, more: seq<Candidate>)
    requires Covered(span, n, send, TargetsOf(cands)) && cands <= more
    ensures Covered(span, n, send, TargetsOf(more))
  {
    forall t | t in TargetsOf(cands) ensures t in TargetsOf(more) {
      var c :| c in cands && c.target == t;
      assert c in more;
    }
  }

  /** The candidates of one span's lines, after those of the spans before it. */
  method SpanCandidates(spans: seq<Item>, i: nat, send: set<Text>, before: seq<Candidate>)
    returns (cands: seq<Candidate>)
    requires i < |spans| && spans[i].Span? && Candidates(before, spans, send)
    ensures Candidates(cands, spans, send) && before <= cands
    ensures Covered(spans[i], |spans[i].lines|, send, TargetsOf(cands))
  {
    cands := before;
    for k := 0 to |spans[i].lines|
      invariant Candidates(cands, spans, send) && before <= cands
      invariant Covered(spans[i], k, send, TargetsOf(cands))
    {
      assert spans[i].lines[k] in spans[i].lines;
      var more := LineCandidates(spans[i].lines[k], spans, send, cands);
      CoveredGrows(spans[i], k, send, cands, more);
      cands := more;
    }
  }

  /** The candidates of every pushed line. */
  method Collect(spans: seq<Item>, send: set<Text>) returns (cands: seq<Candidate>)
    requires forall i :: 0 <= i < |spans| ==> spans[i].Span?
    ensures Candidates(cands, spans, send)
    ensures forall i :: 0 <= i < |spans| ==> Covered(spans[i], |spans[i].lines|, send, TargetsOf(cands))
  {
    cands := [];
    for i := 0 to |spans|
      invariant Candidates(cands, spans, send)
      invariant forall j :: 0 <= j < i ==> Covered(spans[j], |spans[j].lines|, send, TargetsOf(cands))
    {
      var more := SpanCandidates(spans, i, send, cands);
      forall j | 0 <= j < i ensures Covered(spans[j], |spans[j].lines|, send, TargetsOf(more)) {
        CoveredGrows(spans[j], |spans[j].lines|, send, cands, more);
      }
      cands := more;
    }
  }

  /////////////////////////////////////////// classification ////////////////////////////////////////////

  datatype Class = AsKeyframe | AsConstruct(base: Text, line: Line, depth: nat)

  type Classes = map<Text, Class>

  function ClassDepth(c: Class): nat {
    if c.AsKeyframe? then 0 else c.depth
  }

  /** The depth of a blob, stored or classified. */
  function DepthOf(known: map<Text, nat>, classes: Classes, blob: Text): Option<nat> {
    if DepthIn(known, blob).Some? then DepthIn(known, blob)
    else if blob in classes then Some(ClassDepth(classes[blob])) else None
  }

  /** A class is right: a construct sits one above a base whose depth is settled, and replays. */
  ghost predicate ClassSound(known: map<Text, nat>, classes: Classes, t: Text, cands: seq<Candidate>, limit: nat)
    requires t in classes
  {
    match classes[t]
    case AsKeyframe => true
    case AsConstruct(base, line, depth) =>
      && DepthOf(known, classes, base).Some? && depth == DepthOf(known, classes, base).value + 1 <= limit
      && ConstructBlob(base, line, t).Ok? && Candidate(t, base, line) in cands
  }

  ghost predicate ClassesSound(known: map<Text, nat>, classes: Classes, cands: seq<Candidate>, limit: nat) {
    forall t :: t in classes ==> ClassSound(known, classes, t, cands, limit)
  }

  /** What a candidate is, once its base's depth is settled: a construct where the chain may still
      grow and the replay succeeds, else a keyframe; and a keyframe where the store lacks the
      base and the push does not send it. */
  ghost predicate Rightly(known: map<Text, nat>, classes: Classes, send: set<Text>, c: Candidate, limit: nat) {
    c.target in classes && classes[c.target] == ClassAt(DepthOf(known, classes, c.base), c, limit)
    && (DepthOf(known, classes, c.base).None? ==> c.base !in send)
  }

  function ClassAt(depth: Option<nat>, c: Candidate, limit: nat): Class {
    if depth.Some? && depth.value < limit && ConstructBlob(c.base, c.line, c.target).Ok?
    then AsConstruct(c.base, c.line, depth.value + 1) else AsKeyframe
  }

  /** A candidate waits on a base that is sent and not yet classified. */
  predicate Waits(known: map<Text, nat>, classes: Classes, send: set<Text>, c: Candidate) {
    DepthOf(known, classes, c.base).None? && c.base in send
  }

  /** A candidate no round can settle: its base is sent, not stored, and either no candidate or
      stuck itself. */
  ghost predicate Stuck(known: map<Text, nat>, classes: Classes, send: set<Text>, c: Candidate, stuck: set<Text>) {
    && c.target in classes && classes[c.target] == AsKeyframe
    && c.base in send && DepthIn(known, c.base).None? && (c.base in classes ==> c.base in stuck)
  }

  /** Candidates name distinct blobs to send, and those decided are decided rightly. */
  ghost predicate Settled(known: map<Text, nat>, classes: Classes, send: set<Text>, cands: seq<Candidate>, limit: nat) {
    && Distinct(cands) && classes.Keys <= TargetsOf(cands) <= send
    && forall c :: c in cands && c.target in classes ==> Rightly(known, classes, send, c, limit)
  }

  /** Every candidate has its class, by its base's depth or for want of one. */
  ghost predicate Classified(known: map<Text, nat>, classes: Classes, send: set<Text>, cands: seq<Candidate>,
                             stuck: set<Text>, limit: nat)
  {
    && classes.Keys == TargetsOf(cands)
    && forall c :: c in cands ==> if c.target in stuck then Stuck(known, classes, send, c, stuck)
                                  else Rightly(known, classes, send, c, limit)
  }

  lemma ClassifiedIsSound(known: map<Text, nat>, classes: Classes, send: set<Text>, cands: seq<Candidate>,
                          stuck: set<Text>, limit: nat)
    requires Classified(known, classes, send, cands, stuck, limit)
    ensures ClassesSound(known, classes, cands, limit)
  {
    forall t | t in classes ensures ClassSound(known, classes, t, cands, limit) {
      var c :| c in cands && c.target == t;
    }
  }

  lemma RightlyNow(known: map<Text, nat>, classes: Classes, send: set<Text>, c: Candidate, limit: nat)
    requires c.target in send && c.target !in classes && !Waits(known, classes, send, c)
    ensures var k := ClassAt(DepthOf(known, classes, c.base), c, limit);
            Rightly(known, classes[c.target := k], send, c, limit)
  {
  }

  lemma RightlyStill(known: map<Text, nat>, classes: Classes, send: set<Text>, c: Candidate, limit: nat, t: Text,
                     k: Class)
    requires Rightly(known, classes, send, c, limit) && t !in classes && t in send
    ensures Rightly(known, classes[t := k], send, c, limit)
  {
  }

  lemma SameCandidate(cands: seq<Candidate>, c: Candidate, d: Candidate)
    requires Distinct(cands) && c in cands && d in cands && c.target == d.target
    ensures c == d
  {
    var i :| 0 <= i < |cands| && cands[i] == c;
    var j :| 0 <= j < |cands| && cands[j] == d;
  }

  lemma SettledMore(known: map<Text, nat>, classes: Classes, send: set<Text>, cands: seq<Candidate>, limit: nat,
                    c: Candidate)
    requires Settled(known, classes, send, cands, limit) && c in cands && c.target !in classes
    requires !Waits(known, classes, send, c)
    ensures var k := ClassAt(DepthOf(known, classes, c.base), c, limit);
            Settled(known, classes[c.target := k], send, cands, limit)
  {
    var k := ClassAt(DepthOf(known, classes, c.base), c, limit);
    assert c.target in TargetsOf(cands);
    RightlyNow(known, classes, send, c, limit);
    forall d | d in cands && d.target in classes[c.target := k]
      ensures Rightly(known, classes[c.target := k], send, d, limit)
    {
      if d.target == c.target {
        SameCandidate(cands, c, d);
      } else {
        RightlyStill(known, classes, send, d, limit, c.target, k);
      }
    }
  }

  /** The candidates still to decide: distinct, and with those decided, all of them. */
  ghost predicate Pending(pending: seq<Candidate>, classes: Classes, cands: seq<Candidate>) {
    && Distinct(pending) && (forall c :: c in pending ==> c in cands && c.target !in classes)
    && forall c :: c in cands ==> c in pending || c.target in classes
  }

  /** One candidate, its base's depth known. */
  method ClassifyOne(c: Candidate, depth: nat, pool: set<Text>, limit: nat) returns (r: Result<Class, Error>)
    ensures r.Ok? ==> r.value == ClassAt(Some(depth), c, limit)
    ensures r.Err? <==> depth < limit && c.base != EMPTY && c.base !in pool
  {
    if depth >= limit { return Ok(AsKeyframe); }
    if c.base != EMPTY && c.base !in pool { return Err(Io); }
    var bytes := Reconstruct(c.base, c.line, c.target);
    r := Ok(if bytes.Ok? then AsConstruct(c.base, c.line, depth + 1) else AsKeyframe);
  }

  /** Where a round stands: before `k` each candidate is decided or deferred, and if all were
      deferred nothing has changed. */
  ghost predicate InRound(known: map<Text, nat>, send: set<Text>, cands: seq<Candidate>, pending: seq<Candidate>,
                          classes0: Classes, classes: Classes, deferred: seq<Candidate>, k: nat)
  {
    && k <= |pending| && |deferred| <= k && Distinct(deferred) && classes0.Keys <= classes.Keys
    && (forall c :: c in deferred ==> c in pending[..k] && c.target !in classes)
    && (forall c :: c in pending[..k] ==> c in deferred || c.target in classes)
    && (forall j :: k <= j < |pending| ==> pending[j].target !in classes)
    && (|deferred| == k ==> classes == classes0 && deferred == pending[..k]
                            && forall c :: c in deferred ==> Waits(known, classes, send, c))
  }

  lemma RoundDefers(known: map<Text, nat>, send: set<Text>, cands: seq<Candidate>, pending: seq<Candidate>,
                    classes0: Classes, classes: Classes, deferred: seq<Candidate>, k: nat)
    requires InRound(known, send, cands, pending, classes0, classes, deferred, k) && k < |pending| && Distinct(pending)
    requires Waits(known, classes, send, pending[k])
    ensures InRound(known, send, cands, pending, classes0, classes, deferred + [pending[k]], k + 1)
  {
    assert pending[..k + 1] == pending[..k] + [pending[k]];
    forall j | 0 <= j < |deferred| ensures deferred[j].target != pending[k].target {
      assert deferred[j] in deferred;
      var i :| 0 <= i < k && pending[..k][i] == deferred[j];
    }
  }

  lemma RoundDecides(known: map<Text, nat>, send: set<Text>, cands: seq<Candidate>, pending: seq<Candidate>,
                     classes0: Classes, classes: Classes, deferred: seq<Candidate>, k: nat, class_: Class)
    requires InRound(known, send, cands, pending, classes0, classes, deferred, k) && k < |pending| && Distinct(pending)
    ensures InRound(known, send, cands, pending, classes0, classes[pending[k].target := class_], deferred, k + 1)
  {
    assert pending[..k + 1] == pending[..k] + [pending[k]];
    forall c | c in deferred ensures c.target != pending[k].target {
      var i :| 0 <= i < k && pending[..k][i] == c;
    }
  }

  /** One round: decide each candidate whose base is settled, defer those waiting on one. */
  method ClassifyRound(known: map<Text, nat>, send: set<Text>, pool: set<Text>, ghost cands: seq<Candidate>,
                       limit: nat, pending: seq<Candidate>, classes0: Classes)
    returns (r: Result<Classes, Error>, deferred: seq<Candidate>)
    requires Settled(known, classes0, send, cands, limit) && Pending(pending, classes0, cands)
    ensures r.Err? ==> exists c :: c in pending && c.base != EMPTY && c.base !in pool
    ensures r.Ok? ==> Settled(known, r.value, send, cands, limit) && Pending(deferred, r.value, cands)
    ensures r.Ok? ==> |deferred| <= |pending|
    ensures r.Ok? && |deferred| == |pending| ==> forall c :: c in deferred ==> Waits(known, r.value, send, c)
  {
    var classes := classes0;
    deferred := [];
    for k := 0 to |pending|
      invariant Settled(known, classes, send, cands, limit)
      invariant InRound(known, send, cands, pending, classes0, classes, deferred, k)
    {
      var c := pending[k];
      assert c in pending;
      var depth := DepthOf(known, classes, c.base);
      if depth.None? && c.base in send {
        RoundDefers(known, send, cands, pending, classes0, classes, deferred, k);
        deferred := deferred + [c];
      } else {
        var decided := AsKeyframe;
        if depth.Some? {
          var one := ClassifyOne(c, depth.value, pool, limit);
          if one.Err? { return Err(one.error), deferred; }
          decided := one.value;
        }
        SettledMore(known, classes, send, cands, limit, c);
        RoundDecides(known, send, cands, pending, classes0, classes, deferred, k, decided);
        classes := classes[c.target := decided];
      }
    }
    assert pending[..|pending|] == pending;
    r := Ok(classes);
  }

  /** What was settled stands, and the stuck are keyframes. */
  predicate Keyframed(settled: Classes, classes: Classes, stuck: set<Text>) {
    && classes.Keys == settled.Keys + stuck
    && forall t :: t in classes ==> classes[t] == if t in settled then settled[t] else AsKeyframe
  }

  /** Settle what is left as keyframes. */
  method Keyframes(deferred: seq<Candidate>, settled: Classes) returns (classes: Classes)
    requires forall c :: c in deferred ==> c.target !in settled
    ensures Keyframed(settled, classes, TargetsOf(deferred))
  {
    classes := settled;
    for k := 0 to |deferred|
      invariant Keyframed(settled, classes, TargetsOf(deferred[..k]))
    {
      assert deferred[k] in deferred && deferred[..k + 1] == deferred[..k] + [deferred[k]];
      NextTarget(deferred[..k], deferred[k]);
      classes := classes[deferred[k].target := AsKeyframe];
    }
    assert deferred[..|deferred|] == deferred;
  }

  lemma StuckIsStuck(known: map<Text, nat>, settled: Classes, classes: Classes, send: set<Text>, cands: seq<Candidate>,
                     deferred: seq<Candidate>, limit: nat)
    requires Settled(known, settled, send, cands, limit) && Pending(deferred, settled, cands)
    requires forall c :: c in deferred ==> Waits(known, settled, send, c)
    requires Keyframed(settled, classes, TargetsOf(deferred))
    ensures Classified(known, classes, send, cands, TargetsOf(deferred), limit)
  {
    var stuck := TargetsOf(deferred);
    assert stuck <= TargetsOf(cands);
    forall c | c in cands
      ensures if c.target in stuck then Stuck(known, classes, send, c, stuck)
              else Rightly(known, classes, send, c, limit)
    {
      if c.target in stuck {
        var d :| d in deferred && d.target == c.target;
        SameCandidate(cands, c, d);
      } else {
        assert c.target in settled && Rightly(known, settled, send, c, limit);
      }
    }
  }

  lemma NoneStuck(known: map<Text, nat>, classes: Classes, send: set<Text>, cands: seq<Candidate>, limit: nat)
    requires Settled(known, classes, send, cands, limit) && Pending([], classes, cands)
    ensures Classified(known, classes, send, cands, {}, limit)
  {
  }

  /** Classify to a fixpoint; what no round settles becomes keyframes. */
  method Classify(known: map<Text, nat>, send: set<Text>, pool: set<Text>, cands: seq<Candidate>, limit: nat)
    returns (r: Result<Classes, Error>, ghost stuck: set<Text>)
    requires Distinct(cands) && TargetsOf(cands) <= send
    ensures r.Err? ==> exists c :: c in cands && c.base != EMPTY && c.base !in pool
    ensures r.Ok? ==> Classified(known, r.value, send, cands, stuck, limit)
  {
    var classes: Classes, pending := map[], cands;
    while pending != []
      invariant Settled(known, classes, send, cands, limit) && Pending(pending, classes, cands)
      decreases |pending|
    {
      var round, deferred := ClassifyRound(known, send, pool, cands, limit, pending, classes);
      if round.Err? { return Err(round.error), {}; }
      classes := round.value;
      if |deferred| == |pending| {
        var all := Keyframes(deferred, classes);
        StuckIsStuck(known, classes, all, send, cands, deferred, limit);
        return Ok(all), TargetsOf(deferred);
      }
      pending := deferred;
    }
    NoneStuck(known, classes, send, cands, limit);
    r, stuck := Ok(classes), {};
  }
}
