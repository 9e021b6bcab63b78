/** The whole plan (src/claude.rs, `plan`): whichever of the two replays it ends on, it ends at the
    state of the calls as written, but for the working tree's bytes where an op owned what changed. */
module Planning {
  import opened Wrappers
  import opened Spans
  import opened Patch
  import opened Programs
  import opened Planner
  import opened PassState
  import opened Sessions
  import opened Alignment

  /** One harness call: its id, and whatever its own fields hold. */
  datatype Call = Call(id: string, fields: Text)

  /** How a call's fields become an intent, against the state it meets. */
  type IntentFor = (Call, State, set<Text>) -> Result<seq<Op>, Error>

  /** What trying the calls in order did: the accepted intents, `None` for a skipped call. */
  datatype Tried = Tried(state: State, pool: set<Text>, accepted: seq<Option<seq<Op>>>)

  function TryCall(t: Tried, call: Call, recorded: set<string>, intentFor: IntentFor): Result<Tried, Error> {
    if call.id in recorded then Ok(t)
    else match intentFor(call, t.state, t.pool)
      case Err(Precondition) => Ok(t.(accepted := t.accepted + [None]))
      case Err(e) => Err(e)
      case Ok(ops) =>
        match RunOps(ops, t.state, t.pool)
        case Err(Precondition) => Ok(t.(accepted := t.accepted + [None]))
        case Err(e) => Err(e)
        case Ok(r) => Ok(Tried(r.state, t.pool + r.blobs, t.accepted + [Some(ops)]))
  }

  /** The calls as written: each unrecorded call applied in turn, or skipped. */
  function AsWritten(calls: seq<Call>, recorded: set<string>, start: State, pool: set<Text>,
                     intentFor: IntentFor): Result<Tried, Error>
  {
    if calls == [] then Ok(Tried(start, pool, []))
    else match AsWritten(calls[..|calls| - 1], recorded, start, pool, intentFor)
      case Err(e) => Err(e)
      case Ok(t) => TryCall(t, calls[|calls| - 1], recorded, intentFor)
  }

  lemma AsWrittenPrefix(calls: seq<Call>, recorded: set<string>, start: State, pool: set<Text>, intentFor: IntentFor,
                        k: nat)
    requires k <= |calls| && AsWritten(calls[..k], recorded, start, pool, intentFor).Err?
    ensures AsWritten(calls, recorded, start, pool, intentFor)
        == AsWritten(calls[..k], recorded, start, pool, intentFor)
  {
    if k < |calls| {
      var init := calls[..|calls| - 1];
      assert init[..k] == calls[..k];
      AsWrittenPrefix(init, recorded, start, pool, intentFor, k);
    } else {
      assert calls[..k] == calls;
    }
  }

  /** The plan keeps every accepted call, with its intent as written, and skips the rest. */
  ghost predicate Keeps(planned: seq<Outcome>, accepted: seq<Option<seq<Op>>>) {
    && |planned| == |accepted|
    && forall i :: 0 <= i < |planned| ==>
         if accepted[i].None? then planned[i].Skip?
         else !planned[i].Skip? && planned[i].faithful == accepted[i].value
  }

  /** An absorbed call is listed by the landed line that carries it. */
  ghost predicate Accounted(planned: seq<Outcome>) {
    forall i :: 0 <= i < |planned| && planned[i].Absorbed? ==>
      exists j :: 0 <= j < i && planned[j].Land? && i in planned[j].absorbed
  }

  /** A landed intent is the call's own but for what absorption and alignment wrote into `new_str`s. */
  ghost predicate Shaped(planned: seq<Outcome>) {
    forall i :: 0 <= i < |planned| && planned[i].Land? ==> SameButNewStr(planned[i].faithful, planned[i].intent)
  }

  lemma SameTwice(a: seq<Op>, b: seq<Op>, c: seq<Op>)
    requires SameButNewStr(a, b) && SameButNewStr(b, c)
    ensures SameButNewStr(a, c)
  {
  }

  //////////////////////////////////// why a replay cannot fail outright /////////////////////////////////

  predicate WellFormed(op: Op) {
    && ValidPath(op.path)
    && (op.Create? ==> ValidMode(op.mode) && (op.blob.Some? <==> op.inline.None?))
    && (op.Chmod? ==> ValidMode(op.newMode))
  }

  ghost predicate AllFormed(planned: seq<Outcome>) {
    forall i :: 0 <= i < |planned| && planned[i].Land? ==> forall op :: op in planned[i].intent ==> WellFormed(op)
  }

  /** Every element is a valid record whose blob is pooled. */
  ghost predicate Closed(s: State, pool: set<Text>) {
    forall p :: p in s ==> s[p].path == p && ValidPath(p) && ValidMode(s[p].mode) && s[p].blob in pool
  }

  lemma AppliedIsFormed(op: Op, s: State, known: set<Text>)
    requires ApplyOp(op, s, known).Ok?
    ensures WellFormed(op)
  {}

  lemma RanAreFormed(ops: seq<Op>, s: State, pool: set<Text>)
    requires RunOps(ops, s, pool).Ok?
    ensures forall op :: op in ops ==> WellFormed(op)
  {
    if ops != [] {
      var init, last := ops[..|ops| - 1], ops[|ops| - 1];
      RanAreFormed(init, s, pool);
      var r := RunOps(init, s, pool).value;
      AppliedIsFormed(last, r.state, pool + r.blobs);
      assert ops == init + [last];
    }
  }

  lemma FormedOp(op: Op, s: State, known: set<Text>)
    requires WellFormed(op) && Closed(s, known)
    ensures ApplyOp(op, s, known).Err? ==> ApplyOp(op, s, known).error == Precondition
    ensures ApplyOp(op, s, known).Ok? ==> var f := ApplyOp(op, s, known).value; Closed(f.state, known + f.blobs)
  {}

  lemma FormedRun(ops: seq<Op>, s: State, pool: set<Text>)
    requires (forall op :: op in ops ==> WellFormed(op)) && Closed(s, pool)
    ensures RunOps(ops, s, pool).Err? ==> RunOps(ops, s, pool).error == Precondition
    ensures RunOps(ops, s, pool).Ok? ==> var r := RunOps(ops, s, pool).value; Closed(r.state, pool + r.blobs)
  {
    if ops != [] {
      var init, last := ops[..|ops| - 1], ops[|ops| - 1];
      assert ops == init + [last];
      FormedRun(init, s, pool);
      if RunOps(init, s, pool).Ok? {
        var r := RunOps(init, s, pool).value;
        FormedOp(last, r.state, pool + r.blobs);
        if ApplyOp(last, r.state, pool + r.blobs).Ok? {
          var f := ApplyOp(last, r.state, pool + r.blobs).value;
          assert pool + r.blobs + f.blobs == pool + (r.blobs + f.blobs);
        }
      }
    }
  }

  lemma ClosedGrows(s: State, pool: set<Text>, pool': set<Text>)
    requires Closed(s, pool) && pool <= pool'
    ensures Closed(s, pool')
  {}

  lemma NeverFails(planned: seq<Outcome>, s: State, pool: set<Text>, strict: bool)
    requires AllFormed(planned) && Closed(s, pool)
    ensures !Replayed(planned, s, pool, strict).Failed?
    ensures var v := Replayed(planned, s, pool, strict); v.Done? ==> Closed(v.state, v.pool)
  {
    if planned != [] {
      var init, last := planned[..|planned| - 1], planned[|planned| - 1];
      NeverFails(init, s, pool, strict);
      var v := Replayed(init, s, pool, strict);
      if v.Done? && last.Land? { FormedRun(last.intent, v.state, v.pool); }
    }
  }

  ///////////////////////////////////////////// the fallback ////////////////////////////////////////////

  lemma RunOpsGrows(ops: seq<Op>, s: State, pool: set<Text>, pool': set<Text>)
    requires pool <= pool' && RunOps(ops, s, pool).Ok?
    ensures RunOps(ops, s, pool') == RunOps(ops, s, pool)
  {
    if ops != [] {
      var init, last := ops[..|ops| - 1], ops[|ops| - 1];
      RunOpsGrows(init, s, pool, pool');
      var r := RunOps(init, s, pool).value;
      assert ApplyOp(last, r.state, pool' + r.blobs) == ApplyOp(last, r.state, pool + r.blobs);
    }
  }

  function UnwoundOne(o: Outcome): Outcome {
    if o.Skip? then o else Land(o.faithful, o.faithful, [])
  }

  /** Every accepted call lands by itself again, with the intent it came with. */
  function Unwound(planned: seq<Outcome>): (r: seq<Outcome>)
    ensures |r| == |planned| && forall i :: 0 <= i < |planned| ==> r[i] == UnwoundOne(planned[i])
  {
    seq(|planned|, i requires 0 <= i < |planned| => UnwoundOne(planned[i]))
  }

  /** `t` is `t0` after one unrecorded call. */
  predicate Next(t0: Tried, t: Tried) {
    && |t.accepted| == |t0.accepted| + 1 && t.accepted[..|t0.accepted|] == t0.accepted
    && var last := t.accepted[|t0.accepted|];
       if last.None? then t.state == t0.state && t.pool == t0.pool
       else RunOps(last.value, t0.state, t0.pool).Ok? && t.state == RunOps(last.value, t0.state, t0.pool).value.state
            && t0.pool <= t.pool
  }

  /** The calls but the last, and what trying the last one did. */
  lemma WrittenLast(calls: seq<Call>, recorded: set<string>, start: State, pool: set<Text>, intentFor: IntentFor,
                    t: Tried)
    returns (t0: Tried)
    requires calls != [] && AsWritten(calls, recorded, start, pool, intentFor) == Ok(t)
    ensures AsWritten(calls[..|calls| - 1], recorded, start, pool, intentFor) == Ok(t0)
    ensures t == t0 || Next(t0, t)
  {
    t0 := AsWritten(calls[..|calls| - 1], recorded, start, pool, intentFor).value;
  }

  lemma KeepsPrefix(planned: seq<Outcome>, t0: Tried, t: Tried)
    requires Keeps(planned, t.accepted) && Next(t0, t)
    ensures var n := |planned| - 1;
            n >= 0 && Keeps(planned[..n], t0.accepted) && t0.pool <= t.pool
            && var a := t.accepted[|t0.accepted|];
               if a.None? then planned[n].Skip? else UnwoundOne(planned[n]) == Land(a.value, a.value, [])
  {}

  /** An accepted call, as written, lands again on the same state with a larger pool. */
  lemma LandsAccepted(v: Verdict, t0: Tried, t: Tried, last: Outcome, strict: bool)
    requires v.Done? && v.state == t0.state && t0.pool <= v.pool && Next(t0, t)
    requires var a := t.accepted[|t0.accepted|];
             if a.None? then last.Skip? else last.Land? && last.intent == a.value
    ensures var w := LandOne(v, last, strict);
            w.Done? && w.planned == v.planned + [last] && w.state == t.state && v.pool <= w.pool
  {
    if last.Land? { RunOpsGrows(last.intent, t0.state, t0.pool, v.pool); }
  }

  ghost predicate Exact(planned: seq<Outcome>, start: State, pool: set<Text>, strict: bool, state: State) {
    var v := Replayed(Unwound(planned), start, pool, strict);
    v.Done? && v.planned == Unwound(planned) && pool <= v.pool && v.state == state
  }

  /** The unwound plan lands every accepted call, skips none of them, and ends where the
      calls as written ended; strict or lenient makes no difference to it. */
  lemma {:induction false} FallbackIsExact(planned: seq<Outcome>, calls: seq<Call>, recorded: set<string>, start: State,
                                           pool: set<Text>, intentFor: IntentFor, t: Tried, pool': set<Text>,
                                           strict: bool)
    requires AsWritten(calls, recorded, start, pool, intentFor) == Ok(t)
    requires Keeps(planned, t.accepted) && t.pool <= pool'
    ensures Exact(planned, start, pool', strict, t.state)
    decreases |calls|
  {
    if calls == [] {
      assert Unwound(planned) == [];
    } else {
      var t0 := WrittenLast(calls, recorded, start, pool, intentFor, t);
      if t == t0 {
        FallbackIsExact(planned, calls[..|calls| - 1], recorded, start, pool, intentFor, t0, pool', strict);
      } else {
        KeepsPrefix(planned, t0, t);
        FallbackIsExact(planned[..|planned| - 1], calls[..|calls| - 1], recorded, start, pool, intentFor, t0, pool',
                        strict);
        ExactGrows(planned, start, pool', strict, t0, t);
      }
    }
  }

  lemma ExactGrows(planned: seq<Outcome>, start: State, pool: set<Text>, strict: bool, t0: Tried, t: Tried)
    requires Keeps(planned, t.accepted) && Next(t0, t) && planned != [] && t0.pool <= pool
    requires Exact(planned[..|planned| - 1], start, pool, strict, t0.state)
    ensures Exact(planned, start, pool, strict, t.state)
  {
    var n, u := |planned| - 1, Unwound(planned);
    UnwoundLast(planned);
    var v := Replayed(u[..n], start, pool, strict);
    assert Replayed(u, start, pool, strict) == LandOne(v, u[n], strict);
    KeepsPrefix(planned, t0, t);
    LandsAccepted(v, t0, t, u[n], strict);
    assert u == u[..n] + [u[n]];
  }

  lemma UnwoundLast(planned: seq<Outcome>)
    requires planned != []
    ensures Unwound(planned)[..|planned| - 1] == Unwound(planned[..|planned| - 1])
  {
  }

  method Unwind(planned: seq<Outcome>) returns (r: seq<Outcome>)
    ensures r == Unwound(planned)
  {
    r := planned;
    for i := 0 to |planned|
      invariant |r| == |planned|
      invariant forall j :: 0 <= j < i ==> r[j] == UnwoundOne(planned[j])
      invariant forall j :: i <= j < |planned| ==> r[j] == planned[j]
    {
      match r[i] {
        case Land(_, faithful, _) => r := r[i := Land(faithful, faithful, [])];
        case Absorbed(faithful) => r := r[i := Land(faithful, faithful, [])];
        case Skip =>
      }
    }
  }

  ////////////////////////////////////////////// the plan ///////////////////////////////////////////////

  /** What one call does to the notes pass 1 keeps, at the state and pool it meets. */
  function NoteCall(n: Pass, t: Tried, call: Call, recorded: set<string>, intentFor: IntentFor): Pass {
    if call.id in recorded then n
    else
      match intentFor(call, t.state, t.pool)
      case Err(_) => Skipped(n)
      case Ok(ops) =>
        var staged := StagedFor(n, ops, t);
        if RunOps(ops, t.state, t.pool).Ok? then Taken(staged, ops) else Skipped(staged)
  }

  function StagedFor(n: Pass, ops: seq<Op>, t: Tried): Pass {
    n.(contents := Staged(n.contents, ops, t.pool, t.state))
  }

  /** What pass 1 leaves. */
  function PassAfter(calls: seq<Call>, recorded: set<string>, start: State, pool: set<Text>,
                     intentFor: IntentFor): Pass
  {
    if calls == [] then Pass([], map[], map[])
    else
      var init := calls[..|calls| - 1];
      match AsWritten(init, recorded, start, pool, intentFor)
      case Err(_) => PassAfter(init, recorded, start, pool, intentFor)
      case Ok(t) =>
        NoteCall(PassAfter(init, recorded, start, pool, intentFor), t, calls[|calls| - 1], recorded, intentFor)
  }

  /** What pass 1 keeps as it goes. */
  ghost predicate Going(session: Session, t: Tried, start: State)
    reads session
  {
    session.Valid(start, t.state) && Sensible(session.planned, t.accepted)
  }

  /** The plan keeps every accepted call, accounts for the absorbed, and lands well-formed ops that
      are the calls' own but for their `new_str`s. */
  ghost predicate Sensible(planned: seq<Outcome>, accepted: seq<Option<seq<Op>>>) {
    Keeps(planned, accepted) && Accounted(planned) && AllFormed(planned) && Shaped(planned)
  }

  lemma FoldIsSensible(before: seq<Outcome>, after: seq<Outcome>, ops: seq<Op>, accepted: seq<Option<seq<Op>>>)
    requires Sensible(before, accepted)
    requires exists into: nat :: FoldedInto(before, after, into, |before|)
    ensures Sensible(after + [Absorbed(ops)], accepted + [Some(ops)])
  {
    var into: nat :| FoldedInto(before, after, into, |before|);
    var planned := after + [Absorbed(ops)];
    forall i | 0 <= i < |planned| && planned[i].Absorbed?
      ensures exists j :: 0 <= j < i && planned[j].Land? && i in planned[j].absorbed
    {
      if i < |before| {
        var j :| 0 <= j < i && before[j].Land? && i in before[j].absorbed;
        assert planned[j].Land? && i in planned[j].absorbed;
      } else {
        assert planned[into].Land? && i in planned[into].absorbed;
      }
    }
    forall op | op in after[into].intent ensures WellFormed(op) {
      var k :| 0 <= k < |after[into].intent| && after[into].intent[k] == op;
      assert before[into].intent[k] in before[into].intent;
    }
    SameTwice(before[into].faithful, before[into].intent, after[into].intent);
  }

  lemma PushIsSensible(before: seq<Outcome>, last: Outcome, accepted: seq<Option<seq<Op>>>, next: Option<seq<Op>>)
    requires Sensible(before, accepted)
    requires last == if next.Some? then Land(next.value, next.value, []) else Skip
    requires next.Some? ==> forall op :: op in next.value ==> WellFormed(op)
    ensures Sensible(before + [last], accepted + [next])
  {
    var planned := before + [last];
    forall i | 0 <= i < |planned| && planned[i].Absorbed?
      ensures exists j :: 0 <= j < i && planned[j].Land? && i in planned[j].absorbed
    {
      var j :| 0 <= j < i && before[j].Land? && i in before[j].absorbed;
      assert planned[j].Land? && i in planned[j].absorbed;
    }
  }

  /** Land or fold one call that applied. */
  method TakeCall(session: Session, ops: seq<Op>, ghost start: State, ghost t: Tried, ghost next: Tried)
    requires Going(session, t, start) && RunOps(ops, t.state, t.pool).Ok?
    requires next.state == RunOps(ops, t.state, t.pool).value.state && next.accepted == t.accepted + [Some(ops)]
    modifies session
    ensures Going(session, next, start)
    ensures session.Notes() == Taken(old(session.Notes()), ops)
  {
    ghost var ats, states := TraceOf(ops, t.state, t.pool);
    ghost var before := session.planned;
    RanAreFormed(ops, t.state, t.pool);
    var seat := |session.planned|;
    var folded := session.Absorb(seat, ops, start, ats, states);
    if folded {
      FoldIsSensible(before, session.planned, ops, t.accepted);
      FoldCall(session, ops, start, next);
    } else {
      PushCall(session, ops, start, t, next, ats, states);
    }
  }

  /** Note that a call has folded. */
  method FoldCall(session: Session, ops: seq<Op>, ghost start: State, ghost next: Tried)
    requires session.Valid(start, next.state) && Sensible(session.planned + [Absorbed(ops)], next.accepted)
    modifies session
    ensures Going(session, next, start)
    ensures session.Notes() == old(session.Notes()).(planned := old(session.planned) + [Absorbed(ops)])
  {
    InStepLater(session.Notes(), session.prog, start, next.state, |session.planned|, 0);
    session.Record(Absorbed(ops), start, next.state);
  }

  /** Land one call that did not fold, attributing what it wrote. */
  method PushCall(session: Session, ops: seq<Op>, ghost start: State, ghost t: Tried, ghost next: Tried,
                  ghost ats: seq<nat>, ghost states: seq<State>)
    requires Going(session, t, start) && IsTrace(ops, ats, states) && states[0] == t.state
        && states[|ops|] == next.state
    requires next.accepted == t.accepted + [Some(ops)] && forall op :: op in ops ==> WellFormed(op)
    modifies session
    ensures Going(session, next, start)
    ensures session.Notes() == CarryOps(old(session.Notes()), |old(session.planned)|, ops).(
              planned := old(session.planned) + [Land(ops, ops, [])])
  {
    PushIsSensible(session.planned, Land(ops, ops, []), t.accepted, Some(ops));
    TraceKeyed(ops, ats, states);
    session.Attribute(|session.planned|, ops, start, ats, states);
    InStepLater(session.Notes(), session.prog, start, next.state, |session.planned|, |ops|);
    session.Record(Land(ops, ops, []), start, next.state);
  }

  method SkipCall(session: Session, ghost start: State, ghost t: Tried)
    requires Going(session, t, start)
    modifies session
    ensures Going(session, t.(accepted := t.accepted + [None]), start)
    ensures session.Notes() == Skipped(old(session.Notes()))
  {
    InStepLater(session.Notes(), session.prog, start, t.state, |session.planned|, 0);
    PushIsSensible(session.planned, Skip, t.accepted, None);
    session.Record(Skip, start, t.state);
  }

  /** One call of pass 1: recorded, skipped, or applied and then folded or landed. */
  method PassCall(session: Session, manifest: Manifest, known: set<Text>, call: Call, recorded: set<string>,
                  intentFor: IntentFor, ghost start: State, ghost t: Tried)
    returns (r: Result<set<Text>, Error>, ghost next: Tried)
    requires Going(session, t, start) && manifest.elements == t.state && known == t.pool
    modifies session, manifest
    ensures match TryCall(t, call, recorded, intentFor)
            case Err(e) => r == Err(e)
            case Ok(tried) =>
              && r == Ok(next.pool) && next == tried && manifest.elements == next.state
              && Going(session, next, start)
              && session.Notes() == NoteCall(old(session.Notes()), t, call, recorded, intentFor)
  {
    next := t;
    if call.id in recorded { return Ok(known), next; }
    var intent := intentFor(call, manifest.elements, known);
    match intent {
      case Err(Precondition) =>
        SkipCall(session, start, t);
        r, next := Ok(known), t.(accepted := t.accepted + [None]);
      case Err(e) =>
        r := Err(e);
      case Ok(ops) =>
        r, next := ApplyCall(session, manifest, known, ops, start, t);
    }
  }

  /** Apply one call's intent, all of it or none. */
  method ApplyCall(session: Session, manifest: Manifest, known: set<Text>, ops: seq<Op>, ghost start: State,
                   ghost t: Tried)
    returns (r: Result<set<Text>, Error>, ghost next: Tried)
    requires Going(session, t, start) && manifest.elements == t.state && known == t.pool
    modifies session, manifest
    ensures match RunOps(ops, t.state, t.pool)
            case Err(Precondition) =>
              && r == Ok(t.pool) && next == t.(accepted := t.accepted + [None]) && manifest.elements == t.state
              && Going(session, next, start) && session.Notes() == Skipped(StagedFor(old(session.Notes()), ops, t))
            case Err(e) => r == Err(e)
            case Ok(run) =>
              && r == Ok(next.pool) && next == Tried(run.state, t.pool + run.blobs, t.accepted + [Some(ops)])
              && manifest.elements == next.state
              && Going(session, next, start) && session.Notes() == Taken(StagedFor(old(session.Notes()), ops, t), ops)
  {
    next := t;
    session.Stage(ops, known, manifest.elements, start);
    var applied := ApplyIntent(ops, manifest, known);
    match applied {
      case Err(Precondition) =>
        SkipCall(session, start, t);
        r, next := Ok(known), t.(accepted := t.accepted + [None]);
      case Err(e) =>
        r := Err(e);
      case Ok(run) =>
        next := Tried(run.state, known + run.blobs, t.accepted + [Some(ops)]);
        TakeCall(session, ops, start, t, next);
        r := Ok(known + run.blobs);
    }
  }

  /** Pass 1: the manifest follows the calls as written while the session keeps its plan in step. */
  method PassOne(calls: seq<Call>, recorded: set<string>, start: State, pool: set<Text>, intentFor: IntentFor)
    returns (r: Result<set<Text>, Error>, session: Session)
    requires Keyed(start)
    ensures match AsWritten(calls, recorded, start, pool, intentFor)
            case Err(e) => r == Err(e)
            case Ok(t) =>
              && r == Ok(t.pool) && Going(session, t, start)
              && session.Notes() == PassAfter(calls, recorded, start, pool, intentFor)
    ensures fresh(session)
  {
    session := new Session();
    var manifest := new Manifest(start);
    var known := pool;
    ghost var t := Tried(start, pool, []);
    for k := 0 to |calls|
      invariant fresh(manifest) && fresh(session)
      invariant AsWritten(calls[..k], recorded, start, pool, intentFor) == Ok(t)
      invariant manifest.elements == t.state && known == t.pool
      invariant Going(session, t, start) && session.Notes() == PassAfter(calls[..k], recorded, start, pool, intentFor)
    {
      assert calls[..k + 1][..k] == calls[..k];
      if AsWritten(calls[..k + 1], recorded, start, pool, intentFor).Err? {
        AsWrittenPrefix(calls, recorded, start, pool, intentFor, k + 1);
      }
      var one;
      one, t := PassCall(session, manifest, known, calls[k], recorded, intentFor, start, t);
      if one.Err? { return Err(one.error), session; }
      known := one.value;
    }
    assert calls[..|calls|] == calls;
    r := Ok(known);
  }

  /** A plan a caller may land: no accepted call is lost, every landed intent is its call's own but
      for its `new_str`s, and every line applies in turn, to the state given. */
  ghost predicate Faithful(planned: seq<Outcome>, state: State, start: State, t: Tried) {
    && Keeps(planned, t.accepted) && Accounted(planned) && Shaped(planned)
    && Replayed(planned, start, t.pool, true).Done? && Replayed(planned, start, t.pool, true).state == state
  }

  lemma StrictKeepsPlan(planned: seq<Outcome>, s: State, pool: set<Text>)
    requires Replayed(planned, s, pool, true).Done?
    ensures Replayed(planned, s, pool, true).planned == planned
  {
    if planned != [] { StrictKeepsPlan(planned[..|planned| - 1], s, pool); }
  }

  /** Alignment loses no call and leaves every op well formed. */
  lemma AlignedKeeps(before: seq<Outcome>, after: seq<Outcome>, accepted: seq<Option<seq<Op>>>)
    requires SameLines(before, after) && Sensible(before, accepted)
    ensures Sensible(after, accepted)
  {
    forall i | 0 <= i < |after| ensures SameLine(before[i], after[i]) {}
    forall i | 0 <= i < |after| && after[i].Absorbed?
      ensures exists j :: 0 <= j < i && after[j].Land? && i in after[j].absorbed
    {
      var j :| 0 <= j < i && before[j].Land? && i in before[j].absorbed;
      assert after[j].Land? && i in after[j].absorbed;
    }
    forall i | 0 <= i < |after| && after[i].Land? ensures forall op :: op in after[i].intent ==> WellFormed(op) {
      forall k: nat | k < |after[i].intent| ensures WellFormed(after[i].intent[k]) {
        assert before[i].intent[k] in before[i].intent;
      }
    }
    forall i | 0 <= i < |after| && after[i].Land? ensures SameButNewStr(after[i].faithful, after[i].intent) {
      SameTwice(before[i].faithful, before[i].intent, after[i].intent);
    }
  }

  /** The plan to land and the state it leaves: the aligned plan where it replays strictly, else the
      calls as written. */
  predicate Decides(planned: seq<Outcome>, landed: State, start: State, t: Tried,
                    r: Result<(seq<Outcome>, State), Error>)
  {
    match Replayed(planned, start, t.pool, true)
    case Done(_, _, _) => r == Ok((planned, landed))
    case Declined => r == Ok((Unwound(planned), t.state))
    case Failed(e) => r == Err(e)
  }

  lemma UnwoundIsShaped(planned: seq<Outcome>)
    ensures Shaped(Unwound(planned))
  {
  }

  /** Land the plan as it stands, or else the calls as written: neither loses a call. */
  method Settle(planned: seq<Outcome>, start: State, known: set<Text>, ghost prog: seq<Step>, ghost landed: State,
                ghost calls: seq<Call>, ghost recorded: set<string>, ghost pool: set<Text>,
                ghost intentFor: IntentFor, ghost t: Tried)
    returns (r: Result<(seq<Outcome>, State), Error>)
    requires Keyed(start) && AsWritten(calls, recorded, start, pool, intentFor) == Ok(t) && t.pool == known
    requires Sensible(planned, t.accepted) && Planned(prog, start, planned) && PosRun(prog, start) == Some(landed)
    ensures Decides(planned, landed, start, t, r)
    ensures r.Ok? ==> Faithful(r.value.0, r.value.1, start, t)
  {
    var verdict := Planner.Replay(planned, start, known, true);
    match verdict {
      case Done(done, state, _) =>
        StrictIsPinned(planned, prog, start, known);
        StrictKeepsPlan(planned, start, known);
        return Ok((done, state));
      case Failed(e) =>
        return Err(e);
      case Declined =>
    }
    var unwound := Unwind(planned);
    FallbackIsExact(planned, calls, recorded, start, pool, intentFor, t, known, false);
    FallbackIsExact(planned, calls, recorded, start, pool, intentFor, t, known, true);
    UnwoundIsShaped(planned);
    var lenient := Planner.Replay(unwound, start, known, false);
    r := Ok((lenient.planned, lenient.state));
  }

  /** What a plan is, and what it is worth.  Pass 1 leaves the notes `PassAfter` defines, and `pass`
      is a program of its plan that lands every call's result by offset.  Each region the tree takes
      is one the line diff found and lies in bytes its op wrote.  The aligned plan is landed where it
      replays strictly, and then ends at the calls' own state with the tree's bytes in just those
      regions; else the calls are landed as written, and end at their own state.  Either way no call
      is lost and only `new_str`s differ from the calls'. */
  method Plan(calls: seq<Call>, recorded: set<string>, start: State, pool: set<Text>, intentFor: IntentFor,
              tree: map<Path, Text>)
    returns (r: Result<(seq<Outcome>, State), Error>, ghost pass: seq<Step>)
    requires Keyed(start)
    ensures match AsWritten(calls, recorded, start, pool, intentFor)
            case Err(e) => r == Err(e)
            case Ok(t) =>
              var n := PassAfter(calls, recorded, start, pool, intentFor);
              var owned := TakenBy(n, tree);
              && Passed(n, pass, start, t.state) && OverlaysSound(t.state, tree, owned, pass, start)
              && Decides(AlignedPlan(n.planned, tree, owned), Overlaid(t.state, tree, owned), start, t, r)
              && (r.Ok? ==> Faithful(r.value.0, r.value.1, start, t))
              && (Closed(start, pool) ==> r.Ok?)
  {
    pass := [];
    var first, session := PassOne(calls, recorded, start, pool, intentFor);
    if first.Err? { return Err(first.error), pass; }
    ghost var t := AsWritten(calls, recorded, start, pool, intentFor).value;
    ghost var n, owned := session.Notes(), TakenBy(session.Notes(), tree);
    pass := session.prog;
    Align(session, tree, start, t.state);
    AlignedIsSame(n.planned, tree, owned);
    AlignedKeeps(n.planned, session.planned, t.accepted);
    if Closed(start, pool) {
      PoolGrows(calls, recorded, start, pool, intentFor);
      ClosedGrows(start, pool, first.value);
      NeverFails(session.planned, start, first.value, true);
    }
    r := Settle(session.planned, start, first.value, session.prog, Overlaid(t.state, tree, owned), calls, recorded,
                pool, intentFor, t);
  }

  lemma PoolGrows(calls: seq<Call>, recorded: set<string>, start: State, pool: set<Text>, intentFor: IntentFor)
    requires AsWritten(calls, recorded, start, pool, intentFor).Ok?
    ensures pool <= AsWritten(calls, recorded, start, pool, intentFor).value.pool
  {
    if calls != [] { PoolGrows(calls[..|calls| - 1], recorded, start, pool, intentFor); }
  }
}
