/** Why union may try the cheap stratum first (src/union.rs, strata 2 and 3): what an intent
    realized once, replayed by membership alone, is what the intent would realize again. */
module Strata {
  import opened Wrappers
  import opened Spans
  import opened Patch

  /** An op's entry adjudicates where the op applied, and replaying it is the op's effect. */
  lemma OpRealizes(op: Op, s: State, known: set<Text>)
    requires Keyed(s) && ApplyOp(op, s, known).Ok?
    ensures var f := ApplyOp(op, s, known).value;
            Adjudicates(s, f.entry) && f.state == Step(s, f.entry) && Keyed(f.state)
  {
    var f := ApplyOp(op, s, known).value;
    if f.entry.remove.Some? && f.entry.add.Some? {
      assert (s - {op.path})[op.path := f.entry.add.value] == s[op.path := f.entry.add.value];
    }
  }

  /** Where the same entry adjudicates again, the op applies again, to the same effect. */
  lemma OpRealizesAgain(op: Op, s: State, known: set<Text>, t: State, more: set<Text>)
    requires Keyed(s) && Keyed(t) && known <= more
    requires ApplyOp(op, s, known).Ok? && Adjudicates(t, ApplyOp(op, s, known).value.entry)
    ensures var f := ApplyOp(op, s, known).value;
            ApplyOp(op, t, more) == Ok(Effect(Step(t, f.entry), f.entry, f.blobs)) && Keyed(Step(t, f.entry))
  {
    var f := ApplyOp(op, s, known).value;
    if f.entry.remove.Some? {
      assert s[op.path].path == op.path;
      assert t[op.path] == s[op.path];
      if f.entry.add.Some? {
        assert (t - {op.path})[op.path := f.entry.add.value] == t[op.path := f.entry.add.value];
      }
    }
  }

  /** An intent's realization adjudicates against the manifest the intent met, and replaying
      it reaches the manifest the intent left. */
  lemma {:induction false} IntentRealizes(ops: seq<Op>, s: State, pool: set<Text>)
    requires Keyed(s) && RunOps(ops, s, pool).Ok?
    ensures var r := RunOps(ops, s, pool).value;
            Replay(s, r.realized) == Some(r.state) && Keyed(r.state)
  {
    if ops != [] {
      var init := ops[..|ops| - 1];
      IntentRealizes(init, s, pool);
      var before := RunOps(init, s, pool).value;
      OpRealizes(ops[|ops| - 1], before.state, pool + before.blobs);
      ReplayLast(s, before.realized, RunOps(ops, s, pool).value.realized);
    }
  }

  lemma ReplayLast(s: State, init: seq<Entry>, all: seq<Entry>)
    requires |all| == |init| + 1 && init == all[..|init|]
    ensures Replay(s, all) ==
            (if Replay(s, init).Some? && Adjudicates(Replay(s, init).value, all[|init|])
             then Some(Step(Replay(s, init).value, all[|init|])) else None)
  {
  }

  /** Stratum 2 is a sound shortcut for stratum 3.  If an intent's realization adjudicates
      against a drifted manifest, re-running the intent there succeeds, with the identical
      realization, blobs, and resulting manifest. */
  lemma {:induction false} ShortcutIsSound(ops: seq<Op>, s: State, pool: set<Text>, t: State, more: set<Text>)
    requires Keyed(s) && Keyed(t) && pool <= more
    requires RunOps(ops, s, pool).Ok? && Replay(t, RunOps(ops, s, pool).value.realized).Some?
    ensures var r := RunOps(ops, s, pool).value;
            RunOps(ops, t, more) == Ok(Realization(Replay(t, r.realized).value, r.realized, r.blobs))
    ensures Keyed(Replay(t, RunOps(ops, s, pool).value.realized).value)
  {
    if ops != [] {
      var init := ops[..|ops| - 1];
      var before := RunOps(init, s, pool).value;
      var r := RunOps(ops, s, pool).value;
      assert r.realized[..|r.realized| - 1] == before.realized;
      ReplayLast(t, before.realized, r.realized);
      ShortcutIsSound(init, s, pool, t, more);
      IntentRealizes(init, s, pool);
      OpRealizesAgain(ops[|ops| - 1], before.state, pool + before.blobs,
                      Replay(t, before.realized).value, more + before.blobs);
    }
  }

  /** The two strata part exactly where re-running the intent would realize something else. */
  lemma StrataAgree(ops: seq<Op>, s: State, pool: set<Text>, t: State, more: set<Text>)
    requires Keyed(s) && Keyed(t) && pool <= more && RunOps(ops, s, pool).Ok?
    ensures var realized := RunOps(ops, s, pool).value.realized;
            Replay(t, realized).Some?
            <==> RunOps(ops, t, more).Ok? && RunOps(ops, t, more).value.realized == realized
  {
    if Replay(t, RunOps(ops, s, pool).value.realized).Some? {
      ShortcutIsSound(ops, s, pool, t, more);
    }
    if RunOps(ops, t, more).Ok? { IntentRealizes(ops, t, more); }
  }
}
