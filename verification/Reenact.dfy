/** Lines that mean what they realize: wherever a line's delta adjudicates, its intent runs to the
    same state.  Whatever replays intents alone (src/blame.rs, src/segment.rs, stratum 3) needs it. */
module Reenact {
  import opened Wrappers
  import opened Spans
  import opened Patch
  import opened Logs
  import opened Strata

  ghost predicate ReenactsAt(intent: seq<Op>, realized: seq<Entry>, pool: set<Text>, t: State, more: set<Text>) {
    Keyed(t) && pool <= more && Replay(t, realized).Some? ==>
      && RunOps(intent, t, more).Ok? && RunOps(intent, t, more).value.state == Replay(t, realized).value
      && RunOps(intent, t, more).value.blobs <= pool
  }

  /** The intent is another form of the delta, and writes no blob the pool lacks. */
  ghost predicate Reenacts(intent: seq<Op>, realized: seq<Entry>, pool: set<Text>) {
    forall t: State, more: set<Text> :: ReenactsAt(intent, realized, pool, t, more)
  }

  ghost predicate AllReenact(lines: seq<Line>, pool: set<Text>) {
    forall line :: line in lines ==> Reenacts(line.intent, line.realized, pool)
  }

  lemma MorePool(intent: seq<Op>, realized: seq<Entry>, pool: set<Text>, pool': set<Text>)
    requires Reenacts(intent, realized, pool) && pool <= pool'
    ensures Reenacts(intent, realized, pool')
  {
    forall t: State, more: set<Text> ensures ReenactsAt(intent, realized, pool', t, more) {
      assert ReenactsAt(intent, realized, pool, t, more);
    }
  }

  lemma MorePoolAll(lines: seq<Line>, pool: set<Text>, pool': set<Text>)
    requires AllReenact(lines, pool) && pool <= pool'
    ensures AllReenact(lines, pool')
  {
    forall line | line in lines ensures Reenacts(line.intent, line.realized, pool') {
      MorePool(line.intent, line.realized, pool, pool');
    }
  }

  lemma OneMoreLine(lines: seq<Line>, line: Line, pool: set<Text>, pool': set<Text>)
    requires AllReenact(lines, pool) && pool <= pool' && Reenacts(line.intent, line.realized, pool')
    ensures AllReenact(lines + [line], pool')
  {
    MorePoolAll(lines, pool, pool');
  }

  /** What an intent realized where it ran, it re-enacts. */
  lemma RanReenacts(ops: seq<Op>, s: State, pool: set<Text>)
    requires Keyed(s) && RunOps(ops, s, pool).Ok?
    ensures var run := RunOps(ops, s, pool).value; Reenacts(ops, run.realized, pool + run.blobs)
  {
    var run := RunOps(ops, s, pool).value;
    forall t: State, more: set<Text> ensures ReenactsAt(ops, run.realized, pool + run.blobs, t, more) {
      if Keyed(t) && pool + run.blobs <= more && Replay(t, run.realized).Some? {
        ShortcutIsSound(ops, s, pool, t, more);
      }
    }
  }

  /** The delta moves nothing, wherever it replays. */
  ghost predicate MovesNothing(realized: seq<Entry>) {
    forall t :: Keyed(t) && Replay(t, realized).Some? ==> Replay(t, realized).value == t
  }

  /** A line without an intent re-enacts its delta exactly where the delta moves nothing. */
  lemma SilentReenacts(realized: seq<Entry>, pool: set<Text>)
    ensures Reenacts([], realized, pool) <==> MovesNothing(realized)
  {
    if Reenacts([], realized, pool) {
      forall t | Keyed(t) && Replay(t, realized).Some? ensures Replay(t, realized).value == t {
        assert ReenactsAt([], realized, pool, t, pool);
      }
    }
    if MovesNothing(realized) {
      forall t: State, more: set<Text> ensures ReenactsAt([], realized, pool, t, more) {}
    }
  }
}
