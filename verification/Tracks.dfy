/** Byte attribution in the session planner (src/claude.rs, `Run` and `Track`).

    The specification is a provenance sequence: one origin per byte of the content.
    Runs are its compressed form, and every edit must keep the two in step. */
module Tracks {
  import opened Spans

  /** A stretch of content, and the op and offset its bytes came from. */
  datatype Run = Run(start: int, end: int, call: nat, op: nat, at: int)

  /** Where one byte came from: the base, or an offset in some op's `new_str`. */
  datatype Origin = Base(offset: nat) | Wrote(call: nat, op: nat, offset: nat)

  type Provenance = seq<Origin>

  //////////////////////////////////////// provenance, the meaning ///////////////////////////////////////

  function Stamp(call: nat, op: nat, len: nat): Provenance {
    seq(len, k requires 0 <= k < len => Wrote(call, op, k))
  }

  /** An edit of `[at, at + oldLen)`: its bytes belong to the edit, the rest keep theirs. */
  function EditOrigins(o: Provenance, at: nat, oldLen: nat, newLen: nat, call: nat, op: nat): (r: Provenance)
    requires at + oldLen <= |o|
    ensures |r| == |o| - oldLen + newLen
    ensures forall x :: 0 <= x < at ==> r[x] == o[x]
    ensures forall x :: at <= x < at + newLen ==> r[x] == Wrote(call, op, x - at)
    ensures forall x :: at + newLen <= x < |r| ==> r[x] == o[x - newLen + oldLen]
  {
    o[..at] + Stamp(call, op, newLen) + o[at + oldLen..]
  }

  /** The offsets of one op at or past `cut` slide by `newLen - oldLen`. */
  function Slide(o: Origin, call: nat, op: nat, cut: nat, oldLen: nat, newLen: nat): Origin
    requires oldLen <= cut
  {
    if o.Wrote? && o.call == call && o.op == op && cut <= o.offset
    then Wrote(call, op, o.offset - oldLen + newLen)
    else o
  }

  /** The op (`call`, `op`) rewrote `[seat, seat + oldLen)` of its own `new_str`, which
      sat at `[at, at + oldLen)` of the content. */
  function RewriteOrigins(o: Provenance, at: nat, oldLen: nat, newLen: nat, call: nat, op: nat,
                          seat: nat): (r: Provenance)
    requires at + oldLen <= |o|
    ensures |r| == |o| - oldLen + newLen
    ensures forall x :: 0 <= x < at ==> r[x] == Slide(o[x], call, op, seat + oldLen, oldLen, newLen)
    ensures forall x :: at <= x < at + newLen ==> r[x] == Wrote(call, op, seat + (x - at))
    ensures forall x :: at + newLen <= x < |r| ==>
                          r[x] == Slide(o[x - newLen + oldLen], call, op, seat + oldLen, oldLen, newLen)
  {
    seq(|o| - oldLen + newLen, x requires 0 <= x < |o| - oldLen + newLen =>
      if x < at then Slide(o[x], call, op, seat + oldLen, oldLen, newLen)
      else if x < at + newLen then Wrote(call, op, seat + (x - at))
      else Slide(o[x - newLen + oldLen], call, op, seat + oldLen, oldLen, newLen))
  }

  /** Runs stay sorted and disjoint, and the pieces of one op keep disjoint `at` ranges
      in the same order, a byte of that op having been lost between any two. */
  predicate Before(a: Run, b: Run) {
    && a.end <= b.start
    && (a.call == b.call && a.op == b.op ==> a.at + (a.end - a.start) < b.at)
  }

  predicate Ordered(runs: seq<Run>) {
    && (forall r :: r in runs ==> 0 <= r.start <= r.end && 0 <= r.at)
    && (forall i, j :: 0 <= i < j < |runs| ==> Before(runs[i], runs[j]))
  }

  predicate Covers(r: Run, x: int) {
    r.start <= x < r.end
  }

  /** Every byte the run claims came from where the run says. */
  ghost predicate RunSound(r: Run, o: Provenance) {
    && 0 <= r.start <= r.end <= |o| && 0 <= r.at
    && forall x :: Covers(r, x) ==> o[x] == Wrote(r.call, r.op, r.at + (x - r.start))
  }

  ghost predicate Sound(runs: seq<Run>, o: Provenance) {
    forall r :: r in runs ==> RunSound(r, o)
  }

  /** Every byte an op wrote is in a run. */
  ghost predicate Complete(runs: seq<Run>, o: Provenance) {
    forall x :: 0 <= x < |o| && o[x].Wrote? ==> exists r :: r in runs && Covers(r, x)
  }

  predicate Seam(o: Provenance, x: int) {
    0 < x < |o| && o[x - 1].Base? && o[x].Base? && o[x].offset != o[x - 1].offset + 1
  }

  predicate EmptyRunAt(runs: seq<Run>, x: int) {
    exists r :: r in runs && r.start == r.end == x
  }

  /** Where two base bytes meet that were not neighbours in the base, a scar or an
      emptied run marks the spot. */
  ghost predicate Marked(runs: seq<Run>, scars: set<nat>, o: Provenance) {
    forall x: nat :: Seam(o, x) ==> x in scars || EmptyRunAt(runs, x)
  }

  ghost predicate Attributes(runs: seq<Run>, scars: set<nat>, o: Provenance) {
    Ordered(runs) && Sound(runs, o) && Complete(runs, o) && Marked(runs, scars, o)
  }

  /////////////////////////////////////////////// edit //////////////////////////////////////////////////

  /** What an edit leaves of one run: all of it, shifted or not, or the parts it did not bite. */
  function Cut(r: Run, at: nat, oldLen: nat, newLen: nat): seq<Run> {
    var end := at + oldLen;
    if r.end <= at then [r]
    else if r.start >= end then [r.(start := r.start - oldLen + newLen, end := r.end - oldLen + newLen)]
    else
      (if r.start < at then [r.(end := at)] else [])
      + (if r.end > end then [Run(at + newLen, r.end - oldLen + newLen, r.call, r.op,
                                  r.at + (end - r.start))]
         else [])
  }

  function CutAll(runs: seq<Run>, at: nat, oldLen: nat, newLen: nat): seq<Run> {
    if runs == [] then []
    else CutAll(runs[..|runs| - 1], at, oldLen, newLen) + Cut(runs[|runs| - 1], at, oldLen, newLen)
  }

  /** A stable insertion: after every run that starts no later. */
  function InsertByStart(runs: seq<Run>, r: Run): seq<Run> {
    if runs == [] || runs[|runs| - 1].start <= r.start then runs + [r]
    else InsertByStart(runs[..|runs| - 1], r) + [runs[|runs| - 1]]
  }

  /** The stable sort by start. */
  function SortByStart(runs: seq<Run>): seq<Run> {
    if runs == [] then []
    else InsertByStart(SortByStart(runs[..|runs| - 1]), runs[|runs| - 1])
  }

  function EditRuns(runs: seq<Run>, at: nat, oldLen: nat, newLen: nat, call: nat, op: nat): seq<Run> {
    SortByStart(CutAll(runs, at, oldLen, newLen)
                + if newLen > 0 then [Run(at, at + newLen, call, op, 0)] else [])
  }

  /** What becomes of scars under an edit: those it covers vanish, later ones move along. */
  function ShiftScars(scars: set<nat>, at: nat, oldLen: nat, newLen: nat): set<nat> {
    set s | s in scars && (s <= at || s >= at + oldLen)
          :: if s >= at + oldLen && s > at then s - oldLen + newLen else s
  }

  function EditScars(scars: set<nat>, at: nat, oldLen: nat, newLen: nat): set<nat> {
    ShiftScars(scars, at, oldLen, newLen) + if newLen == 0 then {at} else {}
  }

  lemma SortedIsSorted(runs: seq<Run>)
    requires Ordered(runs)
    ensures SortByStart(runs) == runs
  {
    if runs != [] {
      var init := runs[..|runs| - 1];
      SortedIsSorted(init);
      if init != [] {
        assert Before(runs[|runs| - 2], runs[|runs| - 1]);
        assert runs[|runs| - 2] in runs;
      }
      assert init + [runs[|runs| - 1]] == runs;
    }
  }

  lemma AppendOrdered(runs: seq<Run>, r: Run)
    requires Ordered(runs) && 0 <= r.start <= r.end && 0 <= r.at
    requires forall q :: q in runs ==> Before(q, r)
    ensures Ordered(runs + [r])
  {}

  lemma InsertOrdered(runs: seq<Run>, r: Run)
    requires Ordered(runs) && 0 <= r.start < r.end && 0 <= r.at
    requires forall q :: q in runs ==> (q.end <= r.start || r.end <= q.start) && !(q.call == r.call && q.op == r.op)
    ensures Ordered(InsertByStart(runs, r))
    ensures forall q :: q in InsertByStart(runs, r) <==> q in runs || q == r
  {
    if runs == [] {
    } else {
      var init, last := runs[..|runs| - 1], runs[|runs| - 1];
      assert runs == init + [last];
      if last.start <= r.start {
        forall q | q in runs ensures Before(q, r) {
          assert last in runs;
          var i :| 0 <= i < |runs| && runs[i] == q;
          assert i < |runs| - 1 ==> Before(runs[i], runs[|runs| - 1]);
        }
        AppendOrdered(runs, r);
      } else {
        InsertOrdered(init, r);
        forall q | q in InsertByStart(init, r) ensures Before(q, last) {
          if q in init {
            var i :| 0 <= i < |init| && init[i] == q;
            assert Before(runs[i], runs[|runs| - 1]);
          }
        }
        AppendOrdered(InsertByStart(init, r), last);
      }
    }
  }

  /** A piece of a cut run, with where it came from. */
  predicate PieceOf(q: Run, r: Run, at: nat, oldLen: nat, newLen: nat) {
    q in Cut(r, at, oldLen, newLen)
  }

  /** Every piece was cut from some run. */
  lemma PieceSource(runs: seq<Run>, at: nat, oldLen: nat, newLen: nat, q: Run) returns (i: nat)
    requires q in CutAll(runs, at, oldLen, newLen)
    ensures i < |runs| && PieceOf(q, runs[i], at, oldLen, newLen)
  {
    var init, last := runs[..|runs| - 1], runs[|runs| - 1];
    if q in Cut(last, at, oldLen, newLen) {
      i := |runs| - 1;
    } else {
      assert q in CutAll(init, at, oldLen, newLen);
      i := PieceSource(init, at, oldLen, newLen, q);
    }
  }

  /** Every piece of every run is kept. */
  lemma PieceKept(runs: seq<Run>, at: nat, oldLen: nat, newLen: nat, i: nat, q: Run)
    requires i < |runs| && PieceOf(q, runs[i], at, oldLen, newLen)
    ensures q in CutAll(runs, at, oldLen, newLen)
  {
    if i < |runs| - 1 { PieceKept(runs[..|runs| - 1], at, oldLen, newLen, i, q); }
  }

  lemma PieceBefore(r: Run, s: Run, q: Run, p: Run, at: nat, oldLen: nat, newLen: nat)
    requires Ordered([r, s]) && oldLen > 0
    requires PieceOf(q, r, at, oldLen, newLen) && PieceOf(p, s, at, oldLen, newLen)
    ensures Before(q, p)
  {
    assert r in [r, s] && s in [r, s];
    assert Before([r, s][0], [r, s][1]);
  }

  lemma CutOrdered(r: Run, at: nat, oldLen: nat, newLen: nat)
    requires 0 <= r.start <= r.end && 0 <= r.at && oldLen > 0
    ensures Ordered(Cut(r, at, oldLen, newLen))
  {}

  lemma ConcatOrdered(a: seq<Run>, b: seq<Run>)
    requires Ordered(a) && Ordered(b)
    requires forall q, p :: q in a && p in b ==> Before(q, p)
    ensures Ordered(a + b)
  {}

  lemma CutAllOrdered(runs: seq<Run>, at: nat, oldLen: nat, newLen: nat)
    requires Ordered(runs) && oldLen > 0
    ensures Ordered(CutAll(runs, at, oldLen, newLen))
  {
    if runs != [] {
      var init, last := runs[..|runs| - 1], runs[|runs| - 1];
      assert runs == init + [last];
      CutAllOrdered(init, at, oldLen, newLen);
      forall q, p | q in CutAll(init, at, oldLen, newLen) && p in Cut(last, at, oldLen, newLen)
        ensures Before(q, p)
      {
        var i := PieceSource(init, at, oldLen, newLen, q);
        assert Before(runs[i], runs[|runs| - 1]);
        assert runs[i] in runs && last in runs;
        PieceBefore(runs[i], last, q, p, at, oldLen, newLen);
      }
      assert last in runs;
      CutOrdered(last, at, oldLen, newLen);
      ConcatOrdered(CutAll(init, at, oldLen, newLen), Cut(last, at, oldLen, newLen));
    }
  }

  /** No run, empty or not, belongs to (`call`, `op`). */
  predicate Unseated(runs: seq<Run>, call: nat, op: nat) {
    forall r :: r in runs ==> !(r.call == call && r.op == op)
  }

  lemma PieceClear(r: Run, q: Run, at: nat, oldLen: nat, newLen: nat)
    requires PieceOf(q, r, at, oldLen, newLen)
    ensures (q.end <= at || at + newLen <= q.start) && q.call == r.call && q.op == r.op
  {}

  /** The runs after an edit: the pieces left, in order, and the edit's own run. */
  lemma EditRunsMembers(runs: seq<Run>, at: nat, oldLen: nat, newLen: nat, call: nat, op: nat)
    requires Ordered(runs) && Unseated(runs, call, op) && oldLen > 0
    ensures Ordered(EditRuns(runs, at, oldLen, newLen, call, op))
    ensures forall q :: q in EditRuns(runs, at, oldLen, newLen, call, op) <==>
                        || q in CutAll(runs, at, oldLen, newLen)
                        || (newLen > 0 && q == Run(at, at + newLen, call, op, 0))
  {
    var cut := CutAll(runs, at, oldLen, newLen);
    CutAllOrdered(runs, at, oldLen, newLen);
    SortedIsSorted(cut);
    if newLen > 0 {
      var mine := Run(at, at + newLen, call, op, 0);
      assert (cut + [mine])[..|cut|] == cut;
      forall q | q in cut
        ensures (q.end <= mine.start || mine.end <= q.start) && !(q.call == call && q.op == op)
      {
        var i := PieceSource(runs, at, oldLen, newLen, q);
        PieceClear(runs[i], q, at, oldLen, newLen);
        assert runs[i] in runs;
      }
      InsertOrdered(cut, mine);
    } else {
      assert cut + [] == cut;
    }
  }

  lemma PieceSound(r: Run, q: Run, o: Provenance, at: nat, oldLen: nat, newLen: nat, call: nat, op: nat)
    requires RunSound(r, o) && oldLen > 0 && at + oldLen <= |o|
    requires PieceOf(q, r, at, oldLen, newLen)
    ensures RunSound(q, EditOrigins(o, at, oldLen, newLen, call, op))
  {
    var o' := EditOrigins(o, at, oldLen, newLen, call, op);
    forall x | Covers(q, x) ensures o'[x] == Wrote(q.call, q.op, q.at + (x - q.start)) {
      var y := if x < at then x else x - newLen + oldLen;
      assert Covers(r, y) && o'[x] == o[y];
    }
  }

  lemma EditSound(runs: seq<Run>, o: Provenance, at: nat, oldLen: nat, newLen: nat, call: nat, op: nat)
    requires Ordered(runs) && Sound(runs, o) && Unseated(runs, call, op) && oldLen > 0 && at + oldLen <= |o|
    ensures Ordered(EditRuns(runs, at, oldLen, newLen, call, op))
    ensures Sound(EditRuns(runs, at, oldLen, newLen, call, op), EditOrigins(o, at, oldLen, newLen, call, op))
  {
    EditRunsMembers(runs, at, oldLen, newLen, call, op);
    var runs', o' := EditRuns(runs, at, oldLen, newLen, call, op), EditOrigins(o, at, oldLen, newLen, call, op);
    forall q | q in runs' ensures RunSound(q, o') {
      if q in CutAll(runs, at, oldLen, newLen) {
        var i := PieceSource(runs, at, oldLen, newLen, q);
        assert runs[i] in runs;
        PieceSound(runs[i], q, o, at, oldLen, newLen, call, op);
      }
    }
  }

  /** The piece holding a byte the edit did not bite. */
  lemma PieceAt(r: Run, at: nat, oldLen: nat, newLen: nat, y: nat) returns (q: Run)
    requires Covers(r, y) && (y < at || at + oldLen <= y)
    ensures PieceOf(q, r, at, oldLen, newLen) && Covers(q, if y < at then y else y - oldLen + newLen)
  {
    var pieces := Cut(r, at, oldLen, newLen);
    q := if y < at then pieces[0] else pieces[|pieces| - 1];
  }

  lemma EditComplete(runs: seq<Run>, o: Provenance, at: nat, oldLen: nat, newLen: nat, call: nat, op: nat)
    requires Ordered(runs) && Sound(runs, o) && Unseated(runs, call, op) && oldLen > 0 && at + oldLen <= |o|
    requires Complete(runs, o)
    ensures Complete(EditRuns(runs, at, oldLen, newLen, call, op), EditOrigins(o, at, oldLen, newLen, call, op))
  {
    EditRunsMembers(runs, at, oldLen, newLen, call, op);
    var runs', o' := EditRuns(runs, at, oldLen, newLen, call, op), EditOrigins(o, at, oldLen, newLen, call, op);
    forall x | 0 <= x < |o'| && o'[x].Wrote? ensures exists r :: r in runs' && Covers(r, x) {
      if at <= x < at + newLen {
        assert Covers(Run(at, at + newLen, call, op, 0), x);
      } else {
        var y := if x < at then x else x - newLen + oldLen;
        assert o'[x] == o[y];
        var r :| r in runs && Covers(r, y);
        var i :| 0 <= i < |runs| && runs[i] == r;
        var q := PieceAt(r, at, oldLen, newLen, y);
        PieceKept(runs, at, oldLen, newLen, i, q);
        assert q in runs' && Covers(q, x);
      }
    }
  }

  /** A seam the edit did not make was there before it. */
  lemma SeamMoved(o: Provenance, at: nat, oldLen: nat, newLen: nat, call: nat, op: nat, x: nat) returns (y: nat)
    requires at + oldLen <= |o| && oldLen > 0
    requires Seam(EditOrigins(o, at, oldLen, newLen, call, op), x) && (newLen == 0 ==> x != at)
    ensures Seam(o, y)
    ensures (x < at && y == x) || (x > at + newLen && y == x - newLen + oldLen)
  {
    y := if x < at then x else x - newLen + oldLen;
  }

  lemma EditMarked(runs: seq<Run>, scars: set<nat>, o: Provenance, at: nat, oldLen: nat, newLen: nat, call: nat,
                   op: nat)
    requires Ordered(runs) && Sound(runs, o) && Unseated(runs, call, op) && oldLen > 0 && at + oldLen <= |o|
    requires Marked(runs, scars, o)
    ensures Marked(EditRuns(runs, at, oldLen, newLen, call, op), EditScars(scars, at, oldLen, newLen),
                   EditOrigins(o, at, oldLen, newLen, call, op))
  {
    EditRunsMembers(runs, at, oldLen, newLen, call, op);
    var runs', o' := EditRuns(runs, at, oldLen, newLen, call, op), EditOrigins(o, at, oldLen, newLen, call, op);
    var scars' := EditScars(scars, at, oldLen, newLen);
    forall x: nat | Seam(o', x) && x !in scars' ensures EmptyRunAt(runs', x) {
      var y := SeamMoved(o, at, oldLen, newLen, call, op, x);
      assert y !in scars;
      var r :| r in runs && r.start == r.end == y;
      var q := EmptyPieceKept(runs, at, oldLen, newLen, r);
      assert q in runs' && q.start == q.end == x;
    }
  }

  /** An emptied run clear of the edit stays, shifted when it lies after. */
  lemma EmptyPieceKept(runs: seq<Run>, at: nat, oldLen: nat, newLen: nat, r: Run) returns (q: Run)
    requires r in runs && r.start == r.end && (r.end < at || at + oldLen < r.start)
    ensures q in CutAll(runs, at, oldLen, newLen)
    ensures q.start == q.end == if r.end < at then r.start else r.start - oldLen + newLen
  {
    var i: nat :| i < |runs| && runs[i] == r;
    q := Cut(r, at, oldLen, newLen)[0];
    PieceKept(runs, at, oldLen, newLen, i, q);
  }

  ////////////////////////////////////////// rewrite_within /////////////////////////////////////////////

  function RewriteRun(r: Run, i: nat, owner: Run, idx: nat, at: nat, oldLen: nat, newLen: nat): Run {
    var end := at + oldLen;
    if i == idx then r.(end := r.end - oldLen + newLen)
    else
      var moved := if r.start >= end
                   then r.(start := r.start - oldLen + newLen, end := r.end - oldLen + newLen) else r;
      if r.call == owner.call && r.op == owner.op && r.at > owner.at
      then moved.(at := r.at - oldLen + newLen) else moved
  }

  function RewriteRuns(runs: seq<Run>, idx: nat, at: nat, oldLen: nat, newLen: nat): (r: seq<Run>)
    requires idx < |runs|
  {
    seq(|runs|, i requires 0 <= i < |runs| => RewriteRun(runs[i], i, runs[idx], idx, at, oldLen, newLen))
  }

  /** The replaced bytes lie inside run `idx`. */
  predicate Within(runs: seq<Run>, idx: nat, at: nat, oldLen: nat) {
    idx < |runs| && oldLen > 0 && runs[idx].start <= at && at + oldLen <= runs[idx].end
  }

  /** Where the replaced bytes sit in the owning op's `new_str`. */
  function SeatOf(runs: seq<Run>, idx: nat, at: nat): nat
    requires idx < |runs| && runs[idx].start <= at && 0 <= runs[idx].at
  {
    runs[idx].at + (at - runs[idx].start)
  }

  lemma RewriteOrdered(runs: seq<Run>, idx: nat, at: nat, oldLen: nat, newLen: nat)
    requires Ordered(runs) && Within(runs, idx, at, oldLen)
    ensures Ordered(RewriteRuns(runs, idx, at, oldLen, newLen))
  {
    var runs' := RewriteRuns(runs, idx, at, oldLen, newLen);
    forall i | 0 <= i < |runs| ensures 0 <= runs'[i].start <= runs'[i].end && 0 <= runs'[i].at {
      assert runs[i] in runs;
    }
    forall i, j | 0 <= i < j < |runs| ensures Before(runs'[i], runs'[j]) {
      assert runs[i] in runs && runs[j] in runs && runs[idx] in runs;
      assert Before(runs[i], runs[j]);
      assert i < idx ==> Before(runs[i], runs[idx]);
      assert idx < i ==> Before(runs[idx], runs[i]);
      assert j < idx ==> Before(runs[j], runs[idx]);
      assert idx < j ==> Before(runs[idx], runs[j]);
    }
  }

  /** How the runs lie around the rewritten one. */
  lemma Around(runs: seq<Run>, idx: nat, i: nat)
    requires Ordered(runs) && idx < |runs| && i < |runs|
    ensures 0 <= runs[i].start <= runs[i].end && 0 <= runs[i].at
    ensures i < idx ==> Before(runs[i], runs[idx])
    ensures idx < i ==> Before(runs[idx], runs[i])
  {
    assert runs[i] in runs;
  }

  /** What the two runs of a rewrite are to each other. */
  predicate Placed(r: Run, i: nat, owner: Run, idx: nat, at: nat, oldLen: nat) {
    && owner.start <= at && at + oldLen <= owner.end && oldLen > 0
    && (i == idx ==> r == owner) && (i < idx ==> Before(r, owner)) && (idx < i ==> Before(owner, r))
  }

  lemma RewriteRunWithin(r: Run, i: nat, owner: Run, o: Provenance, idx: nat, at: nat, oldLen: nat, newLen: nat)
    requires RunSound(r, o) && RunSound(owner, o) && Placed(r, i, owner, idx, at, oldLen)
    ensures var r' := RewriteRun(r, i, owner, idx, at, oldLen, newLen);
            0 <= r'.start <= r'.end <= |o| - oldLen + newLen && 0 <= r'.at
  {
  }

  /** One byte of a run after the rewrite. */
  lemma RewriteRunAt(r: Run, i: nat, owner: Run, o: Provenance, idx: nat, at: nat, oldLen: nat, newLen: nat, x: nat)
    requires RunSound(r, o) && RunSound(owner, o) && Placed(r, i, owner, idx, at, oldLen)
    requires Covers(RewriteRun(r, i, owner, idx, at, oldLen, newLen), x)
    ensures var r' := RewriteRun(r, i, owner, idx, at, oldLen, newLen);
            var o' := RewriteOrigins(o, at, oldLen, newLen, owner.call, owner.op, owner.at + (at - owner.start));
            x < |o'| && o'[x] == Wrote(r'.call, r'.op, r'.at + (x - r'.start))
  {
    if x < at {
      assert Covers(r, x);
    } else if at + newLen <= x {
      assert Covers(r, x - newLen + oldLen);
    }
  }

  lemma RewriteRunSound(r: Run, i: nat, owner: Run, o: Provenance, idx: nat, at: nat, oldLen: nat, newLen: nat)
    requires RunSound(r, o) && RunSound(owner, o) && Placed(r, i, owner, idx, at, oldLen)
    ensures RunSound(RewriteRun(r, i, owner, idx, at, oldLen, newLen),
                     RewriteOrigins(o, at, oldLen, newLen, owner.call, owner.op, owner.at + (at - owner.start)))
  {
    RewriteRunWithin(r, i, owner, o, idx, at, oldLen, newLen);
    forall x: nat | Covers(RewriteRun(r, i, owner, idx, at, oldLen, newLen), x) {
      RewriteRunAt(r, i, owner, o, idx, at, oldLen, newLen, x);
    }
  }

  /** One run of the list after the rewrite. */
  lemma RewriteSoundAt(runs: seq<Run>, o: Provenance, idx: nat, at: nat, oldLen: nat, newLen: nat, i: nat)
    requires Ordered(runs) && Sound(runs, o) && Within(runs, idx, at, oldLen)
    requires at + oldLen <= |o| && i < |runs|
    ensures RunSound(RewriteRun(runs[i], i, runs[idx], idx, at, oldLen, newLen),
                     RewriteOrigins(o, at, oldLen, newLen, runs[idx].call, runs[idx].op, SeatOf(runs, idx, at)))
  {
    assert runs[i] in runs && runs[idx] in runs;
    assert Placed(runs[i], i, runs[idx], idx, at, oldLen) by { Around(runs, idx, i); }
    RewriteRunSound(runs[i], i, runs[idx], o, idx, at, oldLen, newLen);
  }

  lemma RewriteSound(runs: seq<Run>, o: Provenance, idx: nat, at: nat, oldLen: nat, newLen: nat)
    requires Ordered(runs) && Sound(runs, o) && Within(runs, idx, at, oldLen)
    requires at + oldLen <= |o|
    ensures Sound(RewriteRuns(runs, idx, at, oldLen, newLen),
                  RewriteOrigins(o, at, oldLen, newLen, runs[idx].call, runs[idx].op, SeatOf(runs, idx, at)))
  {
    Around(runs, idx, idx);
    forall i: nat | i < |runs| {
      RewriteSoundAt(runs, o, idx, at, oldLen, newLen, i);
    }
  }

  lemma RewriteComplete(runs: seq<Run>, o: Provenance, idx: nat, at: nat, oldLen: nat, newLen: nat)
    requires Ordered(runs) && Sound(runs, o) && Within(runs, idx, at, oldLen)
    requires Complete(runs, o) && at + oldLen <= |o|
    ensures Complete(RewriteRuns(runs, idx, at, oldLen, newLen),
                     RewriteOrigins(o, at, oldLen, newLen, runs[idx].call, runs[idx].op, SeatOf(runs, idx, at)))
  {
    var runs' := RewriteRuns(runs, idx, at, oldLen, newLen);
    var o' := RewriteOrigins(o, at, oldLen, newLen, runs[idx].call, runs[idx].op, SeatOf(runs, idx, at));
    forall x | 0 <= x < |o'| && o'[x].Wrote? ensures exists r :: r in runs' && Covers(r, x) {
      assert runs[idx] in runs;
      if at <= x < at + newLen {
        assert Covers(runs'[idx], x) && runs'[idx] in runs';
      } else {
        var y := if x < at then x else x - newLen + oldLen;
        assert o[y].Wrote?;
        var r :| r in runs && Covers(r, y);
        var i :| 0 <= i < |runs| && runs[i] == r;
        StillCovered(runs, idx, at, oldLen, newLen, i, x, y);
        assert runs'[i] in runs';
      }
    }
  }

  lemma StillCovered(runs: seq<Run>, idx: nat, at: nat, oldLen: nat, newLen: nat, i: nat, x: nat, y: nat)
    requires Ordered(runs) && Within(runs, idx, at, oldLen) && i < |runs| && Covers(runs[i], y)
    requires if x < at then y == x else at + newLen <= x && y == x - newLen + oldLen
    ensures Covers(RewriteRuns(runs, idx, at, oldLen, newLen)[i], x)
  {
    assert i < idx ==> Before(runs[i], runs[idx]);
    assert idx < i ==> Before(runs[idx], runs[i]);
  }

  lemma RewriteMarked(runs: seq<Run>, scars: set<nat>, o: Provenance, idx: nat, at: nat, oldLen: nat, newLen: nat)
    requires Ordered(runs) && Sound(runs, o) && Within(runs, idx, at, oldLen)
    requires Marked(runs, scars, o) && at + oldLen <= |o|
    ensures Marked(RewriteRuns(runs, idx, at, oldLen, newLen), ShiftScars(scars, at, oldLen, newLen),
                   RewriteOrigins(o, at, oldLen, newLen, runs[idx].call, runs[idx].op, SeatOf(runs, idx, at)))
  {
    var runs' := RewriteRuns(runs, idx, at, oldLen, newLen);
    var owner, seat := runs[idx], SeatOf(runs, idx, at);
    var o' := RewriteOrigins(o, at, oldLen, newLen, owner.call, owner.op, seat);
    var scars' := ShiftScars(scars, at, oldLen, newLen);
    forall x: nat | Seam(o', x) ensures x in scars' || EmptyRunAt(runs', x) {
      assert runs[idx] in runs;
      if x == at {
        assert newLen == 0;
        assert !Covers(owner, at - 1) && !Covers(owner, at + oldLen) by {
          assert o'[x] == Slide(o[at + oldLen], owner.call, owner.op, seat + oldLen, oldLen, newLen);
        }
        assert runs'[idx].start == runs'[idx].end == x && runs'[idx] in runs';
      } else {
        assert x < at || x > at + newLen;
        var y: nat := if x < at then x else x - newLen + oldLen;
        assert Seam(o, y);
        if y in scars {
          assert x in scars';
        } else {
          var r :| r in runs && r.start == r.end == y;
          var i :| 0 <= i < |runs| && runs[i] == r;
          assert i < idx ==> Before(runs[i], runs[idx]);
          assert idx < i ==> Before(runs[idx], runs[i]);
          assert runs'[i].start == runs'[i].end == x && runs'[i] in runs';
        }
      }
    }
  }

  //////////////////////////////////////////// the track ////////////////////////////////////////////////

  predicate Unowned(runs: seq<Run>, start: nat, end: nat) {
    !exists r :: r in runs && r.start < end && start < r.end
  }

  /** Scars are kept as a set: the source keeps them sorted and drops repeats. */
  class Track {
    var runs: seq<Run>
    var scars: set<nat>

    constructor (runs: seq<Run>, scars: set<nat>)
      ensures this.runs == runs && this.scars == scars
    {
      this.runs, this.scars := runs, scars;
    }

    /** Replace `[at, at + oldLen)` with `newLen` bytes owned by (`call`, `op`). */
    method Edit(at: nat, oldLen: nat, newLen: nat, call: nat, op: nat)
      modifies this
      ensures runs == EditRuns(old(runs), at, oldLen, newLen, call, op)
      ensures scars == EditScars(old(scars), at, oldLen, newLen)
    {
      var end := at + oldLen;
      var out: seq<Run> := [];
      for k := 0 to |runs|
        invariant runs == old(runs) && scars == old(scars)
        invariant out == CutAll(runs[..k], at, oldLen, newLen)
      {
        assert runs[..k + 1][..k] == runs[..k];
        var run := runs[k];
        if run.end <= at {
          out := out + [run];
        } else if run.start >= end {
          out := out + [run.(start := run.start - oldLen + newLen, end := run.end - oldLen + newLen)];
        } else {
          if run.start < at { out := out + [run.(end := at)]; }
          if run.end > end {
            out := out + [Run(at + newLen, run.end - oldLen + newLen, run.call, run.op, run.at + (end - run.start))];
          }
        }
      }
      assert runs[..|runs|] == runs;
      if newLen > 0 {
        out := out + [Run(at, at + newLen, call, op, 0)];
      }
      assert CutAll(runs, at, oldLen, newLen) + [] == CutAll(runs, at, oldLen, newLen);
      runs := SortByStart(out);
      ShiftScarsBy(at, oldLen, newLen);
      if newLen == 0 { scars := scars + {at}; }
    }

    /** Replace `[at, at + oldLen)`, inside run `idx`, with `newLen` bytes that join it. */
    method RewriteWithin(idx: nat, at: nat, oldLen: nat, newLen: nat)
      requires Within(runs, idx, at, oldLen)
      modifies this
      ensures runs == RewriteRuns(old(runs), idx, at, oldLen, newLen)
      ensures scars == ShiftScars(old(scars), at, oldLen, newLen)
    {
      var end, owner := at + oldLen, runs[idx];
      for i := 0 to |runs|
        invariant |runs| == |old(runs)| && scars == old(scars)
        invariant forall j :: 0 <= j < i ==> runs[j] == RewriteRun(old(runs)[j], j, owner, idx, at, oldLen, newLen)
        invariant forall j :: i <= j < |runs| ==> runs[j] == old(runs)[j]
      {
        var run := runs[i];
        if i == idx {
          runs := runs[i := run.(end := run.end - oldLen + newLen)];
        } else {
          if run.start >= end {
            runs := runs[i := run.(start := run.start - oldLen + newLen, end := run.end - oldLen + newLen)];
          }
          if run.call == owner.call && run.op == owner.op && run.at > owner.at {
            runs := runs[i := runs[i].(at := run.at - oldLen + newLen)];
          }
        }
      }
      ShiftScarsBy(at, oldLen, newLen);
    }

    method ShiftScarsBy(at: nat, oldLen: nat, newLen: nat)
      modifies `scars
      ensures scars == ShiftScars(old(scars), at, oldLen, newLen)
    {
      scars := set s | s in scars && (s <= at || s >= at + oldLen)
                     :: if s >= at + oldLen && s > at then s - oldLen + newLen else s;
    }
  }

  /** Why widening may name unowned bytes: an unowned stretch with no scar strictly inside
      is one contiguous stretch of the base. */
  lemma UnownedUnscarredIsBase(runs: seq<Run>, scars: set<nat>, o: Provenance, start: nat, end: nat)
    requires Attributes(runs, scars, o) && start < end <= |o|
    requires Unowned(runs, start, end)
    requires forall s :: s in scars ==> !(start < s < end)
    ensures forall x :: start <= x < end ==> o[x].Base? && o[x].offset == o[start].offset + (x - start)
  {
    assert forall r :: r in runs && r.start < end && start < r.end ==> false;
    assert forall r :: r in runs ==> !Covers(r, end - 1);
    if start + 1 < end {
      UnownedUnscarredIsBase(runs, scars, o, start, end - 1);
      assert !EmptyRunAt(runs, end - 1);
      assert !Seam(o, end - 1);
    }
  }

  ///////////////////////////////////// attribution over any history /////////////////////////////////////

  /** A byte's origin names that very byte of the op's current `new_str`. */
  predicate ReadsAt(o: Provenance, content: Text, strs: map<(nat, nat), Text>, x: nat) {
    && x < |o| && x < |content|
    && (o[x].Wrote? ==>
          && (o[x].call, o[x].op) in strs
          && o[x].offset < |strs[(o[x].call, o[x].op)]|
          && strs[(o[x].call, o[x].op)][o[x].offset] == content[x])
  }

  ghost predicate Reads(o: Provenance, content: Text, strs: map<(nat, nat), Text>) {
    && |o| == |content|
    && forall x :: 0 <= x < |o| ==> ReadsAt(o, content, strs, x)
  }

  datatype Event =
    | Edited(at: nat, oldLen: nat, with: Text, call: nat, op: nat)
    | Rewrote(idx: nat, at: nat, oldLen: nat, with: Text)

  /** A tracked path: its runs and scars, its content, and each op's current `new_str`. */
  datatype World = World(runs: seq<Run>, scars: set<nat>, content: Text, strs: map<(nat, nat), Text>)

  predicate Enabled(w: World, e: Event) {
    && e.oldLen > 0
    && e.at + e.oldLen <= |w.content|
    && match e
       case Edited(_, _, _, call, op) => (call, op) !in w.strs && Unseated(w.runs, call, op)
       case Rewrote(idx, at, oldLen, _) =>
         && Within(w.runs, idx, at, oldLen)
         && 0 <= w.runs[idx].at
         && var r := w.runs[idx];
            && (r.call, r.op) in w.strs
            && SeatOf(w.runs, idx, at) + oldLen <= |w.strs[(r.call, r.op)]|
  }

  function Happen(w: World, e: Event): World
    requires Enabled(w, e)
  {
    var content := Splice(w.content, e.at, e.oldLen, e.with);
    match e
    case Edited(at, oldLen, with, call, op) =>
      World(EditRuns(w.runs, at, oldLen, |with|, call, op), EditScars(w.scars, at, oldLen, |with|),
            content, w.strs[(call, op) := with])
    case Rewrote(idx, at, oldLen, with) =>
      var r := w.runs[idx];
      World(RewriteRuns(w.runs, idx, at, oldLen, |with|), ShiftScars(w.scars, at, oldLen, |with|),
            content, w.strs[(r.call, r.op) := Splice(w.strs[(r.call, r.op)], SeatOf(w.runs, idx, at), oldLen, with)])
  }

  ghost predicate Attributed(w: World, o: Provenance) {
    Attributes(w.runs, w.scars, o) && Reads(o, w.content, w.strs)
  }

  /** Along the content, the bytes of one op keep the order they had in its `new_str`. */
  predicate Monotone(o: Provenance) {
    forall x, y :: 0 <= x < y < |o| && o[x].Wrote? && o[y].Wrote? && o[x].call == o[y].call && o[x].op == o[y].op
                   ==> o[x].offset < o[y].offset
  }

  lemma MonotoneAt(runs: seq<Run>, o: Provenance, x: nat, y: nat)
    requires Ordered(runs) && Sound(runs, o) && Complete(runs, o)
    requires x < y < |o| && o[x].Wrote? && o[y].Wrote? && o[x].call == o[y].call && o[x].op == o[y].op
    ensures o[x].offset < o[y].offset
  {
    var r :| r in runs && Covers(r, x);
    var s :| s in runs && Covers(s, y);
    assert RunSound(r, o) && RunSound(s, o);
    var i: nat :| i < |runs| && runs[i] == r;
    var j: nat :| j < |runs| && runs[j] == s;
    assert i < j ==> Before(runs[i], runs[j]);
    assert j < i ==> Before(runs[j], runs[i]);
  }

  lemma OrderedIsMonotone(runs: seq<Run>, o: Provenance)
    requires Ordered(runs) && Sound(runs, o) && Complete(runs, o)
    ensures Monotone(o)
  {
    forall x: nat, y: nat | x < y < |o| && o[x].Wrote? && o[y].Wrote? && o[x].call == o[y].call && o[x].op == o[y].op
      ensures o[x].offset < o[y].offset
    {
      MonotoneAt(runs, o, x, y);
    }
  }

  /** A byte of the op outside the rewritten ones lies outside them in `new_str` too. */
  lemma OutsideKeepsClear(o: Provenance, at: nat, oldLen: nat, call: nat, op: nat, seat: nat, y: nat)
    requires Monotone(o) && oldLen > 0 && at + oldLen <= |o| && y < |o|
    requires o[at] == Wrote(call, op, seat) && o[at + oldLen - 1] == Wrote(call, op, seat + oldLen - 1)
    requires o[y].Wrote? && o[y].call == call && o[y].op == op
    ensures y < at ==> o[y].offset < seat
    ensures at + oldLen <= y ==> seat + oldLen <= o[y].offset
  {
  }

  /** One byte of the content outside the rewritten ones: it reads as it did. */
  lemma RewriteReadsAt(o: Provenance, content: Text, strs: map<(nat, nat), Text>, at: nat, oldLen: nat, with: Text,
                       call: nat, op: nat, seat: nat, y: nat, moved: Origin)
    requires y < |o| == |content| && ReadsAt(o, content, strs, y) && (call, op) in strs
    requires seat + oldLen <= |strs[(call, op)]|
    requires o[y].Wrote? && o[y].call == call && o[y].op == op ==>
               o[y].offset < seat || seat + oldLen <= o[y].offset
    requires moved == Slide(o[y], call, op, seat + oldLen, oldLen, |with|)
    ensures moved.Wrote? ==>
              var strs' := strs[(call, op) := Splice(strs[(call, op)], seat, oldLen, with)];
              && (moved.call, moved.op) in strs'
              && moved.offset < |strs'[(moved.call, moved.op)]|
              && strs'[(moved.call, moved.op)][moved.offset] == content[y]
  {
    if o[y].Wrote? && o[y].call == call && o[y].op == op {
      SpliceElsewhere(strs[(call, op)], seat, oldLen, with, o[y].offset);
    }
  }

  lemma RewriteReads(o: Provenance, content: Text, strs: map<(nat, nat), Text>,
                     at: nat, oldLen: nat, with: Text, call: nat, op: nat, seat: nat)
    requires Reads(o, content, strs) && Monotone(o)
    requires oldLen > 0 && at + oldLen <= |content|
    requires (call, op) in strs && seat + oldLen <= |strs[(call, op)]|
    requires forall x :: at <= x < at + oldLen ==> o[x] == Wrote(call, op, seat + (x - at))
    ensures Reads(RewriteOrigins(o, at, oldLen, |with|, call, op, seat), Splice(content, at, oldLen, with),
                  strs[(call, op) := Splice(strs[(call, op)], seat, oldLen, with)])
  {
    var o' := RewriteOrigins(o, at, oldLen, |with|, call, op, seat);
    var content', str' := Splice(content, at, oldLen, with), Splice(strs[(call, op)], seat, oldLen, with);
    var strs' := strs[(call, op) := str'];
    forall x: nat | x < |o'| ensures ReadsAt(o', content', strs', x) {
      if at <= x < at + |with| {
        assert str'[seat + (x - at)] == with[x - at];
      } else {
        var y: nat := if x < at then x else x - |with| + oldLen;
        assert ReadsAt(o, content, strs, y) && content'[x] == content[y];
        if o[y].Wrote? && o[y].call == call && o[y].op == op {
          OutsideKeepsClear(o, at, oldLen, call, op, seat, y);
        }
        RewriteReadsAt(o, content, strs, at, oldLen, with, call, op, seat, y, o'[x]);
      }
    }
  }

  lemma SpliceElsewhere(t: Text, seat: nat, len: nat, with: Text, k: nat)
    requires seat + len <= |t| && k < |t| && (k < seat || seat + len <= k)
    ensures Splice(t, seat, len, with)[if k < seat then k else k - len + |with|] == t[k]
  {}

  lemma EditReads(o: Provenance, content: Text, strs: map<(nat, nat), Text>,
                  at: nat, oldLen: nat, with: Text, call: nat, op: nat)
    requires Reads(o, content, strs) && at + oldLen <= |content| && (call, op) !in strs
    ensures Reads(EditOrigins(o, at, oldLen, |with|, call, op), Splice(content, at, oldLen, with),
                  strs[(call, op) := with])
  {
    var o' := EditOrigins(o, at, oldLen, |with|, call, op);
    var content', strs' := Splice(content, at, oldLen, with), strs[(call, op) := with];
    forall x: nat | x < |o'| ensures ReadsAt(o', content', strs', x) {
      if x < at || at + |with| <= x {
        assert ReadsAt(o, content, strs, if x < at then x else x - |with| + oldLen);
      }
    }
  }

  lemma HappenKeeps(w: World, o: Provenance, e: Event) returns (o': Provenance)
    requires Attributed(w, o) && Enabled(w, e)
    ensures Attributed(Happen(w, e), o')
  {
    match e
    case Edited(at, oldLen, with, call, op) =>
      o' := EditOrigins(o, at, oldLen, |with|, call, op);
      EditSound(w.runs, o, at, oldLen, |with|, call, op);
      EditComplete(w.runs, o, at, oldLen, |with|, call, op);
      EditMarked(w.runs, w.scars, o, at, oldLen, |with|, call, op);
      EditReads(o, w.content, w.strs, at, oldLen, with, call, op);
    case Rewrote(idx, at, oldLen, with) =>
      var r := w.runs[idx];
      var seat := SeatOf(w.runs, idx, at);
      o' := RewriteOrigins(o, at, oldLen, |with|, r.call, r.op, seat);
      RewriteOrdered(w.runs, idx, at, oldLen, |with|);
      RewriteSound(w.runs, o, idx, at, oldLen, |with|);
      RewriteComplete(w.runs, o, idx, at, oldLen, |with|);
      RewriteMarked(w.runs, w.scars, o, idx, at, oldLen, |with|);
      OrderedIsMonotone(w.runs, o);
      assert forall x :: at <= x < at + oldLen ==> Covers(r, x);
      RewriteReads(o, w.content, w.strs, at, oldLen, with, r.call, r.op, seat);
  }

  ghost predicate History(ws: seq<World>, es: seq<Event>) {
    && |ws| == |es| + 1
    && ws[0].runs == [] && ws[0].scars == {} && ws[0].strs == map[]
    && forall i :: 0 <= i < |es| ==> Enabled(ws[i], es[i]) && ws[i + 1] == Happen(ws[i], es[i])
  }

  lemma HistoryAttributed(ws: seq<World>, es: seq<Event>, n: nat) returns (o: Provenance)
    requires History(ws, es) && n <= |es|
    ensures Attributed(ws[n], o)
  {
    if n == 0 {
      o := seq(|ws[0].content|, i requires 0 <= i < |ws[0].content| => Base(i));
    } else {
      var o0 := HistoryAttributed(ws, es, n - 1);
      o := HappenKeeps(ws[n - 1], o0, es[n - 1]);
    }
  }

  /** After any sequence of edits and rewrites the runs are sorted and disjoint, and each
      run's slice of the content is its op's slice of the op's current `new_str`. */
  lemma AttributionInvariant(ws: seq<World>, es: seq<Event>, n: nat, i: nat)
    requires History(ws, es) && n <= |es| && i < |ws[n].runs|
    ensures Ordered(ws[n].runs)
    ensures var w, r := ws[n], ws[n].runs[i];
            && 0 <= r.start <= r.end <= |w.content|
            && (r.start < r.end ==>
                  && (r.call, r.op) in w.strs
                  && 0 <= r.at && r.at + (r.end - r.start) <= |w.strs[(r.call, r.op)]|
                  && w.content[r.start..r.end] == w.strs[(r.call, r.op)][r.at..r.at + (r.end - r.start)])
  {
    var o := HistoryAttributed(ws, es, n);
    var w, r := ws[n], ws[n].runs[i];
    assert r in w.runs;
    assert forall x :: r.start <= x < r.end ==> Covers(r, x);
    if r.start < r.end {
      assert ReadsAt(o, w.content, w.strs, r.start) && ReadsAt(o, w.content, w.strs, r.end - 1);
      var t := w.strs[(r.call, r.op)];
      var a, b := w.content[r.start..r.end], t[r.at..r.at + (r.end - r.start)];
      forall k | 0 <= k < |a| ensures a[k] == b[k] {
        assert Covers(r, r.start + k);
        assert ReadsAt(o, w.content, w.strs, r.start + k);
      }
    }
  }
}
