/** Changed regions and their owners (src/claude.rs, `trim`, `containing`): a region inside the bytes
    one op wrote, replaced in that op's `new_str`, is replaced in what the plan lands. */
module Regions {
  import opened Wrappers
  import opened Spans
  import opened Patch
  import opened Tracks
  import opened Programs
  import opened Planner
  import opened PassState
  import opened Sessions
  import opened Pieces
  import Diff

  ////////////////////////////////////////////// trimming ///////////////////////////////////////////////

  /** How far the two agree, past the first `k`. */
  function HeadFrom(a: Text, b: Text, k: nat): (n: nat)
    requires k <= |a| && k <= |b| && a[..k] == b[..k]
    ensures k <= n <= |a| && n <= |b| && a[..n] == b[..n]
    ensures n < |a| && n < |b| ==> a[n] != b[n]
    decreases |a| - k
  {
    if k < |a| && k < |b| && a[k] == b[k] then
      assert a[..k + 1] == a[..k] + [a[k]];
      HeadFrom(a, b, k + 1)
    else k
  }

  /** How far the two agree from their ends, within `room`, past the last `k`. */
  function TailFrom(a: Text, b: Text, room: nat, k: nat): (n: nat)
    requires k <= room <= |a| && room <= |b| && a[|a| - k..] == b[|b| - k..]
    ensures k <= n <= room && a[|a| - n..] == b[|b| - n..]
    ensures n < room ==> a[|a| - 1 - n] != b[|b| - 1 - n]
    decreases room - k
  {
    if k < room && a[|a| - 1 - k] == b[|b| - 1 - k] then
      assert a[|a| - (k + 1)..] == [a[|a| - 1 - k]] + a[|a| - k..];
      assert b[|b| - (k + 1)..] == [b[|b| - 1 - k]] + b[|b| - k..];
      TailFrom(a, b, room, k + 1)
    else k
  }

  predicate Inside(h: Diff.Hunk, oldLen: nat, newLen: nat) {
    h.oldStart <= h.oldEnd <= oldLen && h.newStart <= h.newEnd <= newLen
  }

  /** `n` is within `h`, and what it leaves out on either side is the same in both contents. */
  predicate Narrowed(before: Text, after: Text, h: Diff.Hunk, n: Diff.Hunk)
    requires Inside(h, |before|, |after|)
  {
    && h.oldStart <= n.oldStart <= n.oldEnd <= h.oldEnd && h.newStart <= n.newStart <= n.newEnd <= h.newEnd
    && before[h.oldStart..n.oldStart] == after[h.newStart..n.newStart]
    && before[n.oldEnd..h.oldEnd] == after[n.newEnd..h.newEnd]
  }

  lemma SliceOfSlice(t: Text, i: nat, j: nat, x: nat, y: nat)
    requires x <= y && i + y <= j <= |t|
    ensures t[i..j][x..y] == t[i + x..i + y]
  {
    var a, b := t[i..j][x..y], t[i + x..i + y];
    assert |a| == |b| && forall k :: 0 <= k < |a| ==> a[k] == b[k];
  }

  lemma StrippedIsNarrowed(before: Text, after: Text, h: Diff.Hunk, a: Text, b: Text, head: nat, tail: nat)
    requires Inside(h, |before|, |after|) && a == before[h.oldStart..h.oldEnd] && b == after[h.newStart..h.newEnd]
    requires head + tail <= |a| && head + tail <= |b| && a[..head] == b[..head] && a[|a| - tail..] == b[|b| - tail..]
    ensures Narrowed(before, after, h, Diff.Hunk(h.oldStart + head, h.oldEnd - tail, h.newStart + head,
                                                 h.newEnd - tail))
  {
    SliceOfSlice(before, h.oldStart, h.oldEnd, 0, head);
    SliceOfSlice(after, h.newStart, h.newEnd, 0, head);
    assert a[0..head] == a[..head] && b[0..head] == b[..head];
    SliceOfSlice(before, h.oldStart, h.oldEnd, |a| - tail, |a|);
    SliceOfSlice(after, h.newStart, h.newEnd, |b| - tail, |b|);
    assert a[|a| - tail..|a|] == a[|a| - tail..] && b[|b| - tail..|b|] == b[|b| - tail..];
    assert h.oldStart + (|a| - tail) == h.oldEnd - tail && h.newStart + (|b| - tail) == h.newEnd - tail;
  }

  /** No common first or last byte remains. */
  predicate FullyTrimmed(before: Text, after: Text, n: Diff.Hunk)
    requires Inside(n, |before|, |after|)
  {
    n.oldStart < n.oldEnd && n.newStart < n.newEnd ==>
      before[n.oldStart] != after[n.newStart] && before[n.oldEnd - 1] != after[n.newEnd - 1]
  }

  lemma StrippedIsTight(before: Text, after: Text, h: Diff.Hunk, a: Text, b: Text, head: nat, tail: nat)
    requires Inside(h, |before|, |after|) && a == before[h.oldStart..h.oldEnd] && b == after[h.newStart..h.newEnd]
    requires head + tail <= |a| && head + tail <= |b|
    requires head + tail < |a| && head + tail < |b| ==> a[head] != b[head] && a[|a| - 1 - tail] != b[|b| - 1 - tail]
    ensures FullyTrimmed(before, after,
                         Diff.Hunk(h.oldStart + head, h.oldEnd - tail, h.newStart + head, h.newEnd - tail))
  {
  }

  function Strip(before: Text, after: Text, h: Diff.Hunk, a: Text, b: Text, head: nat, tail: nat): (n: Diff.Hunk)
    requires Inside(h, |before|, |after|) && a == before[h.oldStart..h.oldEnd] && b == after[h.newStart..h.newEnd]
    requires head + tail <= |a| && head + tail <= |b| && a[..head] == b[..head] && a[|a| - tail..] == b[|b| - tail..]
    requires head + tail < |a| && head + tail < |b| ==> a[head] != b[head] && a[|a| - 1 - tail] != b[|b| - 1 - tail]
    ensures Narrowed(before, after, h, n) && FullyTrimmed(before, after, n)
  {
    StrippedIsNarrowed(before, after, h, a, b, head, tail);
    StrippedIsTight(before, after, h, a, b, head, tail);
    Diff.Hunk(h.oldStart + head, h.oldEnd - tail, h.newStart + head, h.newEnd - tail)
  }

  /** Narrow a changed region to the bytes that differ. */
  function Trim(before: Text, after: Text, h: Diff.Hunk): (n: Diff.Hunk)
    requires Inside(h, |before|, |after|)
    ensures Narrowed(before, after, h, n) && FullyTrimmed(before, after, n)
  {
    var a, b := before[h.oldStart..h.oldEnd], after[h.newStart..h.newEnd];
    var head := HeadFrom(a, b, 0);
    Strip(before, after, h, a, b, head, TailFrom(a, b, (if |a| <= |b| then |a| else |b|) - head, 0))
  }

  lemma NarrowPut(t: Text, after: Text, end: nat, rest: Text, h: Diff.Hunk, n: Diff.Hunk)
    requires end <= |t| && Inside(h, end, |after|) && Narrowed(t, after, h, n)
    ensures Put(t[..end] + rest, HunkPiece(n, after)) == Put(t[..end] + rest, HunkPiece(h, after))
  {
    PutAtEnd(t, end, rest, HunkPiece(n, after));
    PutAtEnd(t, end, rest, HunkPiece(h, after));
    NarrowRegroup(t, after, end, rest, h, n);
  }

  lemma NarrowRegroup(t: Text, after: Text, end: nat, rest: Text, h: Diff.Hunk, n: Diff.Hunk)
    requires end <= |t| && Inside(h, end, |after|) && Narrowed(t, after, h, n)
    ensures t[..n.oldStart] + (after[n.newStart..n.newEnd] + t[n.oldEnd..end] + rest)
         == t[..h.oldStart] + (after[h.newStart..h.newEnd] + t[h.oldEnd..end] + rest)
  {
    assert t[..n.oldStart] == t[..h.oldStart] + t[h.oldStart..n.oldStart];
    assert t[n.oldEnd..end] == t[n.oldEnd..h.oldEnd] + t[h.oldEnd..end];
    assert after[h.newStart..h.newEnd]
        == after[h.newStart..n.newStart] + after[n.newStart..n.newEnd] + after[n.newEnd..h.newEnd];
  }

  /** Narrowing the regions changes nothing of what putting them all in place gives. */
  lemma {:induction false} NarrowedSame(t: Text, after: Text, end: nat, rest: Text, hunks: seq<Diff.Hunk>,
                                        narrow: seq<Diff.Hunk>)
    requires end <= |t| && Diff.Ascending(hunks, end, |after|) && |narrow| == |hunks|
    requires forall k :: 0 <= k < |hunks| ==> Narrowed(t, after, hunks[k], narrow[k])
    ensures Patchwork(t[..end] + rest, PiecesOf(narrow, after)) == Patchwork(t[..end] + rest, PiecesOf(hunks, after))
    decreases |hunks|
  {
    if hunks != [] {
      var m := |hunks| - 1;
      var h, n := hunks[m], narrow[m];
      assert PiecesOf(narrow, after)[..m] == PiecesOf(narrow[..m], after);
      assert PiecesOf(hunks, after)[..m] == PiecesOf(hunks[..m], after);
      NarrowPut(t, after, end, rest, h, n);
      PutAtEnd(t, end, rest, HunkPiece(h, after));
      AscendingInit(hunks, end, |after|);
      NarrowedSame(t, after, h.oldStart, after[h.newStart..h.newEnd] + t[h.oldEnd..end] + rest, hunks[..m],
                   narrow[..m]);
    }
  }

  lemma AscendingInit(hunks: seq<Diff.Hunk>, oldLen: nat, newLen: nat)
    requires hunks != [] && Diff.Ascending(hunks, oldLen, newLen)
    ensures Diff.Ascending(hunks[..|hunks| - 1], hunks[|hunks| - 1].oldStart, newLen)
  {
  }

  /////////////////////////////////////////////// owners ////////////////////////////////////////////////

  /** The run holds the whole region; an insertion must fall strictly inside it. */
  predicate Owns(r: Run, h: Diff.Hunk) {
    if h.oldStart == h.oldEnd then r.start < h.oldStart < r.end else r.start <= h.oldStart && h.oldEnd <= r.end
  }

  /** The first run that owns the region. */
  function Containing(runs: seq<Run>, h: Diff.Hunk): (r: Option<Run>)
    ensures r.Some? ==> r.value in runs && Owns(r.value, h)
    ensures r.None? ==> forall q :: q in runs ==> !Owns(q, h)
  {
    if runs == [] then None
    else if Owns(runs[0], h) then Some(runs[0]) else Containing(runs[1..], h)
  }

  /** A region that sits on `seat` of the `new_str` of op (`call`, `op`). */
  datatype Owned = Owned(hunk: Diff.Hunk, call: nat, op: nat, seat: nat)

  predicate RunsInRange(runs: seq<Run>) {
    forall r :: r in runs ==> 0 <= r.start && 0 <= r.at
  }

  function OwnedBy(r: Run, h: Diff.Hunk): Owned
    requires 0 <= r.at && Owns(r, h)
  {
    Owned(h, r.call, r.op, r.at + (h.oldStart - r.start))
  }

  /** A region's owner: the run that contains it, or else the one that contains what differs. */
  function OwnerOf(runs: seq<Run>, before: Text, after: Text, h: Diff.Hunk): Option<Owned>
    requires RunsInRange(runs) && Inside(h, |before|, |after|)
  {
    match Containing(runs, h)
    case Some(r) => Some(OwnedBy(r, h))
    case None =>
      match Containing(runs, Trim(before, after, h))
      case Some(r) => Some(OwnedBy(r, Trim(before, after, h)))
      case None => None
  }

  predicate AllInside(hunks: seq<Diff.Hunk>, oldLen: nat, newLen: nat) {
    forall k :: 0 <= k < |hunks| ==> Inside(hunks[k], oldLen, newLen)
  }

  /** The regions that have an owner, in order. */
  function OwnedOf(owners: seq<Option<Owned>>): seq<Owned> {
    if owners == [] then []
    else OwnedOf(owners[..|owners| - 1])
         + if owners[|owners| - 1].Some? then [owners[|owners| - 1].value] else []
  }

  function HunksOf(ws: seq<Owned>): (r: seq<Diff.Hunk>)
    ensures |r| == |ws|
  {
    seq(|ws|, k requires 0 <= k < |ws| => ws[k].hunk)
  }

  /** The region's bytes are its op's, where it says: for an insertion, the byte before it is. */
  ghost predicate Held(w: Owned, o: Provenance) {
    if w.hunk.oldStart == w.hunk.oldEnd
    then w.hunk.oldStart > 0 && w.seat > 0 && Region(o, w.hunk.oldStart - 1, 1, w.call, w.op, w.seat - 1)
    else
      && w.hunk.oldStart < w.hunk.oldEnd
      && Region(o, w.hunk.oldStart, w.hunk.oldEnd - w.hunk.oldStart, w.call, w.op, w.seat)
  }

  ghost predicate AllHeld(ws: seq<Owned>, o: Provenance, newLen: nat) {
    && Diff.Ascending(HunksOf(ws), |o|, newLen)
    && forall k :: 0 <= k < |ws| ==> Held(ws[k], o)
  }

  lemma OwnedIsHeld(r: Run, h: Diff.Hunk, o: Provenance)
    requires RunSound(r, o) && Owns(r, h) && h.oldStart <= h.oldEnd
    ensures Held(OwnedBy(r, h), o)
  {
    assert h.oldStart == h.oldEnd ==> Covers(r, h.oldStart - 1);
    assert forall x :: h.oldStart <= x < h.oldEnd ==> Covers(r, x);
  }

  lemma OwnerIsHeld(runs: seq<Run>, o: Provenance, before: Text, after: Text, h: Diff.Hunk)
    requires RunsInRange(runs) && Sound(runs, o) && |o| == |before| && Inside(h, |before|, |after|)
    requires OwnerOf(runs, before, after, h).Some?
    ensures Held(OwnerOf(runs, before, after, h).value, o)
        && Narrowed(before, after, h, OwnerOf(runs, before, after, h).value.hunk)
  {
    match Containing(runs, h) {
      case Some(r) => OwnedIsHeld(r, h, o);
      case None => OwnedIsHeld(Containing(runs, Trim(before, after, h)).value, Trim(before, after, h), o);
    }
  }

  /** An owner for each changed region that has one: held where it says, and narrowing its region. */
  ghost predicate Owners(owners: seq<Option<Owned>>, o: Provenance, before: Text, after: Text, hunks: seq<Diff.Hunk>) {
    && |owners| == |hunks| && AllInside(hunks, |before|, |after|)
    && forall k :: 0 <= k < |owners| && owners[k].Some? ==>
         Held(owners[k].value, o) && Narrowed(before, after, hunks[k], owners[k].value.hunk)
  }

  lemma OwnersInit(owners: seq<Option<Owned>>, o: Provenance, before: Text, after: Text, hunks: seq<Diff.Hunk>)
    requires Owners(owners, o, before, after, hunks) && hunks != []
    ensures Owners(owners[..|owners| - 1], o, before, after, hunks[..|hunks| - 1])
  {
  }

  lemma AscendingWithin(hunks: seq<Diff.Hunk>, oldLen: nat, newLen: nat)
    requires Diff.Ascending(hunks, oldLen, newLen)
    ensures AllInside(hunks, oldLen, newLen)
    ensures Diff.OldEnd(hunks) <= oldLen && Diff.NewEnd(hunks) <= newLen
    ensures Diff.Ascending(hunks, Diff.OldEnd(hunks), Diff.NewEnd(hunks))
  {
    forall k | 0 <= k < |hunks| ensures hunks[k].oldEnd <= Diff.OldEnd(hunks) && hunks[k].newEnd <= Diff.NewEnd(hunks) {
      if k < |hunks| - 1 { assert hunks[k].oldEnd <= hunks[|hunks| - 1].oldStart; }
    }
  }

  lemma {:induction false} OwnedHeld(owners: seq<Option<Owned>>, o: Provenance, before: Text, after: Text,
                                     hunks: seq<Diff.Hunk>)
    requires Owners(owners, o, before, after, hunks)
    ensures forall w :: w in OwnedOf(owners) ==> Held(w, o)
  {
    if hunks != [] {
      OwnersInit(owners, o, before, after, hunks);
      OwnedHeld(owners[..|owners| - 1], o, before, after, hunks[..|hunks| - 1]);
    }
  }

  lemma AscendsStep(ns: seq<Diff.Hunk>, init: seq<Diff.Hunk>, h: Diff.Hunk, oldLen: nat, newLen: nat)
    requires Diff.Ascending(init + [h], oldLen, newLen) && Diff.Ascending(ns, Diff.OldEnd(init), Diff.NewEnd(init))
    ensures Diff.Ascending(ns, h.oldEnd, h.newEnd) && Diff.OldEnd(init) <= h.oldStart && Diff.NewEnd(init) <= h.newStart
    ensures Diff.OldEnd(ns) <= Diff.OldEnd(init) && Diff.NewEnd(ns) <= Diff.NewEnd(init)
  {
    var hunks := init + [h];
    assert hunks[|init|] == h;
    if init != [] { assert hunks[|init| - 1] == init[|init| - 1]; }
    assert h.oldStart <= h.oldEnd && h.newStart <= h.newEnd;
    AscendingWithin(ns, Diff.OldEnd(init), Diff.NewEnd(init));
    AscendingWider(ns, Diff.OldEnd(init), Diff.NewEnd(init), h.oldEnd, h.newEnd);
  }

  lemma {:induction false} OwnedAscend(owners: seq<Option<Owned>>, o: Provenance, before: Text, after: Text,
                                       hunks: seq<Diff.Hunk>)
    requires Owners(owners, o, before, after, hunks) && Diff.Ascending(hunks, |before|, |after|)
    ensures Diff.Ascending(HunksOf(OwnedOf(owners)), Diff.OldEnd(hunks), Diff.NewEnd(hunks))
  {
    if hunks != [] {
      var init, h, owner := hunks[..|hunks| - 1], hunks[|hunks| - 1], owners[|owners| - 1];
      assert hunks == init + [h];
      OwnersInit(owners, o, before, after, hunks);
      OwnedAscend(owners[..|owners| - 1], o, before, after, init);
      var ns := HunksOf(OwnedOf(owners[..|owners| - 1]));
      AscendsStep(ns, init, h, |before|, |after|);
      if owner.Some? {
        Diff.AscendingAppend(ns, owner.value.hunk, h.oldEnd, h.newEnd);
        assert HunksOf(OwnedOf(owners)) == ns + [owner.value.hunk];
      } else {
        assert HunksOf(OwnedOf(owners)) == ns;
      }
    }
  }

  lemma AscendingWider(hunks: seq<Diff.Hunk>, oldLen: nat, newLen: nat, oldLen': nat, newLen': nat)
    requires Diff.Ascending(hunks, oldLen, newLen) && oldLen <= oldLen' && newLen <= newLen'
    ensures Diff.Ascending(hunks, oldLen', newLen')
  {
  }

  lemma {:induction false} AllOwned(owners: seq<Option<Owned>>)
    ensures |OwnedOf(owners)| <= |owners|
    ensures |OwnedOf(owners)| == |owners| ==>
              forall k :: 0 <= k < |owners| ==> owners[k] == Some(OwnedOf(owners)[k])
  {
    if owners != [] { AllOwned(owners[..|owners| - 1]); }
  }

  ////////////////////////////////////////////// one region /////////////////////////////////////////////

  /** The piece of the owner's `new_str` a region rewrites. */
  function SeatPiece(w: Owned, after: Text): Piece {
    Piece(w.seat, w.seat + (if w.hunk.oldStart <= w.hunk.oldEnd then w.hunk.oldEnd - w.hunk.oldStart else 0),
          WithOf(w, after))
  }

  /** The plan with one piece of one op's `new_str` replaced. */
  function Rewritten(planned: seq<Outcome>, call: nat, op: nat, p: Piece): seq<Outcome> {
    if call < |planned| && planned[call].Land? && op < |planned[call].intent| && planned[call].intent[op].Edit?
    then planned[call := planned[call].(intent :=
                planned[call].intent[op := planned[call].intent[op].(newStr :=
                                                                     Put(planned[call].intent[op].newStr, p))])]
    else planned
  }

  /** An op's bytes before `pos` keep their offsets when it rewrites its bytes at `pos`. */
  lemma PrefixKept(o: Provenance, pos: nat, m: nat, w: nat, call: nat, op: nat, seat: nat)
    requires Programs.Tight(o) && Region(o, pos, m, call, op, seat)
    ensures RewriteOrigins(o, pos, m, w, call, op, seat)[..pos] == o[..pos]
  {
    var r := RewriteOrigins(o, pos, m, w, call, op, seat);
    assert o[pos] == Wrote(call, op, seat);
    forall x | 0 <= x < pos ensures r[x] == o[x] {
      assert o[x].Wrote? && o[x].call == call && o[x].op == op ==> o[x].offset < seat;
    }
  }

  /** The op that holds a region is a landed edit, long enough to hold it. */
  lemma RegionIsLanded(prog: seq<Step>, start: State, planned: seq<Outcome>, p: Path, pos: nat, m: nat, call: nat,
                       op: nat, seat: nat)
    requires Planned(prog, start, planned) && Region(Origins(prog, start, p), pos, m, call, op, seat)
    ensures call < |planned| && planned[call].Land? && op < |planned[call].intent| && planned[call].intent[op].Edit?
    ensures seat + m <= |planned[call].intent[op].newStr|
    ensures pos < |BlobAt(PosRun(prog, start).value, p)|
            && planned[call].intent[op].newStr[seat] == BlobAt(PosRun(prog, start).value, p)[pos]
  {
    var o := Origins(prog, start, p);
    assert o[pos] == Wrote(call, op, seat) && o[pos + m - 1] == Wrote(call, op, seat + m - 1);
    OwnerIsLanded(prog, start, planned, p, pos);
    OwnerIsLanded(prog, start, planned, p, pos + m - 1);
  }

  /** A region folded into its op: the plan rewrites that op, and replay by offset replaces the
      region, leaving who wrote what before it. */
  lemma RegionFolds(prog: seq<Step>, start: State, planned: seq<Outcome>, p: Path, pos: nat, m: nat, with: Text,
                    call: nat, op: nat, seat: nat) returns (prog': seq<Step>)
    requires Planned(prog, start, planned) && p in PosRun(prog, start).value
    requires Region(Origins(prog, start, p), pos, m, call, op, seat)
    ensures Planned(prog', start, Rewritten(planned, call, op, Piece(seat, seat + m, with)))
    ensures PosRun(prog', start) == Some(Patched(PosRun(prog, start).value, p, pos, m, with))
    ensures Origins(prog', start, p) == RewriteOrigins(Origins(prog, start, p), pos, m, |with|, call, op, seat)
    ensures forall q :: q != p ==> Origins(prog', start, q) == Origins(prog, start, q)
  {
    prog' := Fold(prog, p, pos, m, with, call, op, seat);
    FoldKeeps(prog, start, p, pos, m, with, call, op, seat);
    FoldPlanned(prog, start, planned, p, pos, m, with, call, op, seat);
    forall q | q != p ensures Origins(prog', start, q) == Origins(prog, start, q) {
      FoldElsewhere(prog, start, p, pos, m, with, call, op, seat, q);
    }
  }

  lemma FoldPlanned(prog: seq<Step>, start: State, planned: seq<Outcome>, p: Path, pos: nat, m: nat, with: Text,
                    call: nat, op: nat, seat: nat)
    requires Planned(prog, start, planned) && Region(Origins(prog, start, p), pos, m, call, op, seat)
    requires PosRun(Fold(prog, p, pos, m, with, call, op, seat), start).Some?
    ensures Planned(Fold(prog, p, pos, m, with, call, op, seat), start,
                    Rewritten(planned, call, op, Piece(seat, seat + m, with)))
  {
    FoldAscending(prog, p, pos, m, with, call, op, seat);
    RegionIsLanded(prog, start, planned, p, pos, m, call, op, seat);
    var next := planned[call].(intent := planned[call].intent[op :=
                  planned[call].intent[op].(newStr := Splice(planned[call].intent[op].newStr, seat, m, with))]);
    FoldMatches(prog, start, planned, next, p, pos, m, with, call, op, seat);
    assert Rewritten(planned, call, op, Piece(seat, seat + m, with)) == planned[call := next];
  }

  /** The program once a region is replaced by `with`: before the region nothing moves. */
  ghost predicate Replaced(prog: seq<Step>, prog': seq<Step>, start: State, p: Path, pos: nat, m: nat, with: Text) {
    && PosRun(prog, start).Some? && p in PosRun(prog, start).value && pos + m <= |PosRun(prog, start).value[p].blob|
    && PosRun(prog', start) == Some(Patched(PosRun(prog, start).value, p, pos, m, with))
    && Origins(prog', start, p)[..pos] == Origins(prog, start, p)[..pos]
    && forall q :: q != p ==> Origins(prog', start, q) == Origins(prog, start, q)
  }

  lemma RegionReplaced(prog: seq<Step>, start: State, planned: seq<Outcome>, p: Path, pos: nat, m: nat, with: Text,
                       call: nat, op: nat, seat: nat) returns (prog': seq<Step>)
    requires Planned(prog, start, planned) && p in PosRun(prog, start).value
    requires Region(Origins(prog, start, p), pos, m, call, op, seat)
    ensures Planned(prog', start, Rewritten(planned, call, op, Piece(seat, seat + m, with)))
    ensures Replaced(prog, prog', start, p, pos, m, with)
  {
    prog' := RegionFolds(prog, start, planned, p, pos, m, with, call, op, seat);
    OriginsTight(prog, start, p);
    PrefixKept(Origins(prog, start, p), pos, m, |with|, call, op, seat);
  }

  lemma PrefixKeptInsert(o: Provenance, pos: nat, w: nat, call: nat, op: nat, seat: nat)
    requires Programs.Tight(o) && pos > 0 && seat > 0 && Region(o, pos - 1, 1, call, op, seat - 1)
    ensures RewriteOrigins(o, pos - 1, 1, 1 + w, call, op, seat - 1)[..pos] == o[..pos]
  {
    var r := RewriteOrigins(o, pos - 1, 1, 1 + w, call, op, seat - 1);
    PrefixKept(o, pos - 1, 1, 1 + w, call, op, seat - 1);
    assert o[pos - 1] == Wrote(call, op, seat - 1) == r[pos - 1];
    assert r[..pos] == r[..pos - 1] + [r[pos - 1]] && o[..pos] == o[..pos - 1] + [o[pos - 1]];
  }

  lemma InsertRewritten(planned: seq<Outcome>, call: nat, op: nat, seat: nat, byte: Byte, with: Text)
    requires call < |planned| && planned[call].Land? && op < |planned[call].intent| && planned[call].intent[op].Edit?
    requires 0 < seat <= |planned[call].intent[op].newStr| && planned[call].intent[op].newStr[seat - 1] == byte
    ensures Rewritten(planned, call, op, Piece(seat - 1, seat, [byte] + with))
        == Rewritten(planned, call, op, Piece(seat, seat, with))
  {
    InsertAfter(planned[call].intent[op].newStr, seat, with);
  }

  lemma InsertPatched(s: State, p: Path, pos: nat, with: Text)
    requires p in s && 0 < pos <= |s[p].blob|
    ensures Patched(s, p, pos - 1, 1, [s[p].blob[pos - 1]] + with) == Patched(s, p, pos, 0, with)
  {
    InsertAfter(s[p].blob, pos, with);
  }

  /** An insertion is the byte before it, rewritten as itself and what follows. */
  lemma InsertionFolds(prog: seq<Step>, start: State, planned: seq<Outcome>, p: Path, pos: nat, with: Text, call: nat,
                       op: nat, seat: nat, byte: Byte) returns (prog': seq<Step>)
    requires Planned(prog, start, planned) && p in PosRun(prog, start).value
    requires pos > 0 && seat > 0 && Region(Origins(prog, start, p), pos - 1, 1, call, op, seat - 1)
    requires pos <= |PosRun(prog, start).value[p].blob| && PosRun(prog, start).value[p].blob[pos - 1] == byte
    ensures Planned(prog', start, Rewritten(planned, call, op, Piece(seat - 1, seat, [byte] + with)))
    ensures PosRun(prog', start) == Some(Patched(PosRun(prog, start).value, p, pos, 0, with))
    ensures Origins(prog', start, p)[..pos] == Origins(prog, start, p)[..pos]
    ensures forall q :: q != p ==> Origins(prog', start, q) == Origins(prog, start, q)
  {
    prog' := RegionFolds(prog, start, planned, p, pos - 1, 1, [byte] + with, call, op, seat - 1);
    InsertPatched(PosRun(prog, start).value, p, pos, with);
    InsertionKeeps(prog, start, p, pos, |with|, call, op, seat);
  }

  lemma InsertionReplaced(prog: seq<Step>, start: State, planned: seq<Outcome>, p: Path, pos: nat, m: nat, with: Text,
                          call: nat, op: nat, seat: nat) returns (prog': seq<Step>)
    requires Planned(prog, start, planned) && p in PosRun(prog, start).value
    requires m == 0 && pos > 0 && seat > 0 && Region(Origins(prog, start, p), pos - 1, 1, call, op, seat - 1)
    ensures Planned(prog', start, Rewritten(planned, call, op, Piece(seat, seat + m, with)))
    ensures Replaced(prog, prog', start, p, pos, m, with)
  {
    RegionIsLanded(prog, start, planned, p, pos - 1, 1, call, op, seat - 1);
    var byte := PosRun(prog, start).value[p].blob[pos - 1];
    prog' := InsertionFolds(prog, start, planned, p, pos, with, call, op, seat, byte);
    InsertRewritten(planned, call, op, seat, byte, with);
  }

  lemma InsertionKeeps(prog: seq<Step>, start: State, p: Path, pos: nat, w: nat, call: nat, op: nat, seat: nat)
    requires PosRun(prog, start).Some? && Ascending(prog)
    requires pos > 0 && seat > 0 && Region(Origins(prog, start, p), pos - 1, 1, call, op, seat - 1)
    ensures RewriteOrigins(Origins(prog, start, p), pos - 1, 1, 1 + w, call, op, seat - 1)[..pos]
        == Origins(prog, start, p)[..pos]
  {
    OriginsTight(prog, start, p);
    PrefixKeptInsert(Origins(prog, start, p), pos, w, call, op, seat);
  }

  lemma InsertAfter(t: Text, i: nat, with: Text)
    requires 0 < i <= |t|
    ensures Splice(t, i - 1, 1, [t[i - 1]] + with) == Splice(t, i, 0, with)
    ensures Put(t, Piece(i - 1, i, [t[i - 1]] + with)) == Put(t, Piece(i, i, with))
  {
    assert t[..i] == t[..i - 1] + [t[i - 1]];
  }

  function WithOf(w: Owned, after: Text): Text {
    HunkPiece(w.hunk, after).with
  }

  /** One owned region folded into its op: the plan and the program. */
  ghost predicate Aligned(prog: seq<Step>, prog': seq<Step>, start: State, planned: seq<Outcome>, p: Path, w: Owned,
                          after: Text)
  {
    && w.hunk.oldStart <= w.hunk.oldEnd
    && Planned(prog', start, Rewritten(planned, w.call, w.op, SeatPiece(w, after)))
    && Replaced(prog, prog', start, p, w.hunk.oldStart, w.hunk.oldEnd - w.hunk.oldStart, WithOf(w, after))
  }

  lemma InsertionAligned(prog: seq<Step>, start: State, planned: seq<Outcome>, p: Path, w: Owned, after: Text)
    returns (prog': seq<Step>)
    requires Planned(prog, start, planned) && p in PosRun(prog, start).value && Held(w, Origins(prog, start, p))
    requires w.hunk.oldStart == w.hunk.oldEnd
    ensures Aligned(prog, prog', start, planned, p, w, after)
  {
    prog' := InsertionReplaced(prog, start, planned, p, w.hunk.oldStart, w.hunk.oldEnd - w.hunk.oldStart,
                               WithOf(w, after), w.call, w.op, w.seat);
  }

  lemma RegionAligned(prog: seq<Step>, start: State, planned: seq<Outcome>, p: Path, w: Owned, after: Text)
    returns (prog': seq<Step>)
    requires Planned(prog, start, planned) && p in PosRun(prog, start).value && Held(w, Origins(prog, start, p))
    requires w.hunk.oldStart != w.hunk.oldEnd
    ensures Aligned(prog, prog', start, planned, p, w, after)
  {
    prog' := RegionReplaced(prog, start, planned, p, w.hunk.oldStart, w.hunk.oldEnd - w.hunk.oldStart, WithOf(w, after),
                            w.call, w.op, w.seat);
  }

  //////////////////////////////////////////////// one path /////////////////////////////////////////////

  /** The plan with every region's piece put in its op, last first. */
  function AlignEach(planned: seq<Outcome>, ws: seq<Owned>, after: Text): seq<Outcome>
    decreases |ws|
  {
    if ws == [] then planned
    else
      var w := ws[|ws| - 1];
      AlignEach(Rewritten(planned, w.call, w.op, SeatPiece(w, after)), ws[..|ws| - 1], after)
  }

  lemma HeldPrefix(w: Owned, o: Provenance, o': Provenance, bound: nat)
    requires Held(w, o) && w.hunk.oldEnd <= bound <= |o| && bound <= |o'| && o'[..bound] == o[..bound]
    ensures Held(w, o')
  {
    forall x | 0 <= x < bound ensures o'[x] == o[x] { assert o'[..bound][x] == o[..bound][x]; }
  }

  lemma AllHeldInit(ws: seq<Owned>, o: Provenance, o': Provenance, newLen: nat)
    requires ws != [] && AllHeld(ws, o, newLen)
    requires var at := ws[|ws| - 1].hunk.oldStart; at <= |o| && at <= |o'| && o'[..at] == o[..at]
    ensures AllHeld(ws[..|ws| - 1], o', newLen)
  {
    var n := |ws| - 1;
    var at := ws[n].hunk.oldStart;
    assert HunksOf(ws)[..n] == HunksOf(ws[..n]);
    AscendingInit(HunksOf(ws), |o|, newLen);
    AscendingWider(HunksOf(ws[..n]), at, newLen, |o'|, newLen);
    forall k | 0 <= k < n ensures Held(ws[..n][k], o') {
      assert HunksOf(ws)[k].oldEnd <= HunksOf(ws)[n].oldStart;
      HeldPrefix(ws[k], o, o', at);
    }
  }

  /** One path with its blob replaced. */
  function WithBlob(s: State, p: Path, blob: Text): State
    requires p in s
  {
    s[p := s[p].(blob := blob)]
  }

  /** Replay by offset now leaves path `p` with every region in place, and no other path moved. */
  ghost predicate AlignedTo(prog: seq<Step>, prog': seq<Step>, start: State, p: Path, ws: seq<Owned>, after: Text) {
    && PosRun(prog, start).Some? && p in PosRun(prog, start).value
    && PosRun(prog', start)
         == Some(WithBlob(PosRun(prog, start).value, p,
                          Patchwork(PosRun(prog, start).value[p].blob, PiecesOf(HunksOf(ws), after))))
    && forall q :: q != p ==> Origins(prog', start, q) == Origins(prog, start, q)
  }

  lemma AlignedNone(prog: seq<Step>, start: State, p: Path, after: Text)
    requires PosRun(prog, start).Some? && p in PosRun(prog, start).value
    ensures AlignedTo(prog, prog, start, p, [], after)
  {
    var t := PosRun(prog, start).value;
    assert PiecesOf(HunksOf([]), after) == [] && WithBlob(t, p, t[p].blob) == t;
  }

  lemma AlignedThen(prog: seq<Step>, prog1: seq<Step>, prog': seq<Step>, start: State, planned: seq<Outcome>, p: Path,
                    ws: seq<Owned>, after: Text)
    requires ws != [] && AlignedTo(prog1, prog', start, p, ws[..|ws| - 1], after)
    requires Aligned(prog, prog1, start, planned, p, ws[|ws| - 1], after)
    ensures AlignedTo(prog, prog', start, p, ws, after)
  {
    PutLast(PosRun(prog, start).value, PosRun(prog1, start).value, p, ws, after);
  }

  lemma {:induction false} PathAligned(prog: seq<Step>, start: State, planned: seq<Outcome>, p: Path, ws: seq<Owned>,
                                       after: Text)
    returns (prog': seq<Step>)
    requires Planned(prog, start, planned) && p in PosRun(prog, start).value
        && AllHeld(ws, Origins(prog, start, p), |after|)
    ensures Planned(prog', start, AlignEach(planned, ws, after)) && AlignedTo(prog, prog', start, p, ws, after)
    decreases |ws|
  {
    if ws == [] {
      prog' := prog;
      AlignedNone(prog, start, p, after);
    } else {
      var w := ws[|ws| - 1];
      var prog1 := LastAligned(prog, start, planned, p, ws, after);
      prog' := PathAligned(prog1, start, Rewritten(planned, w.call, w.op, SeatPiece(w, after)), p, ws[..|ws| - 1],
                           after);
      AlignedThen(prog, prog1, prog', start, planned, p, ws, after);
    }
  }

  lemma LastAligned(prog: seq<Step>, start: State, planned: seq<Outcome>, p: Path, ws: seq<Owned>, after: Text)
    returns (prog1: seq<Step>)
    requires Planned(prog, start, planned) && p in PosRun(prog, start).value
        && AllHeld(ws, Origins(prog, start, p), |after|)
    requires ws != []
    ensures Aligned(prog, prog1, start, planned, p, ws[|ws| - 1], after)
    ensures AllHeld(ws[..|ws| - 1], Origins(prog1, start, p), |after|)
  {
    var w := ws[|ws| - 1];
    assert Held(w, Origins(prog, start, p));
    if w.hunk.oldStart == w.hunk.oldEnd {
      prog1 := InsertionAligned(prog, start, planned, p, w, after);
    } else {
      prog1 := RegionAligned(prog, start, planned, p, w, after);
    }
    AllHeldInit(ws, Origins(prog, start, p), Origins(prog1, start, p), |after|);
  }

  lemma PutLast(t: State, t1: State, p: Path, ws: seq<Owned>, after: Text)
    requires p in t && ws != [] && ws[|ws| - 1].hunk.oldStart <= ws[|ws| - 1].hunk.oldEnd <= |t[p].blob|
    requires var h := ws[|ws| - 1].hunk;
             t1 == Patched(t, p, h.oldStart, h.oldEnd - h.oldStart, WithOf(ws[|ws| - 1], after))
    ensures WithBlob(t1, p, Patchwork(t1[p].blob, PiecesOf(HunksOf(ws[..|ws| - 1]), after)))
         == WithBlob(t, p, Patchwork(t[p].blob, PiecesOf(HunksOf(ws), after)))
  {
    var n := |ws| - 1;
    var pieces := PiecesOf(HunksOf(ws), after);
    assert pieces[..n] == PiecesOf(HunksOf(ws[..n]), after);
    assert pieces[n] == HunkPiece(ws[n].hunk, after);
  }
}
