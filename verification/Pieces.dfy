/** Replacing several stretches of a text at once: the later ones first, or all in one pass. */
module Pieces {
  import opened Spans
  import Diff

  /** `[start, end)` becomes `with`. */
  datatype Piece = Piece(start: nat, end: nat, with: Text)

  predicate Fits(p: Piece, len: nat) {
    p.start <= p.end <= len
  }

  /** The pieces ascend without overlapping. */
  predicate InOrder(pieces: seq<Piece>, len: nat) {
    && (forall k :: 0 <= k < |pieces| ==> Fits(pieces[k], len))
    && forall k, l :: 0 <= k < l < |pieces| ==> pieces[k].end <= pieces[l].start
  }

  function Put(t: Text, p: Piece): Text {
    if Fits(p, |t|) then Splice(t, p.start, p.end - p.start, p.with) else t
  }

  /** Each piece put in turn, last first, so that none moves another. */
  function Patchwork(t: Text, pieces: seq<Piece>): Text
    decreases |pieces|
  {
    if pieces == [] then t else Patchwork(Put(t, pieces[|pieces| - 1]), pieces[..|pieces| - 1])
  }

  function EndOf(pieces: seq<Piece>): nat {
    if pieces == [] then 0 else pieces[|pieces| - 1].end
  }

  /** `t` up to the last piece's end, each piece in its place. */
  function Joined(t: Text, pieces: seq<Piece>): Text {
    if pieces == [] then []
    else
      var init, p := pieces[..|pieces| - 1], pieces[|pieces| - 1];
      Joined(t, init) + (if EndOf(init) <= p.start <= |t| then t[EndOf(init)..p.start] else []) + p.with
  }

  lemma InOrderInit(pieces: seq<Piece>, len: nat)
    requires pieces != [] && InOrder(pieces, len)
    ensures InOrder(pieces[..|pieces| - 1], pieces[|pieces| - 1].start)
    ensures EndOf(pieces[..|pieces| - 1]) <= pieces[|pieces| - 1].start
  {
    var n := |pieces| - 1;
    forall k | 0 <= k < n ensures Fits(pieces[..n][k], pieces[n].start) {
      assert Fits(pieces[k], len) && pieces[k].end <= pieces[n].start;
    }
  }

  lemma PutAtEnd(t: Text, end: nat, rest: Text, p: Piece)
    requires end <= |t| && Fits(p, end)
    ensures Put(t[..end] + rest, p) == t[..p.start] + (p.with + t[p.end..end] + rest)
  {
    assert (t[..end] + rest)[p.end..] == t[p.end..end] + rest;
  }

  /** Both ways of replacing agree; `rest` is what stands past `end`, already replaced. */
  lemma {:induction false} PatchworkJoins(t: Text, end: nat, rest: Text, pieces: seq<Piece>)
    requires end <= |t| && InOrder(pieces, end)
    ensures EndOf(pieces) <= end
    ensures Patchwork(t[..end] + rest, pieces) == Joined(t, pieces) + t[EndOf(pieces)..end] + rest
    decreases |pieces|
  {
    if pieces != [] {
      var init, p := pieces[..|pieces| - 1], pieces[|pieces| - 1];
      InOrderInit(pieces, end);
      assert Fits(p, end);
      PutAtEnd(t, end, rest, p);
      PatchworkJoins(t, p.start, p.with + t[p.end..end] + rest, init);
      Regroup(Joined(t, init), t[EndOf(init)..p.start], p.with, t[p.end..end], rest);
    }
  }

  lemma Regroup(a: Text, b: Text, c: Text, d: Text, e: Text)
    ensures a + b + (c + d + e) == a + b + c + d + e
  {
  }

  /** Put last first, or joined front to back: the same text. */
  lemma PatchworkIsJoined(t: Text, pieces: seq<Piece>)
    requires InOrder(pieces, |t|)
    ensures EndOf(pieces) <= |t| && Patchwork(t, pieces) == Joined(t, pieces) + t[EndOf(pieces)..]
  {
    PatchworkJoins(t, |t|, [], pieces);
    assert t[..|t|] + [] == t;
  }

  ///////////////////////////////////////// the pieces of a diff ////////////////////////////////////////

  function HunkPiece(h: Diff.Hunk, after: Text): Piece {
    Piece(h.oldStart, h.oldEnd, if h.newStart <= h.newEnd <= |after| then after[h.newStart..h.newEnd] else [])
  }

  function PiecesOf(hunks: seq<Diff.Hunk>, after: Text): (r: seq<Piece>)
    ensures |r| == |hunks|
  {
    seq(|hunks|, k requires 0 <= k < |hunks| => HunkPiece(hunks[k], after))
  }

  lemma HunksJoin(before: Text, after: Text, hunks: seq<Diff.Hunk>)
    ensures Diff.SplicedHunks(before, after, hunks) == Joined(before, PiecesOf(hunks, after))
    ensures Diff.OldEnd(hunks) == EndOf(PiecesOf(hunks, after))
  {
    if hunks != [] {
      var init := hunks[..|hunks| - 1];
      assert PiecesOf(hunks, after)[..|hunks| - 1] == PiecesOf(init, after);
      HunksJoin(before, after, init);
    }
  }

  lemma HunksInOrder(before: Text, after: Text, hunks: seq<Diff.Hunk>)
    requires Diff.Ascending(hunks, |before|, |after|)
    ensures InOrder(PiecesOf(hunks, after), |before|)
  {
    var pieces := PiecesOf(hunks, after);
    forall k | 0 <= k < |pieces| ensures Fits(pieces[k], |before|) { assert hunks[k].oldEnd <= |before|; }
    forall k, l | 0 <= k < l < |pieces| ensures pieces[k].end <= pieces[l].start {
      assert hunks[k].oldEnd <= hunks[l].oldStart;
    }
  }

  /** Every changed region put in place gives the new content. */
  lemma HunksGiveAfter(before: Text, after: Text, hunks: seq<Diff.Hunk>)
    requires Diff.Ascending(hunks, |before|, |after|) && Diff.SpliceAll(before, after, hunks) == after
    ensures Patchwork(before, PiecesOf(hunks, after)) == after
  {
    HunksJoin(before, after, hunks);
    HunksInOrder(before, after, hunks);
    PatchworkIsJoined(before, PiecesOf(hunks, after));
  }
}
