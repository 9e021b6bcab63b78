/** Aligning the plan with the working tree (src/claude.rs, `align`): a changed region inside the
    bytes one op wrote folds back into that op, and the plan then lands the tree's bytes there. */
module Alignment {
  import opened Wrappers
  import opened Spans
  import opened Patch
  import opened Tracks
  import opened Programs
  import opened Planner
  import opened PassState
  import opened Sessions
  import opened Pieces
  import opened Regions
  import Diff
  import Lines
  import Utf8

  ///////////////////////////////////////////// op by op ////////////////////////////////////////////////

  /** The pieces of one op's `new_str` its regions rewrite, in order. */
  function SeatsOf(ws: seq<Owned>, call: nat, op: nat, after: Text): seq<Piece> {
    if ws == [] then []
    else
      var w := ws[|ws| - 1];
      SeatsOf(ws[..|ws| - 1], call, op, after) + if w.call == call && w.op == op then [SeatPiece(w, after)] else []
  }

  function AlignedOp(op: Op, pieces: seq<Piece>): Op {
    if op.Edit? then op.(newStr := Patchwork(op.newStr, pieces)) else op
  }

  function AlignedLine(line: Outcome, call: nat, ws: seq<Owned>, after: Text): Outcome {
    if line.Land?
    then line.(intent := seq(|line.intent|,
                             j requires 0 <= j < |line.intent| =>
                             AlignedOp(line.intent[j], SeatsOf(ws, call, j, after))))
    else line
  }

  /** The plan with each op's pieces put in it at once. */
  function AlignedAll(planned: seq<Outcome>, ws: seq<Owned>, after: Text): (r: seq<Outcome>)
    ensures |r| == |planned|
  {
    seq(|planned|, c requires 0 <= c < |planned| => AlignedLine(planned[c], c, ws, after))
  }

  /** One piece put in one op of a line. */
  function PutLine(line: Outcome, call: nat, w: Owned, after: Text): Outcome {
    if line.Land? && w.call == call && w.op < |line.intent| && line.intent[w.op].Edit?
    then line.(intent := line.intent[w.op :=
        line.intent[w.op].(newStr := Put(line.intent[w.op].newStr, SeatPiece(w, after)))])
    else line
  }

  function PutOp(op: Op, call: nat, j: nat, w: Owned, after: Text): Op {
    if w.call == call && w.op == j && op.Edit? then op.(newStr := Put(op.newStr, SeatPiece(w, after))) else op
  }

  lemma AlignedOpLast(op: Op, call: nat, j: nat, ws: seq<Owned>, w: Owned, after: Text)
    requires ws != [] && w == ws[|ws| - 1]
    ensures AlignedOp(PutOp(op, call, j, w, after), SeatsOf(ws[..|ws| - 1], call, j, after))
        == AlignedOp(op, SeatsOf(ws, call, j, after))
  {
    var pieces, before := SeatsOf(ws, call, j, after), SeatsOf(ws[..|ws| - 1], call, j, after);
    if w.call == call && w.op == j {
      assert pieces == before + [SeatPiece(w, after)];
      assert pieces[..|pieces| - 1] == before;
    } else {
      assert pieces == before;
    }
  }

  lemma AlignedLineAt(line: Outcome, call: nat, ws: seq<Owned>, after: Text, w: Owned, j: nat)
    requires line.Land? && j < |line.intent|
    ensures PutLine(line, call, w, after).intent[j] == PutOp(line.intent[j], call, j, w, after)
    ensures AlignedLine(line, call, ws, after).intent[j] == AlignedOp(line.intent[j], SeatsOf(ws, call, j, after))
  {
  }

  lemma AlignedLast(line: Outcome, call: nat, ws: seq<Owned>, w: Owned, after: Text)
    requires ws != [] && w == ws[|ws| - 1]
    ensures AlignedLine(PutLine(line, call, w, after), call, ws[..|ws| - 1], after)
        == AlignedLine(line, call, ws, after)
  {
    if line.Land? {
      var put, init := PutLine(line, call, w, after), ws[..|ws| - 1];
      var a, b := AlignedLine(put, call, init, after), AlignedLine(line, call, ws, after);
      forall j: nat | j < |line.intent| ensures a.intent[j] == b.intent[j] {
        AlignedLineAt(line, call, ws, after, w, j);
        AlignedLineAt(put, call, init, after, w, j);
        AlignedOpLast(line.intent[j], call, j, ws, w, after);
      }
      assert a.intent == b.intent;
    }
  }

  lemma NoPieces(line: Outcome, call: nat, ws: seq<Owned>, after: Text)
    requires forall j :: SeatsOf(ws, call, j, after) == []
    ensures AlignedLine(line, call, ws, after) == line
  {
    if line.Land? {
      var next := AlignedLine(line, call, ws, after);
      forall j | 0 <= j < |line.intent| ensures next.intent[j] == line.intent[j] {
        assert SeatsOf(ws, call, j, after) == [];
      }
      assert next.intent == line.intent;
    }
  }

  /** Region by region, or op by op: the same plan. */
  lemma {:induction false} AlignEachIs(planned: seq<Outcome>, ws: seq<Owned>, after: Text)
    ensures AlignEach(planned, ws, after) == AlignedAll(planned, ws, after)
    decreases |ws|
  {
    if ws == [] {
      forall c | 0 <= c < |planned| ensures AlignedLine(planned[c], c, ws, after) == planned[c] {
        NoPieces(planned[c], c, ws, after);
      }
      assert AlignedAll(planned, ws, after) == planned;
    } else {
      var w := ws[|ws| - 1];
      var next := Rewritten(planned, w.call, w.op, SeatPiece(w, after));
      AlignEachIs(next, ws[..|ws| - 1], after);
      forall c | 0 <= c < |planned|
        ensures AlignedLine(next[c], c, ws[..|ws| - 1], after) == AlignedLine(planned[c], c, ws, after) {
        AlignedLast(planned[c], c, ws, w, after);
        assert next[c] == PutLine(planned[c], c, w, after);
      }
    }
  }

  /** What `align_op` demands: pieces in order, on char boundaries of the `new_str`, each of whole characters. */
  predicate CanAlign(newStr: Text, pieces: seq<Piece>) {
    InOrder(pieces, |newStr|) && forall p :: p in pieces ==> PieceFits(newStr, p)
  }

  predicate PieceFits(newStr: Text, p: Piece) {
    && p.start <= |newStr| && p.end <= |newStr|
    && Utf8.Boundary(newStr, p.start) && Utf8.Boundary(newStr, p.end) && Lines.IsUtf8(p.with)
  }

  lemma InOrderGrows(pieces: seq<Piece>, k: nat, len: nat)
    requires k < |pieces| && InOrder(pieces[..k], len)
    requires EndOf(pieces[..k]) <= pieces[k].start <= pieces[k].end <= len
    ensures InOrder(pieces[..k + 1], len)
  {
    forall i | 0 <= i < k ensures pieces[i].end <= pieces[k].start {
      assert pieces[..k][i] == pieces[i];
      if i < k - 1 { assert pieces[..k][i].end <= pieces[..k][k - 1].start; }
    }
  }

  lemma JoinedGrows(t: Text, pieces: seq<Piece>, k: nat)
    requires k < |pieces| && EndOf(pieces[..k]) <= pieces[k].start <= |t|
    ensures Joined(t, pieces[..k + 1]) == Joined(t, pieces[..k]) + t[EndOf(pieces[..k])..pieces[k].start]
        + pieces[k].with
    ensures EndOf(pieces[..k + 1]) == pieces[k].end
  {
    assert pieces[..k + 1][..k] == pieces[..k];
  }

  lemma AlignGrows(newStr: Text, pieces: seq<Piece>, k: nat)
    requires k < |pieces| && CanAlign(newStr, pieces[..k]) && PieceFits(newStr, pieces[k])
    requires EndOf(pieces[..k]) <= pieces[k].start <= pieces[k].end <= |newStr|
    ensures CanAlign(newStr, pieces[..k + 1])
  {
    InOrderGrows(pieces, k, |newStr|);
    assert pieces[..k + 1] == pieces[..k] + [pieces[k]];
  }

  lemma CannotAlign(newStr: Text, pieces: seq<Piece>, k: nat)
    requires k < |pieces|
    requires pieces[k].start < EndOf(pieces[..k]) || !Fits(pieces[k], |newStr|) || !PieceFits(newStr, pieces[k])
    ensures !CanAlign(newStr, pieces)
  {
    assert pieces[k] in pieces;
    if k > 0 { assert pieces[..k][k - 1] == pieces[k - 1]; }
  }

  /** The loop over an op's replacements: every piece in its place, or nothing. */
  method PutPieces(newStr: Text, pieces: seq<Piece>) returns (r: Option<Text>)
    ensures r == if CanAlign(newStr, pieces) then Some(Patchwork(newStr, pieces)) else None
  {
    var out, at := [], 0;
    assert pieces[..0] == [];
    for k := 0 to |pieces|
      invariant CanAlign(newStr, pieces[..k]) && at == EndOf(pieces[..k]) <= |newStr|
      invariant out == Joined(newStr, pieces[..k])
    {
      var p := pieces[k];
      if p.start < at || p.end < p.start || p.end > |newStr| || !PieceFits(newStr, p) {
        CannotAlign(newStr, pieces, k);
        return None;
      }
      AlignGrows(newStr, pieces, k);
      JoinedGrows(newStr, pieces, k);
      out := out + newStr[at..p.start] + p.with;
      at := p.end;
    }
    assert pieces[..|pieces|] == pieces;
    PatchworkIsJoined(newStr, pieces);
    r := Some(out + newStr[at..]);
  }

  /** An op that names `prefix` and `suffix` beside its text as well, its pieces put in the whole. */
  function WidenedOp(op: Op, prefix: Text, suffix: Text, pieces: seq<Piece>): Op
    requires op.Edit?
  {
    op.(oldStr := prefix + op.oldStr + suffix, newStr := Patchwork(prefix + op.newStr + suffix, pieces))
  }

  predicate CanWiden(op: Op, prefix: Text, suffix: Text, pieces: seq<Piece>) {
    op.Edit? && Lines.IsUtf8(prefix) && Lines.IsUtf8(suffix) && CanAlign(prefix + op.newStr + suffix, pieces)
  }

  /** One op widened over the bytes beside its text, the tree's bytes in place of its pieces; or none
      where a cut falls inside a character. */
  method AlignOp(op: Op, prefix: Text, suffix: Text, pieces: seq<Piece>) returns (r: Option<Op>)
    ensures r == if CanWiden(op, prefix, suffix, pieces) then Some(WidenedOp(op, prefix, suffix, pieces)) else None
  {
    if !op.Edit? || !Lines.IsUtf8(prefix) || !Lines.IsUtf8(suffix) { return None; }
    var widened := PutPieces(prefix + op.newStr + suffix, pieces);
    match widened {
      case Some(newStr) => r := Some(op.(oldStr := prefix + op.oldStr + suffix, newStr := newStr));
      case None => r := None;
    }
  }

  lemma UnwidenedIs(op: Op, pieces: seq<Piece>)
    requires op.Edit?
    ensures CanWiden(op, [], [], pieces) <==> CanAlign(op.newStr, pieces)
    ensures WidenedOp(op, [], [], pieces) == AlignedOp(op, pieces)
  {
    assert [] + op.newStr + [] == op.newStr && [] + op.oldStr + [] == op.oldStr;
  }

  /** Pieces of a text that stands `lead` further on in a longer one. */
  function Along(pieces: seq<Piece>, lead: nat): (r: seq<Piece>)
    ensures |r| == |pieces|
  {
    seq(|pieces|, k requires 0 <= k < |pieces| =>
      Piece(pieces[k].start + lead, pieces[k].end + lead, pieces[k].with))
  }

  lemma {:induction false} PatchworkInside(a: Text, t: Text, b: Text, pieces: seq<Piece>)
    requires InOrder(pieces, |t|)
    ensures Patchwork(a + t + b, Along(pieces, |a|)) == a + Patchwork(t, pieces) + b
    decreases |pieces|
  {
    if pieces != [] {
      var n := |pieces| - 1;
      var p, moved := pieces[n], Along(pieces, |a|);
      InOrderInit(pieces, |t|);
      assert Fits(p, |t|);
      assert (a + t + b)[..moved[n].start] == a + t[..p.start] && (a + t + b)[moved[n].end..] == t[p.end..] + b;
      assert Put(a + t + b, moved[n]) == a + Put(t, p) + b;
      assert moved[..n] == Along(pieces[..n], |a|);
      InOrderLonger(pieces[..n], p.start, |Put(t, p)|);
      PatchworkInside(a, Put(t, p), b, pieces[..n]);
    }
  }

  lemma InOrderLonger(pieces: seq<Piece>, len: nat, longer: nat)
    requires InOrder(pieces, len) && len <= longer
    ensures InOrder(pieces, longer)
  {
  }

  /** The bytes on either side of an occurrence at `x`. */
  predicate Beside(t: Text, oldStr: Text, x: nat, prefix: Text, suffix: Text) {
    && |prefix| <= x && x + |oldStr| + |suffix| <= |t|
    && t[x - |prefix|..x] == prefix && t[x + |oldStr|..x + |oldStr| + |suffix|] == suffix
  }

  lemma WidenedIsUnique(t: Text, oldStr: Text, x: nat, prefix: Text, suffix: Text)
    requires UniqueAt(t, oldStr, x) && Beside(t, oldStr, x, prefix, suffix)
    ensures UniqueAt(t, prefix + oldStr + suffix, x - |prefix|)
  {
    var wide := prefix + oldStr + suffix;
    assert t[x - |prefix|..x + |oldStr| + |suffix|] == wide by {
      assert t[x - |prefix|..x + |oldStr| + |suffix|]
          == t[x - |prefix|..x] + t[x..x + |oldStr|] + t[x + |oldStr|..x + |oldStr| + |suffix|];
    }
    forall j | OccursAt(t, wide, j) ensures j == x - |prefix| {
      assert wide[|prefix|..|prefix| + |oldStr|] == oldStr;
      assert t[j + |prefix|..j + |prefix| + |oldStr|] == t[j..j + |wide|][|prefix|..|prefix| + |oldStr|];
      assert OccursAt(t, oldStr, j + |prefix|);
    }
  }

  lemma SplicedBeside(t: Text, oldStr: Text, newStr: Text, x: nat, prefix: Text, suffix: Text)
    requires x + |oldStr| <= |t| && Beside(t, oldStr, x, prefix, suffix)
    ensures Splice(t, x, |oldStr|, newStr)
         == t[..x - |prefix|] + (prefix + newStr + suffix) + t[x + |oldStr| + |suffix|..]
  {
    assert t[..x] == t[..x - |prefix|] + prefix;
    assert t[x + |oldStr|..] == suffix + t[x + |oldStr| + |suffix|..];
  }

  lemma WideSplice(t: Text, oldStr: Text, x: nat, prefix: Text, suffix: Text, with: Text)
    requires x + |oldStr| <= |t| && Beside(t, oldStr, x, prefix, suffix)
    ensures Splice(t, x - |prefix|, |prefix + oldStr + suffix|, with)
         == t[..x - |prefix|] + with + t[x + |oldStr| + |suffix|..]
  {
  }

  /** A text and the same with pieces of its middle replaced. */
  lemma PatchedInside(a: Text, m: Text, b: Text, pieces: seq<Piece>, lead: nat, whole: Text)
    requires InOrder(pieces, |m|) && lead == |a| && whole == a + m + b
    ensures Patchwork(whole, Along(pieces, lead)) == a + Patchwork(m, pieces) + b
  {
    PatchworkInside(a, m, b, pieces);
  }

  /** Widening over untouched bytes is safe: where an op's text is unique and the bytes named stand
      beside it, the widened text is unique too, and replacing it lands what the op landed with each
      piece in its place. */
  lemma WidenedLands(op: Op, prefix: Text, suffix: Text, pieces: seq<Piece>, t: Text, x: nat)
    requires op.Edit? && UniqueAt(t, op.oldStr, x) && Beside(t, op.oldStr, x, prefix, suffix)
    requires CanWiden(op, prefix, suffix, pieces)
    ensures var w, from := WidenedOp(op, prefix, suffix, pieces), x - |prefix|;
            && UniqueAt(t, w.oldStr, from)
            && Splice(t, from, |w.oldStr|, w.newStr)
               == Patchwork(Splice(t, x, |op.oldStr|, op.newStr), Along(pieces, from))
  {
    var from, to, middle := x - |prefix|, x + |op.oldStr| + |suffix|, prefix + op.newStr + suffix;
    WidenedIsUnique(t, op.oldStr, x, prefix, suffix);
    WideSplice(t, op.oldStr, x, prefix, suffix, Patchwork(middle, pieces));
    SplicedBeside(t, op.oldStr, op.newStr, x, prefix, suffix);
    PatchedInside(t[..from], middle, t[to..], pieces, from, Splice(t, x, |op.oldStr|, op.newStr));
  }

  /** Two regions of one op's bytes, one past the other: so are their pieces of its `new_str`. */
  lemma HeldInOrder(v: Owned, w: Owned, o: Provenance, after: Text)
    requires Held(v, o) && Held(w, o) && Programs.Tight(o) && v.hunk.oldEnd <= w.hunk.oldStart
    requires v.call == w.call && v.op == w.op
    ensures SeatPiece(v, after).end <= SeatPiece(w, after).start
  {
    var x: nat := if v.hunk.oldStart == v.hunk.oldEnd then v.hunk.oldStart - 1 else v.hunk.oldEnd - 1;
    var y: nat := if w.hunk.oldStart == w.hunk.oldEnd then w.hunk.oldStart - 1 else w.hunk.oldStart;
    assert o[x] == Wrote(v.call, v.op, SeatPiece(v, after).end - 1);
    assert o[y] == Wrote(w.call, w.op, if w.hunk.oldStart == w.hunk.oldEnd then w.seat - 1 else w.seat);
  }

  lemma SeatFrom(ws: seq<Owned>, call: nat, op: nat, after: Text, i: nat) returns (k: nat)
    requires i < |SeatsOf(ws, call, op, after)|
    ensures k < |ws| && ws[k].call == call && ws[k].op == op
    ensures SeatsOf(ws, call, op, after)[i] == SeatPiece(ws[k], after)
  {
    var init := ws[..|ws| - 1];
    if i < |SeatsOf(init, call, op, after)| {
      k := SeatFrom(init, call, op, after, i);
    } else {
      k := |ws| - 1;
    }
  }

  ghost predicate HeldInTurn(ws: seq<Owned>, o: Provenance) {
    && (forall k :: 0 <= k < |ws| ==> Held(ws[k], o))
    && forall k, l :: 0 <= k < l < |ws| ==> ws[k].hunk.oldEnd <= ws[l].hunk.oldStart
  }

  lemma LastSeatAfter(ws: seq<Owned>, o: Provenance, call: nat, op: nat, after: Text, i: nat)
    requires HeldInTurn(ws, o) && Programs.Tight(o) && ws != []
    requires ws[|ws| - 1].call == call && ws[|ws| - 1].op == op && i < |SeatsOf(ws[..|ws| - 1], call, op, after)|
    ensures SeatsOf(ws[..|ws| - 1], call, op, after)[i].end <= SeatPiece(ws[|ws| - 1], after).start
  {
    var k := SeatFrom(ws[..|ws| - 1], call, op, after, i);
    HeldInOrder(ws[k], ws[|ws| - 1], o, after);
  }

  /** The pieces of one op ascend as its regions do: sorting them would change nothing. */
  lemma {:induction false} SeatsInOrder(ws: seq<Owned>, o: Provenance, call: nat, op: nat, after: Text)
    requires HeldInTurn(ws, o) && Programs.Tight(o)
    ensures forall i, j :: 0 <= i < j < |SeatsOf(ws, call, op, after)| ==>
              SeatsOf(ws, call, op, after)[i].end <= SeatsOf(ws, call, op, after)[j].start
  {
    if ws != [] {
      var init, w := ws[..|ws| - 1], ws[|ws| - 1];
      SeatsInOrder(init, o, call, op, after);
      if w.call == call && w.op == op {
        forall i: nat | i < |SeatsOf(init, call, op, after)|
          ensures SeatsOf(init, call, op, after)[i].end <= SeatPiece(w, after).start
        {
          LastSeatAfter(ws, o, call, op, after, i);
        }
      }
    }
  }

  /** Whether an op takes the tree's bytes: all of its regions, or none. */
  predicate OpAligns(planned: seq<Outcome>, ws: seq<Owned>, after: Text, call: nat, op: nat) {
    && call < |planned| && planned[call].Land? && op < |planned[call].intent| && planned[call].intent[op].Edit?
    && CanAlign(planned[call].intent[op].newStr, SeatsOf(ws, call, op, after))
  }

  /** The owners whose op aligns. */
  function Aligning(planned: seq<Outcome>, ws: seq<Owned>, after: Text,
                    owners: seq<Option<Owned>>): (r: seq<Option<Owned>>)
    ensures |r| == |owners|
  {
    seq(|owners|, k requires 0 <= k < |owners| =>
      if owners[k].Some? && OpAligns(planned, ws, after, owners[k].value.call, owners[k].value.op) then owners[k]
        else None)
  }

  lemma {:induction false} AligningSeats(planned: seq<Outcome>, ws: seq<Owned>, after: Text, owners: seq<Option<Owned>>,
                                         call: nat, op: nat)
    ensures SeatsOf(OwnedOf(Aligning(planned, ws, after, owners)), call, op, after)
         == if OpAligns(planned, ws, after, call, op) then SeatsOf(OwnedOf(owners), call, op, after) else []
  {
    if owners != [] {
      var init, last := owners[..|owners| - 1], owners[|owners| - 1];
      var kept := Aligning(planned, ws, after, owners);
      AligningSeats(planned, ws, after, init, call, op);
      assert kept[..|kept| - 1] == Aligning(planned, ws, after, init);
      SeatsLast(OwnedOf(init), last, call, op, after);
      SeatsLast(OwnedOf(Aligning(planned, ws, after, init)), kept[|kept| - 1], call, op, after);
    }
  }

  lemma SeatsLast(ws: seq<Owned>, owner: Option<Owned>, call: nat, op: nat, after: Text)
    ensures SeatsOf(ws + (if owner.Some? then [owner.value] else []), call, op, after)
         == SeatsOf(ws, call, op, after)
            + if owner.Some? && owner.value.call == call
              && owner.value.op == op then [SeatPiece(owner.value, after)] else []
  {
    if owner.Some? { assert (ws + [owner.value])[..|ws|] == ws; } else { assert ws + [] == ws; }
  }

  /** The seats that own a region. */
  function SeatsIn(ws: seq<Owned>): set<(nat, nat)> {
    set w | w in ws :: (w.call, w.op)
  }

  lemma NoSeats(ws: seq<Owned>, call: nat, op: nat, after: Text)
    requires (call, op) !in SeatsIn(ws)
    ensures SeatsOf(ws, call, op, after) == []
  {
    if ws != [] {
      assert ws[|ws| - 1] in ws;
      forall w | w in ws[..|ws| - 1] ensures (w.call, w.op) in SeatsIn(ws) {}
      NoSeats(ws[..|ws| - 1], call, op, after);
    }
  }

  /** An op of the plan once the seats in `done` have been aligned, or have declined. */
  function OpDone(planned: seq<Outcome>, ws: seq<Owned>, after: Text, done: set<(nat, nat)>, call: nat, op: nat): Op
    requires call < |planned| && planned[call].Land? && op < |planned[call].intent|
  {
    if (call, op) in done && OpAligns(planned, ws, after, call, op)
    then AlignedOp(planned[call].intent[op], SeatsOf(ws, call, op, after)) else planned[call].intent[op]
  }

  function LineDone(planned: seq<Outcome>, ws: seq<Owned>, after: Text, done: set<(nat, nat)>, call: nat): Outcome
    requires call < |planned|
  {
    if planned[call].Land?
    then planned[call].(intent := seq(|planned[call].intent|, j requires 0 <= j < |planned[call].intent| =>
                                        OpDone(planned, ws, after, done, call, j)))
    else planned[call]
  }

  function PlanDone(planned: seq<Outcome>, ws: seq<Owned>, after: Text, done: set<(nat, nat)>): (r: seq<Outcome>)
    ensures |r| == |planned|
  {
    seq(|planned|, c requires 0 <= c < |planned| => LineDone(planned, ws, after, done, c))
  }

  lemma NoneDone(planned: seq<Outcome>, ws: seq<Owned>, after: Text)
    ensures PlanDone(planned, ws, after, {}) == planned
  {
    forall c | 0 <= c < |planned| ensures LineDone(planned, ws, after, {}, c) == planned[c] {
      if planned[c].Land? { assert LineDone(planned, ws, after, {}, c).intent == planned[c].intent; }
    }
  }

  lemma OneMoreDone(planned: seq<Outcome>, now: seq<Outcome>, ws: seq<Owned>, after: Text, done: set<(nat, nat)>,
                    call: nat, op: nat)
    requires (call, op) !in done && now == PlanDone(planned, ws, after, done)
    ensures PlanDone(planned, ws, after, done + {(call, op)})
         == if OpAligns(planned, ws, after, call, op)
            then now[call := now[call].(intent := now[call].intent[op :=
                   AlignedOp(planned[call].intent[op], SeatsOf(ws, call, op, after))])]
            else now
  {
    var next := PlanDone(planned, ws, after, done + {(call, op)});
    forall c: nat | c < |planned| && c != call ensures next[c] == now[c] {
      LineUnmoved(planned, ws, after, done, call, op, c);
    }
    if call < |planned| && planned[call].Land? {
      forall j: nat | j < |planned[call].intent| && j != op
        ensures OpDone(planned, ws, after, done + {(call, op)}, call, j) == OpDone(planned, ws, after, done, call, j) {}
      if OpAligns(planned, ws, after, call, op) {
        assert next[call].intent == now[call].intent[op :=
            AlignedOp(planned[call].intent[op], SeatsOf(ws, call, op, after))];
      } else {
        assert next[call].intent == now[call].intent;
      }
    }
  }

  lemma LineUnmoved(planned: seq<Outcome>, ws: seq<Owned>, after: Text, done: set<(nat, nat)>, call: nat, op: nat,
                    c: nat)
    requires c < |planned| && c != call
    ensures LineDone(planned, ws, after, done + {(call, op)}, c) == LineDone(planned, ws, after, done, c)
  {
    if planned[c].Land? {
      assert LineDone(planned, ws, after, done + {(call, op)}, c).intent
        == LineDone(planned, ws, after, done, c).intent;
    }
  }

  /** With every seat done, the plan is the one its aligning regions make. */
  lemma AllDone(planned: seq<Outcome>, after: Text, owners: seq<Option<Owned>>)
    ensures PlanDone(planned, OwnedOf(owners), after, SeatsIn(OwnedOf(owners)))
         == AlignedAll(planned, OwnedOf(Aligning(planned, OwnedOf(owners), after, owners)), after)
  {
    var ws := OwnedOf(owners);
    var kept := OwnedOf(Aligning(planned, ws, after, owners));
    forall c | 0 <= c < |planned|
      ensures LineDone(planned, ws, after, SeatsIn(ws), c) == AlignedLine(planned[c], c, kept, after) {
      if planned[c].Land? {
        forall j: nat | j < |planned[c].intent|
          ensures OpDone(planned, ws, after, SeatsIn(ws), c, j)
              == AlignedOp(planned[c].intent[j], SeatsOf(kept, c, j, after))
        {
          AligningSeats(planned, ws, after, owners, c, j);
          if (c, j) !in SeatsIn(ws) { NoSeats(ws, c, j, after); }
        }
        assert LineDone(planned, ws, after, SeatsIn(ws), c).intent == AlignedLine(planned[c], c, kept, after).intent;
      }
    }
  }

  /** Align every op that owns a region: each takes all of its pieces, or stands as written. */
  method AlignOps(planned: seq<Outcome>, ws: seq<Owned>, after: Text) returns (r: seq<Outcome>)
    ensures r == PlanDone(planned, ws, after, SeatsIn(ws))
  {
    r := planned;
    NoneDone(planned, ws, after);
    var done: set<(nat, nat)> := {};
    while SeatsIn(ws) - done != {}
      invariant done <= SeatsIn(ws) && r == PlanDone(planned, ws, after, done)
      decreases SeatsIn(ws) - done
    {
      var seat :| seat in SeatsIn(ws) - done;
      var (call, op) := seat;
      OneMoreDone(planned, r, ws, after, done, call, op);
      if call < |r| && r[call].Land? && op < |r[call].intent| && r[call].intent[op].Edit? {
        UnwidenedIs(r[call].intent[op], SeatsOf(ws, call, op, after));
        var aligned := AlignOp(r[call].intent[op], [], [], SeatsOf(ws, call, op, after));
        if aligned.Some? { r := r[call := r[call].(intent := r[call].intent[op := aligned.value])]; }
      }
      done := done + {seat};
    }
    forall x | x in SeatsIn(ws) ensures x in done { assert x !in SeatsIn(ws) - done; }
    assert done == SeatsIn(ws);
  }

  ///////////////////////////////////////////// the plan ////////////////////////////////////////////////

  /** The same lines with the same ops, but for the `new_str` of edits. */
  predicate SameLines(a: seq<Outcome>, b: seq<Outcome>) {
    |a| == |b| && forall c :: 0 <= c < |a| ==> SameLine(a[c], b[c])
  }

  predicate SameLine(a: Outcome, b: Outcome) {
    if a.Land? then b.Land? && b == a.(intent := b.intent) && SameButNewStr(a.intent, b.intent) else a == b
  }

  /** The aligned plan: each edit takes its pieces of the regions its path gives to the tree. */
  function AlignedPlan(planned: seq<Outcome>, tree: map<Path, Text>, owned: Overlays): (r: seq<Outcome>)
    ensures |r| == |planned|
  {
    seq(|planned|, c requires 0 <= c < |planned| => LineFor(planned[c], c, tree, owned))
  }

  function LineFor(line: Outcome, c: nat, tree: map<Path, Text>, owned: Overlays): Outcome {
    if line.Land?
    then line.(intent := seq(|line.intent|, j requires 0 <= j < |line.intent| =>
                               OpFor(line.intent[j], c, j, tree, owned)))
    else line
  }

  function OpFor(op: Op, c: nat, j: nat, tree: map<Path, Text>, owned: Overlays): Op {
    if op.Edit? && op.path in owned && op.path in tree
    then AlignedOp(op, SeatsOf(owned[op.path], c, j, tree[op.path])) else op
  }

  lemma AlignedIsSame(planned: seq<Outcome>, tree: map<Path, Text>, owned: Overlays)
    ensures SameLines(planned, AlignedPlan(planned, tree, owned))
  {
  }

  lemma NoneAligned(planned: seq<Outcome>, tree: map<Path, Text>)
    ensures AlignedPlan(planned, tree, map[]) == planned
  {
    forall c | 0 <= c < |planned| ensures LineFor(planned[c], c, tree, map[]) == planned[c] {
      if planned[c].Land? { assert LineFor(planned[c], c, tree, map[]).intent == planned[c].intent; }
    }
  }

  //////////////////////////////////////////// what is taken ////////////////////////////////////////////

  /** Which regions of which paths take the tree's bytes. */
  type Overlays = map<Path, seq<Owned>>

  /** The owner, if there is one, of each of a path's changed regions. */
  function OwnersIn(runs: seq<Run>, before: Text, after: Text, hunks: seq<Diff.Hunk>): (r: seq<Option<Owned>>)
    requires RunsInRange(runs) && AllInside(hunks, |before|, |after|)
    ensures |r| == |hunks|
  {
    seq(|hunks|, k requires 0 <= k < |hunks| => OwnerOf(runs, before, after, hunks[k]))
  }

  /** The regions whose op takes the tree's bytes. */
  function KeptIn(planned: seq<Outcome>, runs: seq<Run>, before: Text, after: Text, hunks: seq<Diff.Hunk>): seq<Owned> {
    if RunsInRange(runs) && AllInside(hunks, |before|, |after|) then
      var owners := OwnersIn(runs, before, after, hunks);
      OwnedOf(Aligning(planned, OwnedOf(owners), after, owners))
    else []
  }

  /** What a path gives to the tree after pass 1: nothing where no op wrote it, the tree lacks it or
      agrees, or either side is not text; else every region of the line diff that lies in one op's
      bytes, if that op can take all of its pieces. */
  function TakenAt(n: Pass, tree: map<Path, Text>, p: Path): Option<seq<Owned>> {
    if p !in n.tracks || p !in n.contents || p !in tree || n.tracks[p].runs == [] || n.contents[p] == tree[p] then None
    else
      match Lines.HunksBetween(n.contents[p], tree[p])
      case None => None
      case Some(hunks) => Some(KeptIn(n.planned, n.tracks[p].runs, n.contents[p], tree[p], hunks))
  }

  function TakenFrom(n: Pass, tree: map<Path, Text>, done: set<Path>): Overlays {
    map p | p in done && TakenAt(n, tree, p).Some? :: TakenAt(n, tree, p).value
  }

  /** All that pass 1's plan gives to the tree. */
  function TakenBy(n: Pass, tree: map<Path, Text>): Overlays {
    TakenFrom(n, tree, n.tracks.Keys)
  }

  /** `ws` are regions of the hunks given, each whole or narrowed to the bytes that differ. */
  ghost predicate Explains(before: Text, after: Text, hunks: seq<Diff.Hunk>, owners: seq<Option<Owned>>, ws: seq<Owned>)
  {
    && Diff.Ascending(hunks, |before|, |after|) && Diff.SpliceAll(before, after, hunks) == after
    && AllInside(hunks, |before|, |after|) && |owners| == |hunks| && ws == OwnedOf(owners)
    && forall k :: 0 <= k < |owners| && owners[k].Some? ==> Narrowed(before, after, hunks[k], owners[k].value.hunk)
  }

  /** `ws` are regions in which the two contents differ, and each is bytes of the op it names. */
  ghost predicate Explained(before: Text, after: Text, ws: seq<Owned>, o: Provenance) {
    && Lines.HunksBetween(before, after).Some? && AllHeld(ws, o, |after|)
    && exists owners :: Explains(before, after, Lines.HunksBetween(before, after).value, owners, ws)
  }

  /** Every region taken is one the tree changed, and lies in bytes that, by the program pass 1
      left, its op wrote. */
  ghost predicate OverlaysSound(s: State, tree: map<Path, Text>, owned: Overlays, prog: seq<Step>, start: State) {
    PosRun(prog, start).Some? &&
    forall p :: p in owned ==>
      p in s && p in tree && Explained(s[p].blob, tree[p], owned[p], Origins(prog, start, p))
  }

  /** A path's content with the tree's bytes in the regions named. */
  function OverlaidBlob(before: Text, after: Text, ws: seq<Owned>): Text {
    Patchwork(before, PiecesOf(HunksOf(ws), after))
  }

  /** The state with the tree's bytes in the regions named, and nothing else moved. */
  function Overlaid(s: State, tree: map<Path, Text>, owned: Overlays): State {
    map p | p in s ::
      if p in owned && p in tree then s[p].(blob := OverlaidBlob(s[p].blob, tree[p], owned[p])) else s[p]
  }

  /** Where every changed region of a path takes the tree's bytes, the path is the tree's. */
  lemma WholeOverlayIsTree(before: Text, after: Text, hunks: seq<Diff.Hunk>, owners: seq<Option<Owned>>, ws: seq<Owned>)
    requires Explains(before, after, hunks, owners, ws) && |ws| == |hunks|
    ensures OverlaidBlob(before, after, ws) == after
  {
    AllOwned(owners);
    forall k | 0 <= k < |hunks| ensures Narrowed(before, after, hunks[k], HunksOf(ws)[k]) { assert owners[k].Some?; }
    assert before[..|before|] + [] == before;
    NarrowedSame(before, after, |before|, [], hunks, HunksOf(ws));
    HunksGiveAfter(before, after, hunks);
  }

  lemma OverlaidOne(s: State, tree: map<Path, Text>, owned: Overlays, p: Path, ws: seq<Owned>)
    requires p in s && p in tree && p !in owned
    ensures p in Overlaid(s, tree, owned) && Overlaid(s, tree, owned)[p] == s[p]
    ensures WithBlob(Overlaid(s, tree, owned), p, OverlaidBlob(s[p].blob, tree[p], ws))
        == Overlaid(s, tree, owned[p := ws])
  {
  }

  /** The loop over a path's hunks. */
  method OwnersOf(runs: seq<Run>, before: Text, after: Text, hunks: seq<Diff.Hunk>) returns (owners: seq<Option<Owned>>)
    requires RunsInRange(runs) && AllInside(hunks, |before|, |after|)
    ensures owners == OwnersIn(runs, before, after, hunks)
  {
    owners := [];
    for k := 0 to |hunks|
      invariant |owners| == k && forall i :: 0 <= i < k ==> owners[i] == OwnerOf(runs, before, after, hunks[i])
    {
      owners := owners + [OwnerOf(runs, before, after, hunks[k])];
    }
  }

  lemma OwnersHold(runs: seq<Run>, o: Provenance, before: Text, after: Text, hunks: seq<Diff.Hunk>)
    requires RunsInRange(runs) && Sound(runs, o) && |o| == |before| && AllInside(hunks, |before|, |after|)
    ensures Owners(OwnersIn(runs, before, after, hunks), o, before, after, hunks)
  {
    var owners := OwnersIn(runs, before, after, hunks);
    forall k | 0 <= k < |owners| && owners[k].Some?
      ensures Held(owners[k].value, o) && Narrowed(before, after, hunks[k], owners[k].value.hunk)
    {
      OwnerIsHeld(runs, o, before, after, hunks[k]);
    }
  }

  lemma OwnersAllHeld(owners: seq<Option<Owned>>, o: Provenance, before: Text, after: Text, hunks: seq<Diff.Hunk>)
    requires Owners(owners, o, before, after, hunks) && |o| == |before| && Diff.Ascending(hunks, |before|, |after|)
    ensures AllHeld(OwnedOf(owners), o, |after|)
  {
    OwnedHeld(owners, o, before, after, hunks);
    OwnedAscend(owners, o, before, after, hunks);
    AscendingWithin(hunks, |before|, |after|);
    AscendingWider(HunksOf(OwnedOf(owners)), Diff.OldEnd(hunks), Diff.NewEnd(hunks), |before|, |after|);
  }

  lemma AligningOwners(planned: seq<Outcome>, ws: seq<Owned>, owners: seq<Option<Owned>>, o: Provenance, before: Text,
                       after: Text, hunks: seq<Diff.Hunk>)
    requires Owners(owners, o, before, after, hunks)
    ensures Owners(Aligning(planned, ws, after, owners), o, before, after, hunks)
  {
  }

  /** Aligning one path: the plan the ops make is the one whose program takes the tree's bytes. */
  lemma PathTakesTree(prog: seq<Step>, start: State, planned: seq<Outcome>, p: Path, after: Text, hunks: seq<Diff.Hunk>,
                      owners: seq<Option<Owned>>) returns (prog': seq<Step>, kept: seq<Owned>)
    requires Planned(prog, start, planned) && p in PosRun(prog, start).value
    requires var before := PosRun(prog, start).value[p].blob;
             && Owners(owners, Origins(prog, start, p), before, after, hunks)
             && Lines.HunksBetween(before, after) == Some(hunks)
             && Diff.Ascending(hunks, |before|, |after|) && Diff.SpliceAll(before, after, hunks) == after
    ensures kept == OwnedOf(Aligning(planned, OwnedOf(owners), after, owners))
    ensures PlanDone(planned, OwnedOf(owners), after, SeatsIn(OwnedOf(owners))) == AlignedAll(planned, kept, after)
    ensures Planned(prog', start, AlignedAll(planned, kept, after)) && AlignedTo(prog, prog', start, p, kept, after)
    ensures Explained(PosRun(prog, start).value[p].blob, after, kept, Origins(prog, start, p))
  {
    var before, o, ws := PosRun(prog, start).value[p].blob, Origins(prog, start, p), OwnedOf(owners);
    var aligning := Aligning(planned, ws, after, owners);
    kept := OwnedOf(aligning);
    AligningOwners(planned, ws, owners, o, before, after, hunks);
    OwnersAllHeld(aligning, o, before, after, hunks);
    assert Explains(before, after, hunks, aligning, kept);
    prog' := PathAligned(prog, start, planned, p, kept, after);
    AlignEachIs(planned, kept, after);
    AllDone(planned, after, owners);
  }

  ////////////////////////////////////////// one path at a time /////////////////////////////////////////

  /** The seat names an edit of the path. */
  predicate SeatOn(planned: seq<Outcome>, call: nat, op: nat, p: Path) {
    LandsEdit(planned, call, op) && planned[call].intent[op].path == p
  }

  /** Whose bytes a region is: an edit of that path, in the plan the program is of. */
  lemma HeldIsSeated(prog: seq<Step>, start: State, planned: seq<Outcome>, p: Path, w: Owned)
    requires PosRun(prog, start).Some? && Erased(prog) == Flatten(planned) && Held(w, Origins(prog, start, p))
    ensures SeatOn(planned, w.call, w.op, p)
  {
    var x := if w.hunk.oldStart == w.hunk.oldEnd then w.hunk.oldStart - 1 else w.hunk.oldStart;
    Sessions.OwnerIsLanded(prog, start, planned, p, x);
  }

  ghost predicate AllSeated(planned: seq<Outcome>, ws: seq<Owned>, p: Path) {
    forall w :: w in ws ==> SeatOn(planned, w.call, w.op, p)
  }

  lemma {:induction false} NotSeated(planned: seq<Outcome>, ws: seq<Owned>, p: Path, call: nat, op: nat, after: Text)
    requires AllSeated(planned, ws, p) && !SeatOn(planned, call, op, p)
    ensures SeatsOf(ws, call, op, after) == []
  {
    if ws != [] {
      assert ws[|ws| - 1] in ws;
      NotSeated(planned, ws[..|ws| - 1], p, call, op, after);
    }
  }

  lemma SeatUnmoved(planned: seq<Outcome>, tree: map<Path, Text>, owned: Overlays, p: Path, ws: seq<Owned>, after: Text,
                    call: nat, op: nat)
    requires SeatOn(planned, call, op, p) && p !in owned
    ensures OpAligns(AlignedPlan(planned, tree, owned), ws, after, call, op) == OpAligns(planned, ws, after, call, op)
  {
    assert AlignedPlan(planned, tree, owned)[call] == LineFor(planned[call], call, tree, owned);
  }

  /** Aligning other paths leaves a path's decisions as they were. */
  lemma AligningUnmoved(planned: seq<Outcome>, tree: map<Path, Text>, owned: Overlays, p: Path, ws: seq<Owned>,
                        after: Text, owners: seq<Option<Owned>>)
    requires p !in owned
    requires forall k :: 0 <= k < |owners| && owners[k].Some? ==>
               SeatOn(planned, owners[k].value.call, owners[k].value.op, p)
    ensures Aligning(AlignedPlan(planned, tree, owned), ws, after, owners) == Aligning(planned, ws, after, owners)
  {
    var a, b := Aligning(AlignedPlan(planned, tree, owned), ws, after, owners), Aligning(planned, ws, after, owners);
    forall k | 0 <= k < |owners| ensures a[k] == b[k] {
      if owners[k].Some? {
        SeatUnmoved(planned, tree, owned, p, ws, after, owners[k].value.call, owners[k].value.op);
      }
    }
  }

  lemma OpAlignedNext(planned: seq<Outcome>, tree: map<Path, Text>, owned: Overlays, p: Path, kept: seq<Owned>, c: nat,
                      j: nat)
    requires p !in owned && p in tree && AllSeated(planned, kept, p)
    requires c < |planned| && planned[c].Land? && j < |planned[c].intent|
    ensures AlignedOp(OpFor(planned[c].intent[j], c, j, tree, owned), SeatsOf(kept, c, j, tree[p]))
         == OpFor(planned[c].intent[j], c, j, tree, owned[p := kept])
  {
    if !SeatOn(planned, c, j, p) { NotSeated(planned, kept, p, c, j, tree[p]); }
  }

  lemma LineAlignedNext(planned: seq<Outcome>, tree: map<Path, Text>, owned: Overlays, p: Path, kept: seq<Owned>,
                        c: nat)
    requires p !in owned && p in tree && AllSeated(planned, kept, p) && c < |planned|
    ensures AlignedLine(LineFor(planned[c], c, tree, owned), c, kept, tree[p])
         == LineFor(planned[c], c, tree, owned[p := kept])
  {
    if planned[c].Land? {
      var now := LineFor(planned[c], c, tree, owned);
      var a, b := AlignedLine(now, c, kept, tree[p]), LineFor(planned[c], c, tree, owned[p := kept]);
      forall j: nat | j < |planned[c].intent| ensures a.intent[j] == b.intent[j] {
        OpAlignedNext(planned, tree, owned, p, kept, c, j);
      }
      assert a.intent == b.intent;
    }
  }

  /** Aligning one path more. */
  lemma AlignedNext(planned: seq<Outcome>, tree: map<Path, Text>, owned: Overlays, p: Path, kept: seq<Owned>)
    requires p !in owned && p in tree && AllSeated(planned, kept, p)
    ensures AlignedAll(AlignedPlan(planned, tree, owned), kept, tree[p]) == AlignedPlan(planned, tree, owned[p := kept])
  {
    forall c | 0 <= c < |planned|
      ensures AlignedLine(AlignedPlan(planned, tree, owned)[c], c, kept, tree[p])
           == AlignedPlan(planned, tree, owned[p := kept])[c] {
      LineAlignedNext(planned, tree, owned, p, kept, c);
    }
  }

  lemma OwnersSeated(prog: seq<Step>, start: State, planned: seq<Outcome>, p: Path, owners: seq<Option<Owned>>,
                     before: Text, after: Text, hunks: seq<Diff.Hunk>)
    requires PosRun(prog, start).Some? && Erased(prog) == Flatten(planned)
    requires Owners(owners, Origins(prog, start, p), before, after, hunks)
    ensures forall k :: 0 <= k < |owners| && owners[k].Some? ==>
              SeatOn(planned, owners[k].value.call, owners[k].value.op, p)
  {
    forall k | 0 <= k < |owners| && owners[k].Some?
      ensures SeatOn(planned, owners[k].value.call, owners[k].value.op, p)
    {
      HeldIsSeated(prog, start, planned, p, owners[k].value);
    }
  }

  lemma KeptSeated(prog: seq<Step>, start: State, planned: seq<Outcome>, p: Path, ws: seq<Owned>, newLen: nat)
    requires PosRun(prog, start).Some? && Erased(prog) == Flatten(planned)
    requires AllHeld(ws, Origins(prog, start, p), newLen)
    ensures AllSeated(planned, ws, p)
  {
    forall k: nat | k < |ws| ensures SeatOn(planned, ws[k].call, ws[k].op, p) {
      HeldIsSeated(prog, start, planned, p, ws[k]);
    }
  }

  /** What pass 1 left: a plan that lands by offset, and tracks in step with it. */
  ghost predicate Passed(n: Pass, prog: seq<Step>, start: State, s: State) {
    Keyed(s) && InStep(n, prog, start, s, |n.planned|, 0) && Erased(prog) == Flatten(n.planned)
  }

  /** Where alignment stands: the paths in `todo` are still as pass 1 left them, the others have
      given the tree what they take. */
  ghost predicate Underway(n: Pass, prog0: seq<Step>, planned: seq<Outcome>, prog: seq<Step>, start: State, s: State,
                           tree: map<Path, Text>, todo: set<Path>)
  {
    && Passed(n, prog0, start, s) && todo <= n.tracks.Keys
    && Underlaid(n, prog0, planned, prog, start, s, tree, TakenFrom(n, tree, n.tracks.Keys - todo))
    && forall p :: p in todo ==> Origins(prog, start, p) == Origins(prog0, start, p)
  }

  ghost predicate Underlaid(n: Pass, prog0: seq<Step>, planned: seq<Outcome>, prog: seq<Step>, start: State, s: State,
                            tree: map<Path, Text>, owned: Overlays)
  {
    && planned == AlignedPlan(n.planned, tree, owned)
    && Planned(prog, start, planned) && PosRun(prog, start) == Some(Overlaid(s, tree, owned))
    && OverlaysSound(s, tree, owned, prog0, start)
  }

  lemma StartsUnderway(n: Pass, prog: seq<Step>, start: State, s: State, tree: map<Path, Text>)
    requires Passed(n, prog, start, s)
    ensures Underway(n, prog, n.planned, prog, start, s, tree, n.tracks.Keys)
  {
    assert TakenFrom(n, tree, n.tracks.Keys - n.tracks.Keys) == map[];
    assert Overlaid(s, tree, map[]) == s;
    NoneAligned(n.planned, tree);
  }

  /** A path that gives nothing. */
  lemma PathSkipped(n: Pass, prog0: seq<Step>, planned: seq<Outcome>, prog: seq<Step>, start: State, s: State,
                    tree: map<Path, Text>, todo: set<Path>, p: Path)
    requires Underway(n, prog0, planned, prog, start, s, tree, todo) && p in todo && TakenAt(n, tree, p).None?
    ensures Underway(n, prog0, planned, prog, start, s, tree, todo - {p})
  {
    assert TakenFrom(n, tree, n.tracks.Keys - (todo - {p})) == TakenFrom(n, tree, n.tracks.Keys - todo);
  }

  /** What a path's track says of the program so far. */
  lemma PathReady(n: Pass, prog0: seq<Step>, planned: seq<Outcome>, prog: seq<Step>, start: State, s: State,
                  tree: map<Path, Text>, todo: set<Path>, p: Path)
    requires Underway(n, prog0, planned, prog, start, s, tree, todo) && p in todo
    ensures p in n.contents && RunsInRange(n.tracks[p].runs) && p in s && s[p].blob == n.contents[p]
    ensures PosRun(prog, start).Some? && p in PosRun(prog, start).value && PosRun(prog, start).value[p] == s[p]
    ensures Origins(prog, start, p) == Origins(prog0, start, p) && |Origins(prog, start, p)| == |n.contents[p]|
    ensures Sound(n.tracks[p].runs, Origins(prog, start, p))
  {
    var owned := TakenFrom(n, tree, n.tracks.Keys - todo);
    assert p !in owned;
    assert Overlaid(s, tree, owned)[p] == s[p];
  }

  lemma TakenMore(n: Pass, tree: map<Path, Text>, todo: set<Path>, p: Path, kept: seq<Owned>)
    requires p in todo && todo <= n.tracks.Keys && TakenAt(n, tree, p) == Some(kept)
    ensures p !in TakenFrom(n, tree, n.tracks.Keys - todo)
    ensures TakenFrom(n, tree, n.tracks.Keys - (todo - {p})) == TakenFrom(n, tree, n.tracks.Keys - todo)[p := kept]
  {
  }

  lemma OverlaysMore(s: State, tree: map<Path, Text>, owned: Overlays, prog: seq<Step>, start: State, p: Path,
                     kept: seq<Owned>)
    requires OverlaysSound(s, tree, owned, prog, start) && p in s && p in tree
    requires Explained(s[p].blob, tree[p], kept, Origins(prog, start, p))
    ensures OverlaysSound(s, tree, owned[p := kept], prog, start)
  {
  }

  /** The program of the plan with one more path aligned. */
  lemma UnderlaidMore(n: Pass, prog0: seq<Step>, planned: seq<Outcome>, prog: seq<Step>, start: State, s: State,
                      tree: map<Path, Text>, owned: Overlays, p: Path, planned': seq<Outcome>, prog': seq<Step>,
                      kept: seq<Owned>)
    requires Underlaid(n, prog0, planned, prog, start, s, tree, owned) && p !in owned && p in s && p in tree
    requires planned' == AlignedPlan(n.planned, tree, owned[p := kept])
    requires Planned(prog', start, planned') && AlignedTo(prog, prog', start, p, kept, tree[p])
    requires Explained(s[p].blob, tree[p], kept, Origins(prog0, start, p))
    ensures Underlaid(n, prog0, planned', prog', start, s, tree, owned[p := kept])
  {
    OverlaidOne(s, tree, owned, p, kept);
    OverlaysMore(s, tree, owned, prog0, start, p, kept);
  }

  /** A path that gives the tree what its ops can take. */
  lemma PathTaken(n: Pass, prog0: seq<Step>, planned: seq<Outcome>, prog: seq<Step>, start: State, s: State,
                  tree: map<Path, Text>, todo: set<Path>, p: Path, planned': seq<Outcome>, prog': seq<Step>,
                  kept: seq<Owned>)
    requires Underway(n, prog0, planned, prog, start, s, tree, todo) && p in todo && p in tree
    requires TakenAt(n, tree, p) == Some(kept) && p in s
    requires planned' == AlignedPlan(n.planned, tree, TakenFrom(n, tree, n.tracks.Keys - todo)[p := kept])
    requires Planned(prog', start, planned') && AlignedTo(prog, prog', start, p, kept, tree[p])
    requires Explained(s[p].blob, tree[p], kept, Origins(prog0, start, p))
    ensures Underway(n, prog0, planned', prog', start, s, tree, todo - {p})
  {
    TakenMore(n, tree, todo, p, kept);
    UnderlaidMore(n, prog0, planned, prog, start, s, tree, TakenFrom(n, tree, n.tracks.Keys - todo), p, planned', prog',
                  kept);
  }

  /** The path's share, computed from the plan as it stands, is its share of pass 1's plan. */
  lemma ShareIsTaken(n: Pass, prog0: seq<Step>, planned: seq<Outcome>, prog: seq<Step>, start: State, s: State,
                     tree: map<Path, Text>, todo: set<Path>, p: Path, hunks: seq<Diff.Hunk>)
    requires Underway(n, prog0, planned, prog, start, s, tree, todo) && p in todo && p in tree
    requires n.tracks[p].runs != [] && p in n.contents && n.contents[p] != tree[p]
    requires Lines.HunksBetween(n.contents[p], tree[p]) == Some(hunks)
    requires RunsInRange(n.tracks[p].runs) && AllInside(hunks, |n.contents[p]|, |tree[p]|)
    requires Owners(OwnersIn(n.tracks[p].runs, n.contents[p], tree[p], hunks), Origins(prog0, start, p), n.contents[p],
                    tree[p], hunks)
    ensures var owners := OwnersIn(n.tracks[p].runs, n.contents[p], tree[p], hunks);
            TakenAt(n, tree, p) == Some(OwnedOf(Aligning(planned, OwnedOf(owners), tree[p], owners)))
  {
    var owners := OwnersIn(n.tracks[p].runs, n.contents[p], tree[p], hunks);
    var owned := TakenFrom(n, tree, n.tracks.Keys - todo);
    assert p !in owned;
    OwnersSeated(prog0, start, n.planned, p, owners, n.contents[p], tree[p], hunks);
    AligningUnmoved(n.planned, tree, owned, p, OwnedOf(owners), tree[p], owners);
  }

  /** What one path's alignment leaves. */
  lemma PathAlignedOn(n: Pass, prog0: seq<Step>, planned: seq<Outcome>, prog: seq<Step>, start: State, s: State,
                      tree: map<Path, Text>, todo: set<Path>, p: Path, hunks: seq<Diff.Hunk>)
    returns (prog': seq<Step>)
    requires Underway(n, prog0, planned, prog, start, s, tree, todo) && p in todo && p in tree
    requires n.tracks[p].runs != [] && p in n.contents && n.contents[p] != tree[p]
    requires Lines.HunksBetween(n.contents[p], tree[p]) == Some(hunks)
    requires Diff.Ascending(hunks, |n.contents[p]|, |tree[p]|)
    requires Diff.SpliceAll(n.contents[p], tree[p], hunks) == tree[p]
    requires RunsInRange(n.tracks[p].runs) && AllInside(hunks, |n.contents[p]|, |tree[p]|)
    ensures var ws := OwnedOf(OwnersIn(n.tracks[p].runs, n.contents[p], tree[p], hunks));
            Underway(n, prog0, PlanDone(planned, ws, tree[p], SeatsIn(ws)), prog', start, s, tree, todo - {p})
  {
    PathReady(n, prog0, planned, prog, start, s, tree, todo, p);
    var owners := OwnersIn(n.tracks[p].runs, n.contents[p], tree[p], hunks);
    OwnersHold(n.tracks[p].runs, Origins(prog, start, p), n.contents[p], tree[p], hunks);
    ShareIsTaken(n, prog0, planned, prog, start, s, tree, todo, p, hunks);
    var kept;
    prog', kept := PathTakesTree(prog, start, planned, p, tree[p], hunks, owners);
    KeptSeated(prog0, start, n.planned, p, kept, |tree[p]|);
    AlignedNext(n.planned, tree, TakenFrom(n, tree, n.tracks.Keys - todo), p, kept);
    PathTaken(n, prog0, planned, prog, start, s, tree, todo, p, AlignedAll(planned, kept, tree[p]), prog', kept);
  }

  /** Align one path with the tree: find what changed, who owns it, and let each op take its share. */
  method AlignPath(session: Session, tree: map<Path, Text>, p: Path, ghost n: Pass, ghost prog0: seq<Step>,
                   ghost start: State, ghost s: State, ghost todo: set<Path>)
    requires session.tracks == n.tracks && session.contents == n.contents
    requires Underway(n, prog0, session.planned, session.prog, start, s, tree, todo) && p in todo
    modifies session`planned, session`prog
    ensures Underway(n, prog0, session.planned, session.prog, start, s, tree, todo - {p})
  {
    PathReady(n, prog0, session.planned, session.prog, start, s, tree, todo, p);
    var runs, before := session.tracks[p].runs, session.contents[p];
    if runs == [] || p !in tree || before == tree[p] {
      PathSkipped(n, prog0, session.planned, session.prog, start, s, tree, todo, p);
      return;
    }
    var hunks := Lines.ChangedRegions(before, tree[p]);
    if hunks.None? {
      PathSkipped(n, prog0, session.planned, session.prog, start, s, tree, todo, p);
      return;
    }
    AscendingWithin(hunks.value, |before|, |tree[p]|);
    var owners := OwnersOf(runs, before, tree[p], hunks.value);
    var aligned := AlignOps(session.planned, OwnedOf(owners), tree[p]);
    ghost var prog' := PathAlignedOn(n, prog0, session.planned, session.prog, start, s, tree, todo, p, hunks.value);
    session.planned, session.prog := aligned, prog';
  }

  /** Let each op take its share of what the tree changed: the plan becomes the aligned plan of what
      pass 1 left, and still lands by offset, now on the state with the tree's bytes in every region
      that was taken. */
  method Align(session: Session, tree: map<Path, Text>, ghost start: State, ghost s: State)
    requires session.Valid(start, s)
    modifies session`planned, session`prog
    ensures var n, owned := old(session.Notes()), TakenBy(old(session.Notes()), tree);
            && session.planned == AlignedPlan(n.planned, tree, owned)
            && Planned(session.prog, start, session.planned)
            && PosRun(session.prog, start) == Some(Overlaid(s, tree, owned))
            && OverlaysSound(s, tree, owned, old(session.prog), start)
  {
    ghost var n, prog0 := session.Notes(), session.prog;
    StartsUnderway(n, prog0, start, s, tree);
    var todo := session.tracks.Keys;
    while todo != {}
      invariant session.tracks == n.tracks && session.contents == n.contents
      invariant Underway(n, prog0, session.planned, session.prog, start, s, tree, todo)
      decreases todo
    {
      var p :| p in todo;
      AlignPath(session, tree, p, n, prog0, start, s, todo);
      todo := todo - {p};
    }
    assert n.tracks.Keys - {} == n.tracks.Keys;
  }
}
