/** Plans as positional programs (the proof behind `absorb` in src/claude.rs).

    A planned edit is located by searching for its `old_str`.  Here each op also carries
    the offset it had when it was planned.  Folding a later edit into an earlier op moves
    the offsets of the ops between and nothing else, so replay by offset always succeeds;
    and where replay by search succeeds too, it must have found those offsets. */
module Programs {
  import opened Wrappers
  import opened Spans
  import opened Patch
  import opened Tracks

  datatype Step = Step(call: nat, op: nat, act: Op, at: nat)

  /** One op of the plan, by seat. */
  datatype Seated = Seated(call: nat, op: nat, act: Op)

  function Content(op: Op): Text
    requires op.Create?
  {
    if op.inline.Some? then op.inline.value else if op.blob.Some? then op.blob.value else []
  }

  /** The state a step leaves when its op sits at its offset. */
  function Lands(st: Step, s: State): Option<State> {
    match st.act
    case Edit(p, oldStr, newStr) =>
      if p in s && oldStr != [] && OccursAt(s[p].blob, oldStr, st.at)
      then Some(s[p := s[p].(blob := Splice(s[p].blob, st.at, |oldStr|, newStr))]) else None
    case Create(p, mode, _, _) => if p !in s then Some(s[p := Record(mode, p, Content(st.act))]) else None
    case Delete(p, target) => if p in s && s[p].blob == target then Some(s - {p}) else None
    case Chmod(p, oldMode, newMode) =>
      if p in s && s[p].mode == oldMode then Some(s[p := s[p].(mode := newMode)]) else None
  }

  /** Replay by offset. */
  function PosRun(prog: seq<Step>, s: State): Option<State> {
    if prog == [] then Some(s)
    else
      var before := PosRun(prog[..|prog| - 1], s);
      if before.Some? then Lands(prog[|prog| - 1], before.value) else None
  }

  function Erased(prog: seq<Step>): seq<Seated> {
    seq(|prog|, i requires 0 <= i < |prog| => Seated(prog[i].call, prog[i].op, prog[i].act))
  }

  /** The offset at which an op's search succeeds. */
  function OffsetOf(op: Op, s: State): nat {
    if op.Edit? && op.path in s && FindUnique(s[op.path].blob, op.oldStr).Ok?
    then FindUnique(s[op.path].blob, op.oldStr).value else 0
  }

  /** An op that applies lands at the offset its search finds. */
  lemma AppliedLands(op: Op, s: State, known: set<Text>, call: nat, k: nat)
    requires Keyed(s) && ApplyOp(op, s, known).Ok?
    ensures Lands(Step(call, k, op, OffsetOf(op, s)), s) == Some(ApplyOp(op, s, known).value.state)
    ensures Keyed(ApplyOp(op, s, known).value.state)
  {}

  /** If an op lands at its offset and its search also succeeds, the two agree: the
      search can have found nothing else. */
  lemma SearchIsPinned(st: Step, s: State, known: set<Text>)
    requires Keyed(s) && Lands(st, s).Some? && ApplyOp(st.act, s, known).Ok?
    ensures ApplyOp(st.act, s, known).value.state == Lands(st, s).value
  {
    if st.act.Edit? {
      assert UniqueAt(s[st.act.path].blob, st.act.oldStr, OffsetOf(st.act, s));
    }
  }

  lemma PosRunAppend(a: seq<Step>, b: seq<Step>, s: State)
    ensures PosRun(a + b, s) == if PosRun(a, s).Some? then PosRun(b, PosRun(a, s).value) else None
  {
    if b == [] {
      assert a + b == a;
    } else {
      assert (a + b)[..|a + b| - 1] == a + b[..|b| - 1];
      PosRunAppend(a, b[..|b| - 1], s);
    }
  }

  ////////////////////////////////////////////// origins ////////////////////////////////////////////////

  function Bases(n: nat): (o: Provenance)
    ensures |o| == n && forall x :: 0 <= x < n ==> o[x].Base?
  {
    seq(n, i requires 0 <= i < n => Base(i))
  }

  function Len(s: State, p: Path): nat {
    if p in s then |s[p].blob| else 0
  }

  /** Who wrote each byte of path `p` after the program. */
  function Origins(prog: seq<Step>, s: State, p: Path): (o: Provenance)
    requires PosRun(prog, s).Some?
    ensures |o| == Len(PosRun(prog, s).value, p)
  {
    if prog == [] then Bases(Len(s, p))
    else
      OriginStep(Origins(prog[..|prog| - 1], s, p), prog[|prog| - 1], PosRun(prog[..|prog| - 1], s).value, p)
  }

  /** One step's effect on who wrote each byte of `p`. */
  function OriginStep(o: Provenance, st: Step, s: State, p: Path): (r: Provenance)
    requires |o| == Len(s, p) && Lands(st, s).Some?
    ensures |r| == Len(Lands(st, s).value, p)
  {
    if st.act.path != p then o
    else match st.act
      case Edit(_, oldStr, newStr) => EditOrigins(o, st.at, |oldStr|, |newStr|, st.call, st.op)
      case Create(_, _, _, _) => Bases(|Content(st.act)|)
      case Delete(_, _) => []
      case Chmod(_, _, _) => o
  }

  lemma RunLast(init: seq<Step>, st: Step, s: State, p: Path)
    ensures PosRun(init + [st], s) == if PosRun(init, s).Some? then Lands(st, PosRun(init, s).value) else None
    ensures PosRun(init + [st], s).Some? ==>
              Origins(init + [st], s, p) == OriginStep(Origins(init, s, p), st, PosRun(init, s).value, p)
  {
    assert (init + [st])[..|init + [st]| - 1] == init;
  }

  predicate SeatLess(call: nat, op: nat, call': nat, op': nat) {
    call < call' || (call == call' && op < op')
  }

  predicate Ascending(prog: seq<Step>) {
    forall i, j :: 0 <= i < j < |prog| ==> SeatLess(prog[i].call, prog[i].op, prog[j].call, prog[j].op)
  }

  predicate WroteBy(o: Origin, call: nat, op: nat) {
    o.Wrote? && o.call == call && o.op == op
  }

  /** Nothing was written by a seat the program does not reach on `p`. */
  lemma NotWritten(prog: seq<Step>, s: State, p: Path, call: nat, op: nat)
    requires PosRun(prog, s).Some?
    requires forall st :: st in prog ==> st.call != call || st.op != op || st.act.path != p
    ensures forall o :: o in Origins(prog, s, p) ==> !WroteBy(o, call, op)
  {
    if prog != [] {
      var st := prog[|prog| - 1];
      assert st in prog;
      NotWritten(prog[..|prog| - 1], s, p, call, op);
    }
  }

  /** Bytes of one op keep their order, and two that were neighbours in its `new_str` are
      neighbours still: an edit between them would have had to consume one. */
  predicate Tight(o: Provenance) {
    forall x, y :: 0 <= x < y < |o| && o[x].Wrote? && o[y].Wrote? && o[x].call == o[y].call && o[x].op == o[y].op
      ==> o[x].offset < o[y].offset && (o[y].offset == o[x].offset + 1 ==> y == x + 1)
  }

  lemma EditTight(o: Provenance, at: nat, oldLen: nat, newLen: nat, call: nat, op: nat)
    requires Tight(o) && oldLen > 0 && at + oldLen <= |o|
    requires forall e :: e in o ==> !WroteBy(e, call, op)
    ensures Tight(EditOrigins(o, at, oldLen, newLen, call, op))
  {
    var o' := EditOrigins(o, at, oldLen, newLen, call, op);
    forall x, y | 0 <= x < y < |o'| && o'[x].Wrote? && o'[y].Wrote? && o'[x].call == o'[y].call && o'[x].op == o'[y].op
      ensures o'[x].offset < o'[y].offset && (o'[y].offset == o'[x].offset + 1 ==> y == x + 1)
    {
      var x' := if x < at then x else x - newLen + oldLen;
      var y' := if y < at then y else y - newLen + oldLen;
      assert forall i :: 0 <= i < |o| ==> !WroteBy(o[i], call, op);
      if x < at || at + newLen <= x {
        assert y < at || at + newLen <= y;
        assert o'[x] == o[x'] && o'[y] == o[y'];
      }
    }
  }

  lemma OriginsTight(prog: seq<Step>, s: State, p: Path)
    requires PosRun(prog, s).Some? && Ascending(prog)
    ensures Tight(Origins(prog, s, p))
  {
    if prog != [] {
      var init, st := prog[..|prog| - 1], prog[|prog| - 1];
      OriginsTight(init, s, p);
      if st.act.Edit? && st.act.path == p {
        NotWritten(init, s, p, st.call, st.op);
        EditTight(Origins(init, s, p), st.at, |st.act.oldStr|, |st.act.newStr|, st.call, st.op);
      }
    }
  }

  //////////////////////////////////////////////// folding //////////////////////////////////////////////

  /** A later edit replacing `m` bytes at `pos` of path `p` with `with`, folded into the op
      (`call`, `op`) that wrote them at `[seat, seat + m)` of its `new_str`. */
  function Fold(prog: seq<Step>, p: Path, pos: nat, m: nat, with: Text, call: nat, op: nat, seat: nat): (r: seq<Step>)
    ensures |r| == |prog|
  {
    if prog == [] then []
    else
      var init, st := prog[..|prog| - 1], prog[|prog| - 1];
      if !st.act.Edit? || st.act.path != p then Fold(init, p, pos, m, with, call, op, seat) + [st]
      else if st.call == call && st.op == op then
        if seat + m <= |st.act.newStr|
        then init + [st.(act := Edit(p, st.act.oldStr, Splice(st.act.newStr, seat, m, with)))] else prog
      else if pos + m <= st.at then
        Fold(init, p, pos, m, with, call, op, seat) + [st.(at := st.at - m + |with|)]
      else if |st.act.newStr| <= pos + |st.act.oldStr| then
        Fold(init, p, pos - |st.act.newStr| + |st.act.oldStr|, m, with, call, op, seat) + [st]
      else prog
  }

  /** `[pos, pos + m)` of `p` is `[seat, seat + m)` of the op's `new_str`, untouched since. */
  predicate Region(o: Provenance, pos: int, m: nat, call: nat, op: nat, seat: nat) {
    && m > 0 && 0 <= pos && pos + m <= |o|
    && forall x :: pos <= x < pos + m ==> o[x] == Wrote(call, op, seat + (x - pos))
  }

  /** The state with `m` bytes at `pos` of `p` replaced. */
  function Patched(s: State, p: Path, pos: nat, m: nat, with: Text): State
    requires p in s && pos + m <= |s[p].blob|
  {
    s[p := s[p].(blob := Splice(s[p].blob, pos, m, with))]
  }

  lemma SpliceInner(c: Text, at: nat, oldLen: nat, newStr: Text, seat: nat, m: nat, with: Text)
    requires at + oldLen <= |c| && seat + m <= |newStr|
    ensures Splice(c, at, oldLen, Splice(newStr, seat, m, with))
         == Splice(Splice(c, at, oldLen, newStr), at + seat, m, with)
  {}

  /** Two disjoint splices commute, the later one shifting. */
  lemma SpliceCommute(c: Text, a: nat, la: nat, wa: Text, b: nat, lb: nat, wb: Text)
    requires a + la <= b && b + lb <= |c|
    ensures Splice(Splice(c, b, lb, wb), a, la, wa) == Splice(Splice(c, a, la, wa), b - la + |wa|, lb, wb)
    ensures Splice(c, b, lb, wb)[a..a + la] == c[a..a + la]
    ensures Splice(c, a, la, wa)[b - la + |wa|..b - la + |wa| + lb] == c[b..b + lb]
  {
    var l, r := Splice(Splice(c, b, lb, wb), a, la, wa), Splice(Splice(c, a, la, wa), b - la + |wa|, lb, wb);
    assert l == c[..a] + wa + c[a + la..b] + wb + c[b + lb..];
    assert r == c[..a] + wa + c[a + la..b] + wb + c[b + lb..];
  }

  lemma OriginInner(o: Provenance, at: nat, oldLen: nat, newLen: nat, m: nat, w: nat, call: nat, op: nat, seat: nat)
    requires at + oldLen <= |o| && seat + m <= newLen
    requires forall x :: 0 <= x < |o| ==> !WroteBy(o[x], call, op)
    ensures EditOrigins(o, at, oldLen, newLen - m + w, call, op)
         == RewriteOrigins(EditOrigins(o, at, oldLen, newLen, call, op), at + seat, m, w, call, op, seat)
  {}

  lemma OriginBefore(o: Provenance, at: nat, oldLen: nat, newLen: nat, call': nat, op': nat,
                     pos: nat, m: nat, w: nat, call: nat, op: nat, seat: nat)
    requires pos + m <= at && at + oldLen <= |o| && !(call == call' && op == op')
    ensures EditOrigins(RewriteOrigins(o, pos, m, w, call, op, seat), at - m + w, oldLen, newLen, call', op')
         == RewriteOrigins(EditOrigins(o, at, oldLen, newLen, call', op'), pos, m, w, call, op, seat)
  {}

  lemma OriginAfter(o: Provenance, at: nat, oldLen: nat, newLen: nat, call': nat, op': nat,
                    pos: nat, m: nat, w: nat, call: nat, op: nat, seat: nat)
    requires at + oldLen <= pos && pos + m <= |o| && !(call == call' && op == op')
    ensures EditOrigins(RewriteOrigins(o, pos, m, w, call, op, seat), at, oldLen, newLen, call', op')
         == RewriteOrigins(EditOrigins(o, at, oldLen, newLen, call', op'), pos - oldLen + newLen, m, w, call, op, seat)
  {}

  /** The owner's bytes hold the region, at the offset the region names. */
  lemma OwnerHolds(o: Provenance, at: nat, oldLen: nat, newLen: nat, pos: nat, m: nat, call: nat, op: nat, seat: nat)
    requires at + oldLen <= |o|
    requires forall x :: 0 <= x < |o| ==> !WroteBy(o[x], call, op)
    requires Region(EditOrigins(o, at, oldLen, newLen, call, op), pos, m, call, op, seat)
    ensures pos == at + seat && seat + m <= newLen
  {
    var o' := EditOrigins(o, at, oldLen, newLen, call, op);
    assert o'[pos] == Wrote(call, op, seat) && o'[pos + m - 1] == Wrote(call, op, seat + m - 1);
  }

  /** An edit on `p` past the replaced bytes lands as before, moved. */
  lemma LandsAfterSplice(st: Step, s: State, p: Path, pos: nat, m: nat, with: Text)
    requires p in s && st.act.Edit? && st.act.path == p && Lands(st, s).Some? && pos + m <= st.at
    ensures pos + m <= |Lands(st, s).value[p].blob|
    ensures Lands(st.(at := st.at - m + |with|), Patched(s, p, pos, m, with))
         == Some(Patched(Lands(st, s).value, p, pos, m, with))
  {
    SpliceCommute(s[p].blob, pos, m, with, st.at, |st.act.oldStr|, st.act.newStr);
    assert Lands(st.(at := st.at - m + |with|), Patched(s, p, pos, m, with)).value
        == Patched(Lands(st, s).value, p, pos, m, with);
  }

  /** An edit on `p` before the replaced bytes lands where it did. */
  lemma LandsBeforeSplice(st: Step, s: State, p: Path, pos: nat, m: nat, with: Text)
    requires p in s && st.act.Edit? && st.act.path == p && Lands(st, s).Some?
    requires pos >= st.at + |st.act.oldStr| && pos + m <= |s[p].blob|
    ensures var pos' := pos - |st.act.oldStr| + |st.act.newStr|;
            && pos' + m <= |Lands(st, s).value[p].blob|
            && Lands(st, Patched(s, p, pos, m, with)) == Some(Patched(Lands(st, s).value, p, pos', m, with))
  {
    SpliceCommute(s[p].blob, st.at, |st.act.oldStr|, st.act.newStr, pos, m, with);
    assert Lands(st, Patched(s, p, pos, m, with)).value
        == Patched(Lands(st, s).value, p, pos - |st.act.oldStr| + |st.act.newStr|, m, with);
  }

  /** The owner's own edit, its `new_str` spliced, leaves its content spliced. */
  lemma LandsSpliced(st: Step, s: State, p: Path, seat: nat, m: nat, with: Text)
    requires p in s && st.act.Edit? && st.act.path == p && Lands(st, s).Some? && seat + m <= |st.act.newStr|
    ensures st.at + seat + m <= |Lands(st, s).value[p].blob|
    ensures Lands(st.(act := Edit(p, st.act.oldStr, Splice(st.act.newStr, seat, m, with))), s)
         == Some(Patched(Lands(st, s).value, p, st.at + seat, m, with))
  {
    SpliceInner(s[p].blob, st.at, |st.act.oldStr|, st.act.newStr, seat, m, with);
    assert Lands(st.(act := Edit(p, st.act.oldStr, Splice(st.act.newStr, seat, m, with))), s).value
        == Patched(Lands(st, s).value, p, st.at + seat, m, with);
  }

  lemma NotStraddled(o: Provenance, at: nat, oldLen: nat, newLen: nat, call': nat, op': nat,
                     pos: nat, m: nat, call: nat, op: nat, seat: nat)
    requires Tight(o) && oldLen > 0 && at + oldLen <= |o| && !(call == call' && op == op')
    requires Region(EditOrigins(o, at, oldLen, newLen, call', op'), pos, m, call, op, seat)
    ensures !(pos < at < pos + m)
  {
    var o' := EditOrigins(o, at, oldLen, newLen, call', op');
    assert forall x :: pos <= x < pos + m ==> o'[x] == Wrote(call, op, seat + (x - pos));
    assert at < |o'| && 0 < at ==> (newLen > 0 && o'[at] == Wrote(call', op', 0))
                                   || (o'[at - 1] == o[at - 1] && o'[at] == o[at + oldLen]);
  }

  /** The region lay wholly to one side of a later edit, and held then what it holds now. */
  lemma RegionSurvived(o: Provenance, at: nat, oldLen: nat, newLen: nat, call': nat, op': nat,
                       pos: nat, m: nat, call: nat, op: nat, seat: nat) returns (pos0: nat)
    requires Tight(o) && oldLen > 0 && at + oldLen <= |o| && !(call == call' && op == op')
    requires Region(EditOrigins(o, at, oldLen, newLen, call', op'), pos, m, call, op, seat)
    ensures pos + m <= at || at + newLen <= pos
    ensures pos0 == if pos + m <= at then pos else pos - newLen + oldLen
    ensures Region(o, pos0, m, call, op, seat)
  {
    var o' := EditOrigins(o, at, oldLen, newLen, call', op');
    assert o'[pos] == Wrote(call, op, seat);
    NotStraddled(o, at, oldLen, newLen, call', op', pos, m, call, op, seat);
    pos0 := if pos + m <= at then pos else pos - newLen + oldLen;
    forall x | pos0 <= x < pos0 + m ensures o[x] == Wrote(call, op, seat + (x - pos0)) {
      assert o[x] == o'[x - pos0 + pos];
    }
  }

  /** One path one splice later: its content spliced, its origins moved with the bytes. */
  predicate Moved(t: State, o: Provenance, t': State, o': Provenance, p: Path, pos: nat, m: nat, with: Text,
                  call: nat, op: nat, seat: nat)
  {
    && p in t && |o| == |t[p].blob| && m > 0 && pos + m <= |o|
    && t' == Patched(t, p, pos, m, with)
    && o' == RewriteOrigins(o, pos, m, |with|, call, op, seat)
  }

  /** The owner's edit with its `new_str` spliced, as far as who wrote what goes. */
  lemma OwnerOrigins(st: Step, st': Step, t: State, o: Provenance, p: Path, m: nat, with: Text, seat: nat)
    requires |o| == Len(t, p) && Lands(st, t).Some? && Lands(st', t).Some?
    requires st.act.Edit? && st.act.path == p && seat + m <= |st.act.newStr|
    requires forall x :: 0 <= x < |o| ==> !WroteBy(o[x], st.call, st.op)
    requires st' == st.(act := Edit(p, st.act.oldStr, Splice(st.act.newStr, seat, m, with)))
    ensures st.at + seat + m <= |OriginStep(o, st, t, p)|
    ensures OriginStep(o, st', t, p)
         == RewriteOrigins(OriginStep(o, st, t, p), st.at + seat, m, |with|, st.call, st.op, seat)
  {
    OriginInner(o, st.at, |st.act.oldStr|, |st.act.newStr|, m, |with|, st.call, st.op, seat);
  }

  /** The owner's edit with its `new_str` spliced: content and origins, one splice later. */
  lemma OwnerMoved(st: Step, st': Step, t: State, o: Provenance, p: Path, m: nat, with: Text, seat: nat)
    requires p in t && |o| == |t[p].blob| && Lands(st, t).Some? && m > 0
    requires st.act.Edit? && st.act.path == p && seat + m <= |st.act.newStr|
    requires forall x :: 0 <= x < |o| ==> !WroteBy(o[x], st.call, st.op)
    requires st' == st.(act := Edit(p, st.act.oldStr, Splice(st.act.newStr, seat, m, with)))
    ensures Lands(st', t).Some?
    ensures Moved(Lands(st, t).value, OriginStep(o, st, t, p), Lands(st', t).value, OriginStep(o, st', t, p),
                  p, st.at + seat, m, with, st.call, st.op, seat)
  {
    LandsSpliced(st, t, p, seat, m, with);
    OwnerOrigins(st, st', t, o, p, m, with, seat);
  }

  lemma StepAfterRegion(st: Step, t: State, o: Provenance, t': State, o': Provenance,
                        p: Path, pos: nat, m: nat, with: Text, call: nat, op: nat, seat: nat)
    requires Moved(t, o, t', o', p, pos, m, with, call, op, seat) && Lands(st, t).Some?
    requires st.act.Edit? && st.act.path == p && !(st.call == call && st.op == op) && pos + m <= st.at
    ensures var st' := st.(at := st.at - m + |with|);
            Lands(st', t').Some?
            && Moved(Lands(st, t).value, OriginStep(o, st, t, p), Lands(st', t').value, OriginStep(o', st', t', p),
                     p, pos, m, with, call, op, seat)
  {
    LandsAfterSplice(st, t, p, pos, m, with);
    OriginBefore(o, st.at, |st.act.oldStr|, |st.act.newStr|, st.call, st.op, pos, m, |with|, call, op, seat);
  }

  lemma StepBeforeRegion(st: Step, t: State, o: Provenance, t': State, o': Provenance,
                         p: Path, pos: nat, pos0: nat, m: nat, with: Text, call: nat, op: nat, seat: nat)
    requires Moved(t, o, t', o', p, pos0, m, with, call, op, seat) && Lands(st, t).Some?
    requires st.act.Edit? && st.act.path == p && !(st.call == call && st.op == op)
    requires pos0 >= st.at + |st.act.oldStr| && pos == pos0 - |st.act.oldStr| + |st.act.newStr|
    ensures Lands(st, t').Some?
            && Moved(Lands(st, t).value, OriginStep(o, st, t, p), Lands(st, t').value, OriginStep(o', st, t', p),
                     p, pos, m, with, call, op, seat)
  {
    LandsBeforeSplice(st, t, p, pos0, m, with);
    OriginAfter(o, st.at, |st.act.oldStr|, |st.act.newStr|, st.call, st.op, pos0, m, |with|, call, op, seat);
  }

  /** A step that is not an edit of `p` but leaves `p` written: another path, or a mode. */
  lemma StepBeside(st: Step, t: State, o: Provenance, t': State, o': Provenance,
                   p: Path, pos: nat, m: nat, with: Text, call: nat, op: nat, seat: nat)
    requires Moved(t, o, t', o', p, pos, m, with, call, op, seat) && Lands(st, t).Some?
    requires st.act.path != p || st.act.Chmod?
    ensures Lands(st, t').Some?
            && Moved(Lands(st, t).value, OriginStep(o, st, t, p), Lands(st, t').value, OriginStep(o', st, t', p),
                     p, pos, m, with, call, op, seat)
  {
    assert Lands(st, Patched(t, p, pos, m, with)).value == Patched(Lands(st, t).value, p, pos, m, with);
  }

  /** No seat before the last writes what the last one does. */
  lemma LastSeatUnwritten(init: seq<Step>, st: Step, s: State, p: Path)
    requires PosRun(init, s).Some? && Ascending(init + [st])
    ensures forall x :: 0 <= x < |Origins(init, s, p)| ==> !WroteBy(Origins(init, s, p)[x], st.call, st.op)
  {
    var prog := init + [st];
    forall e | e in init ensures e.call != st.call || e.op != st.op {
      var i :| 0 <= i < |init| && init[i] == e;
      assert SeatLess(prog[i].call, prog[i].op, prog[|prog| - 1].call, prog[|prog| - 1].op);
    }
    NotWritten(init, s, p, st.call, st.op);
  }

  ghost predicate FoldGoal(prog: seq<Step>, s: State, p: Path, pos: nat, m: nat, with: Text, call: nat, op: nat,
                           seat: nat)
  {
    var prog' := Fold(prog, p, pos, m, with, call, op, seat);
    && PosRun(prog, s).Some? && PosRun(prog', s).Some?
    && Moved(PosRun(prog, s).value, Origins(prog, s, p), PosRun(prog', s).value, Origins(prog', s, p),
             p, pos, m, with, call, op, seat)
  }

  /** How a fold treats the last step, case by case. */
  lemma FoldLastAfter(init: seq<Step>, st: Step, p: Path, pos: nat, m: nat, with: Text, call: nat, op: nat, seat: nat)
    requires st.act.Edit? && st.act.path == p && !(st.call == call && st.op == op) && pos + m <= st.at
    ensures Fold(init + [st], p, pos, m, with, call, op, seat)
         == Fold(init, p, pos, m, with, call, op, seat) + [st.(at := st.at - m + |with|)]
  {
    assert (init + [st])[..|init + [st]| - 1] == init;
  }

  lemma FoldLastBefore(init: seq<Step>, st: Step, p: Path, pos: nat, pos0: nat, m: nat, with: Text, call: nat, op: nat,
                       seat: nat)
    requires st.act.Edit? && st.act.path == p && !(st.call == call && st.op == op)
    requires m > 0 && pos0 >= st.at + |st.act.oldStr| && pos == pos0 - |st.act.oldStr| + |st.act.newStr|
    ensures Fold(init + [st], p, pos, m, with, call, op, seat) == Fold(init, p, pos0, m, with, call, op, seat) + [st]
  {
    assert (init + [st])[..|init + [st]| - 1] == init;
    assert pos - |st.act.newStr| + |st.act.oldStr| == pos0;
  }

  lemma FoldLastOwner(init: seq<Step>, st: Step, p: Path, pos: nat, m: nat, with: Text, call: nat, op: nat, seat: nat)
    requires st.act.Edit? && st.act.path == p && st.call == call && st.op == op && seat + m <= |st.act.newStr|
    ensures Fold(init + [st], p, pos, m, with, call, op, seat)
         == init + [st.(act := Edit(p, st.act.oldStr, Splice(st.act.newStr, seat, m, with)))]
  {
    assert (init + [st])[..|init + [st]| - 1] == init;
  }

  lemma FoldLastBeside(init: seq<Step>, st: Step, p: Path, pos: nat, m: nat, with: Text, call: nat, op: nat, seat: nat)
    requires !st.act.Edit? || st.act.path != p
    ensures Fold(init + [st], p, pos, m, with, call, op, seat) == Fold(init, p, pos, m, with, call, op, seat) + [st]
  {
    assert (init + [st])[..|init + [st]| - 1] == init;
  }

  lemma FoldPastAfter(init: seq<Step>, st: Step, s: State, p: Path, pos: nat, m: nat, with: Text, call: nat, op: nat,
                      seat: nat)
    requires FoldGoal(init, s, p, pos, m, with, call, op, seat) && Lands(st, PosRun(init, s).value).Some?
    requires st.act.Edit? && st.act.path == p && !(st.call == call && st.op == op) && pos + m <= st.at
    ensures FoldGoal(init + [st], s, p, pos, m, with, call, op, seat)
  {
    var init', st' := Fold(init, p, pos, m, with, call, op, seat), st.(at := st.at - m + |with|);
    StepAfterRegion(st, PosRun(init, s).value, Origins(init, s, p), PosRun(init', s).value, Origins(init', s, p),
                    p, pos, m, with, call, op, seat);
    RunLast(init, st, s, p);
    RunLast(init', st', s, p);
    FoldLastAfter(init, st, p, pos, m, with, call, op, seat);
  }

  lemma FoldPastBefore(init: seq<Step>, st: Step, s: State, p: Path, pos: nat, pos0: nat, m: nat, with: Text, call: nat,
                       op: nat, seat: nat)
    requires FoldGoal(init, s, p, pos0, m, with, call, op, seat) && Lands(st, PosRun(init, s).value).Some?
    requires st.act.Edit? && st.act.path == p && !(st.call == call && st.op == op)
    requires m > 0 && pos0 >= st.at + |st.act.oldStr| && pos == pos0 - |st.act.oldStr| + |st.act.newStr|
    ensures FoldGoal(init + [st], s, p, pos, m, with, call, op, seat)
  {
    var init' := Fold(init, p, pos0, m, with, call, op, seat);
    StepBeforeRegion(st, PosRun(init, s).value, Origins(init, s, p), PosRun(init', s).value, Origins(init', s, p),
                     p, pos, pos0, m, with, call, op, seat);
    RunLast(init, st, s, p);
    RunLast(init', st, s, p);
    FoldLastBefore(init, st, p, pos, pos0, m, with, call, op, seat);
  }

  lemma FoldPastBeside(init: seq<Step>, st: Step, s: State, p: Path, pos: nat, m: nat, with: Text, call: nat, op: nat,
                       seat: nat)
    requires FoldGoal(init, s, p, pos, m, with, call, op, seat) && Lands(st, PosRun(init, s).value).Some?
    requires st.act.path != p || st.act.Chmod?
    ensures FoldGoal(init + [st], s, p, pos, m, with, call, op, seat)
  {
    var init' := Fold(init, p, pos, m, with, call, op, seat);
    StepBeside(st, PosRun(init, s).value, Origins(init, s, p), PosRun(init', s).value, Origins(init', s, p),
               p, pos, m, with, call, op, seat);
    RunLast(init, st, s, p);
    RunLast(init', st, s, p);
    FoldLastBeside(init, st, p, pos, m, with, call, op, seat);
  }

  lemma FoldAtOwner(init: seq<Step>, st: Step, s: State, p: Path, m: nat, with: Text, seat: nat)
    requires PosRun(init, s).Some? && Lands(st, PosRun(init, s).value).Some? && Ascending(init + [st])
    requires st.act.Edit? && st.act.path == p && seat + m <= |st.act.newStr| && m > 0
    ensures FoldGoal(init + [st], s, p, st.at + seat, m, with, st.call, st.op, seat)
  {
    LastSeatUnwritten(init, st, s, p);
    var st' := st.(act := Edit(p, st.act.oldStr, Splice(st.act.newStr, seat, m, with)));
    OwnerMoved(st, st', PosRun(init, s).value, Origins(init, s, p), p, m, with, seat);
    RunLast(init, st, s, p);
    RunLast(init, st', s, p);
    FoldLastOwner(init, st, p, st.at + seat, m, with, st.call, st.op, seat);
  }

  /** What a last step that is not the owner's does to the region: nothing, unless it edits `p` before it. */
  predicate PassedBy(st: Step, p: Path, pos: nat, pos0: nat, m: nat) {
    if st.act.path != p || st.act.Chmod? then pos0 == pos
    else st.act.Edit? && if pos + m <= st.at then pos0 == pos
                         else pos >= st.at + |st.act.newStr| && pos0 == pos - |st.act.newStr| + |st.act.oldStr|
  }

  /** A last step that is not the owner's: the fold of what came before carries over. */
  lemma FoldPast(init: seq<Step>, st: Step, s: State, p: Path, pos: nat, pos0: nat, m: nat, with: Text, call: nat,
                 op: nat, seat: nat)
    requires FoldGoal(init, s, p, pos0, m, with, call, op, seat) && Lands(st, PosRun(init, s).value).Some? && m > 0
    requires !(st.call == call && st.op == op) && PassedBy(st, p, pos, pos0, m)
    ensures FoldGoal(init + [st], s, p, pos, m, with, call, op, seat)
  {
    if st.act.path != p || st.act.Chmod? {
      FoldPastBeside(init, st, s, p, pos0, m, with, call, op, seat);
    } else if pos + m <= st.at {
      FoldPastAfter(init, st, s, p, pos0, m, with, call, op, seat);
    } else {
      FoldPastBefore(init, st, s, p, pos, pos0, m, with, call, op, seat);
    }
  }

  /** Folding a rewrite of bytes one op wrote into that op: the program still lands by
      offset, one splice later, and the origins move with the bytes. */
  lemma {:induction false} FoldKeeps(prog: seq<Step>, s: State, p: Path, pos: nat, m: nat, with: Text, call: nat,
                                     op: nat, seat: nat)
    requires PosRun(prog, s).Some? && Ascending(prog)
    requires Region(Origins(prog, s, p), pos, m, call, op, seat)
    ensures FoldGoal(prog, s, p, pos, m, with, call, op, seat)
    decreases |prog|, 0
  {
    assert Origins(prog, s, p)[pos] == Wrote(call, op, seat);
    if prog != [] {
      var init, st := prog[..|prog| - 1], prog[|prog| - 1];
      FoldKeepsLast(init, st, s, p, pos, m, with, call, op, seat);
      assert prog == init + [st];
    }
  }

  lemma {:induction false} FoldKeepsLast(init: seq<Step>, st: Step, s: State, p: Path, pos: nat, m: nat, with: Text,
                                         call: nat, op: nat, seat: nat)
    requires PosRun(init, s).Some? && Lands(st, PosRun(init, s).value).Some? && Ascending(init + [st])
    requires Region(OriginStep(Origins(init, s, p), st, PosRun(init, s).value, p), pos, m, call, op, seat)
    ensures FoldGoal(init + [st], s, p, pos, m, with, call, op, seat)
    decreases |init|, 1
  {
    AscendingPrefix(init, [st]);
    if st.call == call && st.op == op {
      SpellsLast(init, st, s, p, pos, m, call, op, seat);
      FoldAtOwner(init, st, s, p, m, with, seat);
    } else {
      var pos0 := RegionBefore(init, st, s, p, pos, m, call, op, seat);
      FoldKeeps(init, s, p, pos0, m, with, call, op, seat);
      FoldPast(init, st, s, p, pos, pos0, m, with, call, op, seat);
    }
  }

  lemma AscendingPrefix(a: seq<Step>, b: seq<Step>)
    requires Ascending(a + b)
    ensures Ascending(a)
  {
    forall i, j | 0 <= i < j < |a| ensures SeatLess(a[i].call, a[i].op, a[j].call, a[j].op) {
      assert (a + b)[i] == a[i] && (a + b)[j] == a[j];
    }
  }

  /** A fold leaves every seat where it was, and every op but the owner as it was. */
  lemma FoldSeats(prog: seq<Step>, p: Path, pos: nat, m: nat, with: Text, call: nat, op: nat, seat: nat, i: nat)
    requires i < |prog|
    ensures var a, b := prog[i], Fold(prog, p, pos, m, with, call, op, seat)[i];
            b.call == a.call && b.op == a.op && (!(a.call == call && a.op == op) ==> b.act == a.act)
  {
    var init, st := prog[..|prog| - 1], prog[|prog| - 1];
    if i < |init| {
      if st.act.Edit? && st.act.path == p && !(st.call == call && st.op == op) && !(pos + m <= st.at) {
        if |st.act.newStr| <= pos + |st.act.oldStr| {
          FoldSeats(init, p, pos - |st.act.newStr| + |st.act.oldStr|, m, with, call, op, seat, i);
        }
      } else {
        FoldSeats(init, p, pos, m, with, call, op, seat, i);
      }
    }
  }

  lemma FoldAscending(prog: seq<Step>, p: Path, pos: nat, m: nat, with: Text, call: nat, op: nat, seat: nat)
    requires Ascending(prog)
    ensures Ascending(Fold(prog, p, pos, m, with, call, op, seat))
  {
    var prog' := Fold(prog, p, pos, m, with, call, op, seat);
    forall i: nat, j: nat | 0 <= i < j < |prog'|
      ensures SeatLess(prog'[i].call, prog'[i].op, prog'[j].call, prog'[j].op) {
      FoldSeats(prog, p, pos, m, with, call, op, seat, i);
      FoldSeats(prog, p, pos, m, with, call, op, seat, j);
    }
  }

  /** Other paths never notice. */
  lemma FoldElsewhere(prog: seq<Step>, s: State, p: Path, pos: nat, m: nat, with: Text, call: nat, op: nat, seat: nat,
                      q: Path)
    requires PosRun(prog, s).Some? && PosRun(Fold(prog, p, pos, m, with, call, op, seat), s).Some? && q != p
    ensures Origins(Fold(prog, p, pos, m, with, call, op, seat), s, q) == Origins(prog, s, q)
  {
    if prog != [] {
      var init, st := prog[..|prog| - 1], prog[|prog| - 1];
      var prog' := Fold(prog, p, pos, m, with, call, op, seat);
      var init', st' := prog'[..|prog'| - 1], prog'[|prog'| - 1];
      var pos0 := FoldLastOf(prog, p, pos, m, with, call, op, seat);
      if init' != init { FoldElsewhere(init, s, p, pos0, m, with, call, op, seat, q); }
    }
  }

  lemma FoldLastOf(prog: seq<Step>, p: Path, pos: nat, m: nat, with: Text, call: nat, op: nat, seat: nat)
    returns (pos0: nat)
    requires prog != []
    ensures var prog' := Fold(prog, p, pos, m, with, call, op, seat);
            var init', st' := prog'[..|prog'| - 1], prog'[|prog'| - 1];
            var init, st := prog[..|prog| - 1], prog[|prog| - 1];
            && (init' == init || init' == Fold(init, p, pos0, m, with, call, op, seat))
            && (st' == st || (st.act.path == p && st'.act.path == p))
  {
    var st := prog[|prog| - 1];
    var after := st.act.Edit? && st.act.path == p && !(pos + m <= st.at) && |st.act.newStr| <= pos + |st.act.oldStr|;
    pos0 := if after then pos - |st.act.newStr| + |st.act.oldStr| else pos;
  }

  /** The op a byte's origin names, and the byte of its `new_str` it still is. */
  lemma SeatHolds(prog: seq<Step>, s: State, p: Path, x: nat) returns (i: nat)
    requires PosRun(prog, s).Some? && x < |Origins(prog, s, p)| && Origins(prog, s, p)[x].Wrote?
    ensures i < |prog| && prog[i].act.Edit? && prog[i].act.path == p
    ensures WroteBy(Origins(prog, s, p)[x], prog[i].call, prog[i].op)
    ensures Spells(prog[i].act.newStr, Origins(prog, s, p)[x].offset, BlobAt(PosRun(prog, s).value, p), x)
  {
    var init, st := prog[..|prog| - 1], prog[|prog| - 1];
    var own, y := Inherits(Origins(init, s, p), st, PosRun(init, s).value, p, x);
    i := |prog| - 1;
    if !own { i := SeatHolds(init, s, p, y); }
  }

  /** A byte after a step is the step's own, or one that was there before it. */
  lemma Inherits(o: Provenance, st: Step, s: State, p: Path, x: nat) returns (own: bool, y: nat)
    requires |o| == Len(s, p) && Lands(st, s).Some? && x < |OriginStep(o, st, s, p)|
        && OriginStep(o, st, s, p)[x].Wrote?
    ensures own ==> st.act.Edit? && st.act.path == p && WroteBy(OriginStep(o, st, s, p)[x], st.call, st.op)
                    && Spells(st.act.newStr, OriginStep(o, st, s, p)[x].offset, BlobAt(Lands(st, s).value, p), x)
    ensures !own ==>
        && y < |o| && o[y] == OriginStep(o, st, s, p)[x]
        && BlobAt(Lands(st, s).value, p)[x] == BlobAt(s, p)[y]
  {
    own := st.act.Edit? && st.act.path == p && st.at <= x < st.at + |st.act.newStr|;
    y := if st.act.path == p && st.act.Edit?
      && st.at + |st.act.newStr| <= x then x - |st.act.newStr| + |st.act.oldStr| else x;
  }

  predicate Spells(newStr: Text, offset: nat, content: Text, x: nat) {
    offset < |newStr| && x < |content| && content[x] == newStr[offset]
  }

  /** The region as it stood before a last step that is not its owner's. */
  lemma RegionBefore(init: seq<Step>, st: Step, s: State, p: Path, pos: nat, m: nat, call: nat, op: nat, seat: nat)
    returns (pos0: nat)
    requires PosRun(init, s).Some? && Lands(st, PosRun(init, s).value).Some? && Ascending(init)
    requires Region(OriginStep(Origins(init, s, p), st, PosRun(init, s).value, p), pos, m, call, op, seat)
    requires !(st.call == call && st.op == op)
    ensures Region(Origins(init, s, p), pos0, m, call, op, seat) && PassedBy(st, p, pos, pos0, m)
  {
    var t, o := PosRun(init, s).value, Origins(init, s, p);
    assert OriginStep(o, st, t, p)[pos] == Wrote(call, op, seat);
    pos0 := pos;
    if st.act.path == p && st.act.Edit? {
      OriginsTight(init, s, p);
      pos0 := RegionSurvived(o, st.at, |st.act.oldStr|, |st.act.newStr|, st.call, st.op, pos, m, call, op, seat);
    }
  }

  /** The owner's op after a fold: its `new_str` spliced where the region sat. */
  lemma FoldSpells(prog: seq<Step>, s: State, p: Path, pos: nat, m: nat, with: Text, call: nat, op: nat, seat: nat,
                   i: nat)
    requires PosRun(prog, s).Some? && Ascending(prog)
    requires Region(Origins(prog, s, p), pos, m, call, op, seat)
    requires i < |prog| && prog[i].call == call && prog[i].op == op
    ensures prog[i].act.Edit? && prog[i].act.path == p && seat + m <= |prog[i].act.newStr|
    ensures Fold(prog, p, pos, m, with, call, op, seat)[i].act
         == Edit(p, prog[i].act.oldStr, Splice(prog[i].act.newStr, seat, m, with))
  {
    var init, st := prog[..|prog| - 1], prog[|prog| - 1];
    assert prog == init + [st];
    AscendingPrefix(init, [st]);
    assert i < |prog| - 1 ==> SeatLess(prog[i].call, prog[i].op, st.call, st.op);
    if st.call == call && st.op == op {
      SpellsLast(init, st, s, p, pos, m, call, op, seat);
    } else {
      var pos0 := RegionBefore(init, st, s, p, pos, m, call, op, seat);
      FoldSpells(init, s, p, pos0, m, with, call, op, seat, i);
    }
  }

  lemma SpellsLast(init: seq<Step>, st: Step, s: State, p: Path, pos: nat, m: nat, call: nat, op: nat, seat: nat)
    requires PosRun(init, s).Some? && Lands(st, PosRun(init, s).value).Some? && Ascending(init + [st])
    requires Region(OriginStep(Origins(init, s, p), st, PosRun(init, s).value, p), pos, m, call, op, seat)
    requires st.call == call && st.op == op
    ensures st.act.Edit? && st.act.path == p && seat + m <= |st.act.newStr| && pos == st.at + seat && m > 0
  {
    var t, o := PosRun(init, s).value, Origins(init, s, p);
    LastSeatUnwritten(init, st, s, p);
    assert OriginStep(o, st, t, p)[pos] == Wrote(call, op, seat);
    assert st.act.path == p && st.act.Edit?;
    OwnerHolds(o, st.at, |st.act.oldStr|, |st.act.newStr|, pos, m, call, op, seat);
  }
}
