/** States are sums (src/ident.rs, `Sum`): the ideal layer, the free abelian group on
    element records, where a sum fixes its manifest. */
module Setsum {
  import opened Wrappers
  import opened Patch

  /** An element of the group: each record's coefficient, zeros left out. */
  type Sum = s: map<Record, int> | forall r :: r in s ==> s[r] != 0

  const ZERO: Sum := map[]

  function Coef(s: Sum, r: Record): int {
    if r in s then s[r] else 0
  }

  function Bump(s: Sum, r: Record, k: int): (t: Sum)
    ensures forall q :: Coef(t, q) == Coef(s, q) + if q == r then k else 0
  {
    var c := Coef(s, r) + k;
    if c == 0 then s - {r} else s[r := c]
  }

  /** Fold one entry: minus what it removes, plus what it adds; no membership is checked. */
  function FoldEntry(s: Sum, e: Entry): Sum {
    var t := if e.remove.Some? then Bump(s, e.remove.value, -1) else s;
    if e.add.Some? then Bump(t, e.add.value, 1) else t
  }

  function FoldSum(s: Sum, realized: seq<Entry>): Sum {
    if realized == [] then s else FoldEntry(FoldSum(s, realized[..|realized| - 1]), realized[|realized| - 1])
  }

  /** Every record once: the sum of a manifest. */
  function SumOf(s: State): Sum {
    map r | r in s.Values :: 1
  }

  function EntryDelta(e: Entry, r: Record): int {
    (if e.add == Some(r) then 1 else 0) - (if e.remove == Some(r) then 1 else 0)
  }

  /** What a realized delta does to one record's coefficient. */
  function Delta(realized: seq<Entry>, r: Record): int {
    if realized == [] then 0 else Delta(realized[..|realized| - 1], r) + EntryDelta(realized[|realized| - 1], r)
  }

  lemma DeltaAppend(a: seq<Entry>, b: seq<Entry>, r: Record)
    ensures Delta(a + b, r) == Delta(a, r) + Delta(b, r)
  {
    if b == [] {
      assert a + b == a;
    } else {
      assert (a + b)[..|a + b| - 1] == a + b[..|b| - 1];
      DeltaAppend(a, b[..|b| - 1], r);
    }
  }

  lemma CoefFold(s: Sum, realized: seq<Entry>, r: Record)
    ensures Coef(FoldSum(s, realized), r) == Coef(s, r) + Delta(realized, r)
  {
    if realized != [] { CoefFold(s, realized[..|realized| - 1], r); }
  }

  lemma SumsEqual(a: Sum, b: Sum)
    requires forall r :: Coef(a, r) == Coef(b, r)
    ensures a == b
  {
    assert forall r :: r in a ==> Coef(a, r) != 0 && Coef(b, r) != 0;
    assert forall r :: r in b ==> Coef(b, r) != 0 && Coef(a, r) != 0;
  }

  lemma FoldAppend(s: Sum, a: seq<Entry>, b: seq<Entry>)
    ensures FoldSum(s, a + b) == FoldSum(FoldSum(s, a), b)
  {
    if b == [] {
      assert a + b == a;
    } else {
      assert (a + b)[..|a + b| - 1] == a + b[..|b| - 1];
      FoldAppend(s, a, b[..|b| - 1]);
    }
  }

  lemma CoefSumOf(s: State, r: Record)
    requires Keyed(s)
    ensures Coef(SumOf(s), r) == if Holds(s, r) then 1 else 0
  {
    if Holds(s, r) { assert s[r.path] in s.Values; }
  }

  /** Arithmetic and adjudication agree, one entry at a time. */
  lemma StepSum(s: State, e: Entry)
    requires Keyed(s) && Adjudicates(s, e)
    ensures Keyed(Step(s, e)) && SumOf(Step(s, e)) == FoldEntry(SumOf(s), e)
  {
    forall r ensures Coef(SumOf(Step(s, e)), r) == Coef(FoldEntry(SumOf(s), e), r) {
      CoefSumOf(s, r);
      CoefSumOf(Step(s, e), r);
    }
    SumsEqual(SumOf(Step(s, e)), FoldEntry(SumOf(s), e));
  }

  /** A delta that adjudicates moves the manifest's sum by exactly its own arithmetic. */
  lemma ReplaySum(s: State, realized: seq<Entry>)
    requires Keyed(s) && Replay(s, realized).Some?
    ensures Keyed(Replay(s, realized).value)
    ensures SumOf(Replay(s, realized).value) == FoldSum(SumOf(s), realized)
  {
    if realized != [] {
      var init := realized[..|realized| - 1];
      ReplaySum(s, init);
      StepSum(Replay(s, init).value, realized[|realized| - 1]);
    }
  }

  /** The sum attests: equal sums are equal manifests. */
  lemma SumFixesManifest(s: State, t: State)
    requires Keyed(s) && Keyed(t) && SumOf(s) == SumOf(t)
    ensures s == t
  {
    forall p ensures (p in s <==> p in t) && (p in s ==> s[p] == t[p]) {
      if p in s { CoefSumOf(s, s[p]); CoefSumOf(t, s[p]); }
      if p in t { CoefSumOf(s, t[p]); CoefSumOf(t, t[p]); }
    }
  }

  ///////////////////////////////////////////// inverses ////////////////////////////////////////////////

  function Inverted(e: Entry): Entry {
    Entry(e.add, e.remove)
  }

  /** The inverse of a delta: its entries swapped, last first. */
  function Inverse(realized: seq<Entry>): seq<Entry> {
    if realized == [] then [] else [Inverted(realized[|realized| - 1])] + Inverse(realized[..|realized| - 1])
  }

  lemma StepUndone(s: State, e: Entry)
    requires Keyed(s) && Adjudicates(s, e)
    ensures Adjudicates(Step(s, e), Inverted(e)) && Step(Step(s, e), Inverted(e)) == s
  {
    assert e.remove.Some? ==> s[e.remove.value.path := e.remove.value] == s;
  }

  /** Undo is the inverse: it adjudicates wherever the delta did, and restores the manifest. */
  lemma {:induction false} ReplayUndone(s: State, realized: seq<Entry>)
    requires Keyed(s) && Replay(s, realized).Some?
    ensures Replay(Replay(s, realized).value, Inverse(realized)) == Some(s)
  {
    if realized != [] {
      var init, last := realized[..|realized| - 1], realized[|realized| - 1];
      ReplaySum(s, init);
      var t := Replay(s, init).value;
      StepUndone(t, last);
      ReplayUndone(s, init);
      var first := [Inverted(last)];
      assert first[..0] == [];
      assert Replay(Step(t, last), first) == Some(t);
      ReplayAppend(Step(t, last), first, Inverse(init));
    }
  }

  //////////////////////////////////////////// permutations /////////////////////////////////////////////

  function Flat(lines: seq<seq<Entry>>): seq<Entry> {
    if lines == [] then [] else Flat(lines[..|lines| - 1]) + lines[|lines| - 1]
  }

  /** A line moved to the end changes no coefficient. */
  lemma DeltaMoved(lines: seq<seq<Entry>>, i: nat, r: Record)
    requires i < |lines|
    ensures Delta(Flat(lines), r) == Delta(Flat(lines[..i] + lines[i + 1..]), r) + Delta(lines[i], r)
  {
    var n := |lines| - 1;
    DeltaAppend(Flat(lines[..n]), lines[n], r);
    if i < n {
      var rest := lines[..i] + lines[i + 1..];
      DeltaMoved(lines[..n], i, r);
      assert rest[..n - 1] == lines[..n][..i] + lines[..n][i + 1..];
      DeltaAppend(Flat(rest[..n - 1]), lines[n], r);
    } else {
      assert lines[..i] + lines[i + 1..] == lines[..n];
    }
  }

  lemma {:induction false} DeltaPermuted(a: seq<seq<Entry>>, b: seq<seq<Entry>>, r: Record)
    requires multiset(a) == multiset(b)
    ensures Delta(Flat(a), r) == Delta(Flat(b), r)
  {
    assert |a| == |multiset(a)| == |multiset(b)| == |b|;
    if a != [] {
      var n := |a| - 1;
      var last := a[n];
      assert a == a[..n] + [last];
      assert last in multiset(b);
      var i: nat :| i < |b| && b[i] == last;
      assert b == b[..i] + [b[i]] + b[i + 1..];
      var rest := b[..i] + b[i + 1..];
      assert multiset(rest) == multiset(b) - multiset{last};
      assert multiset(a[..n]) == multiset(a) - multiset{last};
      DeltaPermuted(a[..n], rest, r);
      DeltaAppend(Flat(a[..n]), last, r);
      DeltaMoved(b, i, r);
    }
  }

  /** Order does not matter: two orders of the same deltas that both adjudicate reach the
      same manifest, though the states between them differ. */
  lemma OrderDoesNotMatter(s: State, a: seq<seq<Entry>>, b: seq<seq<Entry>>)
    requires Keyed(s) && multiset(a) == multiset(b)
    requires Replay(s, Flat(a)).Some? && Replay(s, Flat(b)).Some?
    ensures Replay(s, Flat(a)).value == Replay(s, Flat(b)).value
  {
    var t, u := Replay(s, Flat(a)).value, Replay(s, Flat(b)).value;
    ReplaySum(s, Flat(a));
    ReplaySum(s, Flat(b));
    forall r ensures Coef(SumOf(t), r) == Coef(SumOf(u), r) {
      CoefFold(SumOf(s), Flat(a), r);
      CoefFold(SumOf(s), Flat(b), r);
      DeltaPermuted(a, b, r);
    }
    SumsEqual(SumOf(t), SumOf(u));
    SumFixesManifest(t, u);
  }
}
