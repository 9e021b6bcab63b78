/** The concrete sum (core.js): eight columns of residues, one prime each.  It is a homomorphic
    image of the ideal sum: whatever the ideal arithmetic equates, the columns do too. */
module Columns {
  import opened Wrappers
  import opened Patch
  import opened Setsum

  const PRIMES: seq<nat> := [4294967291, 4294967279, 4294967231, 4294967197, 4294967189, 4294967161, 4294967143,
      4294967111]

  /** Eight columns, each reduced. */
  predicate Reduced(c: seq<nat>) {
    |c| == 8 && forall i :: 0 <= i < 8 ==> c[i] < PRIMES[i]
  }

  type Cols = c: seq<nat> | Reduced(c) witness [0, 0, 0, 0, 0, 0, 0, 0]

  const ZEROS: Cols := [0, 0, 0, 0, 0, 0, 0, 0]

  /** The sum of two reduced columns, reduced. */
  function AddOne(a: nat, b: nat, p: nat): (c: nat)
    requires a < p && b < p
    ensures c < p
  {
    if a + b < p then a + b else a + b - p
  }

  function NegOne(a: nat, p: nat): (c: nat)
    requires a < p
    ensures c < p
  {
    if a == 0 then 0 else p - a
  }

  function AddS(a: Cols, b: Cols): Cols {
    seq(8, i requires 0 <= i < 8 => AddOne(a[i], b[i], PRIMES[i]))
  }

  function NegS(a: Cols): Cols {
    seq(8, i requires 0 <= i < 8 => NegOne(a[i], PRIMES[i]))
  }

  lemma Quotient(x: nat, p: nat, q: nat)
    requires p > 0 && q <= 1 && p * q <= x < p * q + p
    ensures x % p == x - p * q
  {
    if q == 0 { assert x / p == 0; } else { assert x / p == 1; }
  }

  /** Both are the remainders the columns are defined by. */
  lemma AreRemainders(a: nat, b: nat, p: nat)
    requires a < p && b < p
    ensures AddOne(a, b, p) == (a + b) % p && NegOne(a, p) == (p - a) % p
  {
    Quotient(a + b, p, if a + b < p then 0 else 1);
    Quotient(p - a, p, if a == 0 then 1 else 0);
  }

  /** The group laws: adding is commutative and associative, with an identity and inverses. */
  lemma GroupLaws(a: Cols, b: Cols, c: Cols)
    ensures AddS(a, b) == AddS(b, a)
    ensures AddS(AddS(a, b), c) == AddS(a, AddS(b, c))
    ensures AddS(a, ZEROS) == a && AddS(a, NegS(a)) == ZEROS
  {
  }

  ////////////////////////////////////////////// folding ////////////////////////////////////////////////

  /** A record with its sign. */
  datatype Signed = Signed(record: Record, plus: bool)

  function Sign(s: Signed): int {
    if s.plus then 1 else -1
  }

  function Optional(record: Option<Record>, plus: bool): seq<Signed> {
    if record.Some? then [Signed(record.value, plus)] else []
  }

  function EntrySigns(e: Entry): seq<Signed> {
    Optional(e.remove, false) + Optional(e.add, true)
  }

  /** The removes and adds of a delta, in order. */
  function Signs(realized: seq<Entry>): seq<Signed> {
    if realized == [] then [] else Signs(realized[..|realized| - 1]) + EntrySigns(realized[|realized| - 1])
  }

  /** Fold signed records into the columns; `hash` is the reduced digest of a record. */
  function FoldCols(s: Cols, items: seq<Signed>, hash: Record -> Cols): Cols {
    if items == [] then s
    else
      var last := items[|items| - 1];
      AddS(FoldCols(s, items[..|items| - 1], hash), if last.plus then hash(last.record) else NegS(hash(last.record)))
  }

  /** The coefficient a list of signed records gives one record. */
  function CoefIn(items: seq<Signed>, r: Record): int {
    if items == [] then 0
    else CoefIn(items[..|items| - 1], r) + if items[|items| - 1].record == r then Sign(items[|items| - 1]) else 0
  }

  function Amount(s: Signed, hash: Record -> Cols, i: nat): int
    requires i < 8
  {
    if s.plus then hash(s.record)[i] else -(hash(s.record)[i] as int)
  }

  /** One column's total, unreduced. */
  function Total(items: seq<Signed>, hash: Record -> Cols, i: nat): int
    requires i < 8
  {
    if items == [] then 0 else Total(items[..|items| - 1], hash, i) + Amount(items[|items| - 1], hash, i)
  }

  /** A column holds its total, up to a multiple of its prime. */
  lemma {:induction false} FoldIsTotal(s: Cols, items: seq<Signed>, hash: Record -> Cols, i: nat) returns (k: int)
    requires i < 8
    ensures FoldCols(s, items, hash)[i] == s[i] + Total(items, hash, i) + PRIMES[i] * k
  {
    if items == [] {
      k := 0;
    } else {
      var init, last := items[..|items| - 1], items[|items| - 1];
      var before := FoldIsTotal(s, init, hash, i);
      var t := FoldCols(s, init, hash)[i];
      var h := hash(last.record)[i];
      var step := if last.plus then h else NegOne(h, PRIMES[i]);
      assert FoldCols(s, items, hash)[i] == AddOne(t, step, PRIMES[i]);
      k := before + (if t + step < PRIMES[i] then 0 else -1) + if last.plus || h == 0 then 0 else 1;
      Carry(PRIMES[i], before, k - before);
    }
  }

  lemma Carry(p: nat, k: int, d: int)
    requires -1 <= d <= 1
    ensures p * (k + d) == p * k + (if d == 1 then p as int else if d == -1 then -(p as int) else 0)
  {
  }

  lemma CongruentIsEqual(x: nat, y: nat, t: int, p: nat, k: int, l: int)
    requires x < p && y < p && x == t + p * k && y == t + p * l
    ensures x == y
  {
    Distributes(p, k, l);
    Multiples(p, k - l);
  }

  lemma Multiples(p: nat, k: int)
    ensures k >= 1 ==> p * k >= p
    ensures k <= -1 ==> p * k <= 0 - p
  {
  }

  lemma EntryCoef(e: Entry, r: Record)
    ensures CoefIn(EntrySigns(e), r) == EntryDelta(e, r)
  {
    OptionalCoef(e.remove, false, r);
    OptionalCoef(e.add, true, r);
    CoefAppend(Optional(e.remove, false), Optional(e.add, true), r);
  }

  lemma OptionalCoef(record: Option<Record>, plus: bool, r: Record)
    ensures CoefIn(Optional(record, plus), r) == if record == Some(r) then Sign(Signed(r, plus)) else 0
  {
    CoefOne(Optional(record, plus), r);
  }

  lemma SignsCoef(realized: seq<Entry>, r: Record)
    ensures CoefIn(Signs(realized), r) == Delta(realized, r)
  {
    if realized != [] {
      var init, e := realized[..|realized| - 1], realized[|realized| - 1];
      SignsCoef(init, r);
      EntryCoef(e, r);
      CoefAppend(Signs(init), EntrySigns(e), r);
    }
  }

  lemma CoefOne(items: seq<Signed>, r: Record)
    requires |items| <= 1
    ensures CoefIn(items, r) == if items != [] && items[0].record == r then Sign(items[0]) else 0
  {
    if items != [] { assert items[..0] == []; }
  }

  lemma CoefAppend(a: seq<Signed>, b: seq<Signed>, r: Record)
    ensures CoefIn(a + b, r) == CoefIn(a, r) + CoefIn(b, r)
  {
    if b == [] {
      assert a + b == a;
    } else {
      assert (a + b)[..|a + b| - 1] == a + b[..|b| - 1];
      CoefAppend(a, b[..|b| - 1], r);
    }
  }

  lemma TotalAppend(a: seq<Signed>, b: seq<Signed>, hash: Record -> Cols, i: nat)
    requires i < 8
    ensures Total(a + b, hash, i) == Total(a, hash, i) + Total(b, hash, i)
  {
    if b == [] {
      assert a + b == a;
    } else {
      assert (a + b)[..|a + b| - 1] == a + b[..|b| - 1];
      TotalAppend(a, b[..|b| - 1], hash, i);
    }
  }

  function Negated(items: seq<Signed>): seq<Signed> {
    if items == [] then []
    else Negated(items[..|items| - 1]) + [Signed(items[|items| - 1].record, !items[|items| - 1].plus)]
  }

  lemma NegatedCounts(items: seq<Signed>, hash: Record -> Cols, i: nat, r: Record)
    requires i < 8
    ensures CoefIn(Negated(items), r) == -CoefIn(items, r) && Total(Negated(items), hash, i) == -Total(items, hash, i)
  {
    if items != [] {
      var n := |items| - 1;
      NegatedCounts(items[..n], hash, i, r);
      assert Negated(items)[..|Negated(items)| - 1] == Negated(items[..n]);
    }
  }

  /** A record whose coefficient does not have the last sign occurs with the opposite one. */
  lemma Opposite(items: seq<Signed>, r: Record, plus: bool) returns (k: nat)
    requires if plus then CoefIn(items, r) < 0 else CoefIn(items, r) > 0
    ensures k < |items| && items[k] == Signed(r, !plus)
  {
    var n := |items| - 1;
    if items[n] == Signed(r, !plus) { k := n; } else { k := Opposite(items[..n], r, plus); }
  }

  lemma WithoutOne(items: seq<Signed>, k: nat, hash: Record -> Cols, i: nat, r: Record)
    requires k < |items| && i < 8
    ensures var rest := items[..k] + items[k + 1..];
            && CoefIn(items, r) == CoefIn(rest, r) + (if items[k].record == r then Sign(items[k]) else 0)
            && Total(items, hash, i) == Total(rest, hash, i) + Amount(items[k], hash, i)
  {
    var one := [items[k]];
    assert items == items[..k] + one + items[k + 1..];
    CoefAppend(items[..k] + one, items[k + 1..], r);
    CoefAppend(items[..k], one, r);
    CoefAppend(items[..k], items[k + 1..], r);
    TotalAppend(items[..k] + one, items[k + 1..], hash, i);
    TotalAppend(items[..k], one, hash, i);
    TotalAppend(items[..k], items[k + 1..], hash, i);
    assert one[..0] == [];
    assert CoefIn([], r) == 0 && Total([], hash, i) == 0;
  }

  /** What cancels record by record cancels in every column. */
  lemma {:induction false} CancelsTotal(items: seq<Signed>, hash: Record -> Cols, i: nat)
    requires i < 8 && forall r :: CoefIn(items, r) == 0
    ensures Total(items, hash, i) == 0
    decreases |items|
  {
    if items != [] {
      var n := |items| - 1;
      var last := items[n];
      assert CoefIn(items, last.record) == 0;
      var k := Opposite(items[..n], last.record, last.plus);
      var init := items[..n];
      var rest := init[..k] + init[k + 1..];
      forall r ensures CoefIn(rest, r) == 0 {
        assert CoefIn(items, r) == 0;
        WithoutOne(init, k, hash, i, r);
      }
      WithoutOne(init, k, hash, i, last.record);
      CancelsTotal(rest, hash, i);
      assert init[k] == Signed(last.record, !last.plus);
    }
  }

  lemma SameTotals(a: seq<Signed>, b: seq<Signed>, hash: Record -> Cols, i: nat)
    requires i < 8 && forall r :: CoefIn(a, r) == CoefIn(b, r)
    ensures Total(a, hash, i) == Total(b, hash, i)
  {
    var both := a + Negated(b);
    forall r ensures CoefIn(both, r) == 0 {
      CoefAppend(a, Negated(b), r);
      NegatedCounts(b, hash, i, r);
      assert CoefIn(a, r) == CoefIn(b, r);
    }
    CancelsTotal(both, hash, i);
    TotalAppend(a, Negated(b), hash, i);
    NegatedCounts(b, hash, i, Record("", "", []));
  }

  lemma SameColumn(s: Cols, a: seq<Signed>, b: seq<Signed>, hash: Record -> Cols, i: nat)
    requires i < 8 && Total(a, hash, i) == Total(b, hash, i)
    ensures FoldCols(s, a, hash)[i] == FoldCols(s, b, hash)[i]
  {
    var k := FoldIsTotal(s, a, hash, i);
    var l := FoldIsTotal(s, b, hash, i);
    CongruentIsEqual(FoldCols(s, a, hash)[i], FoldCols(s, b, hash)[i], s[i] + Total(a, hash, i), PRIMES[i], k, l);
  }

  lemma Distributes(p: nat, k: int, l: int)
    ensures p * (k - l) == p * k - p * l
  {
  }

  /** The columns follow the ideal sum: deltas that do the same to every record's coefficient do
      the same to the columns, in whatever order they list it and whatever the digest. */
  lemma ColumnsFollowIdeal(s: Cols, a: seq<Entry>, b: seq<Entry>, hash: Record -> Cols)
    requires forall r :: Delta(a, r) == Delta(b, r)
    ensures FoldCols(s, Signs(a), hash) == FoldCols(s, Signs(b), hash)
  {
    forall r ensures CoefIn(Signs(a), r) == CoefIn(Signs(b), r) {
      SignsCoef(a, r);
      SignsCoef(b, r);
      assert Delta(a, r) == Delta(b, r);
    }
    var x, y := FoldCols(s, Signs(a), hash), FoldCols(s, Signs(b), hash);
    forall i | 0 <= i < 8 ensures x[i] == y[i] {
      SameTotals(Signs(a), Signs(b), hash, i);
      SameColumn(s, Signs(a), Signs(b), hash, i);
    }
  }

  lemma {:induction false} InverseDelta(realized: seq<Entry>, r: Record)
    ensures Delta(Inverse(realized), r) == -Delta(realized, r)
  {
    if realized != [] {
      var n := |realized| - 1;
      InverseDelta(realized[..n], r);
      var first := [Inverted(realized[n])];
      DeltaAppend(first, Inverse(realized[..n]), r);
      assert first[..0] == [];
      assert Delta(first, r) == EntryDelta(Inverted(realized[n]), r);
    }
  }

  /** A delta and its inverse leave the columns where they were, with no manifest consulted. */
  lemma UndoRestoresColumns(s: Cols, realized: seq<Entry>, hash: Record -> Cols)
    ensures FoldCols(s, Signs(realized + Inverse(realized)), hash) == s
  {
    forall r ensures Delta(realized + Inverse(realized), r) == Delta([], r) {
      DeltaAppend(realized, Inverse(realized), r);
      InverseDelta(realized, r);
    }
    ColumnsFollowIdeal(s, realized + Inverse(realized), [], hash);
  }
}
