/** Line diffs (src/diff.rs): the LCS edit script, and the byte ranges it leaves changed. */
module Diff {
  import opened Wrappers
  import opened Spans

  datatype Edit = Equal(old_: nat, new_: nat) | Delete(old_: nat) | Insert(new_: nat)

  ////////////////////////////////////////// the edit script ////////////////////////////////////////////

  function Max(x: nat, y: nat): nat {
    if x >= y then x else y
  }

  /** How long a subsequence the two suffixes, from `i` and from `j`, can have in common. */
  function Lcs<T(==)>(a: seq<T>, b: seq<T>, i: nat, j: nat): nat
    requires i <= |a| && j <= |b|
    decreases |a| - i + |b| - j
  {
    if i == |a| || j == |b| then 0
    else if a[i] == b[j] then Lcs(a, b, i + 1, j + 1) + 1
    else Max(Lcs(a, b, i + 1, j), Lcs(a, b, i, j + 1))
  }

  /** `picks` names a common subsequence: equal elements, strictly increasing on both sides,
      at or past (`i`, `j`). */
  ghost predicate Common<T>(a: seq<T>, b: seq<T>, i: nat, j: nat, picks: seq<(nat, nat)>) {
    && (forall k :: 0 <= k < |picks| ==>
          i <= picks[k].0 < |a| && j <= picks[k].1 < |b| && a[picks[k].0] == b[picks[k].1])
    && (forall k, l :: 0 <= k < l < |picks| ==> picks[k].0 < picks[l].0 && picks[k].1 < picks[l].1)
  }

  lemma LcsShrinks<T>(a: seq<T>, b: seq<T>, i: nat, j: nat)
    requires i <= |a| && j <= |b|
    decreases |a| - i + |b| - j
    ensures i < |a| ==> Lcs(a, b, i + 1, j) <= Lcs(a, b, i, j) <= Lcs(a, b, i + 1, j) + 1
    ensures j < |b| ==> Lcs(a, b, i, j + 1) <= Lcs(a, b, i, j) <= Lcs(a, b, i, j + 1) + 1
  {
    if i < |a| && j < |b| {
      LcsShrinks(a, b, i + 1, j);
      LcsShrinks(a, b, i, j + 1);
      LcsShrinks(a, b, i + 1, j + 1);
    }
  }

  /** No common subsequence is longer. */
  lemma {:induction false} LcsIsUpperBound<T>(a: seq<T>, b: seq<T>, i: nat, j: nat, picks: seq<(nat, nat)>)
    requires i <= |a| && j <= |b| && Common(a, b, i, j, picks)
    decreases |a| - i + |b| - j
    ensures |picks| <= Lcs(a, b, i, j)
  {
    if picks != [] {
      var p := picks[0];
      assert forall k :: 1 <= k < |picks| ==> picks[0].0 < picks[k].0 && picks[0].1 < picks[k].1;
      if p.0 > i {
        LcsIsUpperBound(a, b, i + 1, j, picks);
        LcsShrinks(a, b, i, j);
      } else if p.1 > j {
        LcsIsUpperBound(a, b, i, j + 1, picks);
        LcsShrinks(a, b, i, j);
      } else {
        LcsIsUpperBound(a, b, i + 1, j + 1, picks[1..]);
      }
    }
  }

  /** The script walks both sides in order from (`i`, `j`) to (`i'`, `j'`), and its equals
      are equal. */
  predicate Walks<T(==)>(edits: seq<Edit>, a: seq<T>, b: seq<T>, i: nat, j: nat, i': nat, j': nat) {
    if edits == [] then i == i' && j == j'
    else
      match edits[|edits| - 1]
      case Equal(o, n) =>
        && i' > 0 && j' > 0 && o == i' - 1 && n == j' - 1 && o < |a| && n < |b| && a[o] == b[n]
        && Walks(edits[..|edits| - 1], a, b, i, j, o, n)
      case Delete(o) => i' > 0 && o == i' - 1 && o < |a| && Walks(edits[..|edits| - 1], a, b, i, j, o, j')
      case Insert(n) => j' > 0 && n == j' - 1 && n < |b| && Walks(edits[..|edits| - 1], a, b, i, j, i', n)
  }

  function Equals(edits: seq<Edit>): seq<(nat, nat)> {
    if edits == [] then []
    else
      var last := edits[|edits| - 1];
      Equals(edits[..|edits| - 1]) + if last.Equal? then [(last.old_, last.new_)] else []
  }

  lemma CommonAppend<T>(a: seq<T>, b: seq<T>, i: nat, j: nat, picks: seq<(nat, nat)>, p: (nat, nat))
    requires Common(a, b, i, j, picks) && i <= p.0 < |a| && j <= p.1 < |b| && a[p.0] == b[p.1]
    requires forall k :: 0 <= k < |picks| ==> picks[k].0 < p.0 && picks[k].1 < p.1
    ensures Common(a, b, i, j, picks + [p])
  {}

  /** The equals of a walk are a common subsequence of what it walked. */
  lemma EqualsAreCommon<T>(edits: seq<Edit>, a: seq<T>, b: seq<T>, i: nat, j: nat, i': nat, j': nat)
    requires Walks(edits, a, b, i, j, i', j')
    ensures i <= i' && j <= j' && Common(a, b, i, j, Equals(edits))
    ensures forall k :: 0 <= k < |Equals(edits)| ==> Equals(edits)[k].0 < i' && Equals(edits)[k].1 < j'
  {
    if edits != [] {
      var init, last := edits[..|edits| - 1], edits[|edits| - 1];
      match last
      case Equal(o, n) =>
        EqualsAreCommon(init, a, b, i, j, o, n);
        CommonAppend(a, b, i, j, Equals(init), (o, n));
      case Delete(o) => EqualsAreCommon(init, a, b, i, j, o, j');
      case Insert(n) => EqualsAreCommon(init, a, b, i, j, i', n);
    }
  }

  /** The script from (`i`, `j`) on: equals where the lines agree, else the side that keeps
      the longer common subsequence, deletes first. */
  function Script<T(==)>(a: seq<T>, b: seq<T>, i: nat, j: nat): seq<Edit>
    requires i <= |a| && j <= |b|
    decreases |a| - i + |b| - j
  {
    if i == |a| && j == |b| then []
    else if i < |a| && j < |b| && a[i] == b[j] then [Equal(i, j)] + Script(a, b, i + 1, j + 1)
    else if i < |a| && (j == |b| || Lcs(a, b, i + 1, j) >= Lcs(a, b, i, j + 1))
      then [Delete(i)] + Script(a, b, i + 1, j)
    else [Insert(j)] + Script(a, b, i, j + 1)
  }

  /** `lcs[i, j]` is the longest common subsequence of the two suffixes. */
  ghost predicate Filled<T>(lcs: array2<nat>, a: seq<T>, b: seq<T>)
    reads lcs
  {
    && lcs.Length0 == |a| + 1 && lcs.Length1 == |b| + 1
    && forall x, y :: 0 <= x <= |a| && 0 <= y <= |b| ==> lcs[x, y] == Lcs(a, b, x, y)
  }

  predicate RowIs<T(==)>(lcs: array2<nat>, a: seq<T>, b: seq<T>, x: nat)
    requires x <= |a| && lcs.Length0 == |a| + 1 && lcs.Length1 == |b| + 1
    reads lcs
  {
    forall y :: 0 <= y <= |b| ==> lcs[x, y] == Lcs(a, b, x, y)
  }

  /** One row of the table, from the row after it. */
  method FillRow<T(==)>(lcs: array2<nat>, a: seq<T>, b: seq<T>, i: nat)
    requires i < |a| && lcs.Length0 == |a| + 1 && lcs.Length1 == |b| + 1
    requires RowIs(lcs, a, b, i + 1) && lcs[i, |b|] == 0
    modifies lcs
    ensures RowIs(lcs, a, b, i)
    ensures forall x, y :: 0 <= x <= |a| && x != i && 0 <= y <= |b| ==> lcs[x, y] == old(lcs[x, y])
  {
    for j := |b| downto 0
      invariant forall y :: j <= y <= |b| ==> lcs[i, y] == Lcs(a, b, i, y)
      invariant forall x, y :: 0 <= x <= |a| && x != i && 0 <= y <= |b| ==> lcs[x, y] == old(lcs[x, y])
    {
      lcs[i, j] := if a[i] == b[j] then lcs[i + 1, j + 1] + 1 else Max(lcs[i + 1, j], lcs[i, j + 1]);
    }
  }

  /** The whole table, filled from the far corner. */
  method LcsTable<T(==)>(a: seq<T>, b: seq<T>) returns (lcs: array2<nat>)
    ensures fresh(lcs) && Filled(lcs, a, b)
  {
    lcs := new nat[|a| + 1, |b| + 1]((_, _) => 0);
    for i := |a| downto 0
      invariant forall x: nat :: i <= x <= |a| ==> RowIs(lcs, a, b, x)
      invariant forall x, y :: 0 <= x < i && 0 <= y <= |b| ==> lcs[x, y] == 0
    {
      label Before:
      FillRow(lcs, a, b, i);
      forall x: nat | i < x <= |a| ensures RowIs(lcs, a, b, x) {
        assert old@Before(RowIs(lcs, a, b, x));
      }
    }
    forall x, y | 0 <= x <= |a| && 0 <= y <= |b| ensures lcs[x, y] == Lcs(a, b, x, y) {
      assert RowIs(lcs, a, b, x);
    }
  }

  /** The table, then one walk through it from the near corner: the script `Script` defines. */
  method LcsEdits<T(==)>(a: seq<T>, b: seq<T>) returns (edits: seq<Edit>)
    ensures edits == Script(a, b, 0, 0)
  {
    var n, m := |a|, |b|;
    var lcs := LcsTable(a, b);
    edits := [];
    var i, j := 0, 0;
    while i < n && j < m
      invariant i <= n && j <= m && Filled(lcs, a, b)
      invariant edits + Script(a, b, i, j) == Script(a, b, 0, 0)
      decreases n - i + m - j
    {
      if a[i] == b[j] {
        edits := Push(edits, Equal(i, j), a, b, i, j);
        i, j := i + 1, j + 1;
      } else {
        var drop := PrefersDelete(lcs, a, b, i, j);
        if drop {
          edits := Push(edits, Delete(i), a, b, i, j);
          i := i + 1;
        } else {
          edits := Push(edits, Insert(j), a, b, i, j);
          j := j + 1;
        }
      }
    }
    while i < n
      invariant i <= n && j <= m && (i < n ==> j == m)
      invariant edits + Script(a, b, i, j) == Script(a, b, 0, 0)
    {
      edits := Push(edits, Delete(i), a, b, i, j);
      i := i + 1;
    }
    while j < m
      invariant i == n && j <= m
      invariant edits + Script(a, b, i, j) == Script(a, b, 0, 0)
    {
      edits := Push(edits, Insert(j), a, b, i, j);
      j := j + 1;
    }
  }

  method PrefersDelete<T(==)>(lcs: array2<nat>, ghost a: seq<T>, ghost b: seq<T>, i: nat, j: nat) returns (yes: bool)
    requires Filled(lcs, a, b) && i < |a| && j < |b| && a[i] != b[j]
    ensures yes <==> Lcs(a, b, i + 1, j) >= Lcs(a, b, i, j + 1)
  {
    yes := lcs[i + 1, j] >= lcs[i, j + 1];
  }

  /** `edits.push` of the script's next element. */
  method Push<T(==)>(edits: seq<Edit>, e: Edit, ghost a: seq<T>, ghost b: seq<T>, ghost i: nat, ghost j: nat)
    returns (longer: seq<Edit>)
    requires i <= |a| && j <= |b| && edits + Script(a, b, i, j) == Script(a, b, 0, 0)
    requires Script(a, b, i, j) != [] && Script(a, b, i, j)[0] == e
    ensures longer == edits + [e]
    ensures var i', j' := if e.Insert? then i else i + 1, if e.Delete? then j else j + 1;
            i' <= |a| && j' <= |b| && longer + Script(a, b, i', j') == Script(a, b, 0, 0)
  {
    longer := edits + [e];
    ghost var rest := Script(a, b, if e.Insert? then i else i + 1, if e.Delete? then j else j + 1);
    assert Script(a, b, i, j) == [e] + rest;
    assert longer + rest == edits + ([e] + rest);
  }

  /** The script's first edit and where it leads. */
  lemma ScriptSteps<T>(a: seq<T>, b: seq<T>, i: nat, j: nat) returns (e: Edit, i': nat, j': nat)
    requires i <= |a| && j <= |b| && Script(a, b, i, j) != []
    ensures i <= i' <= |a| && j <= j' <= |b| && i + j < i' + j'
    ensures Script(a, b, i, j) == [e] + Script(a, b, i', j')
    ensures Walks([e], a, b, i, j, i', j')
    ensures Lcs(a, b, i, j) == Lcs(a, b, i', j') + if e.Equal? then 1 else 0
  {
    e := Script(a, b, i, j)[0];
    i', j' := if e.Insert? then i else i + 1, if e.Delete? then j else j + 1;
  }

  /** One more edit on a walk. */
  lemma WalksAppend<T>(edits: seq<Edit>, e: Edit, a: seq<T>, b: seq<T>, i: nat, j: nat, i': nat, j': nat)
    requires Walks(edits, a, b, 0, 0, i, j) && Walks([e], a, b, i, j, i', j')
    ensures Walks(edits + [e], a, b, 0, 0, i', j')
    ensures |Equals(edits + [e])| == |Equals(edits)| + if e.Equal? then 1 else 0
  {
    assert (edits + [e])[..|edits|] == edits;
    assert [e][..0] == [];
  }

  /** The script walks both sides to their ends, and loses no equal on the way. */
  lemma {:induction false} ScriptWalksOn<T>(edits: seq<Edit>, a: seq<T>, b: seq<T>, i: nat, j: nat)
    requires i <= |a| && j <= |b| && Walks(edits, a, b, 0, 0, i, j)
    decreases |a| - i + |b| - j
    ensures Walks(edits + Script(a, b, i, j), a, b, 0, 0, |a|, |b|)
    ensures |Equals(edits + Script(a, b, i, j))| == |Equals(edits)| + Lcs(a, b, i, j)
  {
    var rest := Script(a, b, i, j);
    if rest == [] {
      assert edits + rest == edits;
    } else {
      var e, i', j' := ScriptSteps(a, b, i, j);
      WalksAppend(edits, e, a, b, i, j, i', j');
      assert edits + rest == (edits + [e]) + Script(a, b, i', j');
      ScriptWalksOn(edits + [e], a, b, i', j');
    }
  }

  lemma ScriptWalks<T>(a: seq<T>, b: seq<T>)
    ensures Walks(Script(a, b, 0, 0), a, b, 0, 0, |a|, |b|)
    ensures |Equals(Script(a, b, 0, 0))| == Lcs(a, b, 0, 0)
  {
    ScriptWalksOn([], a, b, 0, 0);
    assert [] + Script(a, b, 0, 0) == Script(a, b, 0, 0);
  }

  /** The script is optimal: no common subsequence of the two sides beats its equals. */
  lemma ScriptIsOptimal<T>(a: seq<T>, b: seq<T>, picks: seq<(nat, nat)>)
    requires Common(a, b, 0, 0, picks)
    ensures var best := Equals(Script(a, b, 0, 0));
            Common(a, b, 0, 0, best) && |picks| <= |best|
  {
    var edits := Script(a, b, 0, 0);
    ScriptWalks(a, b);
    EqualsAreCommon(edits, a, b, 0, 0, |a|, |b|);
    LcsIsUpperBound(a, b, 0, 0, picks);
  }

  ////////////////////////////////////////// changed ranges /////////////////////////////////////////////

  function Concat(lines: seq<Text>): Text {
    if lines == [] then [] else Concat(lines[..|lines| - 1]) + lines[|lines| - 1]
  }

  /** The byte offset at which line `i` begins; at the end, the content's length. */
  function Offset(lines: seq<Text>, i: nat): nat
    requires i <= |lines|
  {
    if i == 0 then 0 else Offset(lines, i - 1) + |lines[i - 1]|
  }

  lemma OffsetIsLength(lines: seq<Text>, i: nat)
    requires i <= |lines|
    ensures Offset(lines, i) == |Concat(lines[..i])|
  {
    if i > 0 {
      assert lines[..i][..i - 1] == lines[..i - 1];
      OffsetIsLength(lines, i - 1);
    }
  }

  lemma ConcatAppend(a: seq<Text>, b: seq<Text>)
    ensures Concat(a + b) == Concat(a) + Concat(b)
  {
    if b == [] {
      assert a + b == a;
    } else {
      assert (a + b)[..|a + b| - 1] == a + b[..|b| - 1];
      ConcatAppend(a, b[..|b| - 1]);
    }
  }

  lemma OffsetGrows(lines: seq<Text>, i: nat, j: nat)
    requires i <= j <= |lines|
    ensures Offset(lines, i) <= Offset(lines, j)
  {
    if i < j { OffsetGrows(lines, i, j - 1); }
  }

  /** The content is its lines, laid end to end. */
  ghost predicate Laid(content: Text, lines: seq<Text>) {
    && Offset(lines, |lines|) == |content|
    && forall i :: 0 <= i < |lines| ==> LineAt(content, lines, i)
  }

  predicate LineAt(content: Text, lines: seq<Text>, i: nat)
    requires i < |lines|
  {
    Offset(lines, i) + |lines[i]| <= |content| && content[Offset(lines, i)..Offset(lines, i) + |lines[i]|] == lines[i]
  }

  lemma ConcatIsLaid(lines: seq<Text>)
    ensures Laid(Concat(lines), lines)
  {
    OffsetIsLength(lines, |lines|);
    assert lines[..|lines|] == lines;
    forall i: nat | i < |lines| ensures LineAt(Concat(lines), lines, i) {
      OffsetIsLength(lines, i);
      OffsetIsLength(lines, i + 1);
      assert lines[..i + 1][..i] == lines[..i];
      assert lines == lines[..i + 1] + lines[i + 1..];
      ConcatAppend(lines[..i + 1], lines[i + 1..]);
    }
  }

  /** A changed region: `[oldStart, oldEnd)` of the old bytes became `[newStart, newEnd)`. */
  datatype Hunk = Hunk(oldStart: nat, oldEnd: nat, newStart: nat, newEnd: nat)

  /** The hunks ascend without overlapping on either side, and lie within the two contents. */
  ghost predicate Ascending(hunks: seq<Hunk>, oldLen: nat, newLen: nat) {
    && (forall k :: 0 <= k < |hunks| ==>
          hunks[k].oldStart <= hunks[k].oldEnd <= oldLen && hunks[k].newStart <= hunks[k].newEnd <= newLen)
    && (forall k, l :: 0 <= k < l < |hunks| ==>
          hunks[k].oldEnd <= hunks[l].oldStart && hunks[k].newEnd <= hunks[l].newStart)
  }

  function OldEnd(hunks: seq<Hunk>): nat {
    if hunks == [] then 0 else hunks[|hunks| - 1].oldEnd
  }

  function NewEnd(hunks: seq<Hunk>): nat {
    if hunks == [] then 0 else hunks[|hunks| - 1].newEnd
  }

  /** `before` up to the last hunk's end, each hunk's old bytes replaced by its new ones. */
  function SplicedHunks(before: Text, after: Text, hunks: seq<Hunk>): Text {
    if hunks == [] then []
    else
      var init, h := hunks[..|hunks| - 1], hunks[|hunks| - 1];
      SplicedHunks(before, after, init)
      + (if OldEnd(init) <= h.oldStart <= |before| then before[OldEnd(init)..h.oldStart] else [])
      + (if h.newStart <= h.newEnd <= |after| then after[h.newStart..h.newEnd] else [])
  }

  /** The whole of `before` with every hunk spliced in. */
  function SpliceAll(before: Text, after: Text, hunks: seq<Hunk>): Text {
    SplicedHunks(before, after, hunks) + if OldEnd(hunks) <= |before| then before[OldEnd(hunks)..] else []
  }

  /** The hunks so far account for everything before (`o`, `n`). */
  ghost predicate Covered(before: Text, after: Text, hunks: seq<Hunk>, o: nat, n: nat) {
    && Ascending(hunks, |before|, |after|)
    && OldEnd(hunks) <= o <= |before| && NewEnd(hunks) <= n <= |after|
    && after[..n] == SplicedHunks(before, after, hunks) + before[OldEnd(hunks)..o]
  }

  /** A common stretch extends the account. */
  lemma CoveredEqual(before: Text, after: Text, hunks: seq<Hunk>, o: nat, n: nat, len: nat)
    requires Covered(before, after, hunks, o, n)
    requires o + len <= |before| && n + len <= |after| && before[o..o + len] == after[n..n + len]
    ensures Covered(before, after, hunks, o + len, n + len)
  {
    assert after[..n + len] == after[..n] + after[n..n + len];
    assert before[OldEnd(hunks)..o + len] == before[OldEnd(hunks)..o] + before[o..o + len];
  }

  /** Closing a hunk accounts for everything up to its end. */
  lemma CoveredClose(before: Text, after: Text, hunks: seq<Hunk>, o: nat, n: nat, o': nat, n': nat)
    requires Covered(before, after, hunks, o, n) && o <= o' <= |before| && n <= n' <= |after|
    ensures Covered(before, after, hunks + [Hunk(o, o', n, n')], o', n')
  {
    var h := Hunk(o, o', n, n');
    var hunks' := hunks + [h];
    assert hunks'[..|hunks'| - 1] == hunks;
    assert after[..n'] == after[..n] + after[n..n'];
    AscendingAppend(hunks, h, |before|, |after|);
  }

  lemma AscendingAppend(hunks: seq<Hunk>, h: Hunk, oldLen: nat, newLen: nat)
    requires Ascending(hunks, oldLen, newLen)
    requires OldEnd(hunks) <= h.oldStart <= h.oldEnd <= oldLen && NewEnd(hunks) <= h.newStart <= h.newEnd <= newLen
    ensures Ascending(hunks + [h], oldLen, newLen)
  {
    var hunks' := hunks + [h];
    forall x, y | 0 <= x < y < |hunks'|
      ensures hunks'[x].oldEnd <= hunks'[y].oldStart && hunks'[x].newEnd <= hunks'[y].newStart {
      if y == |hunks| && x < |hunks| - 1 {
        assert hunks[x].oldEnd <= hunks[|hunks| - 1].oldStart && hunks[x].newEnd <= hunks[|hunks| - 1].newStart;
      }
    }
  }

  /** Where the account stands: at the open hunk's start, or where the walk has reached. */
  function Start(open: Option<(nat, nat)>, i: nat, j: nat): (nat, nat) {
    if open.Some? then open.value else (i, j)
  }

  /** The lines an edit moves past, where the walk has reached (`oi`, `ni`). */
  predicate EditsAt(e: Edit, a: seq<Text>, b: seq<Text>, oi: nat, ni: nat) {
    match e
    case Equal(o, n) => o == oi < |a| && n == ni < |b| && a[oi] == b[ni]
    case Delete(o) => o == oi < |a|
    case Insert(n) => n == ni < |b|
  }

  function Past(e: Edit, oi: nat, ni: nat): (nat, nat) {
    (if e.Insert? then oi else oi + 1, if e.Delete? then ni else ni + 1)
  }

  /** The edit at `k`, where a full walk passes through (`i`, `j`). */
  lemma WalkAt(a: seq<Text>, b: seq<Text>, edits: seq<Edit>, k: nat, i: nat, j: nat)
    requires Walks(edits, a, b, 0, 0, |a|, |b|) && k < |edits| && Walks(edits[..k], a, b, 0, 0, i, j)
    ensures i <= |a| && j <= |b|
    ensures EditsAt(edits[k], a, b, i, j)
    ensures Walks(edits[..k + 1], a, b, 0, 0, Past(edits[k], i, j).0, Past(edits[k], i, j).1)
  {
    var r := WalkPrefix(a, b, edits, |a|, |b|, k + 1);
    var i', j' := r.0, r.1;
    assert edits[..k + 1][..k] == edits[..k];
    WalkEnds(a, b, edits[..k], i, j);
    match edits[k] {
      case Equal(o, n) => WalkEnds(a, b, edits[..k], o, n);
      case Delete(o) => WalkEnds(a, b, edits[..k], o, j');
      case Insert(n) => WalkEnds(a, b, edits[..k], i', n);
    }
  }

  function Reached(edits: seq<Edit>): (nat, nat) {
    if edits == [] then (0, 0)
    else
      var (i, j) := Reached(edits[..|edits| - 1]);
      match edits[|edits| - 1]
      case Equal(_, _) => (i + 1, j + 1)
      case Delete(_) => (i + 1, j)
      case Insert(_) => (i, j + 1)
  }

  /** Where a walk ends is a matter of its edits alone. */
  lemma WalkEnds(a: seq<Text>, b: seq<Text>, edits: seq<Edit>, i: nat, j: nat)
    requires Walks(edits, a, b, 0, 0, i, j)
    ensures Reached(edits) == (i, j) && i <= |a| && j <= |b|
  {
    if edits != [] {
      var init, last := edits[..|edits| - 1], edits[|edits| - 1];
      var from := if last.Equal? then (last.old_, last.new_) else if last.Delete? then (last.old_, j)
                  else (i, last.new_);
      WalkEnds(a, b, init, from.0, from.1);
    }
  }

  lemma WalkPrefix(a: seq<Text>, b: seq<Text>, edits: seq<Edit>, i: nat, j: nat, k: nat) returns (r: (nat, nat))
    requires Walks(edits, a, b, 0, 0, i, j) && k <= |edits|
    ensures Walks(edits[..k], a, b, 0, 0, r.0, r.1)
  {
    if k == |edits| {
      assert edits[..k] == edits;
      r := (i, j);
    } else {
      var init := edits[..|edits| - 1];
      assert init[..k] == edits[..k];
      match edits[|edits| - 1] {
        case Equal(o, n) => r := WalkPrefix(a, b, init, o, n, k);
        case Delete(o) => r := WalkPrefix(a, b, init, o, j, k);
        case Insert(n) => r := WalkPrefix(a, b, init, i, n, k);
      }
    }
  }

  /** `Offset` of every line, and of the end. */
  method Offsets(lines: seq<Text>) returns (offsets: seq<nat>)
    ensures AreOffsets(offsets, lines)
  {
    offsets := [];
    var at := 0;
    for k := 0 to |lines|
      invariant |offsets| == k && at == Offset(lines, k)
      invariant forall i :: 0 <= i < k ==> offsets[i] == Offset(lines, i)
    {
      offsets := offsets + [at];
      at := at + |lines[k]|;
    }
    offsets := offsets + [at];
  }

  ///////////////////////////////////////////// stretches ///////////////////////////////////////////////

  /** Where the stretch of changes that ends at `n` begins; `n` itself after an equal line. */
  function StretchStart(edits: seq<Edit>, n: nat): (i: nat)
    requires n <= |edits|
    ensures i <= n && (i == 0 || edits[i - 1].Equal?) && forall x :: i <= x < n ==> !edits[x].Equal?
  {
    if n == 0 || edits[n - 1].Equal? then n else StretchStart(edits, n - 1)
  }

  function LineStart(lines: seq<Text>, i: nat): nat {
    Offset(lines, if i <= |lines| then i else |lines|)
  }

  /** The bytes, line boundary to line boundary, of the edits from `i` to `j`. */
  function HunkOf(edits: seq<Edit>, a: seq<Text>, b: seq<Text>, i: nat, j: nat): Hunk
    requires i <= j <= |edits|
  {
    var from, to := Reached(edits[..i]), Reached(edits[..j]);
    Hunk(LineStart(a, from.0), LineStart(a, to.0), LineStart(b, from.1), LineStart(b, to.1))
  }

  /** A hunk for each maximal stretch of changes among the first `n` edits. */
  function HunksAlong(edits: seq<Edit>, a: seq<Text>, b: seq<Text>, n: nat): seq<Hunk>
    requires n <= |edits|
  {
    if n == 0 then []
    else if edits[n - 1].Equal? then HunksAlong(edits, a, b, n - 1)
    else
      var i := StretchStart(edits, n);
      HunksAlong(edits, a, b, i) + [HunkOf(edits, a, b, i, n)]
  }

  /** The changed regions of two contents, by the script of their lines. */
  function ChangedHunks(a: seq<Text>, b: seq<Text>): seq<Hunk> {
    var edits := Script(a, b, 0, 0);
    HunksAlong(edits, a, b, |edits|)
  }

  /** Only changes from `i` to `j`, and an equal line, or an end of the script, on either side. */
  predicate Maximal(edits: seq<Edit>, n: nat, i: nat, j: nat) {
    && i < j <= n <= |edits| && (forall x :: i <= x < j ==> !edits[x].Equal?)
    && (i == 0 || edits[i - 1].Equal?) && (j == n || edits[j].Equal?)
  }

  /** Every hunk is a maximal stretch of changes. */
  lemma {:induction false} HunkIsMaximal(edits: seq<Edit>, a: seq<Text>, b: seq<Text>, n: nat, k: nat)
    returns (i: nat, j: nat)
    requires n <= |edits| && k < |HunksAlong(edits, a, b, n)|
    ensures Maximal(edits, n, i, j) && HunksAlong(edits, a, b, n)[k] == HunkOf(edits, a, b, i, j)
    decreases n
  {
    if edits[n - 1].Equal? {
      i, j := HunkIsMaximal(edits, a, b, n - 1, k);
    } else {
      var s := StretchStart(edits, n);
      if k == |HunksAlong(edits, a, b, s)| {
        i, j := s, n;
      } else {
        i, j := HunkIsMaximal(edits, a, b, s, k);
      }
    }
  }

  /** And every change lies in the stretch of some hunk. */
  lemma {:induction false} ChangeHasHunk(edits: seq<Edit>, a: seq<Text>, b: seq<Text>, n: nat, x: nat)
    returns (k: nat, i: nat, j: nat)
    requires x < n <= |edits| && !edits[x].Equal?
    ensures i <= x < j && Maximal(edits, n, i, j)
    ensures k < |HunksAlong(edits, a, b, n)| && HunksAlong(edits, a, b, n)[k] == HunkOf(edits, a, b, i, j)
    decreases n
  {
    if edits[n - 1].Equal? {
      k, i, j := ChangeHasHunk(edits, a, b, n - 1, x);
    } else {
      var s := StretchStart(edits, n);
      if s <= x {
        k, i, j := |HunksAlong(edits, a, b, s)|, s, n;
      } else {
        k, i, j := ChangeHasHunk(edits, a, b, s, x);
      }
    }
  }

  /** Where the walk stands in the script: the hunks closed are those of the stretches before the
      one still open, and that one began at `open`. */
  ghost predicate Walked(edits: seq<Edit>, a: seq<Text>, b: seq<Text>, hunks: seq<Hunk>, open: Option<(nat, nat)>,
                         k: nat)
  {
    && k <= |edits|
    && var s := StretchStart(edits, k);
       hunks == HunksAlong(edits, a, b, s) && open == if s < k then Some(Reached(edits[..s])) else None
  }

  /** Closing the open hunk, if there is one. */
  lemma WalkedClose(edits: seq<Edit>, a: seq<Text>, b: seq<Text>, hunks: seq<Hunk>, open: Option<(nat, nat)>, k: nat,
                    oi: nat, ni: nat)
    requires Walked(edits, a, b, hunks, open, k) && Reached(edits[..k]) == (oi, ni)
    ensures HunksAlong(edits, a, b, k)
         == if open.Some?
            then hunks + [Hunk(LineStart(a, open.value.0), LineStart(a, oi), LineStart(b, open.value.1),
                               LineStart(b, ni))]
            else hunks
  {
  }

  lemma WalkedMore(edits: seq<Edit>, a: seq<Text>, b: seq<Text>, hunks: seq<Hunk>, open: Option<(nat, nat)>, k: nat)
    requires Walked(edits, a, b, hunks, open, k) && k < |edits| && !edits[k].Equal?
    ensures Walked(edits, a, b, hunks, if open.Some? then open else Some(Reached(edits[..k])), k + 1)
  {
  }

  lemma WalkedEqual(edits: seq<Edit>, a: seq<Text>, b: seq<Text>, k: nat)
    requires k < |edits| && edits[k].Equal?
    ensures Walked(edits, a, b, HunksAlong(edits, a, b, k), None, k + 1)
  {
  }

  /** Where a walk of the script stands: the lines reached, the hunks closed, the one open. */
  ghost predicate Account(before: Text, after: Text, a: seq<Text>, b: seq<Text>, hunks: seq<Hunk>,
                          open: Option<(nat, nat)>, oi: nat, ni: nat)
  {
    && oi <= |a| && ni <= |b|
    && Start(open, oi, ni).0 <= oi && Start(open, oi, ni).1 <= ni
    && Covered(before, after, hunks, Offset(a, Start(open, oi, ni).0), Offset(b, Start(open, oi, ni).1))
  }

  ghost predicate AreOffsets(offsets: seq<nat>, lines: seq<Text>) {
    |offsets| == |lines| + 1 && forall i :: 0 <= i <= |lines| ==> offsets[i] == Offset(lines, i)
  }

  /** `open.take()`: close the open hunk, if there is one, at the lines reached. */
  method CloseOpen(ghost before: Text, ghost after: Text, ghost a: seq<Text>, ghost b: seq<Text>,
                   hunks: seq<Hunk>, open: Option<(nat, nat)>, oldOff: seq<nat>, newOff: seq<nat>, oi: nat, ni: nat)
    returns (closed: seq<Hunk>)
    requires AreOffsets(oldOff, a) && AreOffsets(newOff, b)
    requires Laid(before, a) && Laid(after, b) && Account(before, after, a, b, hunks, open, oi, ni)
    ensures Account(before, after, a, b, closed, None, oi, ni)
    ensures closed == if open.Some?
                      then hunks + [Hunk(LineStart(a, open.value.0), LineStart(a, oi), LineStart(b, open.value.1),
                                         LineStart(b, ni))]
                      else hunks
  {
    closed := hunks;
    if open.Some? {
      OffsetGrows(a, open.value.0, oi);
      OffsetGrows(b, open.value.1, ni);
      OffsetGrows(a, oi, |a|);
      OffsetGrows(b, ni, |b|);
      closed := hunks + [Hunk(oldOff[open.value.0], oldOff[oi], newOff[open.value.1], newOff[ni])];
      CoveredClose(before, after, hunks, oldOff[open.value.0], newOff[open.value.1], oldOff[oi], newOff[ni]);
    }
  }

  /** Two equal lines are equal stretches of the two contents. */
  lemma EqualLines(before: Text, after: Text, a: seq<Text>, b: seq<Text>, oi: nat, ni: nat, o: nat, n: nat, len: nat)
    requires Laid(before, a) && Laid(after, b) && oi < |a| && ni < |b| && a[oi] == b[ni]
    requires o == Offset(a, oi) && n == Offset(b, ni) && len == |a[oi]|
    ensures o + len <= |before| && n + len <= |after| && before[o..o + len] == after[n..n + len]
    ensures Offset(a, oi + 1) == o + len && Offset(b, ni + 1) == n + len
  {
    assert LineAt(before, a, oi) && LineAt(after, b, ni);
  }

  lemma AccountEqual(before: Text, after: Text, a: seq<Text>, b: seq<Text>, hunks: seq<Hunk>, oi: nat, ni: nat)
    requires Laid(before, a) && Laid(after, b) && Account(before, after, a, b, hunks, None, oi, ni)
    requires oi < |a| && ni < |b| && a[oi] == b[ni]
    ensures Account(before, after, a, b, hunks, None, oi + 1, ni + 1)
  {
    var o, n, len := Offset(a, oi), Offset(b, ni), |a[oi]|;
    EqualLines(before, after, a, b, oi, ni, o, n, len);
    CoveredEqual(before, after, hunks, o, n, len);
  }

  /** One edit of the script: an equal line closes the open hunk, any other opens one. */
  method TakeEdit(ghost before: Text, ghost after: Text, ghost a: seq<Text>, ghost b: seq<Text>, hunks: seq<Hunk>,
                  open: Option<(nat, nat)>, oldOff: seq<nat>, newOff: seq<nat>, oi: nat, ni: nat, edits: seq<Edit>,
                  k: nat)
    returns (hunks': seq<Hunk>, open': Option<(nat, nat)>)
    requires AreOffsets(oldOff, a) && AreOffsets(newOff, b) && Laid(before, a) && Laid(after, b)
    requires Account(before, after, a, b, hunks, open, oi, ni) && k < |edits| && EditsAt(edits[k], a, b, oi, ni)
    requires Walked(edits, a, b, hunks, open, k) && Reached(edits[..k]) == (oi, ni)
    ensures Account(before, after, a, b, hunks', open', Past(edits[k], oi, ni).0, Past(edits[k], oi, ni).1)
    ensures Walked(edits, a, b, hunks', open', k + 1)
  {
    if edits[k].Equal? {
      hunks' := CloseOpen(before, after, a, b, hunks, open, oldOff, newOff, oi, ni);
      open' := None;
      AccountEqual(before, after, a, b, hunks', oi, ni);
      WalkedClose(edits, a, b, hunks, open, k, oi, ni);
      WalkedEqual(edits, a, b, k);
    } else {
      hunks', open' := hunks, Some(if open.Some? then open.value else (oi, ni));
      WalkedMore(edits, a, b, hunks, open, k);
    }
  }

  /** The changed regions of two contents given as lines: a hunk, line boundary to line boundary,
      for each maximal stretch of changes in their script.  Outside them the two agree, so
      splicing every region into the old content gives the new one. */
  method ChangedRanges(a: seq<Text>, b: seq<Text>) returns (hunks: seq<Hunk>)
    ensures hunks == ChangedHunks(a, b)
    ensures Ascending(hunks, |Concat(a)|, |Concat(b)|)
    ensures SpliceAll(Concat(a), Concat(b), hunks) == Concat(b)
  {
    ConcatIsLaid(a);
    ConcatIsLaid(b);
    var edits := LcsEdits(a, b);
    ScriptWalks(a, b);
    hunks := RangesOf(Concat(a), Concat(b), a, b, edits);
  }

  method RangesOf(ghost before: Text, ghost after: Text, a: seq<Text>, b: seq<Text>, edits: seq<Edit>)
    returns (hunks: seq<Hunk>)
    requires Laid(before, a) && Laid(after, b) && Walks(edits, a, b, 0, 0, |a|, |b|)
    ensures Ascending(hunks, |before|, |after|) && SpliceAll(before, after, hunks) == after
    ensures hunks == HunksAlong(edits, a, b, |edits|)
  {
    var oldOff := Offsets(a);
    var newOff := Offsets(b);
    hunks := [];
    var open: Option<(nat, nat)> := None;
    var oi, ni := 0, 0;
    assert edits[..0] == [];
    for k := 0 to |edits|
      invariant Walks(edits[..k], a, b, 0, 0, oi, ni)
      invariant Account(before, after, a, b, hunks, open, oi, ni)
      invariant Walked(edits, a, b, hunks, open, k)
    {
      WalkAt(a, b, edits, k, oi, ni);
      WalkEnds(a, b, edits[..k], oi, ni);
      hunks, open := TakeEdit(before, after, a, b, hunks, open, oldOff, newOff, oi, ni, edits, k);
      oi, ni := Past(edits[k], oi, ni).0, Past(edits[k], oi, ni).1;
    }
    assert edits[..|edits|] == edits;
    WalkedThrough(a, b, edits, oi, ni);
    WalkEnds(a, b, edits, oi, ni);
    WalkedClose(edits, a, b, hunks, open, |edits|, oi, ni);
    hunks := CloseOpen(before, after, a, b, hunks, open, oldOff, newOff, oi, ni);
    WholeSplice(before, after, a, b, hunks);
  }

  lemma WalkedThrough(a: seq<Text>, b: seq<Text>, edits: seq<Edit>, i: nat, j: nat)
    requires Walks(edits, a, b, 0, 0, |a|, |b|) && Walks(edits, a, b, 0, 0, i, j)
    ensures i == |a| && j == |b|
  {
    WalkEnds(a, b, edits, i, j);
    WalkEnds(a, b, edits, |a|, |b|);
  }

  lemma WholeSplice(before: Text, after: Text, a: seq<Text>, b: seq<Text>, hunks: seq<Hunk>)
    requires Laid(before, a) && Laid(after, b) && Account(before, after, a, b, hunks, None, |a|, |b|)
    ensures Ascending(hunks, |before|, |after|) && SpliceAll(before, after, hunks) == after
  {
    assert after[..|after|] == after;
    assert before[OldEnd(hunks)..|before|] == before[OldEnd(hunks)..];
  }
}
