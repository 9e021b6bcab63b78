/** Contents as UTF-8 text and as lines (src/diff.rs, `split_keep_lines`; UTF-8 as section 4
    of RFC 3629 defines it). */
module Lines {
  import opened Wrappers
  import opened Spans
  import opened Diff

  predicate Tail(b: Byte) {
    0x80 <= b <= 0xBF
  }

  /** The length of the character at `i`, or 0 when no well-formed one begins there. */
  function CharLen(t: Text, i: nat): (n: nat)
    requires i <= |t|
    ensures n <= 4 && i + n <= |t|
  {
    if i == |t| then 0
    else if t[i] <= 0x7F then 1
    else if 0xC2 <= t[i] <= 0xDF then if i + 2 <= |t| && Tail(t[i + 1]) then 2 else 0
    else if 0xE0 <= t[i] <= 0xEF then
      if i + 3 <= |t| && Tail(t[i + 1]) && Tail(t[i + 2])
         && (t[i] == 0xE0 ==> t[i + 1] >= 0xA0) && (t[i] == 0xED ==> t[i + 1] <= 0x9F) then 3 else 0
    else if 0xF0 <= t[i] <= 0xF4 then
      if i + 4 <= |t| && Tail(t[i + 1]) && Tail(t[i + 2]) && Tail(t[i + 3])
         && (t[i] == 0xF0 ==> t[i + 1] >= 0x90) && (t[i] == 0xF4 ==> t[i + 1] <= 0x8F) then 4 else 0
    else 0
  }

  /** From `i` on, the text is whole characters. */
  predicate Utf8From(t: Text, i: nat)
    requires i <= |t|
    decreases |t| - i
  {
    i == |t| || (CharLen(t, i) > 0 && Utf8From(t, i + CharLen(t, i)))
  }

  predicate IsUtf8(t: Text) {
    Utf8From(t, 0)
  }

  /** Each line keeps its terminator; a last line may lack one. */
  function SplitKeepLines(t: Text): seq<Text> {
    if t == [] then []
    else
      var n := FirstLf(t);
      [t[..n]] + SplitKeepLines(t[n..])
  }

  /** The length of the first line, terminator included. */
  function FirstLf(t: Text): (n: nat)
    requires t != []
    ensures 0 < n <= |t|
    ensures n < |t| ==> t[n - 1] == LF
    ensures forall k :: 0 <= k < n - 1 ==> t[k] != LF
  {
    if t[0] == LF || |t| == 1 then 1 else FirstLf(t[1..]) + 1
  }

  lemma ConcatCons(head: Text, lines: seq<Text>)
    ensures Concat([head] + lines) == head + Concat(lines)
  {
    ConcatAppend([head], lines);
    assert [head][..0] == [];
  }

  /** Splitting loses nothing. */
  lemma {:induction false} SplitConcat(t: Text)
    ensures Concat(SplitKeepLines(t)) == t
  {
    if t != [] {
      var n := FirstLf(t);
      SplitConcat(t[n..]);
      ConcatCons(t[..n], SplitKeepLines(t[n..]));
    }
  }

  /** How many line feeds `t` holds. */
  function LfCount(t: Text): nat {
    if t == [] then 0 else LfCount(t[..|t| - 1]) + if t[|t| - 1] == LF then 1 else 0
  }

  lemma LfCountAppend(a: Text, b: Text)
    ensures LfCount(a + b) == LfCount(a) + LfCount(b)
  {
    if b == [] {
      assert a + b == a;
    } else {
      assert (a + b)[..|a + b| - 1] == a + b[..|b| - 1];
      LfCountAppend(a, b[..|b| - 1]);
    }
  }

  lemma NoLf(t: Text)
    requires forall k :: 0 <= k < |t| ==> t[k] != LF
    ensures LfCount(t) == 0
  {
    if t != [] { NoLf(t[..|t| - 1]); }
  }

  lemma FirstLineLfs(t: Text, k: nat)
    requires t != [] && k <= FirstLf(t)
    ensures LfCount(t[..k]) == if k == FirstLf(t) && t[k - 1] == LF then 1 else 0
  {
    if k > 0 {
      assert t[..k][..k - 1] == t[..k - 1];
      NoLf(t[..k - 1]);
    }
  }

  lemma OffsetCons(head: Text, lines: seq<Text>, i: nat)
    requires i <= |lines|
    ensures Offset([head] + lines, i + 1) == |head| + Offset(lines, i)
  {
    if i > 0 { OffsetCons(head, lines, i - 1); }
    else { assert Offset([head] + lines, 1) == Offset([head] + lines, 0) + |([head] + lines)[0]|; }
  }

  /** The line feeds before an offset number the line that holds it. */
  lemma {:induction false} LineOfOffset(t: Text, x: nat)
    requires x < |t|
    ensures var lines, i := SplitKeepLines(t), LfCount(t[..x]);
            i < |lines| && Offset(lines, i) <= x < Offset(lines, i + 1)
  {
    var n := FirstLf(t);
    var rest := SplitKeepLines(t[n..]);
    assert SplitKeepLines(t) == [t[..n]] + rest;
    OffsetCons(t[..n], rest, 0);
    if x < n {
      FirstLineLfs(t, x);
    } else {
      LineOfOffset(t[n..], x - n);
      assert t[..x] == t[..n] + t[n..][..x - n];
      LfCountAppend(t[..n], t[n..][..x - n]);
      FirstLineLfs(t, n);
      var i := LfCount(t[n..][..x - n]);
      OffsetCons(t[..n], rest, i);
      OffsetCons(t[..n], rest, i + 1);
    }
  }

  /** How many lines there are, counted by terminators, with one more where the last has none. */
  lemma {:induction false} LineCount(t: Text)
    ensures |SplitKeepLines(t)| == LfCount(t) + if t != [] && t[|t| - 1] != LF then 1 else 0
  {
    if t != [] {
      var n := FirstLf(t);
      LineCount(t[n..]);
      FirstLineLfs(t, n);
      assert t == t[..n] + t[n..];
      LfCountAppend(t[..n], t[n..]);
    }
  }

  /** The regions in which two contents differ, by the script of their lines. */
  function HunksBetween(before: Text, after: Text): Option<seq<Hunk>> {
    if IsUtf8(before) && IsUtf8(after) then Some(ChangedHunks(SplitKeepLines(before), SplitKeepLines(after))) else None
  }

  /** The changed regions of two contents, where both are text: outside them the two agree, so
      putting every region in place of the old bytes gives the new content. */
  method ChangedRegions(before: Text, after: Text) returns (r: Option<seq<Hunk>>)
    ensures r == HunksBetween(before, after)
    ensures r.Some? ==> Ascending(r.value, |before|, |after|) && SpliceAll(before, after, r.value) == after
  {
    if !IsUtf8(before) || !IsUtf8(after) { return None; }
    SplitConcat(before);
    SplitConcat(after);
    var hunks := ChangedRanges(SplitKeepLines(before), SplitKeepLines(after));
    r := Some(hunks);
  }
}
