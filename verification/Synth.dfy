/** Intents from differences (src/diff.rs): span edits widened until unique, and the intent that
    replays a set of path changes. */
module Synth {
  import opened Wrappers
  import opened Spans
  import opened Patch
  import opened Lines
  import opened Utf8

  /** A whole occurs in itself once. */
  lemma WholeIsUnique(t: Text)
    requires t != []
    ensures CountOccurrences(t, t) == 1 && UniqueAt(t, t, 0)
  {
    assert UniqueAt(t, t, 0);
    FindUniqueSpec(t, t);
  }

  lemma CountedOnce(t: Text, needle: Text, at: nat)
    requires CountOccurrences(t, needle) == 1 && OccursAt(t, needle, at)
    ensures UniqueAt(t, needle, at) && FindUnique(t, needle) == Ok(at)
  {
    FindUniqueSpec(t, needle);
  }

  /** What is common on both sides of a changed region, cut at character boundaries. */
  ghost predicate Framed(before: Text, after: Text, p: nat, s: nat) {
    && p + s <= |before| && p + s <= |after|
    && before[..p] == after[..p] && before[|before| - s..] == after[|after| - s..]
    && Boundary(before, p) && Boundary(before, |before| - s)
  }

  lemma OldSpanIsText(before: Text, after: Text, p: nat, s: nat)
    requires IsUtf8(before) && Framed(before, after, p, s)
    ensures IsUtf8(before[p..|before| - s])
  {
    SliceIsText(before, p, |before| - s);
  }

  lemma NewSpanIsText(before: Text, after: Text, p: nat, s: nat)
    requires IsUtf8(before) && IsUtf8(after) && Framed(before, after, p, s)
    ensures IsUtf8(after[p..|after| - s])
  {
    NewBoundaries(before, after, p, s);
    SliceIsText(after, p, |after| - s);
  }

  lemma NewBoundaries(before: Text, after: Text, p: nat, s: nat)
    requires IsUtf8(before) && IsUtf8(after) && Framed(before, after, p, s)
    ensures Boundary(after, p) && Boundary(after, |after| - s)
  {
    SharedBoundary(before, after, p);
    SuffixBoundary(before, after, s);
  }

  /** The suffix bytes are the same in both, so one check covers both sides. */
  lemma SuffixBoundary(before: Text, after: Text, s: nat)
    requires IsUtf8(before) && s <= |before| && s <= |after| && before[|before| - s..] == after[|after| - s..]
    requires Boundary(before, |before| - s)
    ensures Boundary(after, |after| - s)
  {
    if s > 0 {
      assert before[|before| - s] == before[|before| - s..][0] == after[|after| - s..][0] == after[|after| - s];
      StartsWithHead(before);
    }
  }

  /** Replacing a frame's unique middle turns one text into the other. */
  lemma FrameReplaces(before: Text, after: Text, p: nat, s: nat)
    requires Framed(before, after, p, s) && CountOccurrences(before, before[p..|before| - s]) == 1
    ensures ReplaceUnique(before, before[p..|before| - s], after[p..|after| - s]) == Ok(after)
  {
    var span := before[p..|before| - s];
    CountedOnce(before, span, p);
    assert before[p + |span|..] == before[|before| - s..];
    assert after == after[..p] + after[p..|after| - s] + after[|after| - s..];
  }

  /** A span edit: text, unique where it is replaced, and replacing to exactly the new text. */
  ghost predicate IsSpanEdit(before: Text, after: Text, oldStr: Text, newStr: Text) {
    && IsUtf8(oldStr) && IsUtf8(newStr)
    && (exists at :: UniqueAt(before, oldStr, at))
    && ReplaceUnique(before, oldStr, newStr) == Ok(after)
  }

  lemma FrameIsEdit(before: Text, after: Text, p: nat, s: nat)
    requires IsUtf8(before) && IsUtf8(after) && Framed(before, after, p, s)
    requires CountOccurrences(before, before[p..|before| - s]) == 1
    ensures IsSpanEdit(before, after, before[p..|before| - s], after[p..|after| - s])
  {
    OldSpanIsText(before, after, p, s);
    NewSpanIsText(before, after, p, s);
    FrameReplaces(before, after, p, s);
    CountedOnce(before, before[p..|before| - s], p);
  }

  method CommonPrefix(a: Text, b: Text) returns (n: nat)
    ensures n <= |a| && n <= |b| && a[..n] == b[..n]
    ensures n == |a| || n == |b| || a[n] != b[n]
  {
    n := 0;
    while n < |a| && n < |b| && a[n] == b[n]
      invariant n <= |a| && n <= |b| && a[..n] == b[..n]
    {
      n := n + 1;
    }
  }

  predicate SuffixEnds(a: Text, b: Text, n: nat)
    requires n <= |a| && n <= |b|
  {
    n == |a| || n == |b| || a[|a| - n - 1] != b[|b| - n - 1]
  }

  method CommonSuffix(a: Text, b: Text) returns (n: nat)
    ensures n <= |a| && n <= |b| && a[|a| - n..] == b[|b| - n..]
    ensures SuffixEnds(a, b, n)
  {
    n := 0;
    while n < |a| && n < |b| && a[|a| - n - 1] == b[|b| - n - 1]
      invariant n <= |a| && n <= |b| && a[|a| - n..] == b[|b| - n..]
    {
      assert a[|a| - n - 1..] == [a[|a| - n - 1]] + a[|a| - n..];
      assert b[|b| - n - 1..] == [b[|b| - n - 1]] + b[|b| - n..];
      n := n + 1;
    }
  }

  /** Back to the nearest boundary at or below an offset. */
  method FloorBoundary(t: Text, i: nat) returns (p: nat)
    requires i <= |t|
    ensures p <= i && Boundary(t, p)
  {
    p := i;
    while !Boundary(t, p)
      invariant p <= i
      decreases p
    {
      p := p - 1;
    }
  }

  /** Forward from a suffix to the nearest boundary: fewer bytes of it. */
  method ShrinkSuffix(t: Text, n: nat) returns (s: nat)
    requires n <= |t|
    ensures s <= n && Boundary(t, |t| - s)
  {
    s := n;
    while s > 0 && !Boundary(t, |t| - s)
      invariant s <= n
    {
      s := s - 1;
    }
  }

  lemma SmallerFrame(before: Text, after: Text, p: nat, s: nat, p': nat, s': nat)
    requires p + s <= |before| && p + s <= |after| && p' <= p && s' <= s
    requires before[..p] == after[..p] && before[|before| - s..] == after[|after| - s..]
    requires Boundary(before, p') && Boundary(before, |before| - s')
    ensures Framed(before, after, p', s')
  {
    assert before[..p'] == before[..p][..p'];
    assert after[..p'] == after[..p][..p'];
    assert before[|before| - s'..] == before[|before| - s..][s - s'..];
    assert after[|after| - s'..] == after[|after| - s..][s - s'..];
  }

  lemma TailOfTail(t: Text, p: nat, n: nat)
    requires p + n <= |t|
    ensures t[p..][|t[p..]| - n..] == t[|t| - n..]
  {
  }

  lemma RegionFramed(before: Text, after: Text, prefix: nat, p: nat, suffix: nat, s: nat)
    requires p <= prefix <= |before| && prefix <= |after| && before[..prefix] == after[..prefix]
    requires suffix <= |before| - p && suffix <= |after| - p
    requires before[p..][|before[p..]| - suffix..] == after[p..][|after[p..]| - suffix..]
    requires s <= suffix && Boundary(before, p) && Boundary(before, |before| - s)
    ensures Framed(before, after, p, s)
  {
    TailOfTail(before, p, suffix);
    TailOfTail(after, p, suffix);
    assert before[..p] == before[..prefix][..p] && after[..p] == after[..prefix][..p];
    SmallerFrame(before, after, p, suffix, p, s);
  }

  /** The changed region: the common prefix and suffix stripped, on boundaries, not overlapping. */
  method ChangedRegion(before: Text, after: Text) returns (p: nat, s: nat)
    ensures Framed(before, after, p, s)
  {
    var prefix := CommonPrefix(before, after);
    p := FloorBoundary(before, prefix);
    var suffix := CommonSuffix(before[p..], after[p..]);
    s := ShrinkSuffix(before, suffix);
    RegionFramed(before, after, prefix, p, suffix, s);
  }

  /** One more character on each side that has one left. */
  method Widen(before: Text, after: Text, p: nat, s: nat) returns (p': nat, s': nat)
    requires Framed(before, after, p, s) && before != []
    requires before[p..|before| - s] == [] || CountOccurrences(before, before[p..|before| - s]) != 1
    ensures Framed(before, after, p', s') && p' + s' < p + s
  {
    if p == 0 && s == 0 {
      assert before[0..|before|] == before;
      WholeIsUnique(before);
    }
    p', s' := p, s;
    if p > 0 { p' := FloorBoundary(before, p - 1); }
    if s > 0 { s' := ShrinkSuffix(before, s - 1); }
    SmallerFrame(before, after, p, s, p', s');
  }

  /** The span edit taking one text to another: unique in the old text, replacing to the new.
      Widening terminates because the whole is unique in itself. */
  method SynthesizeEdit(before: Text, after: Text) returns (r: Option<(Text, Text)>)
    ensures r.None? <==> !IsUtf8(before) || !IsUtf8(after) || before == []
    ensures r.Some? ==> IsSpanEdit(before, after, r.value.0, r.value.1)
  {
    if !IsUtf8(before) || !IsUtf8(after) || before == [] { return None; }
    var p: nat, s: nat := ChangedRegion(before, after);
    while before[p..|before| - s] == [] || CountOccurrences(before, before[p..|before| - s]) != 1
      invariant Framed(before, after, p, s)
      decreases p + s
    {
      p, s := Widen(before, after, p, s);
    }
    FrameIsEdit(before, after, p, s);
    r := Some((before[p..|before| - s], after[p..|after| - s]));
  }
}
