/** Cutting and joining UTF-8 text (section 4 of RFC 3629), where the code slices strings. */
module Utf8 {
  import opened Spans
  import opened Lines

  /** `str::is_char_boundary` for an offset within the text. */
  predicate Boundary(t: Text, i: nat)
    requires i <= |t|
  {
    i == 0 || i == |t| || !Tail(t[i])
  }

  lemma InsideIsTail(t: Text, k: nat, i: nat)
    requires k <= |t| && k < i < k + CharLen(t, k)
    ensures Tail(t[i])
  {
  }

  /** Whole characters from an offset are whole characters of the rest. */
  lemma {:induction false} FromIsRest(t: Text, i: nat, k: nat)
    requires i + k <= |t|
    ensures Utf8From(t, i + k) == Utf8From(t[i..], k)
    decreases |t| - i - k
  {
    if i + k < |t| {
      assert CharLen(t, i + k) == CharLen(t[i..], k);
      if CharLen(t, i + k) > 0 { FromIsRest(t, i, k + CharLen(t, i + k)); }
    }
  }

  lemma {:induction false} SplitFrom(t: Text, k: nat, i: nat)
    requires k <= i <= |t| && Utf8From(t, k) && Boundary(t, i)
    ensures Utf8From(t[..i], k) && Utf8From(t, i)
    decreases i - k
  {
    if k < i {
      var n := CharLen(t, k);
      if k + n > i { InsideIsTail(t, k, i); }
      assert k + n <= i;
      assert CharLen(t[..i], k) == n;
      SplitFrom(t, k + n, i);
    }
  }

  /** At a boundary, text splits into text. */
  lemma SplitAt(t: Text, i: nat)
    requires IsUtf8(t) && i <= |t| && Boundary(t, i)
    ensures IsUtf8(t[..i]) && IsUtf8(t[i..])
  {
    SplitFrom(t, 0, i);
    FromIsRest(t, i, 0);
  }

  lemma {:induction false} JoinFrom(a: Text, b: Text, k: nat)
    requires k <= |a| && Utf8From(a, k) && Utf8From(a + b, |a|)
    ensures Utf8From(a + b, k)
    decreases |a| - k
  {
    if k < |a| {
      assert CharLen(a + b, k) == CharLen(a, k);
      JoinFrom(a, b, k + CharLen(a, k));
    }
  }

  lemma JoinText(a: Text, b: Text)
    requires IsUtf8(a) && IsUtf8(b)
    ensures IsUtf8(a + b)
  {
    assert (a + b)[|a|..] == b;
    FromIsRest(a + b, |a|, 0);
    JoinFrom(a, b, 0);
  }

  lemma {:induction false} RemainderFrom(a: Text, b: Text, k: nat)
    requires k <= |a| && Utf8From(a, k) && Utf8From(a + b, k)
    ensures Utf8From(a + b, |a|)
    decreases |a| - k
  {
    if k < |a| {
      assert CharLen(a + b, k) == CharLen(a, k);
      RemainderFrom(a, b, k + CharLen(a, k));
    }
  }

  /** What follows text within text is text. */
  lemma Remainder(a: Text, b: Text)
    requires IsUtf8(a) && IsUtf8(a + b)
    ensures IsUtf8(b)
  {
    RemainderFrom(a, b, 0);
    FromIsRest(a + b, |a|, 0);
    assert (a + b)[|a|..] == b;
  }

  lemma StartsWithHead(t: Text)
    requires IsUtf8(t) && t != []
    ensures !Tail(t[0])
  {
  }

  /** Two texts that share bytes up to a boundary of one share the boundary. */
  lemma SharedBoundary(a: Text, b: Text, i: nat)
    requires IsUtf8(a) && IsUtf8(b) && i <= |a| && i <= |b| && a[..i] == b[..i] && Boundary(a, i)
    ensures Boundary(b, i)
  {
    SplitAt(a, i);
    assert b == b[..i] + b[i..];
    Remainder(b[..i], b[i..]);
    if i < |b| { StartsWithHead(b[i..]); }
  }

  /** Both sides of an ASCII byte are boundaries. */
  lemma AroundAscii(t: Text, i: nat)
    requires IsUtf8(t) && i < |t| && t[i] <= 0x7F
    ensures Boundary(t, i) && Boundary(t, i + 1)
  {
    SplitFrom(t, 0, i);
    assert CharLen(t, i) == 1;
    FromIsRest(t, i + 1, 0);
    if i + 1 < |t| { StartsWithHead(t[i + 1..]); }
  }

  /** An occurrence of text in text starts and ends at boundaries. */
  lemma OccurrenceBounds(t: Text, needle: Text, at: nat)
    requires IsUtf8(t) && IsUtf8(needle) && needle != [] && OccursAt(t, needle, at)
    ensures Boundary(t, at) && Boundary(t, at + |needle|)
  {
    StartsWithHead(needle);
    assert t[at] == t[at..at + |needle|][0];
    SplitAt(t, at);
    var rest := t[at + |needle|..];
    assert t[at..] == needle + rest;
    Remainder(needle, rest);
    if rest != [] { StartsWithHead(rest); }
  }

  lemma BoundaryOfRest(t: Text, i: nat, j: nat)
    requires i <= j <= |t| && Boundary(t, j)
    ensures Boundary(t[i..], j - i) && t[i..][..j - i] == t[i..j]
  {
  }

  /** A slice between boundaries is text. */
  lemma SliceIsText(t: Text, i: nat, j: nat)
    requires IsUtf8(t) && i <= j <= |t| && Boundary(t, i) && Boundary(t, j)
    ensures IsUtf8(t[i..j])
  {
    BoundaryOfRest(t, i, j);
    SplitAt(t, i);
    SplitAt(t[i..], j - i);
  }
}
