/** Spans of bytes: occurrences, the uniqueness precondition of an edit, and the
    one span operation every replay shares (src/patch.rs). */
module Spans {
  import opened Wrappers

  newtype Byte = b: int | 0 <= b < 256

  type Text = seq<Byte>

  const LF: Byte := 10

  predicate OccursAt(hay: Text, needle: Text, i: int) {
    0 <= i <= |hay| - |needle| && hay[i..i + |needle|] == needle
  }

  /** What an edit demands: `needle` is non-empty and `at` is its one occurrence. */
  ghost predicate UniqueAt(hay: Text, needle: Text, at: int) {
    && needle != []
    && OccursAt(hay, needle, at)
    && forall j :: OccursAt(hay, needle, j) ==> j == at
  }

  function Splice(t: Text, at: nat, len: nat, with: Text): (r: Text)
    requires at + len <= |t|
    ensures |r| == |t| - len + |with|
  {
    t[..at] + with + t[at + len..]
  }

  /** The starting positions at or after `from` where `needle` occurs, overlaps included. */
  function Hits(hay: Text, needle: Text, from: nat): seq<nat>
    requires |needle| <= |hay|
    decreases |hay| - from
  {
    if from + |needle| > |hay| then []
    else if OccursAt(hay, needle, from) then [from] + Hits(hay, needle, from + 1)
    else Hits(hay, needle, from + 1)
  }

  lemma HitsAre(hay: Text, needle: Text, from: nat)
    requires |needle| <= |hay|
    decreases |hay| - from
    ensures forall i :: i in Hits(hay, needle, from) <==> from <= i && OccursAt(hay, needle, i)
    ensures forall a, b :: 0 <= a < b < |Hits(hay, needle, from)| ==>
        Hits(hay, needle, from)[a] < Hits(hay, needle, from)[b]
  {
    if from + |needle| <= |hay| {
      HitsAre(hay, needle, from + 1);
      var rest := Hits(hay, needle, from + 1);
      assert forall k :: 0 <= k < |rest| ==> rest[k] in rest;
    }
  }

  function CountOccurrences(hay: Text, needle: Text): nat {
    if needle == [] || |needle| > |hay| then 0 else |Hits(hay, needle, 0)|
  }

  /** Where `needle` is, if it is in one place; else in how many. */
  function FindUnique(hay: Text, needle: Text): (r: Result<nat, nat>)
    ensures r.Ok? ==> UniqueAt(hay, needle, r.value)
  {
    if needle == [] || |needle| > |hay| then Err(0)
    else
      var hits := Hits(hay, needle, 0);
      if |hits| == 1 then HitsAre(hay, needle, 0); assert hits[0] in hits; Ok(hits[0])
      else Err(|hits|)
  }

  /** A unique occurrence is found. */
  lemma UniqueIsFound(hay: Text, needle: Text, i: int)
    requires UniqueAt(hay, needle, i)
    ensures FindUnique(hay, needle) == Ok(i)
  {
    var hits := Hits(hay, needle, 0);
    HitsAre(hay, needle, 0);
    assert forall k :: 0 <= k < |hits| ==> hits[k] in hits;
    assert i in hits;
    assert hits[0] == hits[|hits| - 1] == i;
  }

  /** The search succeeds exactly when there is one occurrence; else it reports the count. */
  lemma FindUniqueSpec(hay: Text, needle: Text)
    ensures FindUnique(hay, needle).Ok? <==> CountOccurrences(hay, needle) == 1
    ensures FindUnique(hay, needle).Ok? <==> exists i :: UniqueAt(hay, needle, i)
    ensures FindUnique(hay, needle).Err? ==> FindUnique(hay, needle).error == CountOccurrences(hay, needle)
  {
    if i :| UniqueAt(hay, needle, i) { UniqueIsFound(hay, needle, i); }
  }

  function ReplaceUnique(content: Text, oldStr: Text, newStr: Text): Result<Text, nat> {
    match FindUnique(content, oldStr)
    case Ok(at) => Ok(Splice(content, at, |oldStr|, newStr))
    case Err(n) => Err(n)
  }
}
