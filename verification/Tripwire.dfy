/** The read/write tripwire (src/union.rs): whether a read still stands against the blob the
    target holds now. */
module Tripwire {
  import opened Wrappers
  import opened Spans
  import opened Patch
  import opened Diff
  import opened Lines

  /** One read record: the path read, the blob read, and the spans observed in it.  A record
      with no path covers the whole state. */
  datatype Read = Everywhere | Scoped(path: Path, blob: Option<Text>, spans: Option<seq<Option<Text>>>)

  /** A line's read set: unobserved, spilled to a blob, or inline. */
  datatype Reads = Unobserved | Spilled | Observed(records: seq<Read>)

  /** The old lines the script deletes: those a change touched. */
  function Deleted(edits: seq<Edit>): set<nat> {
    if edits == [] then {}
    else
      var last := edits[|edits| - 1];
      Deleted(edits[..|edits| - 1]) + if last.Delete? then {last.old_} else {}
  }

  /** The old lines a diff deletes, where both contents are text. */
  function ChangedOldLines(before: Text, after: Text): Option<set<nat>> {
    if IsUtf8(before) && IsUtf8(after)
    then Some(Deleted(Script(SplitKeepLines(before), SplitKeepLines(after), 0, 0))) else None
  }

  /** A walked old line is either deleted or one side of an equal. */
  lemma DeletedOrEqual<T>(edits: seq<Edit>, a: seq<T>, b: seq<T>, i: nat, j: nat, l: nat) returns (k: nat)
    requires Walks(edits, a, b, 0, 0, i, j) && l < i && l !in Deleted(edits)
    ensures k < |Equals(edits)| && Equals(edits)[k].0 == l
  {
    var init := edits[..|edits| - 1];
    match edits[|edits| - 1] {
      case Equal(o, n) =>
        if o == l { k := |Equals(init)|; } else { k := DeletedOrEqual(init, a, b, o, n, l); }
      case Delete(o) => k := DeletedOrEqual(init, a, b, o, j, l);
      case Insert(n) => k := DeletedOrEqual(init, a, b, i, n, l);
    }
  }

  //////////////////////////////////////////////// spans ////////////////////////////////////////////////

  const LETTER_L: Byte := 76
  const HYPHEN: Byte := 45
  const PLUS: Byte := 43
  const USIZE_MAX: nat := 0xFFFF_FFFF_FFFF_FFFF

  predicate Digit(b: Byte) {
    48 <= b <= 57
  }

  /** Decimal digits, left to right; `None` on any other byte, or past the word size. */
  function Digits(t: Text): Option<nat> {
    if t == [] then Some(0)
    else
      var init := Digits(t[..|t| - 1]);
      if init.None? || !Digit(t[|t| - 1]) then None
      else
        var n := init.value * 10 + (t[|t| - 1] as nat - 48);
        if n <= USIZE_MAX then Some(n) else None
  }

  /** `str::parse::<usize>`: one optional plus sign, then at least one digit. */
  function ParseUsize(t: Text): Option<nat> {
    var digits := if t != [] && t[0] == PLUS then t[1..] else t;
    if digits == [] then None else Digits(digits)
  }

  function FirstHyphen(t: Text): Option<nat> {
    if t == [] then None
    else if t[0] == HYPHEN then Some(0)
    else match FirstHyphen(t[1..])
      case None => None
      case Some(k) => Some(k + 1)
  }

  lemma FirstHyphenInside(t: Text)
    ensures FirstHyphen(t).Some? ==> FirstHyphen(t).value < |t|
  {
    if t != [] && t[0] != HYPHEN { FirstHyphenInside(t[1..]); }
  }

  /** `L<start>-<end>`, both 1-based and inclusive; anything else is not a line span. */
  function ParseLineSpan(needle: Text): Option<(nat, nat)> {
    if !IsUtf8(needle) || needle == [] || needle[0] != LETTER_L then None
    else
      var text := needle[1..];
      FirstHyphenInside(text);
      match FirstHyphen(text)
      case None => None
      case Some(k) =>
        match (ParseUsize(text[..k]), ParseUsize(text[k + 1..]))
        case (Some(start), Some(end)) => if start >= 1 && end >= 1 then Some((start, end)) else None
        case _ => None
  }

  function Min(x: nat, y: nat): nat {
    if x <= y then x else y
  }

  /** The first and last line a quoted span touches, where it occurs exactly once. */
  function SpanLineRange(blob: Text, needle: Text): Option<(nat, nat)> {
    match ParseLineSpan(needle)
    case Some((start, end)) =>
      var nlines := LfCount(blob) + if blob != [] && blob[|blob| - 1] != LF then 1 else 0;
      if nlines == 0 || start > nlines || start > end || end == 0 || start == 0 then None
      else Some((start - 1, Min(end, nlines) - 1))
    case None =>
      match FindUnique(blob, needle)
      case Err(_) => None
      case Ok(at) => Some((LfCount(blob[..at]), LfCount(blob[..at + |needle| - 1])))
  }

  lemma OccurrenceLines(blob: Text, at: nat, last: nat)
    requires at <= last < |blob|
    ensures var lines, lo, hi := SplitKeepLines(blob), LfCount(blob[..at]), LfCount(blob[..last]);
            lo <= hi < |lines| && Offset(lines, lo) <= at && last < Offset(lines, hi + 1)
  {
    LineOfOffset(blob, at);
    LineOfOffset(blob, last);
    assert blob[..last] == blob[..at] + blob[at..last];
    LfCountAppend(blob[..at], blob[at..last]);
  }

  /** A located span names lines that exist, in order; and where it is literal text, every
      byte of its one occurrence lies in them. */
  lemma SpanIsLocated(blob: Text, needle: Text)
    requires SpanLineRange(blob, needle).Some?
    ensures var (lo, hi) := SpanLineRange(blob, needle).value;
            lo <= hi < |SplitKeepLines(blob)|
    ensures ParseLineSpan(needle).None? ==>
              var (lo, hi) := SpanLineRange(blob, needle).value;
              var lines := SplitKeepLines(blob);
              exists at :: UniqueAt(blob, needle, at) && hi < |lines|
                && Offset(lines, lo) <= at && at + |needle| <= Offset(lines, hi + 1)
  {
    LineCount(blob);
    if ParseLineSpan(needle).None? {
      var at := FindUnique(blob, needle).value;
      var last := at + |needle| - 1;
      assert UniqueAt(blob, needle, at);
      OccurrenceLines(blob, at, last);
    }
  }

  ////////////////////////////////////////////// staleness //////////////////////////////////////////////

  /** Whether one observed span covers a changed line, or cannot be located. */
  predicate SpanIsStale(blob: Text, span: Option<Text>, changed: set<nat>) {
    match span
    case None => true
    case Some(text) =>
      match SpanLineRange(blob, text)
      case None => true
      case Some((lo, hi)) => exists l: nat :: lo <= l <= hi && l in changed
  }

  /** The lines the reader's own side changed after reading, where they can be resolved. */
  function OwnChanges(read: Text, path: Path, own: Option<State>, pool: set<Text>): set<nat> {
    if own.Some? && path in own.value && own.value[path].blob != read && own.value[path].blob in pool
       && ChangedOldLines(read, own.value[path].blob).Some?
    then ChangedOldLines(read, own.value[path].blob).value else {}
  }

  /** Whether what a line read at a path may have changed in the target.  A read that cannot be
      compared counts as stale. */
  predicate ReadIsStale(read: Read, own: Option<State>, target: State, pool: set<Text>)
    requires read.Scoped?
  {
    if read.blob.None? || read.path !in target then true
    else if target[read.path].blob == read.blob.value then false
    else if read.blob.value !in pool || target[read.path].blob !in pool then true
    else
      match ChangedOldLines(read.blob.value, target[read.path].blob)
      case None => true
      case Some(all) =>
        var changed := all - OwnChanges(read.blob.value, read.path, own, pool);
        read.spans.None? || read.spans.value == []
        || exists k :: 0 <= k < |read.spans.value| && SpanIsStale(read.blob.value, read.spans.value[k], changed)
  }

  /** The loop over the spans decides staleness as the predicate says. */
  method CheckRead(read: Read, own: Option<State>, target: State, pool: set<Text>) returns (stale: bool)
    requires read.Scoped?
    ensures stale == ReadIsStale(read, own, target, pool)
  {
    if read.blob.None? || read.path !in target { return true; }
    var blob, now := read.blob.value, target[read.path].blob;
    if now == blob { return false; }
    if blob !in pool || now !in pool { return true; }
    if !IsUtf8(blob) || !IsUtf8(now) { return true; }
    var edits := LcsEdits(SplitKeepLines(blob), SplitKeepLines(now));
    var changed := CollectDeleted(edits);
    changed := changed - OwnChanges(blob, read.path, own, pool);
    if read.spans.None? || read.spans.value == [] { return true; }
    for k := 0 to |read.spans.value|
      invariant forall j :: 0 <= j < k ==> !SpanIsStale(blob, read.spans.value[j], changed)
    {
      if SpanIsStale(blob, read.spans.value[k], changed) { return true; }
    }
    stale := false;
  }

  method CollectDeleted(edits: seq<Edit>) returns (changed: set<nat>)
    ensures changed == Deleted(edits)
  {
    changed := {};
    for k := 0 to |edits|
      invariant changed == Deleted(edits[..k])
    {
      assert edits[..k + 1][..k] == edits[..k];
      if edits[k].Delete? { changed := changed + {edits[k].old_}; }
    }
    assert edits[..|edits|] == edits;
  }

  function Identity(n: nat): seq<(nat, nat)> {
    seq(n, k requires 0 <= k < n => (k, k))
  }

  /** The tripwire is sound: a read that names spans and is not stale has every line of every
      located span matched, in strictly increasing order, to an equal line of the blob the
      target holds now. */
  lemma TripwireSound(read: Read, target: State, pool: set<Text>) returns (picks: seq<(nat, nat)>)
    requires read.Scoped? && read.spans.Some? && read.spans.value != []
    requires !ReadIsStale(read, None, target, pool)
    ensures read.blob.Some? && read.path in target
    ensures var a, b := SplitKeepLines(read.blob.value), SplitKeepLines(target[read.path].blob);
            && Common(a, b, 0, 0, picks)
            && forall s, l: nat :: 0 <= s < |read.spans.value| && CoversLine(read.blob.value, read.spans.value[s], l)
                                   ==> exists k :: 0 <= k < |picks| && picks[k].0 == l
  {
    var blob, now := read.blob.value, target[read.path].blob;
    var a, b := SplitKeepLines(blob), SplitKeepLines(now);
    if now == blob {
      picks := Identity(|a|);
      forall s, l: nat | 0 <= s < |read.spans.value| && CoversLine(blob, read.spans.value[s], l)
        ensures exists k :: 0 <= k < |picks| && picks[k].0 == l
      {
        SpanIsLocated(blob, read.spans.value[s].value);
        assert picks[l].0 == l;
      }
    } else {
      var edits := Script(a, b, 0, 0);
      ScriptWalks(a, b);
      EqualsAreCommon(edits, a, b, 0, 0, |a|, |b|);
      picks := Equals(edits);
      forall s, l: nat | 0 <= s < |read.spans.value| && CoversLine(blob, read.spans.value[s], l)
        ensures exists k :: 0 <= k < |picks| && picks[k].0 == l
      {
        assert Deleted(edits) - {} == Deleted(edits);
        FreshLine(blob, read.spans.value[s], Deleted(edits), l);
        SpanIsLocated(blob, read.spans.value[s].value);
        var k := DeletedOrEqual(edits, a, b, |a|, |b|, l);
      }
    }
  }

  lemma FreshLine(blob: Text, span: Option<Text>, changed: set<nat>, l: nat)
    requires !SpanIsStale(blob, span, changed) && CoversLine(blob, span, l)
    ensures l !in changed
  {}

  predicate CoversLine(blob: Text, span: Option<Text>, l: nat) {
    span.Some? && SpanLineRange(blob, span.value).Some?
    && SpanLineRange(blob, span.value).value.0 <= l <= SpanLineRange(blob, span.value).value.1
  }

  /** And a read that is not stale has every one of its spans located, unless the target
      holds the very blob that was read. */
  lemma FreshSpansAreLocated(read: Read, target: State, pool: set<Text>, s: nat)
    requires read.Scoped? && read.spans.Some? && s < |read.spans.value|
    requires !ReadIsStale(read, None, target, pool)
    ensures target[read.path].blob == read.blob.value
            || (read.spans.value[s].Some? && SpanLineRange(read.blob.value, read.spans.value[s].value).Some?)
  {
    if target[read.path].blob != read.blob.value {
      var a, b := SplitKeepLines(read.blob.value), SplitKeepLines(target[read.path].blob);
      assert !SpanIsStale(read.blob.value, read.spans.value[s], Deleted(Script(a, b, 0, 0)) - {});
    }
  }
}
