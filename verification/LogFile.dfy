/** The log file (src/log.rs, `parse_log_lenient` and `parse_log_strict`): bytes, one record per line,
    recovered from a torn tail, never from damage in the middle. */
module LogFile {
  import opened Wrappers
  import opened Spans
  import opened Patch
  import Encoding
  import Json

    function FirstLfAt(t: Text): (r: Option<nat>)
    ensures r.Some? ==> r.value < |t| && t[r.value] == LF && LF !in t[..r.value]
    ensures r.None? ==> LF !in t
  {
    if t == [] then None
    else if t[0] == LF then Some(0)
    else match FirstLfAt(t[1..])
      case None => None
      case Some(k) => assert t[..k + 1] == [t[0]] + t[1..][..k]; Some(k + 1)
  }

  /** The records up to the first line that is not one, and how many bytes they take. */
  function ValidPrefix<T>(t: Text, parse: Text -> Option<T>): (r: (seq<T>, nat))
    ensures r.1 <= |t|
    decreases |t|
  {
    match FirstLfAt(t)
    case None => ([], 0)
    case Some(i) =>
      match parse(t[..i])
      case None => ([], 0)
      case Some(line) =>
        var rest := ValidPrefix(t[i + 1..], parse);
        ([line] + rest.0, i + 1 + rest.1)
  }

  /** The text split at every line feed. */
  function Chunks(t: Text): seq<Text>
    decreases |t|
  {
    match FirstLfAt(t)
    case None => [t]
    case Some(i) => [t[..i]] + Chunks(t[i + 1..])
  }

  predicate AnyParses<T(!new)>(chunks: seq<Text>, from: nat, parse: Text -> Option<T>) {
    exists k :: from <= k < |chunks| && parse(chunks[k]).Some?
  }

  /** A valid record past the sheer point is corruption; otherwise the tail is torn off. */
  function Lenient<T(!new)>(t: Text, parse: Text -> Option<T>): Result<(seq<T>, nat), Error> {
    var valid := ValidPrefix(t, parse);
    if AnyParses(Chunks(t[valid.1..]), 1, parse) then Err(Corrupt) else Ok(valid)
  }

  lemma FirstLfAtIs(t: Text, i: nat)
    requires i < |t| && t[i] == LF && LF !in t[..i]
    ensures FirstLfAt(t) == Some(i)
  {
    if i > 0 {
      assert t[0] in t[..i];
      assert forall c :: c in t[1..][..i - 1] ==> c in t[..i] by {
        assert t[..i] == [t[0]] + t[1..][..i - 1];
      }
      FirstLfAtIs(t[1..], i - 1);
    }
  }

  lemma NoLfAt(t: Text)
    requires LF !in t
    ensures FirstLfAt(t) == None
  {
  }

  function Continued<T>(lines: seq<T>, offset: nat, rest: (seq<T>, nat)): (seq<T>, nat) {
    (lines + rest.0, offset + rest.1)
  }

  /** The records before `offset` have been read. */
  ghost predicate Parsing<T(!new)>(t: Text, parse: Text -> Option<T>, lines: seq<T>, offset: nat) {
    offset <= |t| && ValidPrefix(t, parse) == Continued(lines, offset, ValidPrefix(t[offset..], parse))
  }

  lemma ParsingStarts<T(!new)>(t: Text, parse: Text -> Option<T>)
    ensures Parsing(t, parse, [], 0)
  {
    assert t[0..] == t && [] + ValidPrefix(t, parse).0 == ValidPrefix(t, parse).0;
  }

  lemma RestOfRest(t: Text, offset: nat, end: nat)
    requires offset + end < |t|
    ensures t[offset..][end + 1..] == t[offset + end + 1..]
  {
  }

  lemma FirstRecord<T(!new)>(t: Text, parse: Text -> Option<T>, end: nat, line: T)
    requires FirstLfAt(t) == Some(end) && parse(t[..end]) == Some(line)
    ensures ValidPrefix(t, parse) == Continued([line], end + 1, ValidPrefix(t[end + 1..], parse))
  {
  }

  lemma ContinuedTwice<T>(lines: seq<T>, offset: nat, line: T, len: nat, rest: (seq<T>, nat))
    ensures Continued(lines, offset, Continued([line], len, rest)) == Continued(lines + [line], offset + len, rest)
  {
    PrefixMore(lines, line, rest.0);
  }

  lemma ParsingStep<T(!new)>(t: Text, parse: Text -> Option<T>, lines: seq<T>, offset: nat, end: nat, line: T)
    requires Parsing(t, parse, lines, offset) && FirstLfAt(t[offset..]) == Some(end)
    requires parse(t[offset..][..end]) == Some(line)
    ensures Parsing(t, parse, lines + [line], offset + end + 1)
  {
    FirstRecord(t[offset..], parse, end, line);
    RestOfRest(t, offset, end);
    ContinuedTwice(lines, offset, line, end + 1, ValidPrefix(t[offset + end + 1..], parse));
  }

  lemma ParsingStops<T(!new)>(t: Text, parse: Text -> Option<T>, lines: seq<T>, offset: nat)
    requires Parsing(t, parse, lines, offset) && ValidPrefix(t[offset..], parse) == ([], 0)
    ensures ValidPrefix(t, parse) == (lines, offset)
  {
    assert lines + [] == lines;
  }

  /** The record at `offset`, if one is there, and where the next begins. */
  method NextRecord<T(!new)>(t: Text, parse: Text -> Option<T>, offset: nat, ghost lines: seq<T>)
    returns (r: Option<(T, nat)>)
    requires Parsing(t, parse, lines, offset)
    ensures r.None? ==> ValidPrefix(t, parse) == (lines, offset)
    ensures r.Some? ==> offset < r.value.1 && Parsing(t, parse, lines + [r.value.0], r.value.1)
  {
    var rest := t[offset..];
    var end := FirstLfAt(rest);
    if end.None? {
      ParsingStops(t, parse, lines, offset);
      return None;
    }
    var line := parse(rest[..end.value]);
    if line.None? {
      ParsingStops(t, parse, lines, offset);
      return None;
    }
    ParsingStep(t, parse, lines, offset, end.value, line.value);
    r := Some((line.value, offset + end.value + 1));
  }

  /** Leniently parse: records to the sheer point, then a scan of what follows it. */
  method ParseLogLenient<T(!new)>(t: Text, parse: Text -> Option<T>) returns (r: Result<(seq<T>, nat), Error>)
    ensures r == Lenient(t, parse)
  {
    var lines: seq<T>, offset: nat := [], 0;
    ParsingStarts(t, parse);
    var next := NextRecord(t, parse, offset, lines);
    while next.Some?
      invariant Parsing(t, parse, lines, offset)
      invariant next.None? ==> ValidPrefix(t, parse) == (lines, offset)
      invariant next.Some? ==> offset < next.value.1 && Parsing(t, parse, lines + [next.value.0], next.value.1)
      decreases |t| - offset
    {
      lines, offset := lines + [next.value.0], next.value.1;
      next := NextRecord(t, parse, offset, lines);
    }
    var corrupt := ScanChunks(t[offset..], parse);
    r := if corrupt then Err(Corrupt) else Ok((lines, offset));
  }

  lemma PrefixMore<T>(a: seq<T>, line: T, b: seq<T>)
    ensures a + ([line] + b) == (a + [line]) + b
  {
  }

  /** Whether any line after the first of what is torn parses. */
  method ScanChunks<T(!new)>(torn: Text, parse: Text -> Option<T>) returns (found: bool)
    ensures found == AnyParses(Chunks(torn), 1, parse)
  {
    var chunks := Chunks(torn);
    for k := 1 to |chunks|
      invariant forall j :: 1 <= j < k ==> parse(chunks[j]).None?
    {
      if parse(chunks[k]).Some? { return true; }
    }
    found := false;
  }

  ////////////////////////////////////////////// recovery ///////////////////////////////////////////////

  /** The file of some records: each one's bytes and a line feed. */
  function Encoded<T>(lines: seq<T>, enc: T -> Text): Text {
    if lines == [] then [] else enc(lines[0]) + [LF] + Encoded(lines[1..], enc)
  }

  ghost predicate Encodes<T(!new)>(line: T, enc: T -> Text, parse: Text -> Option<T>) {
    LF !in enc(line) && parse(enc(line)) == Some(line)
  }

  lemma OneRecord<T(!new)>(line: T, enc: T -> Text, parse: Text -> Option<T>, rest: Text)
    requires Encodes(line, enc, parse)
    ensures var t := enc(line) + [LF] + rest;
            && ValidPrefix(t, parse) == ([line] + ValidPrefix(rest, parse).0,
                                         |enc(line)| + 1 + ValidPrefix(rest, parse).1)
            && Chunks(t) == [enc(line)] + Chunks(rest)
  {
    var t := enc(line) + [LF] + rest;
    assert t[..|enc(line)|] == enc(line);
    FirstLfAtIs(t, |enc(line)|);
    assert t[|enc(line)| + 1..] == rest;
  }

  lemma EncodedHead<T(!new)>(lines: seq<T>, enc: T -> Text, rest: Text)
    requires lines != []
    ensures Encoded(lines, enc) + rest == enc(lines[0]) + [LF] + (Encoded(lines[1..], enc) + rest)
  {
  }

  /** Records followed by anything: the records, then whatever prefix of the rest is valid. */
  lemma {:induction false} RecordsFirst<T(!new)>(lines: seq<T>, enc: T -> Text, parse: Text -> Option<T>, rest: Text)
    requires forall k :: 0 <= k < |lines| ==> Encodes(lines[k], enc, parse)
    ensures ValidPrefix(Encoded(lines, enc) + rest, parse)
            == (lines + ValidPrefix(rest, parse).0, |Encoded(lines, enc)| + ValidPrefix(rest, parse).1)
  {
    var valid := ValidPrefix(rest, parse);
    if lines == [] {
      assert [] + rest == rest;
      assert [] + valid.0 == valid.0;
    } else {
      RecordsFirst(lines[1..], enc, parse, rest);
      OneRecord(lines[0], enc, parse, Encoded(lines[1..], enc) + rest);
      EncodedHead(lines, enc, rest);
      HeadFirst(lines, valid.0);
    }
  }

  lemma HeadFirst<T>(lines: seq<T>, more: seq<T>)
    requires lines != []
    ensures [lines[0]] + (lines[1..] + more) == lines + more
  {
  }

  /** A torn tail is truncated as never committed: sealed records followed by bytes without a
      line feed recover as exactly those records and their length. */
  lemma TornTail<T(!new)>(lines: seq<T>, enc: T -> Text, parse: Text -> Option<T>, torn: Text)
    requires forall k :: 0 <= k < |lines| ==> Encodes(lines[k], enc, parse)
    requires LF !in torn
    ensures Lenient(Encoded(lines, enc) + torn, parse) == Ok((lines, |Encoded(lines, enc)|))
  {
    RecordsFirst(lines, enc, parse, torn);
    assert (Encoded(lines, enc) + torn)[|Encoded(lines, enc)|..] == torn;
    NoLfAt(torn);
    assert lines + [] == lines;
    assert Chunks(torn) == [torn];
  }

  /** A line that is no record: nothing is read, and what follows it splits as before. */
  lemma BadFirst<T(!new)>(bad: Text, after: Text, parse: Text -> Option<T>)
    requires LF !in bad && parse(bad) == None
    ensures ValidPrefix(bad + [LF] + after, parse) == ([], 0)
    ensures Chunks(bad + [LF] + after) == [bad] + Chunks(after)
  {
    var rest := bad + [LF] + after;
    assert rest[..|bad|] == bad && rest[|bad| + 1..] == after;
    FirstLfAtIs(rest, |bad|);
  }

  /** Damage in the middle is never truncated: a bad line with a sealed record anywhere after
      it is reported as corruption. */
  lemma MidLogIsCorrupt<T(!new)>(good: seq<T>, bad: Text, later: seq<T>, enc: T -> Text, parse: Text -> Option<T>,
                                 torn: Text)
    requires forall k :: 0 <= k < |good| ==> Encodes(good[k], enc, parse)
    requires forall k :: 0 <= k < |later| ==> Encodes(later[k], enc, parse)
    requires LF !in bad && parse(bad) == None && later != []
    ensures Lenient(Encoded(good, enc) + (bad + [LF] + (Encoded(later, enc) + torn)), parse) == Err(Corrupt)
  {
    var after := Encoded(later, enc) + torn;
    var rest := bad + [LF] + after;
    BadFirst(bad, after, parse);
    RecordsFirst(good, enc, parse, rest);
    assert (Encoded(good, enc) + rest)[|Encoded(good, enc)|..] == rest;
    EncodedHead(later, enc, torn);
    OneRecord(later[0], enc, parse, Encoded(later[1..], enc) + torn);
    assert Chunks(rest)[1] == enc(later[0]);
  }

  /** Strictly: any byte past the records is corruption. */
  function Strict<T(!new)>(t: Text, parse: Text -> Option<T>): Result<seq<T>, Error> {
    match Lenient(t, parse)
    case Err(e) => Err(e)
    case Ok((lines, valid)) => if valid != |t| then Err(Corrupt) else Ok(lines)
  }

  method ParseLogStrict<T(!new)>(t: Text, parse: Text -> Option<T>) returns (r: Result<seq<T>, Error>)
    ensures r == Strict(t, parse)
  {
    var parsed := ParseLogLenient(t, parse);
    if parsed.Err? { return Err(parsed.error); }
    if parsed.value.1 != |t| { return Err(Corrupt); }
    r := Ok(parsed.value.0);
  }

  //////////////////////////////////////////// sealed lines /////////////////////////////////////////////

  /** A record's bytes, as an append writes them. */
  function RecordBytes(v: Json.Value): Text {
    Encoding.Encode(Json.Write(v))
  }

  /** A stored record: UTF-8, of one JSON text and nothing after it. */
  function ParseRecord(t: Text): Option<Json.Value> {
    match Encoding.Decode(t)
    case None => None
    case Some(s) =>
      match Json.Read(s)
      case Some((v, rest)) => if rest == [] then Some(v) else None
      case None => None
  }

  lemma RecordEncodes(v: Json.Value)
    requires Json.Writable(v)
    ensures Encodes(v, RecordBytes, ParseRecord)
  {
    Json.RoundTrip(v, []);
    assert Json.Write(v) + [] == Json.Write(v);
    Json.NoLf(v);
    Encoding.EncodeDecode(Json.Write(v));
    Encoding.LfIsItself(Json.Write(v));
  }

  lemma RecordsEncode(lines: seq<Json.Value>)
    requires forall k :: 0 <= k < |lines| ==> Json.Writable(lines[k])
    ensures forall k :: 0 <= k < |lines| ==> Encodes(lines[k], RecordBytes, ParseRecord)
  {
    forall k | 0 <= k < |lines| ensures Encodes(lines[k], RecordBytes, ParseRecord) { RecordEncodes(lines[k]); }
  }

  /** Sealed lines, then any strict prefix, in bytes, of one more: recovery returns exactly the
      sealed lines and their length, even where the append was cut inside a character. */
  lemma SealedLinesRecover(lines: seq<Json.Value>, next: Json.Value, cut: nat)
    requires forall k :: 0 <= k < |lines| ==> Json.Writable(lines[k])
    requires Json.Writable(next) && cut < |RecordBytes(next) + [LF]|
    ensures Lenient(Encoded(lines, RecordBytes) + (RecordBytes(next) + [LF])[..cut], ParseRecord)
            == Ok((lines, |Encoded(lines, RecordBytes)|))
  {
    RecordsEncode(lines);
    RecordEncodes(next);
    var torn := (RecordBytes(next) + [LF])[..cut];
    assert torn == RecordBytes(next)[..cut];
    assert forall c :: c in torn ==> c in RecordBytes(next);
    TornTail(lines, RecordBytes, ParseRecord, torn);
  }

  /** Read strictly, a file of sealed lines is its lines, and one cut anywhere inside the next is
      corrupt unless nothing of the next was written. */
  lemma StrictWantsAll(lines: seq<Json.Value>, next: Json.Value, cut: nat)
    requires forall k :: 0 <= k < |lines| ==> Json.Writable(lines[k])
    requires Json.Writable(next) && cut < |RecordBytes(next) + [LF]|
    ensures Strict(Encoded(lines, RecordBytes) + (RecordBytes(next) + [LF])[..cut], ParseRecord)
            == if cut == 0 then Ok(lines) else Err(Corrupt)
  {
    SealedLinesRecover(lines, next, cut);
  }

  /** The file of sealed lines decides the lines. */
  lemma FileDecidesLines(a: seq<Json.Value>, b: seq<Json.Value>)
    requires forall k :: 0 <= k < |a| ==> Json.Writable(a[k])
    requires forall k :: 0 <= k < |b| ==> Json.Writable(b[k])
    requires Encoded(a, RecordBytes) == Encoded(b, RecordBytes)
    ensures a == b
  {
    RecordsEncode(a);
    RecordsEncode(b);
    TornTail(a, RecordBytes, ParseRecord, []);
    TornTail(b, RecordBytes, ParseRecord, []);
    assert Encoded(a, RecordBytes) + [] == Encoded(b, RecordBytes) + [];
  }
}
