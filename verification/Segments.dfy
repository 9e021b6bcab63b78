/** Segments (src/segment.rs): what a push cuts its inputs into and a store holds.

    A segment's id commits to its whole entry table and payload, so a segment is named by its
    entries; frames are the identity. */
module Segments {
  import opened Wrappers
  import opened Spans
  import opened Patch
  import opened Logs

  /** A construct may replay from the empty blob without its being stored. */
  const EMPTY: Text := []

  /** What a segment stores: a blob's bytes, a blob replayed from a base by a log line's ops
      (no bytes at all), or an exact span of a fork's log. */
  datatype Item =
    | Keyframe(content: Text)
    | Construct(target: Text, base: Text, line: Line)
    | Span(fork: string, lines: seq<Line>)
  {
    /** The blob an entry yields, however it is encoded. */
    function Blob(): Text
      requires !Span?
    {
      if Keyframe? then content else target
    }
  }

  type Segment = seq<Item>

  /** The lines of one fork among some entries, in entry order. */
  function SpanOf(items: seq<Item>, fork: string): seq<Line> {
    if items == [] then []
    else
      var last := items[|items| - 1];
      SpanOf(items[..|items| - 1], fork) + if last.Span? && last.fork == fork then last.lines else []
  }

  lemma SpanOfAppend(a: seq<Item>, b: seq<Item>, fork: string)
    ensures SpanOf(a + b, fork) == SpanOf(a, fork) + SpanOf(b, fork)
  {
    if b == [] {
      assert a + b == a;
    } else {
      assert (a + b)[..|a + b| - 1] == a + b[..|b| - 1];
      SpanOfAppend(a, b[..|b| - 1], fork);
    }
  }

  /** A fork's log, assembled from a list of segments. */
  function LogFrom(segments: seq<Segment>, fork: string): seq<Line> {
    if segments == [] then []
    else LogFrom(segments[..|segments| - 1], fork) + SpanOf(segments[|segments| - 1], fork)
  }

  lemma LogFromAppend(a: seq<Segment>, b: seq<Segment>, fork: string)
    ensures LogFrom(a + b, fork) == LogFrom(a, fork) + LogFrom(b, fork)
  {
    if b == [] {
      assert a + b == a;
    } else {
      assert (a + b)[..|a + b| - 1] == a + b[..|b| - 1];
      LogFromAppend(a, b[..|b| - 1], fork);
    }
  }

  function Flat(segments: seq<Segment>): seq<Item> {
    if segments == [] then [] else Flat(segments[..|segments| - 1]) + segments[|segments| - 1]
  }

  /** A fork's log does not see where its segments were cut. */
  lemma LogIsFlat(segments: seq<Segment>, fork: string)
    ensures LogFrom(segments, fork) == SpanOf(Flat(segments), fork)
  {
    if segments != [] {
      LogIsFlat(segments[..|segments| - 1], fork);
      SpanOfAppend(Flat(segments[..|segments| - 1]), segments[|segments| - 1], fork);
    }
  }

  ////////////////////////////////////////////// cutting ////////////////////////////////////////////////

  /** How much of a frame an entry fills, given how long each stored line is. */
  function PlainLen(item: Item, lineLen: Line -> nat): nat {
    match item
    case Keyframe(content) => |content|
    case Construct(_, _, _) => 0
    case Span(_, lines) => LinesLen(lines, lineLen)
  }

  function LinesLen(lines: seq<Line>, lineLen: Line -> nat): nat {
    if lines == [] then 0 else LinesLen(lines[..|lines| - 1], lineLen) + lineLen(lines[|lines| - 1])
  }

  /** Cut the inputs, in order, whenever a segment's frame reaches the target. */
  method BuildSegments(inputs: seq<Item>, target: nat, lineLen: Line -> nat) returns (built: seq<Segment>)
    ensures Flat(built) == inputs
    ensures forall k :: 0 <= k < |built| ==> built[k] != []
  {
    built := [];
    var start, size := 0, 0;
    for i := 0 to |inputs|
      invariant 0 <= start <= i
      invariant Flat(built) == inputs[..start]
      invariant forall k :: 0 <= k < |built| ==> built[k] != []
    {
      size := size + PlainLen(inputs[i], lineLen);
      if size >= target {
        var segment := inputs[start..i + 1];
        assert (built + [segment])[..|built|] == built;
        assert inputs[..start] + segment == inputs[..i + 1];
        built, start, size := built + [segment], i + 1, 0;
      }
    }
    if start < |inputs| {
      assert (built + [inputs[start..]])[..|built|] == built;
      assert inputs[..start] + inputs[start..] == inputs;
      built := built + [inputs[start..]];
    } else {
      assert inputs[..start] == inputs;
    }
  }

  ///////////////////////////////////////////// constructs //////////////////////////////////////////////

  /** The path a construct targets: that of the last realized add carrying the target. */
  function TargetPath(realized: seq<Entry>, target: Text): Option<Path> {
    if realized == [] then None
    else
      var add := realized[|realized| - 1].add;
      if add.Some? && add.value.blob == target then Some(add.value.path)
      else TargetPath(realized[..|realized| - 1], target)
  }

  /** The bytes at one path after a line's ops, replayed from `base`.  A create with inline
      content restarts them; anything but a unique edit or an inline create is corruption. */
  function ReplayPath(ops: seq<Op>, path: Path, base: Text): Result<Text, Error> {
    if ops == [] then Ok(base)
    else
      match ReplayPath(ops[..|ops| - 1], path, base)
      case Err(e) => Err(e)
      case Ok(content) => ReplayOp(ops[|ops| - 1], path, content)
  }

  function ReplayOp(op: Op, path: Path, content: Text): Result<Text, Error> {
    match op
    case Edit(p, oldStr, newStr) =>
      if p != path then Ok(content)
      else (match ReplaceUnique(content, oldStr, newStr)
            case Ok(c) => Ok(c)
            case Err(_) => Err(Corrupt))
    case Create(p, _, blob, inline) =>
      if p != path then Ok(content)
      else if inline.Some? && blob.None? then Ok(inline.value)
      else Err(Corrupt)
    case _ => Ok(content)
  }

  /** A line's ops replayed over a base for the target's path, and the result compared with the target. */
  function ConstructBlob(base: Text, line: Line, target: Text): (r: Result<Text, Error>)
    ensures r.Ok? ==> r.value == target
  {
    match TargetPath(line.realized, target)
    case None => Err(Corrupt)
    case Some(path) =>
      match ReplayPath(line.intent, path, base)
      case Err(e) => Err(e)
      case Ok(content) => if content == target then Ok(content) else Err(Corrupt)
  }

  lemma ReplayPathStops(ops: seq<Op>, path: Path, base: Text, k: nat)
    requires k <= |ops| && ReplayPath(ops[..k], path, base).Err?
    ensures ReplayPath(ops, path, base) == ReplayPath(ops[..k], path, base)
  {
    if k < |ops| {
      assert ops[..|ops| - 1][..k] == ops[..k];
      ReplayPathStops(ops[..|ops| - 1], path, base, k);
    } else {
      assert ops[..k] == ops;
    }
  }

  method Reconstruct(base: Text, line: Line, target: Text) returns (r: Result<Text, Error>)
    ensures r == ConstructBlob(base, line, target)
  {
    var path: Option<Path> := None;
    for i := 0 to |line.realized|
      invariant path == TargetPath(line.realized[..i], target)
    {
      assert line.realized[..i + 1][..i] == line.realized[..i];
      var add := line.realized[i].add;
      if add.Some? && add.value.blob == target { path := Some(add.value.path); }
    }
    assert line.realized[..|line.realized|] == line.realized;
    if path.None? { return Err(Corrupt); }
    var content := base;
    for i := 0 to |line.intent|
      invariant ReplayPath(line.intent[..i], path.value, base) == Ok(content)
    {
      assert line.intent[..i + 1][..i] == line.intent[..i];
      var next := ReplayOp(line.intent[i], path.value, content);
      if next.Err? {
        ReplayPathStops(line.intent, path.value, base, i + 1);
        return Err(next.error);
      }
      content := next.value;
    }
    assert line.intent[..|line.intent|] == line.intent;
    r := if content == target then Ok(content) else Err(Corrupt);
  }
}
