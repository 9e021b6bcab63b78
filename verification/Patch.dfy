/** Manifests and patches (src/ident.rs, src/manifest.rs, src/patch.rs): intent,
    realization, and the two ways of applying them.

    A blob hash names exactly one content, so a hash is modelled by the bytes it
    names, and the pool by the set of contents it holds. */
module Patch {
  import opened Wrappers
  import opened Spans

  type Path = string

  type Mode = string

  datatype Error = Precondition | Corrupt | Invalid | Io

  datatype Record = Record(mode: Mode, path: Path, blob: Text)

  type State = map<Path, Record>

  function BlobAt(s: State, p: Path): Text {
    if p in s then s[p].blob else []
  }

  /** Every element sits under its own path. */
  ghost predicate Keyed(s: State) {
    forall p :: p in s ==> s[p].path == p
  }

  /** The components of `path` from `from` on, split at every slash. */
  function Components(path: Path, from: nat, i: nat): seq<string>
    requires from <= i <= |path|
    decreases |path| - i
  {
    if i == |path| then [path[from..]]
    else if path[i] == '/' then [path[from..i]] + Components(path, i + 1, i + 1)
    else Components(path, from, i + 1)
  }

  predicate ValidPath(path: Path) {
    && path != "" && path[0] == '/'
    && '\0' !in path && '\n' !in path && '\t' !in path
    && "." !in Components(path, 0, 0) && ".." !in Components(path, 0, 0)
  }

  predicate ValidMode(mode: Mode) {
    mode in ["100644", "100755", "120000"]
  }

  function NewRecord(mode: Mode, path: Path, blob: Text): Result<Record, Error> {
    if ValidMode(mode) && ValidPath(path) then Ok(Record(mode, path, blob)) else Err(Invalid)
  }

  /** A state the replays change in place. */
  class Manifest {
    var elements: State

    constructor (s: State)
      ensures elements == s
    {
      elements := s;
    }

    predicate Contains(r: Record)
      reads this
    {
      r.path in elements && elements[r.path] == r
    }

    /** Refused, and nothing changed, where the path is taken. */
    method Insert(r: Record) returns (ok: bool)
      modifies this
      ensures ok == (r.path !in old(elements))
      ensures elements == if ok then old(elements)[r.path := r] else old(elements)
    {
      ok := r.path !in elements;
      if ok { elements := elements[r.path := r]; }
    }

    /** Refused, and nothing changed, unless this very record is there. */
    method Remove(r: Record) returns (ok: bool)
      modifies this
      ensures ok == old(Contains(r))
      ensures elements == if ok then old(elements) - {r.path} else old(elements)
    {
      ok := Contains(r);
      if ok { elements := elements - {r.path}; }
    }
  }

  /////////////////////////////////////////// realized deltas ///////////////////////////////////////////

  datatype Entry = Entry(remove: Option<Record>, add: Option<Record>)

  predicate Holds(s: State, r: Record) {
    r.path in s && s[r.path] == r
  }

  /** Whether the entry's remove is present and, after it, its add's path absent. */
  predicate Adjudicates(s: State, e: Entry) {
    && (e.remove.Some? ==> Holds(s, e.remove.value))
    && (e.add.Some? ==> e.add.value.path !in AfterRemove(s, e))
  }

  function AfterRemove(s: State, e: Entry): State {
    if e.remove.Some? then s - {e.remove.value.path} else s
  }

  function Step(s: State, e: Entry): State {
    var t := AfterRemove(s, e);
    if e.add.Some? then t[e.add.value.path := e.add.value] else t
  }

  /** The state a realized delta leaves, when every entry adjudicates in turn. */
  function Replay(s: State, realized: seq<Entry>): Option<State> {
    if realized == [] then Some(s)
    else
      var before := Replay(s, realized[..|realized| - 1]);
      var e := realized[|realized| - 1];
      if before.Some? && Adjudicates(before.value, e) then Some(Step(before.value, e)) else None
  }

  lemma ReplayPrefix(s: State, realized: seq<Entry>, k: nat)
    requires k <= |realized| && Replay(s, realized).Some?
    ensures Replay(s, realized[..k]).Some?
  {
    if k < |realized| {
      var init := realized[..|realized| - 1];
      ReplayPrefix(s, init, k);
      assert init[..k] == realized[..k];
    } else {
      assert realized[..k] == realized;
    }
  }

  lemma ReplayAppend(s: State, a: seq<Entry>, b: seq<Entry>)
    ensures Replay(s, a + b) ==
            (if Replay(s, a).Some? then Replay(Replay(s, a).value, b) else None)
  {
    if b == [] {
      assert a + b == a;
    } else {
      assert (a + b)[..|a + b| - 1] == a + b[..|b| - 1];
      ReplayAppend(s, a, b[..|b| - 1]);
    }
  }

  /** Entry by entry, each adjudicated where it lands.  On refusal the
      manifest keeps what the entries before the refused one did. */
  method ApplyRealizedToManifest(m: Manifest, realized: seq<Entry>) returns (ok: bool)
    modifies m
    ensures ok == Replay(old(m.elements), realized).Some?
    ensures ok ==> m.elements == Replay(old(m.elements), realized).value
  {
    ghost var s := m.elements;
    for k := 0 to |realized|
      invariant Replay(s, realized[..k]) == Some(m.elements)
    {
      assert realized[..k + 1][..k] == realized[..k];
      var e := realized[k];
      if e.remove.Some? {
        var removed := m.Remove(e.remove.value);
        if !removed {
          ok := false;
          if Replay(s, realized).Some? { ReplayPrefix(s, realized, k + 1); }
          return;
        }
      }
      if e.add.Some? {
        var added := m.Insert(e.add.value);
        if !added {
          ok := false;
          if Replay(s, realized).Some? { ReplayPrefix(s, realized, k + 1); }
          return;
        }
      }
    }
    assert realized[..|realized|] == realized;
    ok := true;
  }

  ////////////////////////////////////////////// intents ////////////////////////////////////////////////

  datatype Op =
    | Edit(path: Path, oldStr: Text, newStr: Text)
    | Create(path: Path, mode: Mode, blob: Option<Text>, inline: Option<Text>)
    | Delete(path: Path, target: Text)
    | Chmod(path: Path, oldMode: Mode, newMode: Mode)

  /** What one op does where its preconditions hold. */
  datatype Effect = Effect(state: State, entry: Entry, blobs: set<Text>)

  function Swap(s: State, before: Record, after: Record, blobs: set<Text>): Effect {
    Effect(s[after.path := after], Entry(Some(before), Some(after)), blobs)
  }

  function ApplyEdit(path: Path, oldStr: Text, newStr: Text, s: State, known: set<Text>): Result<Effect, Error> {
    if path !in s then Err(Precondition)
    else if s[path].blob !in known then Err(Corrupt)
    else match ReplaceUnique(s[path].blob, oldStr, newStr)
      case Err(_) => Err(Precondition)
      case Ok(content) =>
        match NewRecord(s[path].mode, path, content)
        case Err(e) => Err(e)
        case Ok(record) => Ok(Swap(s, s[path], record, {content}))
  }

  /** A create carries exactly one of a pooled blob and inline content. */
  function ContentOf(blob: Option<Text>, inline: Option<Text>, known: set<Text>): Result<Text, Error> {
    match (blob, inline)
    case (Some(b), None) => if b in known then Ok(b) else Err(Precondition)
    case (None, Some(c)) => Ok(c)
    case _ => Err(Invalid)
  }

  function ApplyCreate(op: Op, s: State, known: set<Text>): Result<Effect, Error>
    requires op.Create?
  {
    if !ValidMode(op.mode) then Err(Invalid)
    else if op.path in s then Err(Precondition)
    else match ContentOf(op.blob, op.inline, known)
      case Err(e) => Err(e)
      case Ok(content) =>
        match NewRecord(op.mode, op.path, content)
        case Err(e) => Err(e)
        case Ok(r) => Ok(Effect(s[op.path := r], Entry(None, Some(r)), if op.inline.Some? then {content} else {}))
  }

  function ApplyDelete(path: Path, target: Text, s: State): Result<Effect, Error> {
    if path !in s || s[path].blob != target then Err(Precondition)
    else Ok(Effect(s - {path}, Entry(Some(s[path]), None), {}))
  }

  function ApplyChmod(op: Op, s: State): Result<Effect, Error>
    requires op.Chmod?
  {
    if !ValidMode(op.newMode) then Err(Invalid)
    else if op.path !in s || s[op.path].mode != op.oldMode then Err(Precondition)
    else match NewRecord(op.newMode, op.path, s[op.path].blob)
      case Err(e) => Err(e)
      case Ok(r) => Ok(Swap(s, s[op.path], r, {}))
  }

  function ApplyOp(op: Op, s: State, known: set<Text>): Result<Effect, Error> {
    if !ValidPath(op.path) then Err(Invalid)
    else match op
      case Edit(path, oldStr, newStr) => ApplyEdit(path, oldStr, newStr, s, known)
      case Create(_, _, _, _) => ApplyCreate(op, s, known)
      case Delete(path, target) => ApplyDelete(path, target, s)
      case Chmod(_, _, _) => ApplyChmod(op, s)
  }

  /** What an application produces: the new state, the deltas in op order, the new blobs. */
  datatype Realization = Realization(state: State, realized: seq<Entry>, blobs: set<Text>)

  /** The ops in sequence, each meeting what the ones before it left. */
  function RunOps(ops: seq<Op>, s: State, pool: set<Text>): Result<Realization, Error> {
    if ops == [] then Ok(Realization(s, [], {}))
    else
      match RunOps(ops[..|ops| - 1], s, pool)
      case Err(e) => Err(e)
      case Ok(r) =>
        match ApplyOp(ops[|ops| - 1], r.state, pool + r.blobs)
        case Err(e) => Err(e)
        case Ok(f) => Ok(Realization(f.state, r.realized + [f.entry], r.blobs + f.blobs))
  }

  lemma {:induction false} RunOpsPrefix(ops: seq<Op>, s: State, pool: set<Text>, k: nat)
    requires k <= |ops|
    ensures RunOps(ops, s, pool).Ok? ==> RunOps(ops[..k], s, pool).Ok?
    ensures RunOps(ops[..k], s, pool).Err? ==> RunOps(ops, s, pool) == RunOps(ops[..k], s, pool)
  {
    if k < |ops| {
      var init := ops[..|ops| - 1];
      RunOpsPrefix(init, s, pool, k);
      assert init[..k] == ops[..k];
    } else {
      assert ops[..k] == ops;
    }
  }

  /** One op on the scratch manifest: adjudicate, then remove and insert. */
  method ApplyOne(op: Op, scratch: Manifest, known: set<Text>) returns (r: Result<(Entry, set<Text>), Error>)
    requires Keyed(scratch.elements)
    modifies scratch
    ensures Keyed(scratch.elements)
    ensures match ApplyOp(op, old(scratch.elements), known)
            case Err(e) => r == Err(e) && scratch.elements == old(scratch.elements)
            case Ok(f) => r == Ok((f.entry, f.blobs)) && scratch.elements == f.state
  {
    if !ValidPath(op.path) { return Err(Invalid); }
    match op {
      case Edit(path, oldStr, newStr) =>
        if path !in scratch.elements { return Err(Precondition); }
        var element := scratch.elements[path];
        if element.blob !in known { return Err(Corrupt); }
        var replaced := ReplaceUnique(element.blob, oldStr, newStr);
        if replaced.Err? { return Err(Precondition); }
        var record := NewRecord(element.mode, path, replaced.value);
        if record.Err? { return Err(Invalid); }
        var _ := scratch.Remove(element);
        var _ := scratch.Insert(record.value);
        r := Ok((Entry(Some(element), Some(record.value)), {replaced.value}));
      case Create(path, mode, blob, inline) =>
        if !ValidMode(mode) { return Err(Invalid); }
        if path in scratch.elements { return Err(Precondition); }
        var content := ContentOf(blob, inline, known);
        if content.Err? { return Err(content.error); }
        var record := NewRecord(mode, path, content.value);
        if record.Err? { return Err(Invalid); }
        var _ := scratch.Insert(record.value);
        r := Ok((Entry(None, Some(record.value)), if inline.Some? then {content.value} else {}));
      case Delete(path, target) =>
        if path !in scratch.elements || scratch.elements[path].blob != target { return Err(Precondition); }
        var element := scratch.elements[path];
        var _ := scratch.Remove(element);
        r := Ok((Entry(Some(element), None), {}));
      case Chmod(path, oldMode, newMode) =>
        if !ValidMode(newMode) { return Err(Invalid); }
        if path !in scratch.elements || scratch.elements[path].mode != oldMode { return Err(Precondition); }
        var element := scratch.elements[path];
        var record := NewRecord(newMode, path, element.blob);
        if record.Err? { return Err(Invalid); }
        var _ := scratch.Remove(element);
        var _ := scratch.Insert(record.value);
        r := Ok((Entry(Some(element), Some(record.value)), {}));
    }
  }

  /** All of an intent's ops or none: an error leaves the manifest as it was. */
  method ApplyIntent(ops: seq<Op>, m: Manifest, pool: set<Text>) returns (r: Result<Realization, Error>)
    requires Keyed(m.elements)
    modifies m
    ensures Keyed(m.elements)
    ensures r == RunOps(ops, old(m.elements), pool)
    ensures m.elements == if r.Ok? then r.value.state else old(m.elements)
  {
    ghost var start := m.elements;
    var scratch := new Manifest(m.elements);
    var realized, blobs := [], {};
    for k := 0 to |ops|
      invariant fresh(scratch) && m.elements == start && Keyed(scratch.elements)
      invariant RunOps(ops[..k], start, pool) == Ok(Realization(scratch.elements, realized, blobs))
    {
      assert ops[..k + 1][..k] == ops[..k];
      RunOpsPrefix(ops, start, pool, k + 1);
      var one := ApplyOne(ops[k], scratch, pool + blobs);
      if one.Err? { return Err(one.error); }
      realized, blobs := realized + [one.value.0], blobs + one.value.1;
    }
    assert ops[..|ops|] == ops;
    m.elements := scratch.elements;
    r := Ok(Realization(scratch.elements, realized, blobs));
  }
}
