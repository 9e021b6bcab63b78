/** Canonical JSON (src/ident.rs): object keys sorted, no whitespace, no floats, strings escaped
    as section 7 of RFC 8259 allows.  Canonical texts decode uniquely and hold no line feed. */
module Json {
  import opened Wrappers
  import opened Patch

  datatype Field = Field(key: string, value: Value)

  datatype Value =
    | Null
    | Bool(b: bool)
    | Num(n: int)
    | Float
    | Str(s: string)
    | Arr(items: seq<Value>)
    | Obj(fields: seq<Field>)

  /** A float anywhere is refused. */
  predicate Writable(v: Value) {
    match v
    case Float => false
    case Arr(items) => forall k :: 0 <= k < |items| ==> Writable(items[k])
    case Obj(fields) => forall k :: 0 <= k < |fields| ==> Writable(fields[k].value)
    case _ => true
  }

  /////////////////////////////////////////////// strings ///////////////////////////////////////////////

  function HexDigit(n: nat): char
    requires n < 16
  {
    if n < 10 then '0' + n as char else 'a' + (n - 10) as char
  }

  function EscapeChar(c: char): (r: string)
    ensures r != [] && r[0] != '\"'
  {
    if c == '\"' then ['\\', '\"']
    else if c == '\\' then ['\\', '\\']
    else if c as int == 8 then ['\\', 'b']
    else if c == '\t' then ['\\', 't']
    else if c == '\n' then ['\\', 'n']
    else if c as int == 12 then ['\\', 'f']
    else if c == '\r' then ['\\', 'r']
    else if c as int < 0x20 then ['\\', 'u', '0', '0', HexDigit(c as int / 16), HexDigit(c as int % 16)]
    else [c]
  }

  function Escaped(s: string): string {
    if s == [] then [] else EscapeChar(s[0]) + Escaped(s[1..])
  }

  function WriteString(s: string): string {
    ['\"'] + Escaped(s) + ['\"']
  }

  function HexValue(c: char): Option<nat> {
    if '0' <= c <= '9' then Some(c as int - '0' as int)
    else if 'a' <= c <= 'f' then Some(c as int - 'a' as int + 10)
    else None
  }

  /** One possibly escaped character, and how much text it takes. */
  function ReadChar(t: string): (r: Option<(char, nat)>)
    requires t != []
    ensures r.Some? ==> 0 < r.value.1 <= |t|
  {
    if t[0] != '\\' then if t[0] as int < 0x20 then None else Some((t[0], 1))
    else if |t| < 2 then None
    else if t[1] == '\"' then Some(('\"', 2))
    else if t[1] == '\\' then Some(('\\', 2))
    else if t[1] == 'b' then Some((8 as char, 2))
    else if t[1] == 't' then Some(('\t', 2))
    else if t[1] == 'n' then Some(('\n', 2))
    else if t[1] == 'f' then Some((12 as char, 2))
    else if t[1] == 'r' then Some(('\r', 2))
    else if t[1] == 'u' && |t| >= 6 then
      match (HexValue(t[2]), HexValue(t[3]), HexValue(t[4]), HexValue(t[5]))
      case (Some(a), Some(b), Some(c), Some(d)) =>
        var n := ((a * 16 + b) * 16 + c) * 16 + d;
        if n < 0xD800 then Some((n as char, 6)) else None
      case _ => None
    else None
  }

  lemma CharRoundTrip(c: char, rest: string)
    ensures ReadChar(EscapeChar(c) + rest) == Some((c, |EscapeChar(c)|))
  {
    if c as int < 0x20 && c as int !in {8, 9, 10, 12, 13} {
      assert c as int == (c as int / 16) * 16 + c as int % 16;
    }
  }

  /** The string whose opening quote has been read, and the text after its closing one. */
  function ReadString(t: string): (r: Option<(string, string)>)
    ensures r.Some? ==> |r.value.1| < |t|
    decreases |t|
  {
    if t == [] then None
    else if t[0] == '\"' then Some(([], t[1..]))
    else match ReadChar(t)
      case None => None
      case Some((c, n)) =>
        match ReadString(t[n..])
        case None => None
        case Some((s, rest)) => Some(([c] + s, rest))
  }

  lemma ReadOneMore(c: char, more: string, s: string, rest: string)
    requires ReadString(more) == Some((s, rest))
    ensures ReadString(EscapeChar(c) + more) == Some(([c] + s, rest))
  {
    CharRoundTrip(c, more);
    assert (EscapeChar(c) + more)[|EscapeChar(c)|..] == more;
  }

  lemma EscapedUnfolds(s: string, tail: string)
    requires s != []
    ensures Escaped(s) + tail == EscapeChar(s[0]) + (Escaped(s[1..]) + tail)
  {
  }

  lemma EmptyReads(tail: string)
    requires tail != [] && tail[0] == '\"'
    ensures ReadString(Escaped([]) + tail) == Some(([], tail[1..]))
  {
    assert Escaped([]) + tail == tail;
  }

  /** What is written reads back, whatever follows its closing quote. */
  lemma {:induction false} StringRoundTrip(s: string, tail: string)
    requires tail != [] && tail[0] == '\"'
    ensures ReadString(Escaped(s) + tail) == Some((s, tail[1..]))
  {
    if s == [] {
      EmptyReads(tail);
    } else {
      StringRoundTrip(s[1..], tail);
      EscapedUnfolds(s, tail);
      ReadOneMore(s[0], Escaped(s[1..]) + tail, s[1..], tail[1..]);
      assert [s[0]] + s[1..] == s;
    }
  }

  lemma {:induction false} EscapedHasNoLf(s: string)
    ensures '\n' !in Escaped(s)
  {
    if s != [] { EscapedHasNoLf(s[1..]); }
  }

  /////////////////////////////////////////////// numbers ///////////////////////////////////////////////

  function Digit(n: nat): char
    requires n < 10
  {
    '0' + n as char
  }

  predicate IsDigit(c: char) {
    '0' <= c <= '9'
  }

  function WriteNat(n: nat): (r: string)
    ensures r != [] && forall k :: 0 <= k < |r| ==> IsDigit(r[k])
  {
    if n < 10 then [Digit(n)] else WriteNat(n / 10) + [Digit(n % 10)]
  }

  function WriteInt(n: int): string {
    if n < 0 then ['-'] + WriteNat(-n) else WriteNat(n)
  }

  function NatValue(t: string): nat
    requires forall k :: 0 <= k < |t| ==> IsDigit(t[k])
  {
    if t == [] then 0
    else
      assert IsDigit(t[|t| - 1]);
      NatValue(t[..|t| - 1]) * 10 + (t[|t| - 1] as int - '0' as int)
  }

  lemma {:induction false} NatRoundTrip(n: nat)
    ensures NatValue(WriteNat(n)) == n
  {
    if n >= 10 {
      NatRoundTrip(n / 10);
      assert WriteNat(n)[..|WriteNat(n)| - 1] == WriteNat(n / 10);
    } else {
      assert [Digit(n)][..0] == [];
      assert NatValue([]) == 0;
    }
  }

  /** How many digits the text begins with. */
  function DigitRun(t: string): (n: nat)
    ensures n <= |t| && forall k :: 0 <= k < n ==> IsDigit(t[k])
    ensures n < |t| ==> !IsDigit(t[n])
  {
    if t == [] || !IsDigit(t[0]) then 0 else DigitRun(t[1..]) + 1
  }

  /** What may follow a value: nothing, or something that is not a digit. */
  predicate Delimited(rest: string) {
    rest == [] || !IsDigit(rest[0])
  }

  function ReadInt(t: string): Option<(int, string)> {
    var sign := t != [] && t[0] == '-';
    var body := if sign then t[1..] else t;
    var n := DigitRun(body);
    var size: int := NatValue(body[..n]);
    if n == 0 then None else Some((if sign then -size else size, body[n..]))
  }

  lemma DigitRunIs(t: string, n: nat)
    requires n <= |t| && (forall k :: 0 <= k < n ==> IsDigit(t[k])) && (n < |t| ==> !IsDigit(t[n]))
    ensures DigitRun(t) == n
  {
    if n > 0 { DigitRunIs(t[1..], n - 1); }
  }

  lemma RunOfDigits(n: nat, rest: string)
    requires Delimited(rest)
    ensures var body := WriteNat(n) + rest;
            && DigitRun(body) == |WriteNat(n)| && body[..DigitRun(body)] == WriteNat(n)
               && body[DigitRun(body)..] == rest
  {
    DigitRunIs(WriteNat(n) + rest, |WriteNat(n)|);
  }

  lemma ReadsNat(n: nat, rest: string)
    requires Delimited(rest)
    ensures ReadInt(WriteNat(n) + rest) == Some((n, rest))
    ensures ReadInt(['-'] + (WriteNat(n) + rest)) == Some((-(n as int), rest))
  {
    NatRoundTrip(n);
    RunOfDigits(n, rest);
    assert (['-'] + (WriteNat(n) + rest))[1..] == WriteNat(n) + rest;
  }

  lemma Signed(digits: string, rest: string)
    ensures ['-'] + digits + rest == ['-'] + (digits + rest)
  {
  }

  lemma IntRoundTrip(n: int, rest: string)
    requires Delimited(rest)
    ensures ReadInt(WriteInt(n) + rest) == Some((n, rest))
  {
    if n < 0 {
      ReadsNat(-n, rest);
      Signed(WriteNat(-n), rest);
    } else {
      ReadsNat(n, rest);
    }
  }

  /////////////////////////////////////////////// values ////////////////////////////////////////////////

  /** The text of a value whose object keys are already in order. */
  function Write(v: Value): (r: string)
    decreases v, 1
  {
    match v
    case Null => "null"
    case Bool(b) => if b then "true" else "false"
    case Num(n) => WriteInt(n)
    case Float => []
    case Str(s) => WriteString(s)
    case Arr(items) => ['['] + WriteItems(v, 0) + [']']
    case Obj(fields) => ['{'] + WriteFields(v, 0) + ['}']
  }

  /** The items from the `k`-th on, comma-separated. */
  function WriteItems(v: Value, k: nat): string
    requires v.Arr? && k <= |v.items|
    decreases v, 0, |v.items| - k
  {
    if k == |v.items| then []
    else Write(v.items[k]) + if k + 1 == |v.items| then [] else [','] + WriteItems(v, k + 1)
  }

  function WriteFields(v: Value, k: nat): string
    requires v.Obj? && k <= |v.fields|
    decreases v, 0, |v.fields| - k
  {
    if k == |v.fields| then []
    else WriteString(v.fields[k].key) + [':'] + Write(v.fields[k].value)
         + if k + 1 == |v.fields| then [] else [','] + WriteFields(v, k + 1)
  }

  predicate StartsWith(t: string, word: string) {
    |word| <= |t| && t[..|word|] == word
  }

  /** A value at the head of the text, and what follows it. */
  function Read(t: string): (r: Option<(Value, string)>)
    ensures r.Some? ==> |r.value.1| < |t|
    decreases |t|, 1
  {
    if t == [] then None
    else if t[0] == 'n' then if StartsWith(t, "null") then Some((Null, t[4..])) else None
    else if t[0] == 't' then if StartsWith(t, "true") then Some((Bool(true), t[4..])) else None
    else if t[0] == 'f' then if StartsWith(t, "false") then Some((Bool(false), t[5..])) else None
    else if t[0] == '\"' then
      (match ReadString(t[1..])
       case None => None
       case Some((s, rest)) => Some((Str(s), rest)))
    else if t[0] == '[' then
      if |t| > 1 && t[1] == ']' then Some((Arr([]), t[2..]))
      else (match ReadItems(t[1..])
            case None => None
            case Some((items, rest)) => Some((Arr(items), rest)))
    else if t[0] == '{' then
      if |t| > 1 && t[1] == '}' then Some((Obj([]), t[2..]))
      else (match ReadFields(t[1..])
            case None => None
            case Some((fields, rest)) => Some((Obj(fields), rest)))
    else match ReadInt(t)
      case None => None
      case Some((n, rest)) => if |rest| < |t| then Some((Num(n), rest)) else None
  }

  /** One or more items and the closing bracket. */
  function ReadItems(t: string): (r: Option<(seq<Value>, string)>)
    ensures r.Some? ==> |r.value.1| < |t|
    decreases |t|, 2
  {
    match Read(t)
    case None => None
    case Some((v, rest)) =>
      if rest == [] then None
      else if rest[0] == ']' then Some(([v], rest[1..]))
      else if rest[0] != ',' then None
      else match ReadItems(rest[1..])
        case None => None
        case Some((more, end)) => Some(([v] + more, end))
  }

  function ReadFields(t: string): (r: Option<(seq<Field>, string)>)
    ensures r.Some? ==> |r.value.1| < |t|
    decreases |t|, 2
  {
    if t == [] || t[0] != '\"' then None
    else match ReadString(t[1..])
      case None => None
      case Some((key, colon)) =>
        if colon == [] || colon[0] != ':' then None
        else match Read(colon[1..])
          case None => None
          case Some((v, rest)) =>
            if rest == [] then None
            else if rest[0] == '}' then Some(([Field(key, v)], rest[1..]))
            else if rest[0] != ',' then None
            else match ReadFields(rest[1..])
              case None => None
              case Some((more, end)) => Some(([Field(key, v)] + more, end))
  }

  ////////////////////////////////////////////// round trip /////////////////////////////////////////////

  lemma QuotedText(s: string, rest: string)
    ensures WriteString(s) + rest == ['\"'] + (Escaped(s) + (['\"'] + rest))
  {
  }

  lemma ReadsQuoted(s: string, text: string, rest: string)
    requires ReadString(text) == Some((s, rest))
    ensures Read(['\"'] + text) == Some((Str(s), rest)) && ReadString((['\"'] + text)[1..]) == Some((s, rest))
  {
    assert (['\"'] + text)[1..] == text;
  }

  lemma ReadsString(s: string, rest: string)
    ensures Read(WriteString(s) + rest) == Some((Str(s), rest))
    ensures ReadString((WriteString(s) + rest)[1..]) == Some((s, rest))
  {
    var tail := ['\"'] + rest;
    StringRoundTrip(s, tail);
    assert tail[1..] == rest;
    QuotedText(s, rest);
    ReadsQuoted(s, Escaped(s) + tail, rest);
  }

  lemma ReadsInt(n: int, rest: string)
    requires Delimited(rest)
    ensures Read(WriteInt(n) + rest) == Some((Num(n), rest))
  {
    IntRoundTrip(n, rest);
    var t := WriteInt(n) + rest;
    assert t[0] == '-' || IsDigit(t[0]);
  }

  lemma ReadsWord(v: Value, rest: string)
    requires v.Null? || v.Bool?
    ensures Read(Write(v) + rest) == Some((v, rest))
  {
    var t := Write(v) + rest;
    assert t[..|Write(v)|] == Write(v) && t[|Write(v)|..] == rest;
  }

  lemma ReadsArray(items: seq<Value>, text: string, rest: string)
    requires text != [] && text[0] != ']' && ReadItems(text) == Some((items, rest))
    ensures Read(['['] + text) == Some((Arr(items), rest))
  {
    assert (['['] + text)[1..] == text;
  }

  lemma ReadsObject(fields: seq<Field>, text: string, rest: string)
    requires text != [] && text[0] != '}' && ReadFields(text) == Some((fields, rest))
    ensures Read(['{'] + text) == Some((Obj(fields), rest))
  {
    assert (['{'] + text)[1..] == text;
  }

  lemma ReadsEmpty(v: Value, rest: string)
    requires v == Arr([]) || v == Obj([])
    ensures Read(Write(v) + rest) == Some((v, rest))
  {
    assert (Write(v) + rest)[2..] == rest;
  }

  /** A written value reads back, whatever non-digit follows. */
  lemma {:induction false} RoundTrip(v: Value, rest: string)
    requires Writable(v) && Delimited(rest)
    ensures Read(Write(v) + rest) == Some((v, rest))
    decreases v, 1
  {
    match v {
      case Null => ReadsWord(v, rest);
      case Bool(_) => ReadsWord(v, rest);
      case Num(n) => ReadsInt(n, rest);
      case Str(s) => ReadsString(s, rest);
      case Float =>
      case Arr(items) =>
        if items == [] {
          ReadsEmpty(v, rest);
        } else {
          ItemsRoundTrip(v, 0, rest);
          assert items[0..] == items;
          FirstOfItems(v, [']'] + rest);
          ReadsArray(items, WriteItems(v, 0) + ([']'] + rest), rest);
          Wrapped('[', WriteItems(v, 0), ']', rest);
        }
      case Obj(fields) =>
        if fields == [] {
          ReadsEmpty(v, rest);
        } else {
          FieldsRoundTrip(v, 0, rest);
          assert fields[0..] == fields;
          ReadsObject(fields, WriteFields(v, 0) + (['}'] + rest), rest);
          Wrapped('{', WriteFields(v, 0), '}', rest);
        }
    }
  }

  lemma Wrapped(open: char, text: string, close: char, rest: string)
    ensures [open] + text + [close] + rest == [open] + (text + ([close] + rest))
  {
  }

  /** A value's text begins with nothing that closes an array. */
  lemma FirstOfItems(v: Value, tail: string)
    requires Writable(v) && v.Arr? && v.items != []
    ensures WriteItems(v, 0) != [] && (WriteItems(v, 0) + tail)[0] != ']'
  {
    FirstOfValue(v.items[0]);
  }

  lemma FirstOfValue(v: Value)
    requires Writable(v)
    ensures Write(v) != [] && Write(v)[0] != ']'
  {
  }

  lemma LastItem(v: Value, w: string, rest: string)
    requires Read(w + ([']'] + rest)) == Some((v, [']'] + rest))
    ensures ReadItems(w + ([']'] + rest)) == Some(([v], rest))
  {
    assert ([']'] + rest)[1..] == rest;
  }

  lemma MoreItems(v: Value, w: string, text: string, more: seq<Value>, rest: string)
    requires Read(w + ([','] + text)) == Some((v, [','] + text)) && ReadItems(text) == Some((more, rest))
    ensures ReadItems(w + ([','] + text)) == Some(([v] + more, rest))
  {
    assert ([','] + text)[1..] == text;
  }

  lemma MoreItemText(v: Value, k: nat, tail: string)
    requires v.Arr? && k + 1 < |v.items|
    ensures WriteItems(v, k) + tail == Write(v.items[k]) + ([','] + (WriteItems(v, k + 1) + tail))
  {
    var w, more := Write(v.items[k]), WriteItems(v, k + 1);
    assert WriteItems(v, k) == w + ([','] + more);
    assert w + ([','] + more) + tail == w + ([','] + (more + tail));
  }

  lemma LastItemText(v: Value, k: nat, tail: string)
    requires v.Arr? && k + 1 == |v.items|
    ensures WriteItems(v, k) + tail == Write(v.items[k]) + tail
  {
    var w := Write(v.items[k]);
    assert WriteItems(v, k) == w + [];
    assert w + [] == w;
  }

  lemma ItemsSuffix(items: seq<Value>, k: nat)
    requires k < |items|
    ensures items[k..] == [items[k]] + items[k + 1..]
    ensures k + 1 == |items| ==> items[k..] == [items[k]]
  {
  }

  lemma {:induction false} ItemsRoundTrip(v: Value, k: nat, rest: string)
    requires v.Arr? && Writable(v) && k < |v.items|
    ensures ReadItems(WriteItems(v, k) + ([']'] + rest)) == Some((v.items[k..], rest))
    decreases v, 0, |v.items| - k
  {
    var tail, w := [']'] + rest, Write(v.items[k]);
    ItemsSuffix(v.items, k);
    if k + 1 == |v.items| {
      RoundTrip(v.items[k], tail);
      LastItem(v.items[k], w, rest);
      LastItemText(v, k, tail);
    } else {
      ItemsRoundTrip(v, k + 1, rest);
      var text := WriteItems(v, k + 1) + tail;
      RoundTrip(v.items[k], [','] + text);
      MoreItems(v.items[k], w, text, v.items[k + 1..], rest);
      MoreItemText(v, k, tail);
    }
  }

  lemma LastField(key: string, v: Value, w: string, rest: string)
    requires Read(w + (['}'] + rest)) == Some((v, ['}'] + rest))
    ensures ReadFields(WriteString(key) + ([':'] + (w + (['}'] + rest)))) == Some(([Field(key, v)], rest))
  {
    var colon := [':'] + (w + (['}'] + rest));
    ReadsString(key, colon);
    assert colon[1..] == w + (['}'] + rest);
    assert (['}'] + rest)[1..] == rest;
  }

  lemma MoreFields(key: string, v: Value, w: string, text: string, more: seq<Field>, rest: string)
    requires Read(w + ([','] + text)) == Some((v, [','] + text)) && ReadFields(text) == Some((more, rest))
    ensures ReadFields(WriteString(key) + ([':'] + (w + ([','] + text)))) == Some(([Field(key, v)] + more, rest))
  {
    var colon := [':'] + (w + ([','] + text));
    ReadsString(key, colon);
    assert colon[1..] == w + ([','] + text);
    assert ([','] + text)[1..] == text;
  }

  lemma LastFieldText(v: Value, k: nat, tail: string)
    requires v.Obj? && k + 1 == |v.fields|
    ensures WriteFields(v, k) + tail == WriteString(v.fields[k].key) + ([':'] + (Write(v.fields[k].value) + tail))
  {
    var a, w := WriteString(v.fields[k].key), Write(v.fields[k].value);
    assert WriteFields(v, k) == a + [':'] + w + [];
    assert a + [':'] + w + [] + tail == a + ([':'] + (w + tail));
  }

  lemma MoreFieldText(v: Value, k: nat, tail: string)
    requires v.Obj? && k + 1 < |v.fields|
    ensures WriteFields(v, k) + tail
            == WriteString(v.fields[k].key) + ([':']
                                               + (Write(v.fields[k].value) + ([','] + (WriteFields(v, k + 1) + tail))))
  {
    var a, w, more := WriteString(v.fields[k].key), Write(v.fields[k].value), WriteFields(v, k + 1);
    assert WriteFields(v, k) == a + [':'] + w + ([','] + more);
    assert a + [':'] + w + ([','] + more) + tail == a + ([':'] + (w + ([','] + (more + tail))));
  }

  lemma FieldsSuffix(fields: seq<Field>, k: nat)
    requires k < |fields|
    ensures fields[k..] == [Field(fields[k].key, fields[k].value)] + fields[k + 1..]
  {
    assert Field(fields[k].key, fields[k].value) == fields[k];
  }

  lemma {:induction false} FieldsRoundTrip(v: Value, k: nat, rest: string)
    requires v.Obj? && Writable(v) && k < |v.fields|
    ensures ReadFields(WriteFields(v, k) + (['}'] + rest)) == Some((v.fields[k..], rest))
    decreases v, 0, |v.fields| - k
  {
    var tail, f := ['}'] + rest, v.fields[k];
    FieldsSuffix(v.fields, k);
    if k + 1 == |v.fields| {
      RoundTrip(f.value, tail);
      LastField(f.key, f.value, Write(f.value), rest);
      LastFieldText(v, k, tail);
      assert v.fields[k + 1..] == [] && [Field(f.key, f.value)] + [] == [Field(f.key, f.value)];
    } else {
      FieldsRoundTrip(v, k + 1, rest);
      var text := WriteFields(v, k + 1) + tail;
      RoundTrip(f.value, [','] + text);
      MoreFields(f.key, f.value, Write(f.value), text, v.fields[k + 1..], rest);
      MoreFieldText(v, k, tail);
    }
  }

  /** No written value holds a raw line feed. */
  lemma {:induction false} NoLf(v: Value)
    requires Writable(v)
    ensures '\n' !in Write(v)
    decreases v, 1
  {
    match v {
      case Str(s) => EscapedHasNoLf(s);
      case Arr(items) => ItemsNoLf(v, 0);
      case Obj(fields) => FieldsNoLf(v, 0);
      case _ =>
    }
  }

  lemma {:induction false} ItemsNoLf(v: Value, k: nat)
    requires v.Arr? && Writable(v) && k <= |v.items|
    ensures '\n' !in WriteItems(v, k)
    decreases v, 0, |v.items| - k
  {
    if k < |v.items| {
      NoLf(v.items[k]);
      ItemsNoLf(v, k + 1);
    }
  }

  lemma {:induction false} FieldsNoLf(v: Value, k: nat)
    requires v.Obj? && Writable(v) && k <= |v.fields|
    ensures '\n' !in WriteFields(v, k)
    decreases v, 0, |v.fields| - k
  {
    if k < |v.fields| {
      EscapedHasNoLf(v.fields[k].key);
      NoLf(v.fields[k].value);
      FieldsNoLf(v, k + 1);
    }
  }

  ///////////////////////////////////////////// canonical ///////////////////////////////////////////////

  /** Bytewise order of keys: the first difference decides, a prefix comes first. */
  predicate KeyLess(a: string, b: string) {
    b != [] && (a == [] || a[0] < b[0] || (a[0] == b[0] && KeyLess(a[1..], b[1..])))
  }

  lemma KeyOrder(a: string, b: string, c: string)
    ensures !KeyLess(a, a)
    ensures a == b || KeyLess(a, b) || KeyLess(b, a)
    ensures KeyLess(a, b) && KeyLess(b, c) ==> KeyLess(a, c)
  {
    if a != [] {
      KeyOrder(a[1..], if b != [] then b[1..] else [], if c != [] then c[1..] else []);
      if b != [] { assert a[0] == b[0] && a[1..] == b[1..] ==>
                   a == b by { assert a == [a[0]] + a[1..] && b == [b[0]] + b[1..]; } }
    }
  }

  function Inserted(f: Field, sorted: seq<Field>): seq<Field> {
    if sorted == [] || !KeyLess(sorted[0].key, f.key) then [f] + sorted
    else [sorted[0]] + Inserted(f, sorted[1..])
  }

  /** The fields in key order. */
  function Sorted(fields: seq<Field>): seq<Field> {
    if fields == [] then [] else Inserted(fields[0], Sorted(fields[1..]))
  }

  /** Every object's keys in order, all the way down. */
  function Ordered(v: Value): (r: Value)
    ensures Writable(v) ==> Writable(r)
    decreases v, 1
  {
    match v
    case Arr(items) => Arr(OrderedItems(v, |items|))
    case Obj(fields) =>
      SortedWritable(OrderedFields(v, |fields|));
      Obj(Sorted(OrderedFields(v, |fields|)))
    case _ => v
  }

  function OrderedItems(v: Value, k: nat): (r: seq<Value>)
    requires v.Arr? && k <= |v.items|
    ensures Writable(v) ==> forall i :: 0 <= i < |r| ==> Writable(r[i])
    decreases v, 0, k
  {
    if k == 0 then [] else OrderedItems(v, k - 1) + [Ordered(v.items[k - 1])]
  }

  function OrderedFields(v: Value, k: nat): (r: seq<Field>)
    requires v.Obj? && k <= |v.fields|
    ensures Writable(v) ==> forall f :: f in r ==> Writable(f.value)
    decreases v, 0, k
  {
    if k == 0 then [] else OrderedFields(v, k - 1) + [Field(v.fields[k - 1].key, Ordered(v.fields[k - 1].value))]
  }

  lemma InsertedMembers(f: Field, sorted: seq<Field>)
    ensures multiset(Inserted(f, sorted)) == multiset(sorted) + multiset{f}
  {
    if sorted != [] && KeyLess(sorted[0].key, f.key) {
      InsertedMembers(f, sorted[1..]);
      assert sorted == [sorted[0]] + sorted[1..];
    }
  }

  lemma SortedMembers(fields: seq<Field>)
    ensures multiset(Sorted(fields)) == multiset(fields)
  {
    if fields != [] {
      SortedMembers(fields[1..]);
      InsertedMembers(fields[0], Sorted(fields[1..]));
      assert fields == [fields[0]] + fields[1..];
    }
  }

  lemma SortedWritable(fields: seq<Field>)
    ensures (forall f :: f in fields ==> Writable(f.value)) ==> forall k :: 0 <= k < |Sorted(fields)| ==>
        Writable(Sorted(fields)[k].value)
  {
    SortedMembers(fields);
    forall k | 0 <= k < |Sorted(fields)| ensures Sorted(fields)[k] in fields {
      assert Sorted(fields)[k] in multiset(Sorted(fields));
    }
  }

  /** Canonical text, or a refusal where there is a float. */
  function Canonical(v: Value): Result<string, Error> {
    if Writable(v) then Ok(Write(Ordered(v))) else Err(Invalid)
  }

  /** Canonical text decides the value, up to the order of object keys. */
  lemma CanonicalIsInjective(v: Value, w: Value)
    requires Canonical(v).Ok? && Canonical(v) == Canonical(w)
    ensures Ordered(v) == Ordered(w)
  {
    RoundTrip(Ordered(v), []);
    RoundTrip(Ordered(w), []);
    assert Write(Ordered(v)) + [] == Write(Ordered(w)) + [];
  }

  ghost predicate Ascending(fields: seq<Field>) {
    forall i, j :: 0 <= i < j < |fields| ==> KeyLess(fields[i].key, fields[j].key)
  }

  predicate DistinctKeys(fields: seq<Field>) {
    forall i, j :: 0 <= i < j < |fields| ==> fields[i].key != fields[j].key
  }

  lemma InsertedAscends(f: Field, sorted: seq<Field>)
    requires Ascending(sorted) && forall g :: g in sorted ==> g.key != f.key
    ensures Ascending(Inserted(f, sorted))
    ensures forall g :: g in Inserted(f, sorted) ==> g == f || g in sorted
  {
    if sorted != [] {
      assert sorted[0] in sorted;
      KeyOrder(sorted[0].key, f.key, f.key);
      if KeyLess(sorted[0].key, f.key) {
        InsertedAscends(f, sorted[1..]);
        var rest := Inserted(f, sorted[1..]);
        forall j | 0 <= j < |rest| ensures KeyLess(sorted[0].key, rest[j].key) {
          assert rest[j] in rest;
          if rest[j] != f {
            var i :| 0 <= i < |sorted[1..]| && sorted[1..][i] == rest[j];
            assert sorted[i + 1] == rest[j];
          }
        }
      } else {
        forall j | 0 <= j < |sorted| ensures KeyLess(f.key, sorted[j].key) {
          KeyOrder(f.key, sorted[0].key, sorted[j].key);
        }
      }
    }
  }

  lemma SortedAscends(fields: seq<Field>)
    requires DistinctKeys(fields)
    ensures Ascending(Sorted(fields))
    ensures forall g :: g in Sorted(fields) <==> g in fields
  {
    SortedMembers(fields);
    forall g ensures g in Sorted(fields) <==> g in fields {
      assert g in Sorted(fields) <==> g in multiset(Sorted(fields));
    }
    if fields != [] {
      SortedAscends(fields[1..]);
      forall g | g in Sorted(fields[1..]) ensures g.key != fields[0].key {
        var i :| 0 <= i < |fields[1..]| && fields[1..][i] == g;
        assert fields[i + 1] == g;
      }
      InsertedAscends(fields[0], Sorted(fields[1..]));
    }
  }

  /** Ascending fields with the same members are the same fields. */
  lemma {:induction false} AscendingUnique(a: seq<Field>, b: seq<Field>)
    requires Ascending(a) && Ascending(b) && forall g :: g in a <==> g in b
    ensures a == b
  {
    assert b != [] ==> b[0] in b;
    if a != [] {
      assert a[0] in a;
      var i :| 0 <= i < |b| && b[i] == a[0];
      assert b[0] in b;
      var j :| 0 <= j < |a| && a[j] == b[0];
      KeyOrder(a[0].key, b[0].key, a[0].key);
      assert i == 0;
      TailsAgree(a, b);
      AscendingUnique(a[1..], b[1..]);
      assert a == [a[0]] + a[1..] && b == [b[0]] + b[1..];
    }
  }

  lemma TailsAgree(a: seq<Field>, b: seq<Field>)
    requires Ascending(a) && Ascending(b) && a != [] && b != [] && a[0] == b[0]
    requires forall g :: g in a <==> g in b
    ensures Ascending(a[1..]) && Ascending(b[1..]) && forall g :: g in a[1..] <==> g in b[1..]
  {
    forall g ensures g in a[1..] <==> g in b[1..] {
      NotFirst(a, g);
      NotFirst(b, g);
    }
  }

  lemma NotFirst(a: seq<Field>, g: Field)
    requires Ascending(a) && a != []
    ensures g in a[1..] <==> g in a && g != a[0]
  {
    KeyOrder(a[0].key, a[0].key, a[0].key);
    if g in a[1..] {
      var i :| 0 <= i < |a[1..]| && a[1..][i] == g;
      assert a[i + 1] == g;
    }
    if g in a && g != a[0] {
      var i :| 0 <= i < |a| && a[i] == g;
      assert a[1..][i - 1] == g;
    }
  }

  /** The order an object's keys came in does not show in its canonical text. */
  lemma KeyOrderDoesNotShow(a: seq<Field>, b: seq<Field>)
    requires DistinctKeys(a) && DistinctKeys(b) && multiset(a) == multiset(b)
    ensures Sorted(a) == Sorted(b)
  {
    SortedAscends(a);
    SortedAscends(b);
    forall g ensures g in a <==> g in b { assert g in a <==> g in multiset(a); }
    AscendingUnique(Sorted(a), Sorted(b));
  }
}
