/** Characters as bytes (UTF-8, section 3 of RFC 3629), where the code crosses from `str` to bytes
    and back. */
module Encoding {
  import opened Wrappers
  import opened Spans
  import opened Lines

  function EncodeChar(c: char): (t: Text)
    ensures 1 <= |t| <= 4
  {
    var n := c as int;
    if n < 0x80 then [n as Byte]
    else if n < 0x800 then [(0xC0 + n / 64) as Byte, (0x80 + n % 64) as Byte]
    else if n < 0x10000 then [(0xE0 + n / 4096) as Byte, (0x80 + n / 64 % 64) as Byte, (0x80 + n % 64) as Byte]
    else [(0xF0 + n / 262144) as Byte, (0x80 + n / 4096 % 64) as Byte, (0x80 + n / 64 % 64) as Byte,
        (0x80 + n % 64) as Byte]
  }

  function Encode(s: string): Text {
    if s == [] then [] else EncodeChar(s[0]) + Encode(s[1..])
  }

  function Low(b: Byte): int {
    b as int - 0x80
  }

  /** The character whose bytes begin at `i`. */
  function CharAt(t: Text, i: nat): char
    requires i < |t| && CharLen(t, i) > 0
  {
    match CharLen(t, i)
    case 1 => t[i] as int as char
    case 2 => ((t[i] as int - 0xC0) * 64 + Low(t[i + 1])) as char
    case 3 => ((t[i] as int - 0xE0) * 4096 + Low(t[i + 1]) * 64 + Low(t[i + 2])) as char
    case _ => ((t[i] as int - 0xF0) * 262144 + Low(t[i + 1]) * 4096 + Low(t[i + 2]) * 64 + Low(t[i + 3])) as char
  }

  /** The characters from `i` on, where all of it is well formed. */
  function DecodeFrom(t: Text, i: nat): Option<string>
    requires i <= |t|
    decreases |t| - i
  {
    if i == |t| then Some([])
    else if CharLen(t, i) == 0 then None
    else match DecodeFrom(t, i + CharLen(t, i))
      case None => None
      case Some(rest) => Some([CharAt(t, i)] + rest)
  }

  /** `str::from_utf8`. */
  function Decode(t: Text): Option<string> {
    DecodeFrom(t, 0)
  }

  /** Decoding succeeds on whole characters and on nothing else. */
  lemma {:induction false} DecodesText(t: Text, i: nat)
    requires i <= |t|
    ensures DecodeFrom(t, i).Some? <==> Utf8From(t, i)
    decreases |t| - i
  {
    if i < |t| && CharLen(t, i) > 0 { DecodesText(t, i + CharLen(t, i)); }
  }

  lemma Split64(n: nat)
    ensures n == n / 64 * 64 + n % 64
    ensures n / 4096 == n / 64 / 64 && n / 262144 == n / 64 / 64 / 64
  {
  }

  /** A character's bytes are one well-formed character, whatever follows them. */
  lemma CharEncodes(c: char, rest: Text)
    ensures CharLen(EncodeChar(c) + rest, 0) == |EncodeChar(c)|
    ensures CharAt(EncodeChar(c) + rest, 0) == c
  {
    var n := c as int;
    Split64(n);
    Split64(n / 64);
    Split64(n / 64 / 64);
    var t := EncodeChar(c) + rest;
    assert forall k :: 0 <= k < |EncodeChar(c)| ==> t[k] == EncodeChar(c)[k];
  }

  lemma {:induction false} DecodeShift(a: Text, b: Text, i: nat)
    requires i <= |b|
    ensures DecodeFrom(a + b, |a| + i) == DecodeFrom(b, i)
    decreases |b| - i
  {
    if i < |b| {
      assert CharLen(a + b, |a| + i) == CharLen(b, i);
      if CharLen(b, i) > 0 {
        assert CharAt(a + b, |a| + i) == CharAt(b, i);
        DecodeShift(a, b, i + CharLen(b, i));
      }
    }
  }

  /** What is encoded decodes back. */
  lemma {:induction false} EncodeDecode(s: string)
    ensures Decode(Encode(s)) == Some(s)
  {
    if s != [] {
      EncodeDecode(s[1..]);
      CharEncodes(s[0], Encode(s[1..]));
      DecodeShift(EncodeChar(s[0]), Encode(s[1..]), 0);
      assert [s[0]] + s[1..] == s;
    }
  }

  /** A line feed is one byte, and no other character's bytes hold it. */
  lemma {:induction false} LfIsItself(s: string)
    ensures LF in Encode(s) <==> '\n' in s
  {
    if s != [] {
      LfIsItself(s[1..]);
      assert s == [s[0]] + s[1..];
      CharLf(s[0]);
    }
  }

  lemma CharLf(c: char)
    ensures LF in EncodeChar(c) <==> c == '\n'
  {
  }
}
