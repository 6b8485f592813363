/** UTF-8 as defined by section 4 of RFC 3629, and the split of a byte sequence into its longest valid prefix and a
    remainder, which `str::from_utf8` reports as `valid_up_to`. */
module Utf8 {
  import opened Wrappers

  type Byte = b: int | 0 <= b < 0x100

  function Encode(c: char): (bytes: seq<Byte>)
    ensures 1 <= |bytes| <= 4
  {
    var n := c as int;
    if n < 0x80 then [n]
    else if n < 0x800 then [0xC0 + n / 0x40, 0x80 + n % 0x40]
    else if n < 0x10000 then [0xE0 + n / 0x40 / 0x40, 0x80 + n / 0x40 % 0x40, 0x80 + n % 0x40]
    else
      [0xF0 + n / 0x40 / 0x40 / 0x40, 0x80 + n / 0x40 / 0x40 % 0x40, 0x80 + n / 0x40 % 0x40, 0x80 + n % 0x40]
  }

  function EncodeAll(s: string): seq<Byte> {
    if s == [] then [] else Encode(s[0]) + EncodeAll(s[1..])
  }

  predicate IsTail(b: Byte) {
    0x80 <= b <= 0xBF
  }

  predicate IsSecondOfThree(first: Byte, b: Byte) {
    IsTail(b) && (first == 0xE0 ==> 0xA0 <= b) && (first == 0xED ==> b <= 0x9F)
  }

  predicate IsSecondOfFour(first: Byte, b: Byte) {
    IsTail(b) && (first == 0xF0 ==> 0x90 <= b) && (first == 0xF4 ==> b <= 0x8F)
  }

  /** The character at the front and the number of bytes it takes; `None` when the bytes are too few or malformed. */
  function DecodeFirst(b: seq<Byte>): (r: Option<(char, nat)>)
    ensures r.Some? ==> 1 <= r.value.1 <= |b|
  {
    if b == [] then None else
    var b0: int := b[0];
    if b0 <= 0x7F then
      Some((b0 as char, 1))
    else if |b| >= 2 && 0xC2 <= b0 <= 0xDF && IsTail(b[1]) then
      var b1: int := b[1];
      Some((((b0 - 0xC0) * 0x40 + (b1 - 0x80)) as char, 2))
    else if |b| >= 3 && 0xE0 <= b0 <= 0xEF && IsSecondOfThree(b0, b[1]) && IsTail(b[2]) then
      var b1: int, b2: int := b[1], b[2];
      Some(((((b0 - 0xE0) * 0x40 + (b1 - 0x80)) * 0x40 + (b2 - 0x80)) as char, 3))
    else if |b| >= 4 && 0xF0 <= b0 <= 0xF4 && IsSecondOfFour(b0, b[1]) && IsTail(b[2]) && IsTail(b[3]) then
      var b1: int, b2: int, b3: int := b[1], b[2], b[3];
      Some((((((b0 - 0xF0) * 0x40 + (b1 - 0x80)) * 0x40 + (b2 - 0x80)) * 0x40 + (b3 - 0x80)) as char, 4))
    else
      None
  }

  lemma EncodeDecode(b: seq<Byte>)
    requires DecodeFirst(b).Some?
    ensures var (c, n) := DecodeFirst(b).value; Encode(c) == b[..n]
  {
    var (c, n) := DecodeFirst(b).value;
    if n == 2 {
      assert c as int / 0x40 == b[0] - 0xC0;
    } else if n == 3 {
      assert c as int / 0x40 == (b[0] as int - 0xE0) * 0x40 + (b[1] as int - 0x80);
    } else if n == 4 {
      var hi := (b[0] as int - 0xF0) * 0x40 + (b[1] as int - 0x80);
      assert c as int / 0x40 == hi * 0x40 + (b[2] as int - 0x80);
      assert c as int / 0x40 / 0x40 == hi;
    }
  }

  lemma EncodeFirst(b: seq<Byte>, text: string, rest: seq<Byte>)
    requires DecodeFirst(b).Some? && EncodeAll(text) + rest == b[DecodeFirst(b).value.1..]
    ensures EncodeAll([DecodeFirst(b).value.0] + text) + rest == b
  {
    hide DecodeFirst, Encode;
    var (c, n) := DecodeFirst(b).value;
    EncodeDecode(b);
    assert ([c] + text)[1..] == text;
    ConcatAssoc(Encode(c), EncodeAll(text), rest);
    assert b[..n] + b[n..] == b;
  }

  /** The longest valid prefix, decoded, and the bytes after it. */
  function Split(b: seq<Byte>): (r: (string, seq<Byte>))
    ensures EncodeAll(r.0) + r.1 == b
    ensures DecodeFirst(r.1) == None
    decreases |b|
  {
    match DecodeFirst(b)
    case None => ("", b)
    case Some((c, n)) =>
      var (text, rest) := Split(b[n..]);
      EncodeFirst(b, text, rest);
      ([c] + text, rest)
  }

  lemma DecodeEncode(c: char, rest: seq<Byte>)
    ensures DecodeFirst(Encode(c) + rest) == Some((c, |Encode(c)|))
  {
    var e, n := Encode(c), c as int;
    var b := e + rest;
    assert forall i :: 0 <= i < |e| ==> b[i] == e[i];
    if n < 0x80 {
    } else if n < 0x800 {
      DecodeTwo(c, b);
    } else if n < 0x10000 {
      DecodeThree(c, b);
    } else {
      DecodeFour(c, b);
    }
  }

  lemma DecodeTwo(c: char, b: seq<Byte>)
    requires 0x80 <= c as int < 0x800 && |b| >= 2 && b[0] == Encode(c)[0] && b[1] == Encode(c)[1]
    ensures DecodeFirst(b) == Some((c, 2))
  {
  }

  lemma DecodeThree(c: char, b: seq<Byte>)
    requires 0x800 <= c as int < 0x10000
    requires |b| >= 3 && b[0] == Encode(c)[0] && b[1] == Encode(c)[1] && b[2] == Encode(c)[2]
    ensures DecodeFirst(b) == Some((c, 3))
  {
  }

  lemma DecodeFour(c: char, b: seq<Byte>)
    requires 0x10000 <= c as int
    requires |b| >= 4 && b[0] == Encode(c)[0] && b[1] == Encode(c)[1] && b[2] == Encode(c)[2] && b[3] == Encode(c)[3]
    ensures DecodeFirst(b) == Some((c, 4))
  {
  }

  lemma DecodeStable(a: seq<Byte>, b: seq<Byte>)
    requires DecodeFirst(a).Some?
    ensures DecodeFirst(a + b) == DecodeFirst(a)
  {
    var (c, n) := DecodeFirst(a).value;
    EncodeDecode(a);
    assert a + b == Encode(c) + (a[n..] + b);
    DecodeEncode(c, a[n..] + b);
  }

  /** What is still undecoded can be decoded later, together with what follows. */
  lemma {:induction false} SplitAppend(a: seq<Byte>, b: seq<Byte>)
    ensures var (text, rest) := Split(a);
            var (more, left) := Split(rest + b);
            Split(a + b) == (text + more, left)
    decreases |a|
  {
    match DecodeFirst(a)
    case None =>
      assert "" + Split(a + b).0 == Split(a + b).0;
    case Some((c, n)) =>
      DecodeStable(a, b);
      assert (a + b)[n..] == a[n..] + b;
      SplitAppend(a[n..], b);
      var (text, rest) := Split(a[n..]);
      ConcatAssoc([c], text, Split(rest + b).0);
  }

  /** The split is the only one: the text is decodable and no further character can be read off the remainder. */
  lemma {:induction false} SplitUnique(text: string, rest: seq<Byte>)
    requires DecodeFirst(rest) == None
    ensures Split(EncodeAll(text) + rest) == (text, rest)
  {
    if text == "" {
      assert EncodeAll(text) + rest == rest;
    } else {
      var c, tail := text[0], EncodeAll(text[1..]) + rest;
      ConcatAssoc(Encode(c), EncodeAll(text[1..]), rest);
      DecodeEncode(c, tail);
      assert (Encode(c) + tail)[|Encode(c)|..] == tail;
      SplitUnique(text[1..], rest);
      assert text == [c] + text[1..];
    }
  }

  lemma EncodeAllAppend(a: string, b: string)
    ensures EncodeAll(a + b) == EncodeAll(a) + EncodeAll(b)
  {
    if a == [] {
      assert a + b == b;
    } else {
      assert (a + b)[1..] == a[1..] + b;
      EncodeAllAppend(a[1..], b);
      ConcatAssoc(Encode(a[0]), EncodeAll(a[1..]), EncodeAll(b));
    }
  }

  // ---------- malformed bytes ----------

  /** The bytes begin a character that more bytes can complete. */
  predicate IsIncomplete(b: seq<Byte>) {
    || b == []
    || (|b| == 1 && 0xC2 <= b[0] <= 0xF4)
    || (|b| == 2 && 0xE0 <= b[0] <= 0xEF && IsSecondOfThree(b[0], b[1]))
    || (2 <= |b| <= 3 && 0xF0 <= b[0] <= 0xF4 && IsSecondOfFour(b[0], b[1]) && (|b| == 3 ==> IsTail(b[2])))
  }

  /** Undecodable bytes can be completed exactly if they are incomplete, and are malformed for good otherwise. */
  lemma IncompleteMeans(b: seq<Byte>)
    requires DecodeFirst(b) == None
    ensures IsIncomplete(b) <==> exists more :: DecodeFirst(b + more).Some?
  {
    if IsIncomplete(b) {
      Completed(b);
    }
    forall more | DecodeFirst(b + more).Some? ensures IsIncomplete(b) {
      assert forall i :: 0 <= i < |b| ==> (b + more)[i] == b[i];
    }
  }

  /** Some bytes that complete an incomplete character. */
  lemma Completed(b: seq<Byte>)
    requires IsIncomplete(b)
    ensures exists more :: DecodeFirst(b + more).Some?
  {
    var second: Byte := if b != [] && b[0] in {0xE0, 0xF0} then 0xA0 else 0x80;
    var more: seq<Byte> :=
      if b == [] then [0x20]
      else if |b| == 1 then
        (if b[0] <= 0xDF then [second] else if b[0] <= 0xEF then [second, 0x80] else [second, 0x80, 0x80])
      else if |b| == 2 then (if b[0] <= 0xEF then [0x80] else [0x80, 0x80])
      else [0x80];
    assert forall i :: 0 <= i < |b| ==> (b + more)[i] == b[i];
    assert forall i :: 0 <= i < |more| ==> (b + more)[|b| + i] == more[i];
    assert DecodeFirst(b + more).Some?;
  }

  /** After a malformed byte nothing is decoded any more. */
  lemma MalformedStays(b: seq<Byte>, more: seq<Byte>)
    requires DecodeFirst(b) == None && !IsIncomplete(b)
    ensures Split(b + more) == ("", b + more) && !IsIncomplete(b + more)
  {
    hide DecodeFirst, IsIncomplete;
    IncompleteMeans(b);
    IncompleteMeans(b + more);
    assert forall later :: b + more + later == b + (more + later);
  }
}
