/** The incremental decoder of the upstream event stream (src/upstream.rs). */
module Sse {
  import opened Wrappers
  import opened Text
  import opened Utf8

  const CRLF_CRLF := "\r\n\r\n"
  const LF_LF := "\n\n"

  // ---------- block delimiters ----------

  predicate DelimiterAt(s: string, pos: nat, len: nat) {
    (len == 4 && OccursAt(s, CRLF_CRLF, pos)) || (len == 2 && OccursAt(s, LF_LF, pos))
  }

  /** The delimiter that starts first, with its length. */
  function NextDelimiter(s: string): (r: Option<(nat, nat)>)
    ensures r.Some? ==> DelimiterAt(s, r.value.0, r.value.1)
    ensures forall pos: nat, len: nat :: DelimiterAt(s, pos, len) ==> r.Some? && r.value.0 <= pos
  {
    match (Find(s, CRLF_CRLF), Find(s, LF_LF))
    case (None, None) => None
    case (Some(i), None) => Some((i, 4))
    case (None, Some(j)) => Some((j, 2))
    case (Some(i), Some(j)) => if j < i then Some((j, 2)) else Some((i, 4))
  }

  method NextSseBlockDelimiter(buffer: string) returns (best: Option<(nat, nat)>)
    ensures best.Some? ==> DelimiterAt(buffer, best.value.0, best.value.1)
    ensures forall pos: nat, len: nat :: DelimiterAt(buffer, pos, len) ==> best.Some? && best.value.0 <= pos
    ensures best == NextDelimiter(buffer)
  {
    var delimiters := [CRLF_CRLF, LF_LF];
    best := None;
    for k := 0 to 2
      invariant k == 0 ==> best == None
      invariant k == 1 ==> best == match Find(buffer, CRLF_CRLF) case None => None case Some(i) => Some((i, 4))
      invariant k == 2 ==> best == NextDelimiter(buffer)
    {
      var pos := Find(buffer, delimiters[k]);
      if pos.Some? && (best.None? || pos.value < best.value.0) {
        best := Some((pos.value, |delimiters[k]|));
      }
    }
  }

  /** Text that arrives later neither moves nor hides the first delimiter: although the two delimiters differ in
      length, none can start earlier and end later. */
  lemma DelimiterStable(s: string, more: string)
    requires NextDelimiter(s).Some?
    ensures NextDelimiter(s + more) == NextDelimiter(s)
  {
    var (p, len) := NextDelimiter(s).value;
    var whole := s + more;
    SliceOfConcat(s, more, p, p + len);
    assert DelimiterAt(whole, p, len);
    var (q, n) := NextDelimiter(whole).value;
    if q + n <= |s| {
      SliceOfConcat(s, more, q, q + n);
      assert DelimiterAt(s, q, n);
    }
    DelimiterChars(whole, p, len);
    DelimiterChars(whole, q, n);
  }

  lemma DelimiterChars(s: string, pos: nat, len: nat)
    requires DelimiterAt(s, pos, len)
    ensures len == 4 ==> s[pos] == '\r' && s[pos + 1] == '\n' && s[pos + 2] == '\r' && s[pos + 3] == '\n'
    ensures len == 2 ==> s[pos] == '\n' && s[pos + 1] == '\n'
  {
    var d := s[pos..pos + len];
    assert d == if len == 4 then CRLF_CRLF else LF_LF;
    assert s[pos] == d[0] && s[pos + 1] == d[1];
    if len == 4 {
      assert s[pos + 2] == d[2] && s[pos + 3] == d[3];
    }
  }

  // ---------- cutting blocks ----------

  datatype Piece = Piece(text: string, delimiter: string)

  /** Every complete block at the front, with the delimiter it consumed, and the rest. */
  function Cut(s: string): (r: (seq<Piece>, string))
    ensures NextDelimiter(r.1) == None
    decreases |s|
  {
    match NextDelimiter(s)
    case None => ([], s)
    case Some((pos, len)) =>
      var (pieces, rest) := Cut(s[pos + len..]);
      ([Piece(s[..pos], s[pos..pos + len])] + pieces, rest)
  }

  function Render(pieces: seq<Piece>): string {
    if pieces == [] then "" else pieces[0].text + pieces[0].delimiter + Render(pieces[1..])
  }

  function Texts(pieces: seq<Piece>): (r: seq<string>)
    ensures |r| == |pieces| && forall i :: 0 <= i < |r| ==> r[i] == pieces[i].text
  {
    seq(|pieces|, i requires 0 <= i < |pieces| => pieces[i].text)
  }

  /** A piece is exactly one block: its delimiter is the first one in it. */
  ghost predicate IsBlock(p: Piece) {
    NextDelimiter(p.text + p.delimiter) == Some((|p.text|, |p.delimiter|))
  }

  lemma {:induction false} CutRenders(s: string)
    ensures Render(Cut(s).0) + Cut(s).1 == s
    ensures forall p :: p in Cut(s).0 ==> IsBlock(p)
    decreases |s|
  {
    match NextDelimiter(s)
    case None => assert "" + s == s;
    case Some((pos, len)) =>
      var tail := s[pos + len..];
      CutRenders(tail);
      var first := Piece(s[..pos], s[pos..pos + len]);
      FirstBlock(s, pos, len);
      RenderCons(first, Cut(tail).0, Cut(tail).1);
  }

  lemma RenderCons(first: Piece, pieces: seq<Piece>, rest: string)
    ensures Render([first] + pieces) + rest == first.text + first.delimiter + (Render(pieces) + rest)
  {
    assert ([first] + pieces)[1..] == pieces;
    ConcatAssoc(first.text + first.delimiter, Render(pieces), rest);
  }

  lemma FirstBlock(s: string, pos: nat, len: nat)
    requires NextDelimiter(s) == Some((pos, len))
    ensures IsBlock(Piece(s[..pos], s[pos..pos + len]))
    ensures s[..pos] + s[pos..pos + len] + s[pos + len..] == s
  {
    var front := s[..pos] + s[pos..pos + len];
    assert front + s[pos + len..] == s;
    CutsAtFirst(front, s[pos + len..], pos, len);
  }

  lemma CutsAtFirst(front: string, tail: string, pos: nat, len: nat)
    requires |front| == pos + len && NextDelimiter(front + tail) == Some((pos, len))
    ensures NextDelimiter(front) == Some((pos, len))
  {
    SliceOfConcat(front, tail, pos, pos + len);
    assert DelimiterAt(front, pos, len);
    DelimiterStable(front, tail);
  }

  /** Blocks and a rest without delimiter are recovered from their concatenation. */
  lemma {:induction false} CutUnique(pieces: seq<Piece>, rest: string)
    requires forall p :: p in pieces ==> IsBlock(p)
    requires NextDelimiter(rest) == None
    ensures Cut(Render(pieces) + rest) == (pieces, rest)
  {
    hide NextDelimiter, OccursAt;
    if pieces == [] {
      assert "" + rest == rest;
    } else {
      var p, tail := pieces[0], Render(pieces[1..]) + rest;
      var front := p.text + p.delimiter;
      assert p in pieces;
      ConcatAssoc(front, Render(pieces[1..]), rest);
      DelimiterStable(front, tail);
      PartsOf(p.text, p.delimiter, tail);
      CutUnique(pieces[1..], rest);
      assert pieces == [p] + pieces[1..];
    }
  }

  lemma PartsOf(text: string, delimiter: string, tail: string)
    ensures var whole, n := text + delimiter + tail, |text| + |delimiter|;
            whole[..|text|] == text && whole[|text|..n] == delimiter && whole[n..] == tail
  {
  }

  lemma {:induction false} CutAppend(s: string, more: string)
    ensures var (pieces, rest) := Cut(s);
            var (later, left) := Cut(rest + more);
            Cut(s + more) == (pieces + later, left)
    decreases |s|
  {
    match NextDelimiter(s)
    case None =>
      assert [] + Cut(s + more).0 == Cut(s + more).0;
    case Some((pos, len)) =>
      DelimiterStable(s, more);
      DropOfConcat(s, more, pos + len);
      TakeOfConcat(s, more, pos);
      SliceOfConcat(s, more, pos, pos + len);
      CutAppend(s[pos + len..], more);
      var (pieces, rest) := Cut(s[pos + len..]);
      ConcatAssoc([Piece(s[..pos], s[pos..pos + len])], pieces, Cut(rest + more).0);
  }

  // ---------- the decoder ----------

  datatype Decoder = Decoder(buffer: string, carry: seq<Byte>)

  const EMPTY := Decoder("", [])

  function Feed(d: Decoder, bytes: seq<Byte>): (Decoder, seq<Piece>) {
    var (text, carry) := Split(d.carry + bytes);
    var (pieces, buffer) := Cut(d.buffer + text);
    (Decoder(buffer, carry), pieces)
  }

  function FeedAll(d: Decoder, chunks: seq<seq<Byte>>): (Decoder, seq<Piece>)
    decreases |chunks|
  {
    if chunks == [] then (d, []) else
    var (d1, pieces) := Feed(d, chunks[0]);
    var (d2, later) := FeedAll(d1, chunks[1..]);
    (d2, pieces + later)
  }

  /** No delimiter is left in the buffer and no character in the carry-over. */
  ghost predicate Settled(d: Decoder) {
    NextDelimiter(d.buffer) == None && DecodeFirst(d.carry) == None
  }

  lemma FeedTwo(d: Decoder, a: seq<Byte>, b: seq<Byte>)
    ensures var (d1, pieces) := Feed(d, a);
            var (d2, later) := Feed(d1, b);
            Feed(d, a + b) == (d2, pieces + later)
  {
    var (text, carry) := Split(d.carry + a);
    SplitAppend(d.carry + a, b);
    ConcatAssoc(d.carry, a, b);
    var more := Split(carry + b).0;
    CutAppend(d.buffer + text, more);
    ConcatAssoc(d.buffer, text, more);
  }

  /** Network chunking is invisible: the same bytes give the same blocks, buffer and carry-over however they are cut. */
  lemma {:induction false} ChunkingIsInvisible(d: Decoder, chunks: seq<seq<Byte>>)
    requires Settled(d)
    ensures FeedAll(d, chunks) == Feed(d, Flatten(chunks))
    decreases |chunks|
  {
    if chunks == [] {
      assert d.carry + [] == d.carry && d.buffer + "" == d.buffer;
    } else {
      var (d1, pieces) := Feed(d, chunks[0]);
      ChunkingIsInvisible(d1, chunks[1..]);
      FeedTwo(d, chunks[0], Flatten(chunks[1..]));
    }
  }

  /** At all times the emitted blocks with their delimiters, the buffer and the carry-over are the bytes received, and
      the decoder is settled. */
  lemma NoByteIsLost(chunks: seq<seq<Byte>>)
    ensures var (d, pieces) := FeedAll(EMPTY, chunks);
            && EncodeAll(Render(pieces)) + EncodeAll(d.buffer) + d.carry == Flatten(chunks)
            && Settled(d)
            && forall p :: p in pieces ==> IsBlock(p)
  {
    ChunkingIsInvisible(EMPTY, chunks);
    var bytes := Flatten(chunks);
    assert [] + bytes == bytes;
    var (text, carry) := Split(bytes);
    assert "" + text == text;
    CutRenders(text);
    EncodeAllAppend(Render(Cut(text).0), Cut(text).1);
  }

  /** A byte that is malformed, not merely incomplete, stays at the head of the carry-over: no text and no block comes
      out of anything that follows it, in any pieces. */
  lemma {:induction false} MalformedByteBlocks(d: Decoder, chunks: seq<seq<Byte>>)
    requires Settled(d) && !IsIncomplete(d.carry)
    ensures FeedAll(d, chunks) == (d.(carry := d.carry + Flatten(chunks)), [])
    decreases |chunks|
  {
    hide NextDelimiter, DecodeFirst, IsIncomplete, Split;
    if chunks == [] {
      assert d.carry + [] == d.carry;
    } else {
      MalformedStays(d.carry, chunks[0]);
      SplitEnds(d.carry + chunks[0]);
      assert d.buffer + "" == d.buffer;
      var next := d.(carry := d.carry + chunks[0]);
      assert Cut(d.buffer) == ([], d.buffer) && Feed(d, chunks[0]) == (next, []);
      MalformedByteBlocks(next, chunks[1..]);
      ConcatAssoc(d.carry, chunks[0], Flatten(chunks[1..]));
      assert FeedAll(d, chunks).1 == [];
    }
  }

  lemma SplitEnds(bytes: seq<Byte>)
    ensures DecodeFirst(Split(bytes).1) == None
  {
  }

  lemma CutStep(start: string, pieces: seq<Piece>, buffer: string, pos: nat, len: nat)
    requires Cut(start) == (pieces + Cut(buffer).0, Cut(buffer).1)
    requires NextDelimiter(buffer) == Some((pos, len))
    ensures var piece, tail := Piece(buffer[..pos], buffer[pos..pos + len]), Cut(buffer[pos + len..]);
            Cut(start) == (pieces + [piece] + tail.0, tail.1) && Texts(pieces + [piece]) == Texts(pieces) + [piece.text]
  {
    ConcatAssoc(pieces, [Piece(buffer[..pos], buffer[pos..pos + len])], Cut(buffer[pos + len..]).0);
  }

  /** The two variables that `parse_chat_sse_bytes` updates in place. */
  lemma DelimiterFits(s: string)
    ensures match NextDelimiter(s) case None => true case Some((pos, len)) => 2 <= len && pos + len <= |s|
  {
  }

  class SseDecoder {
    var buffer: string
    var carry: seq<Byte>

    function Model(): Decoder
      reads this
    {
      Decoder(buffer, carry)
    }

    constructor ()
      ensures Model() == EMPTY
    {
      buffer, carry := "", [];
    }

    method ParseChatSseBytes(bytes: seq<Byte>) returns (blocks: seq<string>)
      modifies this
      ensures var (d, pieces) := Feed(old(Model()), bytes); Model() == d && blocks == Texts(pieces)
    {
      hide Split, Find, OccursAt;
      var (text, rest) := Split(carry + bytes);
      carry := rest;
      buffer := buffer + text;
      ghost var start := buffer;
      ghost var pieces: seq<Piece> := [];
      blocks := [];
      assert pieces + Cut(start).0 == Cut(start).0;
      var next := NextSseBlockDelimiter(buffer);
      while next.Some?
        invariant next == NextDelimiter(buffer)
        invariant carry == rest
        invariant Cut(start) == (pieces + Cut(buffer).0, Cut(buffer).1)
        invariant blocks == Texts(pieces)
        decreases |buffer|
      {
        var (pos, len) := next.value;
        DelimiterFits(buffer);
        ghost var piece := Piece(buffer[..pos], buffer[pos..pos + len]);
        CutStep(start, pieces, buffer, pos, len);
        blocks := blocks + [buffer[..pos]];
        pieces := pieces + [piece];
        buffer := buffer[pos + len..];
        next := NextSseBlockDelimiter(buffer);
      }
      assert pieces + [] == pieces;
    }
  }
}
