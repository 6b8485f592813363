/** Reading an event block (src/upstream.rs), and printing one the way an upstream does. */
module SsePayload {
  import opened Wrappers
  import opened Text
  import opened Utf8
  import opened Sse

  const DATA := "data:"
  const EVENT := "event:"
  const NEWLINE := "\n"

  /** `str::lines`: the terminator LF or CRLF is removed and a final empty line is not reported. */
  function Lines(block: string): seq<string>
    decreases |block|
  {
    match Find(block, NEWLINE)
    case None => if block == "" then [] else [block]
    case Some(i) => [StripCarriageReturn(block[..i])] + Lines(block[i + 1..])
  }

  function StripCarriageReturn(line: string): string {
    if line != "" && line[|line| - 1] == '\r' then line[..|line| - 1] else line
  }

  function DataField(line: string): seq<string> {
    if DATA <= line then [TrimStart(line[|DATA|..])] else []
  }

  function DataFields(lines: seq<string>): seq<string> {
    if lines == [] then [] else DataField(lines[0]) + DataFields(lines[1..])
  }

  function Join(parts: seq<string>, separator: string): string {
    if parts == [] then ""
    else if |parts| == 1 then parts[0]
    else parts[0] + separator + Join(parts[1..], separator)
  }

  function SseData(block: string): Option<string> {
    var data := DataFields(Lines(block));
    if data == [] then None else Some(Join(data, NEWLINE))
  }

  /** The first event field that is not blank. */
  function EventField(lines: seq<string>): Option<string> {
    if lines == [] then None
    else if EVENT <= lines[0] && Trim(lines[0][|EVENT|..]) != "" then Some(Trim(lines[0][|EVENT|..]))
    else EventField(lines[1..])
  }

  function SseEvent(block: string): Option<string> {
    EventField(Lines(block))
  }

  lemma {:induction false} DataFieldsSnoc(lines: seq<string>, i: nat)
    requires i < |lines|
    ensures DataFields(lines[..i + 1]) == DataFields(lines[..i]) + DataField(lines[i])
  {
    if i == 0 {
      assert lines[..1][1..] == [];
    } else {
      assert lines[..i + 1][1..] == lines[1..][..i] && lines[..i][1..] == lines[1..][..i - 1];
      DataFieldsSnoc(lines[1..], i - 1);
      ConcatAssoc(DataField(lines[0]), DataFields(lines[..i][1..]), DataField(lines[i]));
    }
  }

  method SseDataFromBlock(block: string) returns (result: Option<string>)
    ensures result == SseData(block)
  {
    var lines := Lines(block);
    var data: seq<string> := [];
    for i := 0 to |lines|
      invariant data == DataFields(lines[..i])
    {
      DataFieldsSnoc(lines, i);
      if DATA <= lines[i] {
        data := data + [TrimStart(lines[i][|DATA|..])];
      }
    }
    assert lines[..|lines|] == lines;
    result := if data == [] then None else Some(Join(data, NEWLINE));
  }

  method SseEventFromBlock(block: string) returns (result: Option<string>)
    ensures result == SseEvent(block)
  {
    var lines := Lines(block);
    for i := 0 to |lines|
      invariant EventField(lines) == EventField(lines[i..])
    {
      assert lines[i..][1..] == lines[i + 1..];
      if EVENT <= lines[i] {
        var event := Trim(lines[i][|EVENT|..]);
        if event != "" {
          return Some(event);
        }
      }
    }
    return None;
  }

  // ---------- printing ----------

  /** The lines of a payload; a payload has at least one. */
  function PayloadLines(payload: string): (lines: seq<string>)
    ensures lines != []
    ensures forall l :: l in lines ==> '\n' !in l
    decreases |payload|
  {
    match Find(payload, NEWLINE)
    case None => NoNewline(payload); [payload]
    case Some(i) => NoNewlineBefore(payload, i); [payload[..i]] + PayloadLines(payload[i + 1..])
  }

  lemma NoNewline(s: string)
    requires Find(s, NEWLINE) == None
    ensures '\n' !in s
  {
    forall i | 0 <= i < |s| ensures s[i] != '\n' {
      assert s[i..i + 1] == [s[i]];
      assert !OccursAt(s, NEWLINE, i);
    }
  }

  lemma NoNewlineBefore(s: string, i: nat)
    requires Find(s, NEWLINE) == Some(i)
    ensures '\n' !in s[..i] && s == s[..i] + NEWLINE + s[i + 1..]
  {
    forall j | 0 <= j < i ensures s[j] != '\n' {
      assert s[j..j + 1] == [s[j]];
      assert !OccursAt(s, NEWLINE, j);
    }
    assert s[i..i + 1] == NEWLINE;
  }

  function PrintLines(lines: seq<string>): string
    requires lines != []
  {
    if |lines| == 1 then DATA + " " + lines[0]
    else DATA + " " + lines[0] + NEWLINE + PrintLines(lines[1..])
  }

  /** One event: a data line for each line of the payload, then a blank line. */
  function PrintPayload(payload: string): Piece {
    Piece(PrintLines(PayloadLines(payload)), LF_LF)
  }

  function PrintAll(payloads: seq<string>): (pieces: seq<Piece>)
    ensures |pieces| == |payloads| && forall i :: 0 <= i < |pieces| ==> pieces[i] == PrintPayload(payloads[i])
  {
    seq(|payloads|, i requires 0 <= i < |payloads| => PrintPayload(payloads[i]))
  }

  predicate IsPlain(line: string) {
    '\n' !in line && '\r' !in line
  }

  lemma FindFirstNewline(a: string, b: string)
    requires '\n' !in a
    ensures Find(a + NEWLINE + b, NEWLINE) == Some(|a|)
  {
    var s := a + NEWLINE + b;
    assert s[|a|..|a| + 1] == NEWLINE;
    assert OccursAt(s, NEWLINE, |a|);
    var i := Find(s, NEWLINE).value;
    assert s[i] == s[i..i + 1][0];
  }

  lemma NoNewlineFound(s: string)
    requires '\n' !in s
    ensures Find(s, NEWLINE) == None
  {
    forall i: nat ensures !OccursAt(s, NEWLINE, i) {
      if i < |s| {
        assert s[i..i + 1] == [s[i]];
      }
    }
  }

  function Prefixed(lines: seq<string>): seq<string> {
    if lines == [] then [] else [DATA + " " + lines[0]] + Prefixed(lines[1..])
  }

  lemma {:induction false} LinesOfPrinted(lines: seq<string>)
    requires lines != [] && forall l :: l in lines ==> IsPlain(l)
    ensures Lines(PrintLines(lines)) == Prefixed(lines)
  {
    var line := DATA + " " + lines[0];
    assert lines[0] in lines;
    assert '\n' !in line && StripCarriageReturn(line) == line && line != "" by {
      assert line[|line| - 1] == ' ' || line[|line| - 1] in lines[0];
    }
    hide IsPlain, StripCarriageReturn, Find;
    if |lines| == 1 {
      NoNewlineFound(line);
    } else {
      var rest := PrintLines(lines[1..]);
      FindFirstNewline(line, rest);
      var s := line + NEWLINE + rest;
      assert s[..|line|] == line && s[|line| + 1..] == rest && s != "";
      LinesOfPrinted(lines[1..]);
    }
  }

  function TrimAll(lines: seq<string>): seq<string> {
    if lines == [] then [] else [TrimStart(lines[0])] + TrimAll(lines[1..])
  }

  lemma {:induction false} DataOfPrefixed(lines: seq<string>)
    ensures DataFields(Prefixed(lines)) == TrimAll(lines)
  {
    hide TrimStart;
    if lines != [] {
      var first, rest, field := DATA + " " + lines[0], Prefixed(lines[1..]), " " + lines[0];
      assert DataField(first) == [TrimStart(lines[0])] by {
        ConcatAssoc(DATA, " ", lines[0]);
        assert (DATA + field)[..|DATA|] == DATA && (DATA + field)[|DATA|..] == field && field[1..] == lines[0];
        TrimStartAppend(" ", lines[0]);
        SpaceIsBlank();
      }
      hide DataField;
      DataOfPrefixed(lines[1..]);
      assert ([first] + rest)[0] == first && ([first] + rest)[1..] == rest;
    }
  }

  lemma SpaceIsBlank()
    ensures TrimStart(" ") == ""
  {
  }

  lemma JoinPayloadLines(payload: string)
    ensures Join(PayloadLines(payload), NEWLINE) == payload
    decreases |payload|
  {
    match Find(payload, NEWLINE)
    case None =>
    case Some(i) => NoNewlineBefore(payload, i);
  }

  lemma PayloadLinesArePlain(payload: string)
    requires '\r' !in payload
    ensures forall l :: l in PayloadLines(payload) ==> IsPlain(l)
    decreases |payload|
  {
  }

  /** Trimming can only shorten the joined text, and shortens it whenever some line changes. */
  lemma {:induction false} JoinTrimmed(lines: seq<string>)
    ensures |TrimAll(lines)| == |lines|
    ensures |Join(TrimAll(lines), NEWLINE)| <= |Join(lines, NEWLINE)|
    ensures |Join(TrimAll(lines), NEWLINE)| == |Join(lines, NEWLINE)| ==> TrimAll(lines) == lines
  {
    if lines != [] {
      JoinTrimmed(lines[1..]);
      assert TrimAll(lines)[1..] == TrimAll(lines[1..]);
      assert lines == [lines[0]] + lines[1..];
    }
  }

  predicate StartsWithWhitespace(line: string) {
    line != "" && IsWhitespace(line[0])
  }

  lemma {:induction false} TrimAllKeeps(lines: seq<string>)
    ensures TrimAll(lines) == lines <==> forall l :: l in lines ==> !StartsWithWhitespace(l)
  {
    if lines != [] {
      var first, rest := lines[0], lines[1..];
      TrimAllKeeps(rest);
      assert TrimStart(first) == first <==> !StartsWithWhitespace(first);
      hide TrimStart, StartsWithWhitespace;
      assert TrimAll(lines)[1..] == TrimAll(rest) && TrimAll(lines)[0] == TrimStart(first);
      assert lines == [first] + rest;
    }
  }

  /** Printing then reading returns the payload exactly when none of its lines starts with whitespace. */
  lemma PrintThenRead(payload: string)
    requires '\r' !in payload
    ensures SseData(PrintPayload(payload).text) == Some(payload)
       <==> forall l :: l in PayloadLines(payload) ==> !StartsWithWhitespace(l)
  {
    var lines := PayloadLines(payload);
    PayloadLinesArePlain(payload);
    LinesOfPrinted(lines);
    DataOfPrefixed(lines);
    JoinPayloadLines(payload);
    JoinTrimmed(lines);
    TrimAllKeeps(lines);
  }

  // ---------- fields, line by line ----------

  lemma FirstLine(line: string, end: string, rest: string)
    requires IsPlain(line) && (end == "\n" || end == "\r\n")
    ensures Lines(line + end + rest) == [line] + Lines(rest)
  {
    var front := if end == "\n" then line else line + "\r";
    var block := line + end + rest;
    assert block == front + NEWLINE + rest;
    FindFirstNewline(front, rest);
    assert block[..|front|] == front && block[|front| + 1..] == rest;
    assert StripCarriageReturn(front) == line by {
      assert line != "" ==> line[|line| - 1] in line;
      assert end == "\r\n" ==> front[|front| - 1] == '\r' && front[..|front| - 1] == line;
    }
  }

  /** How a block is read, line by line: a line counts as data exactly if it starts with "data:", as the event exactly
      if it is the first that starts with "event:" and says something; all other lines are ignored, and a carriage
      return at the end of a line is not part of it. */
  lemma LineIsRead(line: string, end: string, rest: string)
    requires IsPlain(line) && (end == "\n" || end == "\r\n")
    ensures SseData("") == None && SseEvent("") == None
    ensures var block := line + end + rest;
            && SseData(block) == (if "data:" <= line then
                                    Some(TrimStart(line[5..])
                                         + if SseData(rest).Some? then "\n" + SseData(rest).value else "")
                                  else SseData(rest))
            && SseEvent(block) == (if "event:" <= line && Trim(line[6..]) != "" then Some(Trim(line[6..]))
                                   else SseEvent(rest))
  {
    hide TrimStart, TrimEnd, Lines;
    NothingIsRead();
    FirstLine(line, end, rest);
    var lines := [line] + Lines(rest);
    assert lines[0] == line && lines[1..] == Lines(rest);
    var data, more := DataField(line), DataFields(Lines(rest));
    assert DataFields(lines) == data + more;
    if data != [] {
      assert (data + more)[0] == data[0] && (data + more)[1..] == more;
      assert data[0] + "" == data[0];
      if more != [] {
        ConcatAssoc(data[0], NEWLINE, Join(more, NEWLINE));
      }
    } else {
      assert [] + more == more;
    }
  }

  lemma NothingIsRead()
    ensures Lines("") == []
  {
    NoNewlineFound("");
  }

  // ---------- printed events are blocks ----------

  /** No delimiter inside, and the text starts and ends with characters other than line feeds. */
  ghost predicate Delimitable(s: string) {
    && s != "" && s[0] != '\n' && s[|s| - 1] != '\n' && '\r' !in s
    && forall i :: 0 <= i < |s| - 1 ==> !(s[i] == '\n' && s[i + 1] == '\n')
  }

  lemma {:induction false} PrintedIsDelimitable(lines: seq<string>)
    requires lines != [] && forall l :: l in lines ==> IsPlain(l)
    ensures Delimitable(PrintLines(lines))
  {
    var first := DATA + " " + lines[0];
    assert lines[0] in lines;
    assert '\n' !in first && '\r' !in first;
    if |lines| > 1 {
      PrintedIsDelimitable(lines[1..]);
      DelimitableJoin(first, PrintLines(lines[1..]));
    }
  }

  lemma DelimitableJoin(a: string, b: string)
    requires a != "" && IsPlain(a) && Delimitable(b)
    ensures Delimitable(a + NEWLINE + b)
  {
  }

  lemma DelimitableIsBlock(s: string)
    requires Delimitable(s)
    ensures IsBlock(Piece(s, LF_LF))
  {
    var t := s + LF_LF;
    assert t[|s|..|s| + 2] == LF_LF;
    assert DelimiterAt(t, |s|, 2);
    var (pos, len) := NextDelimiter(t).value;
    DelimiterChars(t, pos, len);
  }

  predicate Printable(payload: string) {
    '\r' !in payload && forall l :: l in PayloadLines(payload) ==> !StartsWithWhitespace(l)
  }

  /** Events printed and sent in pieces of any size are decoded into exactly the payloads, and nothing is left over. */
  lemma PrintThenParse(payloads: seq<string>, chunks: seq<seq<Byte>>)
    requires forall p :: p in payloads ==> Printable(p)
    requires Flatten(chunks) == EncodeAll(Render(PrintAll(payloads)))
    ensures var (d, pieces) := FeedAll(EMPTY, chunks);
            && d == EMPTY
            && |pieces| == |payloads|
            && forall i :: 0 <= i < |payloads| ==> SseData(pieces[i].text) == Some(payloads[i])
  {
    var printed := PrintAll(payloads);
    var text := Render(printed);
    forall i | 0 <= i < |payloads| ensures IsBlock(printed[i]) && SseData(printed[i].text) == Some(payloads[i]) {
      PrintedPayload(payloads[i]);
    }
    ChunkingIsInvisible(EMPTY, chunks);
    FeedEncoded(printed);
  }

  lemma PrintedPayload(payload: string)
    requires Printable(payload)
    ensures IsBlock(PrintPayload(payload)) && SseData(PrintPayload(payload).text) == Some(payload)
  {
    PayloadLinesArePlain(payload);
    PrintedIsDelimitable(PayloadLines(payload));
    DelimitableIsBlock(PrintPayload(payload).text);
    PrintThenRead(payload);
  }

  lemma FeedEncoded(pieces: seq<Piece>)
    requires forall p :: p in pieces ==> IsBlock(p)
    ensures Feed(EMPTY, EncodeAll(Render(pieces))) == (EMPTY, pieces)
  {
    var text := Render(pieces);
    SplitUnique(text, []);
    assert EncodeAll(text) + [] == EncodeAll(text) == [] + EncodeAll(text);
    CutUnique(pieces, "");
    assert "" + text == text + "" == text;
  }
}
