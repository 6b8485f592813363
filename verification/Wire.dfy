/** From the bytes of the upstream to the stored response: the decoder, the driver and the assembler together agree with
    the conversion of the whole reply. */
module Wire {
  import opened Wrappers
  import opened Text
  import opened Utf8
  import opened SsePayload
  import opened Items
  import opened Assembly
  import opened Runs
  import opened NonStream
  import opened StreamTexts
  import opened Refinement
  import opened Driver

  /** A printed payload has no event field. */
  lemma {:induction false} NoEventField(lines: seq<string>)
    ensures EventField(Prefixed(lines)) == None
  {
    if lines != [] {
      NoEventField(lines[1..]);
      var printed := Prefixed(lines);
      assert printed[0][0] == 'd';
      assert printed[1..] == Prefixed(lines[1..]);
    }
  }

  lemma PrintedHasNoEvent(payload: string)
    requires Printable(payload)
    ensures SseEvent(PrintPayload(payload).text) == None
  {
    var lines := PayloadLines(payload);
    PayloadLinesArePlain(payload);
    LinesOfPrinted(lines);
    NoEventField(lines);
  }

  /** A payload that the driver takes for a chunk with these choices. */
  ghost predicate IsChunkPayload(env: Env, payload: string, choices: seq<Choice>) {
    Printable(payload) && Trim(payload) != DONE_MARK && env.parse(payload) == Chunk(choices)
  }

  lemma OneLine(payload: string)
    requires '\n' !in payload
    ensures PayloadLines(payload) == [payload]
  {
    NoNewlineFound(payload);
  }

  lemma EndMarkIsPrintable()
    ensures Printable(DONE_MARK) && Trim(DONE_MARK) == DONE_MARK
  {
    hide Trim, PayloadLines;
    OneLine(DONE_MARK);
    TrimsToItself(DONE_MARK);
  }

  /** The blocks of a printed stream are the printed payloads, however the bytes were cut. */
  lemma PrintedBlocks(payloads: seq<string>)
    requires forall p :: p in payloads ==> Printable(p)
    ensures Blocks(EncodeAll(Sse.Render(PrintAll(payloads)))) == Sse.Texts(PrintAll(payloads))
  {
    hide Printable, Sse.IsBlock, PrintPayload;
    var printed := PrintAll(payloads);
    forall p | p in printed ensures Sse.IsBlock(p) {
      var i :| 0 <= i < |printed| && printed[i] == p;
      PrintedPayload(payloads[i]);
    }
    FeedEncoded(printed);
  }

  /** The payloads of a complete stream: the chunks, then the end mark. */
  ghost predicate CarriesChunks(env: Env, payloads: seq<string>, chunks: seq<seq<Choice>>) {
    |payloads| == |chunks| && forall i :: 0 <= i < |chunks| ==> IsChunkPayload(env, payloads[i], chunks[i])
  }

  lemma {:induction false} ChunkChoices(env: Env, blocks: seq<string>, chunks: seq<seq<Choice>>)
    requires |blocks| == |chunks| && forall i :: 0 <= i < |blocks| ==>
        ChoicesIn(env, blocks[i]) == chunks[i]
    ensures AllChoices(env, blocks) == Flatten(chunks)
  {
    hide ChoicesIn;
    if blocks != [] {
      assert blocks[0] == blocks[0..][0];
      ChunkChoices(env, blocks[1..], chunks[1..]);
    }
  }

  lemma PayloadsArePrintable(env: Env, payloads: seq<string>, chunks: seq<seq<Choice>>)
    requires CarriesChunks(env, payloads, chunks)
    ensures forall p :: p in payloads + [DONE_MARK] ==> Printable(p)
  {
    hide Printable, Trim;
    EndMarkIsPrintable();
    forall p | p in payloads ensures Printable(p) {
      var i :| 0 <= i < |payloads| && payloads[i] == p;
      assert IsChunkPayload(env, payloads[i], chunks[i]);
    }
  }

  /** A complete printed stream leaves the assembler with the choices of all chunks, finalized. */
  lemma PrintedStreamRun(cfg: Config, env: Env, payloads: seq<string>, chunks: seq<seq<Choice>>)
    requires CarriesChunks(env, payloads, chunks)
    ensures var bytes := EncodeAll(Sse.Render(PrintAll(payloads + [DONE_MARK])));
            var (run, over) := BlocksRun(cfg, env, Begun(), Blocks(bytes));
            over && run.asm == FinalizeOrFail(cfg, env, AfterChoices(cfg, Flatten(chunks)))
  {
    hide Printable, Trim, SseData, SseEvent, PrintPayload, BlocksRun, Begun, FinalizeOrFail, AfterChoices, Blocks,
         Sse.Render, AllChoices, FirstStop, Since, IsGoing;
    var all := payloads + [DONE_MARK];
    var blocks, texts := Sse.Texts(PrintAll(all)), Sse.Texts(PrintAll(payloads));
    var mark := PrintPayload(DONE_MARK).text;
    PayloadsArePrintable(env, payloads, chunks);
    PrintedBlocks(all);
    assert blocks == texts + [mark];
    forall i | 0 <= i < |texts| ensures IsChunkBlock(env, texts[i]) && ChoicesIn(env, texts[i]) == chunks[i] {
      assert IsChunkPayload(env, payloads[i], chunks[i]);
      PrintedPayload(payloads[i]);
      PrintedHasNoEvent(payloads[i]);
    }
    assert ActionOf(env, mark) == Complete by {
      EndMarkIsPrintable();
      PrintedPayload(DONE_MARK);
      PrintedHasNoEvent(DONE_MARK);
    }
    ActionMeans(env, mark);
    hide ActionOf, IsChunkBlock, ChoicesIn;
    ChunkChoices(env, texts, chunks);
    assert forall i :: 0 <= i < |texts| ==> blocks[i] == texts[i];
    FirstStopMeans(env, blocks, |texts|);
    assert blocks[..|texts|] == texts;
    var run := RunToStop(cfg, env, blocks);
  }

  /** End to end: a reply cut into chunks in any way, printed as events, sent as bytes cut by the network in any way,
      and converted as a stream, gives the client and the store what the conversion of the whole reply gives, exactly
      under the conditions on texts, calls and names that hold for the assembler. */
  lemma WireRefinesWholeReply(cfg: Config, env: Env, reply: Reply, payloads: seq<string>, chunks: seq<seq<Choice>>,
                              events: seq<NetworkEvent>)
    requires CarriesChunks(env, payloads, chunks) && env.storeError == None
    requires Received(events) == EncodeAll(Sse.Render(PrintAll(payloads + [DONE_MARK])))
    requires CutsInto(reply, Flatten(chunks))
    ensures var b, whole := Outcome(cfg, env, Streamed(events)).asm, WholeRecord(cfg, reply);
            && |b.stored| == 1
            && (SameRecord(b.stored[0], whole) <==> TextsKept(Flatten(chunks)) && AllComparable(cfg, reply))
            && (SameRecord(b.stored[0], whole) ==>
                  (EraseAll(b.stored[0].output) == EraseAll(whole.output) <==>
                   NamesAgree(reply) || Texts(reply).1 == ""))
            && b.log != []
            && AnnouncesResponse(b, reply.finishReason)
  {
    hide Received, PrintAll, Finalize, AfterChoices, CutsInto, AllComparable, TextsKept, CarriesChunks, WholeRecord,
         EraseAll, NamesAgree, Texts, CompletionStatus, SameRecord, BlocksRun, Blocks, Begun, BreakMessage,
         Unfinished, EndedWith, EndOfStream, UpstreamFailure, Act;
    assert Outcome(cfg, env, Streamed(events)).asm == Finalize(cfg, AfterChoices(cfg, Flatten(chunks)), true).0 by {
      PrintedStreamRun(cfg, env, payloads, chunks);
      StreamUnfinished(cfg, Flatten(chunks));
      FinalizeEnds(cfg, AfterChoices(cfg, Flatten(chunks)), true);
    }
    StreamRefinesWholeReply(cfg, reply, Flatten(chunks));
  }
}
