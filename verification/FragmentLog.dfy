/** The argument deltas sent downstream are the fragments received. */
module FragmentLog {
  import opened Wrappers
  import opened ToolTable
  import opened Items
  import opened Assembly
  import opened Steps
  import opened Fragments

  /** The argument deltas among the events. */
  function ArgumentDeltas(log: seq<Event>): (deltas: seq<Payload>)
    ensures forall p :: p in deltas ==> p.ArgumentsDelta?
  {
    if log == [] then []
    else
      var last := log[|log| - 1].payload;
      ArgumentDeltas(log[..|log| - 1]) + if last.ArgumentsDelta? then [last] else []
  }

  function SentDeltas(a: Asm): (deltas: seq<Payload>)
    ensures forall p :: p in deltas ==> p.ArgumentsDelta?
  {
    ArgumentDeltas(a.log)
  }

  /** What was sent for one index. */
  function Sent(deltas: seq<Payload>, k: nat): string
    requires forall p :: p in deltas ==> p.ArgumentsDelta?
  {
    if deltas == [] then ""
    else
      var last := deltas[|deltas| - 1];
      assert last in deltas;
      Sent(deltas[..|deltas| - 1], k) + if last.id == CallItemId(k) then last.text else ""
  }

  lemma SentSnoc(deltas: seq<Payload>, last: Payload, k: nat)
    requires last.ArgumentsDelta? && forall p :: p in deltas ==> p.ArgumentsDelta?
    ensures Sent(deltas + [last], k) == Sent(deltas, k) + if last.id == CallItemId(k) then last.text else ""
  {
    SnocParts(deltas, last);
  }

  // ---------- what a step sends ----------

  lemma EmitDeltas(a: Asm, payload: Payload)
    ensures SentDeltas(Emit(a, payload)) == SentDeltas(a) + if payload.ArgumentsDelta? then [payload] else []
  {
    SnocParts(a.log, Event(a.sequence + 1, payload));
  }

  /** A quiet step sends no argument delta. */
  lemma {:induction false} QuietDeltas(a: Asm, b: Asm)
    requires Adds(a, b, true)
    ensures SentDeltas(b) == SentDeltas(a)
    decreases |b.log|
  {
    if |a.log| == |b.log| {
      assert a.log == b.log;
    } else {
      var n := |b.log| - 1;
      var before := b.(log := b.log[..n], sequence := b.sequence - 1);
      QuietDeltas(a, before);
      assert ArgumentDeltas(b.log[..n]) + [] == ArgumentDeltas(b.log[..n]);
    }
  }

  // ---------- the steps that send them ----------

  function DeltaFor(cfg: Config, k: nat, call: Call, part: string): (deltas: seq<Payload>)
    ensures forall p :: p in deltas ==> p.ArgumentsDelta?
  {
    if part == "" || !call.core.added || IsCustom(cfg.tools, call.core.name) || call.outputIndex.None? then []
    else [ArgumentsDelta(call.outputIndex.value, CallItemId(k), call.core.callId, part)]
  }

  lemma EmitArgumentsDeltas(cfg: Config, a: Asm, k: nat, part: string)
    requires k in a.calls
    ensures SentDeltas(EmitToolArguments(cfg, a, k, part)) == SentDeltas(a) + DeltaFor(cfg, k, a.calls[k], part)
  {
    hide ArgumentDeltas;
    var call := a.calls[k];
    EmitDeltas(a, ArgumentsDelta(call.outputIndex.GetOr(0), CallItemId(k), call.core.callId, part));
    assert SentDeltas(a) + [] == SentDeltas(a);
  }

  lemma EnsureStartedDeltas(cfg: Config, a: Asm, k: nat)
    requires k in a.calls
    ensures var b := EnsureToolStarted(cfg, a, k);
            && k in b.calls
            && SentDeltas(b) == SentDeltas(a) + if CanStart(a.calls[k].core)
                                                then DeltaFor(cfg, k, b.calls[k], a.calls[k].core.arguments) else []
  {
    hide FinishText, FinishReasoning, ToolItem, EmitToolArguments, SentDeltas, Adds;
    assert SentDeltas(a) + [] == SentDeltas(a);
    BeforeStartSteps(cfg, a);
    var c := BeforeStart(cfg, a);
    QuietDeltas(a, c);
    StartToolSteps(cfg, c, k);
    QuietDeltas(c, StartTool(cfg, c, k));
    EmitArgumentsDeltas(cfg, StartTool(cfg, c, k), k, c.calls[k].core.arguments);
    EmitArgumentsSteps(cfg, StartTool(cfg, c, k), k, c.calls[k].core.arguments);
  }

  /** A fragment of a running call is passed on; the fragment that starts a call sends all that was held back. */
  function Passed(cfg: Config, k: nat, before: Call, after: Call, delta: CallDelta): (deltas: seq<Payload>)
    ensures forall p :: p in deltas ==> p.ArgumentsDelta?
  {
    DeltaFor(cfg, k, after, if before.core.added then delta.arguments else after.core.arguments)
  }

  lemma AcceptToolDeltaSends(cfg: Config, a: Asm, delta: CallDelta)
    requires delta.index.Some?
    ensures var k, b := delta.index.value, AcceptToolDelta(cfg, a, delta);
            k in b.calls && SentDeltas(b) == SentDeltas(a) + Passed(cfg, k, CallAt(a, k), b.calls[k], delta)
  {
    hide EnsureToolStarted, EmitToolArguments, SentDeltas;
    var k := delta.index.value;
    var m := MergeDelta(a, k, delta);
    MergeSendsNothing(a, k, delta);
    EnsureStartedDeltas(cfg, m, k);
    var b := EnsureToolStarted(cfg, m, k);
    EmitArgumentsDeltas(cfg, b, k, delta.arguments);
    EmitArgumentsSteps(cfg, b, k, delta.arguments);
    StartedCallKeepsArguments(cfg, m, k);
    if CanStart(m.calls[k].core) {
    } else {
      assert SentDeltas(a) + [] == SentDeltas(a);
    }
  }

  lemma MergeSendsNothing(a: Asm, k: nat, delta: CallDelta)
    ensures SentDeltas(MergeDelta(a, k, delta)) == SentDeltas(a)
  {
  }

  lemma StartedCallKeepsArguments(cfg: Config, a: Asm, k: nat)
    requires k in a.calls
    ensures var b := EnsureToolStarted(cfg, a, k);
            && k in b.calls && b.calls[k].core.arguments == a.calls[k].core.arguments
            && (if CanStart(a.calls[k].core) then b.calls[k].core.added else b == a)
  {
    hide FinishText, FinishReasoning, ToolItem, EmitToolArguments, Adds;
    BeforeStartSteps(cfg, a);
    var c := BeforeStart(cfg, a);
    EmitArgumentsSteps(cfg, StartTool(cfg, c, k), k, c.calls[k].core.arguments);
  }

  // ---------- the invariant ----------

  /** What should have been sent for an index: for custom tools nothing is sent before the end. */
  function Due(cfg: Config, a: Asm, k: nat): string {
    if k in a.calls && a.calls[k].core.added && !IsCustom(cfg.tools, a.calls[k].core.name)
    then a.calls[k].core.arguments
    else ""
  }

  /** The delta names a running call by its id, call id and output index. */
  ghost predicate Addressed(cfg: Config, a: Asm, p: Payload)
    requires p.ArgumentsDelta?
  {
    && p.id.CallItemId?
    && var k := p.id.index;
       && k in a.calls && a.calls[k].core.added && !IsCustom(cfg.tools, a.calls[k].core.name)
       && a.calls[k].outputIndex == Some(p.index) && a.calls[k].core.callId == p.callId
  }

  ghost predicate Conserved(cfg: Config, a: Asm) {
    && (forall k: nat :: Sent(SentDeltas(a), k) == Due(cfg, a, k))
    && (forall p :: p in SentDeltas(a) ==> Addressed(cfg, a, p))
    && (forall k :: k in a.calls && a.calls[k].core.added ==>
        a.calls[k].outputIndex.Some? && a.calls[k].core.callId != "")
  }

  /** The states differ in nothing that concerns the calls. */
  lemma ConservedByCalls(cfg: Config, a: Asm, b: Asm)
    requires Conserved(cfg, a) && b.calls == a.calls && SentDeltas(b) == SentDeltas(a)
    ensures Conserved(cfg, b)
  {
    hide SentDeltas, Sent, IsCustom;
    assert forall k: nat :: Due(cfg, b, k) == Due(cfg, a, k);
    assert forall p :: p in SentDeltas(a) ==> Addressed(cfg, a, p) ==> Addressed(cfg, b, p);
  }

  lemma AcceptToolDeltaConserves(cfg: Config, a: Asm, delta: CallDelta)
    requires Conserved(cfg, a)
    ensures Conserved(cfg, AcceptToolDelta(cfg, a, delta))
  {
    hide SentDeltas, IsCustom, AcceptToolDelta, Sent;
    AcceptToolDeltaCalls(cfg, a, delta);
    if delta.index.Some? {
      var i, b := delta.index.value, AcceptToolDelta(cfg, a, delta);
      AcceptToolDeltaSends(cfg, a, delta);
      AddedStays(CallAt(a, i).core, delta);
      var passed := Passed(cfg, i, CallAt(a, i), b.calls[i], delta);
      forall k: nat ensures Sent(SentDeltas(b), k) == Due(cfg, b, k) {
        DueGrows(cfg, a, b, delta, k);
        if passed != [] {
          SentSnoc(SentDeltas(a), passed[0], k);
        } else {
          assert SentDeltas(a) + [] == SentDeltas(a);
        }
      }
      forall p | p in SentDeltas(b) ensures Addressed(cfg, b, p) {
        if p in SentDeltas(a) {
          assert Addressed(cfg, a, p);
        } else {
          assert p in passed;
        }
      }
    }
  }

  /** What is due grows by what is passed on. */
  lemma DueGrows(cfg: Config, a: Asm, b: Asm, delta: CallDelta, k: nat)
    requires delta.index.Some? && b == AcceptToolDelta(cfg, a, delta) && delta.index.value in b.calls
    requires forall j :: j in a.calls && a.calls[j].core.added ==>
        a.calls[j].outputIndex.Some? && a.calls[j].core.callId != ""
    ensures var i := delta.index.value;
            var passed := Passed(cfg, i, CallAt(a, i), b.calls[i], delta);
            Due(cfg, b, k) == Due(cfg, a, k) + if k == i && passed != [] then passed[0].text else ""
  {
    hide IsCustom, AcceptToolDelta;
    AcceptToolDeltaCalls(cfg, a, delta);
    AddedStays(CallAt(a, delta.index.value).core, delta);
    assert Due(cfg, a, k) + "" == Due(cfg, a, k);
  }

  lemma {:induction false} AcceptToolDeltasConserve(cfg: Config, a: Asm, deltas: seq<CallDelta>)
    requires Conserved(cfg, a)
    ensures Conserved(cfg, AcceptToolDeltas(cfg, a, deltas))
    decreases |deltas|
  {
    hide Conserved, AcceptToolDelta;
    if deltas != [] {
      var n := |deltas| - 1;
      AcceptToolDeltasConserve(cfg, a, deltas[..n]);
      AcceptToolDeltaConserves(cfg, AcceptToolDeltas(cfg, a, deltas[..n]), deltas[n]);
    }
  }

  lemma {:induction false} StreamConserves(cfg: Config, choices: seq<Choice>)
    ensures Conserved(cfg, AfterChoices(cfg, choices))
    decreases |choices|
  {
    hide Conserved, AcceptChoice, BeforeCalls, AcceptToolDeltas, SentDeltas;
    if choices == [] {
      NothingSent(cfg);
    } else {
      var n := |choices| - 1;
      StreamConserves(cfg, choices[..n]);
      var a := AfterChoices(cfg, choices[..n]);
      BeforeCallsSteps(cfg, a, choices[n]);
      ChoiceSteps(cfg, a, choices[n]);
      var b := BeforeCalls(cfg, a, choices[n]);
      QuietDeltas(a, b);
      ConservedByCalls(cfg, a, b);
      var c := AcceptToolDeltas(cfg, b, choices[n].toolCalls.GetOr([]));
      AcceptToolDeltasConserve(cfg, b, choices[n].toolCalls.GetOr([]));
      FinishSendsNothing(c, choices[n].finishReason);
      ConservedByCalls(cfg, c, AcceptFinish(c, choices[n].finishReason));
    }
  }

  lemma FinishSendsNothing(a: Asm, finishReason: Option<string>)
    ensures SentDeltas(AcceptFinish(a, finishReason)) == SentDeltas(a) && AcceptFinish(a, finishReason).calls == a.calls
  {
  }

  lemma NothingSent(cfg: Config)
    ensures Conserved(cfg, Start(INITIAL))
  {
    assert Adds(INITIAL, Start(INITIAL), true);
    QuietDeltas(INITIAL, Start(INITIAL));
  }

  // ---------- the end of the stream ----------

  lemma FinalizeSendsNothing(cfg: Config, a: Asm, works: bool)
    ensures SentDeltas(Finalize(cfg, a, works).0) == SentDeltas(a)
  {
    hide ArgumentDeltas, FinishHead, FinishCalls, SortedKeys, Record, Output, Adds;
    BeforeRecordSteps(cfg, a);
    var c := BeforeRecord(cfg, a);
    QuietDeltas(a, c);
    var d := c.(stored := c.stored + [Record(cfg, FinishHead(cfg, a))]);
    EmitDeltas(d, Finished(CompletionStatus(d.finishReason), Output(cfg, FinishHead(cfg, a))));
    assert SentDeltas(d) + [] == SentDeltas(d);
  }

  /** For any stream, any index and any end: if the index became a running call of a tool that is not custom, the
      argument deltas sent for it, also those held back before its start, make up exactly the fragments received for
      it, once and in order; for any other index none was sent. Each delta carries the call's id and output index. */
  lemma FragmentsAreConserved(cfg: Config, choices: seq<Choice>, works: bool, k: nat)
    ensures var own, a, deltas := Own(AllDeltas(choices), k), AfterChoices(cfg, choices),
                                  SentDeltas(Finalize(cfg, AfterChoices(cfg, choices), works).0);
            && Sent(deltas, k) == (if FoldCore(own).added && !IsCustom(cfg.tools, FoldCore(own).name)
                                   then ArgumentTexts(own) else "")
            && (forall p :: p in deltas && p.id == CallItemId(k) ==>
                  k in a.calls && a.calls[k].outputIndex == Some(p.index) && p.callId == FoldCore(own).callId)
  {
    hide AfterChoices, Own, FoldCore, AllDeltas, SentDeltas, Finalize, Sent, IsCustom;
    var a := AfterChoices(cfg, choices);
    var own := Own(AllDeltas(choices), k);
    StreamConserves(cfg, choices);
    FinalizeSendsNothing(cfg, a, works);
    CallsAreTheirFragments(cfg, choices);
    assert FoldedAt(a, AllDeltas(choices), k);
    StartedMeans(own);
    NoFragments();
  }

  // ---------- an announced call keeps its identity ----------

  /** Every call announced in `a` is still announced in `b`, under the same id, name and output index. */
  ghost predicate KeepsIdentity(a: Asm, b: Asm) {
    forall k :: k in a.calls && a.calls[k].core.added && a.calls[k].core.callId != "" ==> SameIdentity(a, b, k)
  }

  ghost predicate SameIdentity(a: Asm, b: Asm, k: nat)
    requires k in a.calls
  {
    && k in b.calls && b.calls[k].core.added && b.calls[k].outputIndex == a.calls[k].outputIndex
    && b.calls[k].core.callId == a.calls[k].core.callId && b.calls[k].core.name == a.calls[k].core.name
  }

  lemma {:induction false} ToolDeltasKeepIdentity(cfg: Config, a: Asm, deltas: seq<CallDelta>)
    ensures KeepsIdentity(a, AcceptToolDeltas(cfg, a, deltas))
    decreases |deltas|
  {
    hide AcceptToolDelta;
    if deltas != [] {
      var n := |deltas| - 1;
      ToolDeltasKeepIdentity(cfg, a, deltas[..n]);
      var b := AcceptToolDeltas(cfg, a, deltas[..n]);
      ToolDeltaKeepsIdentity(cfg, b, deltas[n]);
      IdentityChains(a, b, AcceptToolDelta(cfg, b, deltas[n]));
    }
  }

  lemma ToolDeltaKeepsIdentity(cfg: Config, a: Asm, delta: CallDelta)
    ensures KeepsIdentity(a, AcceptToolDelta(cfg, a, delta))
  {
    hide AcceptToolDelta;
    AcceptToolDeltaCalls(cfg, a, delta);
    if delta.index.Some? {
      AddedStays(CallAt(a, delta.index.value).core, delta);
    }
  }

  lemma IdentityChains(a: Asm, b: Asm, c: Asm)
    requires KeepsIdentity(a, b) && KeepsIdentity(b, c)
    ensures KeepsIdentity(a, c)
  {
    assert forall k :: k in a.calls && a.calls[k].core.added && a.calls[k].core.callId != "" ==> SameIdentity(a, b, k);
  }

  lemma {:induction false} ChoicesKeepIdentity(cfg: Config, a: Asm, more: seq<Choice>)
    ensures KeepsIdentity(a, AcceptAll(cfg, a, more))
    decreases |more|
  {
    hide AcceptChoice, AcceptToolDeltas, BeforeCalls;
    if more != [] {
      var n := |more| - 1;
      ChoicesKeepIdentity(cfg, a, more[..n]);
      var b := AcceptAll(cfg, a, more[..n]);
      BeforeCallsSteps(cfg, b, more[n]);
      ChoiceSteps(cfg, b, more[n]);
      var c := BeforeCalls(cfg, b, more[n]);
      ToolDeltasKeepIdentity(cfg, c, more[n].toolCalls.GetOr([]));
      assert KeepsIdentity(b, AcceptChoice(cfg, b, more[n]));
      IdentityChains(a, b, AcceptChoice(cfg, b, more[n]));
    }
  }

  lemma FinishCallKeepsIdentity(cfg: Config, a: Asm, k: nat)
    requires k in a.calls
    ensures KeepsIdentity(a, FinishCall(cfg, a, k))
  {
    hide EmitCallDone, ToolItem, Adds;
    FinishCallSteps(cfg, a, k);
    var b := Announced(cfg, a, k);
    var core := b.calls[k].core.(callId := FinalId(k, b.calls[k].core));
    CallDoneSteps(cfg, b.(calls := b.calls[k := b.calls[k].(core := core, done := true)]), k,
                  b.calls[k].outputIndex.GetOr(0), core);
  }

  lemma {:induction false} FinishCallsKeepIdentity(cfg: Config, a: Asm, keys: seq<nat>, n: nat)
    requires n <= |keys| && forall k :: k in keys ==> k in a.calls
    ensures KeepsIdentity(a, FinishCalls(cfg, a, keys, n))
    decreases n
  {
    hide FinishCall;
    if n > 0 {
      FinishCallsKeepIdentity(cfg, a, keys, n - 1);
      var b := FinishCalls(cfg, a, keys, n - 1);
      FinishCallKeepsIdentity(cfg, b, keys[n - 1]);
      IdentityChains(a, b, FinishCall(cfg, b, keys[n - 1]));
    }
  }

  /** From its announcement to the end of the stream a call keeps its id, its name and its output index. */
  lemma IdentityIsSettled(cfg: Config, a: Asm, more: seq<Choice>, works: bool)
    ensures KeepsIdentity(a, Finalize(cfg, AcceptAll(cfg, a, more), works).0)
  {
    hide AcceptAll, KeepsIdentity, FinishHead, FinishCalls, SortedKeys, Record, Output;
    ChoicesKeepIdentity(cfg, a, more);
    var b := AcceptAll(cfg, a, more);
    HeadSteps(cfg, b);
    var head := FinishHead(cfg, b);
    var keys := SortedKeys(head.calls.Keys);
    FinishCallsKeepIdentity(cfg, head, keys, |keys|);
    var c, d := FinishCalls(cfg, head, keys, |keys|), Finalize(cfg, b, works).0;
    SameCallsSameIdentity(b, head, c, d, b.terminalEmitted);
    IdentityChains(a, b, d);
  }

  lemma SameCallsSameIdentity(b: Asm, head: Asm, c: Asm, d: Asm, ended: bool)
    requires head.calls == b.calls && KeepsIdentity(head, c)
    requires if ended then d == b else d.calls == c.calls
    ensures KeepsIdentity(b, d)
  {
    assert forall k :: k in b.calls && b.calls[k].core.added && b.calls[k].core.callId != "" ==>
        SameIdentity(head, c, k);
  }
}
