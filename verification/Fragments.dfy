/** Tool calls arrive in fragments, interleaved over indexes: what each index receives decides its call, and what is
    sent downstream is exactly what was received. */
module Fragments {
  import opened Wrappers
  import opened Items
  import opened Assembly
  import opened AssemblyFacts
  import opened Steps

  // ---------- the fragments of one index ----------

  /** One fragment, seen by its own call alone. */
  function StepCore(core: CallCore, delta: CallDelta): CallCore {
    var merged := MergeCore(core, delta);
    merged.(added := merged.added || CanStart(merged))
  }

  function FoldCore(deltas: seq<CallDelta>): CallCore {
    if deltas == [] then NEW_CORE else StepCore(FoldCore(deltas[..|deltas| - 1]), deltas[|deltas| - 1])
  }

  /** The fragments for index `k`, in order. */
  function Own(deltas: seq<CallDelta>, k: nat): seq<CallDelta> {
    if deltas == [] then []
    else
      var last := deltas[|deltas| - 1];
      Own(deltas[..|deltas| - 1], k) + if last.index == Some(k) then [last] else []
  }

  function ArgumentTexts(deltas: seq<CallDelta>): string {
    if deltas == [] then "" else ArgumentTexts(deltas[..|deltas| - 1]) + deltas[|deltas| - 1].arguments
  }

  /** All fragments of a stream. */
  function AllDeltas(choices: seq<Choice>): seq<CallDelta> {
    if choices == [] then []
    else AllDeltas(choices[..|choices| - 1]) + choices[|choices| - 1].toolCalls.GetOr([])
  }

  lemma SnocParts<T>(s: seq<T>, last: T)
    ensures s + [last] != [] && (s + [last])[..|s + [last]| - 1] == s && (s + [last])[|s + [last]| - 1] == last
  {
  }

  lemma OwnSnoc(deltas: seq<CallDelta>, last: CallDelta, k: nat)
    ensures Own(deltas + [last], k) == Own(deltas, k) + if last.index == Some(k) then [last] else []
  {
    SnocParts(deltas, last);
  }

  lemma FoldSnoc(deltas: seq<CallDelta>, last: CallDelta)
    ensures FoldCore(deltas + [last]) == StepCore(FoldCore(deltas), last)
  {
    hide StepCore;
    SnocParts(deltas, last);
  }

  /** A call is announced once some fragment has brought an id and some fragment a name. */
  lemma {:induction false} StartedMeans(own: seq<CallDelta>)
    ensures FoldCore(own).callId != "" <==> exists d :: d in own && d.id != ""
    ensures FoldCore(own).name != "" <==> exists d :: d in own && d.name != ""
    ensures FoldCore(own).added <==> (exists d :: d in own && d.id != "") && (exists d :: d in own && d.name != "")
    ensures FoldCore(own).arguments == ArgumentTexts(own)
    decreases |own|
  {
    if own != [] {
      var before, last := own[..|own| - 1], own[|own| - 1];
      StartedMeans(before);
      assert forall d :: d in own <==> d in before || d == last;
    }
  }

  ghost predicate HasBoth(deltas: seq<CallDelta>) {
    (exists d :: d in deltas && d.id != "") && (exists d :: d in deltas && d.name != "")
  }

  /** The last id that is not empty. */
  function LastId(deltas: seq<CallDelta>): string {
    if deltas == [] then ""
    else if deltas[|deltas| - 1].id != "" then deltas[|deltas| - 1].id
    else LastId(deltas[..|deltas| - 1])
  }

  function LastName(deltas: seq<CallDelta>): string {
    if deltas == [] then ""
    else if deltas[|deltas| - 1].name != "" then deltas[|deltas| - 1].name
    else LastName(deltas[..|deltas| - 1])
  }

  /** A call has the last id and the last name that came until both had come; later ones do not change it. */
  lemma {:induction false} IdentityIsLatest(own: seq<CallDelta>, n: nat)
    requires n <= |own| && (n < |own| ==> HasBoth(own[..n])) && forall m: nat :: m < n ==> !HasBoth(own[..m])
    ensures FoldCore(own).callId == LastId(own[..n]) && FoldCore(own).name == LastName(own[..n])
    decreases |own|
  {
    hide HasBoth;
    assert own[..|own|] == own;
    if own != [] {
      var k := |own| - 1;
      var before := own[..k];
      StartedMeans(before);
      assert HasBoth(before) <==> FoldCore(before).added && FoldCore(before).callId != "" by { BothMeans(before); }
      if n <= k {
        assert before[..n] == own[..n];
        forall m: nat | m < n ensures !HasBoth(before[..m]) {
          assert before[..m] == own[..m];
        }
        if n == k {
          assert before[..n] == before;
        }
        IdentityIsLatest(before, n);
        assert HasBoth(before) by { MoreHaveBoth(own[..n], before); }
      } else {
        assert !HasBoth(own[..k]);
        forall m: nat | m < k ensures !HasBoth(before[..m]) {
          assert before[..m] == own[..m];
        }
        assert before[..k] == before;
        IdentityIsLatest(before, k);
      }
    }
  }

  lemma BothMeans(deltas: seq<CallDelta>)
    ensures HasBoth(deltas) <==> FoldCore(deltas).added && FoldCore(deltas).callId != ""
  {
    StartedMeans(deltas);
  }

  lemma MoreHaveBoth(some: seq<CallDelta>, more: seq<CallDelta>)
    requires some <= more && HasBoth(some)
    ensures HasBoth(more)
  {
    var d :| d in some && d.id != "";
    var e :| e in some && e.name != "";
    assert d in more && e in more;
  }

  // ---------- the calls of a stream ----------

  /** Every call is what its own fragments make of it. */
  ghost predicate Folded(a: Asm, deltas: seq<CallDelta>) {
    forall k: nat :: FoldedAt(a, deltas, k)
  }

  ghost predicate FoldedAt(a: Asm, deltas: seq<CallDelta>, k: nat) {
    && (k in a.calls <==> Own(deltas, k) != [])
    && (k in a.calls ==>
          && a.calls[k].core == FoldCore(Own(deltas, k)) && !a.calls[k].done
          && (a.calls[k].outputIndex.Some? <==> a.calls[k].core.added))
  }

  /** What one fragment does to the calls. */
  lemma AcceptToolDeltaCalls(cfg: Config, a: Asm, delta: CallDelta)
    ensures delta.index == None ==> AcceptToolDelta(cfg, a, delta) == a
    ensures delta.index.Some? ==>
              var k := delta.index.value;
              var calls := AcceptToolDelta(cfg, a, delta).calls;
              && calls.Keys == a.calls.Keys + {k}
              && (forall j :: j in a.calls && j != k ==> calls[j] == a.calls[j])
              && calls[k].core == StepCore(CallAt(a, k).core, delta)
              && calls[k].done == CallAt(a, k).done
              && (if CallAt(a, k).core.added || !calls[k].core.added
                  then calls[k].outputIndex == CallAt(a, k).outputIndex
                  else calls[k].outputIndex.Some?)
  {
    hide FinishText, FinishReasoning, ToolItem, EmitToolArguments, Adds;
    if delta.index.Some? {
      var k := delta.index.value;
      var m := MergeDelta(a, k, delta);
      BeforeStartSteps(cfg, m);
      var c := BeforeStart(cfg, m);
      EmitArgumentsSteps(cfg, StartTool(cfg, c, k), k, c.calls[k].core.arguments);
      EmitArgumentsSteps(cfg, EnsureToolStarted(cfg, m, k), k, delta.arguments);
    }
  }

  lemma AcceptToolDeltaFolds(cfg: Config, a: Asm, deltas: seq<CallDelta>, delta: CallDelta)
    requires Folded(a, deltas)
    ensures Folded(AcceptToolDelta(cfg, a, delta), deltas + [delta])
  {
    hide AcceptToolDelta, StepCore, Own, FoldCore;
    AcceptToolDeltaCalls(cfg, a, delta);
    var b := AcceptToolDelta(cfg, a, delta);
    forall k: nat ensures FoldedAt(b, deltas + [delta], k) {
      assert FoldedAt(a, deltas, k);
      OwnSnoc(deltas, delta, k);
      FoldSnoc(Own(deltas, k), delta);
      assert Own(deltas, k) + [] == Own(deltas, k);
      NoFragments();
      AddedStays(CallAt(a, k).core, delta);
    }
  }

  lemma NoFragments()
    ensures FoldCore([]) == NEW_CORE && !NEW_CORE.added
  {
  }

  /** Once announced, id and name are settled. */
  lemma AddedStays(core: CallCore, delta: CallDelta)
    ensures core.added ==> StepCore(core, delta).added && StepCore(core, delta).name == core.name
    ensures core.added && core.callId != "" ==> StepCore(core, delta).callId == core.callId
  {
  }

  lemma {:induction false} AcceptToolDeltasFold(cfg: Config, a: Asm, deltas: seq<CallDelta>, more: seq<CallDelta>)
    requires Folded(a, deltas)
    ensures Folded(AcceptToolDeltas(cfg, a, more), deltas + more)
    decreases |more|
  {
    hide AcceptToolDelta, Folded;
    if more == [] {
      assert deltas + [] == deltas;
    } else {
      var n := |more| - 1;
      AcceptToolDeltasFold(cfg, a, deltas, more[..n]);
      AcceptToolDeltaFolds(cfg, AcceptToolDeltas(cfg, a, more[..n]), deltas + more[..n], more[n]);
      assert deltas + more[..n] + [more[n]] == deltas + more;
    }
  }

  lemma AcceptChoiceFolds(cfg: Config, a: Asm, deltas: seq<CallDelta>, choice: Choice)
    requires Folded(a, deltas)
    ensures Folded(AcceptChoice(cfg, a, choice), deltas + choice.toolCalls.GetOr([]))
  {
    hide AcceptChoice, AcceptToolDeltas, BeforeCalls, Own, FoldCore;
    BeforeCallsSteps(cfg, a, choice);
    ChoiceSteps(cfg, a, choice);
    var b := BeforeCalls(cfg, a, choice);
    assert forall k: nat :: FoldedAt(a, deltas, k) ==> FoldedAt(b, deltas, k);
    AcceptToolDeltasFold(cfg, b, deltas, choice.toolCalls.GetOr([]));
    var c := AcceptToolDeltas(cfg, b, choice.toolCalls.GetOr([]));
    var all := deltas + choice.toolCalls.GetOr([]);
    assert forall k: nat :: FoldedAt(c, all, k) ==> FoldedAt(AcceptFinish(c, choice.finishReason), all, k);
  }

  /** For any stream the calls are exactly the indexes that received fragments, and each is what its own fragments, in
      their order, make of it: how the indexes were interleaved plays no part. */
  lemma {:induction false} CallsAreTheirFragments(cfg: Config, choices: seq<Choice>)
    ensures Folded(AfterChoices(cfg, choices), AllDeltas(choices))
    decreases |choices|
  {
    hide AcceptChoice, Folded;
    if choices == [] {
      assert Folded(AfterChoices(cfg, []), []) by {
        assert forall k: nat :: FoldedAt(AfterChoices(cfg, []), [], k);
        FoldedForall(AfterChoices(cfg, []), []);
      }
    } else {
      var n := |choices| - 1;
      CallsAreTheirFragments(cfg, choices[..n]);
      AcceptChoiceFolds(cfg, AfterChoices(cfg, choices[..n]), AllDeltas(choices[..n]), choices[n]);
    }
  }

  lemma FoldedForall(a: Asm, deltas: seq<CallDelta>)
    ensures Folded(a, deltas) <==> forall k: nat :: FoldedAt(a, deltas, k)
  {
  }

  // ---------- the output ----------

  /** The calls up to their output indexes. */
  ghost predicate SameCores(one: map<nat, Call>, two: map<nat, Call>) {
    one.Keys == two.Keys && forall k :: k in one ==> one[k].core == two[k].core && one[k].done == two[k].done
  }

  lemma {:induction false} SameNamedKeys(one: map<nat, Call>, two: map<nat, Call>, keys: seq<nat>)
    requires SameCores(one, two) && forall k :: k in keys ==> k in one
    ensures NamedKeys(one, keys) == NamedKeys(two, keys)
  {
    if keys != [] {
      SameNamedKeys(one, two, keys[1..]);
    }
  }

  lemma SameFinals(cfg: Config, one: map<nat, Call>, two: map<nat, Call>, keys: seq<nat>)
    requires SameCores(one, two) && forall k :: k in keys ==> k in one
    ensures FinalItems(cfg, one, keys) == FinalItems(cfg, two, keys)
    ensures FinalIds(one, keys) == FinalIds(two, keys)
    ensures FinalCalls(cfg, one, keys) == FinalCalls(cfg, two, keys)
  {
    hide FinalItem, FinalId, FinalCall;
  }

  lemma SameToolOutput(one: map<nat, Call>, two: map<nat, Call>)
    requires SameCores(one, two)
    ensures HasToolOutput(one) <==> HasToolOutput(two)
  {
    HasToolOutputMeans(one);
    HasToolOutputMeans(two);
  }

  lemma SameRecord(cfg: Config, a: Asm, b: Asm)
    requires SameCores(a.calls, b.calls) && a.content == b.content && a.reasoning == b.reasoning
    ensures Record(cfg, a) == Record(cfg, b)
  {
    hide FinalItems, FinalIds, FinalCalls, NamedKeys, SortedKeys, HasToolOutput;
    SameToolOutput(a.calls, b.calls);
    SameNamedKeys(a.calls, b.calls, SortedKeys(a.calls.Keys));
    SameFinals(cfg, a.calls, b.calls, OutputKeys(a));
  }

  /** Two streams that bring every index the same fragments, and the same texts, store the same record: output items,
      pending ids and conversation depend on nothing else. */
  lemma OutputIgnoresInterleaving(cfg: Config, one: seq<Choice>, two: seq<Choice>)
    requires forall k: nat :: Own(AllDeltas(one), k) == Own(AllDeltas(two), k)
    requires var a, b := FinishHead(cfg, AfterChoices(cfg, one)), FinishHead(cfg, AfterChoices(cfg, two));
             a.content == b.content && a.reasoning == b.reasoning
    ensures Record(cfg, FinishHead(cfg, AfterChoices(cfg, one))) == Record(cfg, FinishHead(cfg, AfterChoices(cfg, two)))
  {
    hide FinishHead, AfterChoices, FoldCore, Own, AllDeltas, Record;
    var a, b := AfterChoices(cfg, one), AfterChoices(cfg, two);
    CallsAreTheirFragments(cfg, one);
    CallsAreTheirFragments(cfg, two);
    HeadSteps(cfg, a);
    HeadSteps(cfg, b);
    forall k: nat ensures k in a.calls <==> k in b.calls {
      assert FoldedAt(a, AllDeltas(one), k) && FoldedAt(b, AllDeltas(two), k);
    }
    forall k: nat | k in a.calls ensures a.calls[k].core == b.calls[k].core && a.calls[k].done == b.calls[k].done {
      assert FoldedAt(a, AllDeltas(one), k) && FoldedAt(b, AllDeltas(two), k);
    }
    SameRecord(cfg, FinishHead(cfg, a), FinishHead(cfg, b));
  }
}
