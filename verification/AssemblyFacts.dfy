/** What the state changes of the assembler leave alone, and how its lists grow. */
module AssemblyFacts {
  import opened Wrappers
  import opened Text
  import opened Think
  import opened Assembly

  lemma ApplyOne(cfg: Config, a: Asm, push: Push)
    ensures ApplyAll(cfg, a, [push]) == ApplyPush(cfg, a, push)
  {
  }

  lemma ApplyNone(cfg: Config, a: Asm)
    ensures ApplyAll(cfg, a, []) == a
  {
  }

  lemma ApplyBoth(cfg: Config, a: Asm, thought: string, answer: string)
    ensures var b := if thought == "" then a else PushReasoningDelta(a, thought);
            ApplyAll(cfg, a, NonEmptyReasoning(thought) + NonEmptyText(answer))
            == if answer == "" then b else PushTextDelta(cfg, b, answer)
  {
    hide PushReasoningDelta, PushTextDelta;
    var pushes := NonEmptyReasoning(thought) + NonEmptyText(answer);
    if thought == "" {
      assert pushes == NonEmptyText(answer);
    } else {
      assert pushes[1..] == NonEmptyText(answer);
    }
    if answer != "" {
      ApplyOne(cfg, if thought == "" then a else PushReasoningDelta(a, thought), PushText(answer));
    }
  }

  lemma NothingToEmit(cfg: Config, a: Asm, k: nat)
    ensures EmitToolArguments(cfg, a, k, "") == a
  {
  }

  lemma HasToolOutputMeans(calls: map<nat, Call>)
    ensures HasToolOutput(calls) <==> exists k :: k in calls && !calls[k].done && Trim(calls[k].core.name) != ""
  {
  }

  lemma EmptyFinals(cfg: Config, calls: map<nat, Call>)
    ensures NamedKeys(calls, []) == []
    ensures FinalCalls(cfg, calls, []) == [] && FinalIds(calls, []) == [] && FinalItems(cfg, calls, []) == []
  {
  }

  lemma FinalsSnoc(cfg: Config, calls: map<nat, Call>, named: seq<nat>, k: nat)
    requires k in calls && forall j :: j in named ==> j in calls
    ensures FinalCalls(cfg, calls, named + [k])
         == FinalCalls(cfg, calls, named) + [FinalCall(cfg, k, calls[k].core)]
    ensures FinalIds(calls, named + [k]) == FinalIds(calls, named) + [FinalId(k, calls[k].core)]
    ensures FinalItems(cfg, calls, named + [k]) == FinalItems(cfg, calls, named) + [FinalItem(cfg, k, calls[k].core)]
  {
    hide FinalItem, FinalId, FinalCall;
  }

  lemma {:induction false} NamedKeysSnoc(calls: map<nat, Call>, keys: seq<nat>, i: nat)
    requires i < |keys| && forall k :: k in keys ==> k in calls
    ensures forall k :: k in keys[..i + 1] ==> k in calls
    ensures NamedKeys(calls, keys[..i + 1])
         == NamedKeys(calls, keys[..i])
            + if !calls[keys[i]].done && calls[keys[i]].core.name != "" then [keys[i]] else []
  {
    if i == 0 {
      assert keys[..1][1..] == [];
    } else {
      var rest := keys[1..];
      assert keys[..i + 1][1..] == rest[..i] && keys[..i][1..] == rest[..i - 1];
      NamedKeysSnoc(calls, rest, i - 1);
      var k := keys[0];
      ConcatAssoc(if !calls[k].done && calls[k].core.name != "" then [k] else [], NamedKeys(calls, rest[..i - 1]),
                  if !calls[rest[i - 1]].done && calls[rest[i - 1]].core.name != "" then [rest[i - 1]] else []);
    }
  }
}
