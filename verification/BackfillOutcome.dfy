/** What becomes of each conversation of a backfill: the run of steps that the
    pass amounts to, read evaluation by evaluation. */
module BackfillOutcome {
  import opened Wrappers
  import opened Workflow
  import opened Tables
  import opened WorkflowRuns
  import opened WorkflowBatches
  import Outcomes

  /** Between two places of a path with no step for id, its case stays. */
  lemma {:induction false} Unmoved(trace: seq<System>, steps: seq<Step>, quiet: bool, from: nat, to: nat, id: string)
    requires Path(trace, steps, quiet) && from <= to <= |steps|
    requires forall k :: from <= k < to ==> !steps[k].PutForm? && steps[k].id != id
    ensures trace[to].forms == trace[from].forms
    ensures id in trace[to].cases <==> id in trace[from].cases
    ensures id in trace[from].cases ==> trace[to].cases[id] == trace[from].cases[id]
  {
    if from < to {
      Unmoved(trace, steps, quiet, from, to - 1, id);
      assert Takes(trace[to - 1], steps[to - 1], trace[to], quiet);
    }
  }

  /** A step for id with no other beside it is all that happens to it. */
  ghost predicate Became(s: System, step: Step, t: System) {
    match step
    case On(id, e) =>
      && id in s.cases && Possible(s.forms, s.cases[id], e) && id in t.cases
      && t.cases[id] == Apply(s.forms, s.cases[id], e)
    case Create(id, formId, version, origin) => id in t.cases && t.cases[id] == Born(formId, version, origin)
    case PutForm(_, _) => true
  }

  lemma MovedOnce(trace: seq<System>, steps: seq<Step>, quiet: bool, k: nat)
    requires Path(trace, steps, quiet) && k < |steps| && !steps[k].PutForm?
    requires forall j :: 0 <= j < |steps| ==> !steps[j].PutForm? && (j != k ==> steps[j].id != steps[k].id)
    ensures Became(trace[0], steps[k], trace[|steps|])
  {
    Unmoved(trace, steps, quiet, 0, k, steps[k].id);
    assert Takes(trace[k], steps[k], trace[k + 1], quiet);
    Unmoved(trace, steps, quiet, k + 1, |steps|, steps[k].id);
  }

  /** The evaluations that the items may be about. */
  ghost predicate Concerns(db: Db, items: seq<Item>, id: string) {
    id in Ids(items) || (id in db.evaluations && db.evaluations[id].conversationId in Convs(items))
  }

  /** At most one step for an item, on its new id or on its evaluation. */
  lemma JudgedConcerns(db: Db, item: Item, pass: Pass)
    requires item.conv in db.conversations
    ensures var steps := JudgedStep(db, item, pass);
            && |steps| <= 1
            && forall step :: step in steps ==>
                 !step.PutForm? && (step.id == item.id || (step.id in db.evaluations
                                                           && db.evaluations[step.id].conversationId == item.conv))
  {
  }

  lemma FrontFits(db: Db, items: seq<Item>, pass: Pass)
    requires Backfillable(db, items, pass) && items != []
    ensures Backfillable(db, items[..|items| - 1], pass)
    ensures var last := items[|items| - 1];
            last.conv in db.conversations && last.id !in db.evaluations && !Concerns(db, items[..|items| - 1], last.id)
            && last.conv !in Convs(items[..|items| - 1])
  {
    var front, last := items[..|items| - 1], items[|items| - 1];
    assert items == front + [last] && last in items;
    assert forall item :: item in front ==> item in items;
    NextItem(db, items, pass, |items| - 1);
  }

  lemma ConcernsMore(db: Db, items: seq<Item>, id: string)
    requires items != []
    ensures Concerns(db, items[..|items| - 1], id) ==> Concerns(db, items, id)
    ensures var last := items[|items| - 1];
            id == last.id || (id in db.evaluations && db.evaluations[id].conversationId == last.conv) ==>
              Concerns(db, items, id)
  {
    assert items == items[..|items| - 1] + [items[|items| - 1]];
  }

  /** Each listed conversation has at most one step, and each step its own
      evaluation. */
  ghost predicate OwnSteps(db: Db, items: seq<Item>, steps: seq<Step>) {
    && (forall k :: 0 <= k < |steps| ==> !steps[k].PutForm? && Concerns(db, items, steps[k].id))
    && (forall j, k :: 0 <= j < k < |steps| ==> steps[j].id != steps[k].id)
  }

  lemma {:induction false} OneStepEach(db: Db, items: seq<Item>, pass: Pass)
    requires Backfillable(db, items, pass)
    ensures OwnSteps(db, items, BackfillSteps(db, items, pass))
  {
    if items != [] {
      var front, last := items[..|items| - 1], items[|items| - 1];
      FrontFits(db, items, pass);
      OneStepEach(db, front, pass);
      JudgedConcerns(db, last, pass);
      forall id ensures Concerns(db, front, id) ==> Concerns(db, items, id) {
        ConcernsMore(db, items, id);
      }
      var more := JudgedStep(db, last, pass);
      if more != [] {
        assert more[0] in more;
        ConcernsMore(db, items, more[0].id);
      }
    }
  }

  lemma {:induction false} JudgedIsStep(db: Db, items: seq<Item>, pass: Pass, n: nat)
    requires (forall item :: item in items ==> item.conv in db.conversations) && n < |items|
    requires JudgedStep(db, items[n], pass) != []
    ensures JudgedStep(db, items[n], pass)[0] in BackfillSteps(db, items, pass)
  {
    if n < |items| - 1 { JudgedIsStep(db, items[..|items| - 1], pass, n); }
  }

  lemma {:induction false} NoStepFor(db: Db, items: seq<Item>, pass: Pass, e: string)
    requires Backfillable(db, items, pass) && e in db.evaluations
    requires forall item :: item in items && item.conv == db.evaluations[e].conversationId ==>
               JudgedStep(db, item, pass) == []
    ensures forall step :: step in BackfillSteps(db, items, pass) ==> !step.PutForm? && step.id != e
  {
    if items != [] {
      var front, last := items[..|items| - 1], items[|items| - 1];
      assert items == front + [last] && last in items;
      FrontFits(db, items, pass);
      NoStepFor(db, front, pass, e);
      JudgedConcerns(db, last, pass);
    }
  }

  lemma Trail(before: Db, after: Db, steps: seq<Step>, quiet: bool) returns (trace: seq<System>)
    requires Ran(before, after, steps, quiet)
    ensures Path(trace, steps, quiet) && trace[0] == SystemOf(before) && trace[|steps|] == SystemOf(after)
  {
    trace :| Path(trace, steps, quiet) && trace[0] == SystemOf(before) && trace[|steps|] == SystemOf(after);
  }

  /** The case at the end, for a conversation with a step. */
  lemma StepOutcome(before: Db, after: Db, items: seq<Item>, pass: Pass, n: nat)
    requires Backfillable(before, items, pass) && n < |items| && JudgedStep(before, items[n], pass) != []
    requires Ran(before, after, BackfillSteps(before, items, pass), QuietPass(before, items, pass))
    ensures Became(SystemOf(before), JudgedStep(before, items[n], pass)[0], SystemOf(after))
  {
    var steps, quiet := BackfillSteps(before, items, pass), QuietPass(before, items, pass);
    OneStepEach(before, items, pass);
    JudgedIsStep(before, items, pass, n);
    var trace := Trail(before, after, steps, quiet);
    var k :| 0 <= k < |steps| && steps[k] == JudgedStep(before, items[n], pass)[0];
    MovedOnce(trace, steps, quiet, k);
  }

  /** And for an evaluation that has none. */
  lemma NoOutcome(before: Db, after: Db, items: seq<Item>, pass: Pass, e: string)
    requires Backfillable(before, items, pass) && e in before.evaluations
    requires forall item :: item in items && item.conv == before.evaluations[e].conversationId ==>
               JudgedStep(before, item, pass) == []
    requires Ran(before, after, BackfillSteps(before, items, pass), QuietPass(before, items, pass))
    ensures e in after.evaluations && CaseAt(after, e) == CaseAt(before, e)
  {
    var steps, quiet := BackfillSteps(before, items, pass), QuietPass(before, items, pass);
    NoStepFor(before, items, pass, e);
    var trace := Trail(before, after, steps, quiet);
    Unmoved(trace, steps, quiet, 0, |steps|, e);
    SameCase(before, after, e);
  }

  lemma SameCase(before: Db, after: Db, e: string)
    requires Consistent(before) && Consistent(after) && e in before.evaluations
    requires e in CasesOf(after) && CasesOf(after)[e] == CasesOf(before)[e]
    ensures e in after.evaluations && CaseAt(after, e) == CaseAt(before, e)
  {
    CaseOf(before, e);
    CaseOf(after, e);
  }

  lemma UnstickApplied(s: System, step: Step, t: System, e: string, llmEnabled: bool, now: int)
    requires step == On(e, UnstickPending(llmEnabled, now)) && Became(s, step, t)
    ensures e in s.cases && e in t.cases && t.cases[e] == Unstick(s.cases[e], llmEnabled, now)
  {
  }

  lemma JudgedExisting(db: Db, item: Item, pass: Pass, e: string)
    requires Consistent(db) && item.conv in db.conversations
    requires e in db.evaluations && db.evaluations[e].conversationId == item.conv
    ensures JudgedStep(db, item, pass)
         == if db.evaluations[e].ev.state == AiPending && !pass.llmEnabled
            then [On(e, UnstickPending(pass.llmEnabled, pass.at))] else []
  {
    assert EvaluationOf(db.evaluations, item.conv) == Some(e);
  }

  lemma ExistingUnstuck(before: Db, after: Db, items: seq<Item>, pass: Pass, n: nat, e: string)
    requires Backfillable(before, items, pass) && n < |items| && items[n].conv in before.conversations
    requires Ran(before, after, BackfillSteps(before, items, pass), QuietPass(before, items, pass))
    requires e in before.evaluations && before.evaluations[e].conversationId == items[n].conv
    ensures e in after.evaluations && CaseAt(after, e) == Unstick(CaseAt(before, e), pass.llmEnabled, pass.at)
  {
    JudgedExisting(before, items[n], pass, e);
    if JudgedStep(before, items[n], pass) == [] {
      NoOutcome(before, after, items, pass, e);
    } else {
      StepOutcome(before, after, items, pass, n);
      UnstickApplied(SystemOf(before), JudgedStep(before, items[n], pass)[0], SystemOf(after), e, pass.llmEnabled,
                     pass.at);
      CaseOf(before, e);
      CaseOf(after, e);
    }
  }

  /** After a pass an evaluation that waited for a model which is not there is
      with QA, and every other one of the listed conversations is as it was. */
  lemma ExistingOutcome(before: Db, after: Db, items: seq<Item>, pass: Pass, n: nat, e: string)
    requires Backfillable(before, items, pass) && n < |items| && Inv(SystemOf(before))
    requires Ran(before, after, BackfillSteps(before, items, pass), QuietPass(before, items, pass))
    requires e in before.evaluations && before.evaluations[e].conversationId == items[n].conv
    ensures e in after.evaluations
    ensures Outcomes.UnstickTo(CaseAt(before, e), CaseAt(after, e), pass.llmEnabled, pass.at)
  {
    ExistingUnstuck(before, after, items, pass, n, e);
    CaseOf(before, e);
    assert CaseInv(before.forms, SystemOf(before).cases[e]);
    Outcomes.UnstickOutcome(before.forms, CaseAt(before, e), pass.llmEnabled, pass.at);
  }

  /** A listed conversation without an evaluation has a new one if its channel
      has a form. */
  lemma NewOutcome(before: Db, after: Db, items: seq<Item>, pass: Pass, n: nat, form: FormRef)
    requires Backfillable(before, items, pass) && n < |items|
    requires Ran(before, after, BackfillSteps(before, items, pass), QuietPass(before, items, pass))
    requires items[n] in items && Unevaluated(before.evaluations, items[n].conv)
    requires pass.active(before.conversations[items[n].conv].channel) == Some(form)
    ensures items[n].id in after.evaluations
    ensures var c := CaseAt(after, items[n].id);
            if pass.llmEnabled then Outcomes.BornForAi(c, form.0, form.1, false, items[n].enqueued)
            else Outcomes.BornForQa(c, form.0, form.1, pass.at)
  {
    StepOutcome(before, after, items, pass, n);
    assert items[n].id in CasesOf(after);
    CaseOf(after, items[n].id);
    Outcomes.BirthOutcome(form.0, form.1, ByBackfill(pass.llmEnabled, items[n].enqueued, pass.at));
  }
}
