/** What holds on every quiet run of the workflow, and why runs have to be
    quiet. */
module WorkflowTheorems {
  import opened Wrappers
  import opened Answers
  import opened Scoring
  import opened Review
  import opened AiOutput
  import opened Workflow
  import opened WorkflowRuns
  import opened PassFail

  ghost predicate Reaches(trace: seq<System>, steps: seq<Step>, i: nat, id: string) {
    QuietRun(trace, steps) && i < |trace| && id in trace[i].cases
  }

  /** Four of the twelve states are never entered, VERIFIER_REVIEW is never
      a conversation's status, and an escalation row is always flagged. */
  lemma ReachableShape(trace: seq<System>, steps: seq<Step>, i: nat, id: string)
    requires Reaches(trace, steps, i, id)
    ensures var c := trace[i].cases[id];
            && c.ev.state !in {AiCompleted, VerifierPending, VerifierCompleted, Escalated}
            && c.conv != VerifierReview
            && WorkInv(c)
  {
    RunKeepsInv(trace, steps, i);
  }

  // ---------------------------------------------------------------------
  // Round-robin assignment

  /** Round-robin assignment never reads the state, yet it only ever moves a
      waiting evaluation to the stage its queue stands for. */
  lemma RoundRobinMovesOnlyWaiting(trace: seq<System>, steps: seq<Step>, i: nat, id: string, queueType: QueueType,
                                   user: string)
    requires Reaches(trace, steps, i, id) && i < |steps| && steps[i] == On(id, AutoAssign(queueType, user))
    requires trace[i + 1] != trace[i]
    ensures var c, d := trace[i].cases[id], trace[i + 1].cases[id];
            || (queueType == QaQueue && c.ev.state == QaPending && d.ev.state == QaInProgress
                && d.ev.qaUser == Some(user))
            || (queueType == VerifierQueue && c.ev.state == QaCompleted && d.ev.state == VerifierInProgress
                && d.ev.verifierUser == Some(user))
  {
    RunKeepsInv(trace, steps, i);
    var c := trace[i].cases[id];
    assert trace[i + 1].cases[id] == Apply(trace[i].forms, c, AutoAssign(queueType, user));
    assert trace[i].cases[id := c] == trace[i].cases;
  }

  // ---------------------------------------------------------------------
  // Locking

  predicate SameFinals(e: Evaluation, f: Evaluation) {
    && e.finalLayer == f.finalLayer && e.finalScore == f.finalScore && e.passFail == f.passFail
    && e.verifierLayer == f.verifierLayer && e.verifierScore == f.verifierScore
    && e.formId == f.formId && e.qaLayer == f.qaLayer && e.qaScore == f.qaScore
  }

  lemma LockedStaysLocked(forms: map<string, Form>, c: Case, e: Event)
    requires CaseInv(forms, c) && Possible(forms, c, e) && c.ev.state == Locked
    ensures var d := Apply(forms, c, e); d.ev.state == Locked && SameFinals(c.ev, d.ev)
  {
  }

  lemma LockedAcross(trace: seq<System>, steps: seq<Step>, j: nat, id: string)
    requires QuietRun(trace, steps) && j < |steps| && id in trace[j].cases && trace[j].cases[id].ev.state == Locked
    ensures id in trace[j + 1].cases && trace[j + 1].cases[id].ev.state == Locked
    ensures SameFinals(trace[j].cases[id].ev, trace[j + 1].cases[id].ev)
  {
    RunKeepsInv(trace, steps, j);
    NextCase(trace[j], steps[j], id);
    if steps[j].On? && steps[j].id == id {
      LockedStaysLocked(trace[j].forms, trace[j].cases[id], steps[j].event);
    }
  }

  /** LOCKED is terminal and the final result is immutable. */
  lemma {:induction false} LockIsForever(trace: seq<System>, steps: seq<Step>, i: nat, k: nat, id: string)
    requires Reaches(trace, steps, i, id) && trace[i].cases[id].ev.state == Locked && i <= k < |trace|
    ensures id in trace[k].cases
    ensures var c, d := trace[i].cases[id], trace[k].cases[id]; d.ev.state == Locked && SameFinals(c.ev, d.ev)
    decreases k
  {
    if i < k {
      LockIsForever(trace, steps, i, k - 1, id);
      LockedAcross(trace, steps, k - 1, id);
    }
  }

  /** A locked evaluation sits in the audit queue exactly while its audit
      case is open. */
  lemma AuditQueueMeansOpenCase(trace: seq<System>, steps: seq<Step>, i: nat, id: string)
    requires Reaches(trace, steps, i, id) && trace[i].cases[id].ev.state == Locked
    ensures var c := trace[i].cases[id];
            && (c.row.Some? <==> c.audit.Some? && c.audit.value.status == Open)
            && (c.row.Some? ==> c.row.value.queueType == AuditQueue)
  {
    RunKeepsInv(trace, steps, i);
  }

  /** Whenever a modification opens an audit case there was none before, so
      the upsert always creates and its update branch is dead. */
  lemma AuditCaseIsAlwaysNew(trace: seq<System>, steps: seq<Step>, i: nat, id: string, user: string,
                             modified: seq<Adjustment>, threshold: Option<real>, now: int)
    requires Reaches(trace, steps, i, id)
    requires trace[i].cases[id].ev.formId in trace[i].forms
    requires VerifierModify(trace[i].cases[id], trace[i].forms[trace[i].cases[id].ev.formId], user, modified, threshold,
                            now).Success?
    ensures trace[i].cases[id].audit.None?
  {
    RunKeepsInv(trace, steps, i);
  }

  /** The locked result is the score of the final answers on the bound form,
      whatever rejections, resubmissions and remaps came before. */
  lemma LockedResult(trace: seq<System>, steps: seq<Step>, i: nat, id: string)
    requires Reaches(trace, steps, i, id) && trace[i].cases[id].ev.state == Locked
    ensures var ev := trace[i].cases[id].ev;
            && ev.formId in trace[i].forms
            && ev.finalLayer.Some? && ev.finalScore.Some?
            && var form, score := trace[i].forms[ev.formId], ev.finalScore.value;
               && score == ScoreOn(form, ev.finalLayer.value.answers).overallScore
               && ev.verifierScore == Some(score)
               && ev.passFail == Some(score >= form.strategy.PassMark())
  {
    RunKeepsInv(trace, steps, i);
  }

  /** Reading a locked evaluation, in the detail view or in the conversation
      list (which sees a pass mark only when the form states one), shows the
      flags that were stored. */
  lemma ReadingChangesNothing(trace: seq<System>, steps: seq<Step>, i: nat, id: string)
    requires Reaches(trace, steps, i, id) && trace[i].cases[id].ev.state == Locked
    ensures var ev := trace[i].cases[id].ev;
            && ev.formId in trace[i].forms
            && var form := trace[i].forms[ev.formId];
               && Reread(ev, form).passFail == ev.passFail
               && Reread(ev, form).verifierLayer == ev.verifierLayer
               && Reread(ev, form).finalLayer == ev.finalLayer
               && Derive(ev.finalScore, form.strategy.passMark, ev.passFail) == ev.passFail
  {
    RunKeepsInv(trace, steps, i);
  }

  // ---------------------------------------------------------------------
  // Edits of a bound form

  /** What a locked evaluation shows is unchanged by an edit of its form
      exactly when its score is on the same side of both pass marks. */
  lemma RereadUnchangedIff(forms: map<string, Form>, c: Case, edited: Form)
    requires CaseInv(forms, c) && c.ev.state == Locked
    ensures var ev, form, r := c.ev, forms[c.ev.formId], Reread(c.ev, edited);
            (r.passFail == ev.passFail && r.verifierLayer == ev.verifierLayer && r.finalLayer == ev.finalLayer)
            <==> (ev.finalScore.value >= form.strategy.PassMark()
                  <==> ev.finalScore.value >= edited.strategy.PassMark())
  {
  }

  /** The layer that must be what the bound form gives its answers. */
  function ScoredLayer(ev: Evaluation): Option<Layer> {
    if ev.state in {QaCompleted, VerifierInProgress} then ev.qaLayer
    else if ev.state == Locked then ev.finalLayer
    else None
  }

  /** An edit of the bound form leaves the evaluation in order exactly when
      scoring the stored answers again gives the stored layer. */
  lemma EditKeepsInvIff(forms: map<string, Form>, c: Case, edited: Form)
    requires CaseInv(forms, c)
    ensures CaseInv(forms[c.ev.formId := edited], c)
       <==> (ScoredLayer(c.ev).Some? ==>
               LayerOf(ScoreOn(edited, ScoredLayer(c.ev).value.answers)) == ScoredLayer(c.ev).value)
  {
  }

  function WithMark(form: Form, passMark: real): Form {
    form.(strategy := form.strategy.(passMark := Some(passMark)))
  }

  /** For a new pass mark both conditions are the same, and plain to see. */
  lemma MarkEditKeepsInvIff(forms: map<string, Form>, c: Case, passMark: real)
    requires CaseInv(forms, c) && ScoredLayer(c.ev).Some?
    ensures var form, score := forms[c.ev.formId], ScoredLayer(c.ev).value.overallScore;
            CaseInv(forms[c.ev.formId := WithMark(form, passMark)], c)
            <==> (score >= form.strategy.PassMark() <==> score >= passMark)
  {
    EditKeepsInvIff(forms, c, WithMark(forms[c.ev.formId], passMark));
  }

  /** So for any locked evaluation some edit of the pass mark alone
      contradicts the stored result. */
  lemma EditCanContradictLock(forms: map<string, Form>, c: Case)
    requires CaseInv(forms, c) && c.ev.state == Locked
    ensures exists edited: Form ::
      edited.sections == forms[c.ev.formId].sections && edited.questions == forms[c.ev.formId].questions
      && c.ev.passFail != Some(ScoreOn(edited, c.ev.finalLayer.value.answers).passFail)
      && !CaseInv(forms[c.ev.formId := edited], c)
  {
    var form, score := forms[c.ev.formId], c.ev.finalScore.value;
    var mark := if c.ev.passFail == Some(true) then score + 1.0 else score;
    MarkEditKeepsInvIff(forms, c, mark);
    assert ScoreOn(WithMark(form, mark), c.ev.finalLayer.value.answers).passFail == (score >= mark);
  }

  // ---------------------------------------------------------------------
  // Escalation

  lemma EscalationStep(forms: map<string, Form>, c: Case, e: Event)
    requires CaseInv(forms, c) && Possible(forms, c, e) && c.ev.isEscalated
    ensures Apply(forms, c, e).ev.isEscalated
  {
  }

  lemma EscalatedAcross(trace: seq<System>, steps: seq<Step>, j: nat, id: string)
    requires QuietRun(trace, steps) && j < |steps| && id in trace[j].cases && trace[j].cases[id].ev.isEscalated
    ensures id in trace[j + 1].cases && trace[j + 1].cases[id].ev.isEscalated
  {
    RunKeepsInv(trace, steps, j);
    NextCase(trace[j], steps[j], id);
    if steps[j].On? && steps[j].id == id {
      EscalationStep(trace[j].forms, trace[j].cases[id], steps[j].event);
    }
  }

  /** The flag is never taken back: the reset in the admin retry finds it
      already false. */
  lemma {:induction false} EscalationIsMonotone(trace: seq<System>, steps: seq<Step>, i: nat, k: nat, id: string)
    requires Reaches(trace, steps, i, id) && trace[i].cases[id].ev.isEscalated && i <= k < |trace|
    ensures id in trace[k].cases && trace[k].cases[id].ev.isEscalated
    decreases k
  {
    if i < k {
      EscalationIsMonotone(trace, steps, i, k - 1, id);
      EscalatedAcross(trace, steps, k - 1, id);
    }
  }

  /** However often the sweeper runs, an evaluation has at most one
      stale_escalation entry; and an escalation row is always flagged. */
  lemma EscalatedOnce(trace: seq<System>, steps: seq<Step>, i: nat, id: string)
    requires Reaches(trace, steps, i, id)
    ensures var c := trace[i].cases[id];
            && StaleEntries(c) <= 1
            && (c.row.Some? && c.row.value.queueType == EscalationQueue ==> c.ev.isEscalated)
  {
    RunKeepsInv(trace, steps, i);
  }

  // ---------------------------------------------------------------------
  // Why runs have to be quiet

  ghost predicate QuietPath(forms: map<string, Form>, c: Case, es: seq<Event>)
    decreases |es|
  {
    es == [] || (Possible(forms, c, es[0]) && !Overlaps(c, es[0]) && QuietPath(forms, Apply(forms, c, es[0]), es[1..]))
  }

  ghost function After(forms: map<string, Form>, c: Case, es: seq<Event>): Case
    requires QuietPath(forms, c, es)
    decreases |es|
  {
    if es == [] then c else After(forms, Apply(forms, c, es[0]), es[1..])
  }

  /** Nothing that can still happen to the evaluation breaks its shape. */
  ghost predicate Safe(forms: map<string, Form>, c: Case) {
    forall es: seq<Event> :: QuietPath(forms, c, es) ==> WorkInv(After(forms, c, es))
  }

  lemma {:induction false} QuietPathKeepsInv(forms: map<string, Form>, c: Case, es: seq<Event>)
    requires CaseInv(forms, c) && QuietPath(forms, c, es)
    ensures CaseInv(forms, After(forms, c, es))
    decreases |es|
  {
    if es != [] {
      EventKeepsInv(forms, c, es[0]);
      QuietPathKeepsInv(forms, Apply(forms, c, es[0]), es[1..]);
    }
  }

  /** The first of two jobs hands the evaluation to QA, a reviewer claims it,
      and the second job begins. */
  const HANDED_BACK := [StartQa("u", 0), JobBegins(0)]
  const HANDED_OVER_AND_BACK := [JobSkips(0, 0)] + HANDED_BACK

  /** A reviewer holds the evaluation, which is in the AI stage again. */
  predicate DraggedBack(c: Case) {
    c.ev.state == AiInProgress && c.ev.qaUser == Some("u") && c.row.Some? && c.row.value.assignedTo == Some("u")
  }

  lemma PathCons(forms: map<string, Form>, c: Case, e: Event, es: seq<Event>)
    requires Possible(forms, c, e) && !Overlaps(c, e) && QuietPath(forms, Apply(forms, c, e), es)
    ensures QuietPath(forms, c, [e] + es) && After(forms, c, [e] + es) == After(forms, Apply(forms, c, e), es)
  {
    assert ([e] + es)[1..] == es;
  }

  lemma BreachIsUnsafe(forms: map<string, Form>, c: Case, es: seq<Event>)
    requires QuietPath(forms, c, es) && DraggedBack(After(forms, c, es))
    ensures !Safe(forms, c)
  {
    assert !WorkInv(After(forms, c, es));
  }

  /** With two jobs queued, the first can hand the evaluation to QA and the
      second then drags it back to AI_IN_PROGRESS under the reviewer. */
  lemma SecondJobBreaks(forms: map<string, Form>, c: Case)
    requires c.ev.formId in forms && |c.jobs| == 2
    ensures QuietPath(forms, c, HANDED_OVER_AND_BACK) && DraggedBack(After(forms, c, HANDED_OVER_AND_BACK))
    ensures !Safe(forms, c)
  {
    var c1 := SkipAi(c, 0, 0);
    assert |c1.jobs| == 1;
    LastTwoBreak(forms, c1);
    PathCons(forms, c, JobSkips(0, 0), HANDED_BACK);
    BreachIsUnsafe(forms, c, HANDED_OVER_AND_BACK);
  }

  lemma LastTwoBreak(forms: map<string, Form>, c: Case)
    requires c.ev.formId in forms && |c.jobs| == 1 && c.ev.state == QaPending && c.row.Some?
    ensures QuietPath(forms, c, HANDED_BACK) && DraggedBack(After(forms, c, HANDED_BACK))
    ensures !Safe(forms, c)
  {
    var c1 := QaStart(c, "u", 0).value;
    assert QuietPath(forms, BeginAi(c1), []);
    PathCons(forms, c1, JobBegins(0), []);
    PathCons(forms, c, StartQa("u", 0), [JobBegins(0)]);
    assert [StartQa("u", 0)] + [JobBegins(0)] == HANDED_BACK && [JobBegins(0)] + [] == [JobBegins(0)];
    BreachIsUnsafe(forms, c, HANDED_BACK);
  }

  /** Exactly the events that do not overlap an outstanding job are safe. */
  lemma SafeIffNoOverlap(forms: map<string, Form>, c: Case, e: Event)
    requires CaseInv(forms, c) && Possible(forms, c, e)
    ensures Safe(forms, Apply(forms, c, e)) <==> !Overlaps(c, e)
  {
    var d := Apply(forms, c, e);
    if !Overlaps(c, e) {
      EventKeepsInv(forms, c, e);
      forall es | QuietPath(forms, d, es) ensures WorkInv(After(forms, d, es)) {
        QuietPathKeepsInv(forms, d, es);
      }
    } else if e.RetryAi? {
      SecondJobBreaks(forms, d);
    } else {
      LastTwoBreak(forms, d);
    }
  }

  ghost predicate QuietStep(s: System, step: Step, t: System) {
    Enabled(s, step) && t == Next(s, step) && Quiet(s, step)
  }

  lemma QuietRunSnoc(trace: seq<System>, steps: seq<Step>, step: Step, last: System)
    requires QuietRun(trace, steps) && QuietStep(trace[|steps|], step, last)
    ensures QuietRun(trace + [last], steps + [step])
  {
    var longer, more := trace + [last], steps + [step];
    forall i {:trigger more[i]} | 0 <= i < |more|
      ensures QuietStep(longer[i], more[i], longer[i + 1])
    {
      if i < |steps| { assert longer[i] == trace[i] && more[i] == steps[i] && longer[i + 1] == trace[i + 1]; }
    }
  }

  lemma EventTakes(forms: map<string, Form>, id: string, c: Case, e: Event, d: Case)
    requires Possible(forms, c, e) && Apply(forms, c, e) == d && !Overlaps(c, e)
    ensures QuietStep(System(map[id := c], forms), On(id, e), System(map[id := d], forms))
  {
    assert map[id := c][id := d] == map[id := d];
  }

  lemma FirstTakes(formId: string, form: Form, id: string, version: int, origin: Origin)
    ensures var forms, c := map[formId := form], Born(formId, version, origin);
            && QuietStep(INITIAL, PutForm(formId, form), System(map[], forms))
            && QuietStep(System(map[], forms), Create(id, formId, version, origin), System(map[id := c], forms))
  {
    assert map[][id := Born(formId, version, origin)] == map[id := Born(formId, version, origin)];
  }

  lemma Extended(trace: seq<System>, steps: seq<Step>, step: Step, last: System)
    returns (longer: seq<System>, more: seq<Step>)
    requires QuietRun(trace, steps) && QuietStep(trace[|steps|], step, last)
    ensures QuietRun(longer, more) && longer == trace + [last] && more == steps + [step]
  {
    longer, more := trace + [last], steps + [step];
    QuietRunSnoc(trace, steps, step, last);
  }

  lemma UntilIngested(form: Form) returns (trace: seq<System>, steps: seq<Step>)
    ensures QuietRun(trace, steps) && |steps| == 2
    ensures trace[2] == System(map["e" := Ingested("f", 1, true)], map["f" := form])
  {
    FirstTakes("f", form, "e", 1, ByIngest(true));
    trace, steps := Extended([INITIAL], [], PutForm("f", form), System(map[], map["f" := form]));
    trace, steps := Extended(trace, steps, Create("e", "f", 1, ByIngest(true)),
                             System(map["e" := Ingested("f", 1, true)], map["f" := form]));
  }

  lemma UntilFailed(form: Form) returns (trace: seq<System>, steps: seq<Step>)
    ensures QuietRun(trace, steps) && |steps| == 4
    ensures trace[2] == System(map["e" := Ingested("f", 1, true)], map["f" := form])
    ensures trace[4] == System(map["e" := EndAi(BeginAi(Ingested("f", 1, true)), 0, form, None, 0)], map["f" := form])
  {
    var forms, c := map["f" := form], Ingested("f", 1, true);
    var d, e := BeginAi(c), EndAi(BeginAi(c), 0, form, None, 0);
    trace, steps := UntilIngested(form);
    EventTakes(forms, "e", c, JobBegins(0), d);
    trace, steps := Extended(trace, steps, On("e", JobBegins(0)), System(map["e" := d], forms));
    EventTakes(forms, "e", d, JobEnds(0, None, 0), e);
    trace, steps := Extended(trace, steps, On("e", JobEnds(0, None, 0)), System(map["e" := e], forms));
  }

  /** Both overlaps come up on quiet runs: a backfill right after an ingest,
      and a retry right after a failed attempt, which the worker is to try
      again itself. */
  lemma OverlapsComeUp(form: Form) returns (trace: seq<System>, steps: seq<Step>)
    ensures QuietRun(trace, steps) && |steps| == 4
    ensures "e" in trace[2].cases && Overlaps(trace[2].cases["e"], UnstickPending(false, 0))
    ensures "e" in trace[4].cases && Overlaps(trace[4].cases["e"], RetryAi(true, true))
  {
    trace, steps := UntilFailed(form);
  }
}
