/** Each service operation on the tables is one step of the workflow, and
    keeps its invariant. */
module TableSteps {
  import opened Wrappers
  import opened Scoring
  import opened Review
  import opened AiOutput
  import opened Workflow
  import opened WorkflowRuns
  import opened Tables
  import Outcomes

  /** The form an evaluation is bound to. */
  function BoundForm(db: Db, id: string): Form
    requires id in db.evaluations && db.evaluations[id].ev.formId in db.forms
  {
    db.forms[db.evaluations[id].ev.formId]
  }

  // ---------------------------------------------------------------------
  // Operations that may be refused

  lemma QaStartIsStep(before: Db, after: Db, id: string, user: string, now: int, r: Option<Error>)
    requires Consistent(before) && id in before.evaluations
    requires Performed(before, after, id, QaStart(CaseAt(before, id), user, now), r)
    ensures IsStep(before, after, On(id, StartQa(user, now))) && KeepsInv(before, after)
  {
    PerformedIsStep(before, after, id, StartQa(user, now), QaStart(CaseAt(before, id), user, now), r);
  }

  lemma QaSubmitIsStep(before: Db, after: Db, id: string, user: string, adjusted: seq<Adjustment>,
                       threshold: Option<real>, now: int,
                       r: Option<Error>)
    requires Consistent(before) && id in before.evaluations
    requires Performed(before, after, id,
                       QaSubmit(CaseAt(before, id), BoundForm(before, id), user, adjusted, threshold, now), r)
    ensures IsStep(before, after, On(id, SubmitQa(user, adjusted, threshold, now))) && KeepsInv(before, after)
  {
    PerformedIsStep(before, after, id, SubmitQa(user, adjusted, threshold, now),
                    QaSubmit(CaseAt(before, id), BoundForm(before, id), user, adjusted, threshold, now), r);
  }

  lemma VerifierStartIsStep(before: Db, after: Db, id: string, user: string, now: int, r: Option<Error>)
    requires Consistent(before) && id in before.evaluations
    requires Performed(before, after, id, VerifierStart(CaseAt(before, id), user, now), r)
    ensures IsStep(before, after, On(id, StartVerifier(user, now))) && KeepsInv(before, after)
  {
    PerformedIsStep(before, after, id, StartVerifier(user, now), VerifierStart(CaseAt(before, id), user, now), r);
  }

  lemma VerifierApproveIsStep(before: Db, after: Db, id: string, user: string, r: Option<Error>)
    requires Consistent(before) && id in before.evaluations
    requires Performed(before, after, id, VerifierApprove(CaseAt(before, id), BoundForm(before, id), user), r)
    ensures IsStep(before, after, On(id, Approve(user))) && KeepsInv(before, after)
  {
    PerformedIsStep(before, after, id, Approve(user), VerifierApprove(CaseAt(before, id), BoundForm(before, id), user),
                    r);
  }

  lemma VerifierModifyIsStep(before: Db, after: Db, id: string, user: string, modified: seq<Adjustment>,
                             threshold: Option<real>, now: int,
                             r: Option<Error>)
    requires Consistent(before) && id in before.evaluations
    requires Performed(before, after, id,
                       VerifierModify(CaseAt(before, id), BoundForm(before, id), user, modified, threshold, now), r)
    ensures IsStep(before, after, On(id, Modify(user, modified, threshold, now))) && KeepsInv(before, after)
  {
    PerformedIsStep(before, after, id, Modify(user, modified, threshold, now),
                    VerifierModify(CaseAt(before, id), BoundForm(before, id), user, modified, threshold, now), r);
  }

  lemma VerifierRejectIsStep(before: Db, after: Db, id: string, r: Option<Error>)
    requires Consistent(before) && id in before.evaluations
    requires Performed(before, after, id, VerifierReject(CaseAt(before, id)), r)
    ensures IsStep(before, after, On(id, Reject)) && KeepsInv(before, after)
  {
    PerformedIsStep(before, after, id, Reject, VerifierReject(CaseAt(before, id)), r);
  }

  lemma AuditCaseIsStep(before: Db, after: Db, id: string, dismiss: bool, r: Option<Error>)
    requires Consistent(before) && id in before.evaluations
    requires Performed(before, after, id, ResolveAuditCase(CaseAt(before, id), dismiss), r)
    ensures IsStep(before, after, On(id, CloseAudit(dismiss))) && KeepsInv(before, after)
  {
    PerformedIsStep(before, after, id, CloseAudit(dismiss), ResolveAuditCase(CaseAt(before, id), dismiss), r);
  }

  lemma ManualAssignIsStep(before: Db, after: Db, id: string, user: string, role: Option<Role>, now: int,
                           r: Option<Error>)
    requires Consistent(before) && id in before.evaluations
    requires Performed(before, after, id, ManualAssign(CaseAt(before, id), user, role, now), r)
    ensures IsStep(before, after, On(id, AssignTo(user, role, now))) && KeepsInv(before, after)
  {
    PerformedIsStep(before, after, id, AssignTo(user, role, now), ManualAssign(CaseAt(before, id), user, role, now), r);
  }

  lemma ReassignIsStep(before: Db, after: Db, id: string, user: string, active: bool, r: Option<Error>)
    requires Consistent(before) && id in before.evaluations
    requires Performed(before, after, id, Reassign(CaseAt(before, id), user, active), r)
    ensures IsStep(before, after, On(id, ReassignTo(user, active))) && KeepsInv(before, after)
  {
    PerformedIsStep(before, after, id, ReassignTo(user, active), Reassign(CaseAt(before, id), user, active), r);
  }

  /** A scored submission that is written as specified, and one refused. */
  lemma SubmissionWritten(before: Db, after: Db, id: string, user: string, adjusted: seq<Adjustment>,
                          threshold: Option<real>,
                          now: int, result: ScoreResult)
    requires Consistent(before) && id in before.evaluations
    requires QaScored(CaseAt(before, id).ev, BoundForm(before, id), user, adjusted) == Success(result)
    requires var c, escalate := CaseAt(before, id),
             Escalates(ScoreGap(result.overallScore, CaseAt(before, id).ev.aiScore), threshold);
             Replaced(before, after, id, c.(ev := SubmittedEvaluation(c.ev, result, escalate),
                                            row := SubmittedRow(c.row, escalate, now), log := c.log + [QaSubmitted]))
    ensures Performed(before, after, id,
                      QaSubmit(CaseAt(before, id), BoundForm(before, id), user, adjusted, threshold, now), None)
    ensures IsStep(before, after, On(id, SubmitQa(user, adjusted, threshold, now))) && KeepsInv(before, after)
  {
    QaSubmitIsStep(before, after, id, user, adjusted, threshold, now, None);
  }

  lemma SubmissionRefused(before: Db, id: string, user: string, adjusted: seq<Adjustment>, threshold: Option<real>,
                          now: int, e: Error)
    requires Consistent(before) && id in before.evaluations
    requires QaScored(CaseAt(before, id).ev, BoundForm(before, id), user, adjusted) == Failure(e)
    ensures Performed(before, before, id,
                      QaSubmit(CaseAt(before, id), BoundForm(before, id), user, adjusted, threshold, now), Some(e))
    ensures IsStep(before, before, On(id, SubmitQa(user, adjusted, threshold, now))) && KeepsInv(before, before)
  {
    QaSubmitIsStep(before, before, id, user, adjusted, threshold, now, Some(e));
  }

  /** The same for a modification. */
  lemma ModificationWritten(before: Db, after: Db, id: string, user: string, modified: seq<Adjustment>,
                            threshold: Option<real>,
                            now: int, result: ScoreResult)
    requires Consistent(before) && id in before.evaluations
    requires VerifierScored(CaseAt(before, id).ev, BoundForm(before, id), user, modified) == Success(result)
    requires var c, gap := CaseAt(before, id), ScoreGap(result.overallScore, CaseAt(before, id).ev.qaScore);
             Replaced(before, after, id, c.(ev := ModifiedEvaluation(c.ev, result),
                                            audit := ModifiedAudit(c.audit, gap, threshold),
                                            row := ModifiedRow(c.row, gap, threshold, now), conv := Completed,
                                            log := c.log + [VerifierModified]))
    ensures Performed(before, after, id,
                      VerifierModify(CaseAt(before, id), BoundForm(before, id), user, modified, threshold, now), None)
    ensures IsStep(before, after, On(id, Modify(user, modified, threshold, now))) && KeepsInv(before, after)
  {
    VerifierModifyIsStep(before, after, id, user, modified, threshold, now, None);
  }

  lemma ModificationRefused(before: Db, id: string, user: string, modified: seq<Adjustment>, threshold: Option<real>,
                            now: int, e: Error)
    requires Consistent(before) && id in before.evaluations
    requires VerifierScored(CaseAt(before, id).ev, BoundForm(before, id), user, modified) == Failure(e)
    ensures Performed(before, before, id,
                      VerifierModify(CaseAt(before, id), BoundForm(before, id), user, modified, threshold, now),
                        Some(e))
    ensures IsStep(before, before, On(id, Modify(user, modified, threshold, now))) && KeepsInv(before, before)
  {
    VerifierModifyIsStep(before, before, id, user, modified, threshold, now, Some(e));
  }

  /** The retry keeps the invariant unless it adds a second job. */
  lemma RetryIsStep(before: Db, after: Db, id: string, queueUp: bool, enqueued: bool, r: Option<Error>)
    requires Consistent(before) && id in before.evaluations
    requires Performed(before, after, id, RetryAiFailed(CaseAt(before, id), queueUp, enqueued), r)
    ensures IsStep(before, after, On(id, RetryAi(queueUp, enqueued)))
    ensures !enqueued || JobsOf(before.jobs, id) == [] ==> KeepsInv(before, after)
  {
    PerformedIsStep(before, after, id, RetryAi(queueUp, enqueued), RetryAiFailed(CaseAt(before, id), queueUp, enqueued),
                    r);
  }

  // ---------------------------------------------------------------------
  // The worker, the sweeper, the backfill and the remap

  lemma SkipIsStep(before: Db, after: Db, id: string, j: nat, now: int)
    requires Consistent(before) && id in before.evaluations
    requires j < |JobsOf(before.jobs, id)|
    requires Replaced(before, after, id, SkipAi(CaseAt(before, id), j, now))
    ensures IsStep(before, after, On(id, JobSkips(j, now))) && KeepsInv(before, after)
  {
    ReplacedIsStep(before, after, id, JobSkips(j, now), SkipAi(CaseAt(before, id), j, now));
  }

  lemma BeginIsStep(before: Db, after: Db, id: string, j: nat)
    requires Consistent(before) && id in before.evaluations
    requires j < |JobsOf(before.jobs, id)|
    requires Replaced(before, after, id, BeginAi(CaseAt(before, id)))
    ensures IsStep(before, after, On(id, JobBegins(j))) && KeepsInv(before, after)
  {
    ReplacedIsStep(before, after, id, JobBegins(j), BeginAi(CaseAt(before, id)));
  }

  lemma EndIsStep(before: Db, after: Db, id: string, j: nat, reply: Option<seq<RawAnswer>>, now: int)
    requires Consistent(before) && id in before.evaluations
    requires j < |JobsOf(before.jobs, id)| && JobsOf(before.jobs, id)[j].formId in before.forms
    requires Replaced(before, after, id,
                      EndAi(CaseAt(before, id), j, before.forms[JobsOf(before.jobs, id)[j].formId], reply, now))
    ensures IsStep(before, after, On(id, JobEnds(j, reply, now))) && KeepsInv(before, after)
  {
    ReplacedIsStep(before, after, id, JobEnds(j, reply, now),
                   EndAi(CaseAt(before, id), j, before.forms[JobsOf(before.jobs, id)[j].formId], reply, now));
  }

  lemma SweepIsStep(before: Db, after: Db, id: string, now: int, staleHours: Option<int>)
    requires Consistent(before) && id in before.evaluations
    requires Replaced(before, after, id, Sweep(CaseAt(before, id), now, staleHours))
    ensures IsStep(before, after, On(id, StaleCheck(now, staleHours))) && KeepsInv(before, after)
  {
    ReplacedIsStep(before, after, id, StaleCheck(now, staleHours), Sweep(CaseAt(before, id), now, staleHours));
  }

  lemma RemapIsStep(before: Db, after: Db, id: string, replacement: Option<(string, int)>)
    requires Consistent(before) && id in before.evaluations
    requires replacement.Some? ==> replacement.value.0 in before.forms
    requires Replaced(before, after, id, Remap(CaseAt(before, id), BoundForm(before, id), replacement))
    ensures IsStep(before, after, On(id, RemapTo(replacement))) && KeepsInv(before, after)
  {
    ReplacedIsStep(before, after, id, RemapTo(replacement),
                   Remap(CaseAt(before, id), BoundForm(before, id), replacement));
  }

  /** The backfill of an evaluation keeps the invariant unless a job for it is
      outstanding. */
  lemma UnstickIsStep(before: Db, after: Db, id: string, llmEnabled: bool, now: int)
    requires Consistent(before) && id in before.evaluations
    requires Replaced(before, after, id, Unstick(CaseAt(before, id), llmEnabled, now))
    ensures IsStep(before, after, On(id, UnstickPending(llmEnabled, now)))
    ensures llmEnabled || JobsOf(before.jobs, id) == [] ==> KeepsInv(before, after)
  {
    ReplacedIsStep(before, after, id, UnstickPending(llmEnabled, now), Unstick(CaseAt(before, id), llmEnabled, now));
  }

  /** What matters to the loops of the services: the invariant survives. */
  lemma UnstickKeepsInv(before: Db, after: Db, id: string, llmEnabled: bool, now: int)
    requires Consistent(before) && id in before.evaluations
    requires Replaced(before, after, id, Unstick(CaseAt(before, id), llmEnabled, now))
    ensures llmEnabled || JobsOf(before.jobs, id) == [] ==> KeepsInv(before, after)
  {
    UnstickIsStep(before, after, id, llmEnabled, now);
  }

  lemma CreationKeepsInv(before: Db, after: Db, id: string, formId: string, version: int, origin: Origin)
    requires Replaced(before, after, id, Born(formId, version, origin)) && id !in before.evaluations
             && formId in before.forms
    ensures KeepsInv(before, after)
  {
    CreationIsStep(before, after, id, formId, version, origin);
  }

  lemma RemapKeeps(before: Db, after: Db, id: string, replacement: Option<(string, int)>)
    requires Consistent(before) && id in before.evaluations
             && (replacement.Some? ==> replacement.value.0 in before.forms)
    requires Replaced(before, after, id, Remap(CaseAt(before, id), BoundForm(before, id), replacement))
    ensures KeepsInv(before, after)
  {
    RemapIsStep(before, after, id, replacement);
  }

  lemma OtherCases(before: Db, after: Db, id: string, c: Case)
    requires Consistent(before) && Consistent(after) && id in before.evaluations
    requires CasesOf(after) == CasesOf(before)[id := c]
    ensures after.evaluations.Keys == before.evaluations.Keys && CaseAt(after, id) == c
    ensures forall k :: k in before.evaluations && k != id ==> CaseAt(after, k) == CaseAt(before, k)
  {
    CaseKeys(before);
    CaseKeys(after);
    CaseOf(after, id);
    forall k | k in before.evaluations && k != id ensures CaseAt(after, k) == CaseAt(before, k) {
      CaseOf(before, k);
      CaseOf(after, k);
    }
  }

  lemma StepCases(before: Db, after: Db, id: string, e: Event)
    requires IsStep(before, after, On(id, e))
    ensures id in before.evaluations && Possible(before.forms, CaseAt(before, id), e)
    ensures CasesOf(after) == CasesOf(before)[id := Apply(before.forms, CaseAt(before, id), e)]
  {
    CaseKeys(before);
    CaseOf(before, id);
  }

  /** Whatever is a step for one evaluation of the tables leaves the outcome of
      its event there, and every other evaluation as it was. */
  lemma StepOutcome(before: Db, after: Db, id: string, e: Event)
    requires IsStep(before, after, On(id, e)) && Inv(SystemOf(before)) && Outcomes.OneOfEachKey(e)
    ensures after.evaluations.Keys == before.evaluations.Keys && id in before.evaluations
    ensures Possible(before.forms, CaseAt(before, id), e)
    ensures Outcomes.Outcome(before.forms, CaseAt(before, id), e, CaseAt(after, id))
    ensures forall k :: k in before.evaluations && k != id ==> CaseAt(after, k) == CaseAt(before, k)
  {
    StepCases(before, after, id, e);
    OtherCases(before, after, id, Apply(before.forms, CaseAt(before, id), e));
    CaseInOrder(before, id);
    Outcomes.EventOutcome(before.forms, CaseAt(before, id), e);
  }

  lemma CaseInOrder(db: Db, id: string)
    requires Consistent(db) && Inv(SystemOf(db)) && id in db.evaluations
    ensures CaseInv(db.forms, CaseAt(db, id))
  {
    CaseOf(db, id);
    assert CaseInv(db.forms, SystemOf(db).cases[id]);
  }
}
