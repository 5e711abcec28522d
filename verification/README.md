# A verified model of the QA evaluation platform

The platform scores customer conversations in three layers (AI, QA reviewer,
verifier) and moves every evaluation through a workflow that spreads over a
dozen service methods, a queue worker and a cron job. This project models that
workflow with its scoring, allocation and bookkeeping, and proves what ties
the pieces together. Verify it with `dafny verify dfyconfig.toml`.

## How it is built

| file | what it models |
|---|---|
| `Answers.dfy`, `Strings.dfy`, `NumberReading.dfy` | JSON answer values, `===`, `String()`, `trim`; `parseFloat` and what it reads back |
| `Scoring.dfy`, `ScoringProperties.dfy`, `ScoringMeaning.dfy` | the scoring loops, their per-section specification, its laws, and what a score is in plain arithmetic |
| `Review.dfy` | laying a submission over the layer below; deviation records |
| `AiOutput.dfy` | checking the model's reply, confidence routing, the in-place question sort |
| `Workflow.dfy` | one evaluation with its queue row, conversation status, audit case, jobs and audit entries, and what each operation does to it |
| `WorkflowRuns.dfy`, `WorkflowTheorems.dfy`, `PassFail.dfy` | runs over all evaluations, the inductive invariant, what follows from it; the read-time flags |
| `Outcomes.dfy` | a second description of every event and every creation, by what they leave behind, with the proof that the first agrees with it |
| `Finishing.dfy`, `FormLifecycle.dfy` | which evaluations can still be locked; the workflow beside the life cycle of its forms |
| `Tables.dfy`, `TableSteps.dfy`, `BatchAssignment.dfy`, `WorkflowStore.dfy`, `WorkflowBatches.dfy`, `BackfillOutcome.dfy` | the database tables, the services as methods that write them, the loops of upload, ingest, backfill and remap, and what a backfill makes of each conversation |
| `RoundRobin.dfy` | the allocator and its fairness |
| `Forms.dfy`, `Usage.dfy`, `LlmCost.dfy`, `TokenRefresh.dfy`, `Recording.dfy`, `Csv.dfy` | form versions and publication, usage counters and plan limit, call costs, token refresh, the recording search, CSV |
| `Sequences.dfy`, `Wrappers.dfy` | sums, filters, stable sorting; options and results |

The workflow is described four times, and the descriptions are connected.
`Workflow` gives each operation as a function on one evaluation and the rows
that belong to it (a `Case`). `WorkflowRuns` makes these functions the steps
of a state machine over all evaluations and proves its invariant.
`Outcomes` says what each event does to an evaluation that keeps the
invariant, from its input alone: which answers a layer then holds and what
they score, in which queue the evaluation waits and for whom, when it
escalates or opens an audit case; `EventOutcome` shows that the functions of
`Workflow` do exactly this. `WorkflowStore` has the services as methods over tables; each method's
contract says that, read together, the tables change by exactly the function
of `Workflow` for the evaluation concerned and by nothing else, that this is a
step of the state machine, and that the invariant of all evaluations
survives. `TableSteps` has one lemma for each operation that turns the first
of these into the other two. `WorkflowBatches` does the same for whole loops:
the tables after a batch are where a stated list of steps leads.

### The invariant

`WorkflowRuns.CaseInv` holds for every evaluation in every reachable state:

- AI_PENDING, AI_IN_PROGRESS, AI_FAILED: no queue row, not escalated, no audit case.
- QA_PENDING: a row in QA_QUEUE or ESCALATION_QUEUE, unassigned.
- QA_IN_PROGRESS: such a row, assigned to the evaluation's QA user.
- QA_COMPLETED, VERIFIER_IN_PROGRESS: a row in VERIFIER_QUEUE or
  ESCALATION_QUEUE, unassigned or assigned to the verifier; the QA layer and
  its score agree with the bound form.
- LOCKED: an AUDIT_QUEUE row exactly while the audit case is OPEN, otherwise
  none; final layer, scores and pass/fail agree with the bound form.
- The other four states never occur. The state determines the conversation
  status, except in AI_PENDING (PENDING or EVALUATING).
- At most one worker job is outstanding, and only in the AI states.

### Assumptions

- Each service method, and each item of a loop over conversations, queue rows
  or evaluations, is one atomic step. The worker is two: it marks the
  evaluation, then finishes.
- A run is *quiet*: no admin retry and no backfill hands an evaluation on
  while a worker job for it is still outstanding. The code does not check
  this. `WorkflowTheorems.SafeIffNoOverlap` shows that it is exactly what is
  needed: from a good state an event leaves the evaluation safe in every
  quiet continuation if and only if it does not overlap a job. Both overlaps
  come up on quiet runs (`WorkflowTheorems.OverlapsComeUp`).
- A form is unpublished, and so opened for editing, only while no evaluation
  depends on it. The code does not check this either. `FormLifecycle` puts
  the workflow beside the statuses of its forms and shows that it is exactly
  what is needed (`SafeIffCareful`), that every edit the service accepts then
  leaves the workflow as it is (`AcceptedEditIsFree`, `CarefulRunIsQuiet`),
  and a run that breaks a locked result (`LockedResultFalls`). Which edits of
  a bound form do no harm is an if and only if as well (`RereadUnchangedIff`,
  `EditKeepsInvIff`, `MarkEditKeepsInvIff` in `WorkflowTheorems`).
- A form's scale is not zero (the division then gives NaN).
- Job attempts are counted as jobs of at most three attempts; a job that
  failed for good is gone.
- Answers of database queries, the enqueue result, the clock and the model's
  reply are parameters.

### Where the code and its documentation disagree

The model follows the code.

- `04-queue-job-contracts.md:8` says that job handlers check the current state
  before acting; `processEval` does not look at it. This is why runs must be quiet.
- `04-queue-job-contracts.md:62` stores AI_COMPLETED; the code never writes it
  (`WorkflowTheorems.ReachableShape`).
- `PROJECT-STATUS.md:86` escalates a QA submission when the deviation is at
  least the threshold; the code needs more than the threshold.
  `plan-qaModule.prompt.md:209` opens an audit case above 10 points; the code
  also does at exactly 10.
- The comments on `estimateCostCents` promise 0 for self-hosted providers; the
  provider is never looked at (`LlmCost.ProviderIsIgnored` says exactly when
  the result is 0).

## Model

| member | source | states |
|---|---|---|
| `WorkflowRuns.RunKeepsInv` | apps/api/src/evaluations/evaluations.service.ts:374-1697 | In every state of every quiet run, over any number of evaluations and forms, every evaluation satisfies the invariant. |
| `WorkflowRuns.EventKeepsInv` | apps/api/src/evaluations/eval-process.worker.ts:281-482 | Each of the eighteen events, from claims to worker attempts and sweeper passes, keeps the invariant of its evaluation unless it overlaps an outstanding job. |
| `WorkflowRuns.StepKeepsInv` | apps/api/src/conversations/conversations.service.ts:293-494 | So does every step of the whole system: an event, the creation of an evaluation by upload, ingest or backfill, a new or edited unbound form. |
| `WorkflowRuns.AutoAssignKeeps` | apps/api/src/evaluations/evaluations.service.ts:1524-1555 | Round-robin assignment, which derives the new state from the queue type without reading the old one, keeps the invariant and touches no score. |
| `WorkflowRuns.EndAiKeepsInv` | apps/api/src/evaluations/eval-process.worker.ts:355-475 | The end of a worker attempt, successful or not, keeps the invariant. |
| `WorkflowRuns.ModifyKeepsInv` | apps/api/src/evaluations/evaluations.service.ts:799-920 | A verifier's modification keeps the invariant whether or not it opens an audit case. |
| `Outcomes.EventOutcome` | apps/api/src/evaluations/evaluations.service.ts:374-1697 | Every event, accepted or refused, does to an evaluation that keeps the invariant exactly what an independent table says: state, owner, queue row, conversation, layers, scores, audit case, jobs and audit entry, and otherwise nothing. |
| `Outcomes.RunOutcome` | apps/api/src/evaluations/evaluations.service.ts:374-1697 | So does every step of every quiet run, and every other evaluation stays as it was. |
| `Outcomes.SubmissionOutcome` | apps/api/src/evaluations/evaluations.service.ts:446-579 | A QA submission is accepted if and only if the evaluation is QA_IN_PROGRESS with this user and every changed AI answer has a reason. The QA layer then holds every submitted answer with its reason and every other AI answer, its scores and qaScore are those of these answers on the form, and it waits in ESCALATION_QUEUE with priority 1 if and only if the score is more than the threshold (15) away from the AI's, otherwise in VERIFIER_QUEUE with priority 5. |
| `Outcomes.SubmissionRefusal` | apps/api/src/evaluations/evaluations.service.ts:446-467 | The refusals in order: state, owner, first changed answer without a reason. |
| `Outcomes.ModificationOutcome` | apps/api/src/evaluations/evaluations.service.ts:775-905 | A modification is accepted if and only if the evaluation is VERIFIER_IN_PROGRESS with this user and every entry has a reason. The final layer holds the modified answers over the QA answers and their score. An OPEN audit case with the distance of the scores, and an unassigned AUDIT_QUEUE row of priority 1, are there if and only if the distance is at least the threshold (10); otherwise neither is. |
| `Outcomes.ModificationRefusal` | apps/api/src/evaluations/evaluations.service.ts:775-797 | The refusals of a modification in order. |
| `Outcomes.AcceptedIff` | apps/api/src/evaluations/eval-process.worker.ts:152-185 | The reply check accepts exactly the replies whose entries are objects with a value, textual reasoning and a confidence in [0, 1] if any, for exactly the questions of the form. |
| `Outcomes.AttemptOutcome` | apps/api/src/evaluations/eval-process.worker.ts:335-475 | An accepted reply ends in QA_PENDING: the AI layer has exactly the form's keys, each with the value, reasoning and confidence of its entry and no override reason; aiScore is the score of these answers; the least stated confidence sets the priority 1, 5 or 6. Any other reply leaves layer and scores as they were, ends in AI_FAILED and costs the job one attempt. |
| `Outcomes.BirthOutcome` | apps/api/src/conversations/conversations.service.ts:293-345 | What an evaluation is at birth by upload, ingest and backfill: unscored, unclaimed, in AI_PENDING with or without a job, or in QA_PENDING with a queue row. |
| `Outcomes.OverridesRecorded` | apps/api/src/evaluations/evaluations.service.ts:499-531 | An override is recorded if and only if a defined lower answer is replaced by one that prints differently; the record has the section of the key, the numbers before and after, and 1. |
| `WorkflowTheorems.ReachableShape` | apps/api/src/evaluations/evaluations.service.ts:374-1697 | On every quiet run AI_COMPLETED, VERIFIER_PENDING, VERIFIER_COMPLETED and ESCALATED never occur, no conversation is ever in VERIFIER_REVIEW, and state, row, assignee and owner agree. |
| `WorkflowTheorems.RoundRobinMovesOnlyWaiting` | apps/api/src/evaluations/evaluations.service.ts:1498-1555 | A round-robin step that changes anything moves QA_PENDING to QA_IN_PROGRESS or QA_COMPLETED to VERIFIER_IN_PROGRESS, for the assigned user. |
| `WorkflowTheorems.LockedStaysLocked` | apps/api/src/evaluations/evaluations.service.ts:700-727 | No event leaves LOCKED or changes the final or QA layer, scores, flag or bound form of a locked evaluation. |
| `WorkflowTheorems.LockIsForever` | apps/api/src/evaluations/evaluations.service.ts:700-727 | Over a whole run, once locked an evaluation stays locked with the same result. |
| `WorkflowTheorems.AuditQueueMeansOpenCase` | apps/api/src/evaluations/evaluations.service.ts:857-905 | A locked evaluation has a queue row if and only if its audit case is OPEN, and then it is an AUDIT_QUEUE row. |
| `WorkflowTheorems.AuditCaseIsAlwaysNew` | apps/api/src/evaluations/evaluations.service.ts:877-898 | Whenever verifierModify succeeds there was no audit case, so the update branch of the upsert is dead. |
| `WorkflowTheorems.LockedResult` | apps/api/src/evaluations/evaluations.service.ts:799-871 | On every quiet run, through rejections, resubmissions and remaps, a locked evaluation has finalScore = verifierScore = score of the final answers on the bound form, and passFail = (finalScore >= pass mark). |
| `WorkflowTheorems.ReadingChangesNothing` | apps/api/src/conversations/conversations.service.ts:41-50 | The read-time pass/fail normalisation of the detail view and of the conversation list shows a locked evaluation's stored flags. |
| `PassFail.Loaded.NormalizePassFail` | apps/api/src/evaluations/evaluations.service.ts:93-116 | The in-place rewrite of the record equals the specification `Reread` that ReadingChangesNothing is about. |
| `PassFail.RereadOutcome` | apps/api/src/evaluations/evaluations.service.ts:71-116 | Each layer's flag becomes whether the score stored for it, or failing that its own, reaches the mark, and the evaluation's flag whether the final score does; nothing else changes. |
| `WorkflowTheorems.RereadUnchangedIff` | apps/api/src/evaluations/evaluations.service.ts:71-116 | For any locked evaluation and any edited form, the re-read flag and both final layers are as stored if and only if the final score is on the same side of both pass marks. |
| `WorkflowTheorems.EditKeepsInvIff` | apps/api/src/forms/forms.service.ts:160-182 | For any evaluation in order and any edit of its form, it stays in order if and only if scoring its stored QA or final answers again gives the stored layer. |
| `WorkflowTheorems.MarkEditKeepsInvIff` | apps/api/src/forms/forms.service.ts:160-182 | An edit of the pass mark alone does no harm if and only if the stored score is on the same side of the old and the new mark. |
| `WorkflowTheorems.EditCanContradictLock` | apps/api/src/forms/forms.service.ts:160-182 | So for any locked evaluation some edit of the pass mark alone contradicts the stored flag and breaks the invariant. |
| `FormLifecycle.ActKeepsInv` | apps/api/src/forms/forms.service.ts:184-248 | Every accepted act, of the workflow or on a form, that overlaps no job and unpublishes no form an evaluation depends on keeps the invariant and leaves drafts bound to stuck evaluations at most. |
| `FormLifecycle.AcceptedEditIsFree` | apps/api/src/forms/forms.service.ts:160-182 | On every run with careful unpublishing, an edit that updateForm's DRAFT guard accepts is one that the workflow allows. |
| `FormLifecycle.CarefulRunIsQuiet` | apps/api/src/forms/forms.service.ts:160-248 | Such a run is a quiet run of the workflow, so all results on quiet runs hold of it. |
| `FormLifecycle.LockedResultStands` | apps/api/src/evaluations/evaluations.service.ts:799-871 | On it a locked result is the score of the final answers on the form as it is now, whatever was published, unpublished and edited. |
| `FormLifecycle.SafeIffCareful` | apps/api/src/forms/forms.service.ts:184-197 | From any good state, an accepted act can be followed by no careful breach of the workflow if and only if it overlaps no job and, if it is an unpublish, only stuck evaluations are bound to the form. |
| `FormLifecycle.LockedResultFalls` | apps/api/src/forms/forms.service.ts:160-197 | Publish, lock, unpublish, edit: for any form content there is such a run, every act accepted and only the unpublish careless, after which the stored flag is not what the form gives the final answers. |
| `Finishing.CanFinishIffNotStuck` | apps/api/src/evaluations/evaluations.service.ts:374-758 | Some quiet continuation locks an evaluation if and only if it is not stuck: no job left, and AI_IN_PROGRESS, or AI_PENDING with its conversation EVALUATING. |
| `Finishing.StuckStays` | apps/api/src/evaluations/evaluations.service.ts:1034-1052 | No event changes a stuck evaluation; neither retry nor backfill picks it up. |
| `Finishing.BornStuckIff` | apps/api/src/conversations/conversations.service.ts:309-331 | An evaluation is created stuck if and only if it is an upload with the model enabled whose enqueue fails. |
| `WorkflowTheorems.EscalationStep` | apps/api/src/evaluations/evaluations.service.ts:1054-1067 | No event takes an escalation flag back; the reset in the admin retry only meets evaluations that have none. |
| `WorkflowTheorems.EscalationIsMonotone` | apps/api/src/evaluations/evaluations.service.ts:558-579 | Over every quiet run isEscalated never goes from true to false. |
| `WorkflowTheorems.EscalatedOnce` | apps/api/src/workers/stale-queue-escalation.service.ts:61-116 | However often the sweeper runs an evaluation has at most one stale_escalation entry, and an ESCALATION_QUEUE row implies the flag. |
| `WorkflowTheorems.SafeIffNoOverlap` | apps/api/src/evaluations/evaluations.service.ts:1034-1092 | From any state with the invariant, an event leaves an evaluation that no quiet continuation can break if and only if it does not overlap an outstanding job. |
| `WorkflowTheorems.SecondJobBreaks` | apps/api/src/evaluations/eval-process.worker.ts:281-330 | With two jobs outstanding the path first job skips, reviewer claims, second job begins is quiet and ends in AI_IN_PROGRESS with the row still assigned to the reviewer. |
| `WorkflowTheorems.OverlapsComeUp` | apps/api/src/webhooks/webhooks.service.ts:143-170 | A quiet run from the empty system reaches an evaluation that a backfill would overlap, right after an ingest, and one that an admin retry would, right after a failed attempt. |
| `Tables.PutReplaces` | apps/api/src/evaluations/evaluations.service.ts:393-424 | Writing the rows of one evaluation replaces exactly its case, keeps every other case, and keeps the foreign keys and the one-evaluation-per-conversation rule. |
| `Tables.PerformedIsStep` | apps/api/src/evaluations/evaluations.service.ts:374-424 | A table operation that answers and writes as specified is a step of the state machine, and keeps the invariant when it overlaps no job. |
| `Tables.ReplacedIsStep` | apps/api/src/evaluations/eval-process.worker.ts:290-330 | The same for operations that cannot be refused. |
| `Tables.CreationIsStep` | apps/api/src/conversations/conversations.service.ts:293-345 | The same for the creation of an evaluation with its rows. |
| `TableSteps.RetryIsStep` | apps/api/src/evaluations/evaluations.service.ts:1034-1099 | A retry on the tables is a step, and keeps the invariant unless it adds a job while one is outstanding. |
| `TableSteps.QaSubmitIsStep` | apps/api/src/evaluations/evaluations.service.ts:428-615 | A submission on the tables, accepted or refused, is a step and keeps the invariant; one such lemma stands for each operation. |
| `TableSteps.StepOutcome` | apps/api/src/evaluations/evaluations.service.ts:374-1697 | What a method proves to be a step of one evaluation leaves, in tables that keep the invariant, the outcome of its event in that evaluation (the table of `Outcomes`) and every other evaluation as it was. |
| `WorkflowStore.EvaluationStore.StartQaReview` | apps/api/src/evaluations/evaluations.service.ts:374-424 | Claiming for QA: answers and changes the tables exactly as `Workflow.QaStart` says, in this one evaluation; this is a step of the state machine and keeps the invariant, as for every method below. |
| `WorkflowStore.EvaluationStore.SubmitQaReview` | apps/api/src/evaluations/evaluations.service.ts:428-615 | QA submission: a step of the state machine for this evaluation, with the outcome of `Outcomes.Submission`; on an error nothing changes. Accepted, it appends the deviation records and one audit entry with the user, and nothing else. |
| `WorkflowStore.EvaluationStore.ScoreSubmission` | apps/api/src/evaluations/evaluations.service.ts:446-531 | The merge, scoring and deviation loops give the specified score, records and gap, or the first refusal; the scored answers are the submitted ones over the AI's, and the scores are theirs on the form. |
| `WorkflowStore.SubmissionRecords` | apps/api/src/evaluations/evaluations.service.ts:486-531 | The records a submission leaves are one for the overall scores, with the stored qaScore, if the AI layer was scored, and one for each override. |
| `WorkflowStore.EvaluationStore.StartVerification` | apps/api/src/evaluations/evaluations.service.ts:619-674 | Claiming for verification. |
| `WorkflowStore.EvaluationStore.ApproveVerification` | apps/api/src/evaluations/evaluations.service.ts:678-758 | Approval: final layer, score and flag, removal from the queue, conversation COMPLETED. |
| `WorkflowStore.EvaluationStore.ModifyVerification` | apps/api/src/evaluations/evaluations.service.ts:762-942 | Modification: a step of the state machine for this evaluation, with the outcome of `Outcomes.Modification`; accepted, it appends the deviation records and one audit entry with the user. |
| `WorkflowStore.EvaluationStore.ScoreModification` | apps/api/src/evaluations/evaluations.service.ts:787-855 | The same for a modification over the QA layer. |
| `WorkflowStore.ModificationRecords` | apps/api/src/evaluations/evaluations.service.ts:808-855 | The same for a modification, with the final score, over the QA layer. |
| `WorkflowStore.EvaluationStore.RejectVerification` | apps/api/src/evaluations/evaluations.service.ts:946-1001 | Rejection by any verifier sends the evaluation back to QA, unassigned. |
| `WorkflowStore.EvaluationStore.RetryAi` | apps/api/src/evaluations/evaluations.service.ts:1034-1099 | Admin retry of AI_FAILED: rows reset, a new job when the enqueue works; when it fails the rows are written all the same and the caller gets an error. Keeps the invariant unless a job is added to an outstanding one. |
| `WorkflowStore.EvaluationStore.CloseAuditCase` | apps/api/src/evaluations/evaluations.service.ts:1274-1329 | Closing an audit case removes its AUDIT_QUEUE row and no other. |
| `WorkflowStore.EvaluationStore.AssignManually` | apps/api/src/evaluations/evaluations.service.ts:1333-1459 | Manual assignment by role and state, with its refusals in order. |
| `WorkflowStore.EvaluationStore.ReassignReview` | apps/api/src/evaluations/evaluations.service.ts:1588-1697 | Reassignment of evaluations in progress only. |
| `WorkflowStore.EvaluationStore.AssignRoundRobin` | apps/api/src/evaluations/evaluations.service.ts:1463-1584 | The batch assigns the items in turn to the users sorted by load, those with equal loads in order of creation; the tables afterwards are those of one assignment step for each item. |
| `WorkflowStore.EvaluationStore.EscalateStaleItems` | apps/api/src/workers/stale-queue-escalation.service.ts:49-127 | A sweeper pass over the queried rows changes every evaluation exactly as `Workflow.Sweep` says. |
| `WorkflowStore.SweepingKeepsInv` | apps/api/src/workers/stale-queue-escalation.service.ts:80-116 | Such a pass keeps the invariant of the whole system. |
| `WorkflowStore.EvaluationStore.SkipAiStage` | apps/api/src/evaluations/eval-process.worker.ts:292-313 | Without an enabled model the worker hands the evaluation straight to QA. |
| `WorkflowStore.EvaluationStore.BeginAiStage` | apps/api/src/evaluations/eval-process.worker.ts:321-329 | The worker marks evaluation and conversation, whatever their state. |
| `WorkflowStore.EvaluationStore.EndAiStage` | apps/api/src/evaluations/eval-process.worker.ts:335-475 | The worker's second half: a step of the state machine with the outcome of `Outcomes.Attempt` on the form as stored, although the question array has been sorted in between. |
| `WorkflowStore.EvaluationStore.ScoreReply` | apps/api/src/evaluations/eval-process.worker.ts:331-376 | Sorting the array in place, validating and scoring on it gives what validating and scoring the unsorted form would give: a score exactly for an accepted reply, of a layer that holds what each entry says. |
| `WorkflowStore.EvaluationStore.EvaluateUpload` | apps/api/src/conversations/conversations.service.ts:293-345 | One uploaded conversation: an evaluation with its rows, unless it has one. |
| `WorkflowStore.EvaluationStore.EvaluateIngested` | apps/api/src/webhooks/webhooks.service.ts:143-170 | One ingested conversation. |
| `WorkflowStore.EvaluationStore.BackfillConversation` | apps/api/src/conversations/conversations.service.ts:411-490 | One pending conversation of a backfill, in all its cases; keeps the invariant when the model is enabled, the evaluation is new, or no job for it is outstanding. |
| `WorkflowStore.EvaluationStore.RemapEvaluation` | apps/api/src/conversations/conversations.service.ts:574-604 | One evaluation of the remap: rebound exactly when it waits for QA on an unreadable form and a different readable one exists. |
| `WorkflowStore.EvaluationStore.UpsertConversation` | apps/api/src/conversations/conversations.service.ts:274-291 | A new conversation is PENDING, an existing one stays as it is, and no evaluation changes. |
| `WorkflowBatches.UploadBatch` | apps/api/src/conversations/conversations.service.ts:293-345 | The loop over an upload is the run that creates one evaluation for each listed conversation that had none, also when a conversation is listed twice. |
| `WorkflowBatches.IngestBatch` | apps/api/src/webhooks/webhooks.service.ts:143-170 | The same for an ingested batch. |
| `WorkflowBatches.CreatedBatchIsSafe` | apps/api/src/conversations/conversations.service.ts:293-345 | After such a batch every listed conversation has exactly one evaluation, and the invariant still holds. |
| `WorkflowBatches.BackfillPending` | apps/api/src/conversations/conversations.service.ts:363-494 | The backfill loop, with its form cache, is the run of steps judged by the tables at its start, quiet when the model is enabled or no listed evaluation has a job; processed counts those steps, processed and skipped add up, and the reasons name exactly the channels that need a form and have none, each once. |
| `WorkflowBatches.BackfillIsSafe` | apps/api/src/conversations/conversations.service.ts:411-440 | A backfill keeps the invariant when the model is enabled, whatever jobs are queued, and otherwise when no listed evaluation has an outstanding job. |
| `BackfillOutcome.ExistingOutcome` | apps/api/src/conversations/conversations.service.ts:411-440 | After a pass each evaluation of a listed conversation that waited for a model which is not enabled is in QA_PENDING with its queue row, and each other one is as it was. |
| `BackfillOutcome.NewOutcome` | apps/api/src/conversations/conversations.service.ts:441-490 | After a pass each listed conversation that had no evaluation, and whose channel has a form, has a new one on that form. |
| `WorkflowBatches.RemapCorrupted` | apps/api/src/conversations/conversations.service.ts:496-607 | The remap loop rebinds exactly the waiting evaluations with an unreadable form and a readable one for their channel; afterwards each of those whose channel has a readable form is bound to one; counters and reasons as in the backfill. |
| `WorkflowBatches.RemapIsSafe` | apps/api/src/conversations/conversations.service.ts:574-604 | A remap keeps the invariant. |
| `WorkflowBatches.RanKeepsInv` | apps/api/src/conversations/conversations.service.ts:293-607 | Any batch whose steps overlap no outstanding job keeps the invariant of the whole system. |
| `WorkflowBatches.LookedUp` | apps/api/src/conversations/conversations.service.ts:411-415 | During a pass, the evaluation looked up for a conversation whose turn has come is the one it had at the start, unchanged. |
| `BatchAssignment.BatchIsDealing` | apps/api/src/evaluations/evaluations.service.ts:1540-1555 | Writing all queue rows and then all evaluations equals assigning the items one after the other. |
| `BatchAssignment.DealingKeepsInv` | apps/api/src/evaluations/evaluations.service.ts:1540-1555 | A batch of any size keeps the invariant of the whole system. |
| `RoundRobin.LoadMap` | apps/api/src/evaluations/evaluations.service.ts:1509-1520 | The load map holds, for each eligible user and nobody else, the number of rows the user has in the queue. |
| `RoundRobin.Deal` | apps/api/src/evaluations/evaluations.service.ts:1522-1538 | The users are sorted by load, none lost or added, for every load those with it stay in their order, and item i goes to user i mod m. |
| `RoundRobin.ShareOf` | apps/api/src/evaluations/evaluations.service.ts:1534-1538 | The user at place k of m gets floor(n/m) of n items, plus one when k < n mod m. |
| `RoundRobin.TurnsMakeRound` | apps/api/src/evaluations/evaluations.service.ts:1522-1525 | Sorting distinct users yields the situation that the fairness results assume. |
| `RoundRobin.EveryItemOnce` | apps/api/src/evaluations/evaluations.service.ts:1534-1547 | Every selected row gets exactly one eligible assignee and no other row changes. |
| `RoundRobin.SharesAreFair` | apps/api/src/evaluations/evaluations.service.ts:1522-1538 | Shares are floor or ceiling of n/m, and a less loaded user never gets fewer than a more loaded one. |
| `RoundRobin.LoadAfter` | apps/api/src/evaluations/evaluations.service.ts:1541-1547 | The number of rows a user holds in the table grows by exactly the items dealt to the user. |
| `RoundRobin.SpreadDoesNotGrow` | apps/api/src/evaluations/evaluations.service.ts:1509-1538 | Any bound of at least one on the load differences before the round still bounds them afterwards. |
| `Scoring.ScoreForm` | apps/api/src/evaluations/scoring.service.ts:23-86 | The grouped single pass computes the specification in which every section filters the question list for itself. |
| `Scoring.GroupBySection` | apps/api/src/evaluations/scoring.service.ts:34-38 | The grouped map holds, for exactly the sections that have questions, those questions in form order. |
| `ScoringMeaning.ScoreMeaning` | apps/api/src/evaluations/scoring.service.ts:23-86 | A form's score in plain arithmetic: scored are exactly the sections with a question; each has the rounded mean of its questions' points by weight, a missing answer counting 0; the overall score is the rounded mean of these by section weight; the flag is whether it reaches the mark. |
| `ScoringMeaning.RankedMeaning` | apps/api/src/evaluations/scoring.service.ts:90-129 | A rating or bounded choice counts 0 at or below its least value, the scale at or above its greatest, and in proportion between them. |
| `ScoringMeaning.RankedSteps` | apps/api/src/evaluations/scoring.service.ts:122-129 | Within the range equal steps of the answer are equal steps of its points. |
| `ScoringMeaning.BooleanMeaning` | apps/api/src/evaluations/scoring.service.ts:96-97 | A yes/no question counts the scale for true, 1, yes and true as text, and 0 for everything else. |
| `ScoringMeaning.OtherMeaning` | apps/api/src/evaluations/scoring.service.ts:98-119 | A choice is the number its text starts with; without bounds it counts as it stands; free text counts 0. |
| `ScoringMeaning.RoundingMeaning` | apps/api/src/evaluations/scoring.service.ts:131-140 | Rounding yields whole hundredths: the greatest not above, the least not below, or the nearest with halves up. |
| `ScoringMeaning.RoundingUnique` | apps/api/src/evaluations/scoring.service.ts:131-140 | These conditions determine the rounded score. |
| `ScoringMeaning.BreakdownMeaning` | apps/api/src/evaluations/scoring.service.ts:63-69 | The breakdown entry of a section has its title, weight, score, weighted score and number of questions. |
| `ScoringMeaning.HigherCountsMoreIff` | apps/api/src/evaluations/scoring.service.ts:88-129 | Higher numbers never count less if and only if the question is not a yes/no question. |
| `ScoringMeaning.RaisingANumber` | apps/api/src/evaluations/scoring.service.ts:45-77 | Raising a number among the answers lowers no section score and not the overall score, and fails no pass. |
| `ScoringMeaning.BestScoresAll` | apps/api/src/evaluations/scoring.service.ts:45-77 | With positive weights, every question at its best scores the whole scale. |
| `ScoringMeaning.WorstScoresNothing` | apps/api/src/evaluations/scoring.service.ts:45-77 | Every question at its worst, or unanswered, scores 0. |
| `NumberReading.ReadsBack` | apps/api/src/evaluations/scoring.service.ts:107-109 | parseFloat reads back every decimal number as it was written, with sign, fraction and exponent, behind white space and before other text. |
| `NumberReading.NothingReadIff` | apps/api/src/evaluations/scoring.service.ts:107-109 | It answers NaN if and only if no digit follows the white space, a sign and a dot. |
| `ScoringProperties.RoundingError` | apps/api/src/evaluations/scoring.service.ts:45-76 | Against the formula without rounding the overall score is within 0.01 under round, in (exact - 0.02, exact] under floor and in [exact, exact + 0.02) under ceil. |
| `ScoringProperties.RoundingOrder` | apps/api/src/evaluations/scoring.service.ts:131-140 | floor score <= round score <= ceil score, through both levels of rounding. |
| `ScoringProperties.NormalizedRange` | apps/api/src/evaluations/scoring.service.ts:88-129 | A question keeps every answer within [0, scale] if and only if it is not a choice question without bounds. |
| `ScoringProperties.ScoreRange` | apps/api/src/evaluations/scoring.service.ts:45-77 | On a scale of whole hundredths, with non-negative weights and bounded questions, all section scores and the overall score lie in [0, scale]. |
| `ScoringProperties.ScoreMonotone` | apps/api/src/evaluations/scoring.service.ts:45-77 | Raising normalised answers lowers no section score and no overall score and turns no pass into a fail. |
| `ScoringProperties.QuestionOrderIrrelevant` | apps/api/src/evaluations/scoring.service.ts:34-76 | Reordering the questions, and adding questions of sections that do not exist, changes nothing. |
| `ScoringProperties.SectionOrderIrrelevant` | apps/api/src/evaluations/scoring.service.ts:45-76 | Reordering the sections changes nothing that is stored, and with distinct ids nothing at all. |
| `AiOutput.ValidateLlmAnswers` | apps/api/src/evaluations/eval-process.worker.ts:152-185 | The checking loop accepts exactly the well-formed replies with exactly the form's keys, and names a real fault otherwise. |
| `AiOutput.AcceptedReplyCoversForm` | apps/api/src/evaluations/eval-process.worker.ts:359-369 | The answers of an accepted reply have exactly the form's question keys. |
| `AiOutput.PriorityMeaning` | apps/api/src/evaluations/eval-process.worker.ts:128-150 | Priority 1 exactly when some stated confidence is below 0.6; priority 6 exactly when one is stated and none is below 0.9. |
| `AiOutput.SortQuestions` | apps/api/src/evaluations/eval-process.worker.ts:243-244 | The array is sorted in place: ascending by order, no question lost or added, equal ones in their order. |
| `AiOutput.SortKeepsScore` | apps/api/src/evaluations/eval-process.worker.ts:371-376 | The score taken from the sorted array is the score of the form. |
| `Review.MergeQa` | apps/api/src/evaluations/evaluations.service.ts:459-473 | Succeeds exactly when no adjustment that changes an AI answer lacks a reason; the result is the overlay, the error the first offending key. |
| `Review.MergeVerifier` | apps/api/src/evaluations/evaluations.service.ts:787-797 | Succeeds exactly when every entry has a reason. |
| `Review.OverlayExact` | apps/api/src/evaluations/evaluations.service.ts:457-473 | The merged answers are the submitted entries at their keys and the lower layer, untouched, everywhere else. |
| `Review.ChangedAnswersExplained` | apps/api/src/evaluations/evaluations.service.ts:461-467 | After an accepted submission every answer whose value differs from the AI's carries a reason. |
| `Review.OneRecordPerOverride` | apps/api/src/evaluations/evaluations.service.ts:486-531 | Each overridden key has exactly one record, no other key has any, and there is one overall record exactly when the lower layer has a score. |
| `Review.RecordDeviations` | apps/api/src/evaluations/evaluations.service.ts:486-531 | The loops produce exactly those records, each with the section of the last question of its key. |
| `Recording.ExtractRecordingUrl` | apps/web/src/components/conversations/call-review-panel.tsx:115-174 | On any finite, possibly cyclic object graph: null if and only if no audio text is reachable from any source; otherwise a text reachable from the first source that reaches any, and if that source is a record that stands for a text, this text. |
| `Recording.Search.Shortcut` | apps/web/src/components/conversations/call-review-panel.tsx:138-158 | Answers what the first candidate key holds, an audio text or a record whose url is one, and failing all keys the record's own url if its mime type admits it; null if and only if there is none of these. |
| `Recording.OneCandidate` | apps/web/src/components/conversations/call-review-panel.tsx:138-158 | A record stands for at most one text. |
| `Recording.AudioMeaning` | apps/web/src/components/conversations/call-review-panel.tsx:59-70 | A text looks like audio if and only if, trimmed, it begins with one of four schemes or ends in a dot, one of nine extensions in any case, and a query without line breaks or nothing. |
| `Recording.Search.Visit` | apps/web/src/components/conversations/call-review-panel.tsx:118-166 | Terminates. A record not visited before that stands for a text yields it, any other object a text of its first child that reaches one around the objects already visited; a miss leaves every newly visited object without unexplored children. |
| `Recording.SettledPath` | apps/web/src/components/conversations/call-review-panel.tsx:126-127 | No path from settled values through fully explored objects ends in an audio text, which is why one visited set can serve all sources. |
| `Csv.ParseColumns` | apps/web/src/app/(app)/upload/page.tsx:51-71 | The character loop computes the recursive reader. |
| `Csv.QuotedWhen` | apps/web/src/app/(app)/reports/page.tsx:28-36 | The report writer quotes a field if and only if it holds a comma or a quote; the export writer quotes every text and writes nothing for null. |
| `Csv.ReportRoundTrip` | apps/web/src/app/(app)/reports/page.tsx:28-36 | For every non-empty list of texts the loop reads back exactly what the quote-when-needed writer wrote. |
| `Csv.ExportRoundTrip` | apps/api/src/evaluations/evaluations.service.ts:1127-1162 | The same for the always-quoting writer, null becoming the empty text. |
| `Csv.TrimmedReportRoundTrip` | apps/web/src/app/(app)/upload/page.tsx:48-71 | With the upload page's trim of the line the report round trip holds if and only if the line has no white space at either end. |
| `Csv.TrimmedExportRoundTrip` | apps/web/src/app/(app)/upload/page.tsx:48-71 | The export round trip always survives that trim. |
| `TokenRefresh.Interceptor.OnUnauthorized` | apps/web/src/lib/api-client.ts:28-46 | What the 401 handler does with its module variables, the cookie and the request's retry flag is the tab's step of the protocol. |
| `TokenRefresh.Interceptor.OnGranted` | apps/web/src/lib/api-client.ts:53-69 | A successful refresh stores the new token and resumes exactly the queued requests, in order. |
| `TokenRefresh.AuthServer.Refresh` | apps/api/src/auth/auth.service.ts:259-274 | Rotation: a token that is known, not revoked and not expired is revoked and succeeded; any other is refused and changes nothing. |
| `TokenRefresh.RotationOutcome` | apps/api/src/auth/auth.service.ts:259-274 | The successor of an accepted token is accepted for thirty days and the presented one never again; every other token is as good as before. |
| `TokenRefresh.StepKeepsInv` | apps/web/src/lib/api-client.ts:19-74 | Every request, 401, login, server reply, failure and tick keeps the protocol invariant. |
| `TokenRefresh.SingleFlight` | apps/web/src/lib/api-client.ts:36-69 | On every run, with requests that keep their identity and their own retry flag: at most one refresh in flight, no token posted twice, no request posts twice, every queue entry is resumed at most once and in its turn, and with nothing in flight the cookie is the only unrevoked token of its chain. |
| `TokenRefresh.QueuedOnceIff` | apps/web/src/lib/api-client.ts:36-46 | Each request is queued at most once if and only if no resumed, still unmarked request meets a 401 while another refresh is in flight. |
| `TokenRefresh.ResumedTwice` | apps/web/src/lib/api-client.ts:36-58 | That happens: a run on which one request is resumed twice. |
| `TokenRefresh.RefusedIffExpired` | apps/api/src/auth/auth.service.ts:262-267 | The server refuses a posted token of this tab if and only if it has expired; never as revoked or unknown. |
| `Forms.VersionsNeverSkip` | apps/api/src/forms/forms.service.ts:110-152 | Under any interleaving of reads and inserts of concurrent requests the versions of each key are exactly 1 to n, and each successful insert adds n + 1. |
| `Forms.InsertAddsNext` | apps/api/src/forms/forms.service.ts:118-134 | An insert passes the unique index only when the version it read is still the latest. |
| `Forms.FormStore.CreateForm` | apps/api/src/forms/forms.service.ts:110-158 | The two-try loop fails exactly when both tries meet a rival insert, and otherwise stores one draft with the next free version and the given channels; no other row is lost or changed, and the other new rows are drafts of the same key. |
| `Forms.FormStore.SetStatus` | apps/api/src/forms/forms.service.ts:184-248 | Status changes and their refusals, keeping one published form per channel. |
| `Forms.ChangeOutcome` | apps/api/src/forms/forms.service.ts:184-248 | Exactly five changes of status are made, and a form is published only while no other published form shares a channel with it; nothing else of any form changes. |
| `Forms.ActiveFormIsUnique` | apps/api/src/conversations/conversations.service.ts:254-261 | On every run the published form of a channel is uniquely determined, so the order by version in the lookup decides nothing. |
| `Forms.FormCache.GetForm` | apps/api/src/conversations/conversations.service.ts:391-405 | A cached answer is what a fresh lookup would give. |
| `Usage.UsageTable.RowsAreExact` | apps/api/src/billing/usage-meter.service.ts:8-63 | After any sequence of writes, whichever writer creates the month's row, the row holds the sums of all recorded amounts and the number of distinct users who logged in, and never more conversations than a limited plan allows. |
| `Usage.UsageTable.Process` | apps/api/src/webhooks/webhooks.service.ts:91-112 | Uploads and ingests are refused exactly on their size and plan checks and recorded otherwise. |
| `Usage.UsageTable.RecordAiUsage` | apps/api/src/evaluations/eval-process.worker.ts:432-455 | Tokens and cost of a call are added to the current month, unless the writer's own condition says that nothing was used. |
| `Usage.UsageTable.Login` | apps/api/src/auth/auth.service.ts:187-219 | The active-user counter goes up exactly on a user's first login of the month. |
| `Usage.ExpectedSnoc` | apps/api/src/billing/usage-meter.service.ts:16-53 | One more event changes the expected row of its own month only, by its own amounts. |
| `LlmCost.LongestPrefixPrices` | apps/api/src/evaluations/llm-cost.util.ts:19-51 | For every model name the first matching prefix of the table is the longest matching one. |
| `LlmCost.PricesAsListed` | apps/api/src/evaluations/llm-cost.util.ts:19-59 | A million prompt tokens of each listed model cost its input price, and a million completion tokens its output price. |
| `LlmCost.CoversThePrice` | apps/api/src/evaluations/llm-cost.util.ts:54-58 | The cents of a call are the least whole number that covers its exact price. |
| `LlmCost.CostMonotone` | apps/api/src/evaluations/llm-cost.util.ts:42-59 | More tokens never cost less. |
| `LlmCost.CostNeverUnderBills` | apps/api/src/evaluations/llm-cost.util.ts:57-58 | cost(a+b) <= cost(a) + cost(b) <= cost(a+b) + 1. |
| `LlmCost.MonthIsTight` | apps/api/src/evaluations/eval-process.worker.ts:432-455 | A month of n calls is billed at least its exact cost and less than n cents more. |
| `LlmCost.ProviderIsIgnored` | apps/api/src/evaluations/llm-cost.util.ts:38-52 | The provider never matters; a self-hosted call costs 0 exactly when the model is empty or unlisted or no token was used. |

## Left out

- Split read and commit of a service method, duplicate jobs beyond what `SafeIffNoOverlap` covers, and crashes between the writes of an upload: the code does not defend against them.
- IEEE rounding, NaN and infinities: numbers are reals, and a zero scale and the text "Infinity" are excluded.
- Timestamps, feedback, flags, reasons of rejections and escalations, AI metadata, audit metadata and webhook deliveries: written, never read by the modelled operations.
- Sections and questions of a form are typed; unreadable JSON entries are taken as absent, so a corrupted form is one without a readable section or question.
- UploadBatch: the upsert of the conversations (`WorkflowStore.EvaluationStore.UpsertConversation`), the size and plan checks (which are in `Usage.UsageTable.Process`) and the counts of the reply are not part of it.
- BackfillPending: the published form of a channel is what the one lookup of that channel in the pass answered (the cache makes it one); that a lookup has one answer is `Forms.ActiveFormIsUnique`. RemapCorrupted: the same, for readable forms; that they are published is not in these tables.
- FormLifecycle: channels are not part of it; the rule of one published form per channel is in `Forms`.
- WorkflowStore.EvaluationStore.Write: sets every row of the evaluation, also the ones an operation leaves as they are; order and number of the SQL statements inside a transaction are not modelled.
- TurnsMakeRound: that the user list has no duplicates is a primary-key fact of the user table and is assumed.
- Object keys that JavaScript inherits from Object.prototype, and the order in which integer-like keys are listed.
- toLowerCase is modelled for ASCII letters, and how numbers print is a parameter.
- Line splitting, header lookup and per-column trim of the upload page, and line breaks inside fields.
- Logout, password reset, page reload and a second tab; the signature check of a token, which expires with its row; the fate of queued requests when a refresh fails (the queue is not flushed).
- The plan limit on the number of forms, form deletion, and errors of the insert other than the unique index.
- Usage writes are taken to succeed; the services ignore their failures.
- User administration, analytics SQL, billing, tenant provisioning, e-mail, blind-review aliases, guards and throttling, and the user interface.
