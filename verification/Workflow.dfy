/** One evaluation and everything the workflow keeps about it: what each
    service operation, worker step and sweeper pass does to it
    (evaluations.service.ts, eval-process.worker.ts, conversations.service.ts,
    webhooks.service.ts, stale-queue-escalation.service.ts). */
module Workflow {
  import opened Wrappers
  import opened Answers
  import opened Scoring
  import opened Review
  import opened AiOutput

  datatype State =
    | AiPending | AiInProgress | AiCompleted | AiFailed
    | QaPending | QaInProgress | QaCompleted
    | VerifierPending | VerifierInProgress | VerifierCompleted
    | Locked | Escalated

  datatype QueueType = QaQueue | VerifierQueue | EscalationQueue | AuditQueue

  datatype QueueRow = QueueRow(queueType: QueueType, assignedTo: Option<string>, priority: int, createdAt: int,
                               dueBy: Option<int>)

  datatype ConvStatus = Pending | Evaluating | QaReview | VerifierReview | Completed | Failed

  datatype AuditStatus = Open | Resolved | Dismissed

  datatype AuditCase = AuditCase(status: AuditStatus, deviation: real, threshold: real)

  /** A response layer as it is stored. */
  datatype Layer = Layer(answers: map<string, Answer>, sectionScores: map<string, real>, overallScore: real,
                         passFail: bool)

  function LayerOf(r: ScoreResult): Layer {
    Layer(r.answers, r.sectionScores, r.overallScore, r.passFail)
  }

  datatype FormContent = FormContent(sections: seq<Section>, questions: seq<Question>, strategy: Strategy)

  type Form = f: FormContent | f.strategy.Valid()
    witness FormContent([], [], Strategy(None, None, Round))

  function ScoreOn(form: Form, answers: map<string, Answer>): ScoreResult {
    Score(answers, form.questions, form.sections, form.strategy)
  }

  datatype Evaluation = Evaluation(
    formId: string,
    formVersion: int,
    state: State,
    aiLayer: Option<Layer>,
    aiScore: Option<real>,
    confidenceScore: Option<real>,
    qaLayer: Option<Layer>,
    qaScore: Option<real>,
    verifierLayer: Option<Layer>,
    verifierScore: Option<real>,
    finalLayer: Option<Layer>,
    finalScore: Option<real>,
    passFail: Option<bool>,
    qaUser: Option<string>,
    verifierUser: Option<string>,
    isEscalated: bool)

  /** A queued or retryable worker job, with the attempts it has left. */
  datatype Job = Job(attempts: nat, formId: string)

  datatype AuditAction =
    | QaStarted | QaSubmitted | VerifierStarted | VerifierApproved | VerifierModified | VerifierRejected
    | AiRetryRequested | AuditCaseClosed(dismissed: bool) | ManuallyAssigned | Reassigned | StaleEscalation

  /** The evaluation row with its one-to-one rows and its own audit entries. */
  datatype Case = Case(
    ev: Evaluation,
    row: Option<QueueRow>,
    conv: ConvStatus,
    audit: Option<AuditCase>,
    jobs: seq<Job>,
    log: seq<AuditAction>)

  datatype Role = Admin | Qa | Verifier

  datatype Error =
    | NotFound | InvalidState | AlreadySubmitted | NotClaimedByYou | MissingOverrideReason(key: string)
    | QueueUnavailable | EnqueueFailed | InvalidTargetUser | InvalidAssignment | NotInProgress
    | InvalidQueueType | NoEligibleUsers | AuditCaseNotFound | AuditCaseAlreadyClosed

  function NewRow(queueType: QueueType, assignedTo: Option<string>, priority: int, now: int): QueueRow {
    QueueRow(queueType, assignedTo, priority, now, None)
  }

  /** The three shapes of workflowQueue.upsert; an existing row keeps what the
      update leaves out. First: into a queue, unassigned. */
  function Moved(row: Option<QueueRow>, queueType: QueueType, priority: int, now: int): Option<QueueRow> {
    match row
    case None => Some(NewRow(queueType, None, priority, now))
    case Some(r) => Some(r.(queueType := queueType, assignedTo := None, priority := priority))
  }

  /** Second: claimed by a user, who takes it into the given queue. */
  function Claimed(row: Option<QueueRow>, queueType: QueueType, user: string, now: int): Option<QueueRow> {
    match row
    case None => Some(NewRow(queueType, Some(user), 5, now))
    case Some(r) => Some(r.(queueType := queueType, assignedTo := Some(user)))
  }

  /** Third: assigned by an administrator, in whichever queue it is. */
  function Assigned(row: Option<QueueRow>, queueType: QueueType, user: string, now: int): Option<QueueRow> {
    match row
    case None => Some(NewRow(queueType, Some(user), 5, now))
    case Some(r) => Some(r.(assignedTo := Some(user)))
  }

  // ---------------------------------------------------------------------
  // Creation

  function Fresh(formId: string, version: int, state: State): Evaluation {
    Evaluation(formId, version, state, None, None, None, None, None, None, None, None, None, None, None, None, false)
  }

  function NewJobs(formId: string, enqueued: bool): seq<Job> {
    if enqueued then [Job(3, formId)] else []
  }

  /** Upload: with the model enabled the conversation is marked as being
      evaluated whenever there is a queue, even if the enqueue then fails. */
  function Uploaded(formId: string, version: int, llmEnabled: bool, queueUp: bool, enqueued: bool, now: int): Case {
    if !llmEnabled then Case(Fresh(formId, version, QaPending), Moved(None, QaQueue, 5, now), QaReview, None, [], [])
    else if queueUp then Case(Fresh(formId, version, AiPending), None, Evaluating, None, NewJobs(formId, enqueued), [])
    else Case(Fresh(formId, version, AiPending), None, Pending, None, [], [])
  }

  /** Webhook ingestion never looks at the model configuration. */
  function Ingested(formId: string, version: int, enqueued: bool): Case {
    Case(Fresh(formId, version, AiPending), None, Pending, None, NewJobs(formId, enqueued), [])
  }

  /** Backfill leaves the conversation PENDING while the job is queued. */
  function Backfilled(formId: string, version: int, llmEnabled: bool, enqueued: bool, now: int): Case {
    if llmEnabled then Ingested(formId, version, enqueued)
    else Case(Fresh(formId, version, QaPending), Moved(None, QaQueue, 5, now), QaReview, None, [], [])
  }

  /** Backfill of an evaluation stuck in AI_PENDING; any other is skipped. */
  function Unstick(c: Case, llmEnabled: bool, now: int): Case {
    if c.conv == Pending && c.ev.state == AiPending && !llmEnabled
    then c.(ev := c.ev.(state := QaPending), row := Moved(c.row, QaQueue, 5, now), conv := QaReview)
    else c
  }

  // ---------------------------------------------------------------------
  // The AI worker

  function FinishJob(jobs: seq<Job>, j: nat): seq<Job>
    requires j < |jobs|
  {
    jobs[..j] + jobs[j + 1..]
  }

  /** A failed attempt; the job goes away with its last one. */
  function FailJob(jobs: seq<Job>, j: nat): seq<Job>
    requires j < |jobs|
  {
    if jobs[j].attempts <= 1 then FinishJob(jobs, j)
    else jobs[j := jobs[j].(attempts := jobs[j].attempts - 1)]
  }

  /** No model configured, or switched off: straight to QA. */
  function SkipAi(c: Case, j: nat, now: int): Case
    requires j < |c.jobs|
  {
    c.(ev := c.ev.(state := QaPending), row := Moved(c.row, QaQueue, 5, now), conv := QaReview,
       jobs := FinishJob(c.jobs, j))
  }

  function BeginAi(c: Case): Case {
    c.(ev := c.ev.(state := AiInProgress), conv := Evaluating)
  }

  /** What a reply is scored to; None when it is not accepted, or when the
      call, its failover or the JSON parsing threw. */
  function AiScored(form: Form, reply: Option<seq<RawAnswer>>): Option<ScoreResult> {
    if reply.Some? && ValidReply(reply.value, form.questions) then Some(ScoreOn(form, AnswersOf(reply.value))) else None
  }

  /** The evaluation and its queue row at the end of an attempt. */
  function AiEvaluation(ev: Evaluation, scored: Option<ScoreResult>, confidence: Option<real>): Evaluation {
    match scored
    case None => ev.(state := AiFailed)
    case Some(result) =>
      ev.(state := QaPending, aiLayer := Some(LayerOf(result)), aiScore := Some(result.overallScore),
          confidenceScore := confidence)
  }

  function AiRow(row: Option<QueueRow>, scored: Option<ScoreResult>, priority: int, now: int): Option<QueueRow> {
    if scored.Some? then Moved(row, QaQueue, priority, now) else row
  }

  function EndAi(c: Case, j: nat, form: Form, reply: Option<seq<RawAnswer>>, now: int): Case
    requires j < |c.jobs|
  {
    var scored, raw := AiScored(form, reply), reply.GetOr([]);
    c.(ev := AiEvaluation(c.ev, scored, LeastConfidence(raw)), row := AiRow(c.row, scored, QueuePriority(raw), now),
       conv := if scored.Some? then QaReview else Failed,
       jobs := if scored.Some? then FinishJob(c.jobs, j) else FailJob(c.jobs, j))
  }

  /** An attempt that dies before its first write. */
  function CrashAi(c: Case, j: nat): Case
    requires j < |c.jobs|
  {
    c.(jobs := FailJob(c.jobs, j))
  }

  // ---------------------------------------------------------------------
  // QA and verifier operations

  function QaStart(c: Case, user: string, now: int): Result<Case, Error> {
    if c.ev.state != QaPending then Failure(InvalidState)
    else Success(c.(ev := c.ev.(state := QaInProgress, qaUser := Some(user)),
                    row := Claimed(c.row, QaQueue, user, now), log := c.log + [QaStarted]))
  }

  function AnswersIn(layer: Option<Layer>): map<string, Answer> {
    if layer.Some? then layer.value.answers else map[]
  }

  function ScoreGap(score: real, lower: Option<real>): real {
    if lower.Some? then Distance(score, lower.value) else 0.0
  }

  function FirstLackingReason(aiAnswers: map<string, Answer>, adjusted: seq<Adjustment>): (key: Option<string>)
    ensures key.None? <==> forall a :: a in adjusted ==> !LacksReason(aiAnswers, a)
  {
    if adjusted == [] then None
    else if LacksReason(aiAnswers, adjusted[0]) then Some(adjusted[0].key)
    else FirstLackingReason(aiAnswers, adjusted[1..])
  }

  lemma FirstLackingIs(aiAnswers: map<string, Answer>, adjusted: seq<Adjustment>, i: nat)
    requires i < |adjusted| && LacksReason(aiAnswers, adjusted[i])
    requires forall j :: 0 <= j < i ==> !LacksReason(aiAnswers, adjusted[j])
    ensures FirstLackingReason(aiAnswers, adjusted) == Some(adjusted[i].key)
  {
    if i > 0 { FirstLackingIs(aiAnswers, adjusted[1..], i - 1); }
  }

  /** What a QA submission is scored to, or why it is refused. */
  function QaScored(ev: Evaluation, form: Form, user: string, adjusted: seq<Adjustment>): Result<ScoreResult, Error> {
    var aiAnswers := AnswersIn(ev.aiLayer);
    if ev.state != QaInProgress then Failure(AlreadySubmitted)
    else if ev.qaUser != Some(user) then Failure(NotClaimedByYou)
    else if FirstLackingReason(aiAnswers, adjusted).Some? then
      Failure(MissingOverrideReason(FirstLackingReason(aiAnswers, adjusted).value))
    else Success(ScoreOn(form, Overlay(aiAnswers, adjusted)))
  }

  /** A submission escalates above the threshold, not at it. */
  predicate Escalates(gap: real, threshold: Option<real>) {
    gap > threshold.GetOr(15.0)
  }

  /** The evaluation and its queue row after a submission. */
  function SubmittedEvaluation(ev: Evaluation, result: ScoreResult, escalate: bool): Evaluation {
    ev.(state := QaCompleted, qaLayer := Some(LayerOf(result)), qaScore := Some(result.overallScore),
        isEscalated := escalate || ev.isEscalated)
  }

  function SubmittedRow(row: Option<QueueRow>, escalate: bool, now: int): Option<QueueRow> {
    if escalate then Moved(row, EscalationQueue, 1, now) else Moved(row, VerifierQueue, 5, now)
  }

  function QaSubmit(c: Case, form: Form, user: string, adjusted: seq<Adjustment>, threshold: Option<real>, now: int)
    : Result<Case, Error>
  {
    match QaScored(c.ev, form, user, adjusted)
    case Failure(e) => Failure(e)
    case Success(result) =>
      var escalate := Escalates(ScoreGap(result.overallScore, c.ev.aiScore), threshold);
      Success(c.(ev := SubmittedEvaluation(c.ev, result, escalate), row := SubmittedRow(c.row, escalate, now),
                 log := c.log + [QaSubmitted]))
  }

  function VerifierStart(c: Case, user: string, now: int): Result<Case, Error> {
    if c.ev.state !in {VerifierPending, QaCompleted} then Failure(InvalidState)
    else Success(c.(ev := c.ev.(state := VerifierInProgress, verifierUser := Some(user)),
                    row := Claimed(c.row, VerifierQueue, user, now), log := c.log + [VerifierStarted]))
  }

  /** The score an approval makes final: the stored QA score, or failing that
      the one inside the QA layer. */
  function ApprovedScore(ev: Evaluation): Option<real> {
    if ev.qaScore.Some? then ev.qaScore
    else if ev.qaLayer.Some? then Some(ev.qaLayer.value.overallScore)
    else None
  }

  function VerifierApprove(c: Case, form: Form, user: string): Result<Case, Error> {
    if c.ev.state != VerifierInProgress then Failure(InvalidState)
    else if c.ev.verifierUser != Some(user) then Failure(NotClaimedByYou)
    else
      var finalScore := ApprovedScore(c.ev);
      var passFail := finalScore.Some? && finalScore.value >= form.strategy.PassMark();
      var layer :=
        if c.ev.qaLayer.None? then None
        else Some(c.ev.qaLayer.value.(overallScore := finalScore.GetOr(c.ev.qaLayer.value.overallScore),
                                      passFail := passFail));
      Success(c.(ev := c.ev.(state := Locked, verifierLayer := layer, finalLayer := layer, verifierScore := finalScore,
                             finalScore := finalScore, passFail := Some(passFail)),
                 row := None, conv := Completed, log := c.log + [VerifierApproved]))
  }

  function FirstWithoutReason(modified: seq<Adjustment>): (key: Option<string>)
    ensures key.None? <==> forall a :: a in modified ==> HasReason(a.overrideReason)
  {
    if modified == [] then None
    else if !HasReason(modified[0].overrideReason) then Some(modified[0].key)
    else FirstWithoutReason(modified[1..])
  }

  lemma FirstWithoutIs(modified: seq<Adjustment>, i: nat)
    requires i < |modified| && !HasReason(modified[i].overrideReason)
    requires forall j :: 0 <= j < i ==> HasReason(modified[j].overrideReason)
    ensures FirstWithoutReason(modified) == Some(modified[i].key)
  {
    if i > 0 { FirstWithoutIs(modified[1..], i - 1); }
  }

  function VerifierScored(ev: Evaluation, form: Form, user: string, modified: seq<Adjustment>)
    : Result<ScoreResult, Error> {
    if ev.state != VerifierInProgress then Failure(InvalidState)
    else if ev.verifierUser != Some(user) then Failure(NotClaimedByYou)
    else if FirstWithoutReason(modified).Some? then Failure(MissingOverrideReason(FirstWithoutReason(modified).value))
    else Success(ScoreOn(form, Overlay(AnswersIn(ev.qaLayer), modified)))
  }

  /** A modification opens an audit case at the threshold already. */
  predicate OpensAudit(gap: real, threshold: Option<real>) {
    gap >= threshold.GetOr(10.0)
  }

  /** The evaluation, its audit case and its queue row after a modification. */
  function ModifiedEvaluation(ev: Evaluation, result: ScoreResult): Evaluation {
    var layer, score := Some(LayerOf(result)), Some(result.overallScore);
    ev.(state := Locked, verifierLayer := layer, finalLayer := layer, verifierScore := score, finalScore := score,
        passFail := Some(result.passFail))
  }

  function ModifiedAudit(audit: Option<AuditCase>, gap: real, threshold: Option<real>): Option<AuditCase> {
    if OpensAudit(gap, threshold) then Some(AuditCase(Open, gap, threshold.GetOr(10.0))) else audit
  }

  function ModifiedRow(row: Option<QueueRow>, gap: real, threshold: Option<real>, now: int): Option<QueueRow> {
    if OpensAudit(gap, threshold) then Moved(row, AuditQueue, 1, now) else None
  }

  function VerifierModify(c: Case, form: Form, user: string, modified: seq<Adjustment>, threshold: Option<real>,
                          now: int)
    : Result<Case, Error>
  {
    match VerifierScored(c.ev, form, user, modified)
    case Failure(e) => Failure(e)
    case Success(result) =>
      var gap := ScoreGap(result.overallScore, c.ev.qaScore);
      Success(c.(ev := ModifiedEvaluation(c.ev, result), audit := ModifiedAudit(c.audit, gap, threshold),
                 row := ModifiedRow(c.row, gap, threshold, now), conv := Completed, log := c.log + [VerifierModified]))
  }

  /** Any verifier may reject, whoever claimed the evaluation. */
  function VerifierReject(c: Case): Result<Case, Error> {
    if c.ev.state != VerifierInProgress then Failure(InvalidState)
    else Success(c.(ev := c.ev.(state := QaPending, verifierUser := None),
                    row := if c.row.None? then None else Some(c.row.value.(queueType := QaQueue, assignedTo := None)),
                    log := c.log + [VerifierRejected]))
  }

  function RetryAiFailed(c: Case, queueUp: bool, enqueued: bool): Result<Case, Error> {
    if !queueUp then Failure(QueueUnavailable)
    else if c.ev.state != AiFailed then Failure(InvalidState)
    else Success(c.(ev := c.ev.(state := AiPending, isEscalated := false), conv := Pending, row := None,
                    jobs := c.jobs + NewJobs(c.ev.formId, enqueued), log := c.log + [AiRetryRequested]))
  }

  function ResolveAuditCase(c: Case, dismiss: bool): Result<Case, Error> {
    if c.audit.None? then Failure(AuditCaseNotFound)
    else if c.audit.value.status != Open then Failure(AuditCaseAlreadyClosed)
    else Success(c.(audit := Some(c.audit.value.(status := if dismiss then Dismissed else Resolved)),
                    row := if c.row.Some? && c.row.value.queueType == AuditQueue then None else c.row,
                    log := c.log + [AuditCaseClosed(dismiss)]))
  }

  // ---------------------------------------------------------------------
  // Assignment by an administrator

  predicate AssignableToQa(c: Case, role: Role) {
    role in {Qa, Admin} && c.ev.state in {QaPending, QaInProgress}
  }

  predicate AssignableToVerifier(c: Case, role: Role) {
    role in {Verifier, Admin} && c.ev.state in {QaCompleted, VerifierPending, VerifierInProgress}
  }

  /** role is None when the target is not an active user of the tenant. */
  function ManualAssign(c: Case, user: string, role: Option<Role>, now: int): Result<Case, Error> {
    if role.None? then Failure(InvalidTargetUser)
    else if AssignableToQa(c, role.value) then
      Success(c.(ev := c.ev.(state := QaInProgress, qaUser := Some(user)),
                 row := Assigned(c.row, QaQueue, user, now), log := c.log + [ManuallyAssigned]))
    else if AssignableToVerifier(c, role.value) then
      Success(c.(ev := c.ev.(state := VerifierInProgress, verifierUser := Some(user)),
                 row := Assigned(c.row, VerifierQueue, user, now), log := c.log + [ManuallyAssigned]))
    else Failure(InvalidAssignment)
  }

  /** What round-robin assignment selects: the queue row alone decides. */
  predicate Unassigned(row: Option<QueueRow>, queueType: QueueType) {
    row.Some? && row.value.queueType == queueType && row.value.assignedTo == None
  }

  /** What round-robin assignment writes: the new state comes from the queue
      type, and the old state is not looked at. */
  function TakenOver(ev: Evaluation, queueType: QueueType, user: string): Evaluation {
    if queueType == QaQueue then ev.(state := QaInProgress, qaUser := Some(user))
    else ev.(state := VerifierInProgress, verifierUser := Some(user))
  }

  function RoundRobinAssign(c: Case, queueType: QueueType, user: string): Case {
    if !Unassigned(c.row, queueType) then c
    else c.(row := Some(c.row.value.(assignedTo := Some(user))), ev := TakenOver(c.ev, queueType, user))
  }

  function Reassign(c: Case, user: string, active: bool): Result<Case, Error> {
    if !active then Failure(InvalidTargetUser)
    else if c.ev.state !in {QaInProgress, VerifierInProgress} then Failure(NotInProgress)
    else Success(c.(ev := if c.ev.state == QaInProgress then c.ev.(qaUser := Some(user))
                    else c.ev.(verifierUser := Some(user)),
                    row := if c.row.None? then None else Some(c.row.value.(assignedTo := Some(user))),
                    log := c.log + [Reassigned]))
  }

  // ---------------------------------------------------------------------
  // The stale-queue sweeper and the form remap

  /** Milliseconds throughout. */
  predicate IsStale(r: QueueRow, now: int, staleHours: int) {
    && r.queueType in {QaQueue, VerifierQueue}
    && (match r.dueBy case Some(d) => d < now case None => r.createdAt < now - staleHours * 3600 * 1000)
  }

  function Sweep(c: Case, now: int, staleHours: Option<int>): Case {
    if c.row.Some? && IsStale(c.row.value, now, staleHours.GetOr(24)) && !c.ev.isEscalated
    then c.(row := Some(c.row.value.(queueType := EscalationQueue, priority := 1)),
            ev := c.ev.(isEscalated := true), log := c.log + [StaleEscalation])
    else c
  }

  /** A form none of whose sections, or none of whose questions, is readable. */
  predicate Corrupted(form: Form) {
    form.sections == [] || form.questions == []
  }

  /** replacement is the readable published form of the channel, if any. */
  function Remap(c: Case, form: Form, replacement: Option<(string, int)>): Case {
    if c.ev.state == QaPending && Corrupted(form) && replacement.Some?
      && replacement.value != (c.ev.formId, c.ev.formVersion)
    then c.(ev := c.ev.(formId := replacement.value.0, formVersion := replacement.value.1))
    else c
  }
}
