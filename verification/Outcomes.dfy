/** What each event leaves behind, said from its input alone: which answers a
    layer then holds, what it scores, where the evaluation waits and for whom.
    The service functions are compared with this table as a whole. */
module Outcomes {
  import opened Wrappers
  import opened Answers
  import opened Scoring
  import opened Review
  import opened AiOutput
  import opened Workflow
  import opened WorkflowRuns

  // ---------------------------------------------------------------------
  // Layers

  /** The scores of a layer are those of its answers. */
  predicate HoldsScore(layer: Layer, form: Form) {
    var r := Score(layer.answers, form.questions, form.sections, form.strategy);
    layer.sectionScores == r.sectionScores && layer.overallScore == r.overallScore && layer.passFail == r.passFail
  }

  function Stored(layer: Option<Layer>): map<string, Answer> {
    match layer case None => map[] case Some(l) => l.answers
  }

  /** Every submitted answer is there with its reason, and every answer that
      was not submitted is the one below. */
  ghost predicate LaidOver(base: map<string, Answer>, adjusted: seq<Adjustment>, answers: map<string, Answer>) {
    && (forall k :: k in answers <==> k in base || exists a :: a in adjusted && a.key == k)
    && (forall a :: a in adjusted ==> answers[a.key] == Answer(a.value, None, None, a.overrideReason))
    && (forall k :: k in base && (forall a :: a in adjusted ==> a.key != k) ==> answers[k] == base[k])
  }

  lemma OverlayLaysOver(base: map<string, Answer>, adjusted: seq<Adjustment>)
    requires DistinctKeys(adjusted)
    ensures LaidOver(base, adjusted, Overlay(base, adjusted))
  {
    OverlayExact(base, adjusted);
  }

  predicate Explains(a: Adjustment) {
    a.overrideReason.Some? && a.overrideReason.value != ""
  }

  /** The same number, text, truth value or null; an array or object never is
      the same as another. */
  predicate Same(u: Value, v: Value) {
    u == v && !u.Opaque?
  }

  predicate Unexplained(base: map<string, Answer>, a: Adjustment) {
    a.key in base && !Same(a.value, base[a.key].value) && !Explains(a)
  }

  /** Further than the limit from each other. */
  predicate Apart(x: real, y: real, limit: real) {
    x - y > limit || y - x > limit
  }

  /** In a queue, for anyone; when it came there and is due stays as it was. */
  predicate Waits(before: Option<QueueRow>, after: Option<QueueRow>, queueType: QueueType, priority: int, now: int) {
    match before
    case None => after == Some(QueueRow(queueType, None, priority, now, None))
    case Some(r) => after == Some(QueueRow(queueType, None, priority, r.createdAt, r.dueBy))
  }

  // ---------------------------------------------------------------------
  // A QA submission

  predicate MaySubmit(c: Case, user: string, adjusted: seq<Adjustment>) {
    && c.ev.state == QaInProgress && c.ev.qaUser == Some(user)
    && forall i :: 0 <= i < |adjusted| ==> !Unexplained(Stored(c.ev.aiLayer), adjusted[i])
  }

  ghost predicate Submission(c: Case, d: Case, form: Form, adjusted: seq<Adjustment>, threshold: Option<real>,
                             now: int) {
    && d.ev.qaLayer.Some?
    && var layer := d.ev.qaLayer.value;
       var limit := if threshold.Some? then threshold.value else 15.0;
       var far := match c.ev.aiScore case None => limit < 0.0 case Some(s) => Apart(layer.overallScore, s, limit);
    && LaidOver(Stored(c.ev.aiLayer), adjusted, layer.answers) && HoldsScore(layer, form)
    && d.ev == c.ev.(state := QaCompleted, qaLayer := d.ev.qaLayer, qaScore := Some(layer.overallScore),
                     isEscalated := far || c.ev.isEscalated)
    && Waits(c.row, d.row, if far then EscalationQueue else VerifierQueue, if far then 1 else 5, now)
    && d == c.(ev := d.ev, row := d.row, log := c.log + [QaSubmitted])
  }

  lemma SubmissionWrites(c: Case, d: Case, form: Form, adjusted: seq<Adjustment>, threshold: Option<real>, now: int,
                         result: ScoreResult)
    requires LaidOver(Stored(c.ev.aiLayer), adjusted, result.answers) && HoldsScore(LayerOf(result), form)
    requires var escalate := Escalates(ScoreGap(result.overallScore, c.ev.aiScore), threshold);
             d == c.(ev := SubmittedEvaluation(c.ev, result, escalate), row := SubmittedRow(c.row, escalate, now),
                     log := c.log + [QaSubmitted])
    ensures Submission(c, d, form, adjusted, threshold, now)
  {
  }

  lemma SubmissionOutcome(c: Case, form: Form, user: string, adjusted: seq<Adjustment>, threshold: Option<real>,
                          now: int)
    requires DistinctKeys(adjusted)
    ensures var r := QaSubmit(c, form, user, adjusted, threshold, now);
            && (r.Success? <==> MaySubmit(c, user, adjusted))
            && (r.Success? ==> Submission(c, r.value, form, adjusted, threshold, now))
  {
    var base, r := Stored(c.ev.aiLayer), QaSubmit(c, form, user, adjusted, threshold, now);
    OverlayLaysOver(base, adjusted);
    assert forall a :: a in adjusted ==> (Unexplained(base, a) <==> LacksReason(base, a));
    if r.Success? {
      SubmissionWrites(c, r.value, form, adjusted, threshold, now, ScoreOn(form, Overlay(base, adjusted)));
    }
  }

  /** Which refusal is answered: the state first, then the owner, then the
      first answer changed without a reason. */
  lemma SubmissionRefusal(c: Case, form: Form, user: string, adjusted: seq<Adjustment>, threshold: Option<real>,
                          now: int, i: nat)
    ensures var r := QaSubmit(c, form, user, adjusted, threshold, now);
            && (c.ev.state != QaInProgress ==> r == Failure(AlreadySubmitted))
            && (c.ev.state == QaInProgress && c.ev.qaUser != Some(user) ==> r == Failure(NotClaimedByYou))
            && (c.ev.state == QaInProgress && c.ev.qaUser == Some(user)
                && i < |adjusted| && Unexplained(Stored(c.ev.aiLayer), adjusted[i])
                && (forall j :: 0 <= j < i ==> !Unexplained(Stored(c.ev.aiLayer), adjusted[j]))
                ==> r == Failure(MissingOverrideReason(adjusted[i].key)))
  {
    var base := Stored(c.ev.aiLayer);
    if i < |adjusted| && Unexplained(base, adjusted[i]) && forall j :: 0 <= j < i ==> !Unexplained(base, adjusted[j]) {
      forall j | 0 <= j < i ensures !LacksReason(base, adjusted[j]) {
        assert !Unexplained(base, adjusted[j]);
      }
      FirstLackingIs(base, adjusted, i);
    }
  }

  // ---------------------------------------------------------------------
  // A verifier's modification

  predicate MayModify(c: Case, user: string, modified: seq<Adjustment>) {
    && c.ev.state == VerifierInProgress && c.ev.verifierUser == Some(user)
    && forall i :: 0 <= i < |modified| ==> Explains(modified[i])
  }

  /** An audit case is opened from the limit on, not above it only. */
  ghost predicate Modification(c: Case, d: Case, form: Form, modified: seq<Adjustment>, threshold: Option<real>,
                               now: int) {
    && d.ev.finalLayer.Some? && c.ev.qaScore.Some?
    && var layer := d.ev.finalLayer.value;
       var x, y := layer.overallScore, c.ev.qaScore.value;
       var limit := if threshold.Some? then threshold.value else 10.0;
    && LaidOver(Stored(c.ev.qaLayer), modified, layer.answers) && HoldsScore(layer, form)
    && d.ev == c.ev.(state := Locked, finalLayer := d.ev.finalLayer, verifierLayer := d.ev.finalLayer,
                     finalScore := Some(x), verifierScore := Some(x), passFail := Some(layer.passFail))
    && (if x - y >= limit || y - x >= limit
        then d.audit == Some(AuditCase(Open, if x >= y then x - y else y - x, limit))
             && Waits(c.row, d.row, AuditQueue, 1, now)
        else d.audit == None && d.row == None)
    && d == c.(ev := d.ev, row := d.row, conv := Completed, audit := d.audit, log := c.log + [VerifierModified])
  }

  lemma ModificationWrites(c: Case, d: Case, form: Form, modified: seq<Adjustment>, threshold: Option<real>, now: int,
                           result: ScoreResult)
    requires LaidOver(Stored(c.ev.qaLayer), modified, result.answers) && HoldsScore(LayerOf(result), form)
    requires c.ev.qaScore.Some? && c.audit.None?
    requires var gap := ScoreGap(result.overallScore, c.ev.qaScore);
             d == c.(ev := ModifiedEvaluation(c.ev, result), audit := ModifiedAudit(c.audit, gap, threshold),
                     row := ModifiedRow(c.row, gap, threshold, now), conv := Completed,
                     log := c.log + [VerifierModified])
    ensures Modification(c, d, form, modified, threshold, now)
  {
  }

  lemma ModificationOutcome(forms: map<string, Form>, c: Case, user: string, modified: seq<Adjustment>,
                            threshold: Option<real>, now: int)
    requires CaseInv(forms, c) && DistinctKeys(modified)
    ensures var r := VerifierModify(c, forms[c.ev.formId], user, modified, threshold, now);
            && (r.Success? <==> MayModify(c, user, modified))
            && (r.Success? ==> Modification(c, r.value, forms[c.ev.formId], modified, threshold, now))
  {
    var base, form := Stored(c.ev.qaLayer), forms[c.ev.formId];
    var r := VerifierModify(c, form, user, modified, threshold, now);
    OverlayLaysOver(base, modified);
    assert forall a :: a in modified ==> (Explains(a) <==> HasReason(a.overrideReason));
    if r.Success? {
      ModificationWrites(c, r.value, form, modified, threshold, now, ScoreOn(form, Overlay(base, modified)));
    }
  }

  lemma ModificationRefusal(c: Case, form: Form, user: string, modified: seq<Adjustment>, threshold: Option<real>,
                            now: int, i: nat)
    ensures var r := VerifierModify(c, form, user, modified, threshold, now);
            && (c.ev.state != VerifierInProgress ==> r == Failure(InvalidState))
            && (c.ev.state == VerifierInProgress && c.ev.verifierUser != Some(user) ==> r == Failure(NotClaimedByYou))
            && (c.ev.state == VerifierInProgress && c.ev.verifierUser == Some(user)
                && i < |modified| && !Explains(modified[i]) && (forall j :: 0 <= j < i ==> Explains(modified[j]))
                ==> r == Failure(MissingOverrideReason(modified[i].key)))
  {
    if i < |modified| && !Explains(modified[i]) && forall j :: 0 <= j < i ==> Explains(modified[j]) {
      FirstWithoutIs(modified, i);
    }
  }

  // ---------------------------------------------------------------------
  // The end of an AI attempt

  ghost predicate DistinctReply(raw: seq<RawAnswer>) {
    forall i, j :: 0 <= i < j < |raw| ==> raw[i].key != raw[j].key
  }

  /** An entry as the model is told to write it. */
  predicate WellFormed(e: RawAnswer) {
    && e.isObject && e.value.Some?
    && (e.reasoning.Some? ==> e.reasoning.value.Text?)
    && (e.confidence.Some? ==> e.confidence.value.Num? && 0.0 <= e.confidence.value.n <= 1.0)
  }

  ghost predicate AnswersAsked(raw: seq<RawAnswer>, questions: seq<Question>) {
    forall e :: e in raw ==> WellFormed(e) && exists q :: q in questions && q.key == e.key
  }

  ghost predicate AnswersAll(raw: seq<RawAnswer>, questions: seq<Question>) {
    forall q :: q in questions ==> exists e :: e in raw && e.key == q.key
  }

  ghost predicate Accepted(raw: seq<RawAnswer>, questions: seq<Question>) {
    AnswersAsked(raw, questions) && AnswersAll(raw, questions)
  }

  lemma EntryFine(questions: seq<Question>, e: RawAnswer)
    ensures EntryError(QuestionKeys(questions), e).None? <==>
              WellFormed(e) && exists q :: q in questions && q.key == e.key
  {
  }

  lemma AskedIff(raw: seq<RawAnswer>, questions: seq<Question>)
    ensures AnswersAsked(raw, questions) <==> forall e :: e in raw ==> EntryError(QuestionKeys(questions), e).None?
  {
    forall e | e in raw
      ensures EntryError(QuestionKeys(questions), e).None? <==>
                WellFormed(e) && exists q :: q in questions && q.key == e.key
    {
      EntryFine(questions, e);
    }
  }

  lemma AllIff(raw: seq<RawAnswer>, questions: seq<Question>)
    ensures AnswersAll(raw, questions) <==> QuestionKeys(questions) <= ReplyKeys(raw)
  {
    forall q | q in questions ensures q.key in ReplyKeys(raw) <==> exists e :: e in raw && e.key == q.key {
    }
    forall k | k in QuestionKeys(questions) ensures exists q :: q in questions && q.key == k {
    }
  }

  lemma AcceptedIff(raw: seq<RawAnswer>, questions: seq<Question>)
    ensures Accepted(raw, questions) <==> ValidReply(raw, questions)
  {
    AskedIff(raw, questions);
    AllIff(raw, questions);
  }

  /** What an entry says, as an answer. */
  function Said(e: RawAnswer): Answer
    requires WellFormed(e)
  {
    Answer(e.value.value,
           if e.reasoning.Some? then Some(e.reasoning.value.s) else None,
           if e.confidence.Some? then Some(e.confidence.value.n) else None,
           None)
  }

  lemma {:induction false} CollectedAnswers(raw: seq<RawAnswer>)
    requires DistinctReply(raw) && forall e :: e in raw ==> WellFormed(e)
    ensures forall e :: e in raw ==> e.key in AnswersOf(raw) && AnswersOf(raw)[e.key] == Said(e)
    ensures forall k :: k in AnswersOf(raw) <==> exists e :: e in raw && e.key == k
  {
    AnswerKeys(raw);
    if raw != [] {
      var front, last := raw[..|raw| - 1], raw[|raw| - 1];
      assert raw == front + [last];
      CollectedAnswers(front);
    }
  }

  predicate States(e: RawAnswer, confidence: real) {
    e.confidence == Some(Num(confidence))
  }

  /** The confidence kept with the answers is the least that is stated. */
  ghost predicate LeastStated(raw: seq<RawAnswer>, confidence: Option<real>) {
    match confidence
    case None => forall e :: e in raw ==> e.confidence.None?
    case Some(x) => (exists e :: e in raw && States(e, x))
                    && forall e, y :: e in raw && States(e, y) ==> x <= y
  }

  /** Reviewed first below 0.6, last from 0.9 on. */
  function PriorityFor(confidence: Option<real>): int {
    match confidence
    case None => 5
    case Some(x) => if x < 0.6 then 1 else if x >= 0.9 then 6 else 5
  }

  lemma StatedLeast(raw: seq<RawAnswer>)
    requires forall e :: e in raw ==> WellFormed(e)
    ensures LeastStated(raw, LeastConfidence(raw)) && QueuePriority(raw) == PriorityFor(LeastConfidence(raw))
  {
    LeastIsLower(raw);
    var least := LeastConfidence(raw);
    forall e | e in raw ensures WellFormed(e) && (e.confidence.Some? <==> RawNumber(e.confidence).Some?) {
    }
    if least.Some? {
      var e :| e in raw && RawNumber(e.confidence).Some?
        && least.value == Clamp(RawNumber(e.confidence).value, 0.0, 1.0);
      assert States(e, least.value);
    }
  }

  /** The layer holds what the reply says, question by question. */
  ghost predicate Holds(layer: Layer, form: Form, raw: seq<RawAnswer>) {
    && (forall k :: k in layer.answers <==> exists q :: q in form.questions && q.key == k)
    && (forall e :: e in raw ==> WellFormed(e) && e.key in layer.answers && layer.answers[e.key] == Said(e))
    && HoldsScore(layer, form)
  }

  ghost predicate Answered(c: Case, d: Case, form: Form, raw: seq<RawAnswer>, now: int) {
    && d.ev.aiLayer.Some? && Holds(d.ev.aiLayer.value, form, raw) && LeastStated(raw, d.ev.confidenceScore)
    && d.ev == c.ev.(state := QaPending, aiLayer := d.ev.aiLayer, aiScore := Some(d.ev.aiLayer.value.overallScore),
                     confidenceScore := d.ev.confidenceScore)
    && Waits(c.row, d.row, QaQueue, PriorityFor(d.ev.confidenceScore), now)
  }

  /** The job has ended. */
  function Without(jobs: seq<Job>, j: nat): seq<Job>
    requires j < |jobs|
  {
    jobs[..j] + jobs[j + 1..]
  }

  /** The job has one attempt less, and ends with the last one. */
  predicate LessOne(before: seq<Job>, after: seq<Job>, j: nat)
    requires j < |before|
  {
    var job := before[j];
    after == if job.attempts > 1 then before[j := Job(job.attempts - 1, job.formId)] else Without(before, j)
  }

  ghost predicate Attempt(c: Case, d: Case, j: nat, form: Form, reply: Option<seq<RawAnswer>>, now: int)
    requires j < |c.jobs|
  {
    if reply.Some? && Accepted(reply.value, form.questions) then
      && Answered(c, d, form, reply.value, now)
      && d == c.(ev := d.ev, row := d.row, conv := QaReview, jobs := Without(c.jobs, j))
    else
      && LessOne(c.jobs, d.jobs, j)
      && d == c.(ev := c.ev.(state := AiFailed), conv := Failed, jobs := d.jobs)
  }

  lemma AttemptOutcome(c: Case, j: nat, form: Form, reply: Option<seq<RawAnswer>>, now: int)
    requires j < |c.jobs| && (reply.Some? ==> DistinctReply(reply.value))
    ensures Attempt(c, EndAi(c, j, form, reply, now), j, form, reply, now)
  {
    if reply.Some? {
      AcceptedIff(reply.value, form.questions);
      if Accepted(reply.value, form.questions) { AnsweredOutcome(c, j, form, reply.value, now); }
    }
  }

  lemma HoldsReply(form: Form, raw: seq<RawAnswer>)
    requires DistinctReply(raw) && Accepted(raw, form.questions)
    ensures Holds(LayerOf(ScoreOn(form, AnswersOf(raw))), form, raw)
  {
    CollectedAnswers(raw);
    assert ScoreOn(form, AnswersOf(raw)).answers == AnswersOf(raw);
  }

  lemma AnswerWrites(c: Case, d: Case, form: Form, raw: seq<RawAnswer>, now: int, result: ScoreResult,
                     confidence: Option<real>)
    requires Holds(LayerOf(result), form, raw) && LeastStated(raw, confidence)
    requires d.ev == AiEvaluation(c.ev, Some(result), confidence)
    requires d.row == Moved(c.row, QaQueue, PriorityFor(confidence), now)
    ensures Answered(c, d, form, raw, now)
  {
  }

  lemma AnsweredOutcome(c: Case, j: nat, form: Form, raw: seq<RawAnswer>, now: int)
    requires j < |c.jobs| && DistinctReply(raw) && Accepted(raw, form.questions)
    ensures Answered(c, EndAi(c, j, form, Some(raw), now), form, raw, now)
  {
    AcceptedIff(raw, form.questions);
    HoldsReply(form, raw);
    StatedLeast(raw);
    AnswerWrites(c, EndAi(c, j, form, Some(raw), now), form, raw, now, ScoreOn(form, AnswersOf(raw)),
                 LeastConfidence(raw));
  }

  // ---------------------------------------------------------------------
  // The other events, for an evaluation that keeps the invariant

  /** Taken by a user, in the given queue. */
  predicate Taken(before: Option<QueueRow>, after: Option<QueueRow>, queueType: QueueType, user: string) {
    before.Some? && after == Some(before.value.(queueType := queueType, assignedTo := Some(user)))
  }

  /** Given to a user, in the queue it is in. */
  predicate Given(before: Option<QueueRow>, after: Option<QueueRow>, user: string) {
    before.Some? && Taken(before, after, before.value.queueType, user)
  }

  predicate InQa(ev: Evaluation, after: Evaluation, user: string) {
    after == ev.(state := QaInProgress, qaUser := Some(user))
  }

  predicate InVerification(ev: Evaluation, after: Evaluation, user: string) {
    after == ev.(state := VerifierInProgress, verifierUser := Some(user))
  }

  predicate Logged(c: Case, d: Case, action: AuditAction) {
    d == c.(ev := d.ev, row := d.row, log := c.log + [action])
  }

  predicate StartQaTo(c: Case, d: Case, user: string) {
    if c.ev.state == QaPending
    then InQa(c.ev, d.ev, user) && Taken(c.row, d.row, QaQueue, user) && Logged(c, d, QaStarted)
    else d == c
  }

  predicate StartVerifierTo(c: Case, d: Case, user: string) {
    if c.ev.state == QaCompleted
    then InVerification(c.ev, d.ev, user) && Taken(c.row, d.row, VerifierQueue, user) && Logged(c, d, VerifierStarted)
    else d == c
  }

  /** What is approved becomes final as it stands: the QA layer, its score,
      and the flag that this score has on the form. */
  predicate ApproveTo(c: Case, d: Case, form: Form, user: string) {
    if c.ev.state == VerifierInProgress && c.ev.verifierUser == Some(user) then
      && c.ev.qaScore.Some?
      && d.ev == c.ev.(state := Locked, verifierLayer := c.ev.qaLayer, finalLayer := c.ev.qaLayer,
                       verifierScore := c.ev.qaScore, finalScore := c.ev.qaScore,
                       passFail := Some(c.ev.qaScore.value >= (match form.strategy.passMark
                                                               case None => 70.0 case Some(mark) => mark)))
      && d == c.(ev := d.ev, row := None, conv := Completed, log := c.log + [VerifierApproved])
    else d == c
  }

  predicate RejectTo(c: Case, d: Case) {
    if c.ev.state == VerifierInProgress then
      && c.row.Some? && d.row == Some(c.row.value.(queueType := QaQueue, assignedTo := None))
      && d.ev == c.ev.(state := QaPending, verifierUser := None) && Logged(c, d, VerifierRejected)
    else d == c
  }

  predicate RetryTo(c: Case, d: Case, queueUp: bool, enqueued: bool) {
    if queueUp && c.ev.state == AiFailed then
      d == c.(ev := c.ev.(state := AiPending), conv := Pending,
              jobs := if enqueued then c.jobs + [Job(3, c.ev.formId)] else c.jobs, log := c.log + [AiRetryRequested])
    else d == c
  }

  /** Closing an audit case takes the evaluation out of the audit queue. */
  predicate CloseAuditTo(c: Case, d: Case, dismiss: bool) {
    if c.audit.Some? && c.audit.value.status == Open then
      d == c.(audit := Some(AuditCase(if dismiss then Dismissed else Resolved, c.audit.value.deviation,
                                      c.audit.value.threshold)),
              row := None, log := c.log + [AuditCaseClosed(dismiss)])
    else d == c
  }

  predicate AssignTo(c: Case, d: Case, user: string, role: Option<Role>) {
    if (role == Some(Qa) || role == Some(Admin)) && (c.ev.state == QaPending || c.ev.state == QaInProgress)
    then InQa(c.ev, d.ev, user) && Given(c.row, d.row, user) && Logged(c, d, ManuallyAssigned)
    else if (role == Some(Verifier) || role == Some(Admin))
            && (c.ev.state == QaCompleted || c.ev.state == VerifierInProgress)
    then InVerification(c.ev, d.ev, user) && Given(c.row, d.row, user) && Logged(c, d, ManuallyAssigned)
    else d == c
  }

  /** Round robin takes from the two waiting states only, and not what has
      been escalated. */
  predicate AutoAssignTo(c: Case, d: Case, queueType: QueueType, user: string) {
    if queueType == QaQueue && c.ev.state == QaPending && c.row.Some? && c.row.value.queueType == QaQueue
    then InQa(c.ev, d.ev, user) && Given(c.row, d.row, user) && d == c.(ev := d.ev, row := d.row)
    else if queueType == VerifierQueue && c.ev.state == QaCompleted && c.row.Some?
            && c.row.value.queueType == VerifierQueue
    then InVerification(c.ev, d.ev, user) && Given(c.row, d.row, user) && d == c.(ev := d.ev, row := d.row)
    else d == c
  }

  predicate ReassignTo(c: Case, d: Case, user: string, active: bool) {
    if active && c.ev.state == QaInProgress
    then InQa(c.ev, d.ev, user) && Given(c.row, d.row, user) && Logged(c, d, Workflow.Reassigned)
    else if active && c.ev.state == VerifierInProgress
    then InVerification(c.ev, d.ev, user) && Given(c.row, d.row, user) && Logged(c, d, Workflow.Reassigned)
    else d == c
  }

  /** An item is overdue after its due date or, without one, when it has
      waited more than the given number of hours, a day unless configured. */
  predicate Overdue(r: QueueRow, now: int, staleHours: Option<int>) {
    match r.dueBy
    case Some(date) => date < now
    case None => now - r.createdAt > (if staleHours.Some? then staleHours.value else 24) * 3_600_000
  }

  predicate SweepTo(c: Case, d: Case, now: int, staleHours: Option<int>) {
    if !c.ev.isEscalated && c.row.Some? && c.row.value.queueType != AuditQueue && Overdue(c.row.value, now, staleHours)
    then
      && d.row == Some(c.row.value.(queueType := EscalationQueue, priority := 1))
      && d.ev == c.ev.(isEscalated := true) && Logged(c, d, StaleEscalation)
    else d == c
  }

  /** Handed to QA without an AI layer. */
  predicate HandedToQa(c: Case, d: Case, now: int) {
    d == c.(ev := c.ev.(state := QaPending), row := Some(QueueRow(QaQueue, None, 5, now, None)), conv := QaReview,
            jobs := d.jobs)
  }

  predicate UnstickTo(c: Case, d: Case, llmEnabled: bool, now: int) {
    if !llmEnabled && c.ev.state == AiPending && c.conv == Pending then HandedToQa(c, d, now) && d.jobs == c.jobs
    else d == c
  }

  predicate RemapOutcome(c: Case, d: Case, form: Form, replacement: Option<(string, int)>) {
    if c.ev.state == QaPending && (|form.sections| == 0 || |form.questions| == 0) && replacement.Some?
    then d == c.(ev := c.ev.(formId := replacement.value.0, formVersion := replacement.value.1))
    else d == c
  }

  /** The whole table. */
  ghost predicate Outcome(forms: map<string, Form>, c: Case, e: Event, d: Case)
    requires Possible(forms, c, e)
  {
    match e
    case StartQa(user, now) => StartQaTo(c, d, user)
    case SubmitQa(user, adjusted, threshold, now) =>
      if MaySubmit(c, user, adjusted) then Submission(c, d, forms[c.ev.formId], adjusted, threshold, now) else d == c
    case StartVerifier(user, now) => StartVerifierTo(c, d, user)
    case Approve(user) => ApproveTo(c, d, forms[c.ev.formId], user)
    case Modify(user, modified, threshold, now) =>
      if MayModify(c, user, modified) then Modification(c, d, forms[c.ev.formId], modified, threshold, now) else d == c
    case Reject => RejectTo(c, d)
    case RetryAi(queueUp, enqueued) => RetryTo(c, d, queueUp, enqueued)
    case CloseAudit(dismiss) => CloseAuditTo(c, d, dismiss)
    case AssignTo(user, role, now) => AssignTo(c, d, user, role)
    case AutoAssign(queueType, user) => AutoAssignTo(c, d, queueType, user)
    case ReassignTo(user, active) => ReassignTo(c, d, user, active)
    case JobSkips(j, now) => HandedToQa(c, d, now) && d.jobs == []
    case JobBegins(j) => d == c.(ev := c.ev.(state := AiInProgress), conv := Evaluating)
    case JobEnds(j, reply, now) => Attempt(c, d, j, forms[c.jobs[j].formId], reply, now)
    case JobCrashes(j) => LessOne(c.jobs, d.jobs, j) && d == c.(jobs := d.jobs)
    case StaleCheck(now, staleHours) => SweepTo(c, d, now, staleHours)
    case UnstickPending(llmEnabled, now) => UnstickTo(c, d, llmEnabled, now)
    case RemapTo(replacement) => RemapOutcome(c, d, forms[c.ev.formId], replacement)
  }

  /** What a request carries is a JSON object, which has each key once. */
  ghost predicate OneOfEachKey(e: Event) {
    match e
    case SubmitQa(_, adjusted, _, _) => DistinctKeys(adjusted)
    case Modify(_, modified, _, _) => DistinctKeys(modified)
    case JobEnds(_, reply, _) => reply.Some? ==> DistinctReply(reply.value)
    case _ => true
  }

  /** Events of the review desk, of assignment and of the machine; what is
      left writes a score. */
  predicate AtDesk(e: Event) {
    e.StartQa? || e.StartVerifier? || e.Reject? || e.CloseAudit?
  }

  predicate Assigns(e: Event) {
    e.AssignTo? || e.AutoAssign? || e.ReassignTo?
  }

  predicate Mechanical(e: Event) {
    e.RetryAi? || e.JobSkips? || e.JobBegins? || e.JobCrashes? || e.StaleCheck? || e.UnstickPending? || e.RemapTo?
  }

  lemma DeskOutcome(forms: map<string, Form>, c: Case, e: Event)
    requires CaseInv(forms, c) && Possible(forms, c, e) && AtDesk(e)
    ensures Outcome(forms, c, e, Apply(forms, c, e))
  {
  }

  lemma RoundRobinOutcome(forms: map<string, Form>, c: Case, queueType: QueueType, user: string)
    requires CaseInv(forms, c)
    ensures AutoAssignTo(c, Apply(forms, c, AutoAssign(queueType, user)), queueType, user)
  {
  }

  lemma ManualOutcome(forms: map<string, Form>, c: Case, user: string, role: Option<Role>, now: int)
    requires CaseInv(forms, c)
    ensures AssignTo(c, Apply(forms, c, Event.AssignTo(user, role, now)), user, role)
  {
  }

  lemma ReassignOutcome(forms: map<string, Form>, c: Case, user: string, active: bool)
    requires CaseInv(forms, c)
    ensures ReassignTo(c, Apply(forms, c, Event.ReassignTo(user, active)), user, active)
  {
  }

  lemma AssignmentOutcome(forms: map<string, Form>, c: Case, e: Event)
    requires CaseInv(forms, c) && Possible(forms, c, e) && Assigns(e)
    ensures Outcome(forms, c, e, Apply(forms, c, e))
  {
    match e
    case AssignTo(user, role, now) => ManualOutcome(forms, c, user, role, now);
    case AutoAssign(queueType, user) => RoundRobinOutcome(forms, c, queueType, user);
    case ReassignTo(user, active) => ReassignOutcome(forms, c, user, active);
  }

  lemma MachineOutcome(forms: map<string, Form>, c: Case, e: Event)
    requires CaseInv(forms, c) && Possible(forms, c, e) && Mechanical(e)
    ensures Outcome(forms, c, e, Apply(forms, c, e))
  {
  }

  lemma ApproveOutcome(forms: map<string, Form>, c: Case, user: string)
    requires CaseInv(forms, c)
    ensures ApproveTo(c, Apply(forms, c, Approve(user)), forms[c.ev.formId], user)
  {
  }

  lemma UnstickOutcome(forms: map<string, Form>, c: Case, llmEnabled: bool, now: int)
    requires CaseInv(forms, c)
    ensures UnstickTo(c, Unstick(c, llmEnabled, now), llmEnabled, now)
  {
  }

  lemma ScoringOutcome(forms: map<string, Form>, c: Case, e: Event)
    requires CaseInv(forms, c) && Possible(forms, c, e) && OneOfEachKey(e)
    requires e.SubmitQa? || e.Modify? || e.JobEnds? || e.Approve?
    ensures Outcome(forms, c, e, Apply(forms, c, e))
  {
    match e
    case SubmitQa(user, adjusted, threshold, now) =>
      SubmissionOutcome(c, forms[c.ev.formId], user, adjusted, threshold, now);
    case Modify(user, modified, threshold, now) => ModificationOutcome(forms, c, user, modified, threshold, now);
    case JobEnds(j, reply, now) => AttemptOutcome(c, j, forms[c.jobs[j].formId], reply, now);
    case Approve(user) => ApproveOutcome(forms, c, user);
  }

  /** Every event, accepted or refused, does to an evaluation that keeps the
      invariant exactly what the table says. */
  lemma EventOutcome(forms: map<string, Form>, c: Case, e: Event)
    requires CaseInv(forms, c) && Possible(forms, c, e) && OneOfEachKey(e)
    ensures Outcome(forms, c, e, Apply(forms, c, e))
  {
    if AtDesk(e) { DeskOutcome(forms, c, e); }
    else if Assigns(e) { AssignmentOutcome(forms, c, e); }
    else if Mechanical(e) { MachineOutcome(forms, c, e); }
    else { ScoringOutcome(forms, c, e); }
  }

  /** So does every step of every quiet run; other evaluations stay as they
      were. */
  lemma RunOutcome(trace: seq<System>, steps: seq<Step>, i: nat, id: string)
    requires QuietRun(trace, steps) && i < |steps| && id in trace[i].cases
    requires steps[i].On? ==> OneOfEachKey(steps[i].event)
    ensures id in trace[i + 1].cases
    ensures if steps[i].On? && steps[i].id == id
            then Possible(trace[i].forms, trace[i].cases[id], steps[i].event)
                 && Outcome(trace[i].forms, trace[i].cases[id], steps[i].event, trace[i + 1].cases[id])
            else trace[i + 1].cases[id] == trace[i].cases[id]
  {
    RunKeepsInv(trace, steps, i);
    NextCase(trace[i], steps[i], id);
    if steps[i].On? && steps[i].id == id { EventOutcome(trace[i].forms, trace[i].cases[id], steps[i].event); }
  }

  /** Why an operation is refused, for an evaluation in any state. */
  lemma RefusalOutcome(c: Case, form: Form, user: string, now: int)
    ensures QaStart(c, user, now)
         == Failure(InvalidState) || (QaStart(c, user, now).Success? && c.ev.state == QaPending)
    ensures VerifierStart(c, user, now) == Failure(InvalidState)
            || (VerifierStart(c, user, now).Success? && c.ev.state in {VerifierPending, QaCompleted})
    ensures VerifierReject(c) == Failure(InvalidState)
            || (VerifierReject(c).Success? && c.ev.state == VerifierInProgress)
    ensures var r := VerifierApprove(c, form, user);
            if c.ev.state != VerifierInProgress then r == Failure(InvalidState)
            else if c.ev.verifierUser != Some(user) then r == Failure(NotClaimedByYou)
            else r.Success?
    ensures forall queueUp, enqueued ::
              var r := RetryAiFailed(c, queueUp, enqueued);
              if !queueUp then r == Failure(QueueUnavailable)
              else if c.ev.state != AiFailed then r == Failure(InvalidState)
              else r.Success?
    ensures forall dismiss ::
              var r := ResolveAuditCase(c, dismiss);
              match c.audit
              case None => r == Failure(AuditCaseNotFound)
              case Some(a) => if a.status == Open then r.Success? else r == Failure(AuditCaseAlreadyClosed)
    ensures forall role ::
              var r := ManualAssign(c, user, role, now);
              r.Success? || r == Failure(if role == None then InvalidTargetUser else InvalidAssignment)
    ensures forall active ::
              var r := Reassign(c, user, active);
              if !active then r == Failure(InvalidTargetUser)
              else if c.ev.state == QaInProgress || c.ev.state == VerifierInProgress then r.Success?
              else r == Failure(NotInProgress)
  {
  }

  // ---------------------------------------------------------------------
  // Deviation records

  /** The question at i is the last one that has the key. */
  predicate LastWith(questions: seq<Question>, key: string, i: nat) {
    i < |questions| && questions[i].key == key && forall j :: i < j < |questions| ==> questions[j].key != key
  }

  /** A key belongs to the section of the last question that has it. */
  lemma {:induction false} SectionOfLast(questions: seq<Question>, key: string, i: nat)
    ensures LastWith(questions, key, i) ==> SectionOf(questions, key) == Some(questions[i].sectionId)
    ensures SectionOf(questions, key) == None <==> forall q :: q in questions ==> q.key != key
  {
    if questions != [] {
      var front, last := questions[..|questions| - 1], questions[|questions| - 1];
      assert questions == front + [last];
      SectionOfLast(front, key, i);
      if LastWith(questions, key, i) && i < |front| {
        assert forall j :: i < j < |front| ==> front[j] == questions[j];
      }
    }
  }

  function NumberOr0(v: Value): real {
    match v case Num(n) => n case _ => 0.0
  }

  /** A submitted answer overrides one below it that is defined and prints
      otherwise. */
  predicate Overrides(show: real -> string, base: map<string, Answer>, a: Adjustment) {
    a.key in base && !base[a.key].value.Undefined? && TextOf(show, base[a.key].value) != TextOf(show, a.value)
  }

  /** The record of one overridden answer: its section, the numbers before and
      after, and 1 for the fact that it was changed. */
  predicate RecordsOverride(d: Deviation, kind: DeviationType, questions: seq<Question>, base: map<string, Answer>,
                            a: Adjustment)
    requires a.key in base
  {
    && d.kind == kind && d.questionKey == Some(a.key) && d.sectionId == SectionOf(questions, a.key)
    && d.scoreA == NumberOr0(base[a.key].value) && d.scoreB == NumberOr0(a.value) && d.deviation == 1.0
  }

  /** The record of the two overall scores. */
  predicate RecordsScores(d: Deviation, kind: DeviationType, lower: real, score: real) {
    && d.kind == kind && d.questionKey == None && d.sectionId == None && d.scoreA == lower && d.scoreB == score
    && d.deviation == if score >= lower then score - lower else lower - score
  }

  ghost predicate RecordsAll(records: seq<Deviation>, kind: DeviationType, show: real -> string,
                             questions: seq<Question>, base: map<string, Answer>, adjusted: seq<Adjustment>) {
    && (forall d :: d in records ==>
          exists a :: a in adjusted && Overrides(show, base, a) && RecordsOverride(d, kind, questions, base, a))
    && (forall a :: a in adjusted && Overrides(show, base, a) ==>
          exists d :: d in records && RecordsOverride(d, kind, questions, base, a))
  }

  lemma LastRecorded(kind: DeviationType, show: real -> string, questions: seq<Question>, base: map<string, Answer>,
                     a: Adjustment) returns (more: seq<Deviation>)
    ensures more == if Overridden(show, base, a) then [OverrideRecord(kind, questions, base, a)] else []
    ensures if Overrides(show, base, a) then |more| == 1 && RecordsOverride(more[0], kind, questions, base, a)
            else more == []
  {
    more := if Overridden(show, base, a) then [OverrideRecord(kind, questions, base, a)] else [];
  }

  /** Both ways: what is overridden is recorded, and what is recorded has been
      overridden. */
  lemma {:induction false} OverridesRecorded(kind: DeviationType, show: real -> string, questions: seq<Question>,
                                             base: map<string, Answer>, adjusted: seq<Adjustment>)
    ensures RecordsAll(OverrideRecords(kind, show, questions, base, adjusted), kind, show, questions, base, adjusted)
  {
    if adjusted != [] {
      var front, last := adjusted[..|adjusted| - 1], adjusted[|adjusted| - 1];
      assert adjusted == front + [last];
      OverridesRecorded(kind, show, questions, base, front);
      var more := LastRecorded(kind, show, questions, base, last);
      OneMoreRecorded(kind, show, questions, base, front, last, OverrideRecords(kind, show, questions, base, front),
                      more);
    }
  }

  lemma OneMoreRecorded(kind: DeviationType, show: real -> string, questions: seq<Question>, base: map<string, Answer>,
                        front: seq<Adjustment>, last: Adjustment, older: seq<Deviation>, more: seq<Deviation>)
    requires RecordsAll(older, kind, show, questions, base, front)
    requires if Overrides(show, base, last)
             then |more| == 1 && RecordsOverride(more[0], kind, questions, base, last) else more == []
    ensures RecordsAll(older + more, kind, show, questions, base, front + [last])
  {
    var all := front + [last];
    forall d | d in older + more
      ensures exists a :: a in all && Overrides(show, base, a) && RecordsOverride(d, kind, questions, base, a)
    {
      if d in older {
        var a :| a in front && Overrides(show, base, a) && RecordsOverride(d, kind, questions, base, a);
        assert a in all;
      } else {
        assert d == more[0] && last in all;
      }
    }
    forall a | a in all && Overrides(show, base, a)
      ensures exists d :: d in older + more && RecordsOverride(d, kind, questions, base, a)
    {
      if a in front {
        var d :| d in older && RecordsOverride(d, kind, questions, base, a);
        assert d in older + more;
      } else {
        assert more[0] in older + more;
      }
    }
  }

  /** The records of one submission: the overall one first if the layer below
      was scored, then one for each override. */
  ghost predicate RecordsSay(records: seq<Deviation>, kind: DeviationType, show: real -> string,
                             questions: seq<Question>, base: map<string, Answer>, adjusted: seq<Adjustment>,
                             lower: Option<real>, score: real) {
    match lower
    case None => RecordsAll(records, kind, show, questions, base, adjusted)
    case Some(s) => records != [] && RecordsScores(records[0], kind, s, score)
                    && RecordsAll(records[1..], kind, show, questions, base, adjusted)
  }

  lemma RecordsOutcome(kind: DeviationType, show: real -> string, questions: seq<Question>, base: map<string, Answer>,
                       adjusted: seq<Adjustment>, lower: Option<real>, score: real)
    ensures RecordsSay(Deviations(kind, show, questions, base, adjusted, lower, score), kind, show, questions, base,
                       adjusted, lower, score)
  {
    var keyed := OverrideRecords(kind, show, questions, base, adjusted);
    OverridesRecorded(kind, show, questions, base, adjusted);
    assert [] + keyed == keyed;
    assert (OverallRecord(kind, lower, score) + keyed)[|OverallRecord(kind, lower, score)|..] == keyed;
  }

  // ---------------------------------------------------------------------
  // How evaluations come into being

  /** Unscored, unclaimed, not escalated, on the given form. */
  predicate NewEvaluation(ev: Evaluation, formId: string, version: int, state: State) {
    && ev.formId == formId && ev.formVersion == version && ev.state == state
    && ev.aiLayer == ev.qaLayer == ev.verifierLayer == ev.finalLayer == None
    && ev.aiScore == ev.qaScore == ev.verifierScore == ev.finalScore == ev.confidenceScore == None
    && ev.passFail == None && ev.qaUser == ev.verifierUser == None && !ev.isEscalated
  }

  predicate BornForQa(c: Case, formId: string, version: int, now: int) {
    && NewEvaluation(c.ev, formId, version, QaPending) && c.row == Some(QueueRow(QaQueue, None, 5, now, None))
    && c.conv == QaReview && c.audit == None && c.jobs == [] && c.log == []
  }

  predicate BornForAi(c: Case, formId: string, version: int, marked: bool, enqueued: bool) {
    && NewEvaluation(c.ev, formId, version, AiPending) && c.row == None
    && c.conv == (if marked then Evaluating else Pending)
    && c.audit == None && c.jobs == (if enqueued then [Job(3, formId)] else []) && c.log == []
  }

  /** An ingested conversation always waits for the model; an upload or a
      backfill with no model goes to QA at once. */
  lemma BirthOutcome(formId: string, version: int, origin: Origin)
    ensures var c := Born(formId, version, origin);
            match origin
            case ByIngest(enqueued) => BornForAi(c, formId, version, false, enqueued)
            case ByBackfill(llmEnabled, enqueued, now) =>
              if llmEnabled then BornForAi(c, formId, version, false, enqueued) else BornForQa(c, formId, version, now)
            case ByUpload(llmEnabled, queueUp, enqueued, now) =>
              if llmEnabled then BornForAi(c, formId, version, queueUp, queueUp && enqueued)
              else BornForQa(c, formId, version, now)
  {
  }
}
