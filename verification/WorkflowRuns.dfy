/** Runs of the whole workflow over all evaluations of a tenant, the
    invariant that ties state, queue row, owner, scores and conversation
    together, and what follows from it on every run. */
module WorkflowRuns {
  import opened Wrappers
  import opened Answers
  import opened Scoring
  import opened Review
  import opened AiOutput
  import opened Workflow

  // ---------------------------------------------------------------------
  // Events and runs

  /** One atomic step of one existing evaluation. An operation that the
      service refuses leaves the evaluation as it is. */
  datatype Event =
    | StartQa(user: string, now: int)
    | SubmitQa(user: string, adjusted: seq<Adjustment>, threshold: Option<real>, now: int)
    | StartVerifier(user: string, now: int)
    | Approve(user: string)
    | Modify(user: string, modified: seq<Adjustment>, threshold: Option<real>, now: int)
    | Reject
    | RetryAi(queueUp: bool, enqueued: bool)
    | CloseAudit(dismiss: bool)
    | AssignTo(user: string, role: Option<Role>, now: int)
    | AutoAssign(queueType: QueueType, user: string)
    | ReassignTo(user: string, active: bool)
    | JobSkips(job: nat, now: int)
    | JobBegins(job: nat)
    | JobEnds(job: nat, reply: Option<seq<RawAnswer>>, now: int)
    | JobCrashes(job: nat)
    | StaleCheck(now: int, staleHours: Option<int>)
    | UnstickPending(llmEnabled: bool, now: int)
    | RemapTo(replacement: Option<(string, int)>)

  datatype Origin =
    | ByUpload(llmEnabled: bool, queueUp: bool, enqueued: bool, now: int)
    | ByIngest(enqueued: bool)
    | ByBackfill(llmEnabled: bool, enqueued: bool, now: int)

  datatype Step =
    | On(id: string, event: Event)
    | Create(id: string, formId: string, version: int, origin: Origin)
    | PutForm(formId: string, form: Form)

  datatype System = System(cases: map<string, Case>, forms: map<string, Form>)

  const INITIAL := System(map[], map[])

  function Or(c: Case, r: Result<Case, Error>): Case {
    if r.Success? then r.value else c
  }

  /** The job an event talks about is there, and so is every form it reads. */
  predicate Possible(forms: map<string, Form>, c: Case, e: Event) {
    && c.ev.formId in forms
    && (match e
        case JobSkips(j, _) => j < |c.jobs|
        case JobBegins(j) => j < |c.jobs|
        case JobEnds(j, _, _) => j < |c.jobs| && c.jobs[j].formId in forms
        case JobCrashes(j) => j < |c.jobs|
        case RemapTo(r) => r.Some? ==> r.value.0 in forms
        case _ => true)
  }

  function Apply(forms: map<string, Form>, c: Case, e: Event): Case
    requires Possible(forms, c, e)
  {
    match e
    case StartQa(user, now) => Or(c, QaStart(c, user, now))
    case SubmitQa(user, adjusted, threshold, now) =>
      Or(c, QaSubmit(c, forms[c.ev.formId], user, adjusted, threshold, now))
    case StartVerifier(user, now) => Or(c, VerifierStart(c, user, now))
    case Approve(user) => Or(c, VerifierApprove(c, forms[c.ev.formId], user))
    case Modify(user, modified, threshold, now) =>
      Or(c, VerifierModify(c, forms[c.ev.formId], user, modified, threshold, now))
    case Reject => Or(c, VerifierReject(c))
    case RetryAi(queueUp, enqueued) => Or(c, RetryAiFailed(c, queueUp, enqueued))
    case CloseAudit(dismiss) => Or(c, ResolveAuditCase(c, dismiss))
    case AssignTo(user, role, now) => Or(c, ManualAssign(c, user, role, now))
    case AutoAssign(queueType, user) =>
      if queueType in {QaQueue, VerifierQueue} then RoundRobinAssign(c, queueType, user) else c
    case ReassignTo(user, active) => Or(c, Reassign(c, user, active))
    case JobSkips(j, now) => SkipAi(c, j, now)
    case JobBegins(j) => BeginAi(c)
    case JobEnds(j, reply, now) => EndAi(c, j, forms[c.jobs[j].formId], reply, now)
    case JobCrashes(j) => CrashAi(c, j)
    case StaleCheck(now, staleHours) => Sweep(c, now, staleHours)
    case UnstickPending(llmEnabled, now) => Unstick(c, llmEnabled, now)
    case RemapTo(replacement) => Remap(c, forms[c.ev.formId], replacement)
  }

  function Born(formId: string, version: int, origin: Origin): Case {
    match origin
    case ByUpload(llmEnabled, queueUp, enqueued, now) => Uploaded(formId, version, llmEnabled, queueUp, enqueued, now)
    case ByIngest(enqueued) => Ingested(formId, version, enqueued)
    case ByBackfill(llmEnabled, enqueued, now) => Backfilled(formId, version, llmEnabled, enqueued, now)
  }

  /** No job is left, and no operation picks the evaluation up: an attempt
      died for good after it had marked the evaluation, or an upload marked
      the conversation and then failed to enqueue. */
  predicate Stuck(c: Case) {
    c.jobs == [] && (c.ev.state == AiInProgress || (c.ev.state == AiPending && c.conv == Evaluating))
  }

  predicate BoundTo(c: Case, formId: string) {
    c.ev.formId == formId || exists j :: 0 <= j < |c.jobs| && c.jobs[j].formId == formId
  }

  /** No evaluation that can still move, or that has been scored, is bound to
      the form, so its content may change. */
  predicate FormFree(s: System, formId: string) {
    forall id :: id in s.cases && BoundTo(s.cases[id], formId) ==> Stuck(s.cases[id])
  }

  predicate Enabled(s: System, step: Step) {
    match step
    case On(id, e) => id in s.cases && Possible(s.forms, s.cases[id], e)
    case Create(id, formId, _, _) => id !in s.cases && formId in s.forms
    case PutForm(formId, _) => FormFree(s, formId)
  }

  function Next(s: System, step: Step): System
    requires Enabled(s, step)
  {
    match step
    case On(id, e) => s.(cases := s.cases[id := Apply(s.forms, s.cases[id], e)])
    case Create(id, formId, version, origin) => s.(cases := s.cases[id := Born(formId, version, origin)])
    case PutForm(formId, form) => s.(forms := s.forms[formId := form])
  }

  /** Two operations hand an evaluation on without asking whether a worker
      job for it is still outstanding: an administrator's retry, which adds a
      second job, and the backfill of a pending evaluation. */
  predicate Overlaps(c: Case, e: Event) {
    match e
    case RetryAi(queueUp, enqueued) => queueUp && enqueued && c.ev.state == AiFailed && c.jobs != []
    case UnstickPending(llmEnabled, _) => !llmEnabled && c.ev.state == AiPending && c.conv == Pending && c.jobs != []
    case _ => false
  }

  predicate Quiet(s: System, step: Step) {
    step.On? && step.id in s.cases ==> !Overlaps(s.cases[step.id], step.event)
  }

  /** trace[0] is the initial state and steps[i] leads from trace[i] to
      trace[i + 1]. In a quiet run no retry and no backfill overlaps a job. */
  ghost predicate Run(trace: seq<System>, steps: seq<Step>) {
    && |trace| == |steps| + 1
    && trace[0] == INITIAL
    && forall i {:trigger steps[i]} ::
         0 <= i < |steps| ==> Enabled(trace[i], steps[i]) && trace[i + 1] == Next(trace[i], steps[i])
  }

  ghost predicate QuietRun(trace: seq<System>, steps: seq<Step>) {
    && Run(trace, steps)
    && forall i {:trigger steps[i]} :: 0 <= i < |steps| ==> Quiet(trace[i], steps[i])
  }

  // ---------------------------------------------------------------------
  // The invariant

  predicate InQueue(row: Option<QueueRow>, queueType: QueueType, assignedTo: Option<string>) {
    row.Some? && row.value.queueType in {queueType, EscalationQueue} && row.value.assignedTo == assignedTo
  }

  predicate AiState(st: State) {
    st in {AiPending, AiInProgress, AiFailed}
  }

  /** Where the queue row is, and whose. */
  predicate QueueShape(c: Case) {
    match c.ev.state
    case AiPending | AiInProgress | AiFailed => c.row.None? && !c.ev.isEscalated && c.audit.None?
    case QaPending => InQueue(c.row, QaQueue, None) && c.audit.None?
    case QaInProgress => c.ev.qaUser.Some? && InQueue(c.row, QaQueue, c.ev.qaUser) && c.audit.None?
    case QaCompleted => InQueue(c.row, VerifierQueue, None) && c.audit.None?
    case VerifierInProgress =>
      c.ev.verifierUser.Some? && InQueue(c.row, VerifierQueue, c.ev.verifierUser) && c.audit.None?
    case Locked => if c.audit.Some? && c.audit.value.status == Open
                   then c.row.Some? && c.row.value.queueType == AuditQueue && c.row.value.assignedTo == None
                   else c.row.None?
    case _ => false
  }

  /** The conversation status is a function of the state, except that a
      pending AI evaluation may or may not have been marked already. */
  predicate StatusShape(c: Case) {
    match c.ev.state
    case AiPending => c.conv in {Pending, Evaluating}
    case AiInProgress => c.conv == Evaluating
    case AiFailed => c.conv == Failed
    case QaPending | QaInProgress | QaCompleted | VerifierInProgress => c.conv == QaReview
    case Locked => c.conv == Completed
    case _ => false
  }

  /** At most one job, and only while the AI stage lasts. */
  predicate JobShape(c: Case) {
    |c.jobs| <= 1 && (|c.jobs| == 1 ==> AiState(c.ev.state) && c.jobs[0].formId == c.ev.formId)
  }

  function StaleCount(log: seq<AuditAction>): nat {
    if log == [] then 0 else StaleCount(log[..|log| - 1]) + if log[|log| - 1] == StaleEscalation then 1 else 0
  }

  function StaleEntries(c: Case): nat {
    StaleCount(c.log)
  }

  predicate EscalationShape(c: Case) {
    && (c.row.Some? && c.row.value.queueType == EscalationQueue ==> c.ev.isEscalated)
    && StaleEntries(c) <= (if c.ev.isEscalated then 1 else 0)
  }

  /** A layer that is exactly what the form gives its answers. */
  predicate ScoredBy(layer: Layer, form: Form) {
    layer == LayerOf(ScoreOn(form, layer.answers))
  }

  /** The layers hold what their scores say, on the bound form. */
  predicate ScoreShape(form: Form, c: Case) {
    && (c.ev.aiScore == if c.ev.aiLayer.Some? then Some(c.ev.aiLayer.value.overallScore) else None)
    && (c.ev.state in {QaCompleted, VerifierInProgress} ==>
          c.ev.qaLayer.Some? && ScoredBy(c.ev.qaLayer.value, form)
            && c.ev.qaScore == Some(c.ev.qaLayer.value.overallScore))
    && (c.ev.state == Locked ==>
          && c.ev.finalLayer.Some? && ScoredBy(c.ev.finalLayer.value, form) && c.ev.verifierLayer == c.ev.finalLayer
          && c.ev.finalScore == c.ev.verifierScore == Some(c.ev.finalLayer.value.overallScore)
          && c.ev.passFail == Some(c.ev.finalLayer.value.passFail))
  }

  /** The part of the invariant that no score enters. */
  predicate WorkInv(c: Case) {
    QueueShape(c) && StatusShape(c) && JobShape(c) && EscalationShape(c)
  }

  predicate CaseInv(forms: map<string, Form>, c: Case) {
    && c.ev.formId in forms && WorkInv(c) && ScoreShape(forms[c.ev.formId], c)
  }

  predicate Inv(s: System) {
    forall id :: id in s.cases ==> CaseInv(s.forms, s.cases[id])
  }

  // ---------------------------------------------------------------------
  // Every step keeps it

  lemma BornInv(forms: map<string, Form>, formId: string, version: int, origin: Origin)
    requires formId in forms
    ensures CaseInv(forms, Born(formId, version, origin))
  {
  }

  lemma LogGrows(log: seq<AuditAction>, a: AuditAction)
    ensures StaleCount(log + [a]) == StaleCount(log) + if a == StaleEscalation then 1 else 0
  {
    assert (log + [a])[..|log|] == log;
  }

  lemma SubmitKeepsInv(forms: map<string, Form>, c: Case, e: Event)
    requires CaseInv(forms, c) && e.SubmitQa? && Possible(forms, c, e)
    ensures CaseInv(forms, Apply(forms, c, e))
  {
    LogGrows(c.log, QaSubmitted);
  }

  lemma ApproveKeepsInv(forms: map<string, Form>, c: Case, user: string)
    requires CaseInv(forms, c) && VerifierApprove(c, forms[c.ev.formId], user).Success?
    ensures CaseInv(forms, VerifierApprove(c, forms[c.ev.formId], user).value)
  {
    LogGrows(c.log, VerifierApproved);
  }

  lemma ModifyKeepsInv(forms: map<string, Form>, c: Case, user: string, modified: seq<Adjustment>,
                       threshold: Option<real>, now: int)
    requires CaseInv(forms, c) && VerifierModify(c, forms[c.ev.formId], user, modified, threshold, now).Success?
    ensures CaseInv(forms, VerifierModify(c, forms[c.ev.formId], user, modified, threshold, now).value)
  {
    LogGrows(c.log, VerifierModified);
  }

  lemma EndAiKeepsInv(forms: map<string, Form>, c: Case, j: nat, reply: Option<seq<RawAnswer>>, now: int)
    requires CaseInv(forms, c) && j < |c.jobs|
    ensures CaseInv(forms, EndAi(c, j, forms[c.jobs[j].formId], reply, now))
  {
  }

  predicate SameScores(e: Evaluation, f: Evaluation) {
    && e.aiLayer == f.aiLayer && e.aiScore == f.aiScore && e.qaLayer == f.qaLayer && e.qaScore == f.qaScore
    && e.verifierLayer == f.verifierLayer && e.verifierScore == f.verifierScore
    && e.finalLayer == f.finalLayer && e.finalScore == f.finalScore && e.passFail == f.passFail
  }

  /** A desk step writes no score and enters no scored state from outside. */
  predicate DeskStep(c: Case, d: Case) {
    && SameScores(c.ev, d.ev) && d.ev.formId == c.ev.formId
    && (d.ev.state in {QaCompleted, VerifierInProgress} ==> c.ev.state in {QaCompleted, VerifierInProgress})
    && (d.ev.state == Locked ==> c.ev.state == Locked)
  }

  lemma DeskStepKeepsInv(forms: map<string, Form>, c: Case, d: Case)
    requires CaseInv(forms, c) && DeskStep(c, d) && WorkInv(d)
    ensures CaseInv(forms, d)
  {
  }

  lemma StartQaKeeps(c: Case, user: string, now: int)
    requires WorkInv(c) && QaStart(c, user, now).Success?
    ensures var d := QaStart(c, user, now).value; WorkInv(d) && DeskStep(c, d)
  {
    LogGrows(c.log, QaStarted);
  }

  lemma StartVerifierKeeps(c: Case, user: string, now: int)
    requires WorkInv(c) && VerifierStart(c, user, now).Success?
    ensures var d := VerifierStart(c, user, now).value; WorkInv(d) && DeskStep(c, d)
  {
    LogGrows(c.log, VerifierStarted);
  }

  lemma RejectKeeps(c: Case)
    requires WorkInv(c) && VerifierReject(c).Success?
    ensures var d := VerifierReject(c).value; WorkInv(d) && DeskStep(c, d)
  {
    LogGrows(c.log, VerifierRejected);
    var d := VerifierReject(c).value;
    assert d.row == Some(c.row.value.(queueType := QaQueue, assignedTo := None));
    assert QueueShape(d) && JobShape(d);
  }

  lemma CloseKeeps(c: Case, dismiss: bool)
    requires WorkInv(c) && ResolveAuditCase(c, dismiss).Success?
    ensures var d := ResolveAuditCase(c, dismiss).value; WorkInv(d) && DeskStep(c, d)
  {
    LogGrows(c.log, AuditCaseClosed(dismiss));
  }

  lemma AssignQaKeeps(c: Case, user: string, role: Role, now: int)
    requires WorkInv(c) && AssignableToQa(c, role)
    ensures var d := ManualAssign(c, user, Some(role), now).value; WorkInv(d) && DeskStep(c, d)
  {
    LogGrows(c.log, ManuallyAssigned);
  }

  lemma AssignVerifierKeeps(c: Case, user: string, role: Role, now: int)
    requires WorkInv(c) && !AssignableToQa(c, role) && AssignableToVerifier(c, role)
    ensures var d := ManualAssign(c, user, Some(role), now).value; WorkInv(d) && DeskStep(c, d)
  {
    LogGrows(c.log, ManuallyAssigned);
  }

  /** The state comes from the queue type, so the invariant has to say that
      an unassigned QA row means QA_PENDING and an unassigned verifier row
      means QA_COMPLETED. */
  lemma AutoAssignKeeps(c: Case, queueType: QueueType, user: string)
    requires WorkInv(c) && queueType in {QaQueue, VerifierQueue}
    ensures var d := RoundRobinAssign(c, queueType, user); WorkInv(d) && DeskStep(c, d)
  {
  }

  lemma ReassignKeeps(c: Case, user: string, active: bool)
    requires WorkInv(c) && Reassign(c, user, active).Success?
    ensures var d := Reassign(c, user, active).value; WorkInv(d) && DeskStep(c, d)
  {
    LogGrows(c.log, Workflow.Reassigned);
  }

  lemma SweepKeeps(c: Case, now: int, staleHours: Option<int>)
    requires WorkInv(c) && Sweep(c, now, staleHours) != c
    ensures var d := Sweep(c, now, staleHours); WorkInv(d) && DeskStep(c, d)
  {
    LogGrows(c.log, StaleEscalation);
  }

  lemma SkipAiKeeps(c: Case, j: nat, now: int)
    requires WorkInv(c) && j < |c.jobs|
    ensures var d := SkipAi(c, j, now); WorkInv(d) && DeskStep(c, d)
  {
  }

  lemma BeginAiKeeps(c: Case)
    requires WorkInv(c) && c.jobs != []
    ensures var d := BeginAi(c); WorkInv(d) && DeskStep(c, d)
  {
  }

  lemma CrashAiKeeps(c: Case, j: nat)
    requires WorkInv(c) && j < |c.jobs|
    ensures var d := CrashAi(c, j); WorkInv(d) && DeskStep(c, d)
  {
  }

  lemma RetryKeeps(c: Case, enqueued: bool)
    requires WorkInv(c) && c.ev.state == AiFailed && (enqueued ==> c.jobs == [])
    ensures var d := RetryAiFailed(c, true, enqueued).value; WorkInv(d) && DeskStep(c, d)
  {
    LogGrows(c.log, AiRetryRequested);
    var d := RetryAiFailed(c, true, enqueued).value;
    assert d.jobs == if enqueued then [Job(3, c.ev.formId)] else c.jobs;
    assert JobShape(d);
  }

  lemma UnstickKeeps(c: Case, llmEnabled: bool, now: int)
    requires WorkInv(c) && Unstick(c, llmEnabled, now) != c && c.jobs == []
    ensures var d := Unstick(c, llmEnabled, now); WorkInv(d) && DeskStep(c, d)
  {
  }

  predicate Desk(e: Event) {
    !(e.SubmitQa? || e.Approve? || e.Modify? || e.JobEnds? || e.RemapTo?)
  }

  lemma DeskKeepsInv(forms: map<string, Form>, c: Case, e: Event)
    requires CaseInv(forms, c) && Possible(forms, c, e) && Desk(e) && !Overlaps(c, e)
    ensures CaseInv(forms, Apply(forms, c, e))
  {
    var d := Apply(forms, c, e);
    if d != c {
      match e {
        case StartQa(user, now) => StartQaKeeps(c, user, now);
        case StartVerifier(user, now) => StartVerifierKeeps(c, user, now);
        case Reject => RejectKeeps(c);
        case CloseAudit(dismiss) => CloseKeeps(c, dismiss);
        case AssignTo(user, role, now) =>
          if AssignableToQa(c, role.value) { AssignQaKeeps(c, user, role.value, now); }
          else { AssignVerifierKeeps(c, user, role.value, now); }
        case AutoAssign(queueType, user) => AutoAssignKeeps(c, queueType, user);
        case ReassignTo(user, active) => ReassignKeeps(c, user, active);
        case StaleCheck(now, staleHours) => SweepKeeps(c, now, staleHours);
        case JobSkips(j, now) => SkipAiKeeps(c, j, now);
        case JobBegins(_) => BeginAiKeeps(c);
        case JobCrashes(j) => CrashAiKeeps(c, j);
        case RetryAi(_, enqueued) => RetryKeeps(c, enqueued);
        case UnstickPending(llmEnabled, now) => UnstickKeeps(c, llmEnabled, now);
      }
      DeskStepKeepsInv(forms, c, d);
    }
  }

  lemma RemapKeepsInv(forms: map<string, Form>, c: Case, e: Event)
    requires CaseInv(forms, c) && e.RemapTo? && Possible(forms, c, e)
    ensures CaseInv(forms, Apply(forms, c, e))
  {
  }

  lemma EventKeepsInv(forms: map<string, Form>, c: Case, e: Event)
    requires CaseInv(forms, c) && Possible(forms, c, e) && !Overlaps(c, e)
    ensures CaseInv(forms, Apply(forms, c, e))
  {
    if Desk(e) {
      DeskKeepsInv(forms, c, e);
    } else if Apply(forms, c, e) != c {
      match e {
        case SubmitQa(_, _, _, _) => SubmitKeepsInv(forms, c, e);
        case Approve(user) => ApproveKeepsInv(forms, c, user);
        case Modify(user, modified, threshold, now) => ModifyKeepsInv(forms, c, user, modified, threshold, now);
        case JobEnds(j, reply, now) => EndAiKeepsInv(forms, c, j, reply, now);
        case RemapTo(_) => RemapKeepsInv(forms, c, e);
      }
    }
  }

  lemma PutFormKeepsInv(s: System, formId: string, form: Form)
    requires Inv(s) && FormFree(s, formId)
    ensures Inv(s.(forms := s.forms[formId := form]))
  {
    var forms := s.forms[formId := form];
    forall id | id in s.cases ensures CaseInv(forms, s.cases[id]) {
      assert BoundTo(s.cases[id], formId) ==> Stuck(s.cases[id]);
      OtherForm(s.forms, s.cases[id], formId, form);
    }
  }

  lemma OtherForm(forms: map<string, Form>, c: Case, formId: string, form: Form)
    requires CaseInv(forms, c) && (c.ev.formId != formId || Stuck(c))
    ensures CaseInv(forms[formId := form], c)
  {
  }

  lemma ReplaceKeepsInv(s: System, id: string, c: Case)
    requires Inv(s) && CaseInv(s.forms, c)
    ensures Inv(s.(cases := s.cases[id := c]))
  {
  }

  lemma StepKeepsInv(s: System, step: Step)
    requires Inv(s) && Enabled(s, step) && Quiet(s, step)
    ensures Inv(Next(s, step))
  {
    match step
    case On(id, e) =>
      EventKeepsInv(s.forms, s.cases[id], e);
      ReplaceKeepsInv(s, id, Apply(s.forms, s.cases[id], e));
    case Create(id, formId, version, origin) =>
      BornInv(s.forms, formId, version, origin);
      ReplaceKeepsInv(s, id, Born(formId, version, origin));
    case PutForm(formId, form) => PutFormKeepsInv(s, formId, form);
  }

  /** What a step does to one evaluation: an event of its own, or nothing. */
  lemma NextCase(s: System, step: Step, id: string)
    requires Enabled(s, step) && id in s.cases
    ensures id in Next(s, step).cases
    ensures if step.On? && step.id == id then Next(s, step).cases[id] == Apply(s.forms, s.cases[id], step.event)
            else Next(s, step).cases[id] == s.cases[id]
  {
  }

  /** In every state of every quiet run the invariant holds. */
  lemma {:induction false} RunKeepsInv(trace: seq<System>, steps: seq<Step>, i: nat)
    requires QuietRun(trace, steps) && i < |trace|
    ensures Inv(trace[i])
  {
    if i > 0 {
      RunKeepsInv(trace, steps, i - 1);
      StepKeepsInv(trace[i - 1], steps[i - 1]);
    }
  }
}
