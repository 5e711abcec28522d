/** The workflow services over the tables, one method per operation. Each
    method writes its rows one after the other, and its contract says which
    step of the workflow this amounts to for the evaluation concerned, and
    that every other evaluation stays as it was. */
module WorkflowStore {
  import opened Wrappers
  import opened Answers
  import opened Scoring
  import opened Review
  import opened AiOutput
  import opened Workflow
  import opened Tables
  import opened TableSteps
  import opened WorkflowRuns
  import opened Sequences
  import opened RoundRobin
  import opened BatchAssignment
  import Outcomes

  /** The sweeper looked at the evaluations in done and at no other. */
  ghost predicate SweptPart(before: map<string, Case>, after: map<string, Case>, done: seq<string>, now: int,
                            staleHours: Option<int>) {
    && after.Keys == before.Keys
    && forall id :: id in before ==> after[id] == if id in done then Sweep(before[id], now, staleHours) else before[id]
  }

  ghost function SweptCases(cases: map<string, Case>, now: int, staleHours: Option<int>): map<string, Case> {
    map id | id in cases :: Sweep(cases[id], now, staleHours)
  }

  /** The pass after the first i items. */
  ghost predicate SweptSoFar(before: Db, now: Db, items: seq<string>, i: nat, at: int, staleHours: Option<int>) {
    && Consistent(before) && Consistent(now) && now.forms == before.forms && i <= |items|
    && SweptPart(CasesOf(before), CasesOf(now), items[..i], at, staleHours)
  }

  lemma StillThere(before: Db, mid: Db, items: seq<string>, i: nat, at: int, staleHours: Option<int>)
    requires SweptSoFar(before, mid, items, i, at, staleHours) && Distinct(items) && i < |items|
             && items[i] in before.queue
    ensures items[i] in mid.evaluations && items[i] in mid.queue && mid.queue[items[i]] == before.queue[items[i]]
    ensures items[i] !in items[..i]
  {
    assert items[i] in CasesOf(before);
    assert CasesOf(mid)[items[i]].row == CasesOf(before)[items[i]].row;
  }

  lemma SweptOne(before: Db, mid: Db, after: Db, items: seq<string>, i: nat, at: int, staleHours: Option<int>)
    requires SweptSoFar(before, mid, items, i, at, staleHours) && i < |items| && items[i] !in items[..i]
    requires items[i] in mid.evaluations && Replaced(mid, after, items[i], Sweep(CaseAt(mid, items[i]), at, staleHours))
    ensures SweptSoFar(before, after, items, i + 1, at, staleHours)
  {
    PrefixSnoc(items, i);
    CaseOf(mid, items[i]);
    SweptMore(CasesOf(before), CasesOf(mid), CasesOf(after), items[..i], items[i], items[..i + 1], at, staleHours);
  }

  lemma SweptMore(before: map<string, Case>, mid: map<string, Case>, after: map<string, Case>, done: seq<string>,
                  id: string, more: seq<string>,
                  at: int, staleHours: Option<int>)
    requires SweptPart(before, mid, done, at, staleHours) && id in mid && id !in done && more == done + [id]
    requires after == mid[id := Sweep(mid[id], at, staleHours)]
    ensures SweptPart(before, after, more, at, staleHours)
  {
  }

  lemma NotStale(db: Db, id: string, at: int, staleHours: Option<int>)
    requires Consistent(db) && id in CasesOf(db)
             && (id in db.queue ==> !IsStale(db.queue[id], at, staleHours.GetOr(24)))
    ensures Sweep(CasesOf(db)[id], at, staleHours) == CasesOf(db)[id]
  {
    assert CasesOf(db)[id].row == Find(db.queue, id);
  }

  /** Rows the query does not answer would not have been swept. */
  lemma SweptAll(before: Db, now: Db, items: seq<string>, at: int, staleHours: Option<int>)
    requires SweptSoFar(before, now, items, |items|, at, staleHours)
    requires forall id :: id in items <==> id in before.queue && IsStale(before.queue[id], at, staleHours.GetOr(24))
    ensures CasesOf(now) == SweptCases(CasesOf(before), at, staleHours)
  {
    assert items[..|items|] == items;
    forall id | id in CasesOf(before) && id !in items
      ensures Sweep(CasesOf(before)[id], at, staleHours) == CasesOf(before)[id] {
      NotStale(before, id, at, staleHours);
    }
    SweptWhole(CasesOf(before), CasesOf(now), items, at, staleHours);
  }

  lemma SweptWhole(before: map<string, Case>, after: map<string, Case>, done: seq<string>, at: int,
                   staleHours: Option<int>)
    requires SweptPart(before, after, done, at, staleHours)
    requires forall id :: id in before && id !in done ==> Sweep(before[id], at, staleHours) == before[id]
    ensures after == SweptCases(before, at, staleHours)
  {
  }

  /** A pass of the sweeper keeps the invariant. */
  lemma SweepingKeepsInv(s: System, now: int, staleHours: Option<int>)
    requires Inv(s)
    ensures Inv(s.(cases := SweptCases(s.cases, now, staleHours)))
  {
    forall id | id in s.cases ensures CaseInv(s.forms, Sweep(s.cases[id], now, staleHours)) {
      EventKeepsInv(s.forms, s.cases[id], StaleCheck(now, staleHours));
    }
  }

  /** What a submission records, with the score it leaves in the evaluation. */
  lemma SubmissionRecords(show: real -> string, c: Case, form: Form, user: string, adjusted: seq<Adjustment>,
                          threshold: Option<real>, now: int)
    requires QaSubmit(c, form, user, adjusted, threshold, now).Success?
    ensures var d := QaSubmit(c, form, user, adjusted, threshold, now).value;
            d.ev.qaScore.Some? &&
            Outcomes.RecordsSay(EvaluationStore.QaRecords(show, c.ev, form, adjusted), AiVsQa, show, form.questions,
                                Outcomes.Stored(c.ev.aiLayer), adjusted, c.ev.aiScore, d.ev.qaScore.value)
  {
    Outcomes.RecordsOutcome(AiVsQa, show, form.questions, Outcomes.Stored(c.ev.aiLayer), adjusted, c.ev.aiScore,
                            QaSubmit(c, form, user, adjusted, threshold, now).value.ev.qaScore.value);
  }

  lemma ModificationRecords(show: real -> string, c: Case, form: Form, user: string, modified: seq<Adjustment>,
                            threshold: Option<real>, now: int)
    requires VerifierModify(c, form, user, modified, threshold, now).Success?
    ensures var d := VerifierModify(c, form, user, modified, threshold, now).value;
            d.ev.finalScore.Some? &&
            Outcomes.RecordsSay(EvaluationStore.VerifierRecords(show, c.ev, form, modified), QaVsVerifier, show,
                                form.questions, Outcomes.Stored(c.ev.qaLayer), modified, c.ev.qaScore,
                                d.ev.finalScore.value)
  {
    Outcomes.RecordsOutcome(QaVsVerifier, show, form.questions, Outcomes.Stored(c.ev.qaLayer), modified, c.ev.qaScore,
                            VerifierModify(c, form, user, modified, threshold, now).value.ev.finalScore.value);
  }

  class EvaluationStore {
    /** How numbers print. */
    const show: real -> string

    var conversations: Conversations
    var evaluations: Rows
    var queue: map<string, QueueRow>
    var auditCases: map<string, AuditCase>
    var jobs: map<string, seq<Job>>
    var auditLog: seq<LogEntry>
    var forms: map<string, Form>
    var deviations: map<string, seq<Deviation>>

    ghost function Snapshot(): Db
      reads this
    {
      Db(conversations, evaluations, queue, auditCases, jobs, auditLog, forms)
    }

    ghost predicate Valid()
      reads this
    {
      Consistent(Snapshot())
    }

    /** A tenant with its forms, and nothing evaluated yet. */
    constructor (show: real -> string, forms: map<string, Form>)
      ensures Valid() && SystemOf(Snapshot()) == System(map[], forms) && conversations == map[] && deviations == map[]
    {
      this.show, this.forms := show, forms;
      conversations, evaluations, queue, auditCases, jobs, auditLog, deviations :=
        map[], map[], map[], map[], map[], [], map[];
    }

    /** A new conversation is PENDING; one that exists stays as it is. */
    method UpsertConversation(conv: string, channel: string)
      requires Valid()
      modifies this`conversations
      ensures conversations == if conv in old(conversations) then old(conversations)
                               else old(conversations)[conv := Conversation(channel, Pending)]
      ensures Valid() && CasesOf(Snapshot()) == CasesOf(old(Snapshot()))
      ensures KeepsInv(old(Snapshot()), Snapshot())
    {
      if conv !in conversations {
        ConversationAdded(Snapshot(), conv, channel);
        conversations := conversations[conv := Conversation(channel, Pending)];
      }
    }

    /** The decision behind an answer. */
    static function Decided(r: Option<Error>): Option<Error> {
      if r == Some(EnqueueFailed) then None else r
    }

    ghost function At(id: string): Case
      requires Valid() && id in evaluations
      reads this
    {
      CaseAt(Snapshot(), id)
    }

    // ---------------------------------------------------------------------
    // Reading and writing the rows of one evaluation

    method ReadRows(id: string) returns (w: OwnRows)
      requires Valid() && id in evaluations
      ensures w == OwnRowsOf(At(id))
    {
      w := OwnRows(evaluations[id].ev, Find(queue, id), conversations[evaluations[id].conversationId].status,
                  Find(auditCases, id), JobsOf(jobs, id));
    }

    /** One transaction: the evaluation of this conversation and every row that
        belongs to it are set to what w says, with entries for the audit log. */
    method Write(id: string, conv: string, w: OwnRows, entries: seq<LogEntry>)
      requires Valid() && Target(Snapshot(), id, conv) && Entry(entries, id)
      requires w.ev.formId in forms && KnownForms(forms, w.jobs)
      modifies this`evaluations, this`queue, this`conversations, this`auditCases, this`jobs, this`auditLog
      ensures Replaced(old(Snapshot()), Snapshot(), id, w.With(LogOf(old(auditLog), id) + Actions(entries)))
      ensures OwnerAdded(old(evaluations), evaluations, id, conv) && SameChannels(old(conversations), conversations)
      ensures auditLog == old(auditLog) + entries
    {
      ghost var before := Snapshot();
      evaluations := evaluations[id := EvaluationRow(conv, w.ev)];
      conversations := conversations[conv := conversations[conv].(status := w.conv)];
      queue := Upserted(queue, id, w.row);
      auditCases := Upserted(auditCases, id, w.audit);
      jobs := jobs[id := w.jobs];
      auditLog := auditLog + entries;
      assert Snapshot() == Written(before, id, conv, w, entries);
      WrittenReplaces(before, id, conv, w, entries);
    }

    method Update(id: string, w: OwnRows, entries: seq<LogEntry>)
      requires Valid() && id in evaluations && Entry(entries, id)
      requires w.ev.formId in forms && KnownForms(forms, w.jobs)
      modifies this`evaluations, this`queue, this`conversations, this`auditCases, this`jobs, this`auditLog
      ensures Replaced(old(Snapshot()), Snapshot(), id, w.With(old(At(id)).log + Actions(entries)))
      ensures auditLog == old(auditLog) + entries
    {
      Write(id, evaluations[id].conversationId, w, entries);
    }

    /** The worker, the backfill and the remap leave no audit entry. */
    method UpdateSilently(id: string, w: OwnRows)
      requires Valid() && id in evaluations
      requires w.ev.formId in forms && KnownForms(forms, w.jobs)
      modifies this`evaluations, this`queue, this`conversations, this`auditCases, this`jobs, this`auditLog
      ensures Replaced(old(Snapshot()), Snapshot(), id, w.With(old(At(id)).log))
      ensures OwnerAdded(old(evaluations), evaluations, id, old(evaluations[id].conversationId))
      ensures SameChannels(old(conversations), conversations) && auditLog == old(auditLog)
    {
      assert At(id).log + Actions([]) == At(id).log;
      Write(id, evaluations[id].conversationId, w, []);
    }

    // ---------------------------------------------------------------------
    // Review, verification and assignment

    method StartQaReview(id: string, user: string, now: int) returns (r: Option<Error>)
      requires Valid()
      modifies this`evaluations, this`queue, this`conversations, this`auditCases, this`jobs, this`auditLog
      ensures id !in old(evaluations) ==> r == Some(NotFound) && Snapshot() == old(Snapshot())
      ensures id in old(evaluations) ==> Performed(old(Snapshot()), Snapshot(), id, QaStart(old(At(id)), user, now), r)
      ensures id in old(evaluations) ==> IsStep(old(Snapshot()), Snapshot(), On(id, StartQa(user, now)))
      ensures KeepsInv(old(Snapshot()), Snapshot())
      ensures r.None? ==> auditLog == old(auditLog) + [OnEvaluation(id, QaStarted, user)]
    {
      if id !in evaluations { return Some(NotFound); }
      ghost var before := Snapshot();
      var w := ReadRows(id);
      if w.ev.state != QaPending {
        r := Some(InvalidState);
      } else {
        Update(id, w.(ev := w.ev.(state := QaInProgress, qaUser := Some(user)),
                      row := Claimed(w.row, QaQueue, user, now)),
               [OnEvaluation(id, QaStarted, user)]);
        r := None;
      }
      QaStartIsStep(before, Snapshot(), id, user, now, r);
    }

    method StartVerification(id: string, user: string, now: int) returns (r: Option<Error>)
      requires Valid()
      modifies this`evaluations, this`queue, this`conversations, this`auditCases, this`jobs, this`auditLog
      ensures id !in old(evaluations) ==> r == Some(NotFound) && Snapshot() == old(Snapshot())
      ensures id in old(evaluations) ==>
        Performed(old(Snapshot()), Snapshot(), id, VerifierStart(old(At(id)), user, now), r)
      ensures id in old(evaluations) ==> IsStep(old(Snapshot()), Snapshot(), On(id, StartVerifier(user, now)))
      ensures KeepsInv(old(Snapshot()), Snapshot())
      ensures r.None? ==> auditLog == old(auditLog) + [OnEvaluation(id, VerifierStarted, user)]
    {
      if id !in evaluations { return Some(NotFound); }
      ghost var before := Snapshot();
      var w := ReadRows(id);
      if w.ev.state != VerifierPending && w.ev.state != QaCompleted {
        r := Some(InvalidState);
      } else {
        Update(id, w.(ev := w.ev.(state := VerifierInProgress, verifierUser := Some(user)),
                      row := Claimed(w.row, VerifierQueue, user, now)),
               [OnEvaluation(id, VerifierStarted, user)]);
        r := None;
      }
      VerifierStartIsStep(before, Snapshot(), id, user, now, r);
    }

    method ApproveVerification(id: string, user: string) returns (r: Option<Error>)
      requires Valid()
      modifies this`evaluations, this`queue, this`conversations, this`auditCases, this`jobs, this`auditLog
      ensures id !in old(evaluations) ==> r == Some(NotFound) && Snapshot() == old(Snapshot())
      ensures id in old(evaluations) ==>
        Performed(old(Snapshot()), Snapshot(), id,
                  VerifierApprove(old(At(id)), BoundForm(old(Snapshot()), id), user), r)
      ensures id in old(evaluations) ==> IsStep(old(Snapshot()), Snapshot(), On(id, Approve(user)))
      ensures KeepsInv(old(Snapshot()), Snapshot())
      ensures r.None? ==> auditLog == old(auditLog) + [OnEvaluation(id, VerifierApproved, user)]
    {
      if id !in evaluations { return Some(NotFound); }
      ghost var before := Snapshot();
      var w := ReadRows(id);
      if w.ev.state != VerifierInProgress {
        r := Some(InvalidState);
      } else if w.ev.verifierUser != Some(user) {
        r := Some(NotClaimedByYou);
      } else {
        var finalScore := ApprovedScore(w.ev);
        var passFail := finalScore.Some? && finalScore.value >= forms[w.ev.formId].strategy.PassMark();
        var layer :=
          if w.ev.qaLayer.None? then None
          else Some(w.ev.qaLayer.value.(overallScore := finalScore.GetOr(w.ev.qaLayer.value.overallScore),
                                        passFail := passFail));
        Update(id, w.(ev := w.ev.(state := Locked, verifierLayer := layer, finalLayer := layer,
                                  verifierScore := finalScore,
                                  finalScore := finalScore, passFail := Some(passFail)),
                      row := None, conv := Completed),
               [OnEvaluation(id, VerifierApproved, user)]);
        r := None;
      }
      VerifierApproveIsStep(before, Snapshot(), id, user, r);
    }

    method RejectVerification(id: string, user: string) returns (r: Option<Error>)
      requires Valid()
      modifies this`evaluations, this`queue, this`conversations, this`auditCases, this`jobs, this`auditLog
      ensures id !in old(evaluations) ==> r == Some(NotFound) && Snapshot() == old(Snapshot())
      ensures id in old(evaluations) ==> Performed(old(Snapshot()), Snapshot(), id, VerifierReject(old(At(id))), r)
      ensures id in old(evaluations) ==> IsStep(old(Snapshot()), Snapshot(), On(id, Reject))
      ensures KeepsInv(old(Snapshot()), Snapshot())
      ensures r.None? ==> auditLog == old(auditLog) + [OnEvaluation(id, VerifierRejected, user)]
    {
      if id !in evaluations { return Some(NotFound); }
      ghost var before := Snapshot();
      var w := ReadRows(id);
      if w.ev.state != VerifierInProgress {
        r := Some(InvalidState);
      } else {
        var row := if w.row.None? then None else Some(w.row.value.(queueType := QaQueue, assignedTo := None));
        Update(id, w.(ev := w.ev.(state := QaPending, verifierUser := None), row := row),
               [OnEvaluation(id, VerifierRejected, user)]);
        r := None;
      }
      VerifierRejectIsStep(before, Snapshot(), id, r);
    }

    /** The rows are committed before the job is added to the queue, so a
        failing enqueue is reported although the retry has taken effect. */
    method RetryAi(id: string, user: string, queueUp: bool, enqueued: bool) returns (r: Option<Error>)
      requires Valid()
      modifies this`evaluations, this`queue, this`conversations, this`auditCases, this`jobs, this`auditLog
      ensures id !in old(evaluations) ==>
        r == Some(if queueUp then NotFound else QueueUnavailable) && Snapshot() == old(Snapshot())
      ensures id in old(evaluations) ==>
        Performed(old(Snapshot()), Snapshot(), id, RetryAiFailed(old(At(id)), queueUp, enqueued), Decided(r))
      ensures id in old(evaluations) ==> IsStep(old(Snapshot()), Snapshot(), On(id, Event.RetryAi(queueUp, enqueued)))
      ensures !enqueued || JobsOf(old(jobs), id) == [] ==> KeepsInv(old(Snapshot()), Snapshot())
      ensures id in old(evaluations) ==>
        (r == Some(EnqueueFailed) <==> RetryAiFailed(old(At(id)), queueUp, enqueued).Success? && !enqueued)
      ensures r.None? || r == Some(EnqueueFailed) ==>
        auditLog == old(auditLog) + [OnEvaluation(id, AiRetryRequested, user)]
    {
      if id !in evaluations { return Some(if queueUp then NotFound else QueueUnavailable); }
      ghost var before := Snapshot();
      var w := ReadRows(id);
      if !queueUp {
        r := Some(QueueUnavailable);
      } else if w.ev.state != AiFailed {
        r := Some(InvalidState);
      } else {
        Update(id, w.(ev := w.ev.(state := AiPending, isEscalated := false), row := None, conv := Pending,
                      jobs := w.jobs + if enqueued then [Job(3, w.ev.formId)] else []),
               [OnEvaluation(id, AiRetryRequested, user)]);
        r := if enqueued then None else Some(EnqueueFailed);
      }
      RetryIsStep(before, Snapshot(), id, queueUp, enqueued, Decided(r));
    }

    method CloseAuditCase(id: string, user: string, dismiss: bool) returns (r: Option<Error>)
      requires Valid()
      modifies this`evaluations, this`queue, this`conversations, this`auditCases, this`jobs, this`auditLog
      ensures id !in old(evaluations) ==> r == Some(AuditCaseNotFound) && Snapshot() == old(Snapshot())
      ensures id in old(evaluations) ==>
        Performed(old(Snapshot()), Snapshot(), id, ResolveAuditCase(old(At(id)), dismiss), r)
      ensures id in old(evaluations) ==> IsStep(old(Snapshot()), Snapshot(), On(id, CloseAudit(dismiss)))
      ensures KeepsInv(old(Snapshot()), Snapshot())
      ensures r.None? ==> auditLog == old(auditLog) + [OnEvaluation(id, AuditCaseClosed(dismiss), user)]
    {
      if id !in evaluations { return Some(AuditCaseNotFound); }
      ghost var before := Snapshot();
      var w := ReadRows(id);
      if w.audit.None? {
        r := Some(AuditCaseNotFound);
      } else if w.audit.value.status != Open {
        r := Some(AuditCaseAlreadyClosed);
      } else {
        var row := if w.row.Some? && w.row.value.queueType == AuditQueue then None else w.row;
        Update(id, w.(audit := Some(w.audit.value.(status := if dismiss then Dismissed else Resolved)), row := row),
               [OnEvaluation(id, AuditCaseClosed(dismiss), user)]);
        r := None;
      }
      AuditCaseIsStep(before, Snapshot(), id, dismiss, r);
    }

    method AssignManually(id: string, user: string, role: Option<Role>, admin: string, now: int)
      returns (r: Option<Error>)
      requires Valid()
      modifies this`evaluations, this`queue, this`conversations, this`auditCases, this`jobs, this`auditLog
      ensures id !in old(evaluations) ==>
        r == Some(if role.None? then InvalidTargetUser else NotFound) && Snapshot() == old(Snapshot())
      ensures id in old(evaluations) ==>
        Performed(old(Snapshot()), Snapshot(), id, ManualAssign(old(At(id)), user, role, now), r)
      ensures id in old(evaluations) ==> IsStep(old(Snapshot()), Snapshot(), On(id, AssignTo(user, role, now)))
      ensures KeepsInv(old(Snapshot()), Snapshot())
      ensures r.None? ==> auditLog == old(auditLog) + [OnEvaluation(id, ManuallyAssigned, admin)]
    {
      if id !in evaluations { return Some(if role.None? then InvalidTargetUser else NotFound); }
      ghost var before := Snapshot();
      var w := ReadRows(id);
      if role.None? {
        r := Some(InvalidTargetUser);
      } else if role.value in {Qa, Admin} && w.ev.state in {QaPending, QaInProgress} {
        Update(id, w.(ev := w.ev.(state := QaInProgress, qaUser := Some(user)),
                      row := Assigned(w.row, QaQueue, user, now)),
               [OnEvaluation(id, ManuallyAssigned, admin)]);
        r := None;
      } else if role.value in {Verifier, Admin} && w.ev.state in {QaCompleted, VerifierPending, VerifierInProgress} {
        Update(id, w.(ev := w.ev.(state := VerifierInProgress, verifierUser := Some(user)),
                      row := Assigned(w.row, VerifierQueue, user, now)),
               [OnEvaluation(id, ManuallyAssigned, admin)]);
        r := None;
      } else {
        r := Some(InvalidAssignment);
      }
      ManualAssignIsStep(before, Snapshot(), id, user, role, now, r);
    }

    method ReassignReview(id: string, user: string, active: bool, admin: string) returns (r: Option<Error>)
      requires Valid()
      modifies this`evaluations, this`queue, this`conversations, this`auditCases, this`jobs, this`auditLog
      ensures id !in old(evaluations) ==>
        r == Some(if active then NotFound else InvalidTargetUser) && Snapshot() == old(Snapshot())
      ensures id in old(evaluations) ==>
        Performed(old(Snapshot()), Snapshot(), id, Reassign(old(At(id)), user, active), r)
      ensures id in old(evaluations) ==> IsStep(old(Snapshot()), Snapshot(), On(id, ReassignTo(user, active)))
      ensures KeepsInv(old(Snapshot()), Snapshot())
      ensures r.None? ==> auditLog == old(auditLog) + [OnEvaluation(id, Workflow.Reassigned, admin)]
    {
      if id !in evaluations { return Some(if active then NotFound else InvalidTargetUser); }
      ghost var before := Snapshot();
      var w := ReadRows(id);
      if !active {
        r := Some(InvalidTargetUser);
      } else if w.ev.state != QaInProgress && w.ev.state != VerifierInProgress {
        r := Some(NotInProgress);
      } else {
        var ev := if w.ev.state == QaInProgress then w.ev.(qaUser := Some(user)) else w.ev.(verifierUser := Some(user));
        var row := if w.row.None? then None else Some(w.row.value.(assignedTo := Some(user)));
        Update(id, w.(ev := ev, row := row), [OnEvaluation(id, Workflow.Reassigned, admin)]);
        r := None;
      }
      ReassignIsStep(before, Snapshot(), id, user, active, r);
    }

    method AppendRecords(id: string, records: seq<Deviation>)
      modifies this`deviations
      ensures deviations == old(deviations)[id := (if id in old(deviations) then old(deviations[id]) else []) + records]
      ensures Snapshot() == old(Snapshot())
    {
      deviations := deviations[id := (if id in deviations then deviations[id] else []) + records];
    }

    static function QaRecords(show: real -> string, ev: Evaluation, form: Form,
      adjusted: seq<Adjustment>): seq<Deviation> {
      var base := AnswersIn(ev.aiLayer);
      Deviations(AiVsQa, show, form.questions, base, adjusted, ev.aiScore,
                 ScoreOn(form, Overlay(base, adjusted)).overallScore)
    }

    static method ScoreSubmission(show: real -> string, ev: Evaluation, form: Form, user: string,
      adjusted: seq<Adjustment>)
      returns (r: Result<ScoreResult, Error>, records: seq<Deviation>, gap: real)
      ensures r == QaScored(ev, form, user, adjusted)
      ensures r.Success? ==>
        records == QaRecords(show, ev, form, adjusted) && gap == ScoreGap(r.value.overallScore, ev.aiScore)
      ensures r.Success? && DistinctKeys(adjusted) ==>
        && Outcomes.LaidOver(Outcomes.Stored(ev.aiLayer), adjusted, r.value.answers)
        && Outcomes.HoldsScore(LayerOf(r.value), form)
    {
      if ev.state != QaInProgress { return Failure(AlreadySubmitted), [], 0.0; }
      if ev.qaUser != Some(user) { return Failure(NotClaimedByYou), [], 0.0; }
      var aiAnswers := AnswersIn(ev.aiLayer);
      var merged := MergeQa(aiAnswers, adjusted);
      if merged.Failure? {
        var i: nat :| i < |adjusted| && LacksReason(aiAnswers, adjusted[i]) && merged.error == adjusted[i].key
                      && forall j :: 0 <= j < i ==> !LacksReason(aiAnswers, adjusted[j]);
        FirstLackingIs(aiAnswers, adjusted, i);
        return Failure(MissingOverrideReason(merged.error)), [], 0.0;
      }
      var result := ScoreForm(merged.value, form.questions, form.sections, form.strategy);
      records, gap := RecordDeviations(AiVsQa, show, form.questions, AnswersIn(ev.aiLayer), adjusted, ev.aiScore,
                                       result.overallScore);
      if DistinctKeys(adjusted) { Outcomes.OverlayLaysOver(Outcomes.Stored(ev.aiLayer), adjusted); }
      r := Success(result);
    }

    method SubmitQaReview(id: string, user: string, adjusted: seq<Adjustment>, threshold: Option<real>, now: int)
      returns (r: Option<Error>)
      requires Valid()
      modifies this`evaluations, this`queue, this`conversations, this`auditCases, this`jobs, this`auditLog,
               this`deviations
      ensures id !in old(evaluations) ==> r == Some(NotFound) && Snapshot() == old(Snapshot())
      ensures id in old(evaluations) ==>
        Performed(old(Snapshot()), Snapshot(), id,
                  QaSubmit(old(At(id)), BoundForm(old(Snapshot()), id), user, adjusted, threshold, now), r)
      ensures id in old(evaluations) ==>
        IsStep(old(Snapshot()), Snapshot(), On(id, SubmitQa(user, adjusted, threshold, now)))
      ensures KeepsInv(old(Snapshot()), Snapshot())
      ensures deviations ==
        if r.Some? then old(deviations)
        else old(deviations)[id := (if id in old(deviations) then old(deviations[id]) else [])
                                   + QaRecords(show, old(evaluations[id].ev), BoundForm(old(Snapshot()), id), adjusted)]
      ensures r.None? ==> auditLog == old(auditLog) + [OnEvaluation(id, QaSubmitted, user)]
    {
      if id !in evaluations { return Some(NotFound); }
      ghost var before := Snapshot();
      var w := ReadRows(id);
      var scored, records, gap := ScoreSubmission(show, w.ev, forms[w.ev.formId], user, adjusted);
      if scored.Failure? {
        SubmissionRefused(before, id, user, adjusted, threshold, now, scored.error);
        r := Some(scored.error);
      } else {
        assert records == QaRecords(show, before.evaluations[id].ev, BoundForm(before, id), adjusted);
        AppendRecords(id, records);
        WriteSubmission(id, user, adjusted, threshold, now, w, scored.value, gap);
        r := None;
      }
    }

    /** The closing transaction of a submission. */
    method WriteSubmission(id: string, user: string, ghost adjusted: seq<Adjustment>, threshold: Option<real>, now: int,
                           w: OwnRows, result: ScoreResult, gap: real)
      requires Valid() && id in evaluations && w == OwnRowsOf(At(id))
      requires QaScored(w.ev, BoundForm(Snapshot(), id), user, adjusted) == Success(result)
      requires gap == ScoreGap(result.overallScore, w.ev.aiScore)
      modifies this`evaluations, this`queue, this`conversations, this`auditCases, this`jobs, this`auditLog
      ensures Performed(old(Snapshot()), Snapshot(), id,
                        QaSubmit(old(At(id)), BoundForm(old(Snapshot()), id), user, adjusted, threshold, now), None)
      ensures IsStep(old(Snapshot()), Snapshot(), On(id, SubmitQa(user, adjusted, threshold, now)))
      ensures KeepsInv(old(Snapshot()), Snapshot())
      ensures auditLog == old(auditLog) + [OnEvaluation(id, QaSubmitted, user)]
    {
      ghost var before := Snapshot();
      var escalate := Escalates(gap, threshold);
      Update(id, w.(ev := SubmittedEvaluation(w.ev, result, escalate), row := SubmittedRow(w.row, escalate, now)),
             [OnEvaluation(id, QaSubmitted, user)]);
      SubmissionWritten(before, Snapshot(), id, user, adjusted, threshold, now, result);
    }

    static function VerifierRecords(show: real -> string, ev: Evaluation, form: Form,
      modified: seq<Adjustment>): seq<Deviation> {
      var base := AnswersIn(ev.qaLayer);
      Deviations(QaVsVerifier, show, form.questions, base, modified, ev.qaScore,
                 ScoreOn(form, Overlay(base, modified)).overallScore)
    }

    static method ScoreModification(show: real -> string, ev: Evaluation, form: Form, user: string,
      modified: seq<Adjustment>)
      returns (r: Result<ScoreResult, Error>, records: seq<Deviation>, gap: real)
      ensures r == VerifierScored(ev, form, user, modified)
      ensures r.Success? ==>
        records == VerifierRecords(show, ev, form, modified) && gap == ScoreGap(r.value.overallScore, ev.qaScore)
      ensures r.Success? && DistinctKeys(modified) ==>
        && Outcomes.LaidOver(Outcomes.Stored(ev.qaLayer), modified, r.value.answers)
        && Outcomes.HoldsScore(LayerOf(r.value), form)
    {
      if ev.state != VerifierInProgress { return Failure(InvalidState), [], 0.0; }
      if ev.verifierUser != Some(user) { return Failure(NotClaimedByYou), [], 0.0; }
      var merged := MergeVerifier(AnswersIn(ev.qaLayer), modified);
      if merged.Failure? {
        var i: nat :| i < |modified| && !HasReason(modified[i].overrideReason) && merged.error == modified[i].key
                      && forall j :: 0 <= j < i ==> HasReason(modified[j].overrideReason);
        FirstWithoutIs(modified, i);
        return Failure(MissingOverrideReason(merged.error)), [], 0.0;
      }
      var result := ScoreForm(merged.value, form.questions, form.sections, form.strategy);
      records, gap := RecordDeviations(QaVsVerifier, show, form.questions, AnswersIn(ev.qaLayer), modified, ev.qaScore,
                                       result.overallScore);
      if DistinctKeys(modified) { Outcomes.OverlayLaysOver(Outcomes.Stored(ev.qaLayer), modified); }
      r := Success(result);
    }

    method ModifyVerification(id: string, user: string, modified: seq<Adjustment>, threshold: Option<real>, now: int)
      returns (r: Option<Error>)
      requires Valid()
      modifies this`evaluations, this`queue, this`conversations, this`auditCases, this`jobs, this`auditLog,
               this`deviations
      ensures id !in old(evaluations) ==> r == Some(NotFound) && Snapshot() == old(Snapshot())
      ensures id in old(evaluations) ==>
        Performed(old(Snapshot()), Snapshot(), id,
                  VerifierModify(old(At(id)), BoundForm(old(Snapshot()), id), user, modified, threshold, now), r)
      ensures id in old(evaluations) ==>
        IsStep(old(Snapshot()), Snapshot(), On(id, Modify(user, modified, threshold, now)))
      ensures KeepsInv(old(Snapshot()), Snapshot())
      ensures deviations ==
        if r.Some? then old(deviations)
        else old(deviations)[id := (if id in old(deviations) then old(deviations[id]) else [])
                                   + VerifierRecords(show, old(evaluations[id].ev), BoundForm(old(Snapshot()), id),
                                                     modified)]
      ensures r.None? ==> auditLog == old(auditLog) + [OnEvaluation(id, VerifierModified, user)]
    {
      if id !in evaluations { return Some(NotFound); }
      ghost var before := Snapshot();
      var w := ReadRows(id);
      var scored, records, gap := ScoreModification(show, w.ev, forms[w.ev.formId], user, modified);
      if scored.Failure? {
        ModificationRefused(before, id, user, modified, threshold, now, scored.error);
        r := Some(scored.error);
      } else {
        assert records == VerifierRecords(show, before.evaluations[id].ev, BoundForm(before, id), modified);
        AppendRecords(id, records);
        WriteModification(id, user, modified, threshold, now, w, scored.value, gap);
        r := None;
      }
    }

    /** The closing transaction of a modification. */
    method WriteModification(id: string, user: string, ghost modified: seq<Adjustment>, threshold: Option<real>,
                             now: int, w: OwnRows, result: ScoreResult, gap: real)
      requires Valid() && id in evaluations && w == OwnRowsOf(At(id))
      requires VerifierScored(w.ev, BoundForm(Snapshot(), id), user, modified) == Success(result)
      requires gap == ScoreGap(result.overallScore, w.ev.qaScore)
      modifies this`evaluations, this`queue, this`conversations, this`auditCases, this`jobs, this`auditLog
      ensures Performed(old(Snapshot()), Snapshot(), id,
                        VerifierModify(old(At(id)), BoundForm(old(Snapshot()), id), user, modified, threshold, now),
                        None)
      ensures IsStep(old(Snapshot()), Snapshot(), On(id, Modify(user, modified, threshold, now)))
      ensures KeepsInv(old(Snapshot()), Snapshot())
      ensures auditLog == old(auditLog) + [OnEvaluation(id, VerifierModified, user)]
    {
      ghost var before := Snapshot();
      Update(id, w.(ev := ModifiedEvaluation(w.ev, result), audit := ModifiedAudit(w.audit, gap, threshold),
                    row := ModifiedRow(w.row, gap, threshold, now), conv := Completed),
             [OnEvaluation(id, VerifierModified, user)]);
      ModificationWritten(before, Snapshot(), id, user, modified, threshold, now, result);
    }

    // ---------------------------------------------------------------------
    // The AI worker

    method SkipAiStage(id: string, j: nat, now: int)
      requires Valid() && id in jobs && j < |jobs[id]|
      modifies this`evaluations, this`queue, this`conversations, this`auditCases, this`jobs, this`auditLog
      ensures Replaced(old(Snapshot()), Snapshot(), id, SkipAi(old(At(id)), j, now))
      ensures IsStep(old(Snapshot()), Snapshot(), On(id, JobSkips(j, now)))
      ensures KeepsInv(old(Snapshot()), Snapshot())
    {
      ghost var before := Snapshot();
      var w := ReadRows(id);
      UpdateSilently(id, w.(ev := w.ev.(state := QaPending), row := Moved(w.row, QaQueue, 5, now), conv := QaReview,
                            jobs := FinishJob(w.jobs, j)));
      SkipIsStep(before, Snapshot(), id, j, now);
    }

    method BeginAiStage(id: string, j: nat)
      requires Valid() && id in jobs && j < |jobs[id]|
      modifies this`evaluations, this`queue, this`conversations, this`auditCases, this`jobs, this`auditLog
      ensures Replaced(old(Snapshot()), Snapshot(), id, BeginAi(old(At(id))))
      ensures IsStep(old(Snapshot()), Snapshot(), On(id, JobBegins(j)))
      ensures KeepsInv(old(Snapshot()), Snapshot())
    {
      ghost var before := Snapshot();
      var w := ReadRows(id);
      UpdateSilently(id, w.(ev := w.ev.(state := AiInProgress), conv := Evaluating));
      BeginIsStep(before, Snapshot(), id, j);
    }

    /** questions is the loaded form's array, which the prompt builder sorts
        where it stands before the model is called. */
    static method ScoreReply(form: Form, questions: array<Question>, reply: Option<seq<RawAnswer>>)
      returns (scored: Option<ScoreResult>)
      requires questions[..] == form.questions
      modifies questions
      ensures scored == AiScored(form, reply)
      ensures scored.Some? <==> reply.Some? && Outcomes.Accepted(reply.value, form.questions)
      ensures scored.Some? && Outcomes.DistinctReply(reply.value) ==>
        Outcomes.Holds(LayerOf(scored.value), form, reply.value)
      ensures questions[..] == StableSort(ByOrder(), form.questions)
    {
      SortQuestions(questions);
      if reply.None? { return None; }
      SortKeepsReplies(reply.value, form.questions);
      Outcomes.AcceptedIff(reply.value, form.questions);
      var error := ValidateLlmAnswers(reply.value, questions[..]);
      if error.Some? { return None; }
      var answers := CollectAnswers(reply.value);
      SortKeepsScore(answers, form.questions, form.sections, form.strategy);
      var result := ScoreForm(answers, questions[..], form.sections, form.strategy);
      scored := Some(result);
      if Outcomes.DistinctReply(reply.value) { Outcomes.HoldsReply(form, reply.value); }
    }

    /** The closing transaction of an attempt. */
    method WriteAttempt(id: string, j: nat, reply: Option<seq<RawAnswer>>, scored: Option<ScoreResult>, now: int)
      requires Valid() && id in jobs && j < |jobs[id]| && jobs[id][j].formId in forms
      requires scored == AiScored(forms[jobs[id][j].formId], reply)
      modifies this`evaluations, this`queue, this`conversations, this`auditCases, this`jobs, this`auditLog
      ensures Replaced(old(Snapshot()), Snapshot(), id,
                       EndAi(old(At(id)), j, old(forms[jobs[id][j].formId]), reply, now))
    {
      var w := ReadRows(id);
      var raw := reply.GetOr([]);
      UpdateSilently(id, w.(ev := AiEvaluation(w.ev, scored, LeastConfidence(raw)),
                            row := AiRow(w.row, scored, QueuePriority(raw), now),
                            conv := if scored.Some? then QaReview else Failed,
                            jobs := if scored.Some? then FinishJob(w.jobs, j) else FailJob(w.jobs, j)));
    }

    method EndAiStage(id: string, j: nat, questions: array<Question>, reply: Option<seq<RawAnswer>>, now: int)
      requires Valid() && id in jobs && j < |jobs[id]|
      requires jobs[id][j].formId in forms && questions[..] == forms[jobs[id][j].formId].questions
      modifies this`evaluations, this`queue, this`conversations, this`auditCases, this`jobs, this`auditLog, questions
      ensures Replaced(old(Snapshot()), Snapshot(), id,
                       EndAi(old(At(id)), j, old(forms[jobs[id][j].formId]), reply, now))
      ensures IsStep(old(Snapshot()), Snapshot(), On(id, JobEnds(j, reply, now)))
      ensures KeepsInv(old(Snapshot()), Snapshot())
    {
      ghost var before := Snapshot();
      var scored := ScoreReply(forms[jobs[id][j].formId], questions, reply);
      assert Snapshot() == before;
      WriteAttempt(id, j, reply, scored, now);
      EndIsStep(before, Snapshot(), id, j, reply, now);
    }

    // ---------------------------------------------------------------------
    // Creation, backfill and remap

    /** One conversation of an upload, unless it has an evaluation already. */
    method EvaluateUpload(id: string, conv: string, formId: string, version: int, llmEnabled: bool, queueUp: bool,
                          enqueued: bool, now: int)
      returns (created: bool)
      requires Valid() && id !in evaluations && conv in conversations && formId in forms
      modifies this`evaluations, this`queue, this`conversations, this`auditCases, this`jobs, this`auditLog
      ensures created == Unevaluated(old(evaluations), conv)
      ensures if created then Replaced(old(Snapshot()), Snapshot(), id,
                                       Uploaded(formId, version, llmEnabled, queueUp, enqueued, now))
              else Snapshot() == old(Snapshot())
      ensures created ==>
        OwnerAdded(old(evaluations), evaluations, id, conv) && SameChannels(old(conversations), conversations)
      ensures KeepsInv(old(Snapshot()), Snapshot())
    {
      ghost var before := Snapshot();
      created := Unevaluated(evaluations, conv);
      if !created { return; }
      NoLogYet(auditLog, id);
      var status := conversations[conv].status;
      var w :=
        if !llmEnabled then OwnRows(Fresh(formId, version, QaPending), Some(NewRow(QaQueue, None, 5, now)), QaReview,
                                    None, [])
        else if queueUp then OwnRows(Fresh(formId, version, AiPending), None, Evaluating, None, if enqueued
                                     then [Job(3, formId)] else [])
        else OwnRows(Fresh(formId, version, AiPending), None, status, None, []);
      assert w.With([] + Actions([])) == Uploaded(formId, version, llmEnabled, queueUp, enqueued, now);
      Write(id, conv, w, []);
      CreationKeepsInv(before, Snapshot(), id, formId, version, ByUpload(llmEnabled, queueUp, enqueued, now));
    }

    /** One ingested conversation, unless it has an evaluation already. */
    method EvaluateIngested(id: string, conv: string, formId: string, version: int, enqueued: bool)
      returns (created: bool)
      requires Valid() && id !in evaluations && conv in conversations && formId in forms
      modifies this`evaluations, this`queue, this`conversations, this`auditCases, this`jobs, this`auditLog
      ensures created == Unevaluated(old(evaluations), conv)
      ensures if created then Replaced(old(Snapshot()), Snapshot(), id, Ingested(formId, version, enqueued))
              else Snapshot() == old(Snapshot())
      ensures created ==>
        OwnerAdded(old(evaluations), evaluations, id, conv) && SameChannels(old(conversations), conversations)
      ensures KeepsInv(old(Snapshot()), Snapshot())
    {
      ghost var before := Snapshot();
      created := Unevaluated(evaluations, conv);
      if !created { return; }
      NoLogYet(auditLog, id);
      var w := OwnRows(Fresh(formId, version, AiPending), None, conversations[conv].status, None,
                      if enqueued then [Job(3, formId)] else []);
      assert w.With([] + Actions([])) == Ingested(formId, version, enqueued);
      Write(id, conv, w, []);
      CreationKeepsInv(before, Snapshot(), id, formId, version, ByIngest(enqueued));
    }

    /** An evaluation that a backfill finds: handed to QA if it waits for a
        model that is not enabled. */
    method UnstickEvaluation(e: string, llmEnabled: bool, now: int) returns (processed: bool)
      requires Valid() && e in evaluations && conversations[evaluations[e].conversationId].status == Pending
      modifies this`evaluations, this`queue, this`conversations, this`auditCases, this`jobs, this`auditLog
      ensures processed == (old(evaluations[e].ev.state) == AiPending && !llmEnabled)
      ensures if processed then Replaced(old(Snapshot()), Snapshot(), e, Unstick(old(At(e)), llmEnabled, now))
              else Snapshot() == old(Snapshot()) && Unstick(old(At(e)), llmEnabled, now) == old(At(e))
      ensures processed ==> OwnerAdded(old(evaluations), evaluations, e, old(evaluations[e].conversationId))
      ensures processed ==> SameChannels(old(conversations), conversations)
      ensures llmEnabled || JobsOf(old(jobs), e) == [] ==> KeepsInv(old(Snapshot()), Snapshot())
    {
      ghost var before := Snapshot();
      var w := ReadRows(e);
      processed := w.ev.state == AiPending && !llmEnabled;
      if processed {
        UpdateSilently(e, w.(ev := w.ev.(state := QaPending), row := Moved(w.row, QaQueue, 5, now), conv := QaReview));
        UnstickKeepsInv(before, Snapshot(), e, llmEnabled, now);
      }
    }

    /** A conversation that a backfill finds without an evaluation: as for an
        ingest while the model is enabled, and otherwise as for an upload. */
    method EvaluatePending(id: string, conv: string, formId: string, version: int, llmEnabled: bool, enqueued: bool,
                           now: int)
      requires Valid() && id !in evaluations && conv in conversations && conversations[conv].status == Pending
      requires formId in forms && Unevaluated(evaluations, conv)
      modifies this`evaluations, this`queue, this`conversations, this`auditCases, this`jobs, this`auditLog
      ensures Replaced(old(Snapshot()), Snapshot(), id, Backfilled(formId, version, llmEnabled, enqueued, now))
      ensures OwnerAdded(old(evaluations), evaluations, id, conv) && SameChannels(old(conversations), conversations)
      ensures KeepsInv(old(Snapshot()), Snapshot())
    {
      var created;
      if llmEnabled {
        created := EvaluateIngested(id, conv, formId, version, enqueued);
      } else {
        created := EvaluateUpload(id, conv, formId, version, false, false, false, now);
      }
    }

    /** One PENDING conversation of a backfill; existing is its evaluation, if
        it has one, and formId the published form of its channel. */
    method BackfillConversation(id: string, conv: string, existing: Option<string>, form: Option<(string, int)>,
                                llmEnabled: bool, enqueued: bool, now: int) returns (processed: bool)
      requires Valid() && id !in evaluations && conv in conversations && conversations[conv].status == Pending
      requires form.Some? ==> form.value.0 in forms
      requires match existing
               case Some(e) => e in evaluations && evaluations[e].conversationId == conv
               case None => Unevaluated(evaluations, conv)
      modifies this`evaluations, this`queue, this`conversations, this`auditCases, this`jobs, this`auditLog
      ensures existing.Some? ==>
        && processed == (old(evaluations[existing.value].ev.state) == AiPending && !llmEnabled)
        && (if processed then Replaced(old(Snapshot()), Snapshot(), existing.value,
                                       Unstick(old(At(existing.value)), llmEnabled, now))
            else
              && Snapshot() == old(Snapshot())
              && Unstick(old(At(existing.value)), llmEnabled, now) == old(At(existing.value)))
      ensures existing.None? ==>
        && processed == form.Some?
        && (if processed then Replaced(old(Snapshot()), Snapshot(), id,
                                       Backfilled(form.value.0, form.value.1, llmEnabled, enqueued, now))
            else Snapshot() == old(Snapshot()))
      ensures processed ==> OwnerAdded(old(evaluations), evaluations, existing.GetOr(id), conv)
      ensures processed ==> SameChannels(old(conversations), conversations)
      ensures llmEnabled || existing.None? || JobsOf(old(jobs), existing.value) == [] ==>
        KeepsInv(old(Snapshot()), Snapshot())
    {
      processed := false;
      if existing.Some? {
        processed := UnstickEvaluation(existing.value, llmEnabled, now);
      } else if form.Some? {
        EvaluatePending(id, conv, form.value.0, form.value.1, llmEnabled, enqueued, now);
        processed := true;
      }
    }

    method RemapEvaluation(id: string, replacement: Option<(string, int)>) returns (remapped: bool)
      requires Valid() && id in evaluations && (replacement.Some? ==> replacement.value.0 in forms)
      modifies this`evaluations, this`queue, this`conversations, this`auditCases, this`jobs, this`auditLog
      ensures Replaced(old(Snapshot()), Snapshot(), id, Remap(old(At(id)), BoundForm(old(Snapshot()), id), replacement))
      ensures remapped <==> Remap(old(At(id)), BoundForm(old(Snapshot()), id), replacement) != old(At(id))
      ensures !remapped ==> Snapshot() == old(Snapshot())
      ensures OwnerAdded(old(evaluations), evaluations, id, old(evaluations[id].conversationId))
      ensures SameChannels(old(conversations), conversations)
      ensures KeepsInv(old(Snapshot()), Snapshot())
    {
      ghost var before := Snapshot();
      var w := ReadRows(id);
      remapped := w.ev.state == QaPending && Corrupted(forms[w.ev.formId]) && replacement.Some?
                  && replacement.value != (w.ev.formId, w.ev.formVersion);
      if remapped {
        UpdateSilently(id, w.(ev := w.ev.(formId := replacement.value.0, formVersion := replacement.value.1)));
        RemapKeeps(before, Snapshot(), id, replacement);
      } else {
        NothingReplaced(before, id);
      }
    }

    // ---------------------------------------------------------------------
    // Stale items

    method EscalateItem(id: string, now: int, staleHours: Option<int>)
      requires Valid() && id in queue && IsStale(queue[id], now, staleHours.GetOr(24))
      modifies this`evaluations, this`queue, this`conversations, this`auditCases, this`jobs, this`auditLog
      ensures Replaced(old(Snapshot()), Snapshot(), id, Sweep(old(At(id)), now, staleHours))
      ensures IsStep(old(Snapshot()), Snapshot(), On(id, StaleCheck(now, staleHours)))
      ensures KeepsInv(old(Snapshot()), Snapshot())
      ensures !old(evaluations[id].ev.isEscalated) ==>
        auditLog == old(auditLog) + [OnEvaluation(id, StaleEscalation, "system")]
    {
      ghost var before := Snapshot();
      var w := ReadRows(id);
      if w.ev.isEscalated {
        NothingReplaced(before, id);
      } else {
        Update(id, w.(row := Some(w.row.value.(queueType := EscalationQueue, priority := 1)),
                      ev := w.ev.(isEscalated := true)),
               [OnEvaluation(id, StaleEscalation, "system")]);
      }
      SweepIsStep(before, Snapshot(), id, now, staleHours);
    }

    /** items is the answer of the query for stale rows. */
    method EscalateStaleItems(items: seq<string>, now: int, staleHours: Option<int>)
      requires Valid() && Distinct(items)
      requires forall id :: id in items <==> id in queue && IsStale(queue[id], now, staleHours.GetOr(24))
      modifies this`evaluations, this`queue, this`conversations, this`auditCases, this`jobs, this`auditLog
      ensures Valid() && forms == old(forms)
      ensures CasesOf(Snapshot()) == SweptCases(CasesOf(old(Snapshot())), now, staleHours)
      ensures KeepsInv(old(Snapshot()), Snapshot())
    {
      ghost var before := Snapshot();
      for i := 0 to |items|
        invariant SweptSoFar(before, Snapshot(), items, i, now, staleHours)
      {
        ghost var mid := Snapshot();
        StillThere(before, mid, items, i, now, staleHours);
        EscalateItem(items[i], now, staleHours);
        SweptOne(before, mid, Snapshot(), items, i, now, staleHours);
      }
      SweptAll(before, Snapshot(), items, now, staleHours);
      if Inv(SystemOf(before)) { SweepingKeepsInv(SystemOf(before), now, staleHours); }
    }

    // ---------------------------------------------------------------------
    // Round-robin assignment

    method WriteAssignees(queueType: QueueType, assignments: seq<Assignment>)
      requires Waiting(Snapshot(), queueType, assignments)
      modifies this`queue
      ensures queue == Assign(old(queue), assignments)
    {
      ghost var before := Snapshot();
      for i := 0 to |assignments|
        invariant queue == Assign(before.queue, assignments[..i])
      {
        var a := assignments[i];
        FirstWait(before, queueType, assignments, i + 1);
        FrontWaits(before, queueType, assignments[..i + 1]);
        assert assignments[..i + 1][..i] == assignments[..i];
        queue := queue[a.evaluationId := queue[a.evaluationId].(assignedTo := Some(a.userId))];
      }
      assert assignments[..|assignments|] == assignments;
    }

    method WriteOwners(queueType: QueueType, assignments: seq<Assignment>)
      requires forall a :: a in assignments ==> a.evaluationId in evaluations
      modifies this`evaluations
      ensures evaluations == Owners(old(evaluations), queueType, assignments)
    {
      for i := 0 to |assignments|
        invariant evaluations == Owners(old(evaluations), queueType, assignments[..i])
      {
        var a := assignments[i];
        assert assignments[..i + 1][..i] == assignments[..i];
        var row := evaluations[a.evaluationId];
        var ev :=
          if queueType == QaQueue then row.ev.(state := QaInProgress, qaUser := Some(a.userId))
          else row.ev.(state := VerifierInProgress, verifierUser := Some(a.userId));
        evaluations := evaluations[a.evaluationId := row.(ev := ev)];
      }
      assert assignments[..|assignments|] == assignments;
    }

    method WriteBatch(queueType: QueueType, assignments: seq<Assignment>, actor: string)
      requires Valid() && Waiting(Snapshot(), queueType, assignments)
      modifies this`evaluations, this`queue, this`auditLog
      ensures queue == Assign(old(queue), assignments)
      ensures Valid() && CasesOf(Snapshot()) == DealtCases(CasesOf(old(Snapshot())), queueType, assignments)
      ensures queueType in {QaQueue, VerifierQueue} ==> KeepsInv(old(Snapshot()), Snapshot())
      ensures auditLog == old(auditLog) + [RoundRobinDone(queueType, |assignments|, actor)]
    {
      ghost var before := Snapshot();
      WriteAssignees(queueType, assignments);
      WriteOwners(queueType, assignments);
      auditLog := auditLog + [RoundRobinDone(queueType, |assignments|, actor)];
      assert Snapshot() == BatchDb(before, queueType, assignments, actor);
      BatchWritten(before, queueType, assignments, actor);
    }

    /** users are the eligible users in order of creation, items the selected
        rows in order of priority, and counts the answer of the count query. */
    method AssignRoundRobin(queueType: QueueType, users: seq<string>, items: seq<string>, counts: seq<Count>,
                            actor: string)
      returns (r: Result<seq<Assignment>, Error>, sorted: seq<string>)
      requires Valid() && CountsOf(counts, queue, queueType) && Selected(items, queue, queueType)
      modifies this`evaluations, this`queue, this`auditLog
      ensures queueType !in {QaQueue, VerifierQueue} ==> r == Failure(InvalidQueueType)
      ensures queueType in {QaQueue, VerifierQueue} && users == [] ==> r == Failure(NoEligibleUsers)
      ensures r.Failure? || items == [] ==> Snapshot() == old(Snapshot())
      ensures queueType in {QaQueue, VerifierQueue} && users != [] && items == [] ==> r == Success([])
      ensures queueType in {QaQueue, VerifierQueue} && users != [] && items != [] ==>
        && InTurn(users, sorted, old(queue), queueType)
        && r == Success(Dealt(items, sorted)) && Waiting(old(Snapshot()), queueType, r.value)
        && queue == Assign(old(queue), r.value)
        && Valid() && CasesOf(Snapshot()) == DealtCases(CasesOf(old(Snapshot())), queueType, r.value)
      ensures KeepsInv(old(Snapshot()), Snapshot())
      ensures r.Success? && items != [] ==> auditLog == old(auditLog) + [RoundRobinDone(queueType, |items|, actor)]
    {
      if queueType != QaQueue && queueType != VerifierQueue { return Failure(InvalidQueueType), []; }
      if users == [] { return Failure(NoEligibleUsers), []; }
      if items == [] { return Success([]), users; }
      var assignments;
      sorted, assignments := Deal(users, items, counts, queue, queueType);
      ItemsOfDealt(items, sorted);
      assert Items(assignments) == items;
      WriteBatch(queueType, assignments, actor);
      r := Success(assignments);
    }
  }
}
