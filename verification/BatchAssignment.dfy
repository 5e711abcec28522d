/** The batch update of round-robin assignment over the tables: row by row it
    is one assignment step of the workflow for each dealt item. */
module BatchAssignment {
  import opened Wrappers
  import opened Workflow
  import opened WorkflowRuns
  import opened RoundRobin
  import opened Tables

  /** The evaluation table after the batch update. */
  function Owners(rows: Rows, queueType: QueueType, assignments: seq<Assignment>): (after: Rows)
    requires forall a :: a in assignments ==> a.evaluationId in rows
    ensures after.Keys == rows.Keys
  {
    if assignments == [] then rows
    else
      var last := assignments[|assignments| - 1];
      var front := Owners(rows, queueType, assignments[..|assignments| - 1]);
      front[last.evaluationId := front[last.evaluationId].(ev := TakenOver(front[last.evaluationId].ev, queueType,
                                                                           last.userId))]
  }

  function DealtDb(db: Db, queueType: QueueType, assignments: seq<Assignment>): Db
    requires forall a :: a in assignments ==> a.evaluationId in db.evaluations && a.evaluationId in db.queue
  {
    db.(evaluations := Owners(db.evaluations, queueType, assignments), queue := Assign(db.queue, assignments))
  }

  /** One assignment step after the other. */
  ghost function DealtCases(cases: map<string, Case>, queueType: QueueType,
                            assignments: seq<Assignment>): (after: map<string, Case>)
    requires forall a :: a in assignments ==> a.evaluationId in cases
    ensures after.Keys == cases.Keys
  {
    if assignments == [] then cases
    else
      var last := assignments[|assignments| - 1];
      var front := DealtCases(cases, queueType, assignments[..|assignments| - 1]);
      front[last.evaluationId := RoundRobinAssign(front[last.evaluationId], queueType, last.userId)]
  }

  ghost predicate Waiting(db: Db, queueType: QueueType, assignments: seq<Assignment>) {
    && Selected(Items(assignments), db.queue, queueType)
    && forall a :: a in assignments ==> a.evaluationId in db.queue && a.evaluationId in db.evaluations
  }

  lemma FirstWait(db: Db, queueType: QueueType, assignments: seq<Assignment>, n: nat)
    requires Waiting(db, queueType, assignments) && n <= |assignments|
    ensures Waiting(db, queueType, assignments[..n])
  {
    forall i | 0 <= i < n ensures Items(assignments[..n])[i] == Items(assignments)[i] { }
    forall id | id in Items(assignments[..n]) ensures id in Items(assignments) {
      var i :| 0 <= i < n && Items(assignments[..n])[i] == id;
      assert Items(assignments)[i] == id;
    }
  }

  lemma FrontWaits(db: Db, queueType: QueueType, assignments: seq<Assignment>)
    requires Waiting(db, queueType, assignments) && assignments != []
    ensures var front, last := assignments[..|assignments| - 1], assignments[|assignments| - 1];
            && Waiting(db, queueType, front)
            && Assign(db.queue, front).Keys == db.queue.Keys
            && Assign(db.queue, front)[last.evaluationId] == db.queue[last.evaluationId]
            && Unassigned(Some(db.queue[last.evaluationId]), queueType)
  {
    var front, last := assignments[..|assignments| - 1], assignments[|assignments| - 1];
    LastIsNew(assignments);
    AssignRows(db.queue, front);
    assert Items(assignments)[|front|] == last.evaluationId;
  }

  /** Writing one queue row and its evaluation. */
  function DealtOne(db: Db, queueType: QueueType, id: string, user: string): Db
    requires id in db.evaluations && id in db.queue
  {
    db.(evaluations := db.evaluations[id :=
                                      db.evaluations[id].(ev := TakenOver(db.evaluations[id].ev, queueType, user))],
        queue := db.queue[id := db.queue[id].(assignedTo := Some(user))])
  }

  lemma StatusAgain(m: Conversations, conv: string)
    requires conv in m
    ensures m[conv := m[conv].(status := m[conv].status)] == m
  {
  }

  lemma WroteAgain<V>(m: map<string, V>, id: string)
    ensures Wrote(m, m, id, Find(m, id))
  {
  }

  lemma OnePut(db: Db, queueType: QueueType, id: string, user: string, c: Case)
    requires Consistent(db) && id in db.evaluations && id in db.queue && c == CaseAt(db, id)
    ensures Put(db, DealtOne(db, queueType, id, user), id, db.evaluations[id].conversationId,
                c.(row := Some(db.queue[id].(assignedTo := Some(user))), ev := TakenOver(c.ev, queueType, user)), [])
  {
    var conv := db.evaluations[id].conversationId;
    StatusAgain(db.conversations, conv);
    WroteAgain(db.auditCases, id);
    assert db.auditLog + [] == db.auditLog;
  }

  lemma OneIsAssignment(db: Db, queueType: QueueType, id: string, user: string)
    requires Consistent(db) && id in db.evaluations && id in db.queue && Unassigned(Some(db.queue[id]), queueType)
    ensures Replaced(db, DealtOne(db, queueType, id, user), id, RoundRobinAssign(CaseAt(db, id), queueType, user))
  {
    var conv, c := db.evaluations[id].conversationId, CaseAt(db, id);
    assert c.log + Actions([]) == c.log;
    OnePut(db, queueType, id, user, c);
    PutReplaces(db, DealtOne(db, queueType, id, user), id, conv, RoundRobinAssign(c, queueType, user), []);
  }

  lemma LastDealt(db: Db, queueType: QueueType, assignments: seq<Assignment>)
    requires Waiting(db, queueType, assignments) && assignments != []
    ensures var front, last := assignments[..|assignments| - 1], assignments[|assignments| - 1];
            && Waiting(db, queueType, front)
            && var mid := DealtDb(db, queueType, front);
               && last.evaluationId in mid.evaluations && last.evaluationId in mid.queue
               && Unassigned(Some(mid.queue[last.evaluationId]), queueType)
               && DealtDb(db, queueType, assignments) == DealtOne(mid, queueType, last.evaluationId, last.userId)
  {
    FrontWaits(db, queueType, assignments);
  }

  /** Writing the batch is dealing the cases one after the other. */
  lemma {:induction false} BatchIsDealing(db: Db, queueType: QueueType, assignments: seq<Assignment>)
    requires Consistent(db) && Waiting(db, queueType, assignments)
    ensures Consistent(DealtDb(db, queueType, assignments))
    ensures CasesOf(DealtDb(db, queueType, assignments)) == DealtCases(CasesOf(db), queueType, assignments)
  {
    if assignments != [] {
      var front, last := assignments[..|assignments| - 1], assignments[|assignments| - 1];
      LastDealt(db, queueType, assignments);
      BatchIsDealing(db, queueType, front);
      OneIsAssignment(DealtDb(db, queueType, front), queueType, last.evaluationId, last.userId);
    }
  }

  /** Dealing is a run of assignment steps, so the invariant survives it. */
  lemma {:induction false} DealingKeepsInv(s: System, queueType: QueueType, assignments: seq<Assignment>)
    requires Inv(s) && queueType in {QaQueue, VerifierQueue}
    requires forall a :: a in assignments ==> a.evaluationId in s.cases
    ensures Inv(s.(cases := DealtCases(s.cases, queueType, assignments)))
  {
    if assignments != [] {
      var front, last := assignments[..|assignments| - 1], assignments[|assignments| - 1];
      DealingKeepsInv(s, queueType, front);
      var mid := s.(cases := DealtCases(s.cases, queueType, front));
      var e := AutoAssign(queueType, last.userId);
      StepKeepsInv(mid, On(last.evaluationId, e));
      NextOn(mid, last.evaluationId, e, RoundRobinAssign(mid.cases[last.evaluationId], queueType, last.userId));
    }
  }

  lemma BatchKeepsInv(before: Db, after: Db, queueType: QueueType, assignments: seq<Assignment>)
    requires Consistent(before) && Consistent(after) && after.forms == before.forms
    requires forall a :: a in assignments ==> a.evaluationId in CasesOf(before)
    requires CasesOf(after) == DealtCases(CasesOf(before), queueType, assignments)
    ensures queueType in {QaQueue, VerifierQueue} ==> KeepsInv(before, after)
  {
    if queueType in {QaQueue, VerifierQueue} && Inv(SystemOf(before)) {
      DealingKeepsInv(SystemOf(before), queueType, assignments);
    }
  }

  /** The closing entry belongs to no evaluation. */
  lemma SummaryChangesNothing(db: Db, queueType: QueueType, total: nat, actor: string)
    requires Consistent(db)
    ensures var after := db.(auditLog := db.auditLog + [RoundRobinDone(queueType, total, actor)]);
            Consistent(after) && CasesOf(after) == CasesOf(db)
  {
    var after := db.(auditLog := db.auditLog + [RoundRobinDone(queueType, total, actor)]);
    forall id | id in db.evaluations ensures LogOf(after.auditLog, id) == LogOf(db.auditLog, id) {
      LogOfAppend(db.auditLog, RoundRobinDone(queueType, total, actor), id);
    }
    assert Consistent(after);
    forall id | id in db.evaluations ensures CaseAt(after, id) == CaseAt(db, id) { }
  }

  /** The tables once a whole batch is written, with its closing entry. */
  function BatchDb(db: Db, queueType: QueueType, assignments: seq<Assignment>, actor: string): Db
    requires forall a :: a in assignments ==> a.evaluationId in db.evaluations && a.evaluationId in db.queue
  {
    var dealt := DealtDb(db, queueType, assignments);
    dealt.(auditLog := dealt.auditLog + [RoundRobinDone(queueType, |assignments|, actor)])
  }

  lemma BatchWritten(db: Db, queueType: QueueType, assignments: seq<Assignment>, actor: string)
    requires Consistent(db) && Waiting(db, queueType, assignments)
    ensures var after := BatchDb(db, queueType, assignments, actor);
            && Consistent(after) && CasesOf(after) == DealtCases(CasesOf(db), queueType, assignments)
            && (queueType in {QaQueue, VerifierQueue} ==> KeepsInv(db, after))
  {
    BatchIsDealing(db, queueType, assignments);
    SummaryChangesNothing(DealtDb(db, queueType, assignments), queueType, |assignments|, actor);
    BatchKeepsInv(db, BatchDb(db, queueType, assignments, actor), queueType, assignments);
  }
}
