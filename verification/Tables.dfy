/** The tenant database tables behind the workflow, and the one evaluation
    they amount to when they are read together. */
module Tables {
  import opened Wrappers
  import opened Workflow
  import opened WorkflowRuns

  datatype Conversation = Conversation(channel: string, status: ConvStatus)

  datatype EvaluationRow = EvaluationRow(conversationId: string, ev: Evaluation)

  datatype LogEntry =
    | OnEvaluation(id: string, action: AuditAction, actor: string)
    | RoundRobinDone(queueType: QueueType, total: nat, actor: string)

  /** queue and auditCases have a unique evaluationId, so they are maps from
      it; jobs are the entries of the job queue. */
  datatype Db = Db(
    conversations: map<string, Conversation>,
    evaluations: map<string, EvaluationRow>,
    queue: map<string, QueueRow>,
    auditCases: map<string, AuditCase>,
    jobs: map<string, seq<Job>>,
    auditLog: seq<LogEntry>,
    forms: map<string, Form>)

  function LogOf(log: seq<LogEntry>, id: string): seq<AuditAction> {
    if log == [] then []
    else
      var last := log[|log| - 1];
      LogOf(log[..|log| - 1], id) + if last.OnEvaluation? && last.id == id then [last.action] else []
  }

  function Find<V>(m: map<string, V>, id: string): Option<V> {
    if id in m then Some(m[id]) else None
  }

  function JobsOf(jobs: map<string, seq<Job>>, id: string): seq<Job> {
    if id in jobs then jobs[id] else []
  }

  // ---------------------------------------------------------------------
  // What the tables keep

  type Rows = map<string, EvaluationRow>
  type Conversations = map<string, Conversation>

  ghost predicate Owned(rows: Rows, conversations: Conversations) {
    forall id :: id in rows ==> rows[id].conversationId in conversations
  }

  /** No two evaluations share a conversation. */
  ghost predicate Unshared(rows: Rows) {
    forall i, j :: i in rows && j in rows && i != j ==> rows[i].conversationId != rows[j].conversationId
  }

  predicate Unevaluated(rows: Rows, conversation: string) {
    forall id :: id in rows ==> rows[id].conversationId != conversation
  }

  /** A conversation nobody evaluates is still PENDING. */
  ghost predicate IdlePending(rows: Rows, conversations: Conversations) {
    forall c :: c in conversations && Unevaluated(rows, c) ==> conversations[c].status == Pending
  }

  /** Every form an evaluation is bound to, or a job speaks of, is there. */
  ghost predicate BoundForms(rows: Rows, forms: map<string, Form>) {
    forall id :: id in rows ==> rows[id].ev.formId in forms
  }

  ghost predicate KnownForms(forms: map<string, Form>, jobs: seq<Job>) {
    forall j :: 0 <= j < |jobs| ==> jobs[j].formId in forms
  }

  ghost predicate JobForms(jobs: map<string, seq<Job>>, forms: map<string, Form>) {
    forall id :: id in jobs ==> KnownForms(forms, jobs[id])
  }

  ghost predicate LogKnown(log: seq<LogEntry>, ids: set<string>) {
    forall k :: 0 <= k < |log| && log[k].OnEvaluation? ==> log[k].id in ids
  }

  ghost predicate KeysKnown(db: Db) {
    db.queue.Keys <= db.evaluations.Keys && db.auditCases.Keys <= db.evaluations.Keys
      && db.jobs.Keys <= db.evaluations.Keys
  }

  ghost predicate Consistent(db: Db) {
    && Owned(db.evaluations, db.conversations) && Unshared(db.evaluations)
    && IdlePending(db.evaluations, db.conversations)
    && BoundForms(db.evaluations, db.forms) && JobForms(db.jobs, db.forms)
    && LogKnown(db.auditLog, db.evaluations.Keys) && KeysKnown(db)
  }

  /** One evaluation and the rows that belong to it, as the services load and
      write them. */
  datatype OwnRows = OwnRows(ev: Evaluation, row: Option<QueueRow>, conv: ConvStatus, audit: Option<AuditCase>,
                             jobs: seq<Job>) {
    ghost function With(log: seq<AuditAction>): Case {
      Case(ev, row, conv, audit, jobs, log)
    }
  }

  ghost function OwnRowsOf(c: Case): OwnRows {
    OwnRows(c.ev, c.row, c.conv, c.audit, c.jobs)
  }

  ghost function CaseAt(db: Db, id: string): Case
    requires Consistent(db) && id in db.evaluations
  {
    Case(db.evaluations[id].ev, Find(db.queue, id), db.conversations[db.evaluations[id].conversationId].status,
         Find(db.auditCases, id), JobsOf(db.jobs, id), LogOf(db.auditLog, id))
  }

  ghost function SystemOf(db: Db): System
    requires Consistent(db)
  {
    System(CasesOf(db), db.forms)
  }

  ghost function CasesOf(db: Db): map<string, Case>
    requires Consistent(db)
  {
    map id | id in db.evaluations :: CaseAt(db, id)
  }

  lemma LogOfAppend(log: seq<LogEntry>, entry: LogEntry, id: string)
    ensures LogOf(log + [entry], id)
         == LogOf(log, id) + if entry.OnEvaluation? && entry.id == id then [entry.action] else []
  {
    assert (log + [entry])[..|log|] == log;
  }

  lemma {:induction false} NoLogYet(log: seq<LogEntry>, id: string)
    requires forall k :: 0 <= k < |log| && log[k].OnEvaluation? ==> log[k].id != id
    ensures LogOf(log, id) == []
  {
    if log != [] { NoLogYet(log[..|log| - 1], id); }
  }

  // ---------------------------------------------------------------------
  // Writing the rows of one evaluation

  ghost predicate Wrote<V>(m: map<string, V>, n: map<string, V>, id: string, v: Option<V>) {
    match v case None => n == m - {id} case Some(x) => n == m[id := x]
  }

  /** An evaluation without jobs may also have an empty list of them. */
  ghost predicate WroteJobs(m: map<string, seq<Job>>, n: map<string, seq<Job>>, id: string, own: seq<Job>) {
    n == m[id := own] || (n == m && own == JobsOf(m, id))
  }

  /** An evaluation of this conversation: the one there is, or a new one of a
      conversation that has none. */
  ghost predicate Target(db: Db, id: string, conv: string) {
    && conv in db.conversations
    && (if id in db.evaluations then db.evaluations[id].conversationId == conv else Unevaluated(db.evaluations, conv))
  }

  /** The rows of one evaluation now hold the given case; nothing else was
      written but the entries. */
  ghost predicate Put(before: Db, after: Db, id: string, conv: string, c: Case, entries: seq<LogEntry>)
    requires conv in before.conversations
  {
    && after.evaluations == before.evaluations[id := EvaluationRow(conv, c.ev)]
    && after.conversations == before.conversations[conv := before.conversations[conv].(status := c.conv)]
    && Wrote(before.queue, after.queue, id, c.row)
    && Wrote(before.auditCases, after.auditCases, id, c.audit)
    && WroteJobs(before.jobs, after.jobs, id, c.jobs)
    && after.auditLog == before.auditLog + entries
    && after.forms == before.forms
  }

  /** At most one entry, about this evaluation. */
  predicate Entry(entries: seq<LogEntry>, id: string) {
    |entries| <= 1 && (|entries| == 1 ==> entries[0].OnEvaluation? && entries[0].id == id)
  }

  function Actions(entries: seq<LogEntry>): seq<AuditAction>
    requires |entries| <= 1 && (|entries| == 1 ==> entries[0].OnEvaluation?)
  {
    if entries == [] then [] else [entries[0].action]
  }

  lemma LogOfEntries(log: seq<LogEntry>, entries: seq<LogEntry>, id: string, k: string)
    requires Entry(entries, id)
    ensures LogOf(log + entries, k) == LogOf(log, k) + if k == id then Actions(entries) else []
  {
    if entries == [] {
      assert log + entries == log;
    } else {
      assert entries == [entries[0]];
      LogOfAppend(log, entries[0], k);
    }
  }

  lemma WroteFind<V>(m: map<string, V>, n: map<string, V>, id: string, v: Option<V>, k: string)
    requires Wrote(m, n, id, v)
    ensures Find(n, k) == if k == id then v else Find(m, k)
  {
  }

  lemma JobsFind(m: map<string, seq<Job>>, n: map<string, seq<Job>>, id: string, own: seq<Job>, k: string)
    requires WroteJobs(m, n, id, own)
    ensures JobsOf(n, k) == if k == id then own else JobsOf(m, k)
  {
  }

  lemma WroteKeys<V>(m: map<string, V>, n: map<string, V>, id: string, v: Option<V>, ids: set<string>)
    requires Wrote(m, n, id, v) && m.Keys <= ids && id in ids
    ensures n.Keys <= ids
  {
  }

  lemma KeysAfter<V>(m: map<string, V>, id: string, v: V)
    ensures m[id := v].Keys == m.Keys + {id}
  {
  }

  lemma FormsAfter(rows: Rows, jobs: map<string, seq<Job>>, forms: map<string, Form>, id: string, row: EvaluationRow,
                   own: seq<Job>)
    requires BoundForms(rows, forms) && row.ev.formId in forms && JobForms(jobs, forms) && KnownForms(forms, own)
    ensures BoundForms(rows[id := row], forms) && JobForms(jobs[id := own], forms)
  {
  }

  lemma LogAfter(log: seq<LogEntry>, entries: seq<LogEntry>, id: string, ids: set<string>)
    requires LogKnown(log, ids) && Entry(entries, id) && id in ids
    ensures LogKnown(log + entries, ids)
  {
  }

  lemma RowsAfter(rows: Rows, conversations: Conversations, id: string, row: EvaluationRow, status: ConvStatus)
    requires Owned(rows, conversations) && Unshared(rows) && IdlePending(rows, conversations)
    requires row.conversationId in conversations
    requires if id in rows then rows[id].conversationId == row.conversationId else Unevaluated(rows, row.conversationId)
    ensures var conv := row.conversationId;
            var after := conversations[conv := conversations[conv].(status := status)];
            Owned(rows[id := row], after) && Unshared(rows[id := row]) && IdlePending(rows[id := row], after)
  {
    var written := rows[id := row];
    forall c | c in conversations && Unevaluated(written, c) ensures c != row.conversationId && Unevaluated(rows, c) {
      assert written[id].conversationId != c;
      forall i | i in rows ensures rows[i].conversationId != c { assert i in written; }
    }
  }

  lemma PutConsistent(before: Db, after: Db, id: string, conv: string, c: Case, entries: seq<LogEntry>)
    requires Consistent(before) && Target(before, id, conv) && Entry(entries, id)
             && Put(before, after, id, conv, c, entries)
    requires c.ev.formId in before.forms && KnownForms(before.forms, c.jobs)
    ensures Consistent(after)
  {
    var ids := after.evaluations.Keys;
    KeysAfter(before.evaluations, id, EvaluationRow(conv, c.ev));
    RowsAfter(before.evaluations, before.conversations, id, EvaluationRow(conv, c.ev), c.conv);
    FormsAfter(before.evaluations, before.jobs, before.forms, id, EvaluationRow(conv, c.ev), c.jobs);
    WroteKeys(before.queue, after.queue, id, c.row, ids);
    WroteKeys(before.auditCases, after.auditCases, id, c.audit, ids);
    KeysAfter(before.jobs, id, c.jobs);
    LogAfter(before.auditLog, entries, id, ids);
  }

  lemma PutOwn(before: Db, after: Db, id: string, conv: string, c: Case, entries: seq<LogEntry>)
    requires Consistent(before) && Target(before, id, conv) && Entry(entries, id)
             && Put(before, after, id, conv, c, entries)
    requires c.log == LogOf(before.auditLog, id) + Actions(entries)
    requires Consistent(after)
    ensures CasesOf(after)[id] == c
  {
    LogOfEntries(before.auditLog, entries, id, id);
    WroteFind(before.queue, after.queue, id, c.row, id);
    WroteFind(before.auditCases, after.auditCases, id, c.audit, id);
    JobsFind(before.jobs, after.jobs, id, c.jobs, id);
  }

  lemma PutOther(before: Db, after: Db, id: string, conv: string, c: Case, entries: seq<LogEntry>, k: string)
    requires Consistent(before) && Target(before, id, conv) && Entry(entries, id)
             && Put(before, after, id, conv, c, entries)
    requires k in before.evaluations && k != id
    requires Consistent(after)
    ensures CaseAt(after, k) == CaseAt(before, k)
  {
    LogOfEntries(before.auditLog, entries, id, k);
    WroteFind(before.queue, after.queue, id, c.row, k);
    WroteFind(before.auditCases, after.auditCases, id, c.audit, k);
    JobsFind(before.jobs, after.jobs, id, c.jobs, k);
    assert after.evaluations[k] == before.evaluations[k];
    assert before.evaluations[k].conversationId != conv;
  }

  lemma PutOthers(before: Db, after: Db, id: string, conv: string, c: Case, entries: seq<LogEntry>)
    requires Consistent(before) && Target(before, id, conv) && Entry(entries, id)
             && Put(before, after, id, conv, c, entries)
    requires Consistent(after)
    ensures forall k :: k in CasesOf(before) && k != id ==>
      k in CasesOf(after) && CasesOf(after)[k] == CasesOf(before)[k]
  {
    forall k | k in CasesOf(before) && k != id ensures k in CasesOf(after) && CasesOf(after)[k] == CasesOf(before)[k] {
      PutOther(before, after, id, conv, c, entries, k);
    }
  }

  /** The evaluation table gained an evaluation of this conversation, or wrote
      to the one there is; who is evaluated by whom stays otherwise. */
  ghost predicate OwnerAdded(rows: Rows, after: Rows, id: string, conv: string) {
    && after.Keys == rows.Keys + {id} && after[id].conversationId == conv
    && forall k :: k in rows ==> after[k].conversationId == rows[k].conversationId
  }

  ghost predicate SameChannels(m: Conversations, n: Conversations) {
    n.Keys == m.Keys && forall c :: c in m ==> n[c].channel == m[c].channel
  }

  lemma OwnerWritten(rows: Rows, conversations: Conversations, id: string, row: EvaluationRow, status: ConvStatus)
    requires row.conversationId in conversations && (id in rows ==> rows[id].conversationId == row.conversationId)
    ensures OwnerAdded(rows, rows[id := row], id, row.conversationId)
    ensures var conv := row.conversationId;
            SameChannels(conversations, conversations[conv := conversations[conv].(status := status)])
  {
  }

  lemma EvaluatedAfter(rows: Rows, after: Rows, id: string, conv: string, c: string)
    requires OwnerAdded(rows, after, id, conv)
    ensures Unevaluated(after, c) <==> Unevaluated(rows, c) && c != conv
  {
    assert Unevaluated(after, c) ==> after[id].conversationId != c;
    assert Unevaluated(after, c) ==> forall k :: k in rows ==> after[k].conversationId != c;
  }

  /** Read together, the tables after are those before with one evaluation
      replaced, or added. */
  ghost predicate Replaced(before: Db, after: Db, id: string, c: Case) {
    Consistent(before) && Consistent(after) && CasesOf(after) == CasesOf(before)[id := c] && after.forms == before.forms
  }

  lemma UpdatedMap<V>(m: map<string, V>, n: map<string, V>, id: string, v: V)
    requires n.Keys == m.Keys + {id} && n[id] == v
    requires forall k :: k in m && k != id ==> n[k] == m[k]
    ensures n == m[id := v]
  {
  }

  lemma CaseOf(db: Db, id: string)
    requires Consistent(db) && id in db.evaluations
    ensures id in CasesOf(db) && CasesOf(db)[id] == CaseAt(db, id)
  {
  }

  lemma CaseKeys(db: Db)
    requires Consistent(db)
    ensures CasesOf(db).Keys == db.evaluations.Keys
  {
  }

  /** A conversation nobody evaluates changes no evaluation. */
  lemma ConversationAdded(db: Db, conv: string, channel: string)
    requires Consistent(db) && conv !in db.conversations
    ensures var after := db.(conversations := db.conversations[conv := Conversation(channel, Pending)]);
            Consistent(after) && CasesOf(after) == CasesOf(db)
  {
    var after := db.(conversations := db.conversations[conv := Conversation(channel, Pending)]);
    forall id | id in db.evaluations ensures CaseAt(after, id) == CaseAt(db, id) {
      assert db.evaluations[id].conversationId != conv;
    }
  }

  lemma NothingReplaced(db: Db, id: string)
    requires Consistent(db) && id in db.evaluations
    ensures Replaced(db, db, id, CaseAt(db, id))
  {
    CaseOf(db, id);
    assert CasesOf(db) == CasesOf(db)[id := CaseAt(db, id)];
  }

  /** An operation answers as the workflow says and does what it says; on an
      error no table changes. */
  ghost predicate Performed(before: Db, after: Db, id: string, spec: Result<Case, Error>, r: Option<Error>) {
    match spec
    case Success(c) => r == None && Replaced(before, after, id, c)
    case Failure(e) => r == Some(e) && after == before
  }

  /** Writing the rows of one evaluation replaces one case, and no other. */
  lemma PutReplaces(before: Db, after: Db, id: string, conv: string, c: Case, entries: seq<LogEntry>)
    requires Consistent(before) && Target(before, id, conv) && Entry(entries, id)
             && Put(before, after, id, conv, c, entries)
    requires c.ev.formId in before.forms && KnownForms(before.forms, c.jobs)
    requires c.log == LogOf(before.auditLog, id) + Actions(entries)
    ensures Replaced(before, after, id, c)
    ensures OwnerAdded(before.evaluations, after.evaluations, id, conv)
            && SameChannels(before.conversations, after.conversations)
  {
    PutConsistent(before, after, id, conv, c, entries);
    PutOwn(before, after, id, conv, c, entries);
    PutOthers(before, after, id, conv, c, entries);
    CaseKeys(before);
    CaseKeys(after);
    KeysAfter(before.evaluations, id, EvaluationRow(conv, c.ev));
    UpdatedMap(CasesOf(before), CasesOf(after), id, c);
    OwnerWritten(before.evaluations, before.conversations, id, EvaluationRow(conv, c.ev), c.conv);
  }

  /** A one-to-one row is written or deleted. */
  function Upserted<V>(rows: map<string, V>, id: string, row: Option<V>): map<string, V> {
    if row.Some? then rows[id := row.value] else rows - {id}
  }

  /** The tables after a transaction on the rows of one evaluation. */
  ghost function Written(db: Db, id: string, conv: string, w: OwnRows, entries: seq<LogEntry>): Db
    requires conv in db.conversations
  {
    Db(db.conversations[conv := db.conversations[conv].(status := w.conv)],
       db.evaluations[id := EvaluationRow(conv, w.ev)],
       Upserted(db.queue, id, w.row), Upserted(db.auditCases, id, w.audit),
       db.jobs[id := w.jobs], db.auditLog + entries, db.forms)
  }

  lemma WrittenReplaces(before: Db, id: string, conv: string, w: OwnRows, entries: seq<LogEntry>)
    requires Consistent(before) && Target(before, id, conv) && Entry(entries, id)
    requires w.ev.formId in before.forms && KnownForms(before.forms, w.jobs)
    ensures var after := Written(before, id, conv, w, entries);
            && Replaced(before, after, id, w.With(LogOf(before.auditLog, id) + Actions(entries)))
            && OwnerAdded(before.evaluations, after.evaluations, id, conv)
            && SameChannels(before.conversations, after.conversations)
  {
    PutReplaces(before, Written(before, id, conv, w, entries), id, conv,
                w.With(LogOf(before.auditLog, id) + Actions(entries)), entries);
  }

  lemma NextOn(s: System, id: string, e: Event, c: Case)
    requires Enabled(s, On(id, e)) && Apply(s.forms, s.cases[id], e) == c
    ensures Next(s, On(id, e)) == System(s.cases[id := c], s.forms)
    ensures Inv(s) && Quiet(s, On(id, e)) ==> Inv(System(s.cases[id := c], s.forms))
  {
    if Inv(s) && Quiet(s, On(id, e)) { StepKeepsInv(s, On(id, e)); }
  }

  /** The tables after are those before, one step of the workflow later. */
  ghost predicate IsStep(before: Db, after: Db, step: Step) {
    && Consistent(before) && Consistent(after)
    && Enabled(SystemOf(before), step) && SystemOf(after) == Next(SystemOf(before), step)
  }

  /** The workflow's invariant survives. */
  ghost predicate KeepsInv(before: Db, after: Db) {
    Consistent(before) && Consistent(after) && (Inv(SystemOf(before)) ==> Inv(SystemOf(after)))
  }

  /** So a write to the tables that replaces a case by what an event makes of
      it is a step of the workflow, and keeps its invariant. */
  lemma ReplacedIsStep(before: Db, after: Db, id: string, e: Event, c: Case)
    requires Replaced(before, after, id, c) && id in before.evaluations
    requires Enabled(SystemOf(before), On(id, e)) && Apply(before.forms, CaseAt(before, id), e) == c
    ensures IsStep(before, after, On(id, e))
    ensures !Overlaps(CaseAt(before, id), e) ==> KeepsInv(before, after)
  {
    NextOn(SystemOf(before), id, e, c);
  }

  /** The same for an operation that may be refused. */
  lemma PerformedIsStep(before: Db, after: Db, id: string, e: Event, spec: Result<Case, Error>, r: Option<Error>)
    requires Consistent(before) && id in before.evaluations && Performed(before, after, id, spec, r)
    requires Enabled(SystemOf(before), On(id, e))
             && Apply(before.forms, CaseAt(before, id), e) == Or(CaseAt(before, id), spec)
    ensures IsStep(before, after, On(id, e))
    ensures !Overlaps(CaseAt(before, id), e) ==> KeepsInv(before, after)
  {
    if spec.Failure? { NothingReplaced(before, id); }
    ReplacedIsStep(before, after, id, e, Or(CaseAt(before, id), spec));
  }

  /** And for the creation of an evaluation. */
  lemma CreationIsStep(before: Db, after: Db, id: string, formId: string, version: int, origin: Origin)
    requires Replaced(before, after, id, Born(formId, version, origin)) && id !in before.evaluations
             && formId in before.forms
    ensures IsStep(before, after, Create(id, formId, version, origin)) && KeepsInv(before, after)
  {
    var s, step := SystemOf(before), Create(id, formId, version, origin);
    if Inv(s) { StepKeepsInv(s, step); }
  }
}
