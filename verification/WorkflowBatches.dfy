/** The loops of the conversation service and of the webhook ingest over the
    evaluation tables: what a whole batch does is a run of workflow steps. */
module WorkflowBatches {
  import opened Wrappers
  import opened Sequences
  import opened Workflow
  import opened WorkflowRuns
  import opened Tables
  import opened WorkflowStore

  type FormRef = (string, int)

  // ---------------------------------------------------------------------
  // Runs between two states of the tables

  /** One step; in a quiet run it overlaps no outstanding job. */
  ghost predicate Takes(s: System, step: Step, t: System, quiet: bool) {
    Enabled(s, step) && t == Next(s, step) && (quiet ==> Quiet(s, step))
  }

  ghost predicate Path(trace: seq<System>, steps: seq<Step>, quiet: bool) {
    && |trace| == |steps| + 1
    && forall i {:trigger steps[i]} :: 0 <= i < |steps| ==> Takes(trace[i], steps[i], trace[i + 1], quiet)
  }

  ghost predicate Leads(s: System, steps: seq<Step>, t: System, quiet: bool) {
    exists trace :: Path(trace, steps, quiet) && trace[0] == s && trace[|steps|] == t
  }

  /** The steps lead from the one state of the tables to the other. */
  ghost predicate Ran(before: Db, now: Db, steps: seq<Step>, quiet: bool) {
    Consistent(before) && Consistent(now) && Leads(SystemOf(before), steps, SystemOf(now), quiet)
  }

  lemma RanNothing(db: Db, quiet: bool)
    requires Consistent(db)
    ensures Ran(db, db, [], quiet)
  {
    assert Path([SystemOf(db)], [], quiet);
  }

  lemma PathSnoc(trace: seq<System>, steps: seq<Step>, last: System, step: Step, quiet: bool)
    requires Path(trace, steps, quiet) && Takes(trace[|steps|], step, last, quiet)
    ensures Path(trace + [last], steps + [step], quiet)
  {
    var longer, more := trace + [last], steps + [step];
    forall i | 0 <= i < |more| ensures Takes(longer[i], more[i], longer[i + 1], quiet) {
      if i < |steps| {
        assert longer[i] == trace[i] && more[i] == steps[i] && longer[i + 1] == trace[i + 1];
      }
    }
  }

  lemma LeadsOn(s: System, mid: System, t: System, steps: seq<Step>, step: Step, quiet: bool)
    requires Leads(s, steps, mid, quiet) && Takes(mid, step, t, quiet)
    ensures Leads(s, steps + [step], t, quiet)
  {
    var trace :| Path(trace, steps, quiet) && trace[0] == s && trace[|steps|] == mid;
    PathSnoc(trace, steps, t, step, quiet);
    assert (trace + [t])[0] == s && (trace + [t])[|steps + [step]|] == t;
  }

  lemma RanSnoc(before: Db, mid: Db, after: Db, steps: seq<Step>, step: Step, quiet: bool)
    requires Ran(before, mid, steps, quiet) && Consistent(after)
    requires Takes(SystemOf(mid), step, SystemOf(after), quiet)
    ensures Ran(before, after, steps + [step], quiet)
  {
    LeadsOn(SystemOf(before), SystemOf(mid), SystemOf(after), steps, step, quiet);
  }

  lemma {:induction false} PathKeepsInv(trace: seq<System>, steps: seq<Step>, i: nat)
    requires Path(trace, steps, true) && i <= |steps| && Inv(trace[0])
    ensures Inv(trace[i])
  {
    if i > 0 {
      var j := i - 1;
      PathKeepsInv(trace, steps, j);
      assert Takes(trace[j], steps[j], trace[j + 1], true);
      StepKeepsInv(trace[j], steps[j]);
    }
  }

  /** A quiet batch keeps the invariant. */
  lemma RanKeepsInv(before: Db, now: Db, steps: seq<Step>)
    requires Ran(before, now, steps, true) && Inv(SystemOf(before))
    ensures Inv(SystemOf(now))
  {
    var trace :| Path(trace, steps, true) && trace[0] == SystemOf(before) && trace[|steps|] == SystemOf(now);
    PathKeepsInv(trace, steps, |steps|);
  }

  lemma {:induction false} PathKeepsForms(trace: seq<System>, steps: seq<Step>, quiet: bool, i: nat)
    requires Path(trace, steps, quiet) && i <= |steps| && forall step :: step in steps ==> !step.PutForm?
    ensures trace[i].forms == trace[0].forms
  {
    if i > 0 {
      PathKeepsForms(trace, steps, quiet, i - 1);
      assert steps[i - 1] in steps;
    }
  }

  lemma RanKeepsForms(before: Db, now: Db, steps: seq<Step>, quiet: bool)
    requires Ran(before, now, steps, quiet) && forall step :: step in steps ==> !step.PutForm?
    ensures now.forms == before.forms
  {
    var trace :| Path(trace, steps, quiet) && trace[0] == SystemOf(before) && trace[|steps|] == SystemOf(now);
    PathKeepsForms(trace, steps, quiet, |steps|);
  }

  lemma RanCreation(before: Db, mid: Db, after: Db, steps: seq<Step>, quiet: bool, id: string, form: FormRef,
                    origin: Origin)
    requires Ran(before, mid, steps, quiet) && id !in mid.evaluations && form.0 in mid.forms
    requires Replaced(mid, after, id, Born(form.0, form.1, origin))
    ensures Ran(before, after, steps + [Create(id, form.0, form.1, origin)], quiet)
  {
    CreationIsStep(mid, after, id, form.0, form.1, origin);
    RanSnoc(before, mid, after, steps, Create(id, form.0, form.1, origin), quiet);
  }

  lemma RanEvent(before: Db, mid: Db, after: Db, steps: seq<Step>, quiet: bool, id: string, e: Event, c: Case)
    requires Ran(before, mid, steps, quiet) && Replaced(mid, after, id, c) && id in mid.evaluations
    requires Enabled(SystemOf(mid), On(id, e)) && Apply(mid.forms, CaseAt(mid, id), e) == c
    requires quiet ==> Quiet(SystemOf(mid), On(id, e))
    ensures Ran(before, after, steps + [On(id, e)], quiet)
  {
    ReplacedIsStep(mid, after, id, e, c);
    RanSnoc(before, mid, after, steps, On(id, e), quiet);
  }

  // ---------------------------------------------------------------------
  // The items of a batch

  /** A conversation, the id its evaluation would get, and whether its job
      could be enqueued. */
  datatype Item = Item(conv: string, id: string, enqueued: bool)

  function Convs(items: seq<Item>): set<string> {
    set item | item in items :: item.conv
  }

  function Ids(items: seq<Item>): set<string> {
    set item | item in items :: item.id
  }

  lemma ItemsSnoc(items: seq<Item>, i: nat)
    requires i < |items|
    ensures items[..i + 1] == items[..i] + [items[i]] && items[..i + 1][..i] == items[..i]
    ensures Convs(items[..i + 1]) == Convs(items[..i]) + {items[i].conv}
    ensures Ids(items[..i + 1]) == Ids(items[..i]) + {items[i].id}
  {
    assert items[..i + 1] == items[..i] + [items[i]];
    assert forall x :: x in items[..i] + [items[i]] <==> x in items[..i] || x == items[i];
  }

  /** The ids are unused and the conversations known. */
  ghost predicate Fits(db: Db, items: seq<Item>) {
    && Consistent(db)
    && (forall i, j :: 0 <= i < j < |items| ==> items[i].id != items[j].id)
    && (forall item :: item in items ==> item.id !in db.evaluations && item.conv in db.conversations)
  }

  lemma IdUnused(items: seq<Item>, i: nat)
    requires i < |items| && forall k, j :: 0 <= k < j < |items| ==> items[k].id != items[j].id
    ensures items[i].id !in Ids(items[..i])
  {
  }

  // ---------------------------------------------------------------------
  // Upload and ingest

  /** How the evaluations of a batch come about. */
  datatype Batch = UploadOf(form: FormRef, llmEnabled: bool, queueUp: bool, at: int) | IngestOf(form: FormRef) {
    function OriginOf(item: Item): Origin {
      match this
      case UploadOf(_, llmEnabled, queueUp, at) => ByUpload(llmEnabled, queueUp, item.enqueued, at)
      case IngestOf(_) => ByIngest(item.enqueued)
    }

    function StepOf(item: Item): Step {
      Create(item.id, form.0, form.1, OriginOf(item))
    }
  }

  /** One creation for every listed conversation that has no evaluation; a
      conversation listed twice is evaluated once. */
  function CreationSteps(rows: Rows, items: seq<Item>, batch: Batch): (steps: seq<Step>)
    ensures forall step :: step in steps ==> step.Create?
  {
    if items == [] then []
    else
      var n := |items| - 1;
      CreationSteps(rows, items[..n], batch)
      + if Unevaluated(rows, items[n].conv) && items[n].conv !in Convs(items[..n]) then [batch.StepOf(items[n])] else []
  }

  /** The conversations listed, and only they, have become evaluated, under
      the ids listed. */
  ghost predicate Covered(before: Db, now: Db, items: seq<Item>) {
    && SameChannels(before.conversations, now.conversations)
    && (forall id :: id in now.evaluations ==> id in before.evaluations || id in Ids(items))
    && (forall c :: Unevaluated(now.evaluations, c) <==> Unevaluated(before.evaluations, c) && c !in Convs(items))
  }

  /** What the batch has done. */
  ghost predicate Created(before: Db, now: Db, items: seq<Item>, batch: Batch) {
    Ran(before, now, CreationSteps(before.evaluations, items, batch), true) && Covered(before, now, items)
  }

  lemma CoveredOne(before: Db, mid: Db, after: Db, items: seq<Item>, i: nat)
    requires i < |items| && Covered(before, mid, items[..i])
    requires OwnerAdded(mid.evaluations, after.evaluations, items[i].id, items[i].conv)
    requires SameChannels(mid.conversations, after.conversations)
    ensures Covered(before, after, items[..i + 1])
  {
    ItemsSnoc(items, i);
    forall c ensures Unevaluated(after.evaluations, c)
      <==> Unevaluated(before.evaluations, c) && c !in Convs(items[..i + 1]) {
      EvaluatedAfter(mid.evaluations, after.evaluations, items[i].id, items[i].conv, c);
    }
  }

  lemma CreatedOne(before: Db, mid: Db, after: Db, items: seq<Item>, batch: Batch, i: nat)
    requires Fits(before, items) && batch.form.0 in before.forms && i < |items|
             && Created(before, mid, items[..i], batch)
    requires Unevaluated(mid.evaluations, items[i].conv)
    requires Replaced(mid, after, items[i].id, Born(batch.form.0, batch.form.1, batch.OriginOf(items[i])))
    requires OwnerAdded(mid.evaluations, after.evaluations, items[i].id, items[i].conv)
    requires SameChannels(mid.conversations, after.conversations)
    ensures Created(before, after, items[..i + 1], batch)
  {
    NextIsReady(before, mid, items, batch, i);
    ItemsSnoc(items, i);
    RanCreation(before, mid, after, CreationSteps(before.evaluations, items[..i], batch), true, items[i].id, batch.form,
                batch.OriginOf(items[i]));
    CoveredOne(before, mid, after, items, i);
  }

  lemma CreatedAlready(before: Db, mid: Db, items: seq<Item>, batch: Batch, i: nat)
    requires i < |items| && Created(before, mid, items[..i], batch) && !Unevaluated(mid.evaluations, items[i].conv)
    ensures Created(before, mid, items[..i + 1], batch)
  {
    ItemsSnoc(items, i);
    CoveredAlready(before, mid, items, i);
    NoStepAgain(before.evaluations, items, batch, i);
  }

  lemma NoStepAgain(rows: Rows, items: seq<Item>, batch: Batch, i: nat)
    requires i < |items| && !(Unevaluated(rows, items[i].conv) && items[i].conv !in Convs(items[..i]))
    ensures CreationSteps(rows, items[..i + 1], batch) == CreationSteps(rows, items[..i], batch)
  {
    ItemsSnoc(items, i);
    assert CreationSteps(rows, items[..i], batch) + [] == CreationSteps(rows, items[..i], batch);
  }

  lemma CoveredAlready(before: Db, mid: Db, items: seq<Item>, i: nat)
    requires i < |items| && Covered(before, mid, items[..i]) && !Unevaluated(mid.evaluations, items[i].conv)
    ensures Covered(before, mid, items[..i + 1])
  {
    ItemsSnoc(items, i);
  }

  lemma NextIsReady(before: Db, mid: Db, items: seq<Item>, batch: Batch, i: nat)
    requires Fits(before, items) && i < |items| && Created(before, mid, items[..i], batch)
    ensures items[i].id !in mid.evaluations && items[i].conv in mid.conversations && mid.forms == before.forms
  {
    RanKeepsForms(before, mid, CreationSteps(before.evaluations, items[..i], batch), true);
    IdUnused(items, i);
    assert items[i] in items;
  }

  method UploadBatch(store: EvaluationStore, items: seq<Item>, form: FormRef, llmEnabled: bool, queueUp: bool, now: int)
    requires Fits(store.Snapshot(), items) && form.0 in store.forms
    modifies store
    ensures Created(old(store.Snapshot()), store.Snapshot(), items, UploadOf(form, llmEnabled, queueUp, now))
  {
    ghost var before, batch := store.Snapshot(), UploadOf(form, llmEnabled, queueUp, now);
    RanNothing(before, true);
    for i := 0 to |items|
      invariant Created(before, store.Snapshot(), items[..i], batch)
    {
      ghost var mid := store.Snapshot();
      NextIsReady(before, mid, items, batch, i);
      var created := store.EvaluateUpload(items[i].id, items[i].conv, form.0, form.1, llmEnabled, queueUp,
                                          items[i].enqueued, now);
      if created {
        CreatedOne(before, mid, store.Snapshot(), items, batch, i);
      } else {
        CreatedAlready(before, mid, items, batch, i);
      }
    }
    assert items[..|items|] == items;
  }

  method IngestBatch(store: EvaluationStore, items: seq<Item>, form: FormRef)
    requires Fits(store.Snapshot(), items) && form.0 in store.forms
    modifies store
    ensures Created(old(store.Snapshot()), store.Snapshot(), items, IngestOf(form))
  {
    ghost var before, batch := store.Snapshot(), IngestOf(form);
    RanNothing(before, true);
    for i := 0 to |items|
      invariant Created(before, store.Snapshot(), items[..i], batch)
    {
      ghost var mid := store.Snapshot();
      NextIsReady(before, mid, items, batch, i);
      var created := store.EvaluateIngested(items[i].id, items[i].conv, form.0, form.1, items[i].enqueued);
      if created {
        CreatedOne(before, mid, store.Snapshot(), items, batch, i);
      } else {
        CreatedAlready(before, mid, items, batch, i);
      }
    }
    assert items[..|items|] == items;
  }

  /** After a batch every listed conversation has exactly one evaluation and
      the invariant still holds. */
  lemma CreatedBatchIsSafe(before: Db, after: Db, items: seq<Item>, batch: Batch)
    requires Created(before, after, items, batch)
    ensures Inv(SystemOf(before)) ==> Inv(SystemOf(after))
    ensures forall c :: c in Convs(items) ==>
      exists id :: id in after.evaluations && after.evaluations[id].conversationId == c
                   && forall k :: k in after.evaluations && after.evaluations[k].conversationId == c ==> k == id
  {
    if Inv(SystemOf(before)) { RanKeepsInv(before, after, CreationSteps(before.evaluations, items, batch)); }
    forall c | c in Convs(items)
      ensures exists id :: id in after.evaluations && after.evaluations[id].conversationId == c
                           && forall k :: k in after.evaluations && after.evaluations[k].conversationId == c ==> k == id
    {
      assert !Unevaluated(after.evaluations, c);
    }
  }

  // ---------------------------------------------------------------------
  // Passes over the tables: what is left for later stays as it was

  /** Who evaluates a conversation not yet done is as it was. */
  ghost predicate RowsUntouched(rows: Rows, now: Rows, done: set<string>, used: set<string>) {
    && (forall id :: id in now ==> id in rows || id in used)
    && (forall c :: c !in done ==> (Unevaluated(now, c) <==> Unevaluated(rows, c)))
    && (forall e :: e in rows ==> e in now && now[e].conversationId == rows[e].conversationId)
  }

  ghost predicate CasesUntouched(rows: Rows, cases: map<string, Case>, now: map<string, Case>, done: set<string>) {
    forall e :: e in rows && rows[e].conversationId !in done ==> e in cases && e in now && now[e] == cases[e]
  }

  /** Conversations not yet done are as they were, and so are their evaluations. */
  ghost predicate Untouched(before: Db, now: Db, done: set<string>, used: set<string>) {
    && Consistent(before) && Consistent(now)
    && SameChannels(before.conversations, now.conversations)
    && RowsUntouched(before.evaluations, now.evaluations, done, used)
    && CasesUntouched(before.evaluations, CasesOf(before), CasesOf(now), done)
  }

  lemma RowsUntouchedOne(rows: Rows, mid: Rows, after: Rows, done: set<string>, used: set<string>, conv: string,
                         id: string, target: string)
    requires RowsUntouched(rows, mid, done, used) && OwnerAdded(mid, after, target, conv)
    requires target in rows || target == id
    ensures RowsUntouched(rows, after, done + {conv}, used + {id})
  {
    forall k | k !in done + {conv} ensures Unevaluated(after, k) <==> Unevaluated(rows, k) {
      EvaluatedAfter(mid, after, target, conv, k);
    }
  }

  lemma CasesUntouchedOne(rows: Rows, cases: map<string, Case>, mid: map<string, Case>, done: set<string>, conv: string,
                          target: string, c: Case)
    requires CasesUntouched(rows, cases, mid, done) && (target in rows ==> rows[target].conversationId == conv)
    ensures CasesUntouched(rows, cases, mid[target := c], done + {conv})
  {
  }

  lemma UntouchedOne(before: Db, mid: Db, after: Db, done: set<string>, used: set<string>, conv: string, id: string,
                     target: string, c: Case)
    requires Untouched(before, mid, done, used) && Replaced(mid, after, target, c)
    requires OwnerAdded(mid.evaluations, after.evaluations, target, conv)
             && SameChannels(mid.conversations, after.conversations)
    requires if target in before.evaluations then before.evaluations[target].conversationId == conv else target == id
    ensures Untouched(before, after, done + {conv}, used + {id})
  {
    RowsUntouchedOne(before.evaluations, mid.evaluations, after.evaluations, done, used, conv, id, target);
    CasesUntouchedOne(before.evaluations, CasesOf(before), CasesOf(mid), done, conv, target, c);
  }

  lemma NothingTouched(db: Db)
    requires Consistent(db)
    ensures Untouched(db, db, {}, {})
  {
  }

  lemma UntouchedMore(before: Db, mid: Db, done: set<string>, used: set<string>, conv: string, id: string)
    requires Untouched(before, mid, done, used)
    ensures Untouched(before, mid, done + {conv}, used + {id})
  {
  }

  /** The evaluation of a conversation whose turn has not come. */
  lemma StillUntouched(before: Db, mid: Db, done: set<string>, used: set<string>, conv: string)
    requires Untouched(before, mid, done, used) && conv in before.conversations && conv !in done
    ensures conv in mid.conversations && mid.conversations[conv].channel == before.conversations[conv].channel
    ensures Unevaluated(mid.evaluations, conv) <==> Unevaluated(before.evaluations, conv)
    ensures forall e :: e in mid.evaluations && mid.evaluations[e].conversationId == conv ==>
              e in before.evaluations && before.evaluations[e].conversationId == conv
                && CasesOf(mid)[e] == CasesOf(before)[e]
  {
    forall e | e in mid.evaluations && mid.evaluations[e].conversationId == conv
      ensures e in before.evaluations && before.evaluations[e].conversationId == conv
    {
      assert !Unevaluated(before.evaluations, conv);
      var k :| k in before.evaluations && before.evaluations[k].conversationId == conv;
      assert mid.evaluations[k].conversationId == conv;
    }
  }

  lemma StillPending(before: Db, mid: Db, done: set<string>, used: set<string>, conv: string)
    requires Untouched(before, mid, done, used) && conv in before.conversations && conv !in done
    requires before.conversations[conv].status == Pending
    ensures conv in mid.conversations && mid.conversations[conv].status == Pending
  {
    StillUntouched(before, mid, done, used, conv);
    if !Unevaluated(mid.evaluations, conv) {
      var e :| e in mid.evaluations && mid.evaluations[e].conversationId == conv;
      assert CasesOf(mid)[e].conv == CasesOf(before)[e].conv;
    }
  }

  // ---------------------------------------------------------------------
  // Backfill

  /** What a pass is given: the lookup of a channel's published form, whether
      the model is enabled, and the time. */
  datatype Pass = Pass(active: string -> Option<FormRef>, llmEnabled: bool, at: int)

  /** The evaluation of a conversation, if it has one. */
  ghost predicate IsEvaluationOf(rows: Rows, conv: string, existing: Option<string>) {
    match existing
    case Some(e) => e in rows && rows[e].conversationId == conv
    case None => Unevaluated(rows, conv)
  }

  method FindEvaluation(rows: Rows, conv: string) returns (existing: Option<string>)
    ensures IsEvaluationOf(rows, conv, existing)
  {
    if e :| e in rows && rows[e].conversationId == conv {
      existing := Some(e);
    } else {
      existing := None;
    }
  }

  /** What a backfill does about one conversation, given its evaluation. */
  function BackfillStep(rows: Rows, item: Item, existing: Option<string>, form: Option<FormRef>, pass: Pass): seq<Step>
    requires existing.Some? ==> existing.value in rows
  {
    match existing
    case Some(e) =>
      if rows[e].ev.state == AiPending && !pass.llmEnabled
      then [On(e, UnstickPending(pass.llmEnabled, pass.at))]
      else []
    case None =>
      match form
      case None => []
      case Some(f) => [Create(item.id, f.0, f.1, ByBackfill(pass.llmEnabled, item.enqueued, pass.at))]
  }

  ghost function EvaluationOf(rows: Rows, conv: string): (existing: Option<string>)
    ensures IsEvaluationOf(rows, conv, existing)
  {
    if Unevaluated(rows, conv) then None
    else var e :| e in rows && rows[e].conversationId == conv; Some(e)
  }

  /** The whole backfill, judged by the tables as they were at its start. */
  ghost function BackfillSteps(db: Db, items: seq<Item>, pass: Pass): seq<Step>
    requires forall item :: item in items ==> item.conv in db.conversations
  {
    if items == [] then []
    else
      BackfillSteps(db, items[..|items| - 1], pass) + JudgedStep(db, items[|items| - 1], pass)
  }

  ghost function JudgedStep(db: Db, item: Item, pass: Pass): seq<Step>
    requires item.conv in db.conversations
  {
    BackfillStep(db.evaluations, item, EvaluationOf(db.evaluations, item.conv),
                 pass.active(db.conversations[item.conv].channel), pass)
  }

  /** No listed conversation has an evaluation with an outstanding job. */
  ghost predicate NoJobs(db: Db, items: seq<Item>) {
    forall e :: e in db.evaluations && db.evaluations[e].conversationId in Convs(items) ==> JobsOf(db.jobs, e) == []
  }

  /** With the model enabled a pass only creates evaluations; without it, it
      may meet an outstanding job. */
  ghost predicate QuietPass(db: Db, items: seq<Item>, pass: Pass) {
    pass.llmEnabled || NoJobs(db, items)
  }

  /** What a backfill needs: unused ids, known forms, and conversations that
      are PENDING, each once. */
  ghost predicate Backfillable(db: Db, items: seq<Item>, pass: Pass) {
    && Fits(db, items)
    && (forall i, j :: 0 <= i < j < |items| ==> items[i].conv != items[j].conv)
    && (forall item :: item in items ==> db.conversations[item.conv].status == Pending)
    && (forall ch :: pass.active(ch).Some? ==> pass.active(ch).value.0 in db.forms)
  }

  /** The backfill after the first i conversations. */
  ghost predicate BackfilledSoFar(before: Db, now: Db, items: seq<Item>, pass: Pass, i: nat)
    requires Backfillable(before, items, pass)
  {
    && i <= |items|
    && Ran(before, now, BackfillSteps(before, items[..i], pass), QuietPass(before, items, pass))
    && Untouched(before, now, Convs(items[..i]), Ids(items[..i]))
    && now.forms == before.forms
  }

  /** What the loop body does to the tables. */
  ghost predicate BackfilledOne(mid: Db, after: Db, item: Item, existing: Option<string>, form: Option<FormRef>,
                                pass: Pass, processed: bool)
    requires Consistent(mid)
  {
    if !processed then after == mid
    else
      && OwnerAdded(mid.evaluations, after.evaluations, existing.GetOr(item.id), item.conv)
      && SameChannels(mid.conversations, after.conversations)
      && (match existing
          case Some(e) => e in mid.evaluations
            && Replaced(mid, after, e, Unstick(CaseAt(mid, e), pass.llmEnabled, pass.at))
          case None => form.Some? && Replaced(mid, after, item.id,
                                              Backfilled(form.value.0, form.value.1, pass.llmEnabled, item.enqueued,
                                                         pass.at)))
  }

  lemma SameState(before: Db, mid: Db, e: string)
    requires Consistent(before) && Consistent(mid) && e in before.evaluations && e in mid.evaluations
    requires CasesOf(mid)[e] == CasesOf(before)[e]
    ensures mid.evaluations[e].ev == before.evaluations[e].ev && JobsOf(mid.jobs, e) == JobsOf(before.jobs, e)
  {
    assert CaseAt(mid, e) == CaseAt(before, e);
  }

  /** An evaluation looked up now is the one there was at the start. */
  lemma LookedUp(before: Db, mid: Db, done: set<string>, used: set<string>, conv: string, existing: Option<string>)
    requires Untouched(before, mid, done, used) && conv in before.conversations && conv !in done
    requires IsEvaluationOf(mid.evaluations, conv, existing)
    ensures existing == EvaluationOf(before.evaluations, conv)
    ensures existing.Some? ==>
      && existing.value in mid.evaluations && existing.value in before.evaluations
      && mid.evaluations[existing.value].ev == before.evaluations[existing.value].ev
      && JobsOf(mid.jobs, existing.value) == JobsOf(before.jobs, existing.value)
  {
    StillUntouched(before, mid, done, used, conv);
    if existing.Some? { SameState(before, mid, existing.value); }
  }

  /** So the step that the loop body takes is the one judged at the start. */
  lemma StepAsJudged(before: Db, now: Rows, item: Item, existing: Option<string>, pass: Pass)
    requires item.conv in before.conversations && existing == EvaluationOf(before.evaluations, item.conv)
    requires existing.Some? ==> existing.value in now && now[existing.value].ev == before.evaluations[existing.value].ev
    ensures JudgedStep(before, item, pass)
         == BackfillStep(now, item, existing, pass.active(before.conversations[item.conv].channel), pass)
    ensures |JudgedStep(before, item, pass)| <= 1
  {
  }

  lemma UnstuckRuns(before: Db, mid: Db, after: Db, steps: seq<Step>, quiet: bool, e: string, pass: Pass)
    requires Ran(before, mid, steps, quiet) && e in mid.evaluations && (quiet ==> JobsOf(mid.jobs, e) == [])
    requires Replaced(mid, after, e, Unstick(CaseAt(mid, e), pass.llmEnabled, pass.at))
    ensures Ran(before, after, steps + [On(e, UnstickPending(pass.llmEnabled, pass.at))], quiet)
  {
    RanEvent(before, mid, after, steps, quiet, e, UnstickPending(pass.llmEnabled, pass.at),
             Unstick(CaseAt(mid, e), pass.llmEnabled, pass.at));
  }

  /** The three cases of the loop body. */
  lemma SkipRuns(before: Db, mid: Db, steps: seq<Step>, quiet: bool)
    requires Ran(before, mid, steps, quiet)
    ensures Ran(before, mid, steps + [], quiet)
  {
    assert steps + [] == steps;
  }

  lemma CreationRuns(before: Db, mid: Db, after: Db, steps: seq<Step>, quiet: bool, item: Item, form: FormRef,
                     pass: Pass)
    requires Ran(before, mid, steps, quiet) && item.id !in mid.evaluations && form.0 in mid.forms
    requires Replaced(mid, after, item.id, Backfilled(form.0, form.1, pass.llmEnabled, item.enqueued, pass.at))
    ensures Ran(before, after,
                steps + [Create(item.id, form.0, form.1, ByBackfill(pass.llmEnabled, item.enqueued, pass.at))],
                quiet)
  {
    RanCreation(before, mid, after, steps, quiet, item.id, form, ByBackfill(pass.llmEnabled, item.enqueued, pass.at));
  }

  lemma BackfillRuns(before: Db, mid: Db, after: Db, steps: seq<Step>, quiet: bool, item: Item,
                     existing: Option<string>,
                     form: Option<FormRef>, pass: Pass, processed: bool)
    requires Ran(before, mid, steps, quiet) && item.id !in mid.evaluations && (form.Some? ==> form.value.0 in mid.forms)
    requires IsEvaluationOf(mid.evaluations, item.conv, existing)
    requires existing.Some? && quiet && !pass.llmEnabled ==> JobsOf(mid.jobs, existing.value) == []
    requires BackfilledOne(mid, after, item, existing, form, pass, processed)
    requires processed <==> BackfillStep(mid.evaluations, item, existing, form, pass) != []
    ensures Ran(before, after, steps + BackfillStep(mid.evaluations, item, existing, form, pass), quiet)
  {
    if !processed {
      SkipRuns(before, mid, steps, quiet);
    } else if existing.Some? {
      UnstuckRuns(before, mid, after, steps, quiet, existing.value, pass);
    } else {
      CreationRuns(before, mid, after, steps, quiet, item, form.value, pass);
    }
  }

  lemma BackfillUntouched(before: Db, mid: Db, after: Db, items: seq<Item>, pass: Pass, i: nat,
                          existing: Option<string>, form: Option<FormRef>, processed: bool)
    requires i < |items| && Untouched(before, mid, Convs(items[..i]), Ids(items[..i]))
    requires IsEvaluationOf(mid.evaluations, items[i].conv, existing) && items[i].conv !in Convs(items[..i])
    requires items[i].conv in before.conversations && items[i].id !in before.evaluations
    requires BackfilledOne(mid, after, items[i], existing, form, pass, processed)
    ensures Untouched(before, after, Convs(items[..i + 1]), Ids(items[..i + 1]))
  {
    ItemsSnoc(items, i);
    var item, done, used := items[i], Convs(items[..i]), Ids(items[..i]);
    if !processed {
      UntouchedMore(before, mid, done, used, item.conv, item.id);
    } else if existing.Some? {
      StillUntouched(before, mid, done, used, item.conv);
      UntouchedOne(before, mid, after, done, used, item.conv, item.id, existing.value,
                   Unstick(CaseAt(mid, existing.value), pass.llmEnabled, pass.at));
    } else {
      UntouchedOne(before, mid, after, done, used, item.conv, item.id, item.id,
                   Backfilled(form.value.0, form.value.1, pass.llmEnabled, item.enqueued, pass.at));
    }
  }

  lemma NextItem(before: Db, items: seq<Item>, pass: Pass, i: nat)
    requires Backfillable(before, items, pass) && i < |items|
    ensures var item := items[i];
            && item in items && item.id !in before.evaluations && item.id !in Ids(items[..i])
            && item.conv in before.conversations && before.conversations[item.conv].status == Pending
            && item.conv !in Convs(items[..i])
  {
    assert items[i] in items;
  }

  /** What the loop body finds. */
  lemma NextIsPending(before: Db, mid: Db, items: seq<Item>, pass: Pass, i: nat)
    requires Backfillable(before, items, pass) && i < |items|
    requires Untouched(before, mid, Convs(items[..i]), Ids(items[..i]))
    ensures var item := items[i];
            && item.conv in mid.conversations && mid.conversations[item.conv].status == Pending
            && item.id !in mid.evaluations && item.conv in before.conversations
            && mid.conversations[item.conv].channel == before.conversations[item.conv].channel
            && item.conv !in Convs(items[..i])
  {
    NextItem(before, items, pass, i);
    StillUntouched(before, mid, Convs(items[..i]), Ids(items[..i]), items[i].conv);
    StillPending(before, mid, Convs(items[..i]), Ids(items[..i]), items[i].conv);
  }

  lemma StepsSnoc(db: Db, items: seq<Item>, pass: Pass, i: nat)
    requires i < |items| && forall item :: item in items ==> item.conv in db.conversations
    ensures BackfillSteps(db, items[..i + 1], pass)
         == BackfillSteps(db, items[..i], pass) + JudgedStep(db, items[i], pass)
  {
    ItemsSnoc(items, i);
  }

  lemma BackfillRunsOn(before: Db, mid: Db, after: Db, items: seq<Item>, pass: Pass, i: nat, existing: Option<string>,
                       processed: bool)
    requires Backfillable(before, items, pass) && i < |items| && BackfilledSoFar(before, mid, items, pass, i)
    requires IsEvaluationOf(mid.evaluations, items[i].conv, existing) && items[i].conv in before.conversations
    requires var form := pass.active(before.conversations[items[i].conv].channel);
             && BackfilledOne(mid, after, items[i], existing, form, pass, processed)
             && (processed <==> BackfillStep(mid.evaluations, items[i], existing, form, pass) != [])
    ensures Ran(before, after, BackfillSteps(before, items[..i], pass) + JudgedStep(before, items[i], pass),
                QuietPass(before, items, pass))
    ensures JudgedStep(before, items[i], pass)
         == BackfillStep(mid.evaluations, items[i], existing, pass.active(before.conversations[items[i].conv].channel),
                         pass)
    ensures |JudgedStep(before, items[i], pass)| <= 1
  {
    var item, done, used := items[i], Convs(items[..i]), Ids(items[..i]);
    NextIsPending(before, mid, items, pass, i);
    LookedUp(before, mid, done, used, item.conv, existing);
    StepAsJudged(before, mid.evaluations, item, existing, pass);
    assert item in items;
    BackfillRuns(before, mid, after, BackfillSteps(before, items[..i], pass), QuietPass(before, items, pass), item,
                 existing,
                 pass.active(before.conversations[item.conv].channel), pass, processed);
  }

  lemma BackfillAdvances(before: Db, mid: Db, after: Db, items: seq<Item>, pass: Pass, i: nat, existing: Option<string>,
                         processed: bool)
    requires Backfillable(before, items, pass) && i < |items| && BackfilledSoFar(before, mid, items, pass, i)
    requires IsEvaluationOf(mid.evaluations, items[i].conv, existing) && items[i].conv in before.conversations
    requires var form := pass.active(before.conversations[items[i].conv].channel);
             && BackfilledOne(mid, after, items[i], existing, form, pass, processed)
             && (processed <==> BackfillStep(mid.evaluations, items[i], existing, form, pass) != [])
    ensures BackfilledSoFar(before, after, items, pass, i + 1)
    ensures |BackfillSteps(before, items[..i + 1], pass)|
         == |BackfillSteps(before, items[..i], pass)| + if processed then 1 else 0
  {
    NextIsPending(before, mid, items, pass, i);
    StepsSnoc(before, items, pass, i);
    BackfillRunsOn(before, mid, after, items, pass, i, existing, processed);
    BackfillUntouched(before, mid, after, items, pass, i, existing,
                      pass.active(before.conversations[items[i].conv].channel), processed);
  }

  // ---------------------------------------------------------------------
  // The reasons a pass reports

  /** Channels for which the pass found no form although it needed one, each
      once. needy says which of the items need a form. */
  ghost predicate Reasons(reasons: seq<string>, needy: set<string>, active: string -> Option<FormRef>) {
    Distinct(reasons) && forall ch :: ch in reasons <==> ch in needy && active(ch).None?
  }

  /** The channels of the listed conversations that have no evaluation. */
  ghost function Waiting(db: Db, items: seq<Item>): set<string>
    requires forall item :: item in items ==> item.conv in db.conversations
  {
    set item | item in items && Unevaluated(db.evaluations, item.conv) :: db.conversations[item.conv].channel
  }

  lemma WaitingSnoc(db: Db, items: seq<Item>, i: nat)
    requires i < |items| && forall item :: item in items ==> item.conv in db.conversations
    ensures Waiting(db, items[..i + 1])
         == Waiting(db, items[..i])
            + if Unevaluated(db.evaluations, items[i].conv) then {db.conversations[items[i].conv].channel} else {}
  {
    ItemsSnoc(items, i);
    assert forall x :: x in items[..i] + [items[i]] <==> x in items[..i] || x == items[i];
  }

  /** One form lookup for each channel of a pass. */
  method CachedForm(cache: map<string, Option<FormRef>>, channel: string, active: string -> Option<FormRef>)
    returns (after: map<string, Option<FormRef>>, form: Option<FormRef>)
    requires forall ch :: ch in cache ==> cache[ch] == active(ch)
    ensures form == active(channel) && forall ch :: ch in after ==> after[ch] == active(ch)
  {
    if channel in cache {
      return cache, cache[channel];
    }
    form := active(channel);
    after := cache[channel := form];
  }

  /** A message is reported once. */
  function WithReason(reasons: seq<string>, needed: bool, channel: string): seq<string> {
    if needed && channel !in reasons then reasons + [channel] else reasons
  }

  lemma ReasonsGrow(reasons: seq<string>, needy: set<string>, active: string -> Option<FormRef>, needed: bool,
    channel: string)
    requires Reasons(reasons, needy, active)
    ensures Reasons(WithReason(reasons, needed && active(channel).None?, channel),
                    needy + if needed then {channel} else {}, active)
  {
  }

  // ---------------------------------------------------------------------
  // The backfill loop

  ghost predicate BackfillAt(before: Db, now: Db, items: seq<Item>, pass: Pass, i: nat, processed: nat, skipped: nat,
                             reasons: seq<string>)
    requires Backfillable(before, items, pass)
  {
    && BackfilledSoFar(before, now, items, pass, i)
    && processed == |BackfillSteps(before, items[..i], pass)| && processed + skipped == i
    && Reasons(reasons, Waiting(before, items[..i]), pass.active)
  }

  /** One conversation. */
  method BackfillNext(store: EvaluationStore, item: Item, form: Option<FormRef>, pass: Pass)
    returns (existing: Option<string>, done: bool)
    requires store.Valid() && item.id !in store.evaluations
    requires item.conv in store.conversations && store.conversations[item.conv].status == Pending
    requires form.Some? ==> form.value.0 in store.forms
    modifies store
    ensures IsEvaluationOf(old(store.evaluations), item.conv, existing)
    ensures BackfilledOne(old(store.Snapshot()), store.Snapshot(), item, existing, form, pass, done)
    ensures done <==> BackfillStep(old(store.evaluations), item, existing, form, pass) != []
  {
    existing := FindEvaluation(store.evaluations, item.conv);
    done := store.BackfillConversation(item.id, item.conv, existing, form, pass.llmEnabled, item.enqueued, pass.at);
  }

  lemma BackfillTurn(before: Db, mid: Db, after: Db, items: seq<Item>, pass: Pass, i: nat, existing: Option<string>,
                     done: bool,
                     processed: nat, skipped: nat, reasons: seq<string>)
    requires Backfillable(before, items, pass) && i < |items|
             && BackfillAt(before, mid, items, pass, i, processed, skipped, reasons)
    requires IsEvaluationOf(mid.evaluations, items[i].conv, existing) && items[i].conv in before.conversations
    requires var form := pass.active(before.conversations[items[i].conv].channel);
             && BackfilledOne(mid, after, items[i], existing, form, pass, done)
             && (done <==> BackfillStep(mid.evaluations, items[i], existing, form, pass) != [])
    ensures var channel := before.conversations[items[i].conv].channel;
            BackfillAt(before, after, items, pass, i + 1,
                       if done then processed + 1 else processed, if done then skipped else skipped + 1,
                       WithReason(reasons, existing.None? && pass.active(channel).None?, channel))
  {
    NextIsPending(before, mid, items, pass, i);
    LookedUp(before, mid, Convs(items[..i]), Ids(items[..i]), items[i].conv, existing);
    BackfillAdvances(before, mid, after, items, pass, i, existing, done);
    WaitingSnoc(before, items, i);
    ReasonsGrow(reasons, Waiting(before, items[..i]), pass.active, existing.None?,
                before.conversations[items[i].conv].channel);
  }

  lemma BackfillStarts(db: Db, items: seq<Item>, pass: Pass)
    requires Backfillable(db, items, pass)
    ensures BackfillAt(db, db, items, pass, 0, 0, 0, [])
  {
    RanNothing(db, QuietPass(db, items, pass));
    NothingTouched(db);
    assert items[..0] == [] && Convs([]) == {} && Ids([]) == {} && Waiting(db, []) == {};
  }

  lemma BackfillEnds(before: Db, now: Db, items: seq<Item>, pass: Pass, processed: nat, skipped: nat,
                     reasons: seq<string>)
    requires Backfillable(before, items, pass)
             && BackfillAt(before, now, items, pass, |items|, processed, skipped, reasons)
    ensures BackfillDone(before, now, items, pass, processed, skipped, reasons)
  {
    assert items[..|items|] == items;
  }

  /** What the pass has done and what it reports. */
  ghost predicate BackfillDone(before: Db, now: Db, items: seq<Item>, pass: Pass, processed: nat, skipped: nat,
                               reasons: seq<string>)
    requires Backfillable(before, items, pass)
  {
    var steps := BackfillSteps(before, items, pass);
    && Ran(before, now, steps, QuietPass(before, items, pass))
    && processed == |steps| && processed + skipped == |items|
    && Reasons(reasons, Waiting(before, items), pass.active)
  }

  /** The loop body. */
  method BackfillOneOf(store: EvaluationStore, ghost before: Db, items: seq<Item>, pass: Pass, i: nat,
                       processed: nat, skipped: nat, reasons: seq<string>, formCache: map<string, Option<FormRef>>)
    returns (processed': nat, skipped': nat, reasons': seq<string>, formCache': map<string, Option<FormRef>>)
    requires Backfillable(before, items, pass) && i < |items|
    requires BackfillAt(before, store.Snapshot(), items, pass, i, processed, skipped, reasons)
    requires forall ch :: ch in formCache ==> formCache[ch] == pass.active(ch)
    modifies store
    ensures BackfillAt(before, store.Snapshot(), items, pass, i + 1, processed', skipped', reasons')
    ensures forall ch :: ch in formCache' ==> formCache'[ch] == pass.active(ch)
  {
    ghost var mid := store.Snapshot();
    NextIsPending(before, mid, items, pass, i);
    var channel := store.conversations[items[i].conv].channel;
    var form, existing, done;
    formCache', form := CachedForm(formCache, channel, pass.active);
    existing, done := BackfillNext(store, items[i], form, pass);
    BackfillTurn(before, mid, store.Snapshot(), items, pass, i, existing, done, processed, skipped, reasons);
    processed', skipped' := if done then processed + 1 else processed, if done then skipped else skipped + 1;
    reasons' := WithReason(reasons, existing.None? && form.None?, channel);
  }

  method BackfillPending(store: EvaluationStore, items: seq<Item>, pass: Pass)
    returns (processed: nat, skipped: nat, reasons: seq<string>)
    requires Backfillable(store.Snapshot(), items, pass)
    modifies store
    ensures BackfillDone(old(store.Snapshot()), store.Snapshot(), items, pass, processed, skipped, reasons)
  {
    ghost var before := store.Snapshot();
    processed, skipped, reasons := 0, 0, [];
    var formCache: map<string, Option<FormRef>> := map[];
    BackfillStarts(before, items, pass);
    for i := 0 to |items|
      invariant BackfillAt(before, store.Snapshot(), items, pass, i, processed, skipped, reasons)
      invariant forall ch :: ch in formCache ==> formCache[ch] == pass.active(ch)
    {
      processed, skipped, reasons, formCache :=
        BackfillOneOf(store, before, items, pass, i, processed, skipped, reasons, formCache);
    }
    BackfillEnds(before, store.Snapshot(), items, pass, processed, skipped, reasons);
  }

  /** A backfill with the model enabled keeps the invariant, whatever jobs
      are queued; one without it does when it meets none. */
  lemma BackfillIsSafe(before: Db, after: Db, items: seq<Item>, pass: Pass)
    requires Backfillable(before, items, pass) && Inv(SystemOf(before)) && QuietPass(before, items, pass)
    requires Ran(before, after, BackfillSteps(before, items, pass), QuietPass(before, items, pass))
    ensures Inv(SystemOf(after))
  {
    RanKeepsInv(before, after, BackfillSteps(before, items, pass));
  }

  // ---------------------------------------------------------------------
  // The remap

  function ChannelOf(db: Db, e: string): string
    requires e in db.evaluations && db.evaluations[e].conversationId in db.conversations
  {
    db.conversations[db.evaluations[e].conversationId].channel
  }

  /** Its form is unreadable. */
  predicate Unreadable(db: Db, e: string)
    requires e in db.evaluations && db.evaluations[e].ev.formId in db.forms
  {
    Corrupted(db.forms[db.evaluations[e].ev.formId])
  }

  /** What a remap needs: evaluations that wait for QA, each once, and known
      replacements. */
  ghost predicate Remappable(db: Db, waiting: seq<string>, valid: string -> Option<FormRef>) {
    && Consistent(db) && Distinct(waiting)
    && (forall e :: e in waiting ==> e in db.evaluations && db.evaluations[e].ev.state == QaPending)
    && (forall ch :: valid(ch).Some? ==> valid(ch).value.0 in db.forms && !Corrupted(db.forms[valid(ch).value.0]))
  }

  ghost predicate AllThere(db: Db, waiting: seq<string>) {
    Consistent(db) && forall e :: e in waiting ==> e in db.evaluations
  }

  /** The remap of one evaluation. */
  function RemapStep(e: string, ev: Evaluation, form: Form, replacement: Option<FormRef>): seq<Step> {
    if Corrupted(form) && replacement.Some? && replacement.value != (ev.formId, ev.formVersion)
    then [On(e, RemapTo(replacement))]
    else []
  }

  /** The same, judged by the tables as they are. */
  function JudgedRemap(db: Db, e: string, valid: string -> Option<FormRef>): seq<Step>
    requires e in db.evaluations && db.evaluations[e].ev.formId in db.forms
             && db.evaluations[e].conversationId in db.conversations
  {
    RemapStep(e, db.evaluations[e].ev, db.forms[db.evaluations[e].ev.formId], valid(ChannelOf(db, e)))
  }

  ghost function RemapSteps(db: Db, waiting: seq<string>, valid: string -> Option<FormRef>): seq<Step>
    requires AllThere(db, waiting)
  {
    if waiting == [] then []
    else
      var n := |waiting| - 1;
      RemapSteps(db, waiting[..n], valid) + JudgedRemap(db, waiting[n], valid)
  }

  /** The channels of the listed evaluations with an unreadable form. */
  ghost function UnreadableChannels(db: Db, waiting: seq<string>): set<string>
    requires AllThere(db, waiting)
  {
    set e | e in waiting && Unreadable(db, e) :: ChannelOf(db, e)
  }

  /** The conversations of the listed evaluations. */
  ghost function ConvsOf(db: Db, waiting: seq<string>): set<string>
    requires AllThere(db, waiting)
  {
    set e | e in waiting :: db.evaluations[e].conversationId
  }

  /** Where a readable form was to be had, the evaluation has one. */
  ghost predicate Cured(before: Db, now: Db, done: seq<string>, valid: string -> Option<FormRef>)
    requires AllThere(before, done)
  {
    && Consistent(now)
    && forall e :: e in done ==>
         e in now.evaluations && (valid(ChannelOf(before, e)).Some? ==> !Unreadable(now, e))
  }

  ghost predicate RemapAt(before: Db, now: Db, waiting: seq<string>, valid: string -> Option<FormRef>, i: nat,
                          remapped: nat, skipped: nat, reasons: seq<string>)
    requires AllThere(before, waiting)
  {
    && i <= |waiting|
    && Ran(before, now, RemapSteps(before, waiting[..i], valid), true)
    && Untouched(before, now, ConvsOf(before, waiting[..i]), {}) && now.forms == before.forms
    && remapped == |RemapSteps(before, waiting[..i], valid)| && remapped + skipped == i
    && Reasons(reasons, UnreadableChannels(before, waiting[..i]), valid)
    && Cured(before, now, waiting[..i], valid)
  }

  /** What the pass has done and what it reports. */
  ghost predicate RemapDone(before: Db, now: Db, waiting: seq<string>, valid: string -> Option<FormRef>,
                            remapped: nat, skipped: nat, reasons: seq<string>)
    requires AllThere(before, waiting)
  {
    var steps := RemapSteps(before, waiting, valid);
    && Ran(before, now, steps, true)
    && remapped == |steps| && remapped + skipped == |waiting|
    && Reasons(reasons, UnreadableChannels(before, waiting), valid)
    && Cured(before, now, waiting, valid)
  }

  lemma WaitingFront(db: Db, waiting: seq<string>, valid: string -> Option<FormRef>, i: nat)
    requires AllThere(db, waiting) && i < |waiting|
    ensures waiting[..i + 1] == waiting[..i] + [waiting[i]]
    ensures RemapSteps(db, waiting[..i + 1], valid)
         == RemapSteps(db, waiting[..i], valid) + JudgedRemap(db, waiting[i], valid)
  {
    assert waiting[..i + 1] == waiting[..i] + [waiting[i]] && waiting[..i + 1][..i] == waiting[..i];
  }

  lemma WaitingChannels(db: Db, waiting: seq<string>, i: nat)
    requires AllThere(db, waiting) && i < |waiting|
    ensures UnreadableChannels(db, waiting[..i + 1])
         == UnreadableChannels(db, waiting[..i])
            + if Unreadable(db, waiting[i]) then {ChannelOf(db, waiting[i])} else {}
  {
    assert waiting[..i + 1] == waiting[..i] + [waiting[i]];
    assert forall x :: x in waiting[..i] + [waiting[i]] <==> x in waiting[..i] || x == waiting[i];
  }

  lemma WaitingConvs(db: Db, waiting: seq<string>, i: nat)
    requires AllThere(db, waiting) && Distinct(waiting) && i < |waiting|
    ensures ConvsOf(db, waiting[..i + 1]) == ConvsOf(db, waiting[..i]) + {db.evaluations[waiting[i]].conversationId}
    ensures db.evaluations[waiting[i]].conversationId !in ConvsOf(db, waiting[..i])
  {
    assert waiting[..i + 1] == waiting[..i] + [waiting[i]];
    assert forall x :: x in waiting[..i] + [waiting[i]] <==> x in waiting[..i] || x == waiting[i];
    forall e | e in waiting[..i] ensures db.evaluations[e].conversationId != db.evaluations[waiting[i]].conversationId {
      assert e != waiting[i];
    }
  }

  /** The evaluation is as it was when the pass began. */
  lemma StillWaiting(before: Db, mid: Db, waiting: seq<string>, i: nat)
    requires AllThere(before, waiting) && Distinct(waiting) && i < |waiting|
    requires Untouched(before, mid, ConvsOf(before, waiting[..i]), {}) && mid.forms == before.forms
    ensures var e := waiting[i];
            && e in mid.evaluations && mid.evaluations[e].ev == before.evaluations[e].ev
            && mid.evaluations[e].conversationId == before.evaluations[e].conversationId
            && mid.evaluations[e].conversationId in mid.conversations && ChannelOf(mid, e) == ChannelOf(before, e)
            && mid.evaluations[e].ev.formId in mid.forms && Unreadable(mid, e) == Unreadable(before, e)
  {
    var e := waiting[i];
    WaitingConvs(before, waiting, i);
    StillUntouched(before, mid, ConvsOf(before, waiting[..i]), {}, before.evaluations[e].conversationId);
    SameState(before, mid, e);
  }

  lemma UntouchedWider(before: Db, mid: Db, done: set<string>, conv: string)
    requires Untouched(before, mid, done, {})
    ensures Untouched(before, mid, done + {conv}, {})
  {
  }

  lemma UntouchedWrite(before: Db, mid: Db, after: Db, done: set<string>, e: string, c: Case)
    requires Untouched(before, mid, done, {}) && e in before.evaluations && e in mid.evaluations
             && Replaced(mid, after, e, c)
    requires OwnerAdded(mid.evaluations, after.evaluations, e, mid.evaluations[e].conversationId)
    requires SameChannels(mid.conversations, after.conversations)
    ensures Untouched(before, after, done + {before.evaluations[e].conversationId}, {})
  {
    UntouchedOne(before, mid, after, done, {}, before.evaluations[e].conversationId, e, e, c);
    CaseKeys(mid);
    CaseKeys(after);
  }

  lemma RemapStarts(db: Db, waiting: seq<string>, valid: string -> Option<FormRef>)
    requires AllThere(db, waiting)
    ensures RemapAt(db, db, waiting, valid, 0, 0, 0, [])
  {
    RanNothing(db, true);
  }

  lemma RemapEnds(before: Db, now: Db, waiting: seq<string>, valid: string -> Option<FormRef>, remapped: nat,
    skipped: nat, reasons: seq<string>)
    requires AllThere(before, waiting) && RemapAt(before, now, waiting, valid, |waiting|, remapped, skipped, reasons)
    ensures RemapDone(before, now, waiting, valid, remapped, skipped, reasons)
  {
    assert waiting[..|waiting|] == waiting;
  }

  /** Written to the listed evaluation only. */
  ghost predicate WroteTo(mid: Db, after: Db, e: string, c: Case) {
    && Replaced(mid, after, e, c) && e in mid.evaluations
    && OwnerAdded(mid.evaluations, after.evaluations, e, mid.evaluations[e].conversationId)
    && SameChannels(mid.conversations, after.conversations)
  }

  lemma RemapRuns(before: Db, mid: Db, after: Db, steps: seq<Step>, e: string, replacement: FormRef)
    requires Ran(before, mid, steps, true) && e in mid.evaluations && replacement.0 in mid.forms
    requires mid.evaluations[e].ev.formId in mid.forms
    requires WroteTo(mid, after, e, Remap(CaseAt(mid, e), mid.forms[mid.evaluations[e].ev.formId], Some(replacement)))
    ensures Ran(before, after, steps + [On(e, RemapTo(Some(replacement)))], true)
  {
    RanEvent(before, mid, after, steps, true, e, RemapTo(Some(replacement)),
             Remap(CaseAt(mid, e), mid.forms[mid.evaluations[e].ev.formId], Some(replacement)));
  }

  lemma CuredAlready(before: Db, mid: Db, waiting: seq<string>, valid: string -> Option<FormRef>, i: nat)
    requires Remappable(before, waiting, valid) && i < |waiting| && Cured(before, mid, waiting[..i], valid)
    requires Untouched(before, mid, ConvsOf(before, waiting[..i]), {}) && mid.forms == before.forms
    requires JudgedRemap(before, waiting[i], valid) == []
    ensures Cured(before, mid, waiting[..i + 1], valid)
  {
    StillWaiting(before, mid, waiting, i);
    PrefixSnoc(waiting, i);
  }

  lemma CuredNow(before: Db, mid: Db, after: Db, waiting: seq<string>, valid: string -> Option<FormRef>, i: nat,
    c: Case)
    requires Remappable(before, waiting, valid) && i < |waiting| && Cured(before, mid, waiting[..i], valid)
    requires Replaced(mid, after, waiting[i], c) && waiting[i] !in waiting[..i] && waiting[i] in mid.evaluations
    requires c.ev.formId in mid.forms && !Corrupted(mid.forms[c.ev.formId])
    ensures Cured(before, after, waiting[..i + 1], valid)
  {
    PrefixSnoc(waiting, i);
    CaseKeys(mid);
    CaseKeys(after);
    forall e | e in waiting[..i + 1]
      ensures e in after.evaluations && (valid(ChannelOf(before, e)).Some? ==> !Unreadable(after, e)) {
      if e == waiting[i] {
        CaseOf(after, e);
      } else {
        assert e in waiting[..i];
        SameState(mid, after, e);
      }
    }
  }

  lemma RemapSkips(before: Db, mid: Db, waiting: seq<string>, valid: string -> Option<FormRef>, i: nat,
                   remapped: nat, skipped: nat, reasons: seq<string>)
    requires Remappable(before, waiting, valid) && i < |waiting|
             && RemapAt(before, mid, waiting, valid, i, remapped, skipped, reasons)
    requires JudgedRemap(before, waiting[i], valid) == []
    ensures var channel := ChannelOf(before, waiting[i]);
            RemapAt(before, mid, waiting, valid, i + 1, remapped, skipped + 1,
                    WithReason(reasons, Unreadable(before, waiting[i]) && valid(channel).None?, channel))
  {
    WaitingFront(before, waiting, valid, i);
    WaitingConvs(before, waiting, i);
    WaitingChannels(before, waiting, i);
    UntouchedWider(before, mid, ConvsOf(before, waiting[..i]), before.evaluations[waiting[i]].conversationId);
    ReasonsGrow(reasons, UnreadableChannels(before, waiting[..i]), valid, Unreadable(before, waiting[i]),
                ChannelOf(before, waiting[i]));
    CuredAlready(before, mid, waiting, valid, i);
    assert RemapSteps(before, waiting[..i], valid) + [] == RemapSteps(before, waiting[..i], valid);
  }

  lemma RemapChanges(before: Db, mid: Db, after: Db, waiting: seq<string>, valid: string -> Option<FormRef>, i: nat,
                     remapped: nat, skipped: nat, reasons: seq<string>, replacement: FormRef)
    requires Remappable(before, waiting, valid) && i < |waiting|
             && RemapAt(before, mid, waiting, valid, i, remapped, skipped, reasons)
    requires valid(ChannelOf(before, waiting[i])) == Some(replacement)
    requires JudgedRemap(before, waiting[i], valid) == [On(waiting[i], RemapTo(Some(replacement)))]
    requires waiting[i] in mid.evaluations && mid.evaluations[waiting[i]].ev.formId in mid.forms
    requires WroteTo(mid, after, waiting[i],
                     Remap(CaseAt(mid, waiting[i]), mid.forms[mid.evaluations[waiting[i]].ev.formId],
                           Some(replacement)))
    ensures RemapAt(before, after, waiting, valid, i + 1, remapped + 1, skipped, reasons)
  {
    var e := waiting[i];
    WaitingFront(before, waiting, valid, i);
    WaitingConvs(before, waiting, i);
    WaitingChannels(before, waiting, i);
    ReasonsGrow(reasons, UnreadableChannels(before, waiting[..i]), valid, true, ChannelOf(before, waiting[i]));
    RemapRuns(before, mid, after, RemapSteps(before, waiting[..i], valid), e, replacement);
    var c := Remap(CaseAt(mid, e), mid.forms[mid.evaluations[e].ev.formId], Some(replacement));
    UntouchedWrite(before, mid, after, ConvsOf(before, waiting[..i]), e, c);
    StillWaiting(before, mid, waiting, i);
    CuredNow(before, mid, after, waiting, valid, i, c);
  }

  lemma RemapTurn(before: Db, mid: Db, after: Db, waiting: seq<string>, valid: string -> Option<FormRef>, i: nat,
                  remapped: nat, skipped: nat, reasons: seq<string>, done: bool)
    requires Remappable(before, waiting, valid) && i < |waiting|
             && RemapAt(before, mid, waiting, valid, i, remapped, skipped, reasons)
    requires var e := waiting[i];
             && e in mid.evaluations && mid.evaluations[e].ev == before.evaluations[e].ev
             && var replacement, form := valid(ChannelOf(before, e)), before.forms[before.evaluations[e].ev.formId];
                && (done <==> RemapStep(e, before.evaluations[e].ev, form, replacement) != [])
                && (if done then WroteTo(mid, after, e, Remap(CaseAt(mid, e), form, replacement)) else after == mid)
    ensures var channel := ChannelOf(before, waiting[i]);
            RemapAt(before, after, waiting, valid, i + 1,
                    if done then remapped + 1 else remapped, if done then skipped else skipped + 1,
                    WithReason(reasons, Unreadable(before, waiting[i]) && valid(channel).None?, channel))
  {
    if done {
      RemapChanges(before, mid, after, waiting, valid, i, remapped, skipped, reasons,
                   valid(ChannelOf(before, waiting[i])).value);
    } else {
      RemapSkips(before, mid, waiting, valid, i, remapped, skipped, reasons);
    }
  }

  method RemapNext(store: EvaluationStore, e: string, replacement: Option<FormRef>) returns (done: bool)
    requires store.Valid() && e in store.evaluations && store.evaluations[e].ev.formId in store.forms
    requires store.evaluations[e].ev.state == QaPending && (replacement.Some? ==> replacement.value.0 in store.forms)
    modifies store
    ensures var ev, form := old(store.evaluations[e].ev), old(store.forms[store.evaluations[e].ev.formId]);
            && (done <==> RemapStep(e, ev, form, replacement) != [])
            && (if done then WroteTo(old(store.Snapshot()), store.Snapshot(), e,
                                     Remap(old(store.At(e)), form, replacement))
                else store.Snapshot() == old(store.Snapshot()))
  {
    done := store.RemapEvaluation(e, replacement);
  }

  /** The loop body. */
  method RemapOneOf(store: EvaluationStore, ghost before: Db, waiting: seq<string>, valid: string -> Option<FormRef>,
    i: nat,
                    remapped: nat, skipped: nat, reasons: seq<string>, formCache: map<string, Option<FormRef>>)
    returns (remapped': nat, skipped': nat, reasons': seq<string>, formCache': map<string, Option<FormRef>>)
    requires Remappable(before, waiting, valid) && i < |waiting|
    requires RemapAt(before, store.Snapshot(), waiting, valid, i, remapped, skipped, reasons)
    requires forall ch :: ch in formCache ==> formCache[ch] == valid(ch)
    modifies store
    ensures RemapAt(before, store.Snapshot(), waiting, valid, i + 1, remapped', skipped', reasons')
    ensures forall ch :: ch in formCache' ==> formCache'[ch] == valid(ch)
  {
    ghost var mid := store.Snapshot();
    var e := waiting[i];
    StillWaiting(before, mid, waiting, i);
    var channel := store.conversations[store.evaluations[e].conversationId].channel;
    var unreadable := Corrupted(store.forms[store.evaluations[e].ev.formId]);
    var replacement;
    formCache', replacement := CachedForm(formCache, channel, valid);
    var done := RemapNext(store, e, replacement);
    RemapTurn(before, mid, store.Snapshot(), waiting, valid, i, remapped, skipped, reasons, done);
    remapped', skipped' := if done then remapped + 1 else remapped, if done then skipped else skipped + 1;
    reasons' := WithReason(reasons, unreadable && replacement.None?, channel);
  }

  method RemapCorrupted(store: EvaluationStore, waiting: seq<string>, valid: string -> Option<FormRef>)
    returns (remapped: nat, skipped: nat, reasons: seq<string>)
    requires Remappable(store.Snapshot(), waiting, valid)
    modifies store
    ensures RemapDone(old(store.Snapshot()), store.Snapshot(), waiting, valid, remapped, skipped, reasons)
  {
    ghost var before := store.Snapshot();
    remapped, skipped, reasons := 0, 0, [];
    var formCache: map<string, Option<FormRef>> := map[];
    RemapStarts(before, waiting, valid);
    for i := 0 to |waiting|
      invariant RemapAt(before, store.Snapshot(), waiting, valid, i, remapped, skipped, reasons)
      invariant forall ch :: ch in formCache ==> formCache[ch] == valid(ch)
    {
      remapped, skipped, reasons, formCache :=
        RemapOneOf(store, before, waiting, valid, i, remapped, skipped, reasons, formCache);
    }
    RemapEnds(before, store.Snapshot(), waiting, valid, remapped, skipped, reasons);
  }

  /** A remap keeps the invariant. */
  lemma RemapIsSafe(before: Db, after: Db, waiting: seq<string>, valid: string -> Option<FormRef>)
    requires AllThere(before, waiting) && Inv(SystemOf(before))
             && Ran(before, after, RemapSteps(before, waiting, valid), true)
    ensures Inv(SystemOf(after))
  {
    RanKeepsInv(before, after, RemapSteps(before, waiting, valid));
  }
}
