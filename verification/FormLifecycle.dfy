/** The life cycle of a form (forms.service.ts) beside the workflow: only a
    DRAFT form is edited, only a PUBLISHED form is given to an evaluation.
    When an unpublish is harmless, and why no edit then changes a result. */
module FormLifecycle {
  import opened Wrappers
  import opened Answers
  import opened Workflow
  import opened WorkflowRuns
  import opened WorkflowTheorems
  import opened Finishing
  import Forms

  /** The workflow, and the status of each of its forms. */
  datatype Platform = Platform(sys: System, status: map<string, Forms.Status>)

  datatype Act =
    | Work(step: Step)
    | AddForm(formId: string, content: Form)
    | EditForm(formId: string, content: Form)
    | Change(formId: string, action: Forms.StatusAction)

  const START := Platform(INITIAL, map[])

  predicate HasStatus(p: Platform, formId: string, status: Forms.Status) {
    formId in p.status && p.status[formId] == status
  }

  /** Upload, ingest, backfill and remap look up published forms. */
  predicate GivesPublished(p: Platform, step: Step) {
    match step
    case Create(_, formId, _, _) => HasStatus(p, formId, Forms.Published)
    case On(_, RemapTo(Some(replacement))) => HasStatus(p, replacement.0, Forms.Published)
    case On(_, _) => true
    case PutForm(_, _) => false
  }

  /** What the services accept. */
  predicate Accepted(p: Platform, act: Act) {
    match act
    case Work(step) => GivesPublished(p, step) && Enabled(p.sys, step)
    case AddForm(formId, _) => formId !in p.status && formId !in p.sys.forms
    case EditForm(formId, _) => HasStatus(p, formId, Forms.Draft)
    case Change(formId, action) => formId in p.status && Forms.MayChange(p.status[formId], action)
  }

  function Edited(s: System, formId: string, content: Form): System {
    s.(forms := s.forms[formId := content])
  }

  function Do(p: Platform, act: Act): Platform
    requires Accepted(p, act)
  {
    match act
    case Work(step) => p.(sys := Next(p.sys, step))
    case AddForm(formId, content) => Platform(Edited(p.sys, formId, content), p.status[formId := Forms.Draft])
    case EditForm(formId, content) => p.(sys := Edited(p.sys, formId, content))
    case Change(formId, action) => p.(status := p.status[formId := Forms.Target(action)])
  }

  /** What the services do not check: that a workflow step overlaps no job,
      and that an unpublished form is bound to stuck evaluations at most. */
  predicate Careful(p: Platform, act: Act) {
    match act
    case Work(step) => Quiet(p.sys, step)
    case Change(formId, Unpublish) => FormFree(p.sys, formId)
    case _ => true
  }

  // ---------------------------------------------------------------------
  // The invariant

  predicate DraftsAreFree(p: Platform) {
    forall formId :: formId in p.status && p.status[formId] == Forms.Draft ==> FormFree(p.sys, formId)
  }

  predicate PlatformInv(p: Platform) {
    p.status.Keys == p.sys.forms.Keys && Inv(p.sys) && DraftsAreFree(p)
  }

  lemma BoundIsOwn(forms: map<string, Form>, c: Case, formId: string)
    requires CaseInv(forms, c)
    ensures BoundTo(c, formId) <==> c.ev.formId == formId
  {
  }

  /** An event binds the evaluation to no other form, except the remap. */
  lemma KeepsForm(forms: map<string, Form>, c: Case, e: Event)
    requires Possible(forms, c, e)
    ensures Apply(forms, c, e).ev.formId != c.ev.formId ==>
              e.RemapTo? && e.replacement.Some? && Apply(forms, c, e).ev.formId == e.replacement.value.0
  {
  }

  lemma StaysFree(s: System, id: string, c: Case, formId: string)
    requires FormFree(s, formId) && (BoundTo(c, formId) ==> Stuck(c))
    ensures FormFree(s.(cases := s.cases[id := c]), formId)
  {
  }

  /** An event binds no evaluation to a draft but a stuck one. */
  lemma EventKeepsFree(p: Platform, id: string, e: Event, draft: string)
    requires PlatformInv(p) && Accepted(p, Work(On(id, e))) && Careful(p, Work(On(id, e)))
    requires HasStatus(p, draft, Forms.Draft)
    ensures var d := Apply(p.sys.forms, p.sys.cases[id], e); BoundTo(d, draft) ==> Stuck(d)
  {
    var c := p.sys.cases[id];
    var d := Apply(p.sys.forms, c, e);
    EventKeepsInv(p.sys.forms, c, e);
    KeepsForm(p.sys.forms, c, e);
    BoundIsOwn(p.sys.forms, c, draft);
    BoundIsOwn(p.sys.forms, d, draft);
    if BoundTo(c, draft) { StuckStays(p.sys.forms, c, e); }
  }

  lemma EventKeepsDraftsFree(p: Platform, id: string, e: Event)
    requires PlatformInv(p) && Accepted(p, Work(On(id, e))) && Careful(p, Work(On(id, e)))
    ensures DraftsAreFree(Do(p, Work(On(id, e))))
  {
    forall draft | draft in p.status && p.status[draft] == Forms.Draft ensures FormFree(Next(p.sys, On(id, e)), draft) {
      EventKeepsFree(p, id, e, draft);
      StaysFree(p.sys, id, Apply(p.sys.forms, p.sys.cases[id], e), draft);
    }
  }

  lemma CreationKeepsDraftsFree(p: Platform, id: string, formId: string, version: int, origin: Origin)
    requires PlatformInv(p) && Accepted(p, Work(Create(id, formId, version, origin)))
    ensures DraftsAreFree(Do(p, Work(Create(id, formId, version, origin))))
  {
    var c := Born(formId, version, origin);
    BornInv(p.sys.forms, formId, version, origin);
    forall draft | draft in p.status && p.status[draft] == Forms.Draft
      ensures FormFree(Next(p.sys, Create(id, formId, version, origin)), draft)
    {
      BoundIsOwn(p.sys.forms, c, draft);
      StaysFree(p.sys, id, c, draft);
    }
  }

  lemma NewIsFree(s: System, formId: string)
    requires Inv(s) && formId !in s.forms
    ensures FormFree(s, formId)
  {
    forall id | id in s.cases ensures !BoundTo(s.cases[id], formId) {
      BoundIsOwn(s.forms, s.cases[id], formId);
    }
  }

  lemma ActKeepsInv(p: Platform, act: Act)
    requires PlatformInv(p) && Accepted(p, act) && Careful(p, act)
    ensures PlatformInv(Do(p, act))
  {
    match act
    case Work(step) =>
      StepKeepsInv(p.sys, step);
      if step.On? { EventKeepsDraftsFree(p, step.id, step.event); }
      else { CreationKeepsDraftsFree(p, step.id, step.formId, step.version, step.origin); }
    case AddForm(formId, content) =>
      NewIsFree(p.sys, formId);
      PutFormKeepsInv(p.sys, formId, content);
    case EditForm(formId, content) =>
      PutFormKeepsInv(p.sys, formId, content);
    case Change(_, _) =>
  }

  // ---------------------------------------------------------------------
  // Careful runs

  ghost predicate Goes(p: Platform, act: Act, q: Platform) {
    Accepted(p, act) && Careful(p, act) && q == Do(p, act)
  }

  ghost predicate CarefulRun(trace: seq<Platform>, acts: seq<Act>) {
    && |trace| == |acts| + 1 && trace[0] == START
    && forall i {:trigger acts[i]} :: 0 <= i < |acts| ==> Goes(trace[i], acts[i], trace[i + 1])
  }

  lemma {:induction false} CarefulRunKeepsInv(trace: seq<Platform>, acts: seq<Act>, i: nat)
    requires CarefulRun(trace, acts) && i < |trace|
    ensures PlatformInv(trace[i])
  {
    if i > 0 {
      CarefulRunKeepsInv(trace, acts, i - 1);
      ActKeepsInv(trace[i - 1], acts[i - 1]);
    }
  }

  /** With careful unpublishing every edit the service accepts is an edit of a
      form that is free. */
  lemma AcceptedEditIsFree(trace: seq<Platform>, acts: seq<Act>, i: nat, formId: string, content: Form)
    requires CarefulRun(trace, acts) && i < |trace| && Accepted(trace[i], EditForm(formId, content))
    ensures Enabled(trace[i].sys, PutForm(formId, content))
  {
    CarefulRunKeepsInv(trace, acts, i);
  }

  /** The step of the workflow that an act amounts to, if any. */
  function StepOf(act: Act): Option<Step> {
    match act
    case Work(step) => Some(step)
    case AddForm(formId, content) => Some(PutForm(formId, content))
    case EditForm(formId, content) => Some(PutForm(formId, content))
    case Change(_, _) => None
  }

  lemma ActIsQuietStep(p: Platform, act: Act)
    requires PlatformInv(p) && Accepted(p, act) && Careful(p, act)
    ensures match StepOf(act)
            case Some(step) => QuietStep(p.sys, step, Do(p, act).sys)
            case None => Do(p, act).sys == p.sys
  {
    if act.AddForm? { NewIsFree(p.sys, act.formId); }
  }

  /** A careful run is a quiet run of the workflow, so all that is proved of
      quiet runs holds of it. */
  lemma {:induction false} CarefulRunIsQuiet(trace: seq<Platform>, acts: seq<Act>, i: nat)
    returns (systems: seq<System>, steps: seq<Step>)
    requires CarefulRun(trace, acts) && i < |trace|
    ensures QuietRun(systems, steps) && systems[|steps|] == trace[i].sys
  {
    if i == 0 {
      systems, steps := [INITIAL], [];
    } else {
      systems, steps := CarefulRunIsQuiet(trace, acts, i - 1);
      CarefulRunKeepsInv(trace, acts, i - 1);
      ActIsQuietStep(trace[i - 1], acts[i - 1]);
      var step := StepOf(acts[i - 1]);
      if step.Some? { systems, steps := Extended(systems, steps, step.value, trace[i].sys); }
    }
  }

  /** So on every careful run, whatever forms are published, unpublished and
      edited, a locked result is the score of the final answers on the form
      as it is now. */
  lemma LockedResultStands(trace: seq<Platform>, acts: seq<Act>, i: nat, id: string)
    requires CarefulRun(trace, acts) && i < |trace| && id in trace[i].sys.cases
             && trace[i].sys.cases[id].ev.state == Locked
    ensures var ev, forms := trace[i].sys.cases[id].ev, trace[i].sys.forms;
            && ev.formId in forms && ev.finalLayer.Some?
            && var result := ScoreOn(forms[ev.formId], ev.finalLayer.value.answers);
               ev.finalScore == Some(result.overallScore) && ev.passFail == Some(result.passFail)
  {
    CarefulRunKeepsInv(trace, acts, i);
  }

  // ---------------------------------------------------------------------
  // What may follow

  /** The services accept the acts one after the other. */
  ghost predicate ActPath(p: Platform, acts: seq<Act>, careful: bool)
    decreases |acts|
  {
    acts == [] ||
    (Accepted(p, acts[0]) && (careful ==> Careful(p, acts[0])) && ActPath(Do(p, acts[0]), acts[1..], careful))
  }

  ghost function AfterActs(p: Platform, acts: seq<Act>): Platform
    decreases |acts|
  {
    if acts != [] && Accepted(p, acts[0]) then AfterActs(Do(p, acts[0]), acts[1..]) else p
  }

  /** Nothing that can still happen, carefully, breaks the workflow. */
  ghost predicate SafePlatform(p: Platform) {
    forall acts :: ActPath(p, acts, true) ==> Inv(AfterActs(p, acts).sys)
  }

  lemma {:induction false} CarefulPathKeepsInv(p: Platform, acts: seq<Act>)
    requires PlatformInv(p) && ActPath(p, acts, true)
    ensures PlatformInv(AfterActs(p, acts))
    decreases |acts|
  {
    if acts != [] {
      ActKeepsInv(p, acts[0]);
      CarefulPathKeepsInv(Do(p, acts[0]), acts[1..]);
    }
  }

  lemma {:induction false} PathAppend(p: Platform, acts: seq<Act>, more: seq<Act>, careful: bool)
    requires ActPath(p, acts, careful) && ActPath(AfterActs(p, acts), more, careful)
    ensures ActPath(p, acts + more, careful) && AfterActs(p, acts + more) == AfterActs(AfterActs(p, acts), more)
    decreases |acts|
  {
    if acts == [] {
      assert acts + more == more;
    } else {
      var all := acts + more;
      assert all[0] == acts[0] && all[1..] == acts[1..] + more;
      PathAppend(Do(p, acts[0]), acts[1..], more, careful);
    }
  }

  lemma OneAct(p: Platform, act: Act, careful: bool)
    requires Accepted(p, act) && (careful ==> Careful(p, act))
    ensures ActPath(p, [act], careful) && AfterActs(p, [act]) == Do(p, act)
  {
    assert [act][1..] == [];
    assert ActPath(Do(p, act), [], careful) && AfterActs(Do(p, act), []) == Do(p, act);
  }

  /** The events of one evaluation as acts of the platform. */
  function Lift(id: string, es: seq<Event>): seq<Act> {
    if es == [] then [] else [Work(On(id, es[0]))] + Lift(id, es[1..])
  }

  predicate NoRemap(es: seq<Event>) {
    forall e :: e in es ==> !e.RemapTo?
  }

  function With(p: Platform, id: string, c: Case): Platform {
    p.(sys := p.sys.(cases := p.sys.cases[id := c]))
  }

  lemma {:induction false} PathLifts(p: Platform, id: string, c: Case, es: seq<Event>)
    requires id in p.sys.cases && p.sys.cases[id] == c && QuietPath(p.sys.forms, c, es) && NoRemap(es)
    ensures ActPath(p, Lift(id, es), true)
    ensures AfterActs(p, Lift(id, es)) == With(p, id, After(p.sys.forms, c, es))
    decreases |es|
  {
    if es == [] {
      assert p.sys.cases[id := c] == p.sys.cases;
    } else {
      var d := Apply(p.sys.forms, c, es[0]);
      var acts := Lift(id, es);
      assert acts[0] == Work(On(id, es[0])) && acts[1..] == Lift(id, es[1..]);
      assert Do(p, acts[0]) == With(p, id, d);
      PathLifts(With(p, id, d), id, d, es[1..]);
      assert p.sys.cases[id := d][id := After(p.sys.forms, c, es)] == p.sys.cases[id := After(p.sys.forms, c, es)];
    }
  }

  /** A draft that a locked evaluation is bound to can be edited against it. */
  lemma EditBreaks(p: Platform, id: string, formId: string) returns (content: Form)
    requires Inv(p.sys) && id in p.sys.cases && p.sys.cases[id].ev.state == Locked
             && p.sys.cases[id].ev.formId == formId
    requires HasStatus(p, formId, Forms.Draft)
    ensures var q := Do(p, EditForm(formId, content));
            && !Inv(q.sys)
            && p.sys.cases[id].ev.passFail != Some(ScoreOn(content,
                                                           p.sys.cases[id].ev.finalLayer.value.answers).passFail)
  {
    EditCanContradictLock(p.sys.forms, p.sys.cases[id]);
    content :| p.sys.cases[id].ev.passFail != Some(ScoreOn(content,
                                                           p.sys.cases[id].ev.finalLayer.value.answers).passFail)
               && !CaseInv(p.sys.forms[formId := content], p.sys.cases[id]);
  }

  /** The evaluation goes on to LOCKED, whatever the status of its form. */
  lemma LocksAnyway(p: Platform, id: string)
    requires Inv(p.sys) && id in p.sys.cases && !Stuck(p.sys.cases[id])
    ensures var acts, c := Lift(id, Finish(p.sys.cases[id])), p.sys.cases[id];
            && ActPath(p, acts, true) && id in AfterActs(p, acts).sys.cases
            && var q := AfterActs(p, acts);
               && q.status == p.status && Inv(q.sys)
               && q.sys.cases[id].ev.state == Locked && q.sys.cases[id].ev.formId == c.ev.formId
  {
    var c := p.sys.cases[id];
    FinishLocks(p.sys.forms, c);
    FinishKeepsForm(p.sys.forms, c);
    QuietPathKeepsInv(p.sys.forms, c, Finish(c));
    PathLifts(p, id, c, Finish(c));
    ReplaceKeepsInv(p.sys, id, After(p.sys.forms, c, Finish(c)));
  }

  /** An evaluation that can still move reaches LOCKED while its form is a
      draft, for no service looks at the form's status; then the draft is
      edited against it. */
  lemma DraftBreaks(q: Platform, formId: string, id: string)
    requires Inv(q.sys) && HasStatus(q, formId, Forms.Draft)
    requires id in q.sys.cases && q.sys.cases[id].ev.formId == formId && !Stuck(q.sys.cases[id])
    ensures !SafePlatform(q)
  {
    var acts := Lift(id, Finish(q.sys.cases[id]));
    LocksAnyway(q, id);
    var content := EditBreaks(AfterActs(q, acts), id, formId);
    EditEndsPath(q, acts, formId, content);
  }

  lemma UnpublishBreaks(p: Platform, formId: string, id: string)
    requires PlatformInv(p) && Accepted(p, Change(formId, Forms.Unpublish))
    requires id in p.sys.cases && BoundTo(p.sys.cases[id], formId) && !Stuck(p.sys.cases[id])
    ensures !SafePlatform(Do(p, Change(formId, Forms.Unpublish)))
  {
    BoundIsOwn(p.sys.forms, p.sys.cases[id], formId);
    DraftBreaks(Do(p, Change(formId, Forms.Unpublish)), formId, id);
  }

  lemma EditEndsPath(q: Platform, acts: seq<Act>, formId: string, content: Form)
    requires ActPath(q, acts, true) && Accepted(AfterActs(q, acts), EditForm(formId, content))
    ensures ActPath(q, acts + [EditForm(formId, content)], true)
    ensures AfterActs(q, acts + [EditForm(formId, content)]) == Do(AfterActs(q, acts), EditForm(formId, content))
  {
    OneAct(AfterActs(q, acts), EditForm(formId, content), true);
    PathAppend(q, acts, [EditForm(formId, content)], true);
  }

  lemma {:induction false} NoRemapKeepsForm(forms: map<string, Form>, c: Case, es: seq<Event>)
    requires QuietPath(forms, c, es) && NoRemap(es)
    ensures After(forms, c, es).ev.formId == c.ev.formId
    decreases |es|
  {
    if es != [] {
      KeepsForm(forms, c, es[0]);
      NoRemapKeepsForm(forms, Apply(forms, c, es[0]), es[1..]);
    }
  }

  lemma FinishHasNoRemap(c: Case)
    ensures NoRemap(Finish(c))
  {
  }

  lemma FinishKeepsForm(forms: map<string, Form>, c: Case)
    requires QuietPath(forms, c, Finish(c))
    ensures NoRemap(Finish(c)) && After(forms, c, Finish(c)).ev.formId == c.ev.formId
  {
    FinishHasNoRemap(c);
    NoRemapKeepsForm(forms, c, Finish(c));
  }

  /** An overlap drags an evaluation back under its reviewer. */
  lemma OverlapBreaks(p: Platform, id: string, e: Event)
    requires PlatformInv(p) && Accepted(p, Work(On(id, e))) && Overlaps(p.sys.cases[id], e)
    ensures !SafePlatform(Do(p, Work(On(id, e))))
  {
    if e.RetryAi? {
      SecondRetryBreaks(p, id, e.queueUp);
    } else {
      EarlyBackfillBreaks(p, id, e.now);
    }
  }

  lemma RetryDoubles(forms: map<string, Form>, c: Case, queueUp: bool)
    requires CaseInv(forms, c) && Overlaps(c, RetryAi(queueUp, true))
    ensures |Apply(forms, c, RetryAi(queueUp, true)).jobs| == 2
    ensures Apply(forms, c, RetryAi(queueUp, true)).ev.formId == c.ev.formId
  {
  }

  lemma SecondRetryBreaks(p: Platform, id: string, queueUp: bool)
    requires PlatformInv(p) && id in p.sys.cases && Overlaps(p.sys.cases[id], RetryAi(queueUp, true))
    requires Accepted(p, Work(On(id, RetryAi(queueUp, true))))
    ensures !SafePlatform(Do(p, Work(On(id, RetryAi(queueUp, true)))))
  {
    var q, d := Do(p, Work(On(id, RetryAi(queueUp, true)))),
      Apply(p.sys.forms, p.sys.cases[id], RetryAi(queueUp, true));
    RetryDoubles(p.sys.forms, p.sys.cases[id], queueUp);
    SecondJobBreaks(p.sys.forms, d);
    DraggedBackBreaks(q, id, HANDED_OVER_AND_BACK);
  }

  lemma EarlyBackfillBreaks(p: Platform, id: string, at: int)
    requires PlatformInv(p) && id in p.sys.cases && Overlaps(p.sys.cases[id], UnstickPending(false, at))
    requires Accepted(p, Work(On(id, UnstickPending(false, at))))
    ensures !SafePlatform(Do(p, Work(On(id, UnstickPending(false, at)))))
  {
    var q, d := Do(p, Work(On(id, UnstickPending(false, at)))),
      Apply(p.sys.forms, p.sys.cases[id], UnstickPending(false, at));
    assert |d.jobs| == 1 && d.ev.state == QaPending && d.row.Some? && q.sys.cases[id] == d;
    LastTwoBreak(p.sys.forms, d);
    DraggedBackBreaks(q, id, HANDED_BACK);
  }

  lemma DraggedBackBreaks(q: Platform, id: string, es: seq<Event>)
    requires id in q.sys.cases && QuietPath(q.sys.forms, q.sys.cases[id], es) && NoRemap(es)
    requires DraggedBack(After(q.sys.forms, q.sys.cases[id], es))
    ensures !SafePlatform(q)
  {
    PathLifts(q, id, q.sys.cases[id], es);
    var r := AfterActs(q, Lift(id, es));
    assert r.sys.cases[id] == After(q.sys.forms, q.sys.cases[id], es);
    assert !CaseInv(r.sys.forms, r.sys.cases[id]) && !Inv(r.sys);
  }

  /** Exactly the careful acts are safe: an accepted act can be followed,
      carefully, by no breach of the workflow if and only if it overlaps no
      job and unpublishes no form that an evaluation still depends on. */
  lemma SafeIffCareful(p: Platform, act: Act)
    requires PlatformInv(p) && Accepted(p, act)
    ensures SafePlatform(Do(p, act)) <==> Careful(p, act)
  {
    if Careful(p, act) {
      ActKeepsInv(p, act);
      forall acts | ActPath(Do(p, act), acts, true) ensures Inv(AfterActs(Do(p, act), acts).sys) {
        CarefulPathKeepsInv(Do(p, act), acts);
      }
    } else if act.Work? {
      OverlapBreaks(p, act.step.id, act.step.event);
    } else {
      var id :| id in p.sys.cases && BoundTo(p.sys.cases[id], act.formId) && !Stuck(p.sys.cases[id]);
      UnpublishBreaks(p, act.formId, id);
    }
  }

  // ---------------------------------------------------------------------
  // A run that contradicts a locked result

  function Opening(content: Form): seq<Act> {
    [AddForm("f", content), Change("f", Forms.Publish), Work(Create("e", "f", 1, ByUpload(false, true, true, 0)))]
  }

  lemma Opened(content: Form)
    ensures ActPath(START, Opening(content), true)
    ensures AfterActs(START, Opening(content))
         == Platform(System(map["e" := Uploaded("f", 1, false, true, true, 0)], map["f" := content]),
                     map["f" := Forms.Published])
  {
    var p := Platform(System(map[], map["f" := content]), map["f" := Forms.Draft]);
    var q := p.(status := map["f" := Forms.Published]);
    var r := Platform(System(map["e" := Uploaded("f", 1, false, true, true, 0)], map["f" := content]), q.status);
    OneAct(START, Opening(content)[0], true);
    assert Do(START, Opening(content)[0]) == p;
    OneAct(p, Opening(content)[1], true);
    assert Do(p, Opening(content)[1]) == q;
    OneAct(q, Opening(content)[2], true);
    assert Do(q, Opening(content)[2]) == r;
    PathAppend(START, [Opening(content)[0]], [Opening(content)[1]], true);
    PathAppend(START, [Opening(content)[0]] + [Opening(content)[1]], [Opening(content)[2]], true);
    assert [Opening(content)[0]] + [Opening(content)[1]] + [Opening(content)[2]] == Opening(content);
  }

  /** Claim, submit, claim, approve. */
  const LOCKING := [StartQa("q", 0), SubmitQa("q", [], None, 0)] + APPROVAL

  lemma FinishFromUpload()
    ensures Finish(Uploaded("f", 1, false, true, true, 0)) == LOCKING && !Stuck(Uploaded("f", 1, false, true, true, 0))
  {
  }

  lemma LockedOnForm(content: Form) returns (acts: seq<Act>)
    ensures acts == Opening(content) + Lift("e", LOCKING) && ActPath(START, acts, true)
    ensures var p := AfterActs(START, acts);
            && Inv(p.sys) && p.status == map["f" := Forms.Published]
            && "e" in p.sys.cases && p.sys.cases["e"].ev.state == Locked && p.sys.cases["e"].ev.formId == "f"
  {
    Opened(content);
    var p := AfterActs(START, Opening(content));
    CarefulPathKeepsInv(START, Opening(content));
    FinishFromUpload();
    LocksAnyway(p, "e");
    var rest := Lift("e", LOCKING);
    PathAppend(START, Opening(content), rest, true);
    acts := Opening(content) + rest;
  }

  /** Publish a form, have an evaluation locked on it, unpublish it, edit it:
      every act is accepted, all but the unpublish are careful, and the stored
      flag is no longer what the form gives the final answers. */
  lemma LockedResultFalls(content: Form) returns (acts: seq<Act>, edited: Form)
    ensures acts == Opening(content) + Lift("e", LOCKING) && ActPath(START, acts, true)
    ensures var p := AfterActs(START, acts);
            && Accepted(p, Change("f", Forms.Unpublish)) && !Careful(p, Change("f", Forms.Unpublish))
            && var q := Do(p, Change("f", Forms.Unpublish));
               && Accepted(q, EditForm("f", edited)) && Careful(q, EditForm("f", edited))
               && var r := Do(q, EditForm("f", edited));
                  && "e" in r.sys.cases && "f" in r.sys.forms
                  && var ev := r.sys.cases["e"].ev;
                     && ev.state == Locked && ev.formId == "f" && ev.finalLayer.Some?
                     && ev.passFail != Some(ScoreOn(r.sys.forms["f"], ev.finalLayer.value.answers).passFail)
  {
    acts := LockedOnForm(content);
    var p := AfterActs(START, acts);
    BoundIsOwn(p.sys.forms, p.sys.cases["e"], "f");
    edited := EditBreaks(Do(p, Change("f", Forms.Unpublish)), "e", "f");
  }
}
