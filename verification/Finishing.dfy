/** Which evaluations can still be finished: all but those that no operation
    picks up any more. */
module Finishing {
  import opened Wrappers
  import opened Review
  import opened Workflow
  import opened WorkflowRuns
  import opened WorkflowTheorems

  const APPROVAL := [StartVerifier("v", 0), Approve("v")]

  /** One way to LOCKED for an evaluation that is not stuck. */
  function Ending(c: Case): seq<Event> {
    match c.ev.state
    case Locked => []
    case VerifierInProgress => [Approve(c.ev.verifierUser.GetOr(""))]
    case QaCompleted => APPROVAL
    case QaInProgress => [SubmitQa(c.ev.qaUser.GetOr(""), [], None, 0)] + APPROVAL
    case _ => [StartQa("q", 0), SubmitQa("q", [], None, 0)] + APPROVAL
  }

  function Finish(c: Case): seq<Event> {
    if c.ev.state !in {AiPending, AiInProgress, AiFailed} then Ending(c)
    else if c.jobs != [] then [JobSkips(0, 0)] + Ending(c)
    else if c.ev.state == AiPending then [UnstickPending(false, 0)] + Ending(c)
    else [RetryAi(true, false), UnstickPending(false, 0)] + Ending(c)
  }

  ghost predicate Finishes(forms: map<string, Form>, c: Case, es: seq<Event>) {
    QuietPath(forms, c, es) && After(forms, c, es).ev.state == Locked
  }

  lemma Prepend(forms: map<string, Form>, c: Case, e: Event, es: seq<Event>)
    requires Possible(forms, c, e) && !Overlaps(c, e) && Finishes(forms, Apply(forms, c, e), es)
    ensures Finishes(forms, c, [e] + es)
  {
    PathCons(forms, c, e, es);
  }

  lemma FromVerifier(forms: map<string, Form>, c: Case)
    requires CaseInv(forms, c) && c.ev.state == VerifierInProgress
    ensures Finishes(forms, c, [Approve(c.ev.verifierUser.value)])
  {
    var e := Approve(c.ev.verifierUser.value);
    assert QuietPath(forms, Apply(forms, c, e), []);
    Prepend(forms, c, e, []);
    assert [e] + [] == [e];
  }

  lemma FromCompleted(forms: map<string, Form>, c: Case)
    requires CaseInv(forms, c) && c.ev.state == QaCompleted
    ensures Finishes(forms, c, APPROVAL)
  {
    var e := StartVerifier("v", 0);
    var d := Apply(forms, c, e);
    EventKeepsInv(forms, c, e);
    assert d.ev.state == VerifierInProgress && d.ev.verifierUser == Some("v");
    FromVerifier(forms, d);
    Prepend(forms, c, e, [Approve("v")]);
    assert [e] + [Approve("v")] == APPROVAL;
  }

  lemma FromReview(forms: map<string, Form>, c: Case)
    requires CaseInv(forms, c) && c.ev.state == QaInProgress
    ensures Finishes(forms, c, [SubmitQa(c.ev.qaUser.value, [], None, 0)] + APPROVAL)
  {
    var e := SubmitQa(c.ev.qaUser.value, [], None, 0);
    var d := Apply(forms, c, e);
    EventKeepsInv(forms, c, e);
    assert d.ev.state == QaCompleted;
    FromCompleted(forms, d);
    Prepend(forms, c, e, APPROVAL);
  }

  lemma FromPending(forms: map<string, Form>, c: Case)
    requires CaseInv(forms, c) && c.ev.state == QaPending
    ensures Finishes(forms, c, [StartQa("q", 0), SubmitQa("q", [], None, 0)] + APPROVAL)
  {
    var e, es := StartQa("q", 0), [SubmitQa("q", [], None, 0)] + APPROVAL;
    var d := Apply(forms, c, e);
    EventKeepsInv(forms, c, e);
    assert d.ev.state == QaInProgress && d.ev.qaUser == Some("q");
    FromReview(forms, d);
    Prepend(forms, c, e, es);
    assert [e] + es == [StartQa("q", 0), SubmitQa("q", [], None, 0)] + APPROVAL;
  }

  lemma Continue(forms: map<string, Form>, c: Case, e: Event, es: seq<Event>)
    requires CaseInv(forms, c) && Possible(forms, c, e) && !Overlaps(c, e)
    requires Apply(forms, c, e).ev.state == QaPending
    requires es == [StartQa("q", 0), SubmitQa("q", [], None, 0)] + APPROVAL
    ensures Finishes(forms, c, [e] + es)
  {
    EventKeepsInv(forms, c, e);
    FromPending(forms, Apply(forms, c, e));
    Prepend(forms, c, e, es);
  }

  lemma FromUnqueued(forms: map<string, Form>, c: Case, es: seq<Event>)
    requires CaseInv(forms, c) && c.ev.state == AiPending && c.conv == Pending && c.jobs == []
    requires es == [StartQa("q", 0), SubmitQa("q", [], None, 0)] + APPROVAL
    ensures Finishes(forms, c, [UnstickPending(false, 0)] + es)
  {
    Continue(forms, c, UnstickPending(false, 0), es);
  }

  lemma FromFailed(forms: map<string, Form>, c: Case)
    requires CaseInv(forms, c) && c.ev.state == AiFailed && c.jobs == []
    ensures Finishes(forms, c, [RetryAi(true, false)] + ([UnstickPending(false, 0)] + Ending(c)))
  {
    var e := RetryAi(true, false);
    var d := Apply(forms, c, e);
    EventKeepsInv(forms, c, e);
    assert d.ev.state == AiPending && d.conv == Pending && d.jobs == [];
    FromUnqueued(forms, d, Ending(c));
    Prepend(forms, c, e, [UnstickPending(false, 0)] + Ending(c));
  }

  lemma FromAiStage(forms: map<string, Form>, c: Case)
    requires CaseInv(forms, c) && AiState(c.ev.state) && !Stuck(c)
    ensures Finishes(forms, c, Finish(c))
  {
    var es := Ending(c);
    if c.jobs != [] {
      Continue(forms, c, JobSkips(0, 0), es);
    } else if c.ev.state == AiPending {
      FromUnqueued(forms, c, es);
    } else {
      FromFailed(forms, c);
      assert [RetryAi(true, false)] + ([UnstickPending(false, 0)] + es) == Finish(c);
    }
  }

  lemma FinishLocks(forms: map<string, Form>, c: Case)
    requires CaseInv(forms, c) && !Stuck(c)
    ensures Finishes(forms, c, Finish(c))
  {
    match c.ev.state
    case Locked => assert QuietPath(forms, c, []);
    case VerifierInProgress => FromVerifier(forms, c);
    case QaCompleted => FromCompleted(forms, c);
    case QaInProgress => FromReview(forms, c);
    case QaPending => FromPending(forms, c);
    case _ => FromAiStage(forms, c);
  }

  /** Nothing moves a stuck evaluation. */
  lemma StuckStays(forms: map<string, Form>, c: Case, e: Event)
    requires CaseInv(forms, c) && Stuck(c) && Possible(forms, c, e)
    ensures Apply(forms, c, e) == c
  {
  }

  lemma {:induction false} StuckForever(forms: map<string, Form>, c: Case, es: seq<Event>)
    requires CaseInv(forms, c) && Stuck(c) && QuietPath(forms, c, es)
    ensures After(forms, c, es) == c
    decreases |es|
  {
    if es != [] {
      StuckStays(forms, c, es[0]);
      StuckForever(forms, c, es[1..]);
    }
  }

  /** An evaluation can still be locked exactly when it is not stuck. */
  lemma CanFinishIffNotStuck(forms: map<string, Form>, c: Case)
    requires CaseInv(forms, c)
    ensures (exists es :: Finishes(forms, c, es)) <==> !Stuck(c)
  {
    if Stuck(c) {
      forall es | QuietPath(forms, c, es) ensures After(forms, c, es).ev.state != Locked {
        StuckForever(forms, c, es);
      }
    } else {
      FinishLocks(forms, c);
    }
  }

  /** An upload whose enqueue fails is stuck from the start, and it is the
      only creation that is. */
  lemma BornStuckIff(formId: string, version: int, origin: Origin)
    ensures Stuck(Born(formId, version, origin))
       <==> origin.ByUpload? && origin.llmEnabled && origin.queueUp && !origin.enqueued
  {
  }
}
