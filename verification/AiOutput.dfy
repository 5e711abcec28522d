/** What the AI worker does with the model's JSON reply before scoring it
    (apps/api/src/evaluations/eval-process.worker.ts). */
module AiOutput {
  import opened Wrappers
  import opened Sequences
  import opened Answers
  import opened Scoring
  import opened ScoringProperties

  /** One entry of the parsed reply; a field that is absent is None. */
  datatype RawAnswer = RawAnswer(key: string, isObject: bool, value: Option<Value>, reasoning: Option<Value>,
                                 confidence: Option<Value>)

  datatype ReplyError = UnknownKey | NotAnObject | MissingValue | BadReasoning | BadConfidence | MissingKey

  function EntryError(known: set<string>, e: RawAnswer): Option<ReplyError> {
    if e.key !in known then Some(UnknownKey)
    else if !e.isObject then Some(NotAnObject)
    else if e.value.None? then Some(MissingValue)
    else if e.reasoning.Some? && !e.reasoning.value.Text? then Some(BadReasoning)
    else if e.confidence.Some? && !(e.confidence.value.Num? && 0.0 <= e.confidence.value.n <= 1.0)
            then Some(BadConfidence)
    else None
  }

  function QuestionKeys(questions: seq<Question>): set<string> {
    set q | q in questions :: q.key
  }

  function ReplyKeys(raw: seq<RawAnswer>): set<string> {
    set e | e in raw :: e.key
  }

  /** A reply is accepted when every entry is well formed and the keys are
      exactly the form's keys. */
  predicate ValidReply(raw: seq<RawAnswer>, questions: seq<Question>) {
    && (forall e :: e in raw ==> EntryError(QuestionKeys(questions), e).None?)
    && QuestionKeys(questions) <= ReplyKeys(raw)
  }

  method ValidateLlmAnswers(raw: seq<RawAnswer>, questions: seq<Question>) returns (error: Option<ReplyError>)
    ensures error.None? <==> ValidReply(raw, questions)
    ensures error == Some(MissingKey) ==> exists q :: q in questions && q.key !in ReplyKeys(raw)
    ensures error.Some? && error.value != MissingKey ==>
      exists e :: e in raw && EntryError(QuestionKeys(questions), e) == error
  {
    var known := QuestionKeys(questions);
    for i := 0 to |raw|
      invariant forall j :: 0 <= j < i ==> EntryError(known, raw[j]).None?
    {
      error := EntryError(known, raw[i]);
      if error.Some? { return; }
    }
    for i := 0 to |questions|
      invariant forall j :: 0 <= j < i ==> questions[j].key in ReplyKeys(raw)
    {
      if questions[i].key !in ReplyKeys(raw) {
        return Some(MissingKey);
      }
    }
    error := None;
  }

  function RawText(v: Option<Value>): Option<string> {
    if v.Some? && v.value.Text? then Some(v.value.s) else None
  }

  function RawNumber(v: Option<Value>): Option<real> {
    if v.Some? && v.value.Num? then Some(v.value.n) else None
  }

  function AnswersOf(raw: seq<RawAnswer>): map<string, Answer> {
    if raw == [] then map[]
    else
      var last := raw[|raw| - 1];
      AnswersOf(raw[..|raw| - 1])
        [last.key := Answer(last.value.GetOr(Undefined), RawText(last.reasoning), RawNumber(last.confidence), None)]
  }

  /** The loop that strips the reply down to answers. */
  method CollectAnswers(raw: seq<RawAnswer>) returns (answers: map<string, Answer>)
    ensures answers == AnswersOf(raw)
  {
    answers := map[];
    for i := 0 to |raw|
      invariant answers == AnswersOf(raw[..i])
    {
      var e := raw[i];
      assert raw[..i + 1][..i] == raw[..i];
      answers := answers[e.key := Answer(e.value.GetOr(Undefined), RawText(e.reasoning), RawNumber(e.confidence),
                                         None)];
    }
    assert raw[..|raw|] == raw;
  }

  lemma {:induction false} AnswerKeys(raw: seq<RawAnswer>)
    ensures AnswersOf(raw).Keys == ReplyKeys(raw)
  {
    if raw != [] {
      var front, last := raw[..|raw| - 1], raw[|raw| - 1];
      assert raw == front + [last];
      AnswerKeys(front);
    }
  }

  /** An accepted reply answers every question of the form and nothing else. */
  lemma AcceptedReplyCoversForm(raw: seq<RawAnswer>, questions: seq<Question>)
    requires ValidReply(raw, questions)
    ensures AnswersOf(raw).Keys == QuestionKeys(questions)
  {
    AnswerKeys(raw);
    forall k | k in ReplyKeys(raw) ensures k in QuestionKeys(questions) {
      var e :| e in raw && e.key == k;
      assert EntryError(QuestionKeys(questions), e).None?;
    }
  }

  // ---------------------------------------------------------------------
  // Routing by confidence

  /** The least confidence in the reply, clamped to [0, 1]. */
  function LeastConfidence(raw: seq<RawAnswer>): Option<real> {
    if raw == [] then None
    else
      var rest := LeastConfidence(raw[..|raw| - 1]);
      match RawNumber(raw[|raw| - 1].confidence)
      case None => rest
      case Some(c) =>
        var clamped := Clamp(c, 0.0, 1.0);
        if rest.Some? && rest.value < clamped then rest else Some(clamped)
  }

  function QueuePriority(raw: seq<RawAnswer>): int {
    match LeastConfidence(raw)
    case None => 5
    case Some(c) => if c < 0.6 then 1 else if c < 0.9 then 5 else 6
  }

  predicate Confident(raw: seq<RawAnswer>, bound: real) {
    forall e :: e in raw && RawNumber(e.confidence).Some? ==> RawNumber(e.confidence).value >= bound
  }

  /** The review is made mandatory by one answer below 0.6, and eased only
      when some answer states a confidence and none is below 0.9. */
  lemma PriorityMeaning(raw: seq<RawAnswer>)
    ensures QueuePriority(raw) == 1 <==> !Confident(raw, 0.6)
    ensures QueuePriority(raw) == 6 <==> Confident(raw, 0.9) && exists e :: e in raw && RawNumber(e.confidence).Some?
  {
    LeastIsLower(raw);
  }

  lemma {:induction false} LeastIsLower(raw: seq<RawAnswer>)
    ensures LeastConfidence(raw).None? ==> forall e :: e in raw ==> RawNumber(e.confidence).None?
    ensures LeastConfidence(raw).Some? ==>
      exists e :: e in raw && RawNumber(e.confidence).Some?
        && LeastConfidence(raw).value == Clamp(RawNumber(e.confidence).value, 0.0, 1.0)
    ensures forall e :: e in raw && RawNumber(e.confidence).Some? ==>
              LeastConfidence(raw).Some? && LeastConfidence(raw).value <= Clamp(RawNumber(e.confidence).value, 0.0, 1.0)
  {
    if raw != [] {
      var front, last := raw[..|raw| - 1], raw[|raw| - 1];
      assert raw == front + [last];
      assert last in raw;
      LeastIsLower(front);
    }
  }

  // ---------------------------------------------------------------------
  // The prompt builder sorts the form's question array where it stands.

  function ByOrder(): Question -> int {
    (q: Question) => q.order
  }

  /** Moves element i left to its place among the i sorted ones before it. */
  method PlaceQuestion(questions: array<Question>, i: nat)
    requires i < questions.Length
    modifies questions
    ensures questions[..i + 1] == Insert(ByOrder(), old(questions[i]), old(questions[..i]))
    ensures forall k :: i < k < questions.Length ==> questions[k] == old(questions[k])
  {
    ghost var sorted := questions[..i];
    var x := questions[i];
    var j := i;
    while j > 0 && questions[j - 1].order > x.order
      invariant 0 <= j <= i
      invariant forall k :: 0 <= k < j ==> questions[k] == sorted[k]
      invariant forall k :: j < k <= i ==> questions[k] == sorted[k - 1]
      invariant forall k :: i < k < questions.Length ==> questions[k] == old(questions[k])
      invariant forall k :: j <= k < i ==> sorted[k].order > x.order
    {
      questions[j] := questions[j - 1];
      j := j - 1;
    }
    InsertLands(ByOrder(), x, sorted, j);
    questions[j] := x;
    Spliced(questions[..i + 1], sorted, x, j);
  }

  lemma SortMeaning(questions: seq<Question>)
    ensures var sorted := StableSort(ByOrder(), questions);
            && multiset(sorted) == multiset(questions)
            && forall i, j :: 0 <= i < j < |sorted| ==> sorted[i].order <= sorted[j].order
  {
    var sorted := StableSort(ByOrder(), questions);
    StableSortPermutes(ByOrder(), questions);
    StableSortSorted(ByOrder(), questions);
    assert forall i :: 0 <= i < |sorted| ==> ByOrder()(sorted[i]) == sorted[i].order;
  }

  method SortQuestions(questions: array<Question>)
    modifies questions
    ensures questions[..] == StableSort(ByOrder(), old(questions[..]))
    ensures multiset(questions[..]) == multiset(old(questions[..]))
    ensures forall i, j :: 0 <= i < j < questions.Length ==> questions[..][i].order <= questions[..][j].order
  {
    ghost var all := questions[..];
    var i := 0;
    while i < questions.Length
      invariant 0 <= i <= questions.Length
      invariant questions[..i] == StableSort(ByOrder(), all[..i])
      invariant forall k :: i <= k < questions.Length ==> questions[k] == all[k]
    {
      ghost var sorted := questions[..i];
      assert all[..i + 1][..i] == all[..i] && questions[i] == all[i];
      PlaceQuestion(questions, i);
      assert questions[..i + 1] == Insert(ByOrder(), all[i], sorted);
      i := i + 1;
    }
    assert questions[..] == questions[..i] && all == all[..i];
    SortMeaning(all);
  }

  lemma SortKeepsReplies(raw: seq<RawAnswer>, questions: seq<Question>)
    ensures ValidReply(raw, StableSort(ByOrder(), questions)) <==> ValidReply(raw, questions)
  {
    var sorted := StableSort(ByOrder(), questions);
    StableSortPermutes(ByOrder(), questions);
    assert forall q :: q in sorted <==> q in multiset(sorted);
    assert forall q :: q in questions <==> q in multiset(questions);
    assert QuestionKeys(sorted) == QuestionKeys(questions);
  }

  /** The score taken afterwards from the same, now reordered, array is the
      score of the form. */
  lemma SortKeepsScore(answers: map<string, Answer>, questions: seq<Question>, sections: seq<Section>,
                       strategy: Strategy)
    requires strategy.Valid()
    ensures Score(answers, StableSort(ByOrder(), questions), sections, strategy)
         == Score(answers, questions, sections, strategy)
  {
    StableSortPermutes(ByOrder(), questions);
    assert questions + [] == questions;
    QuestionOrderIrrelevant(answers, questions, [], StableSort(ByOrder(), questions), sections, strategy);
  }
}
