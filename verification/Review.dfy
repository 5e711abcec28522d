/** How a reviewer's submission is laid over the layer below it, and the
    deviation records this leaves behind (qaSubmit and verifierModify in
    apps/api/src/evaluations/evaluations.service.ts). */
module Review {
  import opened Wrappers
  import opened Sequences
  import opened Answers
  import opened Scoring

  /** One entry of the submitted record, in the order Object.entries lists. */
  datatype Adjustment = Adjustment(key: string, value: Value, overrideReason: Option<string>)

  datatype DeviationType = AiVsQa | QaVsVerifier

  /** questionKey is absent on the record of the overall scores. */
  datatype Deviation = Deviation(
    kind: DeviationType,
    questionKey: Option<string>,
    sectionId: Option<string>,
    scoreA: real,
    scoreB: real,
    deviation: real)

  /** A JSON object has each key once. */
  ghost predicate DistinctKeys(adjusted: seq<Adjustment>) {
    forall i, j :: 0 <= i < j < |adjusted| ==> adjusted[i].key != adjusted[j].key
  }

  function Keys(adjusted: seq<Adjustment>): set<string> {
    set a | a in adjusted :: a.key
  }

  function Overriding(a: Adjustment): Answer {
    Answer(a.value, None, None, a.overrideReason)
  }

  /** The lower layer with every submitted key replaced. */
  function Overlay(base: map<string, Answer>, adjusted: seq<Adjustment>): map<string, Answer> {
    if adjusted == [] then base
    else
      var last := adjusted[|adjusted| - 1];
      Overlay(base, adjusted[..|adjusted| - 1])[last.key := Overriding(last)]
  }

  /** A QA adjustment that changes an AI answer must say why. */
  predicate LacksReason(aiAnswers: map<string, Answer>, a: Adjustment) {
    a.key in aiAnswers && !StrictEq(a.value, aiAnswers[a.key].value) && !HasReason(a.overrideReason)
  }

  // ---------------------------------------------------------------------
  // Merging

  /** The loop of qaSubmit. The error is the first offending key. */
  method MergeQa(aiAnswers: map<string, Answer>, adjusted: seq<Adjustment>)
    returns (r: Result<map<string, Answer>, string>)
    ensures r.Success? <==> forall a :: a in adjusted ==> !LacksReason(aiAnswers, a)
    ensures r.Success? ==> r.value == Overlay(aiAnswers, adjusted)
    ensures r.Failure? ==> exists i :: 0 <= i < |adjusted| && LacksReason(aiAnswers, adjusted[i])
                             && r.error == adjusted[i].key && forall j :: 0 <= j < i ==>
                               !LacksReason(aiAnswers, adjusted[j])
  {
    var merged := aiAnswers;
    for i := 0 to |adjusted|
      invariant forall j :: 0 <= j < i ==> !LacksReason(aiAnswers, adjusted[j])
      invariant merged == Overlay(aiAnswers, adjusted[..i])
    {
      var a := adjusted[i];
      if LacksReason(aiAnswers, a) {
        return Failure(a.key);
      }
      assert adjusted[..i + 1][..i] == adjusted[..i];
      merged := merged[a.key := Overriding(a)];
    }
    assert adjusted[..|adjusted|] == adjusted;
    r := Success(merged);
  }

  /** The loop of verifierModify, where every entry needs a reason. */
  method MergeVerifier(qaAnswers: map<string, Answer>, modified: seq<Adjustment>)
    returns (r: Result<map<string, Answer>, string>)
    ensures r.Success? <==> forall a :: a in modified ==> HasReason(a.overrideReason)
    ensures r.Success? ==> r.value == Overlay(qaAnswers, modified)
    ensures r.Failure? ==> exists i :: 0 <= i < |modified| && !HasReason(modified[i].overrideReason)
                             && r.error == modified[i].key && forall j :: 0 <= j < i ==>
                               HasReason(modified[j].overrideReason)
  {
    var merged := qaAnswers;
    for i := 0 to |modified|
      invariant forall j :: 0 <= j < i ==> HasReason(modified[j].overrideReason)
      invariant merged == Overlay(qaAnswers, modified[..i])
    {
      var a := modified[i];
      if !HasReason(a.overrideReason) {
        return Failure(a.key);
      }
      assert modified[..i + 1][..i] == modified[..i];
      merged := merged[a.key := Overriding(a)];
    }
    assert modified[..|modified|] == modified;
    r := Success(merged);
  }

  /** The overlay holds exactly the submitted entries on top of a lower layer
      that is otherwise untouched. */
  lemma {:induction false} OverlayExact(base: map<string, Answer>, adjusted: seq<Adjustment>)
    requires DistinctKeys(adjusted)
    ensures Overlay(base, adjusted).Keys == base.Keys + Keys(adjusted)
    ensures forall a :: a in adjusted ==> Overlay(base, adjusted)[a.key] == Overriding(a)
    ensures forall k :: k in base && k !in Keys(adjusted) ==> Overlay(base, adjusted)[k] == base[k]
  {
    if adjusted != [] {
      var front, last := adjusted[..|adjusted| - 1], adjusted[|adjusted| - 1];
      assert adjusted == front + [last];
      OverlayExact(base, front);
      assert Keys(adjusted) == Keys(front) + {last.key};
    }
  }

  /** Every answer of an accepted submission whose value is not the AI's
      carries a reason. */
  lemma ChangedAnswersExplained(aiAnswers: map<string, Answer>, adjusted: seq<Adjustment>, k: string)
    requires DistinctKeys(adjusted) && forall a :: a in adjusted ==> !LacksReason(aiAnswers, a)
    requires k in aiAnswers
    ensures var merged := Overlay(aiAnswers, adjusted);
            k in merged && (merged[k].value != aiAnswers[k].value ==> HasReason(merged[k].overrideReason))
  {
    OverlayExact(aiAnswers, adjusted);
    if k in Keys(adjusted) {
      var a :| a in adjusted && a.key == k;
    }
  }

  // ---------------------------------------------------------------------
  // Deviation records

  function Distance(x: real, y: real): (d: real)
    ensures d >= 0.0
  {
    if x >= y then x - y else y - x
  }

  /** The last question with a key names its section. */
  function SectionOf(questions: seq<Question>, key: string): Option<string> {
    if questions == [] then None
    else
      var last := questions[|questions| - 1];
      if last.key == key then Some(last.sectionId) else SectionOf(questions[..|questions| - 1], key)
  }

  method SectionMap(questions: seq<Question>) returns (m: map<string, string>)
    ensures forall k :: k in m <==> SectionOf(questions, k).Some?
    ensures forall k :: k in m ==> SectionOf(questions, k) == Some(m[k])
  {
    m := map[];
    for i := 0 to |questions|
      invariant forall k :: k in m <==> SectionOf(questions[..i], k).Some?
      invariant forall k :: k in m ==> SectionOf(questions[..i], k) == Some(m[k])
    {
      assert questions[..i + 1][..i] == questions[..i];
      m := m[questions[i].key := questions[i].sectionId];
    }
    assert questions[..|questions|] == questions;
  }

  function Numeric(v: Value): real {
    if v.Num? then v.n else 0.0
  }

  /** An override replaces a defined lower value by one that prints differently. */
  predicate Overridden(show: real -> string, base: map<string, Answer>, a: Adjustment) {
    a.key in base && base[a.key].value != Undefined && TextOf(show, a.value) != TextOf(show, base[a.key].value)
  }

  function OverrideRecord(kind: DeviationType, questions: seq<Question>, base: map<string, Answer>,
                          a: Adjustment): Deviation
    requires a.key in base
  {
    Deviation(kind, Some(a.key), SectionOf(questions, a.key), Numeric(base[a.key].value), Numeric(a.value), 1.0)
  }

  /** One record for each overridden key, in submission order. */
  function OverrideRecords(kind: DeviationType, show: real -> string, questions: seq<Question>,
                           base: map<string, Answer>, adjusted: seq<Adjustment>): seq<Deviation> {
    if adjusted == [] then []
    else
      var last := adjusted[|adjusted| - 1];
      OverrideRecords(kind, show, questions, base, adjusted[..|adjusted| - 1])
      + if Overridden(show, base, last) then [OverrideRecord(kind, questions, base, last)] else []
  }

  function OverallRecord(kind: DeviationType, lower: Option<real>, score: real): seq<Deviation> {
    if lower.None? then [] else [Deviation(kind, None, None, lower.value, score, Distance(score, lower.value))]
  }

  /** Records of one submission, the overall one first. */
  function Deviations(kind: DeviationType, show: real -> string, questions: seq<Question>, base: map<string, Answer>,
                      adjusted: seq<Adjustment>, lower: Option<real>, score: real): seq<Deviation> {
    OverallRecord(kind, lower, score) + OverrideRecords(kind, show, questions, base, adjusted)
  }

  method RecordDeviations(kind: DeviationType, show: real -> string, questions: seq<Question>,
    base: map<string, Answer>,
                          adjusted: seq<Adjustment>, lower: Option<real>, score: real)
    returns (records: seq<Deviation>, overall: real)
    ensures records == Deviations(kind, show, questions, base, adjusted, lower, score)
    ensures overall == if lower.Some? then Distance(score, lower.value) else 0.0
  {
    records, overall := [], 0.0;
    if lower.Some? {
      overall := Distance(score, lower.value);
      records := [Deviation(kind, None, None, lower.value, score, overall)];
    }
    ghost var first := records;
    var sections := SectionMap(questions);
    for i := 0 to |adjusted|
      invariant records == first + OverrideRecords(kind, show, questions, base, adjusted[..i])
    {
      var a := adjusted[i];
      assert adjusted[..i + 1][..i] == adjusted[..i];
      if Overridden(show, base, a) {
        var section := if a.key in sections then Some(sections[a.key]) else None;
        records := records + [Deviation(kind, Some(a.key), section, Numeric(base[a.key].value), Numeric(a.value), 1.0)];
      }
    }
    assert adjusted[..|adjusted|] == adjusted;
  }

  function ForKey(k: string): Deviation -> bool {
    (d: Deviation) => d.questionKey == Some(k)
  }

  function ForOverall(): Deviation -> bool {
    (d: Deviation) => d.questionKey == None
  }

  /** Each overridden key has exactly one record and no other key has any;
      the overall record is there exactly when the lower layer was scored. */
  lemma {:induction false} OneRecordPerOverride(kind: DeviationType, show: real -> string, questions: seq<Question>,
    base: map<string, Answer>,
                                                adjusted: seq<Adjustment>, lower: Option<real>, score: real, k: string)
    requires DistinctKeys(adjusted)
    ensures var records := Deviations(kind, show, questions, base, adjusted, lower, score);
            && |FilterBy(ForKey(k), records)|
              == (if exists a :: a in adjusted && a.key == k && Overridden(show, base, a) then 1 else 0)
            && FilterBy(ForOverall(), records) == OverallRecord(kind, lower, score)
            && |records| == (if lower.Some? then 1 else 0) + |OverrideRecords(kind, show, questions, base, adjusted)|
  {
    var overall, keyed := OverallRecord(kind, lower, score), OverrideRecords(kind, show, questions, base, adjusted);
    FilterAppend(ForKey(k), overall, keyed);
    FilterAppend(ForOverall(), overall, keyed);
    KeyedRecords(kind, show, questions, base, adjusted, k);
    FilterSnoc(ForOverall(), [], Deviation(kind, None, None, lower.GetOr(0.0), score,
                                           Distance(score, lower.GetOr(0.0))));
    assert [] + overall == overall;
  }

  lemma {:induction false} KeyedRecords(kind: DeviationType, show: real -> string, questions: seq<Question>,
    base: map<string, Answer>,
                                        adjusted: seq<Adjustment>, k: string)
    requires DistinctKeys(adjusted)
    ensures var keyed := OverrideRecords(kind, show, questions, base, adjusted);
            && |FilterBy(ForKey(k), keyed)|
              == (if exists a :: a in adjusted && a.key == k && Overridden(show, base, a) then 1 else 0)
            && FilterBy(ForOverall(), keyed) == []
  {
    if adjusted != [] {
      var front, last := adjusted[..|adjusted| - 1], adjusted[|adjusted| - 1];
      assert adjusted == front + [last];
      KeyedRecords(kind, show, questions, base, front, k);
      var keyed := OverrideRecords(kind, show, questions, base, front);
      if Overridden(show, base, last) {
        FilterSnoc(ForKey(k), keyed, OverrideRecord(kind, questions, base, last));
        FilterSnoc(ForOverall(), keyed, OverrideRecord(kind, questions, base, last));
        assert last.key == k ==> forall a :: a in front ==> a.key != k;
      } else {
        assert keyed + [] == keyed;
      }
    }
  }
}
