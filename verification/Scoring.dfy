/** Weighted section scoring (apps/api/src/evaluations/scoring.service.ts),
    over real numbers. */
module Scoring {
  import opened Wrappers
  import opened Sequences
  import opened Answers

  datatype QuestionType = Rating | Boolean | FreeText | Select | MultiSelect

  /** min and max are the two numeric fields of the optional validation object. */
  datatype Question = Question(
    sectionId: string,
    key: string,
    kind: QuestionType,
    weight: real,
    order: int,
    min: Option<real>,
    max: Option<real>)

  datatype Section = Section(id: string, title: string, weight: real)

  datatype RoundingPolicy = Round | Floor | Ceil

  datatype Strategy = Strategy(passMark: Option<real>, scale: Option<real>, rounding: RoundingPolicy) {
    function PassMark(): real { passMark.GetOr(70.0) }
    function Scale(): real { scale.GetOr(100.0) }

    /** A zero scale divides by zero, which IEEE arithmetic answers with NaN. */
    predicate Valid() { Scale() != 0.0 }
  }

  datatype Breakdown = Breakdown(title: string, raw: real, weight: real, weighted: real, questionCount: nat)

  datatype ScoreResult = ScoreResult(
    answers: map<string, Answer>,
    sectionScores: map<string, real>,
    overallScore: real,
    passFail: bool,
    breakdown: map<string, Breakdown>)

  function Clamp(value: real, low: real, high: real): real {
    var raised := if value < low then low else value;
    if raised > high then high else raised
  }

  function ScaleValue(value: real, min: real, max: real, scale: real): real {
    if max <= min then Clamp(value, 0.0, scale)
    else (Clamp(value, min, max) - min) / (max - min) * scale
  }

  /** A choice without validation bounds is taken as it stands. */
  function ScaleChoice(value: real, q: Question, scale: real): real {
    if q.max.Some? || q.min.Some? then ScaleValue(value, q.min.GetOr(0.0), q.max.GetOr(scale), scale)
    else value
  }

  function NormalizeAnswer(value: Value, q: Question, scale: real): real {
    match q.kind
    case Rating =>
      if value.Num? then ScaleValue(value.n, q.min.GetOr(0.0), q.max.GetOr(5.0), scale) else 0.0
    case Boolean =>
      if value == Bool(true) || value == Num(1.0) || value == Text("yes") || value == Text("true") then scale else 0.0
    case Select | MultiSelect =>
      (match value
       case Num(n) => ScaleChoice(n, q, scale)
       case Text(s) =>
         var parsed := ParseFloat(s);
         if parsed.None? then 0.0 else ScaleChoice(parsed.value, q, scale)
       case _ => 0.0)
    case FreeText => 0.0
  }

  function ApplyRounding(value: real, policy: RoundingPolicy): real {
    match policy
    case Floor => (value * 100.0).Floor as real / 100.0
    case Ceil => -((-(value * 100.0)).Floor) as real / 100.0
    case Round => (value * 100.0 + 0.5).Floor as real / 100.0
  }

  // ---------------------------------------------------------------------
  // Specification: each section filters the question list for itself.

  /** How a section score and the overall score are rounded. Exact is the
      same formula with no rounding, the reference for the error bounds. */
  datatype Mode = Rounded(policy: RoundingPolicy) | Exact

  function ApplyMode(value: real, mode: Mode): real {
    match mode case Rounded(p) => ApplyRounding(value, p) case Exact => value
  }

  function InSection(id: string): Question -> bool {
    (q: Question) => q.sectionId == id
  }

  function SectionQuestions(questions: seq<Question>, id: string): seq<Question> {
    FilterBy(InSection(id), questions)
  }

  function QuestionWeight(): Question -> real {
    (q: Question) => q.weight
  }

  /** A missing answer counts as zero. */
  function Normalized(answers: map<string, Answer>, scale: real, q: Question): real {
    if q.key in answers then NormalizeAnswer(answers[q.key].value, q, scale) else 0.0
  }

  function Contribution(answers: map<string, Answer>, scale: real): Question -> real
    requires scale != 0.0
  {
    (q: Question) => Times(Over(Normalized(answers, scale, q), scale), q.weight)
  }

  function WeightedAverage(total: real, weight: real): real {
    if weight > 0.0 then Over(total, weight) else 0.0
  }

  function ExactSection(answers: map<string, Answer>, questions: seq<Question>, id: string, scale: real): real
    requires scale != 0.0
  {
    var qs := SectionQuestions(questions, id);
    Times(WeightedAverage(SumBy(Contribution(answers, scale), qs), SumBy(QuestionWeight(), qs)), scale)
  }

  function SectionScore(answers: map<string, Answer>, questions: seq<Question>, id: string, scale: real,
                        mode: Mode): real
    requires scale != 0.0
  {
    ApplyMode(ExactSection(answers, questions, id, scale), mode)
  }

  /** Sections with no question of their own take no part. */
  function HasQuestions(questions: seq<Question>): Section -> bool {
    (s: Section) => SectionQuestions(questions, s.id) != []
  }

  function Scored(questions: seq<Question>, sections: seq<Section>): seq<Section> {
    FilterBy(HasQuestions(questions), sections)
  }

  function SectionWeight(): Section -> real {
    (s: Section) => s.weight
  }

  /** The table of section scores, indexed by section id. */
  function Scorer(answers: map<string, Answer>, questions: seq<Question>, scale: real, mode: Mode): string -> real
    requires scale != 0.0
  {
    (id: string) => SectionScore(answers, questions, id, scale, mode)
  }

  function WeightedScore(score: string -> real): Section -> real {
    (s: Section) => Times(score(s.id), s.weight)
  }

  function Overall(answers: map<string, Answer>, questions: seq<Question>, sections: seq<Section>, scale: real,
                   mode: Mode): real
    requires scale != 0.0
  {
    var used := Scored(questions, sections);
    var total := SumBy(WeightedScore(Scorer(answers, questions, scale, mode)), used);
    ApplyMode(WeightedAverage(total, SumBy(SectionWeight(), used)), mode)
  }

  function SectionScores(score: string -> real, used: seq<Section>): map<string, real> {
    if used == [] then map[]
    else
      var last := used[|used| - 1];
      SectionScores(score, used[..|used| - 1])[last.id := score(last.id)]
  }

  function BreakdownOf(score: string -> real, questions: seq<Question>, s: Section): Breakdown {
    Breakdown(s.title, score(s.id), s.weight, Times(score(s.id), s.weight), |SectionQuestions(questions, s.id)|)
  }

  /** When two sections share an id, the later one names the entry. */
  function Breakdowns(score: string -> real, questions: seq<Question>, used: seq<Section>): map<string, Breakdown> {
    if used == [] then map[]
    else
      var last := used[|used| - 1];
      Breakdowns(score, questions, used[..|used| - 1])[last.id := BreakdownOf(score, questions, last)]
  }

  /** The score of a form, section by section. */
  function Score(answers: map<string, Answer>, questions: seq<Question>, sections: seq<Section>,
                 strategy: Strategy): ScoreResult
    requires strategy.Valid()
  {
    var scale, mode := strategy.Scale(), Rounded(strategy.rounding);
    var score := Scorer(answers, questions, scale, mode);
    var used := Scored(questions, sections);
    var overall := Overall(answers, questions, sections, scale, mode);
    ScoreResult(
      answers,
      SectionScores(score, used),
      overall,
      overall >= strategy.PassMark(),
      Breakdowns(score, questions, used))
  }

  // ---------------------------------------------------------------------
  // The service's own loops: one grouped map, then one pass over sections.

  /** Groups the questions by section, in form order. */
  method GroupBySection(questions: seq<Question>) returns (groups: map<string, seq<Question>>)
    ensures forall id :: id in groups <==> SectionQuestions(questions, id) != []
    ensures forall id :: id in groups ==> groups[id] == SectionQuestions(questions, id)
  {
    groups := map[];
    for i := 0 to |questions|
      invariant forall id :: id in groups <==> SectionQuestions(questions[..i], id) != []
      invariant forall id :: id in groups ==> groups[id] == SectionQuestions(questions[..i], id)
    {
      var q := questions[i];
      assert questions[..i + 1] == questions[..i] + [q];
      forall id ensures SectionQuestions(questions[..i + 1], id)
                     == SectionQuestions(questions[..i], id) + if q.sectionId == id then [q] else [] {
        FilterSnoc(InSection(id), questions[..i], q);
      }
      if q.sectionId !in groups {
        groups := groups[q.sectionId := []];
      }
      groups := groups[q.sectionId := groups[q.sectionId] + [q]];
    }
    assert questions[..|questions|] == questions;
  }

  /** score is the table of section scores, known only through its entries:
      the section loop below never looks inside a section score. */
  ghost predicate Tabulates(score: string -> real, answers: map<string, Answer>, questions: seq<Question>, scale: real,
    mode: Mode)
    requires scale != 0.0
  {
    forall id {:trigger SectionScore(answers, questions, id, scale, mode)} ::
      score(id) == SectionScore(answers, questions, id, scale, mode)
  }

  method GroupWeight(qs: seq<Question>) returns (total: real)
    ensures total == SumBy(QuestionWeight(), qs)
  {
    total := 0.0;
    for i := 0 to |qs|
      invariant total == SumBy(QuestionWeight(), qs[..i])
    {
      assert qs[..i + 1] == qs[..i] + [qs[i]];
      SumSnoc(QuestionWeight(), qs[..i], qs[i]);
      total := total + qs[i].weight;
    }
    assert qs[..|qs|] == qs;
  }

  lemma RawStep(answers: map<string, Answer>, qs: seq<Question>, q: Question, scale: real, normalized: real)
    requires scale != 0.0 && normalized == Normalized(answers, scale, q)
    ensures SumBy(Contribution(answers, scale), qs + [q])
         == SumBy(Contribution(answers, scale), qs) + if q.key in answers then Times(Over(normalized, scale), q.weight)
           else 0.0
  {
    SumSnoc(Contribution(answers, scale), qs, q);
  }

  method GroupRaw(answers: map<string, Answer>, qs: seq<Question>, scale: real) returns (raw: real)
    requires scale != 0.0
    ensures raw == SumBy(Contribution(answers, scale), qs)
  {
    raw := 0.0;
    for i := 0 to |qs|
      invariant raw == SumBy(Contribution(answers, scale), qs[..i])
    {
      var q := qs[i];
      assert qs[..i + 1] == qs[..i] + [q];
      var normalized := if q.key in answers then NormalizeAnswer(answers[q.key].value, q, scale) else 0.0;
      RawStep(answers, qs[..i], q, scale, normalized);
      if q.key in answers {
        raw := raw + Times(Over(normalized, scale), q.weight);
      }
    }
    assert qs[..|qs|] == qs;
  }

  /** The rounded score of one section's question group. */
  method ScoreGroup(answers: map<string, Answer>, qs: seq<Question>, scale: real, policy: RoundingPolicy,
                    ghost questions: seq<Question>, ghost id: string, ghost score: string -> real)
    returns (rounded: real)
    requires scale != 0.0 && qs == SectionQuestions(questions, id)
    requires Tabulates(score, answers, questions, scale, Rounded(policy))
    ensures rounded == score(id)
  {
    var totalQWeight := GroupWeight(qs);
    var sectionRaw := GroupRaw(answers, qs, scale);
    var sectionScore := if totalQWeight > 0.0 then Times(Over(sectionRaw, totalQWeight), scale) else 0.0;
    assert sectionScore == ExactSection(answers, questions, id, scale);
    rounded := ApplyRounding(sectionScore, policy);
    assert rounded == SectionScore(answers, questions, id, scale, Rounded(policy));
  }

  /** One more scored section adds one term to each accumulator. */
  lemma SectionStep(score: string -> real, questions: seq<Question>, used: seq<Section>, s: Section, rounded: real,
    weighted: real)
    requires rounded == score(s.id) && weighted == Times(rounded, s.weight)
    ensures SectionScores(score, used + [s]) == SectionScores(score, used)[s.id := rounded]
    ensures Breakdowns(score, questions, used + [s])
         == Breakdowns(score, questions, used)
              [s.id := Breakdown(s.title, rounded, s.weight, weighted, |SectionQuestions(questions, s.id)|)]
    ensures SumBy(SectionWeight(), used + [s]) == SumBy(SectionWeight(), used) + s.weight
    ensures SumBy(WeightedScore(score), used + [s]) == SumBy(WeightedScore(score), used) + weighted
  {
    assert (used + [s])[..|used|] == used;
  }

  /** One scored section, with the terms it adds to those of the sections
      before it. */
  method ScoreSection(answers: map<string, Answer>, qs: seq<Question>, s: Section, scale: real, policy: RoundingPolicy,
                      ghost questions: seq<Question>, ghost score: string -> real, ghost used: seq<Section>)
    returns (rounded: real, weighted: real)
    requires scale != 0.0 && qs == SectionQuestions(questions, s.id)
    requires Tabulates(score, answers, questions, scale, Rounded(policy))
    ensures SectionScores(score, used + [s]) == SectionScores(score, used)[s.id := rounded]
    ensures Breakdowns(score, questions, used + [s])
         == Breakdowns(score, questions, used)[s.id := Breakdown(s.title, rounded, s.weight, weighted, |qs|)]
    ensures SumBy(SectionWeight(), used + [s]) == SumBy(SectionWeight(), used) + s.weight
    ensures SumBy(WeightedScore(score), used + [s]) == SumBy(WeightedScore(score), used) + weighted
  {
    rounded := ScoreGroup(answers, qs, scale, policy, questions, s.id, score);
    weighted := Times(rounded, s.weight);
    SectionStep(score, questions, used, s, rounded, weighted);
  }

  lemma ScoredSnoc(questions: seq<Question>, sections: seq<Section>, i: nat)
    requires i < |sections|
    ensures Scored(questions, sections[..i + 1])
         == if SectionQuestions(questions, sections[i].id) != [] then Scored(questions, sections[..i]) + [sections[i]]
            else Scored(questions, sections[..i])
  {
    assert sections[..i + 1] == sections[..i] + [sections[i]];
    FilterSnoc(HasQuestions(questions), sections[..i], sections[i]);
  }

  /** The outer loop over the sections. */
  method ScoreSections(answers: map<string, Answer>, groups: map<string, seq<Question>>, sections: seq<Section>,
                       scale: real, policy: RoundingPolicy, ghost questions: seq<Question>, ghost score: string -> real)
    returns (sectionScores: map<string, real>, breakdown: map<string, Breakdown>, totalWeight: real,
             weightedTotal: real)
    requires scale != 0.0 && Tabulates(score, answers, questions, scale, Rounded(policy))
    requires forall id :: id in groups <==> SectionQuestions(questions, id) != []
    requires forall id :: id in groups ==> groups[id] == SectionQuestions(questions, id)
    ensures sectionScores == SectionScores(score, Scored(questions, sections))
    ensures breakdown == Breakdowns(score, questions, Scored(questions, sections))
    ensures totalWeight == SumBy(SectionWeight(), Scored(questions, sections))
    ensures weightedTotal == SumBy(WeightedScore(score), Scored(questions, sections))
  {
    sectionScores, breakdown, totalWeight, weightedTotal := map[], map[], 0.0, 0.0;
    ghost var used: seq<Section> := [];
    for i := 0 to |sections|
      invariant used == Scored(questions, sections[..i])
      invariant sectionScores == SectionScores(score, used)
      invariant breakdown == Breakdowns(score, questions, used)
      invariant totalWeight == SumBy(SectionWeight(), used)
      invariant weightedTotal == SumBy(WeightedScore(score), used)
    {
      var section := sections[i];
      ScoredSnoc(questions, sections, i);
      if section.id in groups {
        var qs := groups[section.id];
        var rounded, weighted := ScoreSection(answers, qs, section, scale, policy, questions, score, used);
        sectionScores := sectionScores[section.id := rounded];
        breakdown := breakdown[section.id := Breakdown(section.title, rounded, section.weight, weighted, |qs|)];
        totalWeight := totalWeight + section.weight;
        weightedTotal := weightedTotal + weighted;
        used := used + [section];
      }
    }
    assert sections[..|sections|] == sections;
  }

  method ScoreForm(answers: map<string, Answer>, questions: seq<Question>, sections: seq<Section>, strategy: Strategy)
    returns (result: ScoreResult)
    requires strategy.Valid()
    ensures result == Score(answers, questions, sections, strategy)
  {
    var passMark, scale := strategy.PassMark(), strategy.Scale();
    var groups := GroupBySection(questions);
    var sectionScores, breakdown, totalWeight, weightedTotal :=
      ScoreSections(answers, groups, sections, scale, strategy.rounding, questions,
                    Scorer(answers, questions, scale, Rounded(strategy.rounding)));
    var overallRaw := if totalWeight > 0.0 then Over(weightedTotal, totalWeight) else 0.0;
    var overallScore := ApplyRounding(overallRaw, strategy.rounding);
    result := ScoreResult(answers, sectionScores, overallScore, overallScore >= passMark, breakdown);
  }
}
