/** What the scoring service promises: error bounds of the two levels of
    rounding, range, monotonicity, and independence of question and section
    order. */
module ScoringProperties {
  import opened Wrappers
  import opened Sequences
  import opened Answers
  import opened Scoring

  ghost predicate NonNegativeSections(sections: seq<Section>) {
    forall s :: s in sections ==> s.weight >= 0.0
  }

  ghost predicate NonNegativeQuestions(questions: seq<Question>) {
    forall q :: q in questions ==> q.weight >= 0.0
  }

  // ---------------------------------------------------------------------
  // Weighted averages move with their terms

  function AverageOf(score: string -> real, used: seq<Section>): real {
    WeightedAverage(SumBy(WeightedScore(score), used), SumBy(SectionWeight(), used))
  }

  lemma AverageGap(score: string -> real, other: string -> real, used: seq<Section>, lo: real, hi: real)
    requires NonNegativeSections(used) && lo <= 0.0 <= hi
    requires forall s :: s in used ==> lo <= score(s.id) - other(s.id) <= hi
    ensures lo <= AverageOf(score, used) - AverageOf(other, used) <= hi
  {
    var f, g, w := WeightedScore(score), WeightedScore(other), SectionWeight();
    forall s | s in used ensures w(s) >= 0.0 && Times(lo, w(s)) <= f(s) - g(s) <= Times(hi, w(s)) {
      TimesGap(score(s.id), other(s.id), s.weight, lo, hi);
    }
    SumGap(f, g, w, lo, hi, used);
    AverageFromSums(SumBy(f, used), SumBy(g, used), SumBy(w, used), lo, hi);
  }

  lemma AverageFromSums(x: real, y: real, w: real, lo: real, hi: real)
    requires lo <= 0.0 <= hi && Times(lo, w) <= x - y <= Times(hi, w)
    ensures lo <= WeightedAverage(x, w) - WeightedAverage(y, w) <= hi
  {
    if w > 0.0 { OverGap(x, y, w, lo, hi); }
  }

  /** With a strict lower gap everywhere the average keeps it strict. */
  lemma AverageGapStrict(score: string -> real, other: string -> real, used: seq<Section>, lo: real)
    requires NonNegativeSections(used) && lo < 0.0
    requires forall s :: s in used ==> lo < score(s.id) - other(s.id)
    ensures lo < AverageOf(score, used) - AverageOf(other, used)
  {
    var f, g, w := WeightedScore(score), WeightedScore(other), SectionWeight();
    forall s | s in used
      ensures w(s) >= 0.0 && Times(lo, w(s)) <= f(s) - g(s)
      ensures w(s) > 0.0 ==> Times(lo, w(s)) < f(s) - g(s)
    {
      TimesGap(score(s.id), other(s.id), s.weight, lo, score(s.id) - other(s.id));
      if s.weight > 0.0 { TimesGapStrict(score(s.id), other(s.id), s.weight, lo); }
    }
    SumGapStrict(f, g, w, lo, used);
    StrictAverageFromSums(SumBy(f, used), SumBy(g, used), SumBy(w, used), lo);
  }

  lemma StrictAverageFromSums(x: real, y: real, w: real, lo: real)
    requires lo < 0.0 && (w > 0.0 ==> Times(lo, w) < x - y)
    ensures lo < WeightedAverage(x, w) - WeightedAverage(y, w)
  {
    if w > 0.0 { OverGapStrict(x, y, w, lo); }
  }

  // ---------------------------------------------------------------------
  // Rounding error

  lemma RoundingGap(value: real)
    ensures -0.005 <= ApplyRounding(value, Round) - value <= 0.005
    ensures -0.01 < ApplyRounding(value, Floor) - value <= 0.0
    ensures 0.0 <= ApplyRounding(value, Ceil) - value < 0.01
  {
  }

  lemma FloorMonotone(x: real, y: real)
    requires x <= y
    ensures x.Floor <= y.Floor
  {
  }

  lemma RoundingMonotone(x: real, y: real, p: RoundingPolicy)
    requires x <= y
    ensures ApplyRounding(x, p) <= ApplyRounding(y, p)
  {
    match p
    case Floor => FloorMonotone(x * 100.0, y * 100.0);
    case Ceil => FloorMonotone(-(y * 100.0), -(x * 100.0));
    case Round => FloorMonotone(x * 100.0 + 0.5, y * 100.0 + 0.5);
  }

  lemma ScoredSubset(questions: seq<Question>, sections: seq<Section>)
    requires NonNegativeSections(sections)
    ensures NonNegativeSections(Scored(questions, sections))
  {
    FilterMembers(HasQuestions(questions), sections);
  }

  /** Two roundings, one per section and one overall, cost at most one
      hundredth in total, and less than two when they all go one way. */
  lemma RoundingError(answers: map<string, Answer>, questions: seq<Question>, sections: seq<Section>, scale: real)
    requires scale != 0.0 && NonNegativeSections(sections)
    ensures var exact := Overall(answers, questions, sections, scale, Exact);
            && -0.01 <= Overall(answers, questions, sections, scale, Rounded(Round)) - exact <= 0.01
            && -0.02 < Overall(answers, questions, sections, scale, Rounded(Floor)) - exact <= 0.0
            && 0.0 <= Overall(answers, questions, sections, scale, Rounded(Ceil)) - exact < 0.02
  {
    var used := Scored(questions, sections);
    ScoredSubset(questions, sections);
    var exact := Scorer(answers, questions, scale, Exact);
    var round := Scorer(answers, questions, scale, Rounded(Round));
    var floor := Scorer(answers, questions, scale, Rounded(Floor));
    var ceil := Scorer(answers, questions, scale, Rounded(Ceil));
    SectionRoundingGaps(answers, questions, scale);
    AverageGap(round, exact, used, -0.005, 0.005);
    AverageGap(floor, exact, used, -0.01, 0.0);
    AverageGapStrict(floor, exact, used, -0.01);
    AverageGap(ceil, exact, used, 0.0, 0.01);
    AverageGapStrict(exact, ceil, used, -0.01);
    RoundingGap(AverageOf(round, used));
    RoundingGap(AverageOf(floor, used));
    RoundingGap(AverageOf(ceil, used));
  }

  lemma SectionRoundingGaps(answers: map<string, Answer>, questions: seq<Question>, scale: real)
    requires scale != 0.0
    ensures var exact := Scorer(answers, questions, scale, Exact);
            forall id {:trigger exact(id)} ::
              && -0.005 <= Scorer(answers, questions, scale, Rounded(Round))(id) - exact(id) <= 0.005
              && -0.01 < Scorer(answers, questions, scale, Rounded(Floor))(id) - exact(id) <= 0.0
              && 0.0 <= Scorer(answers, questions, scale, Rounded(Ceil))(id) - exact(id) < 0.01
  {
    forall id: string {
      RoundingGap(ExactSection(answers, questions, id, scale));
    }
  }

  /** floor <= round <= ceil survives averaging and the second rounding. */
  lemma RoundingOrder(answers: map<string, Answer>, questions: seq<Question>, sections: seq<Section>, scale: real)
    requires scale != 0.0 && NonNegativeSections(sections)
    ensures Overall(answers, questions, sections, scale, Rounded(Floor))
         <= Overall(answers, questions, sections, scale, Rounded(Round))
         <= Overall(answers, questions, sections, scale, Rounded(Ceil))
  {
    var used := Scored(questions, sections);
    ScoredSubset(questions, sections);
    var round := Scorer(answers, questions, scale, Rounded(Round));
    var floor := Scorer(answers, questions, scale, Rounded(Floor));
    var ceil := Scorer(answers, questions, scale, Rounded(Ceil));
    forall id: string
      ensures 0.0 <= round(id) - floor(id) <= 1.0 && 0.0 <= ceil(id) - round(id) <= 1.0
    {
      PoliciesOrdered(ExactSection(answers, questions, id, scale), ExactSection(answers, questions, id, scale));
      RoundingGap(ExactSection(answers, questions, id, scale));
    }
    AverageGap(round, floor, used, 0.0, 1.0);
    AverageGap(ceil, round, used, 0.0, 1.0);
    PoliciesOrdered(AverageOf(floor, used), AverageOf(round, used));
    PoliciesOrdered(AverageOf(round, used), AverageOf(ceil, used));
  }

  lemma PoliciesOrdered(x: real, y: real)
    requires x <= y
    ensures ApplyRounding(x, Floor) <= ApplyRounding(y, Round)
    ensures ApplyRounding(x, Round) <= ApplyRounding(y, Ceil)
  {
    RoundingMonotone(x, y, Round);
    FloorMonotone(x * 100.0, x * 100.0 + 0.5);
    CeilAboveRound(y * 100.0);
  }

  lemma CeilAboveRound(a: real)
    ensures (a + 0.5).Floor <= -((-a).Floor)
  {
  }

  // ---------------------------------------------------------------------
  // Range

  predicate InRange(x: real, scale: real) {
    0.0 <= x <= scale
  }

  /** A choice question must bound its own values; the others are bounded
      by construction. */
  predicate Bounded(q: Question) {
    q.kind in {Select, MultiSelect} ==> q.min.Some? || q.max.Some?
  }

  lemma ScaleValueInRange(value: real, min: real, max: real, scale: real)
    requires scale > 0.0
    ensures InRange(ScaleValue(value, min, max, scale), scale)
  {
    if max > min {
      var clamped := Clamp(value, min, max);
      var ratio := (clamped - min) / (max - min);
      assert 0.0 <= ratio <= 1.0 by { RatioInUnit(clamped - min, max - min); }
      UnitScaled(ratio, scale);
    }
  }

  lemma RatioInUnit(x: real, y: real)
    requires 0.0 <= x <= y && y > 0.0
    ensures 0.0 <= Over(x, y) <= 1.0 && Over(x, y) == x / y
  {
    OverGap(x, 0.0, y, 0.0, 1.0);
  }

  lemma UnitScaled(x: real, scale: real)
    requires 0.0 <= x <= 1.0 && scale >= 0.0
    ensures 0.0 <= Times(x, scale) <= scale && Times(x, scale) == x * scale
  {
    TimesGap(x, 0.0, scale, 0.0, 1.0);
  }

  lemma ChoiceInRange(value: real, q: Question, scale: real)
    requires scale > 0.0 && (q.min.Some? || q.max.Some?)
    ensures InRange(ScaleChoice(value, q, scale), scale)
  {
    ScaleValueInRange(value, q.min.GetOr(0.0), q.max.GetOr(scale), scale);
  }

  lemma AnswerInRange(v: Value, q: Question, scale: real)
    requires scale > 0.0 && Bounded(q)
    ensures InRange(NormalizeAnswer(v, q, scale), scale)
  {
    match q.kind
    case Rating =>
      if v.Num? { ScaleValueInRange(v.n, q.min.GetOr(0.0), q.max.GetOr(5.0), scale); }
    case Select | MultiSelect =>
      match v {
        case Num(n) => ChoiceInRange(n, q, scale);
        case Text(s) =>
          var parsed := ParseFloat(s);
          if parsed.Some? { ChoiceInRange(parsed.value, q, scale); }
        case _ =>
      }
    case _ =>
  }

  /** Exactly the bounded questions keep every answer within the scale. */
  lemma NormalizedRange(q: Question, scale: real)
    requires scale > 0.0
    ensures Bounded(q) <==> forall v: Value :: InRange(NormalizeAnswer(v, q, scale), scale)
  {
    if Bounded(q) {
      forall v: Value ensures InRange(NormalizeAnswer(v, q, scale), scale) {
        AnswerInRange(v, q, scale);
      }
    } else {
      assert NormalizeAnswer(Num(scale + 1.0), q, scale) == scale + 1.0;
    }
  }

  function Zero(): Question -> real { (q: Question) => 0.0 }

  lemma {:induction false} SumZero(qs: seq<Question>)
    ensures SumBy(Zero(), qs) == 0.0
  {
    if qs != [] { SumZero(qs[..|qs| - 1]); }
  }

  lemma ContributionInRange(answers: map<string, Answer>, q: Question, scale: real)
    requires scale > 0.0 && q.weight >= 0.0 && Bounded(q)
    ensures 0.0 <= Contribution(answers, scale)(q) <= q.weight
  {
    NormalizedRange(q, scale);
    var n := Normalized(answers, scale, q);
    assert InRange(n, scale);
    RatioInUnit(n, scale);
    UnitScaled(n / scale, q.weight);
  }

  lemma ExactSectionInRange(answers: map<string, Answer>, questions: seq<Question>, id: string, scale: real)
    requires scale > 0.0 && NonNegativeQuestions(questions)
    requires forall q :: q in questions ==> Bounded(q)
    ensures InRange(ExactSection(answers, questions, id, scale), scale)
  {
    var qs := SectionQuestions(questions, id);
    var f, w := Contribution(answers, scale), QuestionWeight();
    FilterMembers(InSection(id), questions);
    forall q | q in qs ensures Zero()(q) <= f(q) <= w(q) {
      ContributionInRange(answers, q, scale);
    }
    SumMonotone(Zero(), f, qs);
    SumMonotone(f, w, qs);
    SumZero(qs);
    if SumBy(w, qs) > 0.0 { RatioInUnit(SumBy(f, qs), SumBy(w, qs)); }
    var average := WeightedAverage(SumBy(f, qs), SumBy(w, qs));
    assert 0.0 <= average <= 1.0;
    UnitScaled(average, scale);
    assert ExactSection(answers, questions, id, scale) == Times(average, scale);
  }

  predicate WholeHundredths(x: real) {
    (x * 100.0).Floor as real == x * 100.0
  }

  lemma RoundingInRange(value: real, scale: real, p: RoundingPolicy)
    requires InRange(value, scale) && WholeHundredths(scale)
    ensures InRange(ApplyRounding(value, p), scale)
  {
    RoundingMonotone(value, scale, p);
    RoundingMonotone(0.0, value, p);
    RoundingExact(scale, p);
  }

  lemma RoundingExact(x: real, p: RoundingPolicy)
    requires WholeHundredths(x)
    ensures ApplyRounding(x, p) == x
  {
    FloorOfWhole((x * 100.0).Floor);
  }

  lemma FloorOfWhole(n: int)
    ensures (-(n as real)).Floor == -n && (n as real + 0.5).Floor == n
  {
    assert -(n as real) == (-n) as real;
  }

  lemma {:induction false} SectionScoresAt(score: string -> real, used: seq<Section>)
    ensures forall id :: id in SectionScores(score, used) <==> exists s :: s in used && s.id == id
    ensures forall id :: id in SectionScores(score, used) ==> SectionScores(score, used)[id] == score(id)
  {
    if used != [] {
      var front, last := used[..|used| - 1], used[|used| - 1];
      assert used == front + [last];
      SectionScoresAt(score, front);
    }
  }

  /** On a scale that is a whole number of hundredths, rounding cannot push a
      score past either end. */
  lemma ScoreRange(answers: map<string, Answer>, questions: seq<Question>, sections: seq<Section>, strategy: Strategy)
    requires strategy.Scale() > 0.0 && WholeHundredths(strategy.Scale())
    requires NonNegativeQuestions(questions) && NonNegativeSections(sections)
    requires forall q :: q in questions ==> Bounded(q)
    ensures var r := Score(answers, questions, sections, strategy);
            && InRange(r.overallScore, strategy.Scale())
            && forall id :: id in r.sectionScores ==> InRange(r.sectionScores[id], strategy.Scale())
  {
    var scale, p := strategy.Scale(), strategy.rounding;
    var score := Scorer(answers, questions, scale, Rounded(p));
    var used := Scored(questions, sections);
    ScoredSubset(questions, sections);
    forall id: string ensures InRange(score(id), scale) {
      ExactSectionInRange(answers, questions, id, scale);
      RoundingInRange(ExactSection(answers, questions, id, scale), scale, p);
    }
    SectionScoresAt(score, used);
    AverageInRange(score, used, scale);
    RoundingInRange(AverageOf(score, used), scale, p);
  }

  function NoScore(): string -> real { (id: string) => 0.0 }

  lemma {:induction false} SumNoScore(used: seq<Section>)
    ensures SumBy(WeightedScore(NoScore()), used) == 0.0
  {
    if used != [] {
      SumNoScore(used[..|used| - 1]);
      assert Times(0.0, used[|used| - 1].weight) == 0.0;
    }
  }

  lemma AverageInRange(score: string -> real, used: seq<Section>, scale: real)
    requires NonNegativeSections(used) && scale >= 0.0
    requires forall s :: s in used ==> InRange(score(s.id), scale)
    ensures InRange(AverageOf(score, used), scale)
  {
    AverageGap(score, NoScore(), used, 0.0, scale);
    SumNoScore(used);
  }

  // ---------------------------------------------------------------------
  // Monotonicity

  lemma ContributionMonotone(a: map<string, Answer>, b: map<string, Answer>, q: Question, scale: real)
    requires scale > 0.0 && q.weight >= 0.0 && Normalized(a, scale, q) <= Normalized(b, scale, q)
    ensures Contribution(a, scale)(q) <= Contribution(b, scale)(q)
  {
    var x, y := Normalized(a, scale, q), Normalized(b, scale, q);
    OverMonotone(x, y, scale);
    TimesGap(Over(y, scale), Over(x, scale), q.weight, 0.0, Over(y, scale) - Over(x, scale));
  }

  lemma OverMonotone(x: real, y: real, w: real)
    requires x <= y && w > 0.0
    ensures Over(x, w) <= Over(y, w)
  {
    var gap := (y - x) / w;
    assert gap * w == y - x;
    OverGap(y, x, w, 0.0, gap);
  }

  lemma ExactSectionMonotone(a: map<string, Answer>, b: map<string, Answer>, questions: seq<Question>, id: string,
                             scale: real)
    requires scale > 0.0 && NonNegativeQuestions(questions)
    requires forall q :: q in questions ==> Normalized(a, scale, q) <= Normalized(b, scale, q)
    ensures ExactSection(a, questions, id, scale) <= ExactSection(b, questions, id, scale)
  {
    var qs := SectionQuestions(questions, id);
    var f, g, w := Contribution(a, scale), Contribution(b, scale), SumBy(QuestionWeight(), qs);
    FilterMembers(InSection(id), questions);
    forall q | q in qs ensures f(q) <= g(q) {
      ContributionMonotone(a, b, q, scale);
    }
    SumMonotone(f, g, qs);
    if w > 0.0 { OverMonotone(SumBy(f, qs), SumBy(g, qs), w); }
    var x, y := WeightedAverage(SumBy(f, qs), w), WeightedAverage(SumBy(g, qs), w);
    TimesGap(y, x, scale, 0.0, y - x);
  }

  /** Raising answers never lowers a section score or the overall score, and
      never turns a pass into a fail. A missing answer counts as zero. */
  lemma ScoreMonotone(a: map<string, Answer>, b: map<string, Answer>, questions: seq<Question>, sections: seq<Section>,
                      strategy: Strategy)
    requires strategy.Scale() > 0.0
    requires NonNegativeQuestions(questions) && NonNegativeSections(sections)
    requires forall q :: q in questions ==> Normalized(a, strategy.Scale(), q) <= Normalized(b, strategy.Scale(), q)
    ensures var r, t := Score(a, questions, sections, strategy), Score(b, questions, sections, strategy);
            && r.overallScore <= t.overallScore
            && (r.passFail ==> t.passFail)
            && r.sectionScores.Keys == t.sectionScores.Keys
            && forall id :: id in r.sectionScores ==> r.sectionScores[id] <= t.sectionScores[id]
  {
    var scale, p := strategy.Scale(), strategy.rounding;
    var low, high := Scorer(a, questions, scale, Rounded(p)), Scorer(b, questions, scale, Rounded(p));
    var used := Scored(questions, sections);
    ScoredSubset(questions, sections);
    forall id: string ensures low(id) <= high(id) {
      ExactSectionMonotone(a, b, questions, id, scale);
      RoundingMonotone(ExactSection(a, questions, id, scale), ExactSection(b, questions, id, scale), p);
    }
    SectionScoresAt(low, used);
    SectionScoresAt(high, used);
    AverageMonotone(low, high, used);
    RoundingMonotone(AverageOf(low, used), AverageOf(high, used), p);
  }

  lemma {:induction false} LargestGap(low: string -> real, high: string -> real, used: seq<Section>) returns (hi: real)
    requires forall s :: s in used ==> low(s.id) <= high(s.id)
    ensures hi >= 0.0
    ensures forall s :: s in used ==> high(s.id) - low(s.id) <= hi
  {
    hi := 0.0;
    if used != [] {
      var front, last := used[..|used| - 1], used[|used| - 1];
      assert used == front + [last];
      hi := LargestGap(low, high, front);
      hi := if high(last.id) - low(last.id) > hi then high(last.id) - low(last.id) else hi;
    }
  }

  lemma AverageMonotone(low: string -> real, high: string -> real, used: seq<Section>)
    requires NonNegativeSections(used)
    requires forall s :: s in used ==> low(s.id) <= high(s.id)
    ensures AverageOf(low, used) <= AverageOf(high, used)
  {
    var hi := LargestGap(low, high, used);
    AverageGap(high, low, used, 0.0, hi);
  }

  // ---------------------------------------------------------------------
  // Order does not matter

  lemma {:induction false} TablesCongruent(f: string -> real, g: string -> real, qs: seq<Question>, rs: seq<Question>,
    used: seq<Section>)
    requires forall s :: s in used ==> f(s.id) == g(s.id)
    requires forall s :: s in used ==> |SectionQuestions(qs, s.id)| == |SectionQuestions(rs, s.id)|
    ensures SectionScores(f, used) == SectionScores(g, used)
    ensures Breakdowns(f, qs, used) == Breakdowns(g, rs, used)
    ensures SumBy(WeightedScore(f), used) == SumBy(WeightedScore(g), used)
  {
    if used != [] { TablesCongruent(f, g, qs, rs, used[..|used| - 1]); }
  }

  /** The whole result depends only on which questions each section owns. */
  lemma ScoreFromGroups(answers: map<string, Answer>, qs: seq<Question>, rs: seq<Question>, sections: seq<Section>,
                        strategy: Strategy)
    requires strategy.Valid()
    requires forall s :: s in sections ==> multiset(SectionQuestions(qs, s.id)) == multiset(SectionQuestions(rs, s.id))
    ensures Score(answers, qs, sections, strategy) == Score(answers, rs, sections, strategy)
  {
    var scale, mode := strategy.Scale(), Rounded(strategy.rounding);
    var f, g := Scorer(answers, qs, scale, mode), Scorer(answers, rs, scale, mode);
    forall s | s in sections
      ensures |SectionQuestions(qs, s.id)| == |SectionQuestions(rs, s.id)|
      ensures f(s.id) == g(s.id)
    {
      assert |multiset(SectionQuestions(qs, s.id))| == |multiset(SectionQuestions(rs, s.id))|;
      SumPermutation(Contribution(answers, scale), SectionQuestions(qs, s.id), SectionQuestions(rs, s.id));
      SumPermutation(QuestionWeight(), SectionQuestions(qs, s.id), SectionQuestions(rs, s.id));
    }
    FilterCongruent(HasQuestions(qs), HasQuestions(rs), sections);
    FilterMembers(HasQuestions(qs), sections);
    TablesCongruent(f, g, qs, rs, Scored(qs, sections));
  }

  /** Reordering the questions, and adding questions of sections the form
      does not have, leaves the result as it was. */
  lemma QuestionOrderIrrelevant(answers: map<string, Answer>, qs: seq<Question>, orphans: seq<Question>,
                                rs: seq<Question>,
                                sections: seq<Section>, strategy: Strategy)
    requires strategy.Valid()
    requires multiset(rs) == multiset(qs + orphans)
    requires forall q, s :: q in orphans && s in sections ==> q.sectionId != s.id
    ensures Score(answers, rs, sections, strategy) == Score(answers, qs, sections, strategy)
  {
    forall s | s in sections ensures multiset(SectionQuestions(qs, s.id)) == multiset(SectionQuestions(rs, s.id)) {
      FilterPermutation(InSection(s.id), rs, qs + orphans);
      FilterAppend(InSection(s.id), qs, orphans);
      NoneInSection(orphans, s.id);
    }
    ScoreFromGroups(answers, rs, qs, sections, strategy);
  }

  lemma {:induction false} NoneInSection(qs: seq<Question>, id: string)
    requires forall q :: q in qs ==> q.sectionId != id
    ensures SectionQuestions(qs, id) == []
  {
    if qs != [] { NoneInSection(qs[..|qs| - 1], id); }
  }

  ghost predicate DistinctIds(sections: seq<Section>) {
    forall s, t :: s in sections && t in sections && s.id == t.id ==> s == t
  }

  lemma {:induction false} BreakdownsAt(score: string -> real, questions: seq<Question>, used: seq<Section>)
    requires DistinctIds(used)
    ensures forall id :: id in Breakdowns(score, questions, used) <==> exists s :: s in used && s.id == id
    ensures forall s :: s in used ==>
      s.id in Breakdowns(score, questions, used)
        && Breakdowns(score, questions, used)[s.id] == BreakdownOf(score, questions, s)
  {
    if used != [] {
      var front, last := used[..|used| - 1], used[|used| - 1];
      assert used == front + [last];
      BreakdownsAt(score, questions, front);
    }
  }

  lemma SameSectionScores(score: string -> real, us: seq<Section>, vs: seq<Section>)
    requires forall s :: s in us <==> s in vs
    ensures SectionScores(score, us) == SectionScores(score, vs)
  {
    SectionScoresAt(score, us);
    SectionScoresAt(score, vs);
  }

  /** Reordering the sections changes nothing that is stored; the breakdown
      that the score preview also returns needs the ids to be distinct. */
  lemma SectionOrderIrrelevant(answers: map<string, Answer>, questions: seq<Question>, ss: seq<Section>,
                               ts: seq<Section>, strategy: Strategy)
    requires strategy.Valid() && multiset(ss) == multiset(ts)
    ensures var r, t := Score(answers, questions, ss, strategy), Score(answers, questions, ts, strategy);
            && r.sectionScores == t.sectionScores && r.overallScore == t.overallScore && r.passFail == t.passFail
            && (DistinctIds(ss) ==> r == t)
  {
    var score := Scorer(answers, questions, strategy.Scale(), Rounded(strategy.rounding));
    var us, vs := Scored(questions, ss), Scored(questions, ts);
    FilterPermutation(HasQuestions(questions), ss, ts);
    SumPermutation(WeightedScore(score), us, vs);
    SumPermutation(SectionWeight(), us, vs);
    SameMembers(us, vs);
    SameSectionScores(score, us, vs);
    if DistinctIds(ss) {
      FilterMembers(HasQuestions(questions), ss);
      SameBreakdowns(score, questions, us, vs);
    }
  }

  lemma SameBreakdowns(score: string -> real, questions: seq<Question>, us: seq<Section>, vs: seq<Section>)
    requires DistinctIds(us) && DistinctIds(vs) && forall s :: s in us <==> s in vs
    ensures Breakdowns(score, questions, us) == Breakdowns(score, questions, vs)
  {
    BreakdownsAt(score, questions, us);
    BreakdownsAt(score, questions, vs);
    var x, y := Breakdowns(score, questions, us), Breakdowns(score, questions, vs);
    assert x.Keys == y.Keys;
    forall id | id in x ensures x[id] == y[id] {
      var s :| s in us && s.id == id;
    }
  }
}
