/** What a score is, in plain arithmetic: how each kind of answer counts, what
    the weights do, how rounding rounds. Together these statements leave the
    scoring service no choice. */
module ScoringMeaning {
  import opened Wrappers
  import opened Sequences
  import opened Answers
  import opened Scoring
  import opened ScoringProperties

  // ---------------------------------------------------------------------
  // How an answer counts

  /** From lo to hi a number counts in proportion, below it nothing and above
      it all; with no such range the number itself counts, within the scale. */
  predicate CountsFor(points: real, n: real, lo: real, hi: real, scale: real) {
    if lo < hi then
      && (n <= lo ==> points == 0.0)
      && (n >= hi ==> points == scale)
      && (lo <= n <= hi ==> points * (hi - lo) == (n - lo) * scale)
    else
      && (n <= 0.0 ==> points == 0.0)
      && (n >= scale ==> points == scale)
      && (0.0 <= n <= scale ==> points == n)
  }

  lemma ScaledCounts(n: real, lo: real, hi: real, scale: real)
    requires scale > 0.0
    ensures CountsFor(ScaleValue(n, lo, hi, scale), n, lo, hi, scale)
  {
    if lo < hi { RatioScales(Clamp(n, lo, hi) - lo, hi - lo, scale); }
  }

  lemma RatioScales(x: real, width: real, scale: real)
    requires width > 0.0
    ensures x / width * scale * width == x * scale
    ensures x == 0.0 ==> x / width * scale == 0.0
    ensures x == width ==> x / width * scale == scale
  {
    var ratio := x / width;
    assert ratio * width == x;
    assert ratio * scale * width == (ratio * width) * scale;
    if x == width { assert width / width == 1.0; }
  }

  /** The range a question counts in: a rating runs from 0 to 5 and a choice
      from 0 to the scale, where the question does not say otherwise. */
  function Least(q: Question): real {
    if q.min.Some? then q.min.value else 0.0
  }

  function Greatest(q: Question, scale: real): real {
    if q.max.Some? then q.max.value else if q.kind == Rating then 5.0 else scale
  }

  /** Ranked questions are counted by number. */
  predicate Ranked(q: Question) {
    q.kind == Rating || ((q.kind == Select || q.kind == MultiSelect) && (q.min.Some? || q.max.Some?))
  }

  lemma RankedMeaning(q: Question, n: real, scale: real)
    requires Ranked(q) && scale > 0.0
    ensures CountsFor(NormalizeAnswer(Num(n), q, scale), n, Least(q), Greatest(q, scale), scale)
  {
    ScaledCounts(n, Least(q), Greatest(q, scale), scale);
  }

  /** Within the range equal steps of the answer are equal steps of the score. */
  lemma RankedSteps(q: Question, m: real, n: real, scale: real)
    requires Ranked(q) && scale > 0.0 && Least(q) < Greatest(q, scale)
    requires Least(q) <= m <= Greatest(q, scale) && Least(q) <= n <= Greatest(q, scale)
    ensures (NormalizeAnswer(Num(n), q, scale) - NormalizeAnswer(Num(m), q, scale)) * (Greatest(q, scale) - Least(q))
         == (n - m) * scale
  {
    RankedMeaning(q, m, scale);
    RankedMeaning(q, n, scale);
  }

  /** A yes/no question is all or nothing. */
  lemma BooleanMeaning(v: Value, q: Question, scale: real)
    requires q.kind == Boolean
    ensures NormalizeAnswer(v, q, scale) == if v in {Bool(true), Num(1.0), Text("yes"), Text("true")} then scale
            else 0.0
  {
  }

  /** Free text counts nothing, nor does a rating that is not a number; a
      choice is read as a number if it starts with one, and without bounds it
      counts as it stands. */
  lemma OtherMeaning(v: Value, q: Question, scale: real)
    ensures q.kind == FreeText ==> NormalizeAnswer(v, q, scale) == 0.0
    ensures q.kind == Rating && !v.Num? ==> NormalizeAnswer(v, q, scale) == 0.0
    ensures q.kind == Select || q.kind == MultiSelect ==>
      match v
      case Num(n) => q.min.None? && q.max.None? ==> NormalizeAnswer(v, q, scale) == n
      case Text(s) =>
        NormalizeAnswer(v, q, scale) == (if ParseFloat(s).None? then 0.0
                                         else NormalizeAnswer(Num(ParseFloat(s).value), q, scale))
      case _ => NormalizeAnswer(v, q, scale) == 0.0
  {
  }

  // ---------------------------------------------------------------------
  // Rounding

  /** r is x in whole hundredths: not above it, not below it, or the nearest,
      with halves going up. These leave one r. */
  predicate IsRounded(r: real, x: real, policy: RoundingPolicy) {
    var k := (r * 100.0).Floor;
    r * 100.0 == k as real && RoundsTo(k, x * 100.0, policy)
  }

  predicate RoundsTo(k: int, y: real, policy: RoundingPolicy) {
    match policy
    case Floor => k as real <= y < k as real + 1.0
    case Ceil => k as real - 1.0 < y <= k as real
    case Round => k as real - 0.5 <= y < k as real + 0.5
  }

  lemma RoundingMeaning(x: real, policy: RoundingPolicy)
    ensures IsRounded(ApplyRounding(x, policy), x, policy)
  {
    var k := match policy
             case Floor => (x * 100.0).Floor
             case Ceil => -((-(x * 100.0)).Floor)
             case Round => (x * 100.0 + 0.5).Floor;
    assert ApplyRounding(x, policy) * 100.0 == k as real;
    assert RoundsTo(k, x * 100.0, policy);
  }

  lemma RoundingUnique(r: real, s: real, x: real, policy: RoundingPolicy)
    requires IsRounded(r, x, policy) && IsRounded(s, x, policy)
    ensures r == s
  {
    OneWhole((r * 100.0).Floor, (s * 100.0).Floor, x * 100.0, policy);
  }

  lemma OneWhole(k: int, l: int, y: real, policy: RoundingPolicy)
    requires RoundsTo(k, y, policy) && RoundsTo(l, y, policy)
    ensures k == l
  {
  }

  // ---------------------------------------------------------------------
  // Sections and the whole

  /** The points of an answer, or none without one. */
  function PointsOf(answers: map<string, Answer>, q: Question, scale: real): real {
    if q.key in answers then NormalizeAnswer(answers[q.key].value, q, scale) else 0.0
  }

  /** Total weight and weighted points of the questions of a section. */
  function WeightIn(questions: seq<Question>, id: string): real {
    if questions == [] then 0.0
    else
      var q := questions[|questions| - 1];
      WeightIn(questions[..|questions| - 1], id) + if q.sectionId == id then q.weight else 0.0
  }

  function PointsIn(answers: map<string, Answer>, questions: seq<Question>, id: string, scale: real): real {
    if questions == [] then 0.0
    else
      var q := questions[|questions| - 1];
      PointsIn(answers, questions[..|questions| - 1], id, scale)
      + if q.sectionId == id then Times(PointsOf(answers, q, scale), q.weight) else 0.0
  }

  /** x is the mean of points over weight. */
  predicate IsMean(x: real, points: real, weight: real) {
    if weight > 0.0 then x * weight == points else x == 0.0
  }

  lemma {:induction false} WeightsAdd(questions: seq<Question>, id: string)
    ensures SumBy(QuestionWeight(), SectionQuestions(questions, id)) == WeightIn(questions, id)
  {
    if questions != [] {
      var front, q := questions[..|questions| - 1], questions[|questions| - 1];
      WeightsAdd(front, id);
      FilterSnoc(InSection(id), front, q);
      assert front + [q] == questions;
      assert SectionQuestions(front, id) + [] == SectionQuestions(front, id);
      if q.sectionId == id { SumSnoc(QuestionWeight(), SectionQuestions(front, id), q); }
    }
  }

  lemma TermScales(n: real, w: real, scale: real)
    requires scale != 0.0
    ensures Times(Times(Over(n, scale), w), scale) == Times(n, w)
  {
    var ratio := n / scale;
    assert ratio * scale == n;
    assert ratio * w * scale == (ratio * scale) * w;
  }

  lemma Distribute(x: real, y: real, z: real)
    ensures Times(x + y, z) == Times(x, z) + Times(y, z)
  {
  }

  lemma NothingScaled(z: real)
    ensures Times(0.0, z) == 0.0
  {
  }

  lemma PointsSnoc(f: Question -> real, front: seq<Question>, q: Question, scale: real, points: real, term: real)
    requires Times(SumBy(f, front), scale) == points && Times(f(q), scale) == term
    ensures Times(SumBy(f, front + [q]), scale) == points + term
  {
    SumSnoc(f, front, q);
    Distribute(SumBy(f, front), f(q), scale);
  }

  lemma PointsTerm(answers: map<string, Answer>, q: Question, scale: real)
    requires scale != 0.0
    ensures Times(Contribution(answers, scale)(q), scale) == Times(PointsOf(answers, q, scale), q.weight)
  {
    TermScales(PointsOf(answers, q, scale), q.weight, scale);
  }

  lemma {:induction false} PointsAdd(answers: map<string, Answer>, questions: seq<Question>, id: string, scale: real)
    requires scale != 0.0
    ensures Times(SumBy(Contribution(answers, scale), SectionQuestions(questions, id)), scale)
         == PointsIn(answers, questions, id, scale)
  {
    if questions == [] {
      NothingScaled(scale);
    } else {
      var front, q := questions[..|questions| - 1], questions[|questions| - 1];
      PointsAdd(answers, front, id, scale);
      PointsTerm(answers, q, scale);
      if q.sectionId == id {
        PointsSnoc(Contribution(answers, scale), SectionQuestions(front, id), q, scale,
                   PointsIn(answers, front, id, scale), Times(PointsOf(answers, q, scale), q.weight));
      } else {
        assert SectionQuestions(front, id) + [] == SectionQuestions(front, id);
      }
    }
  }

  lemma MeanScales(p: real, w: real, scale: real)
    ensures IsMean(Times(WeightedAverage(p, w), scale), Times(p, scale), w)
  {
    if w > 0.0 {
      var mean := p / w;
      assert mean * w == p;
      assert mean * scale * w == (mean * w) * scale;
    }
  }

  /** Before rounding, a section scores the mean of its questions. */
  lemma SectionMeaning(answers: map<string, Answer>, questions: seq<Question>, id: string, scale: real)
    requires scale != 0.0
    ensures IsMean(ExactSection(answers, questions, id, scale), PointsIn(answers, questions, id, scale),
                   WeightIn(questions, id))
  {
    var qs := SectionQuestions(questions, id);
    WeightsAdd(questions, id);
    PointsAdd(answers, questions, id, scale);
    MeanScales(SumBy(Contribution(answers, scale), qs), SumBy(QuestionWeight(), qs), scale);
  }

  /** A section is scored when it has a question. */
  predicate Asked(questions: seq<Question>, id: string) {
    exists i :: 0 <= i < |questions| && questions[i].sectionId == id
  }

  lemma AskedHasQuestions(questions: seq<Question>, id: string)
    ensures Asked(questions, id) <==> SectionQuestions(questions, id) != []
  {
    FilterMembers(InSection(id), questions);
    if SectionQuestions(questions, id) != [] {
      var q := SectionQuestions(questions, id)[0];
      assert q in SectionQuestions(questions, id);
      assert q in questions && q.sectionId == id;
    }
    if Asked(questions, id) {
      var i :| 0 <= i < |questions| && questions[i].sectionId == id;
      assert questions[i] in SectionQuestions(questions, id);
    }
  }

  /** Total weight and weighted scores of the sections that are scored. */
  function WeightOver(questions: seq<Question>, sections: seq<Section>): real {
    if sections == [] then 0.0
    else
      var s := sections[|sections| - 1];
      WeightOver(questions, sections[..|sections| - 1]) + if Asked(questions, s.id) then s.weight else 0.0
  }

  function ScoresOver(scores: map<string, real>, questions: seq<Question>, sections: seq<Section>): real {
    if sections == [] then 0.0
    else
      var s := sections[|sections| - 1];
      ScoresOver(scores, questions, sections[..|sections| - 1])
      + if Asked(questions, s.id) && s.id in scores then Times(scores[s.id], s.weight) else 0.0
  }

  lemma {:induction false} OverallAdds(score: string -> real, scores: map<string, real>, questions: seq<Question>,
                                       sections: seq<Section>)
    requires forall s :: s in sections && Asked(questions, s.id) ==> s.id in scores && scores[s.id] == score(s.id)
    ensures SumBy(SectionWeight(), Scored(questions, sections)) == WeightOver(questions, sections)
    ensures SumBy(WeightedScore(score), Scored(questions, sections)) == ScoresOver(scores, questions, sections)
  {
    if sections != [] {
      var front, s := sections[..|sections| - 1], sections[|sections| - 1];
      OverallAdds(score, scores, questions, front);
      AskedHasQuestions(questions, s.id);
      FilterSnoc(HasQuestions(questions), front, s);
      assert front + [s] == sections;
      assert Scored(questions, front) + [] == Scored(questions, front);
      if Asked(questions, s.id) {
        SumSnoc(SectionWeight(), Scored(questions, front), s);
        SumSnoc(WeightedScore(score), Scored(questions, front), s);
      }
    }
  }

  function ScaleOf(strategy: Strategy): real {
    if strategy.scale.Some? then strategy.scale.value else 100.0
  }

  function MarkOf(strategy: Strategy): real {
    if strategy.passMark.Some? then strategy.passMark.value else 70.0
  }

  lemma SectionScoresMeaning(answers: map<string, Answer>, questions: seq<Question>, sections: seq<Section>,
                             strategy: Strategy)
    requires strategy.Valid()
    ensures var scores := Score(answers, questions, sections, strategy).sectionScores;
            && (forall id :: id in scores <==> Asked(questions, id) && exists s :: s in sections && s.id == id)
            && (forall id :: id in scores ==>
                  scores[id] == Scorer(answers, questions, strategy.Scale(), Rounded(strategy.rounding))(id))
  {
    var score := Scorer(answers, questions, strategy.Scale(), Rounded(strategy.rounding));
    SectionScoresAt(score, Scored(questions, sections));
    FilterMembers(HasQuestions(questions), sections);
    forall s | s in sections ensures Asked(questions, s.id) <==> s in Scored(questions, sections) {
      AskedHasQuestions(questions, s.id);
    }
  }

  ghost predicate IsRoundedMean(r: real, points: real, weight: real, policy: RoundingPolicy) {
    exists x {:trigger IsMean(x, points, weight)} :: IsMean(x, points, weight) && IsRounded(r, x, policy)
  }

  lemma OneSectionMeaning(answers: map<string, Answer>, questions: seq<Question>, id: string, scale: real,
                          policy: RoundingPolicy)
    requires scale != 0.0
    ensures IsRoundedMean(Scorer(answers, questions, scale, Rounded(policy))(id),
                          PointsIn(answers, questions, id, scale), WeightIn(questions, id), policy)
  {
    var x := ExactSection(answers, questions, id, scale);
    SectionMeaning(answers, questions, id, scale);
    RoundingMeaning(x, policy);
    assert IsMean(x, PointsIn(answers, questions, id, scale), WeightIn(questions, id));
  }

  lemma OverallMeaning(answers: map<string, Answer>, questions: seq<Question>, sections: seq<Section>,
                       strategy: Strategy)
    requires strategy.Valid()
    ensures var r := Score(answers, questions, sections, strategy);
            IsRoundedMean(r.overallScore, ScoresOver(r.sectionScores, questions, sections),
                          WeightOver(questions, sections),
                          strategy.rounding)
  {
    var r := Score(answers, questions, sections, strategy);
    var score := Scorer(answers, questions, ScaleOf(strategy), Rounded(strategy.rounding));
    var used := Scored(questions, sections);
    var total, weight := SumBy(WeightedScore(score), used), SumBy(SectionWeight(), used);
    SectionScoresMeaning(answers, questions, sections, strategy);
    OverallAdds(score, r.sectionScores, questions, sections);
    var x := WeightedAverage(total, weight);
    MeanIsMean(total, weight);
    RoundingMeaning(x, strategy.rounding);
    assert IsMean(x, total, weight);
  }

  lemma MeanIsMean(total: real, weight: real)
    ensures IsMean(WeightedAverage(total, weight), total, weight)
  {
    if weight > 0.0 { assert total / weight * weight == total; }
  }

  /** The score of a form in full: which sections are scored, each with the
      rounded mean of its questions; the rounded mean of the section scores;
      and the flag. */
  lemma ScoreMeaning(answers: map<string, Answer>, questions: seq<Question>, sections: seq<Section>, strategy: Strategy)
    requires strategy.Valid()
    ensures var r := Score(answers, questions, sections, strategy);
            && r.answers == answers
            && (forall id :: id in r.sectionScores <==> Asked(questions, id) && exists s :: s in sections && s.id == id)
            && (forall id :: id in r.sectionScores ==>
                  IsRoundedMean(r.sectionScores[id], PointsIn(answers, questions, id, ScaleOf(strategy)),
                                WeightIn(questions, id), strategy.rounding))
            && IsRoundedMean(r.overallScore, ScoresOver(r.sectionScores, questions, sections),
                             WeightOver(questions, sections), strategy.rounding)
            && (r.passFail <==> r.overallScore >= MarkOf(strategy))
  {
    var r, scale := Score(answers, questions, sections, strategy), ScaleOf(strategy);
    SectionScoresMeaning(answers, questions, sections, strategy);
    OverallMeaning(answers, questions, sections, strategy);
    forall id | id in r.sectionScores
      ensures IsRoundedMean(r.sectionScores[id], PointsIn(answers, questions, id, scale), WeightIn(questions, id),
                            strategy.rounding)
    {
      OneSectionMeaning(answers, questions, id, scale, strategy.rounding);
    }
  }

  /** The breakdown entry of a section whose id is its own: title and weight
      as the form has them, the section score and its weighted value, and the
      number of its questions. */
  lemma BreakdownMeaning(answers: map<string, Answer>, questions: seq<Question>, sections: seq<Section>,
                         strategy: Strategy, s: Section)
    requires strategy.Valid() && DistinctIds(sections) && s in sections && Asked(questions, s.id)
    ensures var r := Score(answers, questions, sections, strategy);
            && r.breakdown.Keys == r.sectionScores.Keys && s.id in r.breakdown
            && var b := r.breakdown[s.id];
               && b.title == s.title && b.weight == s.weight && b.raw == r.sectionScores[s.id]
               && b.weighted == Times(b.raw, b.weight) && b.questionCount == |SectionQuestions(questions, s.id)|
  {
    var score := Scorer(answers, questions, strategy.Scale(), Rounded(strategy.rounding));
    FilterMembers(HasQuestions(questions), sections);
    AskedHasQuestions(questions, s.id);
    SectionScoresAt(score, Scored(questions, sections));
    BreakdownsAt(score, questions, Scored(questions, sections));
  }

  // ---------------------------------------------------------------------
  // From the answers to the overall score

  /** A higher number never counts less, except for a yes/no question, where
      1 counts and 2 does not. */
  lemma HigherCountsMoreIff(q: Question, scale: real)
    requires scale > 0.0
    ensures q.kind != Boolean <==>
            forall m, n :: m <= n ==> NormalizeAnswer(Num(m), q, scale) <= NormalizeAnswer(Num(n), q, scale)
  {
    if q.kind == Boolean {
      assert NormalizeAnswer(Num(1.0), q, scale) > NormalizeAnswer(Num(2.0), q, scale);
    } else {
      forall m: real, n: real | m <= n
        ensures NormalizeAnswer(Num(m), q, scale) <= NormalizeAnswer(Num(n), q, scale)
      {
        if Ranked(q) { CountsMore(q, m, n, scale); }
      }
    }
  }

  lemma CountsMore(q: Question, m: real, n: real, scale: real)
    requires Ranked(q) && scale > 0.0 && m <= n
    ensures NormalizeAnswer(Num(m), q, scale) <= NormalizeAnswer(Num(n), q, scale)
  {
    RankedMeaning(q, m, scale);
    RankedMeaning(q, n, scale);
    NormalizedRange(q, scale);
    assert InRange(NormalizeAnswer(Num(m), q, scale), scale) && InRange(NormalizeAnswer(Num(n), q, scale), scale);
    PointsOrdered(NormalizeAnswer(Num(m), q, scale), NormalizeAnswer(Num(n), q, scale), m, n,
                  Least(q), Greatest(q, scale), scale);
  }

  lemma PointsOrdered(x: real, y: real, m: real, n: real, lo: real, hi: real, scale: real)
    requires CountsFor(x, m, lo, hi, scale) && CountsFor(y, n, lo, hi, scale)
    requires InRange(x, scale) && InRange(y, scale) && m <= n && scale > 0.0
    ensures x <= y
  {
    if lo < m && n < hi { ProductsOrdered(x, y, hi - lo, m - lo, n - lo, scale); }
  }

  lemma ProductsOrdered(x: real, y: real, w: real, a: real, b: real, scale: real)
    requires w > 0.0 && scale > 0.0 && a <= b && x * w == a * scale && y * w == b * scale
    ensures x <= y
  {
    TimesGap(b, a, scale, 0.0, b - a);
    if x > y { TimesGapStrict(x, y, w, 0.0); }
  }

  /** Raising a number in the answers lowers no section score, not the
      overall score, and fails no pass. */
  lemma RaisingANumber(answers: map<string, Answer>, k: string, m: real, n: real, questions: seq<Question>,
                       sections: seq<Section>, strategy: Strategy)
    requires k in answers && answers[k].value == Num(m) && m <= n
    requires ScaleOf(strategy) > 0.0 && NonNegativeQuestions(questions) && NonNegativeSections(sections)
    requires forall q :: q in questions && q.key == k ==> q.kind != Boolean
    ensures var raised := answers[k := answers[k].(value := Num(n))];
            var r, t := Score(answers, questions, sections, strategy), Score(raised, questions, sections, strategy);
            && r.overallScore <= t.overallScore && (r.passFail ==> t.passFail)
            && r.sectionScores.Keys == t.sectionScores.Keys
            && forall id :: id in r.sectionScores ==> r.sectionScores[id] <= t.sectionScores[id]
  {
    var raised := answers[k := answers[k].(value := Num(n))];
    forall q | q in questions
      ensures Normalized(answers, strategy.Scale(), q) <= Normalized(raised, strategy.Scale(), q)
    {
      if q.key == k { HigherCountsMoreIff(q, strategy.Scale()); }
    }
    ScoreMonotone(answers, raised, questions, sections, strategy);
  }

  /** The best an answer can be, and the worst. Free text has no best. */
  predicate Best(v: Value, q: Question, scale: real) {
    match q.kind
    case Boolean => v in {Bool(true), Num(1.0), Text("yes"), Text("true")}
    case FreeText => false
    case _ => v.Num? && if Ranked(q) && Least(q) < Greatest(q, scale) then v.n >= Greatest(q, scale)
                        else if Ranked(q) then v.n >= scale
                        else v.n == scale
  }

  predicate Worst(v: Value, q: Question, scale: real) {
    match q.kind
    case Boolean => v !in {Bool(true), Num(1.0), Text("yes"), Text("true")}
    case FreeText => true
    case _ => v.Num? && if Ranked(q) && Least(q) < Greatest(q, scale) then v.n <= Least(q)
                        else if Ranked(q) then v.n <= 0.0
                        else v.n == 0.0
  }

  lemma BestAndWorst(v: Value, q: Question, scale: real)
    requires scale > 0.0
    ensures Best(v, q, scale) ==> NormalizeAnswer(v, q, scale) == scale
    ensures Worst(v, q, scale) ==> NormalizeAnswer(v, q, scale) == 0.0
  {
    if v.Num? && Ranked(q) { RankedMeaning(q, v.n, scale); }
  }

  /** With the same points everywhere, a section has that many times its weight. */
  lemma {:induction false} SamePoints(answers: map<string, Answer>, questions: seq<Question>, id: string, scale: real,
                                      points: real)
    requires forall q :: q in questions ==> PointsOf(answers, q, scale) == points
    ensures PointsIn(answers, questions, id, scale) == Times(points, WeightIn(questions, id))
  {
    if questions == [] {
      NothingTimes(points);
    } else {
      var front, q := questions[..|questions| - 1], questions[|questions| - 1];
      SamePoints(answers, front, id, scale, points);
      TimesSum(points, WeightIn(front, id), q.weight);
    }
  }

  lemma {:induction false} AskedHasWeight(questions: seq<Question>, id: string)
    requires forall q :: q in questions ==> q.weight > 0.0
    ensures WeightIn(questions, id) >= 0.0 && (Asked(questions, id) ==> WeightIn(questions, id) > 0.0)
  {
    if questions != [] {
      var front, q := questions[..|questions| - 1], questions[|questions| - 1];
      AskedHasWeight(front, id);
      if q.sectionId != id && Asked(questions, id) {
        var i :| 0 <= i < |questions| && questions[i].sectionId == id;
        assert front[i].sectionId == id;
      }
    }
  }

  lemma NothingTimes(x: real)
    ensures Times(x, 0.0) == 0.0
  {
  }

  lemma {:induction false} SameScores(scores: map<string, real>, questions: seq<Question>, sections: seq<Section>,
                                      points: real)
    requires forall s :: s in sections ==> s.weight > 0.0
    requires forall s :: s in sections && Asked(questions, s.id) ==> s.id in scores && scores[s.id] == points
    ensures ScoresOver(scores, questions, sections) == Times(points, WeightOver(questions, sections))
    ensures WeightOver(questions, sections) >= 0.0
    ensures (exists s :: s in sections && Asked(questions, s.id)) <==> WeightOver(questions, sections) > 0.0
  {
    if sections == [] {
      NothingTimes(points);
    } else {
      var front, s := sections[..|sections| - 1], sections[|sections| - 1];
      assert sections == front + [s] && s in sections;
      SameScores(scores, questions, front, points);
      TimesSum(points, WeightOver(questions, front), s.weight);
    }
  }

  lemma RoundedPoints(r: real, points: real, weight: real, policy: RoundingPolicy)
    requires WholeHundredths(points) && IsRoundedMean(r, Times(points, weight), weight, policy)
    ensures r == if weight > 0.0 then points else 0.0
  {
    var x :| IsMean(x, Times(points, weight), weight) && IsRounded(r, x, policy);
    if weight > 0.0 { SameFactor(x, points, weight); }
    RoundingMeaning(x, policy);
    RoundingExact(x, policy);
    RoundingUnique(r, ApplyRounding(x, policy), x, policy);
  }

  lemma SameFactor(x: real, y: real, w: real)
    requires w > 0.0 && x * w == Times(y, w)
    ensures x == y
  {
    assert x == x * w / w && y == y * w / w;
  }

  /** Where every question counts the same, so does every section and the
      whole; with no question to ask there is no score. */
  lemma AllTheSame(answers: map<string, Answer>, questions: seq<Question>, sections: seq<Section>, strategy: Strategy,
                   points: real)
    requires ScaleOf(strategy) > 0.0 && WholeHundredths(points)
    requires forall s :: s in sections ==> s.weight > 0.0
    requires forall q :: q in questions ==> q.weight > 0.0 && PointsOf(answers, q, ScaleOf(strategy)) == points
    ensures Score(answers, questions, sections, strategy).overallScore
         == if exists s :: s in sections && Asked(questions, s.id) then points else 0.0
  {
    var r, scale := Score(answers, questions, sections, strategy), ScaleOf(strategy);
    ScoreMeaning(answers, questions, sections, strategy);
    forall s | s in sections && Asked(questions, s.id)
      ensures s.id in r.sectionScores && r.sectionScores[s.id] == points
    {
      SamePoints(answers, questions, s.id, scale, points);
      AskedHasWeight(questions, s.id);
      RoundedPoints(r.sectionScores[s.id], points, WeightIn(questions, s.id), strategy.rounding);
    }
    SameScores(r.sectionScores, questions, sections, points);
    RoundedPoints(r.overallScore, points, WeightOver(questions, sections), strategy.rounding);
  }

  /** Every question at its best scores the whole scale. */
  lemma BestScoresAll(answers: map<string, Answer>, questions: seq<Question>, sections: seq<Section>,
                      strategy: Strategy)
    requires ScaleOf(strategy) > 0.0 && WholeHundredths(ScaleOf(strategy))
    requires forall s :: s in sections ==> s.weight > 0.0
    requires forall q :: q in questions ==>
               q.weight > 0.0 && q.key in answers && Best(answers[q.key].value, q, ScaleOf(strategy))
    requires exists s :: s in sections && Asked(questions, s.id)
    ensures Score(answers, questions, sections, strategy).overallScore == ScaleOf(strategy)
  {
    forall q | q in questions ensures PointsOf(answers, q, ScaleOf(strategy)) == ScaleOf(strategy) {
      BestAndWorst(answers[q.key].value, q, ScaleOf(strategy));
    }
    AllTheSame(answers, questions, sections, strategy, ScaleOf(strategy));
  }

  /** Every question at its worst, or not answered, scores nothing. */
  lemma WorstScoresNothing(answers: map<string, Answer>, questions: seq<Question>, sections: seq<Section>,
                           strategy: Strategy)
    requires ScaleOf(strategy) > 0.0
    requires forall s :: s in sections ==> s.weight > 0.0
    requires forall q :: q in questions ==>
               q.weight > 0.0 && (q.key in answers ==> Worst(answers[q.key].value, q, ScaleOf(strategy)))
    ensures Score(answers, questions, sections, strategy).overallScore == 0.0
  {
    forall q | q in questions ensures PointsOf(answers, q, ScaleOf(strategy)) == 0.0 {
      if q.key in answers { BestAndWorst(answers[q.key].value, q, ScaleOf(strategy)); }
    }
    AllTheSame(answers, questions, sections, strategy, 0.0);
  }
}
