/** The pass/fail flags recomputed when an evaluation is read
    (evaluations.service.ts and conversations.service.ts). */
module PassFail {
  import opened Wrappers
  import opened Workflow

  /** passMark is None where the reader found no number in the strategy. */
  function Derive(score: Option<real>, passMark: Option<real>, fallback: Option<bool>): Option<bool> {
    if score.Some? && passMark.Some? then Some(score.value >= passMark.value) else fallback
  }

  function NormalizedLayer(layer: Option<Layer>, score: Option<real>, passMark: real): Option<Layer> {
    match layer
    case None => None
    case Some(l) =>
      var used := if score.Some? then score else Some(l.overallScore);
      Some(l.(passFail := Derive(used, Some(passMark), Some(l.passFail)).value))
  }

  function OrElse(x: Option<real>, y: Option<real>): Option<real> {
    if x.Some? then x else y
  }

  function Reread(ev: Evaluation, form: Form): Evaluation {
    var passMark := form.strategy.PassMark();
    ev.(aiLayer := NormalizedLayer(ev.aiLayer, ev.aiScore, passMark),
        qaLayer := NormalizedLayer(ev.qaLayer, ev.qaScore, passMark),
        verifierLayer := NormalizedLayer(ev.verifierLayer, OrElse(ev.verifierScore, ev.finalScore), passMark),
        finalLayer := NormalizedLayer(ev.finalLayer, ev.finalScore, passMark),
        passFail := Derive(ev.finalScore, Some(passMark), ev.passFail))
  }

  /** The layer passes when the score that is stored for it, or failing that
      its own, reaches the mark. */
  predicate Flagged(before: Option<Layer>, after: Option<Layer>, score: Option<real>, mark: real) {
    match before
    case None => after == None
    case Some(layer) =>
      && after.Some? && after.value == layer.(passFail := after.value.passFail)
      && (after.value.passFail <==> (if score.Some? then score.value else layer.overallScore) >= mark)
  }

  /** A reader sees each flag as the form's mark decides it now, and all else
      as it is stored. */
  lemma RereadOutcome(ev: Evaluation, form: Form)
    ensures var r := Reread(ev, form);
            var mark := match form.strategy.passMark case None => 70.0 case Some(m) => m;
            && Flagged(ev.aiLayer, r.aiLayer, ev.aiScore, mark)
            && Flagged(ev.qaLayer, r.qaLayer, ev.qaScore, mark)
            && Flagged(ev.verifierLayer, r.verifierLayer,
                       if ev.verifierScore.Some? then ev.verifierScore else ev.finalScore, mark)
            && Flagged(ev.finalLayer, r.finalLayer, ev.finalScore, mark)
            && r.passFail == (if ev.finalScore.Some? then Some(ev.finalScore.value >= mark) else ev.passFail)
            && r == ev.(aiLayer := r.aiLayer, qaLayer := r.qaLayer, verifierLayer := r.verifierLayer,
                        finalLayer := r.finalLayer, passFail := r.passFail)
  {
  }

  /** The evaluation as it is loaded for one reader. */
  class Loaded {
    var record: Evaluation

    constructor (ev: Evaluation)
      ensures record == ev
    {
      record := ev;
    }

    /** Rewrites the flags of all four layers and of the evaluation itself. */
    method NormalizePassFail(form: Form)
      modifies this
      ensures record == Reread(old(record), form)
    {
      var passMark := form.strategy.PassMark();
      record := record.(aiLayer := NormalizedLayer(record.aiLayer, record.aiScore, passMark));
      record := record.(qaLayer := NormalizedLayer(record.qaLayer, record.qaScore, passMark));
      record := record.(verifierLayer :=
        NormalizedLayer(record.verifierLayer, OrElse(record.verifierScore, record.finalScore), passMark));
      record := record.(finalLayer := NormalizedLayer(record.finalLayer, record.finalScore, passMark));
      record := record.(passFail := Derive(record.finalScore, Some(passMark), record.passFail));
    }
  }
}
