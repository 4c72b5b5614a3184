/**
 * The prediction step behind the button: the vector goes through the fitted
 * scaler and the classifier, and the classifier's probability of passing is
 * turned into a 0/1 prediction by an inclusive threshold of 0.80. The scaler
 * and the classifier are loaded from files the model does not see, so they
 * are parameters here.
 */
module Predictor {
  import opened Wrappers
  import opened Encoder
  import opened EncodingProperties

  /** The cut-off on the probability of passing. */
  const Threshold: real := 0.80

  /** `1 if prediction_prob >= 0.80 else 0`. */
  function Decide(probability: real): (prediction: int)
    ensures prediction == 0 || prediction == 1
  {
    if probability >= Threshold then 1 else 0
  }

  /** The prediction is 1 exactly at and above the threshold, and 0 exactly below it. */
  lemma DecideThreshold(probability: real)
    ensures Decide(probability) == 1 <==> probability >= Threshold
    ensures Decide(probability) == 0 <==> probability < Threshold
  {
  }

  /** A higher probability of passing never turns a pass into a drop-out. */
  lemma DecideMonotone(p: real, q: real)
    requires p <= q
    ensures Decide(p) <= Decide(q)
  {
  }

  /** The boundary itself counts as a pass; anything just below it does not. */
  lemma DecideBoundary()
    ensures Decide(0.80) == 1
    ensures Decide(0.7999) == 0
    ensures Decide(0.0) == 0 && Decide(1.0) == 1
  {
  }

  /** What the page shows: the probability and the 0/1 prediction. */
  datatype PredictionResult = PredictionResult(probability: real, prediction: int)

  /**
   * The button's action on a form whose labels are all keys:
   * `model.predict(scaler.transform(np.array([feature_list])))[0][0]`,
   * then the threshold. `transform` stands for the fitted scaler and
   * `classify` for the classifier's first output on a one-row batch.
   */
  function Predict(raw: RawInput, transform: seq<int> -> seq<real>, classify: seq<real> -> real): (r: PredictionResult)
    requires LabelsValid(raw)
    ensures r.probability == classify(transform(Encode(raw)))
    ensures r.prediction == 1 <==> r.probability >= Threshold
    ensures r.prediction == 0 <==> r.probability < Threshold
  {
    EncodeIsFeatureList(raw);
    var probability := classify(transform(FeatureList(raw, EncodeLabels(raw))));
    DecideThreshold(probability);
    PredictionResult(probability, Decide(probability))
  }

  /**
   * The button's action on any form state: a label that is not a key raises
   * `KeyError` before the scaler is reached; otherwise the prediction.
   */
  function PredictChecked(raw: RawInput, transform: seq<int> -> seq<real>, classify: seq<real> -> real): (r: Result<PredictionResult, KeyError>)
    ensures r.Success? <==> LabelsValid(raw)
    ensures r.Success? ==> r.value == Predict(raw, transform, classify)
    ensures r.Failure? ==> r == Failure(EncodeChecked(raw).error)
  {
    match EncodeChecked(raw)
    case Failure(e) => Failure(e)
    case Success(v) =>
      var probability := classify(transform(v));
      Success(PredictionResult(probability, Decide(probability)))
  }

  /** The two messages of the result section. */
  datatype Outcome = Pass | DropOut

  /** A prediction of 1 shows the pass message, anything else the drop-out message. */
  function Message(prediction: int): Outcome
  {
    if prediction == 1 then Pass else DropOut
  }

  /** The pass message appears exactly when the probability of passing reaches the threshold. */
  lemma MessageThreshold(raw: RawInput, transform: seq<int> -> seq<real>, classify: seq<real> -> real)
    requires LabelsValid(raw)
    ensures Message(Predict(raw, transform, classify).prediction) == Pass
            <==> classify(transform(Encode(raw))) >= Threshold
  {
  }

  /**
   * Whatever the scaler and the classifier are, two form states that agree
   * once each parent's job `services` is read as `at_home` get the same
   * probability and the same prediction.
   */
  lemma PredictSeesOnlyCanonical(a: RawInput, b: RawInput, transform: seq<int> -> seq<real>, classify: seq<real> -> real)
    requires LabelsValid(a) && LabelsValid(b)
    requires Canonical(a) == Canonical(b)
    ensures Predict(a, transform, classify) == Predict(b, transform, classify)
  {
    EncodeKernel(a, b);
  }

  /** A scaler keeps the vector's length: one scaled value per column. */
  ghost predicate KeepsLength(transform: seq<int> -> seq<real>)
  {
    forall v :: |transform(v)| == |v|
  }

  /** The vector's entries as reals, unscaled. */
  function AsReals(v: seq<int>): (s: seq<real>)
    ensures |s| == |v|
    ensures forall i :: 0 <= i < |v| ==> s[i] == v[i] as real
  {
    seq(|v|, i requires 0 <= i < |v| => v[i] as real)
  }

  /** Different vectors stay different as reals. */
  lemma AsRealsInjective(va: seq<int>, vb: seq<int>)
    requires va != vb
    ensures AsReals(va) != AsReals(vb)
  {
    if |va| == |vb| {
      var i :| 0 <= i < |va| && va[i] != vb[i];
      assert AsReals(va)[i] != AsReals(vb)[i];
    }
  }

  /** Any two different vectors are told apart by some length-keeping scaler and some classifier. */
  lemma SeparatingPipeline(va: seq<int>, vb: seq<int>)
    requires va != vb
    ensures exists transform: seq<int> -> seq<real>, classify: seq<real> -> real ::
      KeepsLength(transform) && classify(transform(va)) != classify(transform(vb))
  {
    var transform := (v: seq<int>) => AsReals(v);
    var classify := (s: seq<real>) => if s == AsReals(va) then 1.0 else 0.0;
    AsRealsInjective(va, vb);
    assert classify(transform(va)) == 1.0;
    assert classify(transform(vb)) == 0.0;
    assert KeepsLength(transform);
  }

  /**
   * Conversely, two form states that differ otherwise are told apart by some
   * length-keeping scaler and some classifier: the encoder loses nothing else.
   */
  lemma PredictSeparates(a: RawInput, b: RawInput)
    requires LabelsValid(a) && LabelsValid(b)
    requires Canonical(a) != Canonical(b)
    ensures exists transform, classify ::
      KeepsLength(transform) && Predict(a, transform, classify) != Predict(b, transform, classify)
  {
    EncodeKernel(a, b);
    SeparatingPipeline(Encode(a), Encode(b));
    var transform: seq<int> -> seq<real>, classify: seq<real> -> real :|
      KeepsLength(transform) && classify(transform(Encode(a))) != classify(transform(Encode(b)));
    assert Predict(a, transform, classify).probability != Predict(b, transform, classify).probability;
  }

  /** A mother's job of `services` and of `at_home` lead to the same prediction. */
  lemma MotherJobInvisible(raw: RawInput, transform: seq<int> -> seq<real>, classify: seq<real> -> real)
    requires LabelsValid(raw)
    requires raw.Mjob == "at_home"
    ensures LabelsValid(raw.(Mjob := "services"))
    ensures Predict(raw.(Mjob := "services"), transform, classify) == Predict(raw, transform, classify)
  {
    JobCollision(raw);
  }
}
