/** Concrete form states and the vectors they are encoded to. */
module FormStates {
  import opened Tables
  import opened Encoder
  import opened EncodingProperties

  /**
   * The form before the user touches it: every select box on its first option,
   * the two education boxes on their option index 4, every slider and the
   * absences input on their defaults.
   */
  const DefaultInput: RawInput := RawInput(
    "GP", "Male (M)", 17, "Urban (U)", "Greater than 3 (GT3)", "Living Together (T)",
    4, 4, "at_home", "at_home", "other", "other",
    1, 2, 0,
    "Yes", "Yes", "Yes", "Yes", "Yes", "Yes", "Yes", "Yes",
    4, 3, 3, 1, 1, 3,
    2, 10, 10)

  lemma DefaultInputIsFormDefault()
    ensures forall c :: Label(DefaultInput, c) == Keys(TableOf(c))[0]
    ensures forall n :: Value(DefaultInput, n) == Default(n) && Min(n) <= Default(n) <= Max(n)
    ensures FormProduced(DefaultInput)
  {
  }

  /** The vector the default form state is encoded to. */
  lemma DefaultInputEncoding()
    ensures LabelsValid(DefaultInput)
    ensures Encode(DefaultInput) == [1, 1, 17, 1, 1, 1, 4, 4, 0, 0, 0, 0, 1, 2, 0, 1, 1, 1, 1, 1, 1, 1, 1, 4, 3, 3, 1, 1, 3, 2, 10, 10]
  {
    var e := EncodedLabels(1, 1, 1, 1, 1, 0, 0, 0, 0, 1, 1, 1, 1, 1, 1, 1, 1);
    forall c ensures ValidLabel(DefaultInput, c) && Coded(e, c) == Code(DefaultInput, c) {
      OptionCode(DefaultInput, c, 0);
    }
    FeatureListIsEncode(DefaultInput, e);
  }

  /**
   * A student whose parents both have an `other` job, who chose the school for
   * its courses, whose guardian is the mother and who answers No to every
   * Yes/No question.
   */
  const ScenarioInput: RawInput := RawInput(
    "GP", "Male (M)", 17, "Urban (U)", "Greater than 3 (GT3)", "Living Together (T)",
    4, 4, "other", "other", "course", "mother",
    1, 2, 0,
    "No", "No", "No", "No", "No", "No", "No", "No",
    4, 3, 3, 1, 1, 3,
    2, 10, 10)

  /** The option index each select box of ScenarioInput shows. */
  function ScenarioOption(c: CatField): (index: nat)
    ensures index < |TableOf(c)|
  {
    match c
    case MotherJob | FatherJob => 4
    case Reason => 3
    case Guardian => 2
    case School | Sex | Address | FamSize | PStatus => 0
    case _ => 1
  }

  lemma ScenarioEncoding()
    ensures FormProduced(ScenarioInput)
    ensures Encode(ScenarioInput) == [1, 1, 17, 1, 1, 1, 4, 4, 4, 4, 3, 2, 1, 2, 0, 0, 0, 0, 0, 0, 0, 0, 0, 4, 3, 3, 1, 1, 3, 2, 10, 10]
  {
    var e := EncodedLabels(1, 1, 1, 1, 1, 4, 4, 3, 2, 0, 0, 0, 0, 0, 0, 0, 0);
    forall c ensures ValidLabel(ScenarioInput, c) && Coded(e, c) == Code(ScenarioInput, c) {
      OptionCode(ScenarioInput, c, ScenarioOption(c));
    }
    FeatureListIsEncode(ScenarioInput, e);
  }
}
