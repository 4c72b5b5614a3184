/**
 * What the encoder promises about every input the form can produce: the codes
 * of each field, the bounds of the numbers, exactly which inputs share a
 * vector, and the vectors of the form's default state.
 */
module EncodingProperties {
  import opened Tables
  import opened Encoder

  /** The fields encoded with a two-label table: school, sex, address, famsize, Pstatus and the eight Yes/No fields. */
  predicate IsBinaryField(c: CatField)
  {
    !(c.MotherJob? || c.FatherJob? || c.Reason? || c.Guardian?)
  }

  lemma BinaryFieldTable(c: CatField)
    requires IsBinaryField(c)
    ensures Binary(TableOf(c)) && Injective(TableOf(c))
  {
    BinaryTables();
  }

  lemma TableOfWellFormed(c: CatField)
    ensures WellFormed(TableOf(c))
  {
    TablesWellFormed();
  }

  /**
   * A select box offers `list(map.keys())`, so whichever option the user picks
   * is a key of the table, and it encodes to the code written beside it.
   */
  lemma SelectboxOptionEncodes(c: CatField, index: int)
    requires 0 <= index < |TableOf(c)|
    ensures IsKey(TableOf(c), Keys(TableOf(c))[index])
    ensures GetEncodedValue(Keys(TableOf(c))[index], TableOf(c)) == TableOf(c)[index].code
  {
    TableOfWellFormed(c);
    GetEncodedValueAt(TableOf(c), index);
  }

  /** A form state whose field c shows option `index` is encoded, in that field, to the code beside the option. */
  lemma OptionCode(raw: RawInput, c: CatField, index: int)
    requires 0 <= index < |TableOf(c)|
    requires Label(raw, c) == Keys(TableOf(c))[index]
    ensures ValidLabel(raw, c)
    ensures Code(raw, c) == TableOf(c)[index].code
  {
    SelectboxOptionEncodes(c, index);
  }

  /** A number lands unchanged in its column, within the bounds of its widget. */
  lemma NumericFieldPassesThrough(raw: RawInput, n: NumField)
    requires FormProduced(raw)
    ensures Encode(raw)[ColumnIndex(Num(n))] == Value(raw, n)
    ensures Min(n) <= Encode(raw)[ColumnIndex(Num(n))] <= Max(n)
  {
    EncodeField(raw, Num(n));
  }

  /** A label lands in its column as one of its table's codes. */
  lemma CategoricalFieldEncoded(raw: RawInput, c: CatField)
    requires LabelsValid(raw)
    ensures Encode(raw)[ColumnIndex(Cat(c))] == Code(raw, c)
    ensures Code(raw, c) in Image(TableOf(c))
  {
    EncodeField(raw, Cat(c));
    assert ValidLabel(raw, c);
    GetEncodedValueInImage(Label(raw, c), TableOf(c));
  }

  /** A binary field is coded 1 for its table's first label, 0 for its second, and nothing else. */
  lemma BinaryFieldCode(raw: RawInput, c: CatField)
    requires LabelsValid(raw)
    requires IsBinaryField(c)
    ensures Code(raw, c) == 1 <==> Label(raw, c) == TableOf(c)[0].key
    ensures Code(raw, c) == 0 <==> Label(raw, c) == TableOf(c)[1].key
  {
    assert ValidLabel(raw, c);
    BinaryFieldTable(c);
    BinaryCodes(TableOf(c), Label(raw, c));
  }

  // ---------------------------------------------------------------------------
  // Which inputs the classifier cannot tell apart.

  /** The input with each parent's job `services` read as `at_home`. */
  function Canonical(raw: RawInput): RawInput
  {
    raw.(Mjob := CanonicalJob(raw.Mjob), Fjob := CanonicalJob(raw.Fjob))
  }

  /** Two form states agree field by field only if they are the same state. */
  lemma SameFieldsSameInput(a: RawInput, b: RawInput)
    requires forall c :: Label(a, c) == Label(b, c)
    requires forall n :: Value(a, n) == Value(b, n)
    ensures a == b
  {
    LabelFields(a);
    LabelFields(b);
    ValueFields(a);
    ValueFields(b);
  }

  /** Two valid labels of a field share a code exactly when they agree once `services` is read as `at_home`. */
  lemma CodeDeterminesCanonicalLabel(a: RawInput, b: RawInput, c: CatField)
    requires LabelsValid(a) && LabelsValid(b)
    ensures Code(a, c) == Code(b, c) <==> Label(Canonical(a), c) == Label(Canonical(b), c)
  {
    assert ValidLabel(a, c) && ValidLabel(b, c);
    match c
    case MotherJob =>
      JobCodeDeterminesCanonicalLabel(a.Mjob, b.Mjob);
    case FatherJob =>
      JobTablesIdentical();
      JobCodeDeterminesCanonicalLabel(a.Fjob, b.Fjob);
    case Reason =>
      ReasonTableBijective();
      CodeDeterminesLabel(ReasonMap, a.reason, b.reason);
    case Guardian =>
      GuardianTableBijective();
      CodeDeterminesLabel(GuardianMap, a.guardian, b.guardian);
    case _ =>
      BinaryFieldTable(c);
      CodeDeterminesLabel(TableOf(c), Label(a, c), Label(b, c));
  }

  /** Reading `services` as `at_home` keeps every label a key and changes no code. */
  lemma CanonicalCode(raw: RawInput, c: CatField)
    requires LabelsValid(raw)
    ensures ValidLabel(Canonical(raw), c)
    ensures Code(Canonical(raw), c) == Code(raw, c)
  {
    assert ValidLabel(raw, c);
    LabelFields(raw);
    LabelFields(Canonical(raw));
    match c
    case MotherJob =>
      JobTableCodes();
      JobLabelCode(raw.Mjob);
    case FatherJob =>
      JobTablesIdentical();
      JobTableCodes();
      JobLabelCode(raw.Fjob);
    case _ =>
  }

  lemma CanonicalValue(raw: RawInput, n: NumField)
    ensures Value(Canonical(raw), n) == Value(raw, n)
  {
    ValueFields(raw);
    ValueFields(Canonical(raw));
  }

  /** Hence the vector does not change either. */
  lemma EncodeCanonical(raw: RawInput)
    requires LabelsValid(raw)
    ensures LabelsValid(Canonical(raw))
    ensures Encode(Canonical(raw)) == Encode(raw)
  {
    forall c ensures ValidLabel(Canonical(raw), c) {
      CanonicalCode(raw, c);
    }
    forall i | 0 <= i < Width ensures Encode(Canonical(raw))[i] == Encode(raw)[i] {
      match ColumnField(i)
      case Cat(c) => CanonicalCode(raw, c);
      case Num(n) => CanonicalValue(raw, n);
    }
  }

  /** Equal vectors give equal codes, field by field. */
  lemma SameVectorSameCode(a: RawInput, b: RawInput, c: CatField)
    requires LabelsValid(a) && LabelsValid(b)
    requires Encode(a) == Encode(b)
    ensures Code(a, c) == Code(b, c)
  {
    EncodeField(a, Cat(c));
    EncodeField(b, Cat(c));
  }

  /** Equal vectors give equal numbers, field by field. */
  lemma SameVectorSameValue(a: RawInput, b: RawInput, n: NumField)
    requires LabelsValid(a) && LabelsValid(b)
    requires Encode(a) == Encode(b)
    ensures Value(a, n) == Value(b, n)
  {
    EncodeField(a, Num(n));
    EncodeField(b, Num(n));
  }

  /**
   * The encoder loses exactly one distinction: two valid inputs get the same
   * vector if and only if they agree once each parent's job `services` is
   * read as `at_home`.
   */
  lemma EncodeKernel(a: RawInput, b: RawInput)
    requires LabelsValid(a) && LabelsValid(b)
    ensures Encode(a) == Encode(b) <==> Canonical(a) == Canonical(b)
  {
    if Encode(a) == Encode(b) {
      forall c ensures Label(Canonical(a), c) == Label(Canonical(b), c) {
        SameVectorSameCode(a, b, c);
        CodeDeterminesCanonicalLabel(a, b, c);
      }
      forall n ensures Value(Canonical(a), n) == Value(Canonical(b), n) {
        SameVectorSameValue(a, b, n);
        CanonicalValue(a, n);
        CanonicalValue(b, n);
      }
      SameFieldsSameInput(Canonical(a), Canonical(b));
    }
    if Canonical(a) == Canonical(b) {
      EncodeCanonical(a);
      EncodeCanonical(b);
    }
  }

  /** Switching the mother's job from `at_home` to `services` keeps every label a key. */
  lemma MotherJobServicesValid(raw: RawInput, c: CatField)
    requires LabelsValid(raw)
    ensures ValidLabel(raw.(Mjob := "services"), c)
  {
    assert ValidLabel(raw, c);
    match c
    case MotherJob => JobTableCodes();
    case _ =>
  }

  /** In particular, `at_home` and `services` are indistinguishable in the vector. */
  lemma JobCollision(raw: RawInput)
    requires LabelsValid(raw)
    requires raw.Mjob == "at_home"
    ensures LabelsValid(raw.(Mjob := "services"))
    ensures raw.(Mjob := "services") != raw
    ensures Encode(raw.(Mjob := "services")) == Encode(raw)
  {
    var other := raw.(Mjob := "services");
    forall c ensures ValidLabel(other, c) {
      MotherJobServicesValid(raw, c);
    }
    assert other.Mjob != raw.Mjob;
    assert Canonical(other) == Canonical(raw);
    EncodeKernel(raw, other);
  }
}
