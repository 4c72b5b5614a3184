/**
 * The encoder: the 32 raw form values of one student, and the fixed-order
 * feature vector that is handed to the scaler and the classifier.
 */
module Encoder {
  import opened Wrappers
  import opened Tables

  /** The 17 fields chosen from a select box over a lookup table. */
  datatype CatField =
    | School | Sex | Address | FamSize | PStatus
    | MotherJob | FatherJob | Reason | Guardian
    | SchoolSup | FamSup | Paid | Activities | Nursery | Higher | Internet | Romantic

  /** The 15 integer fields, passed to the vector unchanged. */
  datatype NumField =
    | Age | MotherEdu | FatherEdu | TravelTime | StudyTime | Failures
    | FamRel | FreeTime | GoOut | WorkdayAlcohol | WeekendAlcohol | Health
    | Absences | Grade1 | Grade2

  datatype Field = Cat(c: CatField) | Num(n: NumField)

  /** What the form holds when the predict button is pressed. */
  datatype RawInput = RawInput(
    school: string, sex: string, age: int, address: string, famsize: string, Pstatus: string,
    Medu: int, Fedu: int, Mjob: string, Fjob: string, reason: string, guardian: string,
    traveltime: int, studytime: int, failures: int,
    schoolsup: string, famsup: string, paid: string, activities: string,
    nursery: string, higher: string, internet: string, romantic: string,
    famrel: int, freetime: int, goout: int, Dalc: int, Walc: int, health: int,
    absences: int, G1: int, G2: int)

  /** The lookup table each categorical field is encoded with. */
  function TableOf(c: CatField): Table
  {
    match c
    case School => SchoolMap
    case Sex => SexMap
    case Address => AddressMap
    case FamSize => FamsizeMap
    case PStatus => PstatusMap
    case MotherJob => MjobMap
    case FatherJob => FjobMap
    case Reason => ReasonMap
    case Guardian => GuardianMap
    case SchoolSup | FamSup | Paid | Activities | Nursery | Higher | Internet | Romantic => YesNoMap
  }

  /** The label a categorical field holds. */
  function Label(raw: RawInput, c: CatField): string
  {
    match c
    case School => raw.school
    case Sex => raw.sex
    case Address => raw.address
    case FamSize => raw.famsize
    case PStatus => raw.Pstatus
    case MotherJob => raw.Mjob
    case FatherJob => raw.Fjob
    case Reason => raw.reason
    case Guardian => raw.guardian
    case SchoolSup => raw.schoolsup
    case FamSup => raw.famsup
    case Paid => raw.paid
    case Activities => raw.activities
    case Nursery => raw.nursery
    case Higher => raw.higher
    case Internet => raw.internet
    case Romantic => raw.romantic
  }

  /** The integer an integer field holds. */
  function Value(raw: RawInput, n: NumField): int
  {
    match n
    case Age => raw.age
    case MotherEdu => raw.Medu
    case FatherEdu => raw.Fedu
    case TravelTime => raw.traveltime
    case StudyTime => raw.studytime
    case Failures => raw.failures
    case FamRel => raw.famrel
    case FreeTime => raw.freetime
    case GoOut => raw.goout
    case WorkdayAlcohol => raw.Dalc
    case WeekendAlcohol => raw.Walc
    case Health => raw.health
    case Absences => raw.absences
    case Grade1 => raw.G1
    case Grade2 => raw.G2
  }

  /** Label reads the field of the same name. */
  lemma LabelFields(raw: RawInput)
    ensures Label(raw, School) == raw.school && Label(raw, Sex) == raw.sex && Label(raw, Address) == raw.address
    ensures Label(raw, FamSize) == raw.famsize && Label(raw, PStatus) == raw.Pstatus && Label(raw, MotherJob) == raw.Mjob
    ensures Label(raw, FatherJob) == raw.Fjob && Label(raw, Reason) == raw.reason && Label(raw, Guardian) == raw.guardian
    ensures Label(raw, SchoolSup) == raw.schoolsup && Label(raw, FamSup) == raw.famsup && Label(raw, Paid) == raw.paid
    ensures Label(raw, Activities) == raw.activities && Label(raw, Nursery) == raw.nursery && Label(raw, Higher) == raw.higher
    ensures Label(raw, Internet) == raw.internet && Label(raw, Romantic) == raw.romantic
  {
  }

  /** Value reads the field of the same name. */
  lemma ValueFields(raw: RawInput)
    ensures Value(raw, Age) == raw.age && Value(raw, MotherEdu) == raw.Medu && Value(raw, FatherEdu) == raw.Fedu
    ensures Value(raw, TravelTime) == raw.traveltime && Value(raw, StudyTime) == raw.studytime
    ensures Value(raw, Failures) == raw.failures && Value(raw, FamRel) == raw.famrel
    ensures Value(raw, FreeTime) == raw.freetime && Value(raw, GoOut) == raw.goout
    ensures Value(raw, WorkdayAlcohol) == raw.Dalc && Value(raw, WeekendAlcohol) == raw.Walc
    ensures Value(raw, Health) == raw.health && Value(raw, Absences) == raw.absences
    ensures Value(raw, Grade1) == raw.G1 && Value(raw, Grade2) == raw.G2
  {
    ValueFieldsLow(raw);
  }

  /** The first half of ValueFields, split off so that each proof stays small for the solver. */
  lemma ValueFieldsLow(raw: RawInput)
    ensures Value(raw, Age) == raw.age && Value(raw, MotherEdu) == raw.Medu && Value(raw, FatherEdu) == raw.Fedu
    ensures Value(raw, TravelTime) == raw.traveltime && Value(raw, StudyTime) == raw.studytime
    ensures Value(raw, Failures) == raw.failures && Value(raw, FamRel) == raw.famrel
  {
  }

  /** Lowest value the field's slider, select box or number input offers. */
  function Min(n: NumField): int
  {
    match n
    case Age => 15
    case MotherEdu | FatherEdu | Failures | Absences | Grade1 | Grade2 => 0
    case TravelTime | StudyTime | FamRel | FreeTime | GoOut | WorkdayAlcohol | WeekendAlcohol | Health => 1
  }

  /** Highest value the field's slider, select box or number input offers. */
  function Max(n: NumField): int
  {
    match n
    case Age => 22
    case MotherEdu | FatherEdu | TravelTime | StudyTime | Failures => 4
    case FamRel | FreeTime | GoOut | WorkdayAlcohol | WeekendAlcohol | Health => 5
    case Absences => 75
    case Grade1 | Grade2 => 20
  }

  /** The value the form shows before the user touches the field. */
  function Default(n: NumField): int
  {
    match n
    case Age => 17
    case MotherEdu | FatherEdu | FamRel => 4
    case Failures => 0
    case TravelTime | WorkdayAlcohol | WeekendAlcohol => 1
    case StudyTime => 2
    case FreeTime | GoOut | Health => 3
    case Absences => 2
    case Grade1 | Grade2 => 10
  }

  /** The field's label is a key of its table, so `get_encoded_value` does not raise. */
  predicate ValidLabel(raw: RawInput, c: CatField)
  {
    IsKey(TableOf(c), Label(raw, c))
  }

  predicate LabelsValid(raw: RawInput)
  {
    forall c :: ValidLabel(raw, c)
  }

  predicate InRange(raw: RawInput)
  {
    forall n :: Min(n) <= Value(raw, n) <= Max(n)
  }

  /** Every value the form can produce: select-box labels are keys, numbers within their widgets' bounds. */
  predicate FormProduced(raw: RawInput)
  {
    LabelsValid(raw) && InRange(raw)
  }

  /** `get_encoded_value(<field>, <field>_map)` for one categorical field. */
  function Code(raw: RawInput, c: CatField): int
    requires ValidLabel(raw, c)
  {
    GetEncodedValue(Label(raw, c), TableOf(c))
  }

  /** The number of columns the scaler and the classifier were fitted on. */
  const Width: nat := 32

  /** The column order of the trained model: vector entry i holds field ColumnField(i). */
  function ColumnField(i: int): Field
    requires 0 <= i < Width
  {
    match i
    case 0 => Cat(School)
    case 1 => Cat(Sex)
    case 2 => Num(Age)
    case 3 => Cat(Address)
    case 4 => Cat(FamSize)
    case 5 => Cat(PStatus)
    case 6 => Num(MotherEdu)
    case 7 => Num(FatherEdu)
    case 8 => Cat(MotherJob)
    case 9 => Cat(FatherJob)
    case 10 => Cat(Reason)
    case 11 => Cat(Guardian)
    case 12 => Num(TravelTime)
    case 13 => Num(StudyTime)
    case 14 => Num(Failures)
    case 15 => Cat(SchoolSup)
    case 16 => Cat(FamSup)
    case 17 => Cat(Paid)
    case 18 => Cat(Activities)
    case 19 => Cat(Nursery)
    case 20 => Cat(Higher)
    case 21 => Cat(Internet)
    case 22 => Cat(Romantic)
    case 23 => Num(FamRel)
    case 24 => Num(FreeTime)
    case 25 => Num(GoOut)
    case 26 => Num(WorkdayAlcohol)
    case 27 => Num(WeekendAlcohol)
    case 28 => Num(Health)
    case 29 => Num(Absences)
    case 30 => Num(Grade1)
    case _ => Num(Grade2)
  }

  /** The position of a field in `feature_list`: the inverse of ColumnField. */
  function ColumnIndex(f: Field): (i: nat)
    ensures i < Width
  {
    match f
    case Cat(School) => 0
    case Cat(Sex) => 1
    case Num(Age) => 2
    case Cat(Address) => 3
    case Cat(FamSize) => 4
    case Cat(PStatus) => 5
    case Num(MotherEdu) => 6
    case Num(FatherEdu) => 7
    case Cat(MotherJob) => 8
    case Cat(FatherJob) => 9
    case Cat(Reason) => 10
    case Cat(Guardian) => 11
    case Num(TravelTime) => 12
    case Num(StudyTime) => 13
    case Num(Failures) => 14
    case Cat(SchoolSup) => 15
    case Cat(FamSup) => 16
    case Cat(Paid) => 17
    case Cat(Activities) => 18
    case Cat(Nursery) => 19
    case Cat(Higher) => 20
    case Cat(Internet) => 21
    case Cat(Romantic) => 22
    case Num(FamRel) => 23
    case Num(FreeTime) => 24
    case Num(GoOut) => 25
    case Num(WorkdayAlcohol) => 26
    case Num(WeekendAlcohol) => 27
    case Num(Health) => 28
    case Num(Absences) => 29
    case Num(Grade1) => 30
    case Num(Grade2) => 31
  }

  /** Every field has exactly one column: ColumnIndex and ColumnField are inverse bijections. */
  lemma ColumnOrderBijective(f: Field, i: int)
    ensures ColumnField(ColumnIndex(f)) == f
    ensures 0 <= i < Width ==> ColumnIndex(ColumnField(i)) == i
  {
  }

  /** What a field contributes to the vector: its code, or its integer unchanged. */
  function FieldValue(raw: RawInput, f: Field): int
    requires LabelsValid(raw)
  {
    match f
    case Cat(c) => Code(raw, c)
    case Num(n) => Value(raw, n)
  }

  /**
   * The encoder: the 32 values in the model's column order, entry i being
   * the value of field ColumnField(i).
   */
  function Encode(raw: RawInput): (v: seq<int>)
    requires LabelsValid(raw)
    ensures |v| == Width
  {
    seq(Width, i requires 0 <= i < Width => FieldValue(raw, ColumnField(i)))
  }

  /** The value of field f sits at its column. */
  lemma EncodeField(raw: RawInput, f: Field)
    requires LabelsValid(raw)
    ensures Encode(raw)[ColumnIndex(f)] == FieldValue(raw, f)
  {
    ColumnOrderBijective(f, 0);
  }

  /**
   * The 17 `<field>_encoded` variables the script computes, one
   * `get_encoded_value(<field>, <field>_map)` call each, before it builds the list.
   */
  datatype EncodedLabels = EncodedLabels(
    school: int, sex: int, address: int, famsize: int, Pstatus: int, Mjob: int, Fjob: int,
    reason: int, guardian: int, schoolsup: int, famsup: int, paid: int, activities: int,
    nursery: int, higher: int, internet: int, romantic: int)

  /** The variable of EncodedLabels that holds the code of field c. */
  function Coded(e: EncodedLabels, c: CatField): int
  {
    match c
    case School => e.school
    case Sex => e.sex
    case Address => e.address
    case FamSize => e.famsize
    case PStatus => e.Pstatus
    case MotherJob => e.Mjob
    case FatherJob => e.Fjob
    case Reason => e.reason
    case Guardian => e.guardian
    case SchoolSup => e.schoolsup
    case FamSup => e.famsup
    case Paid => e.paid
    case Activities => e.activities
    case Nursery => e.nursery
    case Higher => e.higher
    case Internet => e.internet
    case Romantic => e.romantic
  }

  /** The 17 lookups, in the order the script performs them. */
  function EncodeLabels(raw: RawInput): EncodedLabels
    requires LabelsValid(raw)
  {
    EncodedLabels(Code(raw, School), Code(raw, Sex), Code(raw, Address), Code(raw, FamSize), Code(raw, PStatus),
      Code(raw, MotherJob), Code(raw, FatherJob), Code(raw, Reason), Code(raw, Guardian),
      Code(raw, SchoolSup), Code(raw, FamSup), Code(raw, Paid), Code(raw, Activities),
      Code(raw, Nursery), Code(raw, Higher), Code(raw, Internet), Code(raw, Romantic))
  }

  /** Each `<field>_encoded` variable holds the code its field's label has in its table. */
  lemma EncodeLabelsCoded(raw: RawInput, c: CatField)
    requires LabelsValid(raw)
    ensures Coded(EncodeLabels(raw), c) == Code(raw, c)
  {
  }

  /** `feature_list` as the script writes it, from the encoded variables and the integers. */
  function FeatureList(raw: RawInput, e: EncodedLabels): seq<int>
  {
    [ e.school, e.sex, raw.age, e.address, e.famsize, e.Pstatus,
      raw.Medu, raw.Fedu, e.Mjob, e.Fjob, e.reason, e.guardian,
      raw.traveltime, raw.studytime, raw.failures, e.schoolsup, e.famsup,
      e.paid, e.activities, e.nursery, e.higher, e.internet,
      e.romantic, raw.famrel, raw.freetime, raw.goout, raw.Dalc, raw.Walc, raw.health,
      raw.absences, raw.G1, raw.G2 ]
  }

  /** What field f contributes to `feature_list`: its encoded variable, or its integer. */
  function Column(raw: RawInput, e: EncodedLabels, f: Field): int
  {
    match f
    case Cat(c) => Coded(e, c)
    case Num(n) => Value(raw, n)
  }

  /** Entry i of `feature_list` is the contribution of field ColumnField(i). */
  lemma FeatureListColumns(raw: RawInput, e: EncodedLabels, i: int)
    requires 0 <= i < Width
    ensures FeatureList(raw, e)[i] == Column(raw, e, ColumnField(i))
  {
    if i < 8 { FeatureListColumns0To7(raw, e, i); }
    else if i < 16 { FeatureListColumns8To15(raw, e, i); }
    else if i < 24 { FeatureListColumns16To23(raw, e, i); }
    else { FeatureListColumns24To31(raw, e, i); }
  }

  lemma FeatureListColumns0To7(raw: RawInput, e: EncodedLabels, i: int)
    requires 0 <= i < 8
    ensures FeatureList(raw, e)[i] == Column(raw, e, ColumnField(i))
  {
  }

  lemma FeatureListColumns8To15(raw: RawInput, e: EncodedLabels, i: int)
    requires 8 <= i < 16
    ensures FeatureList(raw, e)[i] == Column(raw, e, ColumnField(i))
  {
  }

  lemma FeatureListColumns16To23(raw: RawInput, e: EncodedLabels, i: int)
    requires 16 <= i < 24
    ensures FeatureList(raw, e)[i] == Column(raw, e, ColumnField(i))
  {
  }

  lemma FeatureListColumns24To31(raw: RawInput, e: EncodedLabels, i: int)
    requires 24 <= i < 32
    ensures FeatureList(raw, e)[i] == Column(raw, e, ColumnField(i))
  {
  }

  /** Any variables holding the 17 codes make `feature_list` the vector Encode describes. */
  lemma FeatureListIsEncode(raw: RawInput, e: EncodedLabels)
    requires LabelsValid(raw)
    requires forall c :: Coded(e, c) == Code(raw, c)
    ensures FeatureList(raw, e) == Encode(raw)
  {
    forall i | 0 <= i < Width ensures FeatureList(raw, e)[i] == Encode(raw)[i] {
      FeatureListColumns(raw, e, i);
      match ColumnField(i)
      case Cat(c) =>
      case Num(n) =>
    }
  }

  /** The list the script writes is the vector in the model's column order. */
  lemma EncodeIsFeatureList(raw: RawInput)
    requires LabelsValid(raw)
    ensures FeatureList(raw, EncodeLabels(raw)) == Encode(raw)
  {
    forall c ensures Coded(EncodeLabels(raw), c) == Code(raw, c) {
      EncodeLabelsCoded(raw, c);
    }
    FeatureListIsEncode(raw, EncodeLabels(raw));
  }

  // ---------------------------------------------------------------------------
  // A label that is not a key.

  /** The exception `mapping[label]` raises for a missing key; it carries the key. */
  datatype KeyError = KeyError(key: string)

  /** The column holds a numeric field, or a label that is a key of its table. */
  predicate ColumnLabelValid(raw: RawInput, i: int)
    requires 0 <= i < Width
  {
    match ColumnField(i)
    case Cat(c) => ValidLabel(raw, c)
    case Num(_) => true
  }

  /**
   * The first categorical field, from column `from` on, whose label is not a
   * key of its table. The script performs its 17 lookups in the order in which
   * their codes appear in `feature_list`, so this is the lookup that raises.
   */
  function FirstInvalid(raw: RawInput, from: nat): (r: Option<CatField>)
    requires from <= Width
    decreases Width - from
    ensures r.None? <==> forall i :: from <= i < Width ==> ColumnLabelValid(raw, i)
    ensures r.Some? ==>
      exists i :: from <= i < Width && ColumnField(i) == Cat(r.value) && !ValidLabel(raw, r.value)
                  && forall j :: from <= j < i ==> ColumnLabelValid(raw, j)
  {
    if from == Width then None
    else if !ColumnLabelValid(raw, from) then Some(ColumnField(from).c)
    else FirstInvalid(raw, from + 1)
  }

  /**
   * The encoder as the script behaves on arbitrary labels: the first lookup, in
   * script order, of a label that is not a key raises `KeyError(label)`;
   * otherwise the vector is assembled. It succeeds exactly on inputs whose
   * labels are all keys.
   */
  function EncodeChecked(raw: RawInput): (r: Result<seq<int>, KeyError>)
    ensures r.Success? <==> LabelsValid(raw)
    ensures r.Success? ==> r.value == Encode(raw)
    ensures r.Failure? ==>
      exists i :: 0 <= i < Width && ColumnField(i).Cat? && !ValidLabel(raw, ColumnField(i).c)
                  && r.error == KeyError(Label(raw, ColumnField(i).c))
                  && forall j :: 0 <= j < i ==> ColumnLabelValid(raw, j)
  {
    match FirstInvalid(raw, 0)
    case None =>
      assert LabelsValid(raw) by {
        forall c ensures ValidLabel(raw, c) {
          ColumnOrderBijective(Cat(c), 0);
          assert ColumnLabelValid(raw, ColumnIndex(Cat(c)));
        }
      }
      Success(Encode(raw))
    case Some(c) => Failure(KeyError(Label(raw, c)))
  }
}
