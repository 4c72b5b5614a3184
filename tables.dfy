/**
 * The categorical lookup tables of the prediction form and the one operation
 * that reads them, `get_encoded_value` (a plain `mapping[label]`).
 *
 * A Python dict literal keeps its keys in insertion order, and the form offers
 * `list(mapping.keys())` as the options of each select box, so a table is
 * modelled as an ordered list of label/code entries rather than as a Dafny map.
 */
module Tables {

  /** One key/value pair of a dict literal: a label shown on the form and its code. */
  datatype Entry = Entry(key: string, code: int)

  type Table = seq<Entry>

  /** `list(mapping.keys())`: the labels, in insertion order. */
  function Keys(t: Table): seq<string>
  {
    seq(|t|, i requires 0 <= i < |t| => t[i].key)
  }

  /** `label in mapping`: the label is a key of the table. */
  predicate IsKey(mapping: Table, key: string)
  {
    exists i :: 0 <= i < |mapping| && mapping[i].key == key
  }

  /** The keys are exactly the labels listed by `list(mapping.keys())`. */
  lemma KeysListed(mapping: Table, key: string)
    ensures IsKey(mapping, key) <==> key in Keys(mapping)
  {
    if key in Keys(mapping) {
      var i :| 0 <= i < |mapping| && Keys(mapping)[i] == key;
      assert mapping[i].key == key;
    }
    if IsKey(mapping, key) {
      var i :| 0 <= i < |mapping| && mapping[i].key == key;
      assert Keys(mapping)[i] == key;
    }
  }

  /** The set of codes a table can produce. */
  function Image(t: Table): set<int>
  {
    set i | 0 <= i < |t| :: t[i].code
  }

  /** No key is listed twice, so `mapping[key]` names one entry. */
  predicate WellFormed(t: Table)
  {
    forall i, j :: 0 <= i < j < |t| ==> t[i].key != t[j].key
  }

  /** Distinct labels get distinct codes. */
  predicate Injective(t: Table)
  {
    forall i, j :: 0 <= i < j < |t| ==> t[i].code != t[j].code
  }

  /**
   * `get_encoded_value(key, mapping)`, i.e. `mapping[key]`. The source
   * raises `KeyError` for a label that is not a key, so the key must be one.
   * The code returned is that of an entry carrying the key. On a table that
   * repeats a key this is the first entry's code, whereas a Python dict literal
   * keeps the last; no table of the form repeats a key (TablesWellFormed), so
   * the two agree on every table here.
   */
  function GetEncodedValue(key: string, mapping: Table): (code: int)
    requires IsKey(mapping, key)
    ensures exists i :: 0 <= i < |mapping| && mapping[i].key == key && mapping[i].code == code
  {
    if mapping[0].key == key then
      mapping[0].code
    else
      assert IsKey(mapping[1..], key) by {
        var i :| 0 <= i < |mapping| && mapping[i].key == key;
        assert mapping[1..][i - 1].key == key;
      }
      GetEncodedValue(key, mapping[1..])
  }

  /** In a table without repeated labels, the lookup of the i-th key yields the i-th code. */
  lemma GetEncodedValueAt(mapping: Table, i: int)
    requires WellFormed(mapping)
    requires 0 <= i < |mapping|
    ensures IsKey(mapping, mapping[i].key)
    ensures GetEncodedValue(mapping[i].key, mapping) == mapping[i].code
  {
  }

  /** Every looked-up code lies in the table's image. */
  lemma GetEncodedValueInImage(key: string, mapping: Table)
    requires IsKey(mapping, key)
    ensures GetEncodedValue(key, mapping) in Image(mapping)
  {
    var i :| 0 <= i < |mapping| && mapping[i].key == key && mapping[i].code == GetEncodedValue(key, mapping);
    assert mapping[i].code in Image(mapping);
  }

  /** For an injective table the code identifies the key: decoding is possible. */
  lemma CodeDeterminesLabel(mapping: Table, l1: string, l2: string)
    requires Injective(mapping)
    requires IsKey(mapping, l1) && IsKey(mapping, l2)
    ensures GetEncodedValue(l1, mapping) == GetEncodedValue(l2, mapping) <==> l1 == l2
  {
    if GetEncodedValue(l1, mapping) == GetEncodedValue(l2, mapping) {
      var i :| 0 <= i < |mapping| && mapping[i].key == l1 && mapping[i].code == GetEncodedValue(l1, mapping);
      var j :| 0 <= j < |mapping| && mapping[j].key == l2 && mapping[j].code == GetEncodedValue(l2, mapping);
      if i < j {
        assert mapping[i].code != mapping[j].code;
      } else if j < i {
        assert mapping[j].code != mapping[i].code;
      }
    }
  }

  // ---------------------------------------------------------------------------
  // The tables of the form, with the codes the trained model expects.

  const SchoolMap: Table := [Entry("GP", 1), Entry("MS", 0)]
  const SexMap: Table := [Entry("Male (M)", 1), Entry("Female (F)", 0)]
  const AddressMap: Table := [Entry("Urban (U)", 1), Entry("Rural (R)", 0)]
  const FamsizeMap: Table := [Entry("Greater than 3 (GT3)", 1), Entry("Less or equal to 3 (LE3)", 0)]
  const PstatusMap: Table := [Entry("Living Together (T)", 1), Entry("Living Apart (A)", 0)]

  const MjobMap: Table :=
    [Entry("at_home", 0), Entry("teacher", 1), Entry("health", 2), Entry("services", 0), Entry("other", 4)]
  const FjobMap: Table :=
    [Entry("at_home", 0), Entry("teacher", 1), Entry("health", 2), Entry("services", 0), Entry("other", 4)]

  const ReasonMap: Table := [Entry("other", 0), Entry("home", 1), Entry("reputation", 2), Entry("course", 3)]
  const GuardianMap: Table := [Entry("other", 0), Entry("father", 1), Entry("mother", 2)]

  /** The table shared (as eight identical literals) by the eight Yes/No fields. */
  const YesNoMap: Table := [Entry("Yes", 1), Entry("No", 0)]

  /** A two-key table whose first key encodes to 1 and second to 0. */
  predicate Binary(t: Table)
  {
    |t| == 2 && t[0].key != t[1].key && t[0].code == 1 && t[1].code == 0
  }

  lemma BinaryTables()
    ensures Binary(SchoolMap) && Binary(SexMap) && Binary(AddressMap)
    ensures Binary(FamsizeMap) && Binary(PstatusMap) && Binary(YesNoMap)
  {
  }

  /** A binary table encodes its first key to 1, its second to 0, and nothing else. */
  lemma BinaryCodes(t: Table, key: string)
    requires Binary(t)
    requires IsKey(t, key)
    ensures GetEncodedValue(key, t) == 1 <==> key == t[0].key
    ensures GetEncodedValue(key, t) == 0 <==> key == t[1].key
    ensures Image(t) == {0, 1}
  {
    assert t[0].code in Image(t) && t[1].code in Image(t);
  }

  /** Every table has distinct labels, so each lookup names exactly one entry. */
  lemma TablesWellFormed()
    ensures WellFormed(SchoolMap) && WellFormed(SexMap) && WellFormed(AddressMap)
    ensures WellFormed(FamsizeMap) && WellFormed(PstatusMap)
    ensures WellFormed(MjobMap) && WellFormed(FjobMap)
    ensures WellFormed(ReasonMap) && WellFormed(GuardianMap) && WellFormed(YesNoMap)
  {
  }

  /** Mother's and father's job tables are the same table. */
  lemma JobTablesIdentical()
    ensures MjobMap == FjobMap
  {
  }

  /** Identifies the two job labels that share code 0. */
  function CanonicalJob(key: string): string
  {
    if key == "services" then "at_home" else key
  }

  /**
   * The job table's lookups: `at_home` and `services` both encode to 0,
   * `teacher` to 1, `health` to 2 and `other` to 4.
   */
  lemma JobTableCodes()
    ensures IsKey(MjobMap, "at_home") && IsKey(MjobMap, "services")
    ensures IsKey(MjobMap, "teacher") && IsKey(MjobMap, "health") && IsKey(MjobMap, "other")
    ensures GetEncodedValue("at_home", MjobMap) == 0 && GetEncodedValue("services", MjobMap) == 0
    ensures GetEncodedValue("teacher", MjobMap) == 1
    ensures GetEncodedValue("health", MjobMap) == 2
    ensures GetEncodedValue("other", MjobMap) == 4
  {
    TablesWellFormed();
    GetEncodedValueAt(MjobMap, 0);
    GetEncodedValueAt(MjobMap, 1);
    GetEncodedValueAt(MjobMap, 2);
    GetEncodedValueAt(MjobMap, 3);
    GetEncodedValueAt(MjobMap, 4);
  }

  /** Two job labels share a code, so the table is not injective, and no job encodes to 3. */
  lemma JobTableCollision()
    ensures "at_home" != "services" && !Injective(MjobMap)
    ensures Image(MjobMap) == {0, 1, 2, 4} && 3 !in Image(MjobMap)
  {
    assert MjobMap[0].code == MjobMap[3].code;
    assert MjobMap[0].code == 0 && MjobMap[1].code == 1 && MjobMap[2].code == 2 && MjobMap[4].code == 4;
    assert MjobMap[0].code in Image(MjobMap) && MjobMap[1].code in Image(MjobMap);
    assert MjobMap[2].code in Image(MjobMap) && MjobMap[4].code in Image(MjobMap);
  }

  /** The job code is exactly as informative as the job key with `services` read as `at_home`. */
  lemma JobCodeDeterminesCanonicalLabel(l1: string, l2: string)
    requires IsKey(MjobMap, l1) && IsKey(MjobMap, l2)
    ensures GetEncodedValue(l1, MjobMap) == GetEncodedValue(l2, MjobMap) <==> CanonicalJob(l1) == CanonicalJob(l2)
  {
    JobLabelCode(l1);
    JobLabelCode(l2);
  }

  /** The code of each job key, read off the table. */
  lemma JobLabelCode(l: string)
    requires IsKey(MjobMap, l)
    ensures l == "at_home" || l == "teacher" || l == "health" || l == "services" || l == "other"
    ensures GetEncodedValue(l, MjobMap) == (if l == "teacher" then 1 else if l == "health" then 2 else if l == "other" then 4 else 0)
  {
    TablesWellFormed();
    var i :| 0 <= i < |MjobMap| && MjobMap[i].key == l;
    GetEncodedValueAt(MjobMap, i);
  }

  /** `reason` encodes its four labels one-to-one onto 0..3. */
  lemma ReasonTableBijective()
    ensures WellFormed(ReasonMap) && Injective(ReasonMap)
    ensures Image(ReasonMap) == {0, 1, 2, 3}
  {
    assert ReasonMap[0].code in Image(ReasonMap) && ReasonMap[1].code in Image(ReasonMap);
    assert ReasonMap[2].code in Image(ReasonMap) && ReasonMap[3].code in Image(ReasonMap);
  }

  /** `guardian` encodes its three labels one-to-one onto 0..2. */
  lemma GuardianTableBijective()
    ensures WellFormed(GuardianMap) && Injective(GuardianMap)
    ensures Image(GuardianMap) == {0, 1, 2}
  {
    assert GuardianMap[0].code in Image(GuardianMap) && GuardianMap[1].code in Image(GuardianMap);
    assert GuardianMap[2].code in Image(GuardianMap);
  }
}
