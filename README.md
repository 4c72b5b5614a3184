# Student dropout predictor: the encoder and the decision rule

The application is a one-page Streamlit form (`app.py`). The page collects 32
facts about a student: 17 labels chosen from select boxes, and 15 integers from
sliders, two education select boxes and a number input. The script turns the
labels into integer codes through hand-written dict tables
(`get_encoded_value`, a plain `mapping[label]`). It then lays the codes and the
integers out in the column order the classifier was trained on
(`feature_list`), scales that vector with a fitted min/max scaler and asks the
classifier for the probability that the student passes. A probability of 0.80
or more is a predicted pass.

The model covers the part of that script that is pure logic:

- `tables.dfy` (module `Tables`): the dict tables as ordered label/code lists,
  because select boxes offer `list(map.keys())` in insertion order. It also
  models `get_encoded_value`, a lookup defined only on keys, and the facts about
  each table.
- `encoder.dfy` (module `Encoder`): the form state (`RawInput`) and the widget
  bounds and defaults. It holds the 17 `<field>_encoded` variables
  (`EncodedLabels`) and `feature_list` as the script writes it (`FeatureList`).
  It also holds a column-indexed specification of the vector (`Encode`) and the
  `KeyError` path for a label that is not a key (`EncodeChecked`).
- `encoding_properties.dfy` (module `EncodingProperties`): what the vector
  says about every form state. This covers each field's column and code, the
  bounds, and exactly which form states share a vector. Two states share a
  vector when they agree after each parent's job `services` is read as
  `at_home`.
- `form_states.dfy` (module `FormStates`): the untouched form and a filled-in
  form, and the vectors they encode to.
- `predictor.dfy` (module `Predictor`): the inclusive 0.80 threshold, the
  prediction pipeline with the scaler and classifier as function parameters,
  and the message shown.
- `wrappers.dfy` (module `Wrappers`): `Option` and `Result`.

The script's comments group the fields as 12 + 10 + 6 + 2 features. The code
itself puts 12, 11, 7 and 2 widgets in those sections. Across them there are 17
table-encoded labels and 15 integers that pass through unchanged. The model
follows the code.

## Model

| member | source | states |
|---|---|---|
| Tables.GetEncodedValue | app.py:24-25 | the lookup is defined on keys only, and the code it returns is the code of an entry carrying the key |
| Tables.KeysListed | app.py:34 | a label is a key exactly when it is one of the options `list(mapping.keys())` lists |
| Tables.GetEncodedValueAt | app.py:24-25 | in a table without repeated keys, the i-th option is a key and looks up the i-th code |
| Tables.GetEncodedValueInImage | app.py:24-25 | every looked-up code is one of the codes written in the table |
| Tables.CodeDeterminesLabel | app.py:24-25 | in a table with distinct codes, two keys look up the same code if and only if they are the same key |
| Tables.BinaryTables | app.py:33-58 | school, sex, address, famsize and Pstatus each have two keys, the first coded 1 and the second 0 |
| Tables.BinaryCodes | app.py:33-58 | in a two-key 1/0 table a key looks up 1 iff it is the first key, 0 iff it is the second, and the codes are exactly {0, 1} |
| Tables.TablesWellFormed | app.py:33-138 | no table lists a key twice |
| Tables.JobTablesIdentical | app.py:69-74 | the mother's and father's job tables are the same table |
| Tables.JobTableCodes | app.py:69 | at_home and services look up 0, teacher 1, health 2 and other 4 |
| Tables.JobTableCollision | app.py:69 | the job table is not injective, its codes are exactly {0, 1, 2, 4}, and no job is coded 3 |
| Tables.JobLabelCode | app.py:69 | the only job keys are the five listed, each with the code written beside it |
| Tables.JobCodeDeterminesCanonicalLabel | app.py:69 | two job keys share a code if and only if they agree once services is read as at_home |
| Tables.ReasonTableBijective | app.py:79 | reason has distinct keys and distinct codes, and its codes are exactly 0..3 |
| Tables.GuardianTableBijective | app.py:84 | guardian has distinct keys and distinct codes, and its codes are exactly 0..2 |
| Encoder.ColumnOrderBijective | app.py:187-194 | every field has exactly one column of the 32 and every column holds exactly one field |
| Encoder.Encode | app.py:187-194 | the vector has exactly 32 entries |
| Encoder.EncodeField | app.py:187-194 | each field's value sits at that field's column |
| Encoder.EncodeLabelsCoded | app.py:35-140 | each `<field>_encoded` variable holds its label's code in that field's table |
| Encoder.FeatureListColumns | app.py:187-194 | entry i of `feature_list` is the encoded variable or the integer of the field the model expects in column i |
| Encoder.FeatureListIsEncode | app.py:187-194 | any variables holding the 17 codes make `feature_list` equal to the column-ordered vector |
| Encoder.EncodeIsFeatureList | app.py:35-194 | the list the script builds from its lookups is that vector |
| Encoder.FirstInvalid | app.py:35-140 | the search finds no field exactly when every label from that column on is a key; otherwise it finds the earliest field whose label is not a key |
| Encoder.EncodeChecked | app.py:24-140 | encoding succeeds exactly when every label is a key, and then gives the vector; otherwise it fails with `KeyError` carrying the label of the first lookup, in script order, that has no key |
| EncodingProperties.BinaryFieldTable | app.py:33-138 | each of the 13 two-label fields is encoded by a 1/0 table with distinct codes |
| EncodingProperties.TableOfWellFormed | app.py:33-138 | the table of every categorical field lists no key twice |
| EncodingProperties.SelectboxOptionEncodes | app.py:34-139 | whichever option a select box offers is a key and encodes to the code written beside it |
| EncodingProperties.OptionCode | app.py:34-139 | a form state whose field shows option `index` is valid in that field and is coded with that option's code |
| EncodingProperties.NumericFieldPassesThrough | app.py:43-179 | every integer reaches its column unchanged and lies within its widget's bounds: age 15–22, Medu and Fedu 0–4, traveltime and studytime 1–4, failures 0–4, famrel to health 1–5, absences 0–75, G1 and G2 0–20 |
| EncodingProperties.CategoricalFieldEncoded | app.py:35-140 | every label reaches its column as its code, which is one of its table's codes |
| EncodingProperties.BinaryFieldCode | app.py:33-138 | a two-label field is coded 1 iff it shows its first label and 0 iff it shows its second |
| EncodingProperties.SameFieldsSameInput | app.py:34-179 | two form states that agree in every field are the same state |
| EncodingProperties.CodeDeterminesCanonicalLabel | app.py:33-138 | two valid states share a field's code iff their labels agree once services is read as at_home |
| EncodingProperties.CanonicalCode | app.py:69-76 | reading services as at_home keeps every label a key and changes no code |
| EncodingProperties.CanonicalValue | app.py:43-179 | reading services as at_home changes no integer |
| EncodingProperties.EncodeCanonical | app.py:69-76 | reading services as at_home does not change the vector |
| EncodingProperties.SameVectorSameCode | app.py:187-194 | equal vectors imply equal codes in every field |
| EncodingProperties.SameVectorSameValue | app.py:187-194 | equal vectors imply equal integers in every field |
| EncodingProperties.EncodeKernel | app.py:33-194 | two valid form states have the same vector if and only if they agree once each parent's job services is read as at_home |
| EncodingProperties.MotherJobServicesValid | app.py:69-70 | switching the mother's job to services keeps every label a key |
| EncodingProperties.JobCollision | app.py:69-71 | a different form state with the mother's job services instead of at_home has the same vector |
| FormStates.DefaultInputIsFormDefault | app.py:33-179 | the untouched form shows each table's first key and each integer widget's default, within its bounds |
| FormStates.DefaultInputEncoding | app.py:33-194 | the untouched form encodes to [1,1,17,1,1,1,4,4,0,0,0,0,1,2,0,1,1,1,1,1,1,1,1,4,3,3,1,1,3,2,10,10] |
| FormStates.ScenarioOption | app.py:69-139 | the option shown by each select box of the filled-in form exists in its table |
| FormStates.ScenarioEncoding | app.py:33-194 | a form with jobs other, reason course, guardian mother and every Yes/No answered No encodes to [1,1,17,1,1,1,4,4,4,4,3,2,1,2,0,0,0,0,0,0,0,0,0,4,3,3,1,1,3,2,10,10] |
| Predictor.Decide | app.py:207 | the prediction is 0 or 1 |
| Predictor.DecideThreshold | app.py:207 | the prediction is 1 iff the probability is at least 0.80, and 0 iff it is below |
| Predictor.DecideMonotone | app.py:207 | a higher probability never gives a lower prediction |
| Predictor.DecideBoundary | app.py:207 | 0.80 itself is a pass, 0.7999 is not |
| Predictor.Predict | app.py:187-207 | the probability is the classifier's output on the scaled vector, and the prediction is 1 iff that probability reaches 0.80 |
| Predictor.PredictChecked | app.py:24-207 | the button's action succeeds iff every label is a key, then with the prediction; otherwise it fails with the encoder's `KeyError` |
| Predictor.MessageThreshold | app.py:207-215 | the pass message is shown iff the classifier's probability on the scaled vector reaches 0.80 |
| Predictor.PredictSeesOnlyCanonical | app.py:69-207 | whatever the scaler and classifier, states that agree once services is read as at_home get the same probability and prediction |
| Predictor.SeparatingPipeline | app.py:197-203 | two different vectors are told apart by some scaler that keeps the vector's length and some classifier |
| Predictor.PredictSeparates | app.py:33-203 | two valid states that differ otherwise are told apart by some length-keeping scaler and some classifier |
| Predictor.MotherJobInvisible | app.py:69-203 | changing the mother's job from at_home to services never changes the probability or the prediction |

## Left out

- The page itself is not modelled: the title, headers, columns, spinner and the formatting of the probability to two decimals. The model starts from the values the widgets hold when the button is pressed (`RawInput`).
- Loading the classifier and the scaler from their files (app.py:5-14) is not modelled. It is file I/O behind a cache, and their fitted behaviour is not part of the source. Both are function parameters of `Predict`.
- `scaler.transform` and `model.predict` are arbitrary functions here. Their floating-point arithmetic is not modelled, nor is the one-row `np.array([feature_list])` wrapping and the `[0][0]` unwrapping. A shape error cannot arise, because the vector always has 32 entries (`Encoder.Encode`).
- Predictor.Decide: compares a mathematical real with 0.80. The script compares a float32 from the classifier with the double 0.80, so probabilities within one float rounding of the threshold are not modelled exactly.
- Predictor.Predict: places no bound on the classifier's output. A sigmoid output lies in [0, 1], but that belongs to the trained artifact, not to the script.
- The eight Yes/No tables are eight identical dict literals in the script (app.py:103-138). They are modelled as one table, `Tables.YesNoMap`, because equal literals are equal values.
- The widgets' range checks are Streamlit's and not the script's. `FormProduced` states them as the assumption under which the bound lemmas hold.
