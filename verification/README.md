# embulk-filter-icu4j, modelled in Dafny

embulk-filter-icu4j is an Embulk filter. It derives new string columns from
chosen key columns. Each key value is run through a chain of ICU
transliterators and then through an optional case fold. This project models
the filter's two parts and proves properties about them.

- **Schema planner** (`Icu4jFilterPlugin.transaction`, module `SchemaPlanner`).
  With `keep_input`, the input columns come first, renumbered. Then comes one
  STRING column named `key + suffix` for each key and each setting. With
  `keep_input`, a setting without a suffix adds no column. `Transaction` is
  the loop as written. `PlanSchema` is the list it builds. The lemmas state
  the layout exactly: ordinals, names, types, counts and key-major order.
- **Set-up** (`open` and the `Icu4jPageOutput` constructor, modules `Setup`
  and `RecordTransform.SetUp`). The key names are resolved in the input
  schema, in order. Each setting's `transliterators` string is split on commas
  into its chain (module `JavaStrings`, Java's `String.split(",")`). A missing
  key and a missing `transliterators` entry are both errors (`SetupError`).
- **Conversion** (`convert`, module `Conversion`). The chain runs left to
  right, then "upper" or "lower" folds the result. ICU's `transliterate` and
  Java's `toUpperCase`/`toLowerCase` are fields of an `Engine` value and stay
  uninterpreted. The model lets a transliterator return null. This
  generalisation covers the code's `== null` check on the result. Passing
  null to the next transliterator or to a fold is a `NullPointerException`,
  modelled as `Eval.NullPointer`.
- **Record transformer** (`add`, modules `RecordTransform` and `RowWrites`).
  The page builder is a class with an array row and a sequence of emitted
  rows. The methods write into it: copy the input cells when `keep_input`,
  then, for each key and each setting, write the converted value into the
  column found by `key + suffix`. After that comes `addRecord`. What one
  record becomes is the function `ProcessRecord`. What a page becomes is
  `RunPage`. The methods are proved equal to them.
- **The two page outputs** (`FilterPlugin.AnonymousPageOutput`, from `open`,
  and `Icu4jOutput.Icu4jPageOutput`). They share the transformer. The flag
  `copiesJson` tells them apart: only `Icu4jPageOutput` copies JSON cells.

With `keep_input`, the code tests the suffix with `!= null`, not for being
non-empty. So an empty suffix still adds a STRING column named exactly like its
key (`SchemaPlanner.EmptySuffixDuplicatesKey`). `Schema.lookupColumn` returns
the first column with a name. So the derived writes of such a setting go to the
retained input column, as they do for a setting with no suffix at all
(`SchemaPlanner.BareKeyTargetsInputColumn`,
`RecordTransform.BareKeyOverwritesInput`). The added column is never written.

## Model

| member | source | states |
|---|---|---|
| SchemaPlanner.Transaction | src/main/java/org/embulk/filter/icu4j/Icu4jFilterPlugin.java:41-70 | The schema built by the nested loops with the single counter `i` is `PlanSchema(input, task)`. |
| SchemaPlanner.RetainInput | src/main/java/org/embulk/filter/icu4j/Icu4jFilterPlugin.java:47-54 | The keep-input loop gives the input columns, renumbered from 0 in order, with their names and types. |
| SchemaPlanner.AppendKeyColumns | src/main/java/org/embulk/filter/icu4j/Icu4jFilterPlugin.java:57-66 | The inner loop appends, in setting order, the numbered columns for one key's emitting settings. |
| SchemaPlanner.PlanPrefix | src/main/java/org/embulk/filter/icu4j/Icu4jFilterPlugin.java:48-54 | Ordinals run 0, 1, 2, … with no gap. With `keep_input`, column i is input column i's name and type, numbered i. |
| SchemaPlanner.DropInputLayout | src/main/java/org/embulk/filter/icu4j/Icu4jFilterPlugin.java:56-67 | Without `keep_input` there are exactly \|keys\|×\|settings\| columns. Column k×\|settings\|+j is the STRING column `key_k + suffix_j`. |
| SchemaPlanner.DropInputAt | src/main/java/org/embulk/filter/icu4j/Icu4jFilterPlugin.java:63-64 | Without `keep_input`, key k and setting j give the STRING column at k×\|settings\|+j. |
| SchemaPlanner.KeepInputLayout | src/main/java/org/embulk/filter/icu4j/Icu4jFilterPlugin.java:49-67 | With `keep_input` the length is \|input\| + \|keys\|×\|settings with a suffix\|. Each (key, suffixed setting) pair's STRING column sits key-major after the input. |
| SchemaPlanner.KeepInputAt | src/main/java/org/embulk/filter/icu4j/Icu4jFilterPlugin.java:59-61 | With `keep_input`, the j-th suffixed setting of key k gives the STRING column at \|input\| + k×\|w\| + j. |
| SchemaPlanner.KeepInputLength | src/main/java/org/embulk/filter/icu4j/Icu4jFilterPlugin.java:49-62 | With `keep_input` the output has \|input\| + \|keys\|×\|settings with a suffix\| columns. |
| SchemaPlanner.SettingEntriesAll | src/main/java/org/embulk/filter/icu4j/Icu4jFilterPlugin.java:63-64 | Without `keep_input` every setting contributes one STRING column per key, in setting order. |
| SchemaPlanner.SettingEntriesKeep | src/main/java/org/embulk/filter/icu4j/Icu4jFilterPlugin.java:59-62 | With `keep_input` a key's columns are exactly those of its settings that have a suffix. |
| SchemaPlanner.KeyEntriesKeep | src/main/java/org/embulk/filter/icu4j/Icu4jFilterPlugin.java:56-62 | With `keep_input` all derived columns are those of the suffixed settings alone. |
| SchemaPlanner.KeyEntriesAt | src/main/java/org/embulk/filter/icu4j/Icu4jFilterPlugin.java:56-58 | The derived entry of key k and setting j sits at k×\|settings\|+j: key-major, then setting order. |
| SchemaPlanner.AbsentSuffixAddsNothing | src/main/java/org/embulk/filter/icu4j/Icu4jFilterPlugin.java:60 | With `keep_input`, adding a setting with no suffix leaves the planned schema unchanged. |
| SchemaPlanner.EmptySuffixDuplicatesKey | src/main/java/org/embulk/filter/icu4j/Icu4jFilterPlugin.java:58-61 | With `keep_input`, an empty (present) suffix still adds a STRING column whose name equals the key. |
| SchemaPlanner.TargetExists | src/main/java/org/embulk/filter/icu4j/Icu4jFilterPlugin.java:133 | For every key found in the input and every setting, `key + suffix` names a column of the planned schema. |
| SchemaPlanner.BareKeyTargetsInputColumn | src/main/java/org/embulk/filter/icu4j/Icu4jFilterPlugin.java:49-58 | With `keep_input` and no suffix or an empty one, the lookup of `key + suffix` finds the retained input column at the input ordinal. |
| Config.DerivedName | src/main/java/org/embulk/filter/icu4j/Icu4jFilterPlugin.java:58 | The derived name starts with the key. With no suffix it is the key itself. |
| JavaStrings.SplitJoin | src/main/java/org/embulk/filter/icu4j/Icu4jFilterPlugin.java:83 | Comma-free ids joined with commas split back into the same ids, in order, unless the last is empty. |
| JavaStrings.SplitIsFieldPrefix | src/main/java/org/embulk/filter/icu4j/Icu4jPageOutput.java:45 | `split(",")` keeps the fields in order and drops only trailing empty fields. No part contains a comma. |
| JavaStrings.FieldsJoin | src/main/java/org/embulk/filter/icu4j/Icu4jPageOutput.java:45 | The fields of comma-free parts joined with commas are exactly those parts. |
| JavaStrings.JoinFields | src/main/java/org/embulk/filter/icu4j/Icu4jFilterPlugin.java:83 | Joining a string's fields with commas gives the string back. |
| Setup.ResolveKeys | src/main/java/org/embulk/filter/icu4j/Icu4jFilterPlugin.java:76-79 | Succeeds iff every key name is in the input, with the columns in configured order. Otherwise it fails with the first missing name. |
| Setup.BuildChains | src/main/java/org/embulk/filter/icu4j/Icu4jFilterPlugin.java:80-88 | Succeeds iff every setting has `transliterators`. Chain i is the split of setting i's string. Otherwise it fails at the first setting without one. |
| Setup.Tokenizers | src/main/java/org/embulk/filter/icu4j/Icu4jPageOutput.java:44-48 | The chain holds the split ids in split order. With `getInstance` kept abstract this loop is a copy with no proof of its own. |
| RecordTransform.SetUp | src/main/java/org/embulk/filter/icu4j/Icu4jPageOutput.java:40-50 | Succeeds iff all keys resolve and all settings have `transliterators`. A missing key is reported as such. On success the state is ready. |
| RecordTransform.PlannedStateIsReady | src/main/java/org/embulk/filter/icu4j/Icu4jFilterPlugin.java:129-133 | Against the planned schema, every `key + suffix` lookup of `add` succeeds, and every key column lies inside the input. |
| Conversion.Convert | src/main/java/org/embulk/filter/icu4j/Icu4jFilterPlugin.java:152-163 | The loop and the fold compute `Converted`: the chain from the front, then the fold. Null in the chain or fold throws. |
| Conversion.RunChainIsApplyFrom | src/main/java/org/embulk/filter/icu4j/Icu4jPageOutput.java:119-121 | The loop's fold equals tₙ(…t₁(s)), read from the front. |
| Conversion.ChainComposes | src/main/java/org/embulk/filter/icu4j/Icu4jFilterPlugin.java:154-156 | Running a chain split in two is running the second part on the first part's result. |
| Conversion.TwoStepOrder | src/main/java/org/embulk/filter/icu4j/Icu4jFilterPlugin.java:154-156 | For the chain [a, b] the result is b(a(s)). |
| Conversion.FoldAfterWholeChain | src/main/java/org/embulk/filter/icu4j/Icu4jPageOutput.java:119-126 | The case fold is applied once, after the whole chain. |
| Conversion.CaseModes | src/main/java/org/embulk/filter/icu4j/Icu4jFilterPlugin.java:157-161 | "upper" upper-cases, "lower" lower-cases, and any other or absent value leaves the string as it is. |
| Conversion.ConvertedNull | src/main/java/org/embulk/filter/icu4j/Icu4jPageOutput.java:118-127 | For a non-null string, `convert` returns null iff the chain's result is null and no fold was requested. This covers the empty chain. |
| RecordTransform.CopyColumnsAt | src/main/java/org/embulk/filter/icu4j/Icu4jFilterPlugin.java:109-125 | The copy puts each input cell's setter result in that cell's own column and touches no other column. |
| RecordTransform.CopyRecord | src/main/java/org/embulk/filter/icu4j/Icu4jFilterPlugin.java:108-126 | The keep-input loop writes the builder's row as `CopyColumns` does: null, or the typed value, per column. |
| RecordTransform.CopiedCells | src/main/java/org/embulk/filter/icu4j/Icu4jPageOutput.java:69-89 | With `keep_input`, cell i is input cell i. The `open` output leaves JSON cells null. `Icu4jPageOutput` copies the row unchanged. Derived columns start null. |
| RecordTransform.DeriveInputs | src/main/java/org/embulk/filter/icu4j/Icu4jFilterPlugin.java:131-134 | The value `getString` reads is the key cell. The column found by `key + firstNonNull(suffix, "")` is the write's target. |
| RecordTransform.DeriveOne | src/main/java/org/embulk/filter/icu4j/Icu4jPageOutput.java:94-105 | One iteration writes `setNull` for a null result and `setString` otherwise. A throwing conversion writes nothing. |
| RecordTransform.DeriveKey | src/main/java/org/embulk/filter/icu4j/Icu4jFilterPlugin.java:130-140 | The settings loop of one key applies that key's writes in setting order, stopping at the first throw. |
| RecordTransform.DeriveRecord | src/main/java/org/embulk/filter/icu4j/Icu4jFilterPlugin.java:128-141 | The key loop applies all writes of the record, key-major. |
| RecordTransform.ProcessOne | src/main/java/org/embulk/filter/icu4j/Icu4jPageOutput.java:69-107 | Copy-then-derive on a blank row leaves the row and the exception flag equal to `ProcessRecord`. |
| RecordTransform.AddPage | src/main/java/org/embulk/filter/icu4j/Icu4jFilterPlugin.java:104-144 | The record loop emits exactly `RunPage`'s rows and leaves its pending row and its exception flag. |
| RecordTransform.TargetNamed | src/main/java/org/embulk/filter/icu4j/Icu4jPageOutput.java:96 | The target of key k and setting j is an output column, and its name is `key_k + suffix_j`. |
| RecordTransform.WritesLength | src/main/java/org/embulk/filter/icu4j/Icu4jFilterPlugin.java:129-130 | A record makes \|keys\|×\|settings\| writes. |
| RecordTransform.WritesAt | src/main/java/org/embulk/filter/icu4j/Icu4jPageOutput.java:92-99 | Write k×\|settings\|+j uses chain j and setting j's case, on key k, to setting j's column. |
| RecordTransform.WritesFrom | src/main/java/org/embulk/filter/icu4j/Icu4jPageOutput.java:92-93 | Every write of a record is the write of some (key, setting) pair. |
| RecordTransform.WritesApart | src/main/java/org/embulk/filter/icu4j/Icu4jFilterPlugin.java:129-138 | With distinct derived names, no two writes of a record target the same column. |
| RecordTransform.TargetsApart | src/main/java/org/embulk/filter/icu4j/Icu4jFilterPlugin.java:133 | With distinct derived names, different pairs target different columns. |
| RecordTransform.RecordFailsIff | src/main/java/org/embulk/filter/icu4j/Icu4jFilterPlugin.java:134 | A record throws iff one of its conversions throws. |
| RecordTransform.NullKeyThrows | src/main/java/org/embulk/filter/icu4j/Icu4jFilterPlugin.java:153-155 | A null key cell with a non-empty chain makes the record throw. |
| RecordTransform.RecordKeepsCopy | src/main/java/org/embulk/filter/icu4j/Icu4jPageOutput.java:69-89 | A column no derived name targets keeps the copied cell, whether or not the record throws. |
| RecordTransform.RecordDerivedCell | src/main/java/org/embulk/filter/icu4j/Icu4jPageOutput.java:101-105 | For a record that goes through, each pair's column holds null for a null result and the string otherwise. |
| RecordTransform.BareKeyOverwritesInput | src/main/java/org/embulk/filter/icu4j/Icu4jPageOutput.java:96-104 | With `keep_input` and no suffix or an empty one, the converted value is written into the key's own input column. |
| RecordTransform.OneRecordPerRecord | src/main/java/org/embulk/filter/icu4j/Icu4jPageOutput.java:68-108 | One `addRecord` per input record, in input order. A page throws iff a record does, and then the records before it are emitted. |
| RowWrites.ApplyFailIff | src/main/java/org/embulk/filter/icu4j/Icu4jFilterPlugin.java:134-139 | A sequence of writes throws iff one of them throws. |
| RowWrites.ApplyFrame | src/main/java/org/embulk/filter/icu4j/Icu4jFilterPlugin.java:135-139 | A cell no write targets is unchanged. |
| RowWrites.ApplyValues | src/main/java/org/embulk/filter/icu4j/Icu4jFilterPlugin.java:135-139 | With distinct targets and no throw, each target holds its own write's value. |
| RowWrites.RunOutcomesOrder | src/main/java/org/embulk/filter/icu4j/Icu4jFilterPlugin.java:107-142 | Outcome rows are emitted in order until the first failure. The run fails iff an outcome failed. |
| RowWrites.RunOutcomesSticky | src/main/java/org/embulk/filter/icu4j/Icu4jFilterPlugin.java:107 | After an exception the rest of the page changes nothing. |
| FilterPlugin.Open | src/main/java/org/embulk/filter/icu4j/Icu4jFilterPlugin.java:72-92 | `open` succeeds iff keys resolve and every setting has `transliterators`. It returns a fresh, ready output that does not copy JSON. |
| FilterPlugin.AnonymousPageOutput.constructor | src/main/java/org/embulk/filter/icu4j/Icu4jFilterPlugin.java:90-92 | A fresh builder over the output schema: blank row, nothing emitted. |
| FilterPlugin.AnonymousPageOutput.Add | src/main/java/org/embulk/filter/icu4j/Icu4jFilterPlugin.java:104-144 | Emits `RunPage`'s records, and stays ready for the next page when nothing threw. |
| Icu4jOutput.NewIcu4jPageOutput | src/main/java/org/embulk/filter/icu4j/Icu4jPageOutput.java:33-53 | The constructor succeeds iff keys resolve and every setting has `transliterators`. It yields a fresh, ready output that copies JSON. |
| Icu4jOutput.Icu4jPageOutput.FromState | src/main/java/org/embulk/filter/icu4j/Icu4jPageOutput.java:51-52 | The builder over the output schema starts with a blank row and nothing emitted. |
| Icu4jOutput.Icu4jPageOutput.Add | src/main/java/org/embulk/filter/icu4j/Icu4jPageOutput.java:65-110 | Emits `RunPage`'s records (JSON copied), and stays ready when nothing threw. |

## Left out

- Embulk page plumbing (`PageReader`, `Page`, `Exec.getBufferAllocator`, `finish`, `close`): a page is a sequence of rows, and the builder is the `Embulk.PageBuilder` class.
- Configuration loading, `task.dump()` and `control.run`: `Transaction` takes the task as a value and returns the schema.
- The logger in `Icu4jPageOutput`, which has no effect on the output.
- ICU itself: `Transliterator.getInstance` with an unknown id throws inside the library. A chain holds the ids, and `transliterate` is an uninterpreted field of `Engine`.
- `String.toUpperCase` and `toLowerCase` are uninterpreted, so their locale-dependent mapping is not modelled.
- Cell payloads (doubles, timestamps, JSON) are opaque and only passed through.
- RecordTransform.AddPage: requires every key cell to be a string or null (`Fits`), because what `getString` does on a key column of another type is defined by the Embulk host, which is not part of this model.
- FilterPlugin.Open: requires the output schema to be the one `transaction` planned, as the host passes it, and the input schema to be numbered 0, 1, 2, … as every Embulk schema is.
- Icu4jOutput.NewIcu4jPageOutput: same requirement as `FilterPlugin.Open`.
- RecordTransform.RecordDerivedCell: assumes distinct derived names. With clashing derived names (such as a key listed twice in `key_names`, or two settings with the same suffix), the last write to a column wins; only `RecordKeepsCopy` and `RecordFailsIff` are stated for that case.
- The Java `int` column counter in `transaction` is unbounded here: a schema of more than 2^31 columns is out of scope.
