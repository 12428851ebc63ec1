/** `Icu4jFilterPlugin.transaction`: the output schema derived from the input schema and the task. */
module SchemaPlanner {
  import opened Wrappers
  import opened Embulk
  import opened Config
  import opened Seqs

  /** A column before its ordinal is assigned. */
  datatype Entry = Entry(name: string, ctype: ColumnType)

  /** Columns numbered 0, 1, 2, ... in the order they were appended. */
  function Numbered(entries: seq<Entry>): (r: Schema)
    ensures |r| == |entries|
  {
    seq(|entries|, i requires 0 <= i < |entries| => Column(i, entries[i].name, entries[i].ctype))
  }

  lemma NumberedIndex(entries: seq<Entry>, i: nat)
    requires i < |entries|
    ensures Numbered(entries)[i] == Column(i, entries[i].name, entries[i].ctype)
  {
  }

  /** The `q`-th entry after a prefix becomes the column numbered |prefix| + q. */
  lemma NumberedRight(front: seq<Entry>, back: seq<Entry>, q: nat)
    requires q < |back|
    ensures |front| + q < |Numbered(front + back)|
    ensures Numbered(front + back)[|front| + q] == Column(|front| + q, back[q].name, back[q].ctype)
  {
    IndexRight(front, back, q);
    NumberedIndex(front + back, |front| + q);
  }

  /** The input columns as kept by `keep_input`: same names and types. */
  function Retained(input: Schema): (r: seq<Entry>)
    ensures |r| == |input|
    decreases |input|
  {
    if |input| == 0 then []
    else
      var last := input[|input| - 1];
      Retained(input[..|input| - 1]) + [Entry(last.name, last.ctype)]
  }

  lemma {:induction false} RetainedAt(input: Schema)
    ensures forall i :: 0 <= i < |input| ==> Retained(input)[i] == Entry(input[i].name, input[i].ctype)
    decreases |input|
  {
    if |input| > 0 {
      RetainedAt(input[..|input| - 1]);
    }
  }

  /** Whether `setting` yields a column: always without `keep_input`, only with a (possibly empty) suffix with it. */
  predicate Emits(setting: Setting, keepInput: bool) {
    !keepInput || setting.suffix.Some?
  }

  /** The derived columns for one key, in setting order. */
  function SettingEntries(key: string, settings: seq<Setting>, keepInput: bool): seq<Entry>
    decreases |settings|
  {
    if |settings| == 0 then []
    else
      var last := settings[|settings| - 1];
      SettingEntries(key, settings[..|settings| - 1], keepInput)
        + (if Emits(last, keepInput) then [Entry(DerivedName(key, last), String)] else [])
  }

  /** The derived columns for all keys: key-major, then setting order. */
  function KeyEntries(keys: seq<string>, settings: seq<Setting>, keepInput: bool): seq<Entry>
    decreases |keys|
  {
    if |keys| == 0 then []
    else KeyEntries(keys[..|keys| - 1], settings, keepInput) + SettingEntries(keys[|keys| - 1], settings, keepInput)
  }

  /** The settings that have a suffix, in their order. */
  function WithSuffix(settings: seq<Setting>): (r: seq<Setting>)
    ensures |r| <= |settings|
    ensures forall i :: 0 <= i < |r| ==> r[i].suffix.Some?
    decreases |settings|
  {
    if |settings| == 0 then []
    else
      var last := settings[|settings| - 1];
      WithSuffix(settings[..|settings| - 1]) + (if last.suffix.Some? then [last] else [])
  }

  /** Where a setting with a suffix sits among the settings that have one: the number of such settings before it. */
  function SuffixRank(settings: seq<Setting>, j: nat): (r: nat)
    requires j < |settings| && settings[j].suffix.Some?
    ensures r < |WithSuffix(settings)| && WithSuffix(settings)[r] == settings[j]
    decreases |settings|
  {
    if j == |settings| - 1 then |WithSuffix(settings[..j])|
    else SuffixRank(settings[..|settings| - 1], j)
  }

  /** The output schema `transaction` hands to the host. */
  function PlanSchema(input: Schema, task: Task): Schema {
    Numbered((if task.keepInput then Retained(input) else []) + KeyEntries(task.keyNames, task.settings, task.keepInput))
  }

  lemma NumberedSnoc(entries: seq<Entry>, e: Entry)
    ensures Numbered(entries + [e]) == Numbered(entries) + [Column(|entries|, e.name, e.ctype)]
  {
    var l, r := Numbered(entries + [e]), Numbered(entries) + [Column(|entries|, e.name, e.ctype)];
    forall i | 0 <= i < |l|
      ensures l[i] == r[i]
    {
      if i < |entries| {
        IndexLeft(entries, [e], i);
        IndexLeft(Numbered(entries), [Column(|entries|, e.name, e.ctype)], i);
      }
    }
  }

  lemma SettingEntriesStep(done: seq<Entry>, key: string, settings: seq<Setting>, j: nat, keepInput: bool)
    requires j < |settings|
    ensures Emits(settings[j], keepInput) ==>
      done + SettingEntries(key, settings[..j + 1], keepInput) ==
      (done + SettingEntries(key, settings[..j], keepInput)) + [Entry(key + MoreObjectsFirstNonNull(settings[j].suffix, ""), String)]
    ensures !Emits(settings[j], keepInput) ==>
      done + SettingEntries(key, settings[..j + 1], keepInput) == done + SettingEntries(key, settings[..j], keepInput)
  {
    assert settings[..j + 1][..j] == settings[..j];
  }

  lemma KeyEntriesStep(base: seq<Entry>, keys: seq<string>, settings: seq<Setting>, k: nat, keepInput: bool)
    requires k < |keys|
    ensures base + KeyEntries(keys[..0], settings, keepInput) == base
    ensures base + KeyEntries(keys[..k + 1], settings, keepInput) == (base + KeyEntries(keys[..k], settings, keepInput)) + SettingEntries(keys[k], settings, keepInput)
  {
    assert keys[..0] == [];
    assert keys[..k + 1][..k] == keys[..k];
  }

  /** The first loop of `transaction`: every input column, renumbered from 0. */
  method RetainInput(input: Schema) returns (output: Schema)
    ensures output == Numbered(Retained(input))
  {
    output := [];
    var i := 0;
    for c := 0 to |input|
      invariant i == c == |output|
      invariant output == Numbered(Retained(input[..c]))
    {
      assert input[..c + 1][..c] == input[..c];
      NumberedSnoc(Retained(input[..c]), Entry(input[c].name, input[c].ctype));
      output := output + [Column(i, input[c].name, input[c].ctype)];
      i := i + 1;
    }
    assert input[..|input|] == input;
  }

  /**
   * The inner loop of `transaction` for one key: appends, in setting order,
   * a string column named key + suffix for every setting that emits one.
   */
  method AppendKeyColumns(columns: Schema, ghost entries: seq<Entry>, key: string, settings: seq<Setting>, keepInput: bool)
    returns (output: Schema)
    requires columns == Numbered(entries)
    ensures output == Numbered(entries + SettingEntries(key, settings, keepInput))
  {
    output := columns;
    var i := |output|;
    assert entries + SettingEntries(key, settings[..0], keepInput) == entries;
    for j := 0 to |settings|
      invariant output == Numbered(entries + SettingEntries(key, settings[..j], keepInput))
      invariant i == |output|
    {
      var setting := settings[j];
      var keyName := key + MoreObjectsFirstNonNull(setting.suffix, "");
      ghost var before := entries + SettingEntries(key, settings[..j], keepInput);
      SettingEntriesStep(entries, key, settings, j, keepInput);
      NumberedSnoc(before, Entry(keyName, String));
      if keepInput {
        if setting.suffix != None {
          output := output + [Column(i, keyName, String)];
          i := i + 1;
        }
      } else {
        output := output + [Column(i, keyName, String)];
        i := i + 1;
      }
    }
    assert settings[..|settings|] == settings;
  }

  /** `transaction`: copies the input columns when `keep_input`, then appends one string column per key and setting. */
  method Transaction(input: Schema, task: Task) returns (output: Schema)
    ensures output == PlanSchema(input, task)
  {
    output := [];
    ghost var entries: seq<Entry> := [];
    if task.keepInput {
      output := RetainInput(input);
      entries := Retained(input);
    }
    ghost var base := entries;
    var keys := task.keyNames;
    for k := 0 to |keys|
      invariant entries == base + KeyEntries(keys[..k], task.settings, task.keepInput)
      invariant output == Numbered(entries)
    {
      KeyEntriesStep(base, keys, task.settings, k, task.keepInput);
      output := AppendKeyColumns(output, entries, keys[k], task.settings, task.keepInput);
      entries := entries + SettingEntries(keys[k], task.settings, task.keepInput);
    }
    assert keys[..|keys|] == keys;
  }

  // ---------------------------------------------------------------------
  // What the planned schema looks like

  /** Ordinals run 0, 1, 2, ... and, with `keep_input`, the input columns come first, unchanged but for their ordinals. */
  lemma PlanPrefix(input: Schema, task: Task)
    ensures WellFormed(PlanSchema(input, task))
    ensures task.keepInput ==> |PlanSchema(input, task)| >= |input|
    ensures task.keepInput ==> forall i :: 0 <= i < |input| ==>
      PlanSchema(input, task)[i] == Column(i, input[i].name, input[i].ctype)
  {
    if task.keepInput {
      var derived := KeyEntries(task.keyNames, task.settings, true);
      RetainedAt(input);
      forall i | 0 <= i < |input|
        ensures PlanSchema(input, task)[i] == Column(i, input[i].name, input[i].ctype)
      {
        IndexLeft(Retained(input), derived, i);
      }
    }
  }

  /** Without `keep_input` every setting gives one column per key, in setting order. */
  lemma {:induction false} SettingEntriesAll(key: string, settings: seq<Setting>)
    ensures |SettingEntries(key, settings, false)| == |settings|
    ensures forall j :: 0 <= j < |settings| ==>
      SettingEntries(key, settings, false)[j] == Entry(DerivedName(key, settings[j]), String)
    decreases |settings|
  {
    if |settings| > 0 {
      SettingEntriesAll(key, settings[..|settings| - 1]);
    }
  }

  /** With `keep_input` a key's columns are those the suffixed settings give without it. */
  lemma {:induction false} SettingEntriesKeep(key: string, settings: seq<Setting>)
    ensures SettingEntries(key, settings, true) == SettingEntries(key, WithSuffix(settings), false)
    decreases |settings|
  {
    if |settings| > 0 {
      var init := settings[..|settings| - 1];
      var last := settings[|settings| - 1];
      SettingEntriesKeep(key, init);
      if last.suffix.Some? {
        var w := WithSuffix(init) + [last];
        assert WithSuffix(settings) == w;
        assert w[..|w| - 1] == WithSuffix(init);
        assert SettingEntries(key, w, false) == SettingEntries(key, WithSuffix(init), false) + [Entry(DerivedName(key, last), String)];
      } else {
        assert WithSuffix(settings) == WithSuffix(init);
      }
    }
  }

  lemma {:induction false} KeyEntriesKeep(keys: seq<string>, settings: seq<Setting>)
    ensures KeyEntries(keys, settings, true) == KeyEntries(keys, WithSuffix(settings), false)
    decreases |keys|
  {
    if |keys| > 0 {
      KeyEntriesKeep(keys[..|keys| - 1], settings);
      SettingEntriesKeep(keys[|keys| - 1], settings);
    }
  }

  lemma {:induction false} KeyEntriesLength(keys: seq<string>, settings: seq<Setting>)
    ensures |KeyEntries(keys, settings, false)| == Slot(|keys|, 0, |settings|)
    decreases |keys|
  {
    if |keys| > 0 {
      KeyEntriesLength(keys[..|keys| - 1], settings);
      SettingEntriesAll(keys[|keys| - 1], settings);
    }
  }

  /** The last key's block follows the blocks of all earlier keys. */
  lemma LastKeyEntries(keys: seq<string>, settings: seq<Setting>, j: nat)
    requires 0 < |keys| && j < |settings|
    ensures Slot(|keys| - 1, j, |settings|) < |KeyEntries(keys, settings, false)|
    ensures KeyEntries(keys, settings, false)[Slot(|keys| - 1, j, |settings|)]
      == Entry(DerivedName(keys[|keys| - 1], settings[j]), String)
  {
    var m := |keys| - 1;
    var front := KeyEntries(keys[..m], settings, false);
    var block := SettingEntries(keys[m], settings, false);
    KeyEntriesLength(keys[..m], settings);
    SlotShift(m, j, |settings|);
    SettingEntriesAll(keys[m], settings);
    IndexRight(front, block, j);
  }

  /** Without `keep_input`, the entry of key `k` and setting `j` sits at k × |settings| + j. */
  lemma {:induction false} KeyEntriesAt(keys: seq<string>, settings: seq<Setting>, k: nat, j: nat)
    requires k < |keys| && j < |settings|
    ensures Slot(k, j, |settings|) < |KeyEntries(keys, settings, false)|
    ensures KeyEntries(keys, settings, false)[Slot(k, j, |settings|)] == Entry(DerivedName(keys[k], settings[j]), String)
    decreases |keys|
  {
    var m := |keys| - 1;
    if k < m {
      var init := keys[..m];
      KeyEntriesAt(init, settings, k, j);
      assert init[k] == keys[k];
      IndexLeft(KeyEntries(init, settings, false), SettingEntries(keys[m], settings, false), Slot(k, j, |settings|));
    } else {
      LastKeyEntries(keys, settings, j);
    }
  }

  /** Column `p` of `schema` is a string column called `name`, numbered `p`. */
  ghost predicate StringColumnAt(schema: Schema, p: nat, name: string) {
    p < |schema| && schema[p] == Column(p, name, String)
  }

  /** Without `keep_input`, key `k` and setting `j` give the string column at k × |settings| + j. */
  lemma DropInputAt(input: Schema, task: Task, k: nat, j: nat)
    requires !task.keepInput && k < |task.keyNames| && j < |task.settings|
    ensures StringColumnAt(PlanSchema(input, task), Slot(k, j, |task.settings|), DerivedName(task.keyNames[k], task.settings[j]))
  {
    var entries := KeyEntries(task.keyNames, task.settings, false);
    assert [] + entries == entries;
    KeyEntriesAt(task.keyNames, task.settings, k, j);
    NumberedIndex(entries, Slot(k, j, |task.settings|));
  }

  /** Without `keep_input` the schema is exactly one string column per (key, setting), key-major. */
  lemma DropInputLayout(input: Schema, task: Task)
    requires !task.keepInput
    ensures |PlanSchema(input, task)| == |task.keyNames| * |task.settings|
    ensures forall k, j :: 0 <= k < |task.keyNames| && 0 <= j < |task.settings| ==>
      StringColumnAt(PlanSchema(input, task), Slot(k, j, |task.settings|), DerivedName(task.keyNames[k], task.settings[j]))
  {
    var entries := KeyEntries(task.keyNames, task.settings, false);
    assert [] + entries == entries;
    KeyEntriesLength(task.keyNames, task.settings);
    SlotIsProduct(|task.keyNames|, 0, |task.settings|);
    forall k, j | 0 <= k < |task.keyNames| && 0 <= j < |task.settings|
      ensures StringColumnAt(PlanSchema(input, task), Slot(k, j, |task.settings|), DerivedName(task.keyNames[k], task.settings[j]))
    {
      DropInputAt(input, task, k, j);
    }
  }

  /** With `keep_input`, key `k` and the `j`-th suffixed setting give the `k` × |w| + `j`-th derived column. */
  lemma KeepEntriesAt(keys: seq<string>, settings: seq<Setting>, k: nat, j: nat)
    requires k < |keys| && j < |WithSuffix(settings)|
    ensures Slot(k, j, |WithSuffix(settings)|) < |KeyEntries(keys, settings, true)|
    ensures KeyEntries(keys, settings, true)[Slot(k, j, |WithSuffix(settings)|)]
      == Entry(DerivedName(keys[k], WithSuffix(settings)[j]), String)
  {
    KeyEntriesKeep(keys, settings);
    KeyEntriesAt(keys, WithSuffix(settings), k, j);
  }

  /** With `keep_input`, key `k` and the `j`-th suffixed setting give the string column at |input| + k × |w| + j. */
  lemma KeepInputAt(input: Schema, task: Task, k: nat, j: nat)
    requires task.keepInput && k < |task.keyNames| && j < |WithSuffix(task.settings)|
    ensures StringColumnAt(PlanSchema(input, task), |input| + Slot(k, j, |WithSuffix(task.settings)|),
      DerivedName(task.keyNames[k], WithSuffix(task.settings)[j]))
  {
    KeepEntriesAt(task.keyNames, task.settings, k, j);
    NumberedRight(Retained(input), KeyEntries(task.keyNames, task.settings, true), Slot(k, j, |WithSuffix(task.settings)|));
  }

  /** With `keep_input` the planned schema has the input columns and then one column per key and per suffixed setting. */
  lemma KeepInputLength(input: Schema, task: Task)
    requires task.keepInput
    ensures |PlanSchema(input, task)| == |input| + |task.keyNames| * |WithSuffix(task.settings)|
  {
    var w := WithSuffix(task.settings);
    KeyEntriesKeep(task.keyNames, task.settings);
    KeyEntriesLength(task.keyNames, w);
    SlotIsProduct(|task.keyNames|, 0, |w|);
  }

  /**
   * With `keep_input` the input columns are followed by one string column per
   * key and per setting that has a suffix (an empty one included), key-major.
   */
  lemma KeepInputLayout(input: Schema, task: Task)
    requires task.keepInput
    ensures |PlanSchema(input, task)| == |input| + |task.keyNames| * |WithSuffix(task.settings)|
    ensures forall k, j :: 0 <= k < |task.keyNames| && 0 <= j < |WithSuffix(task.settings)| ==>
      StringColumnAt(PlanSchema(input, task), |input| + Slot(k, j, |WithSuffix(task.settings)|),
        DerivedName(task.keyNames[k], WithSuffix(task.settings)[j]))
  {
    KeepInputLength(input, task);
    forall k, j | 0 <= k < |task.keyNames| && 0 <= j < |WithSuffix(task.settings)|
      ensures StringColumnAt(PlanSchema(input, task), |input| + Slot(k, j, |WithSuffix(task.settings)|),
        DerivedName(task.keyNames[k], WithSuffix(task.settings)[j]))
    {
      KeepInputAt(input, task, k, j);
    }
  }

  /** With `keep_input`, adding a setting without a suffix leaves the schema as it was. */
  lemma {:induction false} AbsentSuffixAddsNothing(input: Schema, keys: seq<string>, settings: seq<Setting>, s: Setting)
    requires s.suffix.None?
    ensures PlanSchema(input, Task(keys, true, settings + [s])) == PlanSchema(input, Task(keys, true, settings))
  {
    KeyEntriesIgnore(keys, settings, s);
  }

  lemma {:induction false} KeyEntriesIgnore(keys: seq<string>, settings: seq<Setting>, s: Setting)
    requires s.suffix.None?
    ensures KeyEntries(keys, settings + [s], true) == KeyEntries(keys, settings, true)
    decreases |keys|
  {
    if |keys| > 0 {
      KeyEntriesIgnore(keys[..|keys| - 1], settings, s);
      assert (settings + [s])[..|settings|] == settings;
    }
  }

  /**
   * With `keep_input`, a setting whose suffix is the empty string (present,
   * not absent) still adds a column, named exactly like its key: the check is
   * "not null", not "not empty".
   */
  lemma EmptySuffixDuplicatesKey(input: Schema, task: Task, k: nat, j: nat)
    requires task.keepInput && k < |task.keyNames| && j < |task.settings|
    requires task.settings[j].suffix == Some("")
    ensures exists p ::
      |input| <= p < |PlanSchema(input, task)| && PlanSchema(input, task)[p] == Column(p, task.keyNames[k], String)
  {
    var idx := SuffixRank(task.settings, j);
    KeepInputAt(input, task, k, idx);
    var p := |input| + Slot(k, idx, |WithSuffix(task.settings)|);
    assert task.keyNames[k] + "" == task.keyNames[k];
    assert PlanSchema(input, task)[p] == Column(p, task.keyNames[k], String);
  }

  /**
   * Every name the record transformer looks up in the planned schema is there:
   * for each configured key present in the input and each setting,
   * key + suffix names a column.
   */
  lemma TargetExists(input: Schema, task: Task, k: nat, j: nat)
    requires k < |task.keyNames| && j < |task.settings|
    requires LookupColumn(input, task.keyNames[k]).Some?
    ensures LookupColumn(PlanSchema(input, task), DerivedName(task.keyNames[k], task.settings[j])).Some?
  {
    var plan := PlanSchema(input, task);
    var name := DerivedName(task.keyNames[k], task.settings[j]);
    if !task.keepInput {
      DropInputAt(input, task, k, j);
      var p := Slot(k, j, |task.settings|);
      assert plan[p].name == name;
    } else if task.settings[j].suffix.None? {
      PlanPrefix(input, task);
      var p := Position(input, task.keyNames[k]).value;
      assert plan[p].name == name;
    } else {
      var idx := SuffixRank(task.settings, j);
      KeepInputAt(input, task, k, idx);
      var p := |input| + Slot(k, idx, |WithSuffix(task.settings)|);
      assert plan[p].name == name;
    }
  }

  /**
   * With `keep_input` and no suffix, or an empty one, the derived name is the
   * key itself and finds the retained input column, at the input column's own
   * ordinal: the converted value overwrites the copied one (and the column
   * an empty suffix adds under the same name is never found).
   */
  lemma BareKeyTargetsInputColumn(input: Schema, task: Task, key: string, s: Setting)
    requires task.keepInput && SuffixOrEmpty(s) == ""
    requires WellFormed(input) && LookupColumn(input, key).Some?
    ensures LookupColumn(PlanSchema(input, task), DerivedName(key, s)).Some?
    ensures LookupColumn(PlanSchema(input, task), DerivedName(key, s)).value ==
      LookupColumn(input, key).value
  {
    assert DerivedName(key, s) == key;
    var plan := PlanSchema(input, task);
    PlanPrefix(input, task);
    var p := Position(input, key).value;
    assert plan[p].name == key;
    assert forall i :: 0 <= i < p ==> plan[i].name == input[i].name;
  }
}
