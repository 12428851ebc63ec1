/**
 * The record transformer shared by both page outputs: its per-stream state,
 * what one record becomes (copy of the input cells, then one converted
 * string per key and setting), what a page of records becomes, and the
 * loops that write a record into the page builder.
 */
module RecordTransform {
  import opened Wrappers
  import opened Embulk
  import opened Config
  import opened Conversion
  import opened SchemaPlanner
  import opened Setup
  import opened Seqs
  import opened RowWrites

  /**
   * What `open` (or the `Icu4jPageOutput` constructor) sets up once per
   * stream. `copiesJson` tells the two outputs apart: only
   * `Icu4jPageOutput` copies JSON cells.
   */
  datatype TransformerState = TransformerState(
    task: Task,
    inputSchema: Schema,
    outputSchema: Schema,
    keyColumns: seq<Column>,
    chains: seq<seq<string>>,
    engine: Engine,
    copiesJson: bool)

  /** One chain per setting: what the per-record functions need to be defined. */
  ghost predicate Sized(st: TransformerState) {
    |st.chains| == |st.task.settings|
  }

  /** Facts about a set-up state that the per-record theorems rely on. */
  ghost predicate Shaped(st: TransformerState) {
    && Sized(st)
    && WellFormed(st.inputSchema)
    && WellFormed(st.outputSchema)
    && (st.task.keepInput ==> |st.inputSchema| <= |st.outputSchema|)
    && |st.keyColumns| == |st.task.keyNames|
    && (forall k :: 0 <= k < |st.keyColumns| ==>
          st.keyColumns[k].index < |st.inputSchema| && st.keyColumns[k].name == st.task.keyNames[k])
    && (forall k, j :: 0 <= k < |st.keyColumns| && 0 <= j < |st.task.settings| ==>
          LookupColumn(st.outputSchema, DerivedName(st.keyColumns[k].name, st.task.settings[j])).Some?)
  }

  /** A state as set-up leaves it: keys resolved, chains built, output schema as planned. */
  ghost predicate Ready(st: TransformerState) {
    && WellFormed(st.inputSchema)
    && st.outputSchema == PlanSchema(st.inputSchema, st.task)
    && KeysResolved(st.inputSchema, st.task.keyNames, st.keyColumns)
    && ChainsBuilt(st.task.settings, st.chains)
    && Shaped(st)
  }

  /** Set-up against the planned schema always yields a usable state: every derived name resolves. */
  lemma PlannedStateIsReady(st: TransformerState)
    requires WellFormed(st.inputSchema)
    requires st.outputSchema == PlanSchema(st.inputSchema, st.task)
    requires KeysResolved(st.inputSchema, st.task.keyNames, st.keyColumns)
    requires ChainsBuilt(st.task.settings, st.chains)
    ensures Ready(st)
  {
    PlanPrefix(st.inputSchema, st.task);
    forall k | 0 <= k < |st.keyColumns|
      ensures st.keyColumns[k].index < |st.inputSchema| && st.keyColumns[k].name == st.task.keyNames[k]
    {
      LookupAtOwnIndex(st.inputSchema, st.task.keyNames[k]);
    }
    forall k, j | 0 <= k < |st.keyColumns| && 0 <= j < |st.task.settings|
      ensures LookupColumn(st.outputSchema, DerivedName(st.keyColumns[k].name, st.task.settings[j])).Some?
    {
      TargetExists(st.inputSchema, st.task, k, j);
    }
  }

  /**
   * The set-up both outputs run before building anything: the key loop, then
   * the settings loop; the first missing key, else the first setting without
   * `transliterators`, is what throws.
   */
  method SetUp(task: Task, input: Schema, output: Schema, engine: Engine, copiesJson: bool)
    returns (r: Result<TransformerState, SetupError>)
    requires WellFormed(input) && output == PlanSchema(input, task)
    ensures r.Success? <==>
      (forall k :: 0 <= k < |task.keyNames| ==> LookupColumn(input, task.keyNames[k]).Some?) &&
      (forall i :: 0 <= i < |task.settings| ==> task.settings[i].transliterators.Some?)
    ensures r.Failure? ==> (r.error.ColumnNotFound? <==>
      exists k :: 0 <= k < |task.keyNames| && LookupColumn(input, task.keyNames[k]).None?)
    ensures r.Success? ==> Ready(r.value)
    ensures r.Success? ==> r.value.task == task && r.value.inputSchema == input && r.value.outputSchema == output
    ensures r.Success? ==> r.value.engine == engine && r.value.copiesJson == copiesJson
  {
    var keys := ResolveKeys(input, task.keyNames);
    if keys.Failure? {
      return Failure(keys.error);
    }
    var chains := BuildChains(task.settings);
    if chains.Failure? {
      return Failure(chains.error);
    }
    var st := TransformerState(task, input, output, keys.value, chains.value, engine, copiesJson);
    PlannedStateIsReady(st);
    r := Success(st);
  }

  /**
   * A record the reader can hand over: laid out by the input schema, and
   * readable with `getString` in every key column (a string or null).
   */
  ghost predicate Fits(st: TransformerState, record: Row) {
    && WellTyped(st.inputSchema, record)
    && forall k :: 0 <= k < |st.keyColumns| && st.keyColumns[k].index < |record| ==>
         record[st.keyColumns[k].index].Null? || record[st.keyColumns[k].index].Str?
  }

  // ---------------------------------------------------------------------
  // Copying the input cells (keep_input)

  /**
   * The setter the copy calls for one cell: `setNull` for a null cell, the
   * typed setter for a handled type, and none for a JSON cell in the output
   * that does not copy JSON.
   */
  function CopyCell(c: Cell, t: ColumnType, copiesJson: bool): Option<Cell> {
    if c.Null? then Some(Null)
    else match t
      case String => Some(c)
      case Boolean => Some(c)
      case Double => Some(c)
      case Long => Some(c)
      case Timestamp => Some(c)
      case Json => if copiesJson then Some(c) else None
  }

  /** The row after the copy loop has handled the first `n` input columns (a column outside the row is not written). */
  function CopyColumns(st: TransformerState, row: Row, record: Row, n: nat): (r: Row)
    requires n <= |record| && n <= |st.inputSchema|
    ensures |r| == |row|
  {
    if n == 0 then row
    else
      var prev := CopyColumns(st, row, record, n - 1);
      var column := st.inputSchema[n - 1];
      match CopyCell(record[n - 1], column.ctype, st.copiesJson)
      case None => prev
      case Some(c) => if column.index < |prev| then prev[column.index := c] else prev
  }

  /** The row a record starts from: all null, then the input cells when `keep_input`. */
  function Copied(st: TransformerState, record: Row): (r: Row)
    requires |record| == |st.inputSchema|
    ensures |r| == |st.outputSchema|
  {
    var blank := Nulls(|st.outputSchema|);
    if st.task.keepInput then CopyColumns(st, blank, record, |record|) else blank
  }

  /** Each input cell lands in its own column; the others are untouched. */
  lemma {:induction false} CopyColumnsAt(st: TransformerState, row: Row, record: Row, n: nat)
    requires WellFormed(st.inputSchema) && |st.inputSchema| <= |row|
    requires n <= |record| && n <= |st.inputSchema|
    ensures forall i :: 0 <= i < n ==>
      CopyColumns(st, row, record, n)[i] ==
        match CopyCell(record[i], st.inputSchema[i].ctype, st.copiesJson)
        case None => row[i]
        case Some(c) => c
    ensures forall i :: n <= i < |row| ==> CopyColumns(st, row, record, n)[i] == row[i]
    decreases n
  {
    if n > 0 {
      CopyColumnsAt(st, row, record, n - 1);
      assert st.inputSchema[n - 1].index == n - 1;
    }
  }

  /**
   * With `keep_input` the first |input| cells of a record's row are the input
   * cells, except that the output that does not copy JSON leaves JSON cells
   * null; the derived columns start null.
   */
  lemma CopiedCells(st: TransformerState, record: Row)
    requires Shaped(st) && st.task.keepInput && |record| == |st.inputSchema|
    ensures forall i :: 0 <= i < |record| ==>
      Copied(st, record)[i] == if !st.copiesJson && st.inputSchema[i].ctype == Json then Null else record[i]
    ensures forall i :: |record| <= i < |st.outputSchema| ==> Copied(st, record)[i] == Null
    ensures st.copiesJson ==> Copied(st, record)[..|record|] == record
  {
    CopyColumnsAt(st, Nulls(|st.outputSchema|), record, |record|);
  }

  // ---------------------------------------------------------------------
  // The derived columns

  /**
   * The ordinal of the output column named key k + suffix of setting j;
   * |output| (no column) when the output schema lacks that name.
   */
  function Target(st: TransformerState, k: nat, j: nat): nat
    requires k < |st.keyColumns| && j < |st.task.settings|
  {
    match LookupColumn(st.outputSchema, DerivedName(st.keyColumns[k].name, st.task.settings[j]))
    case Some(c) => c.index
    case None => |st.outputSchema|
  }

  /** In a set-up state each target is the output column carrying the derived name. */
  lemma TargetNamed(st: TransformerState, k: nat, j: nat)
    requires Shaped(st) && k < |st.keyColumns| && j < |st.task.settings|
    ensures Target(st, k, j) < |st.outputSchema|
    ensures st.outputSchema[Target(st, k, j)].name == DerivedName(st.task.keyNames[k], st.task.settings[j])
  {
    LookupAtOwnIndex(st.outputSchema, DerivedName(st.keyColumns[k].name, st.task.settings[j]));
  }

  /** `reader.getString(column)` on key k: null for a null cell. */
  function KeyText(st: TransformerState, record: Row, k: nat): Option<string>
    requires k < |st.keyColumns|
  {
    var i := st.keyColumns[k].index;
    if i < |record| && record[i].Str? then Some(record[i].s) else None
  }

  /** The converted value for key k and setting j: setting j's chain, then its case fold, on the key's string. */
  function DerivedValue(st: TransformerState, record: Row, k: nat, j: nat): Eval<Option<string>>
    requires Sized(st) && k < |st.keyColumns| && j < |st.task.settings|
  {
    Converted(st.engine, KeyText(st, record, k), st.task.settings[j].caseMode, st.chains[j])
  }

  /** What `convert` writes for key k and setting j. */
  function WriteFor(st: TransformerState, record: Row, k: nat, j: nat): Write
    requires Sized(st) && k < |st.keyColumns| && j < |st.task.settings|
  {
    Write(Target(st, k, j), DerivedValue(st, record, k, j))
  }

  /** The inner loop for key k: the writes of its first `j` settings, in setting order. */
  function SettingWrites(st: TransformerState, record: Row, k: nat, j: nat): (r: seq<Write>)
    requires Sized(st) && k < |st.keyColumns| && j <= |st.task.settings|
    ensures |r| == j
    ensures forall i :: 0 <= i < j ==> r[i] == WriteFor(st, record, k, i)
    decreases j
  {
    if j == 0 then [] else SettingWrites(st, record, k, j - 1) + [WriteFor(st, record, k, j - 1)]
  }

  /** The writes of the first `j` settings are a prefix of those of the first `m`. */
  lemma SettingWritesPrefix(st: TransformerState, record: Row, k: nat, j: nat, m: nat)
    requires Sized(st) && k < |st.keyColumns| && j <= m <= |st.task.settings|
    ensures SettingWrites(st, record, k, m)[..j] == SettingWrites(st, record, k, j)
  {
    var long, short := SettingWrites(st, record, k, m), SettingWrites(st, record, k, j);
    assert forall i :: 0 <= i < j ==> long[..j][i] == short[i];
  }

  /** The writes of the first `k` keys, one row of the table per key. */
  function Table(st: TransformerState, record: Row, k: nat): (r: seq<seq<Write>>)
    requires Sized(st) && k <= |st.keyColumns|
    ensures |r| == k
    ensures forall k' :: 0 <= k' < k ==> r[k'] == SettingWrites(st, record, k', |st.task.settings|)
    decreases k
  {
    if k == 0 then [] else Table(st, record, k - 1) + [SettingWrites(st, record, k - 1, |st.task.settings|)]
  }

  /** All the writes one record makes, key-major, then in setting order. */
  function Writes(st: TransformerState, record: Row): seq<Write>
    requires Sized(st)
  {
    Flatten(Table(st, record, |st.keyColumns|))
  }

  /** What one input record becomes: the row handed to `addRecord`, or a thrown exception with the row as far as it got. */
  function ProcessRecord(st: TransformerState, record: Row): (r: Pass)
    requires Sized(st) && |record| == |st.inputSchema|
    ensures |r.row| == |st.outputSchema|
  {
    ApplyWrites(Copied(st, record), Writes(st, record))
  }

  /** One write per (key, setting) pair: |keys| × |settings| writes. */
  lemma WritesLength(st: TransformerState, record: Row)
    requires Sized(st)
    ensures |Writes(st, record)| == Slot(|st.keyColumns|, 0, |st.task.settings|)
  {
    FlattenLength(Table(st, record, |st.keyColumns|), |st.task.settings|);
  }

  /** The write of key k and setting j comes at position k × |settings| + j. */
  lemma WritesAt(st: TransformerState, record: Row, k: nat, j: nat)
    requires Sized(st) && k < |st.keyColumns| && j < |st.task.settings|
    ensures Slot(k, j, |st.task.settings|) < |Writes(st, record)|
    ensures Writes(st, record)[Slot(k, j, |st.task.settings|)] == WriteFor(st, record, k, j)
  {
    FlattenAt(Table(st, record, |st.keyColumns|), |st.task.settings|, k, j);
  }

  /** Every write of a record is the write of some (key, setting) pair, found by `Unslot`. */
  lemma WritesFrom(st: TransformerState, record: Row, i: nat)
    requires Sized(st) && i < |Writes(st, record)|
    ensures |st.task.settings| > 0
    ensures Unslot(i, |st.task.settings|).0 < |st.keyColumns|
    ensures Writes(st, record)[i] ==
      WriteFor(st, record, Unslot(i, |st.task.settings|).0, Unslot(i, |st.task.settings|).1)
  {
    var n := |st.task.settings|;
    WritesLength(st, record);
    SlotIsProduct(|st.keyColumns|, 0, n);
    var kj := Unslot(i, n);
    SlotBelow(kj.0, kj.1, |st.keyColumns|, n);
    WritesAt(st, record, kj.0, kj.1);
  }

  /** No two (key, setting) pairs derive the same column name. */
  ghost predicate DistinctDerivedNames(task: Task) {
    forall k1, j1, k2, j2 ::
      0 <= k1 < |task.keyNames| && 0 <= j1 < |task.settings| &&
      0 <= k2 < |task.keyNames| && 0 <= j2 < |task.settings| && (k1 != k2 || j1 != j2) ==>
      DerivedName(task.keyNames[k1], task.settings[j1]) != DerivedName(task.keyNames[k2], task.settings[j2])
  }

  /** With distinct derived names, different pairs target different columns. */
  lemma TargetsApart(st: TransformerState, k1: nat, j1: nat, k2: nat, j2: nat)
    requires Shaped(st) && DistinctDerivedNames(st.task)
    requires k1 < |st.keyColumns| && j1 < |st.task.settings| && k2 < |st.keyColumns| && j2 < |st.task.settings|
    requires k1 != k2 || j1 != j2
    ensures Target(st, k1, j1) != Target(st, k2, j2)
  {
    TargetNamed(st, k1, j1);
    TargetNamed(st, k2, j2);
  }

  /** With distinct derived names the writes of a record go to distinct columns. */
  lemma WritesApart(st: TransformerState, record: Row)
    requires Shaped(st) && DistinctDerivedNames(st.task)
    ensures var ws := Writes(st, record);
      forall a, b :: 0 <= a < b < |ws| ==> ws[a].target != ws[b].target
  {
    var ws := Writes(st, record);
    var n := |st.task.settings|;
    forall a, b | 0 <= a < b < |ws|
      ensures ws[a].target != ws[b].target
    {
      WritesFrom(st, record, a);
      WritesFrom(st, record, b);
      var p, q := Unslot(a, n), Unslot(b, n);
      TargetsApart(st, p.0, p.1, q.0, q.1);
    }
  }

  /** A record throws exactly when one of its conversions throws (every derived column exists). */
  lemma RecordFailsIff(st: TransformerState, record: Row)
    requires Shaped(st) && |record| == |st.inputSchema|
    ensures ProcessRecord(st, record).failed <==>
      exists k, j :: 0 <= k < |st.keyColumns| && 0 <= j < |st.task.settings| && DerivedValue(st, record, k, j).NullPointer?
  {
    var ws := Writes(st, record);
    var n := |st.task.settings|;
    var width := |st.outputSchema|;
    ApplyFailIff(Copied(st, record), ws);
    if exists i :: 0 <= i < |ws| && Throws(ws[i], width) {
      var i :| 0 <= i < |ws| && Throws(ws[i], width);
      WritesFrom(st, record, i);
      var kj := Unslot(i, n);
      TargetNamed(st, kj.0, kj.1);
      assert DerivedValue(st, record, kj.0, kj.1).NullPointer?;
    }
    if exists k, j :: 0 <= k < |st.keyColumns| && 0 <= j < n && DerivedValue(st, record, k, j).NullPointer? {
      var k, j :| 0 <= k < |st.keyColumns| && 0 <= j < n && DerivedValue(st, record, k, j).NullPointer?;
      WritesAt(st, record, k, j);
      assert Throws(ws[Slot(k, j, n)], width);
    }
  }

  /** A null key reaches the first transliterator, so with a non-empty chain the record throws. */
  lemma NullKeyThrows(st: TransformerState, record: Row, k: nat, j: nat)
    requires Shaped(st) && |record| == |st.inputSchema| && k < |st.keyColumns| && j < |st.task.settings|
    requires record[st.keyColumns[k].index].Null? && |st.chains[j]| > 0
    ensures ProcessRecord(st, record).failed
  {
    assert DerivedValue(st, record, k, j).NullPointer?;
    RecordFailsIff(st, record);
  }

  /** No (key, setting) pair writes output column c. */
  ghost predicate Untargeted(st: TransformerState, c: nat) {
    forall k, j :: 0 <= k < |st.keyColumns| && 0 <= j < |st.task.settings| ==> Target(st, k, j) != c
  }

  /** A column no derived name points at holds what the copy put there, whether or not the record throws. */
  lemma RecordKeepsCopy(st: TransformerState, record: Row, c: nat)
    requires Sized(st) && |record| == |st.inputSchema| && c < |st.outputSchema| && Untargeted(st, c)
    ensures ProcessRecord(st, record).row[c] == Copied(st, record)[c]
  {
    var ws := Writes(st, record);
    forall i | 0 <= i < |ws|
      ensures ws[i].target != c
    {
      WritesFrom(st, record, i);
    }
    ApplyFrame(Copied(st, record), ws, c);
  }

  /**
   * When the record goes through and derived names are distinct, the column
   * of key k and setting j holds that conversion's result.
   */
  lemma RecordDerivedCell(st: TransformerState, record: Row, k: nat, j: nat)
    requires Shaped(st) && |record| == |st.inputSchema| && k < |st.keyColumns| && j < |st.task.settings|
    requires DistinctDerivedNames(st.task) && !ProcessRecord(st, record).failed
    ensures DerivedValue(st, record, k, j).Done?
    ensures Target(st, k, j) < |st.outputSchema|
    ensures ProcessRecord(st, record).row[Target(st, k, j)] == CellOf(DerivedValue(st, record, k, j).value)
  {
    var ws := Writes(st, record);
    WritesApart(st, record);
    ApplyValues(Copied(st, record), ws);
    WritesAt(st, record, k, j);
    assert ws[Slot(k, j, |st.task.settings|)] == WriteFor(st, record, k, j);
  }

  /**
   * With `keep_input`, a setting without a suffix, or with an empty one,
   * writes its converted value over the key's own copied input cell.
   */
  lemma BareKeyOverwritesInput(st: TransformerState, k: nat, j: nat)
    requires Ready(st) && st.task.keepInput && k < |st.keyColumns| && j < |st.task.settings|
    requires SuffixOrEmpty(st.task.settings[j]) == ""
    ensures Target(st, k, j) == st.keyColumns[k].index
  {
    BareKeyTargetsInputColumn(st.inputSchema, st.task, st.task.keyNames[k], st.task.settings[j]);
  }

  // ---------------------------------------------------------------------
  // A page of records

  /** Every record of the page has the input schema's width. */
  ghost predicate PageSized(st: TransformerState, records: seq<Row>) {
    forall i :: 0 <= i < |records| ==> |records[i]| == |st.inputSchema|
  }

  /** What each record of the page becomes. */
  function Outcomes(st: TransformerState, records: seq<Row>): (r: seq<Pass>)
    requires Sized(st) && PageSized(st, records)
  {
    seq(|records|, i requires 0 <= i < |records| => ProcessRecord(st, records[i]))
  }

  lemma OutcomeAt(st: TransformerState, records: seq<Row>, i: nat)
    requires Sized(st) && PageSized(st, records) && i < |records|
    ensures |Outcomes(st, records)| == |records| && Outcomes(st, records)[i] == ProcessRecord(st, records[i])
  {
  }

  /** What `add` does with a page of records. */
  function RunPage(st: TransformerState, records: seq<Row>): PageRun
    requires Sized(st) && PageSized(st, records)
  {
    RunOutcomes(Outcomes(st, records), |st.outputSchema|)
  }

  /**
   * A page in the model's own terms: it throws exactly when some record
   * throws; the records before that one are emitted, in order, each as
   * `ProcessRecord` makes it; without an exception there is one output
   * record per input record and the builder's row is blank again.
   */
  lemma OneRecordPerRecord(st: TransformerState, records: seq<Row>)
    requires Sized(st) && PageSized(st, records)
    ensures var run := RunPage(st, records);
      run.failed <==> exists i :: 0 <= i < |records| && ProcessRecord(st, records[i]).failed
    ensures var run := RunPage(st, records);
      !run.failed ==> |run.emitted| == |records| && run.pending == Nulls(|st.outputSchema|)
    ensures var run := RunPage(st, records);
      |run.emitted| <= |records| &&
      forall i :: 0 <= i < |run.emitted| ==> run.emitted[i] == ProcessRecord(st, records[i]).row
    ensures var run := RunPage(st, records);
      run.failed ==> |run.emitted| < |records| && ProcessRecord(st, records[|run.emitted|]).failed
  {
    var outs := Outcomes(st, records);
    RunOutcomesOrder(outs, |st.outputSchema|);
    forall i | 0 <= i < |records|
      ensures outs[i] == ProcessRecord(st, records[i])
    {
      OutcomeAt(st, records, i);
    }
  }

  // ---------------------------------------------------------------------
  // The loops of `add`, writing one record into the page builder

  /** The keep_input loop: every input column copied into the builder's row with the setter for its type. */
  method CopyRecord(builder: PageBuilder, st: TransformerState, record: Row)
    requires Shaped(st) && st.task.keepInput && Fits(st, record)
    requires builder.Valid() && builder.width == |st.outputSchema|
    modifies builder.row
    ensures builder.row[..] == CopyColumns(st, old(builder.row[..]), record, |record|)
  {
    for c := 0 to |st.inputSchema|
      invariant builder.row[..] == CopyColumns(st, old(builder.row[..]), record, c)
    {
      var column := st.inputSchema[c];
      assert column.index == c;
      var cell := record[c];
      if cell.Null? {
        builder.SetNull(column);
        continue;
      }
      match column.ctype
      case String => builder.SetString(column, cell.s);
      case Boolean => builder.SetValue(column, cell);
      case Double => builder.SetValue(column, cell);
      case Long => builder.SetValue(column, cell);
      case Timestamp => builder.SetValue(column, cell);
      case Json =>
        if st.copiesJson {
          builder.SetValue(column, cell);
        }
    }
  }

  /**
   * What one iteration of the inner loop reads: the key cell as `getString`
   * returns it, and the output column found by key + suffix, which is the
   * write's target.
   */
  lemma DeriveInputs(st: TransformerState, record: Row, k: nat, j: nat)
    requires Shaped(st) && Fits(st, record) && k < |st.keyColumns| && j < |st.task.settings|
    ensures var i := st.keyColumns[k].index;
      i < |record| && (record[i].Null? || record[i].Str?) &&
      KeyText(st, record, k) == (if record[i].Null? then None else Some(record[i].s))
    ensures var name := st.keyColumns[k].name + MoreObjectsFirstNonNull(st.task.settings[j].suffix, "");
      LookupColumn(st.outputSchema, name).Some? &&
      LookupColumn(st.outputSchema, name).value.index == Target(st, k, j) < |st.outputSchema|
  {
    TargetNamed(st, k, j);
  }

  /**
   * One iteration of the inner loop: look up key + suffix in the output
   * schema, read the key with `getString`, convert it, and write the result
   * with `setNull` or `setString`; a conversion that throws writes nothing.
   */
  method DeriveOne(builder: PageBuilder, st: TransformerState, record: Row, k: nat, j: nat) returns (failed: bool)
    requires Shaped(st) && Fits(st, record) && k < |st.keyColumns| && j < |st.task.settings|
    requires builder.Valid() && builder.width == |st.outputSchema|
    modifies builder.row
    ensures Pass(builder.row[..], failed) == Step(Pass(old(builder.row[..]), false), WriteFor(st, record, k, j))
  {
    var setting := st.task.settings[j];
    var column := st.keyColumns[k];
    DeriveInputs(st, record, k, j);
    var outputColumn := LookupColumn(st.outputSchema, column.name + MoreObjectsFirstNonNull(setting.suffix, "")).value;
    var cell := record[column.index];
    var source := if cell.Null? then None else Some(cell.s);
    var converted := Convert(st.engine, source, setting.caseMode, st.chains[j]);
    if converted.NullPointer? {
      return true;
    }
    if converted.value.None? {
      builder.SetNull(outputColumn);
    } else {
      builder.SetString(outputColumn, converted.value.value);
    }
    failed := false;
  }

  /** The inner loop for one key: each setting's converted value written to its column, until one throws. */
  method DeriveKey(builder: PageBuilder, st: TransformerState, record: Row, k: nat) returns (failed: bool)
    requires Shaped(st) && Fits(st, record) && k < |st.keyColumns|
    requires builder.Valid() && builder.width == |st.outputSchema|
    modifies builder.row
    ensures Pass(builder.row[..], failed) == ApplyWrites(old(builder.row[..]), SettingWrites(st, record, k, |st.task.settings|))
  {
    ghost var start := builder.row[..];
    for j := 0 to |st.task.settings|
      invariant builder.row[..] == ApplyWrites(start, SettingWrites(st, record, k, j)).row
      invariant !ApplyWrites(start, SettingWrites(st, record, k, j)).failed
    {
      var thrown := DeriveOne(builder, st, record, k, j);
      ApplySnoc(start, SettingWrites(st, record, k, j), WriteFor(st, record, k, j));
      if thrown {
        SettingWritesPrefix(st, record, k, j + 1, |st.task.settings|);
        ApplySticky(start, SettingWrites(st, record, k, |st.task.settings|), j + 1);
        return true;
      }
    }
    failed := false;
  }

  /** Flattening one more key's writes. */
  lemma TableSnoc(st: TransformerState, record: Row, k: nat)
    requires Sized(st) && k < |st.keyColumns|
    ensures Flatten(Table(st, record, k + 1)) == Flatten(Table(st, record, k)) + SettingWrites(st, record, k, |st.task.settings|)
  {
    FlattenSnoc(Table(st, record, k), SettingWrites(st, record, k, |st.task.settings|));
  }

  /** Once the first keys' writes throw, the remaining keys change nothing. */
  lemma {:induction false} TableSticky(st: TransformerState, record: Row, row: Row, k: nat, m: nat)
    requires Sized(st) && k <= m <= |st.keyColumns|
    requires ApplyWrites(row, Flatten(Table(st, record, k))).failed
    ensures ApplyWrites(row, Flatten(Table(st, record, m))) == ApplyWrites(row, Flatten(Table(st, record, k)))
    decreases m
  {
    if m > k {
      TableSticky(st, record, row, k, m - 1);
      TableSnoc(st, record, m - 1);
      ApplyAppend(row, Flatten(Table(st, record, m - 1)), SettingWrites(st, record, m - 1, |st.task.settings|));
    }
  }

  /** One iteration of the outer loop, as a step over the rows: either the next prefix of keys, or the record's end. */
  lemma KeyStep(st: TransformerState, record: Row, start: Row, k: nat, before: Row, after: Row, thrown: bool)
    requires Sized(st) && k < |st.keyColumns|
    requires ApplyWrites(start, Flatten(Table(st, record, k))) == Pass(before, false)
    requires Pass(after, thrown) == ApplyWrites(before, SettingWrites(st, record, k, |st.task.settings|))
    ensures !thrown ==> ApplyWrites(start, Flatten(Table(st, record, k + 1))) == Pass(after, false)
    ensures thrown ==> ApplyWrites(start, Writes(st, record)) == Pass(after, true)
  {
    TableSnoc(st, record, k);
    ApplyAppend(start, Flatten(Table(st, record, k)), SettingWrites(st, record, k, |st.task.settings|));
    if thrown {
      TableSticky(st, record, start, k + 1, |st.keyColumns|);
    }
  }

  /** The outer loop over the key columns. */
  method DeriveRecord(builder: PageBuilder, st: TransformerState, record: Row) returns (failed: bool)
    requires Shaped(st) && Fits(st, record)
    requires builder.Valid() && builder.width == |st.outputSchema|
    modifies builder.row
    ensures Pass(builder.row[..], failed) == ApplyWrites(old(builder.row[..]), Writes(st, record))
  {
    ghost var start := builder.row[..];
    for k := 0 to |st.keyColumns|
      invariant ApplyWrites(start, Flatten(Table(st, record, k))) == Pass(builder.row[..], false)
    {
      ghost var before := builder.row[..];
      var thrown := DeriveKey(builder, st, record, k);
      KeyStep(st, record, start, k, before, builder.row[..], thrown);
      if thrown {
        return true;
      }
    }
    failed := false;
  }

  // ---------------------------------------------------------------------
  // The body of `add`, shared by both page outputs

  /** The body of the record loop up to `addRecord`: copy when `keep_input`, then derive; the builder's row starts blank. */
  method ProcessOne(builder: PageBuilder, st: TransformerState, record: Row) returns (failed: bool)
    requires Shaped(st) && Fits(st, record)
    requires builder.Valid() && builder.width == |st.outputSchema| && builder.row[..] == Nulls(builder.width)
    modifies builder.row
    ensures Pass(builder.row[..], failed) == ProcessRecord(st, record)
  {
    if st.task.keepInput {
      CopyRecord(builder, st, record);
    }
    failed := DeriveRecord(builder, st, record);
  }

  /**
   * `add`: every record of the page in order, each handed to `addRecord`
   * once written; the first record that throws ends the page with its
   * partial row left in the builder.
   */
  method AddPage(builder: PageBuilder, st: TransformerState, page: seq<Row>) returns (failed: bool)
    requires Shaped(st) && forall i :: 0 <= i < |page| ==> Fits(st, page[i])
    requires builder.Valid() && builder.width == |st.outputSchema| && builder.row[..] == Nulls(builder.width)
    modifies builder, builder.row
    ensures PageSized(st, page)
    ensures builder.Valid()
    ensures builder.emitted == old(builder.emitted) + RunPage(st, page).emitted
    ensures builder.row[..] == RunPage(st, page).pending
    ensures failed == RunPage(st, page).failed
  {
    assert PageSized(st, page);
    ghost var outs := Outcomes(st, page);
    ghost var emitted0 := builder.emitted;
    ghost var width := |st.outputSchema|;
    for r := 0 to |page|
      invariant builder.Valid() && builder.width == width
      invariant !RunOutcomes(outs[..r], width).failed
      invariant builder.emitted == emitted0 + RunOutcomes(outs[..r], width).emitted
      invariant builder.row[..] == RunOutcomes(outs[..r], width).pending == Nulls(width)
    {
      var thrown := ProcessOne(builder, st, page[r]);
      OutcomeAt(st, page, r);
      RunOutcomesPrefix(outs, r, width);
      if thrown {
        RunOutcomesStop(outs, r + 1, width);
        return true;
      }
      builder.AddRecord();
    }
    assert outs[..|page|] == outs;
    failed := false;
  }
}
