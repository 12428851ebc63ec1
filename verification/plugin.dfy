/**
 * `Icu4jFilterPlugin.open`: set-up against the planned schema, and the
 * anonymous page output it returns, which writes each input record's
 * copied and converted cells into its page builder (JSON cells are not copied).
 */
module FilterPlugin {
  import opened Wrappers
  import opened Embulk
  import opened Config
  import opened Conversion
  import opened SchemaPlanner
  import opened Setup
  import opened RowWrites
  import opened RecordTransform

  /** The page output `open` returns: the set-up state it closes over and its page builder. */
  class AnonymousPageOutput {
    const state: TransformerState
    const builder: PageBuilder

    /** Set up, not copying JSON, and between records: the builder's row is blank. */
    ghost predicate Valid()
      reads this, builder, builder.row
    {
      && Ready(state)
      && !state.copiesJson
      && builder.Valid()
      && builder.width == |state.outputSchema|
      && builder.row[..] == Nulls(builder.width)
    }

    /** The anonymous class's fields: a builder over the output schema, with nothing emitted yet. */
    constructor (state: TransformerState)
      requires Ready(state) && !state.copiesJson
      ensures Valid() && this.state == state
      ensures fresh(builder) && fresh(builder.row) && builder.emitted == []
    {
      this.state := state;
      builder := new PageBuilder(|state.outputSchema|);
    }

    /**
     * `add`: each record copied (when `keep_input`) and converted, then handed
     * on with `addRecord`; the first conversion that throws ends the page.
     */
    method Add(page: seq<Row>) returns (failed: bool)
      requires Valid() && forall i :: 0 <= i < |page| ==> Fits(state, page[i])
      modifies builder, builder.row
      ensures PageSized(state, page)
      ensures builder.emitted == old(builder.emitted) + RunPage(state, page).emitted
      ensures builder.row[..] == RunPage(state, page).pending
      ensures failed == RunPage(state, page).failed
      ensures !failed ==> Valid()
    {
      failed := AddPage(builder, state, page);
      OneRecordPerRecord(state, page);
    }
  }

  /**
   * `open`: resolve the key columns, build the transliterator chains, and
   * return the page output; a missing key column or a setting without
   * `transliterators` throws, the key columns being resolved first.
   */
  method Open(task: Task, input: Schema, output: Schema, engine: Engine)
    returns (r: Result<AnonymousPageOutput, SetupError>)
    requires WellFormed(input) && output == PlanSchema(input, task)
    ensures r.Success? <==>
      (forall k :: 0 <= k < |task.keyNames| ==> LookupColumn(input, task.keyNames[k]).Some?) &&
      (forall i :: 0 <= i < |task.settings| ==> task.settings[i].transliterators.Some?)
    ensures r.Failure? ==> (r.error.ColumnNotFound? <==>
      exists k :: 0 <= k < |task.keyNames| && LookupColumn(input, task.keyNames[k]).None?)
    ensures r.Success? ==> fresh(r.value) && fresh(r.value.builder) && fresh(r.value.builder.row)
    ensures r.Success? ==> r.value.Valid() && r.value.builder.emitted == []
    ensures r.Success? ==> r.value.state.task == task && r.value.state.engine == engine
    ensures r.Success? ==> r.value.state.inputSchema == input && r.value.state.outputSchema == output
  {
    var st := SetUp(task, input, output, engine, false);
    if st.Failure? {
      return Failure(st.error);
    }
    var pageOutput := new AnonymousPageOutput(st.value);
    r := Success(pageOutput);
  }
}
