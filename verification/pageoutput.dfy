/**
 * `Icu4jPageOutput`: the stand-alone page output. Its constructor runs the
 * same set-up as `open`; its `add` also copies JSON cells.
 */
module Icu4jOutput {
  import opened Wrappers
  import opened Embulk
  import opened Config
  import opened Conversion
  import opened SchemaPlanner
  import opened Setup
  import opened RowWrites
  import opened RecordTransform

  class Icu4jPageOutput {
    const state: TransformerState
    const builder: PageBuilder

    /** Set up, copying JSON, and between records: the builder's row is blank. */
    ghost predicate Valid()
      reads this, builder, builder.row
    {
      && Ready(state)
      && state.copiesJson
      && builder.Valid()
      && builder.width == |state.outputSchema|
      && builder.row[..] == Nulls(builder.width)
    }

    /** The fields the constructor sets once the key columns and chains are built. */
    constructor FromState(state: TransformerState)
      requires Ready(state) && state.copiesJson
      ensures Valid() && this.state == state
      ensures fresh(builder) && fresh(builder.row) && builder.emitted == []
    {
      this.state := state;
      builder := new PageBuilder(|state.outputSchema|);
    }

    /**
     * `add`: each record copied (when `keep_input`, JSON included) and
     * converted, then handed on with `addRecord`; the first conversion that
     * throws ends the page.
     */
    method Add(page: seq<Row>) returns (failed: bool)
      requires Valid() && forall i :: 0 <= i < |page| ==> Fits(state, page[i])
      modifies builder, builder.row
      ensures PageSized(state, page)
      ensures builder.emitted == old(builder.emitted) + RunPage(state, page).emitted
      ensures builder.row[..] == RunPage(state, page).pending
      ensures failed == RunPage(state, page).failed
      ensures !failed ==> Valid()
    {
      failed := AddPage(builder, state, page);
      OneRecordPerRecord(state, page);
    }
  }

  /**
   * `new Icu4jPageOutput(...)`: the key loop and the settings loop, then the
   * reader and builder fields; a missing key column or a setting without
   * `transliterators` throws from the constructor.
   */
  method NewIcu4jPageOutput(task: Task, input: Schema, output: Schema, engine: Engine)
    returns (r: Result<Icu4jPageOutput, SetupError>)
    requires WellFormed(input) && output == PlanSchema(input, task)
    ensures r.Success? <==>
      (forall k :: 0 <= k < |task.keyNames| ==> LookupColumn(input, task.keyNames[k]).Some?) &&
      (forall i :: 0 <= i < |task.settings| ==> task.settings[i].transliterators.Some?)
    ensures r.Failure? ==> (r.error.ColumnNotFound? <==>
      exists k :: 0 <= k < |task.keyNames| && LookupColumn(input, task.keyNames[k]).None?)
    ensures r.Success? ==> fresh(r.value) && fresh(r.value.builder) && fresh(r.value.builder.row)
    ensures r.Success? ==> r.value.Valid() && r.value.builder.emitted == []
    ensures r.Success? ==> r.value.state.task == task && r.value.state.engine == engine
    ensures r.Success? ==> r.value.state.inputSchema == input && r.value.state.outputSchema == output
  {
    var st := SetUp(task, input, output, engine, true);
    if st.Failure? {
      return Failure(st.error);
    }
    var pageOutput := new Icu4jPageOutput.FromState(st.value);
    r := Success(pageOutput);
  }
}
