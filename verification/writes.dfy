/**
 * What the derive loops do to the builder's row, independent of where the
 * writes come from: a sequence of (column, converted value) writes applied
 * in order until one throws, tables of writes flattened key by key, and the
 * builder's run over a page of per-record outcomes.
 */
module RowWrites {
  import opened Wrappers
  import opened Embulk
  import opened Conversion
  import opened Seqs

  /** A null result is written with `setNull`, a string with `setString`. */
  function CellOf(v: Option<string>): Cell {
    match v
    case None => Null
    case Some(s) => Str(s)
  }

  /** One step of the derive loops: the output column and what `convert` gives for it. */
  datatype Write = Write(target: nat, value: Eval<Option<string>>)

  /** The row being built and whether an exception has been thrown. */
  datatype Pass = Pass(row: Row, failed: bool)

  /** A write throws when its column is missing or its conversion throws. */
  predicate Throws(w: Write, width: nat) {
    w.target >= width || w.value.NullPointer?
  }

  /** One write on a row that has not thrown yet. */
  function Step(p: Pass, w: Write): (r: Pass)
    ensures |r.row| == |p.row|
  {
    if p.failed then p
    else if Throws(w, |p.row|) then Pass(p.row, true)
    else Pass(p.row[w.target := CellOf(w.value.value)], false)
  }

  /** Performs the writes in order; the first one that throws abandons the record. */
  function ApplyWrites(row: Row, writes: seq<Write>): (r: Pass)
    ensures |r.row| == |row|
    decreases |writes|
  {
    if writes == [] then Pass(row, false)
    else Step(ApplyWrites(row, writes[..|writes| - 1]), writes[|writes| - 1])
  }

  lemma ApplySnoc(row: Row, writes: seq<Write>, w: Write)
    ensures ApplyWrites(row, writes + [w]) == Step(ApplyWrites(row, writes), w)
  {
    assert (writes + [w])[..|writes|] == writes;
  }

  /** Writing `a` then `b` is writing `a`, then, unless it threw, writing `b` on its result. */
  lemma {:induction false} ApplyAppend(row: Row, a: seq<Write>, b: seq<Write>)
    ensures ApplyWrites(row, a + b) ==
      var p := ApplyWrites(row, a);
      if p.failed then p else ApplyWrites(p.row, b)
    decreases |b|
  {
    if b == [] {
      assert a + b == a;
    } else {
      var b' := b[..|b| - 1];
      assert (a + b)[..|a + b| - 1] == a + b';
      ApplyAppend(row, a, b');
    }
  }

  lemma SplitAt(writes: seq<Write>, m: nat)
    requires m <= |writes|
    ensures writes[..m] + writes[m..] == writes
  {
  }

  /** Once a prefix of the writes throws, the rest change nothing. */
  lemma ApplySticky(row: Row, writes: seq<Write>, m: nat)
    requires m <= |writes|
    requires ApplyWrites(row, writes[..m]).failed
    ensures ApplyWrites(row, writes) == ApplyWrites(row, writes[..m])
  {
    SplitAt(writes, m);
    ApplyAppend(row, writes[..m], writes[m..]);
  }

  /** The writes throw exactly when one of them throws. */
  lemma {:induction false} ApplyFailIff(row: Row, writes: seq<Write>)
    ensures ApplyWrites(row, writes).failed <==> exists i :: 0 <= i < |writes| && Throws(writes[i], |row|)
    decreases |writes|
  {
    if writes != [] {
      var init := writes[..|writes| - 1];
      ApplyFailIff(row, init);
      assert forall i :: 0 <= i < |init| ==> init[i] == writes[i];
    }
  }

  /** A cell no write targets keeps its value, also when a write throws. */
  lemma {:induction false} ApplyFrame(row: Row, writes: seq<Write>, c: nat)
    requires c < |row|
    requires forall i :: 0 <= i < |writes| ==> writes[i].target != c
    ensures ApplyWrites(row, writes).row[c] == row[c]
    decreases |writes|
  {
    if writes != [] {
      var init := writes[..|writes| - 1];
      assert forall i :: 0 <= i < |init| ==> init[i] == writes[i];
      ApplyFrame(row, init, c);
    }
  }

  /** When the targets are distinct and nothing throws, each target holds its own converted value. */
  lemma {:induction false} ApplyValues(row: Row, writes: seq<Write>)
    requires forall a, b :: 0 <= a < b < |writes| ==> writes[a].target != writes[b].target
    requires !ApplyWrites(row, writes).failed
    ensures forall i :: 0 <= i < |writes| ==>
      !Throws(writes[i], |row|) && ApplyWrites(row, writes).row[writes[i].target] == CellOf(writes[i].value.value)
    decreases |writes|
  {
    if writes != [] {
      var init := writes[..|writes| - 1];
      assert forall i :: 0 <= i < |init| ==> init[i] == writes[i];
      ApplyValues(row, init);
    }
  }

  // ---------------------------------------------------------------------
  // Tables of writes, one row per key

  /** The writes of a table in loop order: key-major, then in each row's order. */
  function Flatten(table: seq<seq<Write>>): seq<Write>
    decreases |table|
  {
    if table == [] then [] else Flatten(table[..|table| - 1]) + table[|table| - 1]
  }

  lemma FlattenSnoc(table: seq<seq<Write>>, last: seq<Write>)
    ensures Flatten(table + [last]) == Flatten(table) + last
  {
    assert (table + [last])[..|table|] == table;
  }

  /** Every row of the table has `n` writes. */
  ghost predicate Uniform(table: seq<seq<Write>>, n: nat) {
    forall a :: 0 <= a < |table| ==> |table[a]| == n
  }

  /** A uniform table flattens to |table| blocks of `n` writes. */
  lemma {:induction false} FlattenLength(table: seq<seq<Write>>, n: nat)
    requires Uniform(table, n)
    ensures |Flatten(table)| == Slot(|table|, 0, n)
    decreases |table|
  {
    if table != [] {
      FlattenLength(table[..|table| - 1], n);
    }
  }

  /** In a uniform table, write `b` of row `a` is the flattened write at a × n + b. */
  lemma {:induction false} FlattenAt(table: seq<seq<Write>>, n: nat, a: nat, b: nat)
    requires Uniform(table, n) && a < |table| && b < n
    ensures Slot(a, b, n) < |Flatten(table)| && Flatten(table)[Slot(a, b, n)] == table[a][b]
    decreases |table|
  {
    var m := |table| - 1;
    var init := table[..m];
    if a < m {
      FlattenAt(init, n, a, b);
      IndexLeft(Flatten(init), table[m], Slot(a, b, n));
    } else {
      FlattenLength(init, n);
      SlotShift(a, b, n);
      IndexRight(Flatten(init), table[m], b);
    }
  }

  // ---------------------------------------------------------------------
  // A page of records

  /** What the builder has emitted and holds after some records. */
  datatype PageRun = PageRun(emitted: seq<Row>, pending: Row, failed: bool)

  /** One record's outcome fed to the builder. */
  function Feed(p: PageRun, r: Pass, width: nat): PageRun {
    if p.failed then p
    else if r.failed then PageRun(p.emitted, r.row, true)
    else PageRun(p.emitted + [r.row], Nulls(width), false)
  }

  /**
   * Feeds the records' outcomes to the builder in order: a record that went
   * through is emitted and the builder's row starts afresh; the first record
   * that threw stops the page with its partial row left in the builder.
   */
  function RunOutcomes(outcomes: seq<Pass>, width: nat): PageRun
    decreases |outcomes|
  {
    if outcomes == [] then PageRun([], Nulls(width), false)
    else Feed(RunOutcomes(outcomes[..|outcomes| - 1], width), outcomes[|outcomes| - 1], width)
  }

  lemma RunOutcomesSnoc(outcomes: seq<Pass>, r: Pass, width: nat)
    ensures RunOutcomes(outcomes + [r], width) == Feed(RunOutcomes(outcomes, width), r, width)
  {
    assert (outcomes + [r])[..|outcomes|] == outcomes;
  }

  /**
   * One output record per outcome, in order: without an exception output i
   * is outcome i's row; with one, exactly the outcomes before the first
   * failure are emitted.
   */
  lemma {:induction false} RunOutcomesOrder(outcomes: seq<Pass>, width: nat)
    ensures var run := RunOutcomes(outcomes, width);
      run.failed <==> exists i :: 0 <= i < |outcomes| && outcomes[i].failed
    ensures var run := RunOutcomes(outcomes, width);
      !run.failed ==> |run.emitted| == |outcomes| && run.pending == Nulls(width)
    ensures var run := RunOutcomes(outcomes, width);
      |run.emitted| <= |outcomes| &&
      forall i :: 0 <= i < |run.emitted| ==> !outcomes[i].failed && run.emitted[i] == outcomes[i].row
    ensures var run := RunOutcomes(outcomes, width);
      run.failed ==> |run.emitted| < |outcomes| && outcomes[|run.emitted|].failed
    decreases |outcomes|
  {
    if outcomes != [] {
      var init := outcomes[..|outcomes| - 1];
      RunOutcomesOrder(init, width);
      assert forall i :: 0 <= i < |init| ==> init[i] == outcomes[i];
    }
  }

  /** Once a record has thrown, the rest of the page changes nothing. */
  lemma {:induction false} RunOutcomesSticky(outcomes: seq<Pass>, more: seq<Pass>, width: nat)
    requires RunOutcomes(outcomes, width).failed
    ensures RunOutcomes(outcomes + more, width) == RunOutcomes(outcomes, width)
    decreases |more|
  {
    if more == [] {
      assert outcomes + more == outcomes;
    } else {
      var init := more[..|more| - 1];
      assert (outcomes + more)[..|outcomes + more| - 1] == outcomes + init;
      RunOutcomesSticky(outcomes, init, width);
    }
  }

  /** Feeding outcome `r` extends the run over the outcomes before it. */
  lemma RunOutcomesPrefix(outcomes: seq<Pass>, r: nat, width: nat)
    requires r < |outcomes|
    ensures RunOutcomes(outcomes[..r + 1], width) == Feed(RunOutcomes(outcomes[..r], width), outcomes[r], width)
  {
    assert outcomes[..r + 1] == outcomes[..r] + [outcomes[r]];
    RunOutcomesSnoc(outcomes[..r], outcomes[r], width);
  }

  /** A run that has thrown after the first `m` outcomes is the run over all of them. */
  lemma RunOutcomesStop(outcomes: seq<Pass>, m: nat, width: nat)
    requires m <= |outcomes| && RunOutcomes(outcomes[..m], width).failed
    ensures RunOutcomes(outcomes, width) == RunOutcomes(outcomes[..m], width)
  {
    assert outcomes[..m] + outcomes[m..] == outcomes;
    RunOutcomesSticky(outcomes[..m], outcomes[m..], width);
  }
}
