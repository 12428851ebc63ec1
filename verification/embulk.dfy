/**
 * The parts of the Embulk host that the filter talks to: columns and schemas,
 * record cells, `Schema.lookupColumn`, and the `PageBuilder` the filter writes
 * its output record into.
 */
module Embulk {
  import opened Wrappers

  /** The semantic types of Embulk columns (`Types.STRING` ... `Types.JSON`). */
  datatype ColumnType = String | Boolean | Double | Long | Timestamp | Json

  /** A column: its ordinal position, its name and its type. */
  datatype Column = Column(index: nat, name: string, ctype: ColumnType)

  type Schema = seq<Column>

  /**
   * One cell of a record. The payloads of doubles, timestamps and JSON values
   * are only ever passed through, so they are kept as opaque integers / text.
   */
  datatype Cell =
    | Null
    | Str(s: string)
    | Bool(b: bool)
    | Dbl(bits: int)
    | Lng(v: int)
    | Ts(epochSecond: int, nano: int)
    | Js(text: string)

  type Row = seq<Cell>

  /** The type a non-null cell carries. */
  function TypeOf(c: Cell): ColumnType
    requires !c.Null?
  {
    match c
    case Str(_) => String
    case Bool(_) => Boolean
    case Dbl(_) => Double
    case Lng(_) => Long
    case Ts(_, _) => Timestamp
    case Js(_) => Json
  }

  /** A schema whose ordinals are 0, 1, 2, ... in order, as every Embulk schema is. */
  ghost predicate WellFormed(schema: Schema) {
    forall i :: 0 <= i < |schema| ==> schema[i].index == i
  }

  /** A record laid out by `schema`: one cell per column, null or of the column's type. */
  ghost predicate WellTyped(schema: Schema, record: Row) {
    |record| == |schema| &&
    forall i :: 0 <= i < |record| ==> record[i].Null? || TypeOf(record[i]) == schema[i].ctype
  }

  /** A row of `width` null cells: what the page builder holds before anything is set. */
  function Nulls(width: nat): (r: Row)
    ensures |r| == width
    ensures forall i :: 0 <= i < width ==> r[i] == Null
  {
    seq(width, _ => Null)
  }

  /** Position of the first column called `name`, if any. */
  function Position(schema: Schema, name: string): (r: Option<nat>)
    ensures r.Some? ==> r.value < |schema| && schema[r.value].name == name
    ensures r.Some? ==> forall j :: 0 <= j < r.value ==> schema[j].name != name
    ensures r.None? <==> forall j :: 0 <= j < |schema| ==> schema[j].name != name
  {
    if |schema| == 0 then None
    else if schema[0].name == name then Some(0)
    else match Position(schema[1..], name)
      case None => None
      case Some(p) => Some(p + 1)
  }

  /**
   * `Schema.lookupColumn`: the first column with the given name; the host
   * throws a schema error when there is none, here `None`.
   */
  function LookupColumn(schema: Schema, name: string): (r: Option<Column>)
    ensures r.Some? <==> Position(schema, name).Some?
    ensures r.Some? ==> r.value == schema[Position(schema, name).value] && r.value.name == name
  {
    match Position(schema, name)
    case None => None
    case Some(p) => Some(schema[p])
  }

  /** In a well-formed schema the column found by name sits at its own ordinal. */
  lemma LookupAtOwnIndex(schema: Schema, name: string)
    requires WellFormed(schema)
    requires LookupColumn(schema, name).Some?
    ensures LookupColumn(schema, name).value.index == Position(schema, name).value < |schema|
  {
  }

  /**
   * The output buffer of one stream: the cells of the record being built and
   * the records handed on so far. Setters write at the column's ordinal;
   * `AddRecord` hands the record on and starts the next one with every cell null.
   */
  class PageBuilder {
    const width: nat
    const row: array<Cell>
    var emitted: seq<Row>

    ghost predicate Valid()
      reads this
    {
      row.Length == width
    }

    constructor (width: nat)
      ensures Valid() && this.width == width && fresh(row)
      ensures row[..] == Nulls(width) && emitted == []
    {
      this.width := width;
      row := new Cell[width](_ => Null);
      emitted := [];
    }

    method SetNull(column: Column)
      requires Valid() && column.index < width
      modifies row
      ensures row[..] == old(row[..])[column.index := Null]
    {
      row[column.index] := Null;
    }

    method SetString(column: Column, s: string)
      requires Valid() && column.index < width
      modifies row
      ensures row[..] == old(row[..])[column.index := Str(s)]
    {
      row[column.index] := Str(s);
    }

    /** `setBoolean`, `setDouble`, `setLong`, `setTimestamp`, `setJson`: the typed setters for non-null values. */
    method SetValue(column: Column, value: Cell)
      requires Valid() && column.index < width && !value.Null?
      modifies row
      ensures row[..] == old(row[..])[column.index := value]
    {
      row[column.index] := value;
    }

    method AddRecord()
      requires Valid()
      modifies this, row
      ensures Valid()
      ensures emitted == old(emitted) + [old(row[..])]
      ensures row[..] == Nulls(width)
    {
      emitted := emitted + [row[..]];
      var i := 0;
      while i < row.Length
        invariant 0 <= i <= row.Length
        invariant forall j :: 0 <= j < i ==> row[j] == Null
        invariant emitted == old(emitted) + [old(row[..])]
      {
        row[i] := Null;
        i := i + 1;
      }
    }
  }
}
