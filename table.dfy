/** A table: an ordered list of columns sharing one row index, a parallel
    list of column names, and at most one primary-key column (`Table` in
    src/main.rs). */
module Tables {
  import opened Values
  import opened Decimal
  import opened Serials
  import opened Columns

  /** The index of the first name equal to `name`, if any. */
  function FirstMatch(names: seq<string>, name: string): (r: Option<nat>)
    ensures r.Some? ==> r.value < |names| && names[r.value] == name
    ensures r.Some? ==> forall j :: 0 <= j < r.value ==> names[j] != name
    ensures r.None? <==> forall j :: 0 <= j < |names| ==> names[j] != name
  {
    if |names| == 0 then None
    else if names[0] == name then Some(0)
    else match FirstMatch(names[1..], name)
      case None => None
      case Some(k) => Some(k + 1)
  }

  /** How `add_row_simple` types one text cell for a column of kind `k`:
      `int` cells are parsed and may fail, `string` cells are taken as
      they are, and `serial` and `uuid_v4` cells get a placeholder that
      `add_data` discards. */
  function TypeCell(k: Kind, text: string): (r: Option<Value>)
    ensures r.None? <==> k == IntKind && ParseI32(text).None?
  {
    match k
    case StringKind => Some(String(text))
    case IntKind => (match ParseI32(text) case None => None case Some(n) => Some(I32(n)))
    case SerialKind => Some(Serial(0))
    case UuidKind => Some(Uidv4(""))
  }

  /** An `int` cell holding the rendering of an `i32` is typed back to it. */
  lemma TypeCellShowInt(n: Int32)
    ensures TypeCell(IntKind, ShowInt(n)) == Some(I32(n))
  {
    ParseShowInt(n);
  }

  /** What a successfully typed text cell becomes once stored: the text for
      a `string` column, the parsed number for an `int` column. */
  lemma TypedCellStored(k: Kind, counter: int, text: string, uuid: string)
    requires TypeCell(k, text).Some?
    ensures k == StringKind ==> Synthesized(k, counter, TypeCell(k, text).value, uuid) == String(text)
    ensures k == IntKind ==>
      (ParseI32(text).Some? &&
       Synthesized(k, counter, TypeCell(k, text).value, uuid) == I32(ParseI32(text).value))
  {
  }

  /** The declared kinds of a list of columns, in order. */
  function KindsOf(cs: seq<Column>): (ks: seq<Kind>)
    ensures |ks| == |cs|
    ensures forall i :: 0 <= i < |cs| ==> ks[i] == cs[i].kind
  {
    if |cs| == 0 then [] else [cs[0].kind] + KindsOf(cs[1..])
  }

  /** The typing loop of `add_row_simple`: every cell is typed for its
      column, and the first `int` cell that does not parse fails the row. */
  method TypeRow(kinds: seq<Kind>, texts: seq<string>) returns (r: Result<seq<Value>>)
    requires |kinds| == |texts|
    ensures r.Success? <==> forall i :: 0 <= i < |texts| ==> TypeCell(kinds[i], texts[i]).Some?
    ensures r.Failure? ==> r.error == InvalidInteger
    ensures r.Success? ==> |r.value| == |texts|
    ensures r.Success? ==> forall i :: 0 <= i < |texts| ==> TypeCell(kinds[i], texts[i]) == Some(r.value[i])
  {
    var typed: seq<Value> := [];
    var i := 0;
    while i < |texts|
      invariant 0 <= i <= |texts|
      invariant |typed| == i
      invariant forall j :: 0 <= j < i ==> TypeCell(kinds[j], texts[j]) == Some(typed[j])
    {
      var cell := TypeCell(kinds[i], texts[i]);
      if cell.None? {
        return Failure(InvalidInteger);
      }
      typed := typed + [cell.value];
      i := i + 1;
    }
    return Success(typed);
  }

  /** Rust's `.len()` of the rendering of a cell, as `print_table` measures it. */
  function DisplayLen(v: Value): nat
  {
    match v
    case I32(n) => Utf8Len(ShowInt(n))
    case String(s) => Utf8Len(s)
    case Serial(n) => Utf8Len(ShowInt(n))
    case Uidv4(s) => Utf8Len(s)
  }

  /** The longest rendering of a cell in `data`, 0 for an empty column. */
  function MaxDisplayLen(data: seq<Value>): (m: nat)
    ensures forall k :: 0 <= k < |data| ==> DisplayLen(data[k]) <= m
    ensures |data| == 0 ==> m == 0
    ensures |data| > 0 ==> exists k :: 0 <= k < |data| && m == DisplayLen(data[k])
  {
    if |data| == 0 then 0
    else
      var rest := MaxDisplayLen(data[1..]);
      if DisplayLen(data[0]) >= rest then DisplayLen(data[0]) else rest
  }

  /** The width `print_table` gives a column: the larger of the header
      (4 more for the primary-key marker) and the longest cell. */
  function ColumnWidth(name: string, primaryKey: bool, data: seq<Value>): (w: nat)
    ensures w >= Utf8Len(name) + (if primaryKey then 4 else 0)
    ensures forall k :: 0 <= k < |data| ==> DisplayLen(data[k]) <= w
    ensures w == Utf8Len(name) + (if primaryKey then 4 else 0)
         || exists k :: 0 <= k < |data| && w == DisplayLen(data[k])
  {
    var nameLen := Utf8Len(name) + if primaryKey then 4 else 0;
    var dataLen := MaxDisplayLen(data);
    if nameLen >= dataLen then nameLen else dataLen
  }

  class Table {
    const tableName: string
    var columnNames: seq<string>
    var columns: seq<Column>
    var primaryKeyColumn: Option<nat>

    /** The row count, read from the first column as the source does. */
    function RowCount(): nat
      reads this, columns
    {
      if |columns| == 0 then 0 else |columns[0].data|
    }

    /** At most one column is marked as the primary key. */
    predicate AtMostOnePrimaryKey()
      reads this, columns
    {
      forall i, j ::
        (0 <= i < |columns| && 0 <= j < |columns| && columns[i].primaryKey && columns[j].primaryKey) ==> i == j
    }

    /** The columns are distinct objects, so updating one leaves the others. */
    predicate DistinctColumns()
      reads this
    {
      forall i, j :: 0 <= i < j < |columns| ==> columns[i] != columns[j]
    }

    /** `column_names` runs parallel to `columns`. */
    predicate NamesParallel()
      reads this
    {
      |columnNames| == |columns| &&
      forall i :: 0 <= i < |columns| ==> columnNames[i] == columns[i].columnName
    }

    /** Every column keeps its counter invariant. */
    ghost predicate ColumnsValid()
      reads this, columns
    {
      forall i :: 0 <= i < |columns| ==> columns[i].Valid()
    }

    /** All columns hold the same number of rows. */
    predicate EqualLengths()
      reads this, columns
    {
      forall i :: 0 <= i < |columns| ==> |columns[i].data| == RowCount()
    }

    /** The recorded primary-key index is the one and only column marked as
        primary key. */
    predicate PrimaryKeyRecorded()
      reads this, columns
    {
      && (primaryKeyColumn.Some? ==>
            primaryKeyColumn.value < |columns| && columns[primaryKeyColumn.value].primaryKey)
      && (forall i :: 0 <= i < |columns| && columns[i].primaryKey ==> primaryKeyColumn == Some(i))
    }

    /** The table invariant. */
    ghost predicate Valid()
      reads this, columns
    {
      DistinctColumns() && NamesParallel() && ColumnsValid() && EqualLengths() && PrimaryKeyRecorded()
    }

    /** A valid table has at most one primary key. */
    lemma ValidPrimaryKey()
      requires Valid()
      ensures AtMostOnePrimaryKey()
    {
    }

    /** `Table::new`: no columns, no primary key. */
    constructor (name: string)
      ensures tableName == name
      ensures columnNames == [] && columns == [] && primaryKeyColumn == None
      ensures Valid()
    {
      tableName := name;
      columnNames := [];
      columns := [];
      primaryKeyColumn := None;
    }

    /** `add_column`: the name and a new, empty column are appended together;
        an unknown type tag is refused and nothing changes. Only a table
        without rows may gain a column. */
    method AddColumn(name: string, tag: string) returns (r: Outcome)
      requires Valid() && RowCount() == 0
      modifies this
      ensures Valid() && RowCount() == 0
      ensures r.Ok? <==> ParseKind(tag).Some?
      ensures r.Fail? ==> r.error == UnsupportedType
      ensures r.Fail? ==> columns == old(columns) && columnNames == old(columnNames)
      ensures primaryKeyColumn == old(primaryKeyColumn)
      ensures r.Ok? ==>
        && |columns| == |old(columns)| + 1
        && columns[..|old(columns)|] == old(columns)
        && columnNames == old(columnNames) + [name]
        && fresh(columns[|old(columns)|])
        && columns[|old(columns)|].columnName == name
        && columns[|old(columns)|].kind == ParseKind(tag).value
        && columns[|old(columns)|].data == []
        && !columns[|old(columns)|].primaryKey
    {
      var c := Column.New(name, tag);
      if c.Failure? {
        return Fail(c.error);
      }
      columnNames := columnNames + [name];
      columns := columns + [c.value];
      return Ok;
    }

    /** `set_primary_key`: the first column with that name becomes the
        primary key. No such column, or a primary key set before, is an
        error that changes nothing. */
    method SetPrimaryKey(name: string) returns (r: Outcome)
      requires Valid()
      modifies this, columns
      ensures Valid() && AtMostOnePrimaryKey()
      ensures columns == old(columns) && columnNames == old(columnNames)
      ensures forall i :: 0 <= i < |columns| ==>
        columns[i].data == old(columns[i].data) && columns[i].autoIncrement == old(columns[i].autoIncrement)
      ensures r.Ok? <==> FirstMatch(columnNames, name).Some? && old(primaryKeyColumn).None?
      ensures r.Fail? ==>
        r.error == (if FirstMatch(columnNames, name).None? then ColumnNotFound else PrimaryKeyAlreadySet)
      ensures r.Fail? ==> unchanged(this) && unchanged(columns)
      ensures r.Ok? ==> primaryKeyColumn == FirstMatch(columnNames, name)
      ensures r.Ok? ==> forall i :: 0 <= i < |columns| ==>
        columns[i].primaryKey == (i == FirstMatch(columnNames, name).value)
    {
      var i := 0;
      while i < |columns| && columns[i].columnName != name
        invariant 0 <= i <= |columns|
        invariant forall j :: 0 <= j < i ==> columnNames[j] != name
      {
        i := i + 1;
      }
      if i == |columns| {
        return Fail(ColumnNotFound);
      }
      assert FirstMatch(columnNames, name) == Some(i);
      if primaryKeyColumn.Some? {
        return Fail(PrimaryKeyAlreadySet);
      }
      MarkPrimaryKey(i);
      return Ok;
    }

    /** The success branch of `set_primary_key`: column `i` is marked and
        its index recorded. */
    method MarkPrimaryKey(i: nat)
      requires Valid() && i < |columns| && primaryKeyColumn.None?
      modifies this, columns[i]
      ensures Valid()
      ensures columns == old(columns) && columnNames == old(columnNames)
      ensures primaryKeyColumn == Some(i)
      ensures forall j :: 0 <= j < |columns| ==> columns[j].primaryKey == (j == i)
      ensures forall j :: 0 <= j < |columns| ==>
        columns[j].data == old(columns[j].data) && columns[j].autoIncrement == old(columns[j].autoIncrement)
    {
      columns[i].primaryKey := true;
      primaryKeyColumn := Some(i);
    }

    /** `add_row`: a row of the wrong arity is refused and nothing changes;
        otherwise every column gets exactly one new cell, synthesized as
        `add_data` does. `newUuid(i)` is what the UUID generator returns
        when column `i` draws. */
    method AddRow(row: seq<Value>, newUuid: nat -> string) returns (r: Outcome)
      requires Valid()
      modifies columns
      ensures Valid()
      ensures r.Ok? <==> |row| == |columns|
      ensures r.Fail? ==> r.error == RowLengthMismatch && unchanged(columns)
      ensures r.Ok? && |columns| > 0 ==> RowCount() == old(RowCount()) + 1
      ensures r.Ok? ==> forall i :: 0 <= i < |columns| ==>
        columns[i].data == old(columns[i].data) +
          [Synthesized(columns[i].kind, old(columns[i].autoIncrement), row[i], newUuid(i))]
      ensures forall i :: 0 <= i < |columns| ==> columns[i].primaryKey == old(columns[i].primaryKey)
      ensures forall i ::
        (0 <= i < |columns| && columns[i].kind == SerialKind && IsSerialRun(old(columns[i].data))) ==>
        IsSerialRun(columns[i].data)
    {
      if |row| != |columns| {
        return Fail(RowLengthMismatch);
      }
      var i := 0;
      while i < |row|
        invariant 0 <= i <= |row|
        invariant forall j :: 0 <= j < i ==>
          (columns[j].Valid() &&
           columns[j].data == old(columns[j].data) +
             [Synthesized(columns[j].kind, old(columns[j].autoIncrement), row[j], newUuid(j))])
        invariant forall j :: i <= j < |columns| ==>
          columns[j].data == old(columns[j].data) && columns[j].autoIncrement == old(columns[j].autoIncrement)
        invariant forall j :: 0 <= j < |columns| ==> columns[j].primaryKey == old(columns[j].primaryKey)
      {
        columns[i].AddData(row[i], newUuid(i));
        i := i + 1;
      }
      forall j | 0 <= j < |columns| && columns[j].kind == SerialKind && IsSerialRun(old(columns[j].data))
        ensures IsSerialRun(columns[j].data)
      {
        // A valid serial column's counter is its length plus one, so the
        // appended cell is the next number of the run.
        AppendKeepsRun(old(columns[j].data));
      }
      return Ok;
    }

    /** `add_row_simple`: the arity is checked first, then every text cell is
        typed for its column, and only a fully typed row is added. */
    method AddRowSimple(row: seq<string>, newUuid: nat -> string) returns (r: Outcome)
      requires Valid()
      modifies columns
      ensures Valid()
      ensures |row| != |columns| ==> r == Fail(RowLengthMismatch)
      ensures |row| == |columns| ==>
        (r.Ok? <==> forall i :: 0 <= i < |row| ==> TypeCell(columns[i].kind, row[i]).Some?)
      ensures |row| == |columns| && r.Fail? ==> r.error == InvalidInteger
      ensures r.Fail? ==> unchanged(columns)
      ensures r.Ok? && |columns| > 0 ==> RowCount() == old(RowCount()) + 1
      ensures r.Ok? ==> forall i :: 0 <= i < |columns| ==>
        TypeCell(columns[i].kind, row[i]).Some? &&
        columns[i].data == old(columns[i].data) +
          [Synthesized(columns[i].kind, old(columns[i].autoIncrement),
                       TypeCell(columns[i].kind, row[i]).value, newUuid(i))]
      ensures forall i :: 0 <= i < |columns| ==> columns[i].primaryKey == old(columns[i].primaryKey)
      ensures forall i ::
        (0 <= i < |columns| && columns[i].kind == SerialKind && IsSerialRun(old(columns[i].data))) ==>
        IsSerialRun(columns[i].data)
    {
      if |row| != |columns| {
        return Fail(RowLengthMismatch);
      }
      var kinds := KindsOf(columns);
      var typed := TypeRow(kinds, row);
      if typed.Failure? {
        return Fail(typed.error);
      }
      var cells := typed.value;
      assert forall i :: 0 <= i < |row| ==> TypeCell(columns[i].kind, row[i]) == Some(cells[i]);
      r := AddRow(cells, newUuid);
    }

    /** `remove_row`: an index at or past the row count is refused and
        nothing changes; otherwise every column loses the cell at `index`,
        serial columns being renumbered. The table needs a column to read
        the row count from. */
    method RemoveRow(index: nat) returns (r: Outcome)
      requires Valid() && |columns| > 0
      modifies columns
      ensures Valid()
      ensures r.Ok? <==> index < old(RowCount())
      ensures r.Fail? ==> r.error == IndexOutOfBounds && unchanged(columns)
      ensures r.Ok? ==> RowCount() == old(RowCount()) - 1
      ensures r.Ok? ==> forall i :: 0 <= i < |columns| ==>
        columns[i].data == RemovedData(columns[i].kind, old(columns[i].data), index)
      ensures forall i :: 0 <= i < |columns| ==> columns[i].primaryKey == old(columns[i].primaryKey)
      ensures forall i ::
        (0 <= i < |columns| && columns[i].kind == SerialKind && IsSerialRun(old(columns[i].data))) ==>
        IsSerialRun(columns[i].data)
    {
      if index >= |columns[0].data| {
        return Fail(IndexOutOfBounds);
      }
      var i := 0;
      while i < |columns|
        invariant 0 <= i <= |columns|
        invariant forall j, k :: 0 <= j < k < |columns| ==> columns[j] != columns[k]
        invariant forall j :: 0 <= j < i ==>
          (columns[j].Valid() && columns[j].data == RemovedData(columns[j].kind, old(columns[j].data), index))
        invariant forall j :: i <= j < |columns| ==>
          columns[j].data == old(columns[j].data) && columns[j].autoIncrement == old(columns[j].autoIncrement)
        invariant forall j :: 0 <= j < |columns| ==> columns[j].primaryKey == old(columns[j].primaryKey)
      {
        var removed := columns[i].RemoveData(index);
        assert removed.Ok?;
        i := i + 1;
      }
      forall j | 0 <= j < |columns|
        ensures |columns[j].data| == old(RowCount()) - 1
        ensures columns[j].kind == SerialKind && IsSerialRun(old(columns[j].data)) ==> IsSerialRun(columns[j].data)
      {
        RemovedDataCells(columns[j].kind, old(columns[j].data), index);
        if columns[j].kind == SerialKind && IsSerialRun(old(columns[j].data)) {
          RemoveKeepsRun(old(columns[j].data), index);
        }
      }
      return Ok;
    }

    /** The column widths `print_table` computes, one per column. */
    function ColumnWidths(): (ws: seq<nat>)
      reads this, columns
      requires Valid()
      ensures |ws| == |columns|
      ensures forall i :: 0 <= i < |columns| ==>
        ws[i] >= Utf8Len(columnNames[i]) + (if columns[i].primaryKey then 4 else 0)
      ensures forall i, k :: 0 <= i < |columns| && 0 <= k < |columns[i].data| ==>
        DisplayLen(columns[i].data[k]) <= ws[i]
      ensures forall i :: 0 <= i < |columns| ==>
        ws[i] == Utf8Len(columnNames[i]) + (if columns[i].primaryKey then 4 else 0) ||
        exists k :: 0 <= k < |columns[i].data| && ws[i] == DisplayLen(columns[i].data[k])
      ensures forall i :: 0 <= i < |columns| ==>
        ws[i] == ColumnWidth(columnNames[i], columns[i].primaryKey, columns[i].data)
    {
      seq(|columns|, i reads this, columns requires 0 <= i < |columns| && |columnNames| == |columns| =>
        ColumnWidth(columnNames[i], columns[i].primaryKey, columns[i].data))
    }
  }
}
