/** One named, typed column of a table (`Column` in src/main.rs). */
module Columns {
  import opened Values
  import opened Serials

  /** The cell `add_data` pushes onto a column of kind `k` whose counter is
      `counter`, when the caller supplies `supplied` and the UUID generator
      would return `uuid`. */
  function Synthesized(k: Kind, counter: int, supplied: Value, uuid: string): Value
  {
    match k
    case SerialKind => Serial(counter)
    case UuidKind => Uidv4(uuid)
    case _ => supplied
  }

  /** What `remove_data(index)` leaves in a column of kind `k`. */
  function RemovedData(k: Kind, data: seq<Value>, index: nat): (r: seq<Value>)
    requires index < |data|
    ensures |r| == |data| - 1
  {
    if k == SerialKind then Renumbered(RemoveAt(data, index)) else RemoveAt(data, index)
  }

  /** The caller's value reaches the column only for `string` and `int`
      columns; a `serial` cell is the counter and a `uuid_v4` cell is a
      generated UUID, whatever was supplied. */
  lemma SynthesizedPolicy(k: Kind, counter: int, supplied: Value, other: Value, uuid: string)
    ensures k == StringKind || k == IntKind ==> Synthesized(k, counter, supplied, uuid) == supplied
    ensures k == SerialKind || k == UuidKind ==>
      Synthesized(k, counter, supplied, uuid) == Synthesized(k, counter, other, uuid)
    ensures k == SerialKind ==> Synthesized(k, counter, supplied, uuid) == Serial(counter)
    ensures k == UuidKind ==> Synthesized(k, counter, supplied, uuid).Uidv4?
  {
  }

  /** A removal keeps the length bookkeeping: one cell fewer, and every cell
      outside a serial column is the old one shifted into place. */
  lemma RemovedDataCells(k: Kind, data: seq<Value>, index: nat)
    requires index < |data|
    ensures |RemovedData(k, data, index)| == |data| - 1
    ensures k != SerialKind ==> RemovedData(k, data, index) == data[..index] + data[index + 1..]
    ensures forall j :: 0 <= j < |data| - 1 ==>
      RemovedData(k, data, index)[j].Serial? == RemoveAt(data, index)[j].Serial?
  {
  }

  class Column {
    const columnName: string
    const kind: Kind
    var data: seq<Value>
    var autoIncrement: int
    var primaryKey: bool

    /** The counter of a serial column is always one past its row count:
        `add_data` and `remove_data` move both together and `edit_data`
        moves neither. Other columns keep the counter at 0. */
    ghost predicate Valid()
      reads this
    {
      autoIncrement == if kind == SerialKind then |data| + 1 else 0
    }

    /** `Column::new` for a tag that has already been recognised. */
    constructor (name: string, k: Kind)
      ensures columnName == name && kind == k
      ensures data == [] && !primaryKey
      ensures autoIncrement == if k == SerialKind then 1 else 0
      ensures Valid()
    {
      columnName := name;
      kind := k;
      data := [];
      autoIncrement := if k == SerialKind then 1 else 0;
      primaryKey := false;
    }

    /** `Column::new`: an unknown type tag is refused. */
    static method New(name: string, tag: string) returns (r: Result<Column>)
      ensures r.Success? <==> ParseKind(tag).Some?
      ensures r.Failure? ==> r.error == UnsupportedType
      ensures r.Success? ==>
        && fresh(r.value)
        && r.value.columnName == name
        && r.value.kind == ParseKind(tag).value
        && r.value.data == []
        && !r.value.primaryKey
        && r.value.autoIncrement == (if tag == "serial" then 1 else 0)
        && r.value.Valid()
    {
      var k := ParseKind(tag);
      if k.None? {
        return Failure(UnsupportedType);
      }
      var c := new Column(name, k.value);
      return Success(c);
    }

    /** `add_data`: one cell more, earlier cells untouched. */
    method AddData(supplied: Value, uuid: string)
      requires Valid()
      modifies this
      ensures Valid()
      ensures data == old(data) + [Synthesized(kind, old(autoIncrement), supplied, uuid)]
      ensures autoIncrement == old(autoIncrement) + (if kind == SerialKind then 1 else 0)
      ensures primaryKey == old(primaryKey)
      ensures kind == SerialKind && IsSerialRun(old(data)) ==> IsSerialRun(data)
    {
      if kind == SerialKind {
        data := data + [Serial(autoIncrement)];
        autoIncrement := autoIncrement + 1;
      } else if kind == UuidKind {
        data := data + [Uidv4(uuid)];
      } else {
        data := data + [supplied];
      }
    }

    /** `remove_data`: an index past the end is an error and changes nothing;
        otherwise the cell goes and, in a serial column, the counter steps
        back and every remaining `Serial` cell is renumbered by position. */
    method RemoveData(index: nat) returns (r: Outcome)
      requires Valid()
      modifies this
      ensures Valid()
      ensures r.Ok? <==> index < |old(data)|
      ensures r.Fail? ==> r.error == IndexOutOfBounds && unchanged(this)
      ensures r.Ok? ==> data == RemovedData(kind, old(data), index)
      ensures r.Ok? ==> autoIncrement == old(autoIncrement) - (if kind == SerialKind then 1 else 0)
      ensures primaryKey == old(primaryKey)
      ensures kind == SerialKind && IsSerialRun(old(data)) ==> IsSerialRun(data)
    {
      if index >= |data| {
        return Fail(IndexOutOfBounds);
      }
      ghost var was := data;
      data := data[..index] + data[index + 1..];
      if kind == SerialKind {
        autoIncrement := autoIncrement - 1;
        ghost var removed := data;
        var i := 0;
        while i < |data|
          invariant |data| == |removed|
          invariant 0 <= i <= |data|
          invariant forall j :: 0 <= j < i ==> data[j] == RenumberCell(removed[j], j)
          invariant forall j :: i <= j < |data| ==> data[j] == removed[j]
          invariant autoIncrement == old(autoIncrement) - 1
          invariant primaryKey == old(primaryKey)
        {
          if data[i].Serial? {
            data := data[i := Serial(i + 1)];
          }
          i := i + 1;
        }
        assert data == Renumbered(removed);
        if IsSerialRun(was) {
          RemoveKeepsRun(was, index);
        }
      }
      return Ok;
    }

    /** `edit_data`: an index past the end is an error and changes nothing;
        otherwise exactly that cell is replaced, without a type check. */
    method EditData(index: nat, newData: Value) returns (r: Outcome)
      requires Valid()
      modifies this
      ensures Valid()
      ensures r.Ok? <==> index < |old(data)|
      ensures r.Fail? ==> r.error == IndexOutOfBounds && unchanged(this)
      ensures r.Ok? ==> data == old(data)[index := newData]
      ensures autoIncrement == old(autoIncrement) && primaryKey == old(primaryKey)
    {
      if index >= |data| {
        return Fail(IndexOutOfBounds);
      }
      data := data[index := newData];
      return Ok;
    }
  }
}
