/** The demonstration driver of src/main.rs and two further walkthroughs,
    written as client code that relies only on the contracts of the
    engine. */
module Scenarios {
  import opened Values
  import opened Serials
  import opened Columns
  import opened Tables

  /** The schema `main` sets up: a users table keyed by a UUID column. */
  method UsersSchema() returns (t: Table)
    ensures fresh(t) && t.Valid() && t.RowCount() == 0
    ensures |t.columns| == 3 && forall i :: 0 <= i < 3 ==> fresh(t.columns[i])
    ensures t.columnNames == ["ID", "Username", "Password"]
    ensures t.columns[0].kind == UuidKind
    ensures t.columns[1].kind == StringKind && t.columns[2].kind == StringKind
    ensures t.primaryKeyColumn == Some(0)
  {
    t := new Table("users");
    var r := t.AddColumn("ID", "uuid_v4");
    assert r == Ok;
    r := t.AddColumn("Username", "string");
    assert r == Ok;
    r := t.AddColumn("Password", "string");
    assert r == Ok;
    assert t.columnNames == ["ID", "Username", "Password"];
    assert FirstMatch(t.columnNames, "ID") == Some(0);
    r := t.SetPrimaryKey("ID");
    assert r == Ok;
  }

  /** The two insertions of `main`: the UUID placeholders are discarded and
      both rows land in every column. `firstUuid` and `secondUuid` stand for
      what the UUID generator returns on the two insertions. */
  method UsersRows(firstUuid: nat -> string, secondUuid: nat -> string) returns (t: Table)
    ensures fresh(t) && t.Valid() && t.RowCount() == 2
    ensures |t.columns| == 3 && forall i :: 0 <= i < 3 ==> fresh(t.columns[i])
    ensures t.columnNames == ["ID", "Username", "Password"] && t.primaryKeyColumn == Some(0)
    ensures t.columns[0].data == [Uidv4(firstUuid(0)), Uidv4(secondUuid(0))]
    ensures t.columns[1].data == [String("Alice"), String("Bob")]
    ensures t.columns[2].data == [String("PASS"), String("PASS")]
  {
    t := UsersSchema();
    var r := t.AddRowSimple(["0", "Alice", "PASS"], firstUuid);
    assert r == Ok;
    assert t.columns[1].data == [String("Alice")];
    r := t.AddRowSimple(["0", "Bob", "PASS"], secondUuid);
    assert r == Ok;
  }

  /** `main`: after removing the first row, only Bob's row is left; the
      primary key cannot be set a second time. */
  method UsersTable(firstUuid: nat -> string, secondUuid: nat -> string)
  {
    var t := UsersRows(firstUuid, secondUuid);
    var r := t.RemoveRow(0);
    assert r == Ok;
    assert t.RowCount() == 1;
    assert t.columns[0].data == [Uidv4(secondUuid(0))];
    assert t.columns[1].data == [String("Bob")];
    assert t.columns[2].data == [String("PASS")];

    assert FirstMatch(t.columnNames, "ID") == Some(0);
    r := t.SetPrimaryKey("ID");
    assert r == Fail(PrimaryKeyAlreadySet);
    r := t.RemoveRow(1);
    assert r == Fail(IndexOutOfBounds);
  }

  /** A serial column with three rows, whose middle row is removed, holds
      `[1, 2]` and continues counting at 3. */
  method SerialColumn()
  {
    var c := new Column("id", SerialKind);
    c.AddData(I32(7), "");
    c.AddData(String("x"), "");
    c.AddData(Serial(42), "");
    assert c.data == [Serial(1), Serial(2), Serial(3)];
    var r := c.RemoveData(1);
    assert r == Ok;
    RemoveMiddleOfThree();
    assert c.data == [Serial(1), Serial(2)];
    assert c.autoIncrement == 3;
    c.AddData(I32(0), "");
    assert c.data == [Serial(1), Serial(2), Serial(3)];
  }

  /** Rows of the wrong arity and `int` cells that do not parse are refused
      without touching the table. */
  method RejectedRows(newUuid: nat -> string)
  {
    var t := new Table("t");
    var r := t.AddColumn("n", "int");
    assert r == Ok;
    r := t.AddColumn("bad", "float");
    assert r == Fail(UnsupportedType);
    r := t.AddRowSimple(["1", "2"], newUuid);
    assert r == Fail(RowLengthMismatch);
    assert Decimal.ParseI32("x1") == None;
    r := t.AddRowSimple(["x1"], newUuid);
    assert r == Fail(InvalidInteger);
    assert t.RowCount() == 0;
    r := t.SetPrimaryKey("m");
    assert r == Fail(ColumnNotFound);
  }
}
