# ALDMBS table/column engine in Dafny

This project models the in-memory, column-oriented table engine of ALDMBS
(`src/main.rs`) and proves properties of it. The model is imperative, like the
source:

- `Column` is a class. It has a constant name and declared kind. Its mutable
  fields are the cells (`data: seq<Value>`), the `autoIncrement` counter and
  the `primaryKey` flag.
- `Table` is a class. It holds `columnNames`, `columns: seq<Column>` and
  `primaryKeyColumn: Option<nat>`.
- The value union `TYPES` is the datatype `Value`. Its variants are `Serial`,
  `I32`, `String` and `Uidv4`.

Every `panic!` of the source becomes an `Outcome` or `Result` error that
leaves all state unchanged.

Modules, in dependency order:

- `Values` (values.dfy): the `Value` union and the column kinds, with the
  type-tag parser and its inverse. Also one error kind per `panic!` of the
  source.
- `Decimal` (decimal.dfy): integer rendering (`to_string`) and an
  `i32`-parsing model, with their round trip. Also the UTF-8 byte length that
  Rust's `str::len` reports.
- `Serials` (serials.dfy): what `Vec::remove` means on sequences. Also the
  positional renumbering of serial cells and the contiguity invariant
  `[Serial(1), ..., Serial(n)]`.
- `Columns` (column.dfy): the `Column` class.
- `Tables` (table.dfy): the `Table` class, the typing of text rows and the
  column-width rule of `print_table`.
- `Scenarios` (scenarios.dfy): the `main` driver and two more walkthroughs,
  written as client code that uses only the contracts.

Invariants kept by every operation:

- `Column.Valid()`: a serial column's counter is always its row count plus
  one. Every other column's counter stays 0.
- `Table.Valid()`:
  - the columns are distinct objects;
  - `columnNames[i] == columns[i].columnName`;
  - every column is valid;
  - all columns have the same length;
  - `primaryKeyColumn` records the one and only column whose `primaryKey`
    flag is set.

Serial contiguity is not an invariant of the source. `edit_data` can store
any value in a serial column. So the model proves that `AddData`,
`RemoveData`, `AddRow`, `AddRowSimple` and `RemoveRow` preserve contiguity,
rather than assuming it.

Some behaviours of the code that are easy to misread, which the model
follows:

- After a removal, only the remaining `Serial` cells are renumbered. A cell
  of another variant keeps its value.
- `set_primary_key` reports `ColumnNotFound` whenever no column has the name,
  even if a primary key is already set. It checks for an existing primary key
  only once a column has matched.
- A non-serial column's counter is 0.
- The code does not type-check stored values. It does not reject duplicate
  column names, and it does not refuse a column added after rows exist. The
  model adds none of these errors; `AddColumn` instead requires an empty
  table (see Left out).

## Model

| member | source | states |
|---|---|---|
| `Values.ParseKind` | src/main.rs:22-28 | a type tag is accepted exactly when it is one of `string`, `int`, `serial`, `uuid_v4` |
| `Values.KindTag` | src/main.rs:22-26 | the tag of every kind parses back to that kind |
| `Values.ParseKindInverse` | src/main.rs:22-28 | an accepted tag is the tag of the kind it is parsed to |
| `Decimal.ShowInt` | src/main.rs:162-164 | an integer renders as at least one character, starting with `-` exactly when it is negative; its value is pinned by `Decimal.ParseShowInt` |
| `Decimal.ParseI32` | src/main.rs:135 | definition of the modelled `parse::<i32>`; its meaning is stated by `Decimal.ParseShowInt` and `Decimal.ParseI32Accepts` |
| `Decimal.ShowNat` | src/main.rs:162-164 | a natural number is rendered as one or more ASCII digits without a leading zero |
| `Decimal.DigitsOfShowNat` | src/main.rs:162-164 | reading the rendered digits back gives the number |
| `Decimal.ParseShowInt` | src/main.rs:135 | parsing the rendering of any `i32` gives that `i32` back |
| `Decimal.ParseI32Accepts` | src/main.rs:135 | a text that parses is non-empty and consists of digits with an optional leading sign |
| `Decimal.Utf8Len` | src/main.rs:160-165 | the byte length of a string lies between its character count and four times that |
| `Decimal.ShowIntLen` | src/main.rs:162-164 | the byte length of a rendered integer equals its character count |
| `Serials.RemoveAt` | src/main.rs:53 | removal drops the element at the index: one element fewer, earlier ones in place, later ones shifted down by one |
| `Serials.RenumberCell` | src/main.rs:57-58 | definition of the rewrite of one cell at position `i`; its meaning is stated by `Serials.RenumberedCells` |
| `Serials.Renumbered` | src/main.rs:56-60 | renumbering keeps the length; the rest of its meaning is stated by `Serials.RenumberedCells`, `Serials.RemoveKeepsRun` and `Serials.RenumberedIdempotent` |
| `Serials.RenumberedCells` | src/main.rs:56-60 | renumbering keeps the length and each cell's variant, keeps non-`Serial` cells, and sets each `Serial` cell to its 1-based position |
| `Serials.RenumberedIdempotent` | src/main.rs:56-60 | renumbering twice is the same as renumbering once |
| `Serials.RenumberedAllSerial` | src/main.rs:54-60 | a column of only `Serial` cells is contiguous after renumbering, whatever numbers it held |
| `Serials.RenumberedRun` | src/main.rs:56-60 | a contiguous run is left unchanged by renumbering |
| `Serials.AppendKeepsRun` | src/main.rs:41-43 | appending the counter value n+1 to a run of length n gives a run |
| `Serials.RemoveKeepsRun` | src/main.rs:51-60 | removing any cell of a run and renumbering gives a run one shorter |
| `Serials.RemoveMiddleOfThree` | src/main.rs:53-60 | removing the middle of `[1, 2, 3]` gives `[1, 2]`, not `[1, 3]` |
| `Columns.Synthesized` | src/main.rs:40-49 | definition of the cell `add_data` pushes; its meaning is stated by `Columns.SynthesizedPolicy` and used by `Columns.Column.AddData` |
| `Columns.RemovedData` | src/main.rs:51-61 | a removal leaves one cell fewer; the rest of its meaning is stated by `Columns.RemovedDataCells` and `Serials.RemoveKeepsRun`, and `Columns.Column.RemoveData` is proved equal to it |
| `Columns.SynthesizedPolicy` | src/main.rs:40-49 | the supplied value is stored only for `string` and `int` columns; a serial cell is the counter and a `uuid_v4` cell is a `Uidv4`, whatever was supplied |
| `Columns.RemovedDataCells` | src/main.rs:51-61 | a removal leaves one cell fewer; outside serial columns the result is the prefix before the index plus the suffix after it |
| `Columns.Column.constructor` | src/main.rs:29-37 | a new column is empty, not a primary key, with counter 1 when serial and 0 otherwise |
| `Columns.Column.New` | src/main.rs:21-37 | an unknown type tag fails with `UnsupportedType`; a known one gives a fresh empty column of that kind, counter 1 for `serial` and 0 otherwise |
| `Columns.Column.AddData` | src/main.rs:40-49 | exactly one cell is appended and earlier cells are untouched; the cell follows the kind policy; the counter rises by one only for serial columns; contiguity is preserved |
| `Columns.Column.RemoveData` | src/main.rs:51-65 | an index past the end fails and changes nothing; otherwise the cell is removed and, in a serial column, the counter drops by one and `Serial` cells are renumbered by position; contiguity is preserved |
| `Columns.Column.EditData` | src/main.rs:67-73 | an index past the end fails and changes nothing; otherwise only that cell changes, to the new value, and the length stays the same |
| `Tables.FirstMatch` | src/main.rs:103-104 | gives the first index holding the name, or none exactly when no entry holds it |
| `Tables.TypeCell` | src/main.rs:133-138 | typing a text cell fails exactly for an `int` column whose text does not parse; the stored results are stated by `Tables.TypedCellStored` |
| `Tables.TypeCellShowInt` | src/main.rs:133-135 | an `int` text cell holding a rendered `i32` is typed back to that `I32` |
| `Tables.TypedCellStored` | src/main.rs:133-135 | once stored, a typed `string` cell is its text and a typed `int` cell is its parsed number |
| `Tables.TypeRow` | src/main.rs:131-140 | the row types exactly when every cell types for its column, and otherwise fails with `InvalidInteger`; each typed cell is that cell's typing |
| `Tables.DisplayLen` | src/main.rs:161-166 | definition of a cell's rendered byte length; `Decimal.ShowIntLen` shows numbers count one byte per character |
| `Tables.MaxDisplayLen` | src/main.rs:161-166 | is at least every cell's rendered length and equal to one of them, or 0 for an empty column |
| `Tables.ColumnWidth` | src/main.rs:159-168 | the width is at least the header length (plus 4 for the primary-key marker) and at least every cell's length, and equals one of them |
| `Tables.Table.RowCount` | src/main.rs:146 | definition: the length of the first column; the table invariant makes every column that long |
| `Tables.Table.ValidPrimaryKey` | src/main.rs:102-114 | a valid table has at most one primary-key column |
| `Tables.Table.constructor` | src/main.rs:85-95 | a new table has no columns, no names and no primary key |
| `Tables.Table.AddColumn` | src/main.rs:97-100 | an unknown tag fails and changes nothing; otherwise one name and one fresh empty column are appended together, keeping names parallel to columns and earlier columns untouched |
| `Tables.Table.SetPrimaryKey` | src/main.rs:102-114 | fails with `ColumnNotFound` when no column has the name, else with `PrimaryKeyAlreadySet` when a key is set; otherwise exactly the first matching column becomes the key and its index is recorded; no cell changes |
| `Tables.Table.MarkPrimaryKey` | src/main.rs:108-110 | marks exactly column `i` as the primary key and records `Some(i)` |
| `Tables.Table.AddRow` | src/main.rs:116-124 | a row of the wrong arity fails and changes nothing; otherwise each column gains exactly its synthesized cell, so the row count rises by one and lengths stay equal; a contiguous serial column stays contiguous |
| `Tables.Table.AddRowSimple` | src/main.rs:126-143 | fails on wrong arity, then with `InvalidInteger` when an `int` cell does not parse, and changes nothing on failure; otherwise each column gains the synthesized form of its typed cell, and a contiguous serial column stays contiguous |
| `Tables.Table.RemoveRow` | src/main.rs:145-153 | an index at or past the row count fails and changes nothing; otherwise every column loses that cell as `remove_data` does, the row count drops by one, and serial contiguity is preserved |
| `Tables.Table.ColumnWidths` | src/main.rs:159-168 | gives one width per column, each the larger of that column's header length (plus the marker) and its longest cell: at least both, equal to one of them, and equal to `Tables.ColumnWidth` of the column |
| `Scenarios.UsersSchema` | src/main.rs:202-208 | the `main` schema gives three empty columns `ID` (uuid, primary key), `Username` and `Password` |
| `Scenarios.UsersRows` | src/main.rs:210-211 | after the two insertions of `main`, the ID column holds two generated UUIDs and the other columns hold the two rows' texts |

## Left out

- `src/bk.rs` is not part of this model. Its transaction, status, database and
  instance types are placeholders with no engine logic.
- UUID generation is a foreign crate that uses randomness. `AddData` takes the
  generated UUID as a parameter. `AddRow` and `AddRowSimple` take a function
  `newUuid` that gives the UUID drawn for each column index. The model makes
  no claim about UUID format or uniqueness.
- The string formatting and `println!` output of `print_table` (lines 169-197)
  are presentation and I/O. Only the column-width rule of lines 159-168 is
  modelled.
- `ParseI32` models `str::parse::<i32>` only as: an optional `+` or `-`, one
  or more ASCII digits, and a value in the `i32` range. Nothing more is
  claimed about Rust's parser.
- The `i32` overflow of `auto_increment` and of the `(i + 1) as i32` cast is
  not modelled. Serial counters are unbounded integers.
- The `main` driver is not a method here. It is turned into the
  `Scenarios.UsersSchema`, `Scenarios.UsersRows` and `Scenarios.UsersTable`
  walkthroughs.
- `Tables.Table.AddColumn` requires a table without rows, because the source
  does not guard that case and would make column lengths unequal.
  `Tables.Table.RemoveRow` requires at least one column, because the source
  reads `columns[0]` unguarded.
- The source pushes the column name before `Column::new` can panic on a bad
  tag. The panic ends the program, so the model refuses the bad tag and
  changes nothing.
- The `_ => panic!("Unknown data type")` branch of `add_row_simple` cannot be
  reached once the type tag is a closed `Kind`, so it has no counterpart.
- The redundant `datatype` string and the throw-away `TYPES` value built in
  `Column::new` are collapsed into the `kind` field.
- `Table.tableName` is stored but no operation uses it.
- Rust strings are UTF-8 bytes and Dafny strings are sequences of Unicode
  scalar values. Byte lengths are computed by `Utf8Len`; no other encoding
  detail is modelled.
