/**
 * The storage primitives the record helpers work against: a database row as a
 * map from column name to value, a query cursor as a fixed sequence of rows
 * with a movable position, `ContentValues` as a mutable column map, and the
 * column specifications that drive table creation.
 */
module Storage {
  import opened JavaLang

  /** A value stored in one column of one row. */
  datatype Value = IntegerValue(long: int) | RealValue(double: Double) | TextValue(text: string)

  /** A row: column name to value. */
  type Row = map<string, Value>

  /** The storage kinds a column can be declared with. */
  datatype StorageKind = Integer | Real | Text | Blob

  /** One `(column name, storage kind)` pair of a table's column list. */
  datatype ColumnInfo = ColumnInfo(name: string, kind: StorageKind)

  /** The column holding the owning record's UUID, shared by every record table. */
  const UuidColumnName := "uuid"

  /** The row holds `column`, with a value of the given kind. */
  predicate HasColumn(row: Row, column: string, kind: StorageKind) {
    column in row &&
    match kind
    case Integer => row[column].IntegerValue?
    case Real => row[column].RealValue?
    case Text => row[column].TextValue?
    case Blob => false
  }

  /** The row holds every column of `columns`, each with its declared kind. */
  predicate Conforms(row: Row, columns: seq<ColumnInfo>) {
    forall i :: 0 <= i < |columns| ==> HasColumn(row, columns[i].name, columns[i].kind)
  }

  /** The names of a column list. */
  function ColumnNames(columns: seq<ColumnInfo>): set<string> {
    set i | 0 <= i < |columns| :: columns[i].name
  }

  predicate HasUuid(row: Row) {
    HasColumn(row, UuidColumnName, Text)
  }

  function Uuid(row: Row): string
    requires HasUuid(row)
  {
    row[UuidColumnName].text
  }

  /** Every row from `start` on carries a UUID. */
  predicate AllHaveUuidFrom(rows: seq<Row>, start: nat) {
    forall i :: start <= i < |rows| ==> HasUuid(rows[i])
  }

  /**
   * The number of rows in the maximal run of contiguous rows, starting at
   * `start`, whose UUID equals that of row `start`: the rows that make up
   * one series record when the cursor is sorted by UUID.
   */
  function GroupLength(rows: seq<Row>, start: nat): (n: nat)
    requires start < |rows| && AllHaveUuidFrom(rows, start)
    ensures 1 <= n <= |rows| - start
    ensures forall i :: start <= i < start + n ==> Uuid(rows[i]) == Uuid(rows[start])
    ensures start + n == |rows| || Uuid(rows[start + n]) != Uuid(rows[start])
    decreases |rows| - start
  {
    if start + 1 < |rows| && Uuid(rows[start + 1]) == Uuid(rows[start])
    then 1 + GroupLength(rows, start + 1)
    else 1
  }

  /** Any run of rows with the first row's UUID that ends at the end or at a different UUID is the group. */
  lemma GroupLengthIsThatOfAnyMaximalRun(rows: seq<Row>, start: nat, n: nat)
    requires start < |rows| && AllHaveUuidFrom(rows, start)
    requires 1 <= n <= |rows| - start
    requires forall i :: start <= i < start + n ==> Uuid(rows[i]) == Uuid(rows[start])
    requires start + n == |rows| || Uuid(rows[start + n]) != Uuid(rows[start])
    ensures GroupLength(rows, start) == n
  {
  }

  /**
   * A query result. `rows` never changes; `position` is -1 before the first
   * row, `|rows|` after the last, and moves as `android.database.Cursor`'s
   * `moveToPosition` does: a target out of range clamps to -1 or `|rows|` and
   * reports `false`.
   */
  class Cursor {
    const rows: seq<Row>
    var position: int

    predicate OnRow()
      reads this
    {
      0 <= position < |rows|
    }

    constructor (rows: seq<Row>)
      ensures this.rows == rows && position == -1
    {
      this.rows := rows;
      position := -1;
    }

    method MoveToPosition(target: int) returns (onRow: bool)
      modifies this
      ensures position == if target >= |rows| then |rows| else if target < 0 then -1 else target
      ensures onRow <==> 0 <= target < |rows|
    {
      if target >= |rows| {
        position := |rows|;
        onRow := false;
      } else if target < 0 {
        position := -1;
        onRow := false;
      } else {
        position := target;
        onRow := true;
      }
    }

    method MoveToNext() returns (onRow: bool)
      modifies this
      ensures var target := old(position) + 1;
        position == (if target >= |rows| then |rows| else if target < 0 then -1 else target)
      ensures onRow <==> 0 <= old(position) + 1 < |rows|
    {
      onRow := MoveToPosition(position + 1);
    }

    method MoveToPrevious() returns (onRow: bool)
      modifies this
      ensures var target := old(position) - 1;
        position == (if target >= |rows| then |rows| else if target < 0 then -1 else target)
      ensures onRow <==> 0 <= old(position) - 1 < |rows|
    {
      onRow := MoveToPosition(position - 1);
    }

    /** `getCursorString(cursor, column)` on the current row. */
    function GetString(column: string): string
      reads this
      requires OnRow() && HasColumn(rows[position], column, Text)
    {
      rows[position][column].text
    }

    /** `getCursorDouble(cursor, column)` on the current row. */
    function GetDouble(column: string): Double
      reads this
      requires OnRow() && HasColumn(rows[position], column, Real)
    {
      rows[position][column].double
    }

    /** `getCursorLong(cursor, column)` on the current row. */
    function GetLong(column: string): int
      reads this
      requires OnRow() && HasColumn(rows[position], column, Integer)
    {
      rows[position][column].long
    }
  }

  /** `android.content.ContentValues`: the column values of a row being written. */
  class ContentValues {
    var values: Row

    constructor ()
      ensures values == map[]
    {
      values := map[];
    }

    method Put(key: string, value: Value)
      modifies this
      ensures values == old(values)[key := value]
    {
      values := values[key := value];
    }
  }
}
