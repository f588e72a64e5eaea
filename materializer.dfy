/** `format_query_results`: turning the first primary table of a result
    set into one record (a column-name to value dictionary) per row.
    Both generations of the server run the same algorithm; they differ
    only in the error log the newer one writes before re-raising. */
module Materializer {
  import opened Python
  import opened Adx

  /** One materialised row: `{column_name: value}`. */
  type Record = map<string, Value>

  /** `[col.column_name for col in primary_result.columns]` */
  function ColumnNames(columns: seq<Column>): seq<string>
  {
    seq(|columns|, i requires 0 <= i < |columns| => columns[i].columnName)
  }

  /** The dictionary the inner loop builds: position `i` sets
      `record[columns[i]] = row[i]`, in order, so a later duplicate
      column overwrites an earlier one. */
  function RecordOf(columns: seq<string>, row: seq<Value>): Record
    requires |row| <= |columns|
  {
    if row == [] then map[]
    else RecordOf(columns, row[..|row| - 1])[columns[|row| - 1] := row[|row| - 1]]
  }

  /** Every row has at most as many values as there are columns, so
      `columns[i]` never raises `IndexError`. */
  predicate Fits(columns: seq<string>, rows: seq<seq<Value>>)
  {
    forall k :: 0 <= k < |rows| ==> |rows[k]| <= |columns|
  }

  /** The records the outer loop appends, one per row, in row order. */
  function Records(columns: seq<string>, rows: seq<seq<Value>>): seq<Record>
    requires Fits(columns, rows)
  {
    if rows == [] then []
    else Records(columns, rows[..|rows| - 1]) + [RecordOf(columns, rows[|rows| - 1])]
  }

  /** What `format_query_results` returns or raises for a result set. */
  function Materialize(resultSet: Option<ResultSet>): Result<seq<Record>>
  {
    if resultSet.None? || resultSet.value.primaryResults == [] then Ok([])
    else
      var table := resultSet.value.primaryResults[0];
      if table.columns.None? || table.rows.None? then Err(TypeError)
      else
        var names := ColumnNames(table.columns.value);
        if Fits(names, table.rows.value) then Ok(Records(names, table.rows.value)) else Err(IndexError)
  }

  // ---------------------------------------------------------------------
  // The loops
  // ---------------------------------------------------------------------

  /** `format_query_results`, loop for loop: an outer loop appending one
      record per row and an inner loop filling each record position by
      position. A row longer than the column list raises on its first
      surplus value and nothing is returned. */
  method FormatQueryResults(resultSet: Option<ResultSet>) returns (r: Result<seq<Record>>)
    ensures r == Materialize(resultSet)
  {
    if resultSet.None? || |resultSet.value.primaryResults| == 0 {
      return Ok([]);
    }
    var primary := resultSet.value.primaryResults[0];
    if primary.columns.None? {
      return Err(TypeError);
    }
    var columns := ColumnNames(primary.columns.value);
    if primary.rows.None? {
      return Err(TypeError);
    }
    var rows := primary.rows.value;
    var formatted: seq<Record> := [];
    var k := 0;
    while k < |rows|
      invariant 0 <= k <= |rows|
      invariant Fits(columns, rows[..k])
      invariant formatted == Records(columns, rows[..k])
    {
      var row := rows[k];
      var record: Record := map[];
      var i := 0;
      while i < |row|
        invariant 0 <= i <= |row| && i <= |columns|
        invariant record == RecordOf(columns, row[..i])
      {
        if i >= |columns| {
          assert !Fits(columns, rows) by {
            assert |rows[k]| > |columns|;
          }
          return Err(IndexError);
        }
        assert row[..i + 1][..i] == row[..i];
        record := record[columns[i] := row[i]];
        i := i + 1;
      }
      assert row[..i] == row;
      assert rows[..k + 1][..k] == rows[..k];
      formatted := formatted + [record];
      k := k + 1;
    }
    assert rows[..k] == rows;
    return Ok(formatted);
  }

  // ---------------------------------------------------------------------
  // What the result means
  // ---------------------------------------------------------------------

  /** The keys of a record are exactly the column names at the positions
      the row fills: a short row yields fewer keys. */
  lemma {:induction false} RecordOfKeys(columns: seq<string>, row: seq<Value>)
    requires |row| <= |columns|
    ensures RecordOf(columns, row).Keys == set i | 0 <= i < |row| :: columns[i]
  {
    if row != [] {
      var n := |row| - 1;
      RecordOfKeys(columns, row[..n]);
      assert (set i | 0 <= i < |row| :: columns[i]) == (set i | 0 <= i < n :: columns[i]) + {columns[n]};
    }
  }

  /** The value under a column name is the row's value at the LAST position
      carrying that name. */
  lemma {:induction false} RecordOfLastWins(columns: seq<string>, row: seq<Value>, i: nat)
    requires |row| <= |columns| && i < |row|
    requires forall j :: i < j < |row| ==> columns[j] != columns[i]
    ensures columns[i] in RecordOf(columns, row)
    ensures RecordOf(columns, row)[columns[i]] == row[i]
  {
    var n := |row| - 1;
    if i < n {
      RecordOfLastWins(columns, row[..n], i);
    }
  }

  predicate Distinct(names: seq<string>)
  {
    forall i, j :: 0 <= i < j < |names| ==> names[i] != names[j]
  }

  /** With distinct column names nothing is lost: the row can be read back
      from its record, column by column. */
  lemma RecordOfRoundTrip(columns: seq<string>, row: seq<Value>)
    requires |row| <= |columns| && Distinct(columns)
    ensures forall i :: 0 <= i < |row| ==> columns[i] in RecordOf(columns, row)
    ensures seq(|row|, i requires 0 <= i < |row| && columns[i] in RecordOf(columns, row) =>
                RecordOf(columns, row)[columns[i]]) == row
  {
    forall i | 0 <= i < |row|
      ensures columns[i] in RecordOf(columns, row) && RecordOf(columns, row)[columns[i]] == row[i]
    {
      RecordOfLastWins(columns, row, i);
    }
  }

  /** The records are in one-to-one, order-preserving correspondence with
      the rows. */
  lemma {:induction false} RecordsRowByRow(columns: seq<string>, rows: seq<seq<Value>>)
    requires Fits(columns, rows)
    ensures |Records(columns, rows)| == |rows|
    ensures forall k :: 0 <= k < |rows| ==> Records(columns, rows)[k] == RecordOf(columns, rows[k])
  {
    if rows != [] {
      var n := |rows| - 1;
      assert Fits(columns, rows[..n]);
      RecordsRowByRow(columns, rows[..n]);
    }
  }

  /** An absent result set, or one without primary tables, gives an empty
      list and is not an error. */
  lemma MaterializeEmpty(resultSet: Option<ResultSet>)
    requires resultSet.None? || resultSet.value.primaryResults == []
    ensures Materialize(resultSet) == Ok([])
  {
  }

  /** Materialisation fails exactly when the first table's columns or rows
      cannot be read, or some row has more values than there are columns;
      it then returns no list at all. */
  lemma MaterializeFailsIff(resultSet: Option<ResultSet>)
    ensures Materialize(resultSet).Err? <==>
      && resultSet.Some?
      && resultSet.value.primaryResults != []
      && var table := resultSet.value.primaryResults[0];
         (table.columns.None? || table.rows.None? ||
          exists k :: 0 <= k < |table.rows.value| && |table.rows.value[k]| > |table.columns.value|)
  {
  }

  /** On success: one record per row of the FIRST table, in row order, each
      mapping `columns[i]` to `row[i]`; later tables are never read. */
  lemma MaterializeOneRecordPerRow(resultSet: Option<ResultSet>, k: nat)
    requires resultSet.Some? && resultSet.value.primaryResults != []
    requires Materialize(resultSet).Ok?
    ensures var table := resultSet.value.primaryResults[0];
      && table.columns.Some? && table.rows.Some?
      && |Materialize(resultSet).value| == |table.rows.value|
      && (k < |table.rows.value| ==>
           |table.rows.value[k]| <= |table.columns.value| &&
           Materialize(resultSet).value[k] == RecordOf(ColumnNames(table.columns.value), table.rows.value[k]))
  {
    var table := resultSet.value.primaryResults[0];
    RecordsRowByRow(ColumnNames(table.columns.value), table.rows.value);
  }

  /** Tables after the first never influence the outcome. */
  lemma MaterializeFirstTableOnly(first: Table, rest: seq<Table>)
    ensures Materialize(Some(ResultSet([first] + rest))) == Materialize(Some(ResultSet([first])))
  {
  }

  /** Three rows under the columns `Name` and `Value` become three
      records, in order. */
  lemma MaterializeExample()
    ensures Materialize(Some(ResultSet([Table(Some([Column("Name", "string"), Column("Value", "long")]),
                                              Some([[Text("Row1"), Long(100)], [Text("Row2"), Long(200)],
                                                    [Text("Row3"), Long(300)]]))])))
         == Ok([map["Name" := Text("Row1"), "Value" := Long(100)],
                map["Name" := Text("Row2"), "Value" := Long(200)],
                map["Name" := Text("Row3"), "Value" := Long(300)]])
  {
    var names := ColumnNames([Column("Name", "string"), Column("Value", "long")]);
    assert names == ["Name", "Value"];
    var rows: seq<seq<Value>> := [[Text("Row1"), Long(100)], [Text("Row2"), Long(200)], [Text("Row3"), Long(300)]];
    assert Fits(names, rows);
    RecordsRowByRow(names, rows);
    forall k | 0 <= k < 3
      ensures RecordOf(names, rows[k]) == map["Name" := rows[k][0], "Value" := rows[k][1]]
    {
      var row := rows[k];
      assert row[..1][..0] == [] && row[..1] == [row[0]];
    }
    var expected := [map["Name" := Text("Row1"), "Value" := Long(100)],
                     map["Name" := Text("Row2"), "Value" := Long(200)],
                     map["Name" := Text("Row3"), "Value" := Long(300)]];
    assert Records(names, rows) == expected by {
      assert forall k | 0 <= k < 3 :: Records(names, rows)[k] == expected[k];
    }
  }
}
