/**
 * What the CSV writer node writes, stated on values.
 *
 * A row is an ordered list of (key, value) fields. The writer writes, when
 * its header flag is on and some row arrives, one header record made of the
 * first row's keys; then one record of values per row, in input order. It
 * reports as its row count the number of rows plus one for the header
 * whenever the flag is on, even if no row arrived and so no header was written.
 * Field escaping and the file itself belong to the CSV library and are
 * abstracted into a sequence of string records.
 */
module CsvRecords {

  datatype Field = Field(key: string, value: string)

  type Row = seq<Field>

  /** The single result the writer emits when it is done. */
  datatype CsvWriterNodeResult = CsvWriterNodeResult(filePath: string, rowCount: int, columns: seq<string>, hasHeaderRow: bool)

  /** The keys of a row, in field order. */
  function Keys(row: Row): (r: seq<string>)
    ensures |r| == |row|
    ensures forall i :: 0 <= i < |row| ==> r[i] == row[i].key
  {
    if row == [] then [] else [row[0].key] + Keys(row[1..])
  }

  /** The values of a row, in field order. */
  function Values(row: Row): (r: seq<string>)
    ensures |r| == |row|
    ensures forall i :: 0 <= i < |row| ==> r[i] == row[i].value
  {
    if row == [] then [] else [row[0].value] + Values(row[1..])
  }

  /** One record of values per row, in input order. */
  function ValueRecords(rows: seq<Row>): (r: seq<seq<string>>)
    ensures |r| == |rows|
    ensures forall i :: 0 <= i < |rows| ==> r[i] == Values(rows[i])
  {
    if rows == [] then [] else [Values(rows[0])] + ValueRecords(rows[1..])
  }

  /** The header fields the writer writes for `row`, one key per column. */
  method WriteHeaderFields(row: Row) returns (fields: seq<string>)
    ensures fields == Keys(row)
  {
    fields := [];
    for j := 0 to |row|
      invariant |fields| == j
      invariant forall k :: 0 <= k < j ==> fields[k] == row[k].key
    {
      fields := fields + [row[j].key];
    }
  }

  /** The value fields the writer writes for `row`, one value per column. */
  method WriteValueFields(row: Row) returns (fields: seq<string>)
    ensures fields == Values(row)
  {
    fields := [];
    for j := 0 to |row|
      invariant |fields| == j
      invariant forall k :: 0 <= k < j ==> fields[k] == row[k].value
    {
      fields := fields + [row[j].value];
    }
  }

  /**
   * One turn of the write loop: writes row `rows[i]`, preceded by the header
   * record made of its keys when it is the first row and the header is on.
   */
  method WriteNextRow(rows: seq<Row>, i: nat, includeHeader: bool, first: bool, columns: seq<string>, written: seq<seq<string>>)
    returns (first': bool, columns': seq<string>, written': seq<seq<string>>)
    requires i < |rows| && first == !(includeHeader && i > 0)
    requires columns == Columns(rows[..i], includeHeader) && written == WrittenRecords(rows[..i], includeHeader)
    ensures first' == !includeHeader
    ensures columns' == Columns(rows[..i + 1], includeHeader) && written' == WrittenRecords(rows[..i + 1], includeHeader)
  {
    var row := rows[i];
    WrittenRecordsSnoc(rows[..i], row, includeHeader);
    assert rows[..i + 1] == rows[..i] + [row];
    first', columns', written' := first, columns, written;
    if first && includeHeader {
      // The header loop also adds each key to `columns`, which is empty until then.
      var header := WriteHeaderFields(row);
      columns' := header;
      written' := written' + [header];
      first' := false;
    }
    var record := WriteValueFields(row);
    written' := written' + [record];
  }

  /**
   * Writes the rows in order: the header record before the first row when the
   * header is on, then each row's value record. Also yields the header columns
   * and the number of rows written.
   */
  method WriteRows(rows: seq<Row>, includeHeader: bool) returns (written: seq<seq<string>>, columns: seq<string>, count: nat)
    ensures written == WrittenRecords(rows, includeHeader)
    ensures columns == Columns(rows, includeHeader)
    ensures count == |rows|
  {
    var first := true;
    columns := [];
    written := [];
    count := 0;
    for i := 0 to |rows|
      invariant first == !(includeHeader && i > 0)
      invariant columns == Columns(rows[..i], includeHeader)
      invariant written == WrittenRecords(rows[..i], includeHeader)
      invariant count == i
    {
      first, columns, written := WriteNextRow(rows, i, includeHeader, first, columns, written);
      count := count + 1;
    }
    assert rows[..|rows|] == rows;
  }

  /** The header columns: the first row's keys, when the header is on and a row arrived. */
  function Columns(rows: seq<Row>, includeHeader: bool): seq<string>
  {
    if includeHeader && rows != [] then Keys(rows[0]) else []
  }

  /** The records written to the file: the header record, if any, then the value records. */
  function WrittenRecords(rows: seq<Row>, includeHeader: bool): seq<seq<string>>
  {
    (if includeHeader && rows != [] then [Keys(rows[0])] else []) + ValueRecords(rows)
  }

  /** The row count the writer reports. */
  function ReportedRowCount(rows: seq<Row>, includeHeader: bool): int
  {
    |rows| + if includeHeader then 1 else 0
  }

  /** Writing one more row adds its value record, preceded by the header if it is the first row. */
  lemma WrittenRecordsSnoc(rows: seq<Row>, row: Row, includeHeader: bool)
    ensures WrittenRecords(rows + [row], includeHeader)
         == WrittenRecords(rows, includeHeader) + (if includeHeader && rows == [] then [Keys(row)] else []) + [Values(row)]
    ensures Columns(rows + [row], includeHeader) == if includeHeader && rows == [] then Keys(row) else Columns(rows, includeHeader)
  {
    assert ValueRecords(rows + [row]) == ValueRecords(rows) + [Values(row)];
    if rows != [] {
      assert (rows + [row])[0] == rows[0];
    }
  }

  /** With the header on and some input, the first record is the first row's keys, which are also the columns. */
  lemma HeaderIsFirstRowKeys(rows: seq<Row>)
    requires rows != []
    ensures |WrittenRecords(rows, true)| == |rows| + 1
    ensures WrittenRecords(rows, true)[0] == Keys(rows[0]) == Columns(rows, true)
    ensures forall i :: 0 <= i < |rows| ==> WrittenRecords(rows, true)[i + 1] == Values(rows[i])
  {
  }

  /** With the header off, only value records are written and there are no columns. */
  lemma NoHeaderWhenOff(rows: seq<Row>)
    ensures WrittenRecords(rows, false) == ValueRecords(rows)
    ensures Columns(rows, false) == []
  {
  }

  /** Each row yields exactly one record, its values, in input order after at most one header record. */
  lemma OneRecordPerRow(rows: seq<Row>, includeHeader: bool, i: nat)
    requires i < |rows|
    ensures var header := if includeHeader then 1 else 0;
      |WrittenRecords(rows, includeHeader)| == |rows| + header
      && WrittenRecords(rows, includeHeader)[i + header] == Values(rows[i])
  {
  }

  /**
   * The reported count equals the number of records written, except for empty
   * input with the header on, where it reports one row though nothing was written.
   */
  lemma ReportedRowCountVersusRecords(rows: seq<Row>, includeHeader: bool)
    ensures rows != [] || !includeHeader ==> ReportedRowCount(rows, includeHeader) == |WrittenRecords(rows, includeHeader)|
    ensures rows == [] && includeHeader ==> ReportedRowCount(rows, includeHeader) == 1 && WrittenRecords(rows, includeHeader) == []
  {
  }
}
