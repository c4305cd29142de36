/**
 * The CSV writer sink node in the version that runs against the pipeline
 * context: the same writing and counting, and each row handed back to the
 * context's object pool once its values are written.
 */
module SrcCsvFiles {
  import opened CsvRecords
  import opened Adapters

  /** The context's object pool, seen through the rows handed back to it. */
  class ObjectPool {
    var returned: seq<Row>

    constructor ()
      ensures returned == []
    {
      returned := [];
    }

    method Return(row: Row)
      modifies this
      ensures returned == old(returned) + [row]
    {
      returned := returned + [row];
    }
  }

  class CsvWriterNode {
    const filePath: string
    var includeHeader: bool
    var writtenRowCount: int

    /** A new writer writes a header unless told otherwise. */
    constructor (filePath: string)
      ensures this.filePath == filePath && includeHeader && writtenRowCount == 0
    {
      this.filePath := filePath;
      includeHeader := true;
      writtenRowCount := 0;
    }

    method IncludeHeader(includeHeaders: bool := true)
      modifies this`includeHeader
      ensures includeHeader == includeHeaders
    {
      includeHeader := includeHeaders;
    }

    /**
     * Writes the rows in order, as `WriteRows` does, handing each row back to
     * `pool` once its value record is written.
     */
    static method WriteRowsReturning(rows: seq<Row>, includeHeader: bool, pool: ObjectPool) returns (written: seq<seq<string>>, columns: seq<string>, count: nat)
      modifies pool
      ensures written == WrittenRecords(rows, includeHeader)
      ensures columns == Columns(rows, includeHeader)
      ensures count == |rows|
      ensures pool.returned == old(pool.returned) + rows
    {
      ghost var before := pool.returned;
      var first := true;
      columns := [];
      written := [];
      count := 0;
      for i := 0 to |rows|
        invariant first == !(includeHeader && i > 0)
        invariant columns == Columns(rows[..i], includeHeader)
        invariant written == WrittenRecords(rows[..i], includeHeader)
        // The rows handed back are exactly those whose value records are written.
        invariant pool.returned == before + rows[..i]
        invariant count == i
      {
        var row := rows[i];
        first, columns, written := WriteNextRow(rows, i, includeHeader, first, columns, written);
        pool.Return(row);
        assert before + rows[..i + 1] == before + rows[..i] + [row];
        count := count + 1;
      }
      assert rows[..|rows|] == rows;
    }

    /**
     * Writes the rows `input` yields, returning the records written to the
     * file, hands every row back to `pool` after writing it, then emits one
     * result into `emitter` and signals its end.
     */
    method OnExecute(input: seq<Row>, pool: ObjectPool, emitter: InputOutputAdapter<CsvWriterNodeResult>)
      returns (written: seq<seq<string>>, result: Item<CsvWriterNodeResult>)
      requires forall k :: k in emitter.queueMap ==> !emitter.queueMap[k].completed
      modifies this`writtenRowCount, pool, emitter
      ensures written == WrittenRecords(input, includeHeader)
      ensures pool.returned == old(pool.returned) + input
      ensures writtenRowCount == old(writtenRowCount) + ReportedRowCount(input, includeHeader)
      ensures fresh(result) && result.frozen
      ensures result.payload == CsvWriterNodeResult(filePath, writtenRowCount, Columns(input, includeHeader), includeHeader)
      ensures emitter.emittedItems == old(emitter.emittedItems) + 1
      ensures emitter.queueMap == Completed(Appended(old(emitter.queueMap), result))
      ensures emitter.inputs == old(emitter.inputs)
    {
      var columns, count;
      written, columns, count := WriteRowsReturning(input, includeHeader, pool);
      writtenRowCount := writtenRowCount + count;

      if includeHeader {
        writtenRowCount := writtenRowCount + 1;
      }

      result := new Item(CsvWriterNodeResult(filePath, writtenRowCount, columns, includeHeader));
      emitter.Emit(result);
      emitter.SignalEnd();
    }
  }
}
