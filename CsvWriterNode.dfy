/** The CSV writer sink node, in the version that emits a result with its file path, count and columns. */
module CsvFiles {
  import opened CsvRecords
  import opened Adapters

  class CsvWriterNode {
    var filePath: string
    var includeHeader: bool
    var writtenRowCount: int

    /** A new writer writes a header unless told otherwise. */
    constructor (filePath: string)
      ensures this.filePath == filePath && includeHeader && writtenRowCount == 0
    {
      this.filePath := filePath;
      includeHeader := true;
      writtenRowCount := 0;
    }

    method WithSpecifiedFilePath(filePath: string)
      modifies this`filePath
      ensures this.filePath == filePath
    {
      this.filePath := filePath;
    }

    method IncludeHeader(includeHeaders: bool := true)
      modifies this`includeHeader
      ensures includeHeader == includeHeaders
    {
      includeHeader := includeHeaders;
    }

    /**
     * Writes the rows `input` yields, returning the records written to the
     * file, then emits one result into `emitter` and signals its end.
     */
    method Execute(input: seq<Row>, emitter: InputOutputAdapter<CsvWriterNodeResult>)
      returns (written: seq<seq<string>>, result: Item<CsvWriterNodeResult>)
      requires forall k :: k in emitter.queueMap ==> !emitter.queueMap[k].completed
      modifies this`writtenRowCount, emitter
      ensures written == WrittenRecords(input, includeHeader)
      ensures writtenRowCount == old(writtenRowCount) + ReportedRowCount(input, includeHeader)
      ensures fresh(result) && result.frozen
      ensures result.payload == CsvWriterNodeResult(filePath, writtenRowCount, Columns(input, includeHeader), includeHeader)
      ensures emitter.emittedItems == old(emitter.emittedItems) + 1
      ensures emitter.queueMap == Completed(Appended(old(emitter.queueMap), result))
      ensures emitter.inputs == old(emitter.inputs)
    {
      var columns, count;
      written, columns, count := WriteRows(input, includeHeader);
      writtenRowCount := writtenRowCount + count;

      if includeHeader {
        writtenRowCount := writtenRowCount + 1;
      }

      result := new Item(CsvWriterNodeResult(filePath, writtenRowCount, columns, includeHeader));
      emitter.Emit(result);
      emitter.SignalEnd();
    }
  }
}
