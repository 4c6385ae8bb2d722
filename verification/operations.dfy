/** The record and schema operations, each as its effect on the request log
    and its outcome. Every operation that names a table resolves it first,
    with a fresh listing request (there is no cache). */
module Operations {
  import opened Wrappers
  import opened JsonValues
  import opened Remote
  import opened TableResolver
  import opened RecordQuery
  import opened Payloads

  const ColumnPrefix := "Error adding column: "
  const RemoveColumnPrefix := "Error remove column: "
  const CreateTablePrefix := "Error creating table: "

  /** The echo of a read's arguments. */
  datatype ReadInput = ReadInput(tableName: string, options: ReadOptions)

  datatype ReadResult = ReadResult(input: ReadInput, output: Data)

  /** `{output, input}` as record creation and update return it. */
  datatype WriteResult = WriteResult(output: Data, input: Json)

  /** `getRecords`. A failed read request keeps its own message. */
  function ReadRun(b: Backend, log: seq<Request>, name: string, opts: ReadOptions): Run<ReadResult> {
    var res := ResolveRun(b, log, name);
    match res.result
    case Err(m) => Run(res.log, Err(m))
    case Ok(id) =>
      var sent := Send(b, res.log, Request(Get, ReadPath(id, opts), None));
      Run(sent.log, match sent.result
                    case Err(m) => Err(m)
                    case Ok(d) => Ok(ReadResult(ReadInput(name, opts), d)))
  }

  /** `postRecords`: the data is sent as it is. */
  function PostRun(b: Backend, log: seq<Request>, name: string, data: Json): Run<WriteResult> {
    var res := ResolveRun(b, log, name);
    match res.result
    case Err(m) => Run(res.log, Err(m))
    case Ok(id) =>
      var sent := Send(b, res.log, Request(Post, RecordsPath(id), Some(data)));
      Run(sent.log, match sent.result
                    case Err(m) => Err(m)
                    case Ok(d) => Ok(WriteResult(d, data)))
  }

  /** `patchRecords`: a one-row batch whose `Id` is `rowId`; the echoed
      input is the caller's data. */
  function PatchRun(b: Backend, log: seq<Request>, name: string, rowId: int, data: Json): Run<WriteResult> {
    var res := ResolveRun(b, log, name);
    match res.result
    case Err(m) => Run(res.log, Err(m))
    case Ok(id) =>
      var sent := Send(b, res.log, Request(Patch, RecordsPath(id), Some(PatchBody(rowId, data))));
      Run(sent.log, match sent.result
                    case Err(m) => Err(m)
                    case Ok(d) => Ok(WriteResult(d, data)))
  }

  /** `deleteRecords`: the row id goes in the body, not in the path. */
  function DeleteRun(b: Backend, log: seq<Request>, name: string, rowId: int): Run<Data> {
    var res := ResolveRun(b, log, name);
    match res.result
    case Err(m) => Run(res.log, Err(m))
    case Ok(id) => Send(b, res.log, Request(Delete, RecordsPath(id), Some(DeleteBody(rowId))))
  }

  /** `getTableMetadata`: every failure, resolution included, is reported
      under the column-addition prefix. */
  function MetadataRun(b: Backend, log: seq<Request>, name: string): Run<Data> {
    var res := ResolveRun(b, log, name);
    Wrap(ColumnPrefix, match res.result
                       case Err(m) => Run(res.log, Err(m))
                       case Ok(id) => Send(b, res.log, Request(Get, TableMetaPath(id), None)))
  }

  /** `alterTableAddColumn`. */
  function AddColumnRun(b: Backend, log: seq<Request>, name: string, columnName: string, columnType: string): Run<Data> {
    var res := ResolveRun(b, log, name);
    Wrap(ColumnPrefix, match res.result
                       case Err(m) => Run(res.log, Err(m))
                       case Ok(id) =>
                         Send(b, res.log, Request(Post, ColumnsPath(id), Some(AddColumnBody(columnName, columnType)))))
  }

  /** `alterTableRemoveColumn`: works on the column id, without resolution. */
  function RemoveColumnRun(b: Backend, log: seq<Request>, columnId: string): Run<Data> {
    Wrap(RemoveColumnPrefix, Send(b, log, Request(Delete, ColumnPath(columnId), None)))
  }

  /** `createTable` given the caller's columns, before the `Id` column is
      added. */
  function CreateTableRun(b: Backend, log: seq<Request>, name: string, cols: seq<Column>): Run<Data> {
    Wrap(CreateTablePrefix,
         Send(b, log, Request(Post, TablesPath(b.baseId), Some(CreateTableBody(name, WithIdColumn(cols))))))
  }

  /** A name that does not resolve stops every record operation after the
      listing request, with the resolution error. */
  lemma UnresolvedTableStopsAfterListing(b: Backend, log: seq<Request>, name: string,
                                         opts: ReadOptions, data: Json, rowId: int)
    requires ResolveRun(b, log, name).result.Err?
    ensures var after, e := log + [ListTablesRequest(b.baseId)], ResolveRun(b, log, name).result.message;
      && ReadRun(b, log, name, opts) == Run(after, Err(e))
      && PostRun(b, log, name, data) == Run(after, Err(e))
      && PatchRun(b, log, name, rowId, data) == Run(after, Err(e))
      && DeleteRun(b, log, name, rowId) == Run(after, Err(e))
  {
  }

  /** The metadata read of a missing table reports the resolution error
      under the column-addition prefix. */
  lemma MetadataOfMissingTable(b: Backend, log: seq<Request>, name: string)
    requires b.answer(log, ListTablesRequest(b.baseId)).Replied?
    requires forall t :: t in TablesOf(b.answer(log, ListTablesRequest(b.baseId)).data) ==> t.title != name
    ensures MetadataRun(b, log, name)
         == Run(log + [ListTablesRequest(b.baseId)],
                Err("Error adding column: " + ("Error retrieving table ID: " + ("Table '" + name + "' not found"))))
  {
    var reply := b.answer(log, ListTablesRequest(b.baseId));
    var tables := TablesOf(reply.data);
    assert forall i :: 0 <= i < |tables| ==> tables[i] in tables;
    assert ResolveTableId(reply, name) == Err(ResolvePrefix + NotFoundMessage(name));
    assert MetadataRun(b, log, name)
        == Run(log + [ListTablesRequest(b.baseId)], Err(ColumnPrefix + (ResolvePrefix + NotFoundMessage(name))));
  }

  /** A read of a resolved table issues the listing request, then one GET of
      the records path with the query string. */
  lemma ReadRequests(b: Backend, log: seq<Request>, name: string, opts: ReadOptions, id: string)
    requires ResolveRun(b, log, name).result == Ok(id)
    ensures ReadRun(b, log, name, opts).log
         == log + [ListTablesRequest(b.baseId), Request(Get, RecordsPath(id) + "?" + QueryString(opts), None)]
    ensures ReadRun(b, log, name, opts).result.Ok? ==>
              ReadRun(b, log, name, opts).result.value.input == ReadInput(name, opts)
  {
  }

  /** A delete of a resolved table sends `{Id: rowId}` as its body to the
      records path, which is the same whatever the row. */
  lemma DeleteRequests(b: Backend, log: seq<Request>, name: string, rowId: int, id: string)
    requires ResolveRun(b, log, name).result == Ok(id)
    ensures DeleteRun(b, log, name, rowId).log
         == log + [ListTablesRequest(b.baseId), Request(Delete, "/api/v2/tables/" + id + "/records", Some(DeleteBody(rowId)))]
  {
  }

  /** An update of a resolved table sends one row carrying `rowId`, and
      echoes the caller's data. */
  lemma PatchRequests(b: Backend, log: seq<Request>, name: string, rowId: int, data: Json, id: string)
    requires ResolveRun(b, log, name).result == Ok(id)
    ensures PatchRun(b, log, name, rowId, data).log
         == log + [ListTablesRequest(b.baseId), Request(Patch, RecordsPath(id), Some(PatchBody(rowId, data)))]
    ensures PatchRun(b, log, name, rowId, data).result.Ok? ==>
              PatchRun(b, log, name, rowId, data).result.value.input == data
  {
  }

  /** A creation in a resolved table posts the data unchanged. */
  lemma PostRequests(b: Backend, log: seq<Request>, name: string, data: Json, id: string)
    requires ResolveRun(b, log, name).result == Ok(id)
    ensures PostRun(b, log, name, data).log
         == log + [ListTablesRequest(b.baseId), Request(Post, RecordsPath(id), Some(data))]
    ensures PostRun(b, log, name, data).result.Ok? ==> PostRun(b, log, name, data).result.value.input == data
  {
  }

  /** The table creation request carries the `Id` column first exactly when
      the caller gave none, and otherwise the caller's columns unchanged. */
  lemma CreateTableRequest(b: Backend, log: seq<Request>, name: string, cols: seq<Column>)
    ensures var sent := CreateTableRun(b, log, name, cols).log;
      && |sent| == |log| + 1
      && sent[..|log|] == log
      && sent[|log|].verb == Post
      && sent[|log|].path == TablesPath(b.baseId)
      && sent[|log|].body == Some(CreateTableBody(name, if HasIdColumn(cols) then cols else [IdColumn] + cols))
  {
    if !HasIdColumn(cols) {
      var r := WithIdColumn(cols);
      assert r[0] == IdColumn && r[1..] == cols;
      assert r == [IdColumn] + cols;
    }
  }
}
