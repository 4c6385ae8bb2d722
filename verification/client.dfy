/** The adapter's client: the connection it was configured with and the
    log of requests it has sent. Each operation is a method that appends
    its requests to the log, proved equal to its specification in
    `Operations`. */
module NocoClient {
  import opened Wrappers
  import opened JsonValues
  import opened Remote
  import opened TableResolver
  import opened RecordQuery
  import opened Payloads
  import opened Operations

  /** A caller's array of column definitions, which `createTable` changes
      in place. */
  class ColumnList {
    var items: seq<Column>

    constructor (items: seq<Column>)
      ensures this.items == items
    {
      this.items := items;
    }

    /** `unshift` of one element. */
    method Unshift(c: Column)
      modifies this
      ensures items == [c] + old(items)
    {
      items := [c] + items;
    }
  }

  class Client {
    const baseUrl: string
    const backend: Backend
    var log: seq<Request>

    /** The client is created with the configured URL, less one trailing
        slash. */
    constructor (url: string, backend: Backend)
      ensures baseUrl == StripTrailingSlash(url) && this.backend == backend && log == []
    {
      baseUrl := StripTrailingSlash(url);
      this.backend := backend;
      log := [];
    }

    /** One HTTP exchange. */
    method Send(req: Request) returns (reply: Reply)
      modifies this
      ensures log == old(log) + [req] && reply == backend.answer(old(log), req)
    {
      reply := backend.answer(log, req);
      log := log + [req];
    }

    method GetTableId(name: string) returns (r: Result<string>)
      modifies this
      ensures Run(log, r) == ResolveRun(backend, old(log), name)
    {
      var reply := Send(ListTablesRequest(backend.baseId));
      r := ResolveTableId(reply, name);
    }

    method GetListTables() returns (r: Result<seq<string>>)
      modifies this
      ensures Run(log, r) == ListTablesRun(backend, old(log))
    {
      var reply := Send(ListTablesRequest(backend.baseId));
      r := ListTitles(reply);
    }

    method GetRecords(name: string, opts: ReadOptions) returns (r: Result<ReadResult>)
      modifies this
      ensures Run(log, r) == ReadRun(backend, old(log), name, opts)
    {
      var tableId :- GetTableId(name);
      var queryString := BuildQuery(opts);
      var reply := Send(Request(Get, RecordsPath(tableId) + "?" + queryString, None));
      r := match reply
           case Replied(d) => Ok(ReadResult(ReadInput(name, opts), d))
           case Failed(m) => Err(m);
    }

    method PostRecords(name: string, data: Json) returns (r: Result<WriteResult>)
      modifies this
      ensures Run(log, r) == PostRun(backend, old(log), name, data)
    {
      var tableId :- GetTableId(name);
      var reply := Send(Request(Post, RecordsPath(tableId), Some(data)));
      r := match reply
           case Replied(d) => Ok(WriteResult(d, data))
           case Failed(m) => Err(m);
    }

    method PatchRecords(name: string, rowId: int, data: Json) returns (r: Result<WriteResult>)
      modifies this
      ensures Run(log, r) == PatchRun(backend, old(log), name, rowId, data)
    {
      var tableId :- GetTableId(name);
      var newData := PatchBody(rowId, data);
      var reply := Send(Request(Patch, RecordsPath(tableId), Some(newData)));
      r := match reply
           case Replied(d) => Ok(WriteResult(d, data))
           case Failed(m) => Err(m);
    }

    method DeleteRecords(name: string, rowId: int) returns (r: Result<Data>)
      modifies this
      ensures Run(log, r) == DeleteRun(backend, old(log), name, rowId)
    {
      var tableId :- GetTableId(name);
      var reply := Send(Request(Delete, RecordsPath(tableId), Some(DeleteBody(rowId))));
      r := match reply
           case Replied(d) => Ok(d)
           case Failed(m) => Err(m);
    }

    method GetTableMetadata(name: string) returns (r: Result<Data>)
      modifies this
      ensures Run(log, r) == MetadataRun(backend, old(log), name)
    {
      var tableId := GetTableId(name);
      if tableId.Err? {
        return Err(ColumnPrefix + tableId.message);
      }
      var reply := Send(Request(Get, TableMetaPath(tableId.value), None));
      r := match reply
           case Replied(d) => Ok(d)
           case Failed(m) => Err(ColumnPrefix + m);
    }

    method AlterTableAddColumn(name: string, columnName: string, columnType: string) returns (r: Result<Data>)
      modifies this
      ensures Run(log, r) == AddColumnRun(backend, old(log), name, columnName, columnType)
    {
      var tableId := GetTableId(name);
      if tableId.Err? {
        return Err(ColumnPrefix + tableId.message);
      }
      var reply := Send(Request(Post, ColumnsPath(tableId.value), Some(AddColumnBody(columnName, columnType))));
      r := match reply
           case Replied(d) => Ok(d)
           case Failed(m) => Err(ColumnPrefix + m);
    }

    method AlterTableRemoveColumn(columnId: string) returns (r: Result<Data>)
      modifies this
      ensures Run(log, r) == RemoveColumnRun(backend, old(log), columnId)
    {
      var reply := Send(Request(Delete, ColumnPath(columnId), None));
      r := match reply
           case Replied(d) => Ok(d)
           case Failed(m) => Err(RemoveColumnPrefix + m);
    }

    /** Adds the `Id` column to the caller's own list when it has none (the
        change stays even if the request fails), then posts the table. */
    method CreateTable(name: string, data: ColumnList) returns (r: Result<Data>)
      modifies this, data
      ensures data.items == WithIdColumn(old(data.items))
      ensures Run(log, r) == CreateTableRun(backend, old(log), name, old(data.items))
    {
      var hasId := CountTitled(data.items, "Id") > 0;
      if !hasId {
        data.Unshift(IdColumn);
      }
      var reply := Send(Request(Post, TablesPath(backend.baseId), Some(CreateTableBody(name, data.items))));
      r := match reply
           case Replied(d) => Ok(d)
           case Failed(m) => Err(CreateTablePrefix + m);
    }
  }
}
