/** The HTTP client binding: the requests the adapter sends to the NocoDB
    REST API and the replies it gets, with the network replaced by a log of
    requests and an abstract answering function. */
module Remote {
  import opened Wrappers
  import opened JsonValues

  datatype Verb = Get | Post | Patch | Delete

  /** One request: its method, its path relative to the base URL, and its
      JSON body if it has one. */
  datatype Request = Request(verb: Verb, path: string, body: Option<Json>)

  /** An entry of the table listing. */
  datatype Table = Table(title: string, id: string)

  /** `response.data`: a table listing, whose `list` field may be missing,
      or any other body, which the adapter passes through untouched. */
  datatype Data = Listing(list: Option<seq<Table>>) | Body(value: Json)

  /** What a request comes back with: data, or the message of the transport
      or HTTP error. */
  datatype Reply = Replied(data: Data) | Failed(message: string)

  /** The remote service: the configured base identifier, and how the service
      answers a request given the requests it has already served. */
  datatype Backend = Backend(baseId: string, answer: (seq<Request>, Request) -> Reply)

  /** An operation's effect: the request log afterwards, and its outcome. */
  datatype Run<+T> = Run(log: seq<Request>, result: Result<T>)

  /** Issues one request; an error reply becomes an unwrapped error. */
  function Send(b: Backend, log: seq<Request>, req: Request): Run<Data> {
    Run(log + [req], match b.answer(log, req)
                     case Replied(d) => Ok(d)
                     case Failed(m) => Err(m))
  }

  /** Prefixes the message of a failed run, as a `catch` that rethrows
      `new Error(prefix + error.message)` does. */
  function Wrap<T>(prefix: string, r: Run<T>): Run<T> {
    if r.result.Err? then Run(r.log, Err(prefix + r.result.message)) else r
  }

  function TablesPath(baseId: string): string {
    "/api/v2/meta/bases/" + baseId + "/tables"
  }

  function RecordsPath(tableId: string): string {
    "/api/v2/tables/" + tableId + "/records"
  }

  function TableMetaPath(tableId: string): string {
    "/api/v2/meta/tables/" + tableId
  }

  function ColumnsPath(tableId: string): string {
    "/api/v2/meta/tables/" + tableId + "/columns"
  }

  function ColumnPath(columnId: string): string {
    "/api/v2/meta/columns/" + columnId
  }

  /** The table listing request every name resolution starts with. */
  function ListTablesRequest(baseId: string): Request {
    Request(Get, TablesPath(baseId), None)
  }

  /** `url.replace(/\/$/, "")`: drops one `/` at the very end, if present. */
  function StripTrailingSlash(url: string): (r: string)
    ensures r <= url && |url| - 1 <= |r|
    ensures |r| < |url| ==> url[|url| - 1] == '/'
    ensures |url| > 0 && url[|url| - 1] == '/' ==> |r| < |url|
    ensures |r| > 0 && r[|r| - 1] == '/' ==> |url| >= 2 && url[|url| - 2..] == "//"
  {
    if |url| > 0 && url[|url| - 1] == '/' then url[..|url| - 1] else url
  }

  /** Stripping twice is stripping once, unless the URL ends in `//`. */
  lemma StripTrailingSlashIdempotent(url: string)
    requires !(|url| >= 2 && url[|url| - 2..] == "//")
    ensures StripTrailingSlash(StripTrailingSlash(url)) == StripTrailingSlash(url)
  {
  }
}
