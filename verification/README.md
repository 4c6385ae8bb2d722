# nocodb-mcp-server: a verified model of the request-shaping core

`nocodb-mcp-server` exposes a NocoDB base as MCP tools. Each tool forwards to
a function in `src/start.ts`, and that function calls the NocoDB REST API
through axios. This project models the logic between those two layers:

- resolving a table name to its id;
- listing table titles;
- building the query string for record reads;
- the update, delete, column and create-table request bodies;
- the update tool's handling of text payloads;
- the bulk create and bulk delete loops;
- stripping the trailing slash from the base URL.

The network is replaced by two things:

- a `Backend`: the configured base id, plus a function that gives the
  service's reply to a request, given the requests it has already served;
- a request log: every request the adapter sends is appended to it, with
  its method, path and JSON body.

Each operation has a specification function in `Operations`. It returns a
`Run`: the log afterwards, and either the result or the error message that
the TypeScript code would throw. The `Client` class has one method per
operation. Each method updates its `log` field, and is proved equal to its
specification function. The lemmas are stated about the specification
functions.

Modules, leaf first:

- `Wrappers`: `Option` and `Result`.
- `Decimal`: how an integer below 1e21 in magnitude is printed into a
  template literal, and the parse that reads it back.
- `JsonValues`: record data, JavaScript truthiness, and what an object
  spread copies.
- `Remote`: requests, replies, the backend, API paths, and the base-URL
  slash strip.
- `TableResolver`: `getTableId` and `getListTables`.
- `RecordQuery`: the read query string, and its decoding.
- `Payloads`: update/delete bodies and create-table columns.
- `Operations`: every record and schema operation as a `Run`.
- `Bulk`: the fail-fast bulk state machine, generic over the item operation.
- `NocoClient`: the `Client` class, and the caller's mutable `ColumnList`.
- `Tools`: the update handler and the two bulk handlers.

Points where the code behaves in a way one might not expect, kept as the code has them:

- A read with no options requests `/api/v2/tables/{id}/records?`. The trailing
  `?` is sent; it is not a bare records path.
- `getTableMetadata` and `alterTableAddColumn` wrap every failure with
  `Error adding column: `. This includes the resolution error, which already
  carries `Error retrieving table ID: `, so such an error has both prefixes.
- `createTable` itself accepts an `ID`-typed column. Only the tool's
  parameter schema limits the types to four.
- With duplicate titles, the first listed table wins (`Array.prototype.find`).

## Model

| member | source | states |
|---|---|---|
| `Remote.StripTrailingSlash` | src/start.ts:85 | the base URL loses at most one character, and only a final `/`; the result is a prefix of the URL and ends in `/` only if the URL ended in `//` |
| `Remote.StripTrailingSlashIdempotent` | src/start.ts:85 | stripping again changes nothing unless the URL ended in `//` |
| `NocoClient.Client.constructor` | src/start.ts:84-91 | the client keeps the configured URL less one trailing slash, and starts with an empty request log |
| `NocoClient.Client.Send` | src/start.ts:84-91 | one exchange appends the request to the log and returns the backend's reply to it |
| `TableResolver.FindTable` | src/start.ts:171 | finds a table exactly when some title equals the name; the one found is at the first such position |
| `TableResolver.ResolveTableId` | src/start.ts:167-177 | succeeds exactly when the listing replied and lists the name; returns the id of the first exact title match; otherwise fails with `Error retrieving table ID: Table '<name>' not found`, or with the prefix and the transport message |
| `TableResolver.Titles` | src/start.ts:183 | the titles, same length and same order as the listing |
| `TableResolver.ResolveAgreesWithListing` | src/start.ts:167-187 | a name resolves exactly when it is one of the listed titles, and then to the id of the first table listed under it |
| `TableResolver.EmptyListing` | src/start.ts:170-183 | a listing that is empty or has no `list` field gives no titles, and no name resolves |
| `NocoClient.Client.GetTableId` | src/start.ts:167-177 | issues one table-listing request, then resolves as `ResolveTableId` does |
| `NocoClient.Client.GetListTables` | src/start.ts:179-187 | issues one table-listing request; returns the titles, or `Error get list tables: ` and the transport message |
| `Decimal.IntToStringRoundTrip` | src/start.ts:106-111 | the text written for `limit` and `offset` parses back to the same integer |
| `RecordQuery.BuildQuery` | src/start.ts:102-119 | the pushes onto `paramsArray`, then the `&` join, give the specified query string |
| `RecordQuery.QueryRoundTrip` | src/start.ts:102-120 | splitting the query string on `&` and each entry on its first `=` recovers exactly the options that were given, falsy ones dropped, as long as no given string contains `&` |
| `RecordQuery.FalsyOptionsAreOmitted` | src/start.ts:103-117 | `0` for limit or offset, and `""` for filter, sort or fields, produce the same query as leaving the option out |
| `RecordQuery.NoOptionsQuery` | src/start.ts:119-120 | with no option given, the query string is empty and the path is exactly `/api/v2/tables/{id}/records?` |
| `RecordQuery.LimitOffsetQuery` | src/start.ts:106-119 | `limit=20, offset=40` alone gives exactly `limit=20&offset=40` |
| `RecordQuery.AllOptionsQuery` | src/start.ts:102-119 | with every option given, the entries come in the order where, limit, offset, sort, fields, and the values appear verbatim |
| `JsonValues.IndexFields` | src/start.ts:145-148 | spreading an array or a string copies its index keys `"0"`, `"1"`, ... and no other key, each mapped to its element |
| `Payloads.PatchRow` | src/start.ts:145-148 | the updated row has `Id` equal to `rowId`; every other key, and its value, is exactly what the spread payload had |
| `Payloads.PatchBody` | src/start.ts:145-150 | the update sends a batch of exactly one object |
| `Payloads.PatchOverridesPayloadId` | src/start.ts:145-148 | `{Id: 99, Title: "x"}` updated as row 2 is sent as `[{Id: 2, Title: "x"}]` |
| `Payloads.PatchWithOwnId` | src/start.ts:145-148 | an object that already carries the row's id is sent unchanged, as a one-row batch |
| `Payloads.CountTitledPositive` | src/start.ts:238 | `hasId` holds exactly when some column is titled `Id` |
| `Payloads.WithIdColumn` | src/start.ts:238-245 | the sent columns are the caller's, in order, at the tail; with no `Id` column, `{Id, ID}` is added in front and the length grows by one; otherwise the list is unchanged; afterwards there is an `Id` column, and no duplicate was added |
| `Payloads.WithIdColumnIdempotent` | src/start.ts:238-245 | adding the identifier column a second time changes nothing |
| `Payloads.ColumnsJson` | src/start.ts:249-252 | each sent column is the `{title, uidt}` of the column at the same position |
| `NocoClient.ColumnList.Unshift` | src/start.ts:241-244 | the new column goes in front of the caller's array |
| `Operations.UnresolvedTableStopsAfterListing` | src/start.ts:93-165 | when the name does not resolve, read, create, update and delete send only the listing request, and fail with the resolution error |
| `Operations.MetadataOfMissingTable` | src/start.ts:189-197 | the metadata read of a missing table fails with `Error adding column: Error retrieving table ID: Table '<name>' not found` |
| `Operations.ReadRequests` | src/start.ts:100-131 | a read of a resolved table sends the listing request, then one GET of the records path, `?` and the query string; it echoes the table name and options |
| `Operations.PostRequests` | src/start.ts:134-141 | a create sends the listing request, then a POST of the data unchanged, and echoes the data |
| `Operations.PatchRequests` | src/start.ts:143-155 | an update sends the listing request, then a PATCH of the one-row batch, and echoes the caller's original data |
| `Operations.DeleteRequests` | src/start.ts:157-165 | a delete sends the listing request, then a DELETE of `/api/v2/tables/{id}/records` with body `{Id: rowId}`; the path does not depend on the row |
| `Operations.CreateTableRequest` | src/start.ts:235-258 | the earlier log is kept and exactly one request follows: a POST to the base's tables path, whose columns are `[{Id, ID}]` plus the caller's when they have no `Id` column, and the caller's otherwise |
| `NocoClient.Client.GetRecords` | src/start.ts:93-132 | resolves, builds the query, sends the read; log and result are as the read specification says |
| `NocoClient.Client.PostRecords` | src/start.ts:134-141 | log and result are as the create specification says |
| `NocoClient.Client.PatchRecords` | src/start.ts:143-155 | log and result are as the update specification says |
| `NocoClient.Client.DeleteRecords` | src/start.ts:157-165 | log and result are as the delete specification says |
| `NocoClient.Client.GetTableMetadata` | src/start.ts:189-197 | log and result are as the metadata specification says, with every failure under `Error adding column: ` |
| `NocoClient.Client.AlterTableAddColumn` | src/start.ts:207-218 | resolves, then posts `{title, uidt}` to the table's columns path; failures are under `Error adding column: ` |
| `NocoClient.Client.AlterTableRemoveColumn` | src/start.ts:220-227 | one DELETE of the column path, with no resolution; failures are under `Error remove column: ` |
| `NocoClient.Client.CreateTable` | src/start.ts:235-258 | the caller's list becomes `WithIdColumn` of itself, even when the request then fails; one POST of the table |
| `Bulk.AbortIsFinal` | src/start.ts:374-381 | once a prefix of the items has aborted, later items issue no request and do not change the outcome |
| `Bulk.StopsAtFirstMissing` | src/start.ts:374-381 | the first item that fails its check, reached after the earlier items succeeded, ends the run with `Data is required`; nothing is sent for it or for later items |
| `Bulk.ResultsInInputOrder` | src/start.ts:373-381 | a successful run has one result per item, in input order; the i-th result is what item i's operation returned, run right after the earlier items |
| `Bulk.BulkCreateRequestsInOrder` | src/start.ts:373-381 | a successful bulk create has every item truthy; it sent, per item and in order, a listing request and a POST of that item's data; result i echoes item i |
| `Bulk.BulkDeleteRequestsInOrder` | src/start.ts:459-467 | a successful bulk delete has every row id non-zero; it sent, per row and in order, a listing request and a DELETE with body `{Id: rowId}` |
| `Tools.PostRecordsBulkTool` | src/start.ts:372-390 | the loop's log and outcome are those of the bulk-create state machine |
| `Tools.DeleteRecordsBulkTool` | src/start.ts:458-476 | the loop's log and outcome are those of the bulk-delete state machine, where `0` counts as missing |
| `Tools.PatchRecordsTool` | src/start.ts:408-432 | the handler's log and outcome are those of its specification |
| `Tools.UnparsableTextIsNotSent` | src/start.ts:409-422 | a text payload that fails to parse gives the error payload as a normal result; no request is sent |
| `Tools.TextPayloadActsAsParsed` | src/start.ts:409-424 | a text payload that parses to a non-string value is handled exactly as that value given directly |

## Left out

- Process bootstrap (`src/start.ts:8-18`): reading the URL, base id and token from the environment or argv. This is process configuration. The model receives them as the `Client`'s URL and the `Backend`'s base id.
- HTTP transport (`src/start.ts:84-91`): the headers, the token, the 30-second timeout and axios's joining of the base URL and path. The log records paths relative to the base URL. The reply contents are abstract.
- MCP server setup, tool registration, zod schemas, descriptions, the `filterRules` text, the `greeting://` resource and the stdio transport (`src/start.ts:21-82`, `262-595`). These are protocol glue and static text. The zod checks (row ids are numbers, `uidt` is one of four types at the tool) are not modelled.
- The tools that only forward to one operation and serialise its result: get records, list tables, post records, delete records, metadata, add and remove column, create table. Their operations are modelled; the forwarding is not.
- `JSON.stringify` of results: a result is the value itself, not its text. `JSON.parse` in the update handler is an abstract parameter, which returns `None` where parsing throws.
- Numbers are integers. Fractional numbers and `NaN` are not modelled.
- `Decimal.IntToString`: prints every integer in plain decimal. JavaScript does this only for magnitudes below 1e21; from 1e21 up it prints exponent form (`1e+21`), so such a `limit` or `offset` is sent differently. Integers above 2^53 cannot be held exactly by a JavaScript number, and the model does not round them.
- `JsonValues.SpreadFields`: a string is a sequence of Unicode scalar values here, while JavaScript indexes strings by UTF-16 code unit. Spreading a string that has characters outside the Basic Multilingual Plane therefore gives fewer index keys than JavaScript does (one key for U+1F600 where JavaScript gives `"0"` and `"1"`). `JsonValues.CharValues` has the same gap.
- Object key order is not modelled, since objects are maps. This affects where `Id` lands when the update payload has none.
- `null` and `undefined` are one value.
- A listing whose body is `null`: there `response.data.list` throws a `TypeError`. The model reads any non-listing body as a missing `list`.
- async/await: every operation runs to completion before the next one starts. This matches the sequential bulk loops.
- `RecordQuery.QueryRoundTrip`: holds only when no given filter, sort or fields string contains `&`. The code inserts values without encoding, so such a value changes the parameters the service sees. The decoder is a plain split on `&` and `=`. URL parsing also drops everything after a `#`, and a typical server-side parser decodes `%XX` and reads `+` as a space. Values containing `#`, `%` or `+` can therefore reach the service changed, and the round trip does not speak to that.
