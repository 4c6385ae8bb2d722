/** The tool handlers that do more than forward to one operation: the
    update handler, which accepts its payload as text, and the two bulk
    handlers. */
module Tools {
  import opened Wrappers
  import opened JsonValues
  import opened Remote
  import opened Operations
  import opened Bulk
  import opened NocoClient

  const InvalidPayloadMessage := "Data must be a valid JSON object or stringified JSON object"

  /** What the update tool answers: the update's result, or, for a text
      payload that does not parse, an error payload that is not a tool
      failure. */
  datatype PatchOutcome = Patched(result: WriteResult) | InvalidPayload(error: string)

  /** `nocodb-patch-records`, with `parse` standing for `JSON.parse`
      (`None` where it throws). */
  function PatchToolRun(b: Backend, log: seq<Request>, name: string, rowId: int, data: Json,
                        parse: string -> Option<Json>): Run<PatchOutcome>
  {
    if data.Str? && parse(data.s).None? then Run(log, Ok(InvalidPayload(InvalidPayloadMessage)))
    else
      var payload := if data.Str? then parse(data.s).value else data;
      var run := PatchRun(b, log, name, rowId, payload);
      Run(run.log, match run.result
                   case Err(m) => Err(m)
                   case Ok(w) => Ok(Patched(w)))
  }

  /** A text payload that does not parse is answered with the error payload
      before anything is sent. */
  lemma UnparsableTextIsNotSent(b: Backend, log: seq<Request>, name: string, rowId: int, s: string,
                                parse: string -> Option<Json>)
    requires parse(s).None?
    ensures PatchToolRun(b, log, name, rowId, Str(s), parse) == Run(log, Ok(InvalidPayload(InvalidPayloadMessage)))
  {
  }

  /** A text payload that parses to a non-string value is handled exactly as
      that value given directly. */
  lemma TextPayloadActsAsParsed(b: Backend, log: seq<Request>, name: string, rowId: int, s: string,
                                v: Json, parse: string -> Option<Json>)
    requires parse(s) == Some(v) && !v.Str?
    ensures PatchToolRun(b, log, name, rowId, Str(s), parse) == PatchToolRun(b, log, name, rowId, v, parse)
  {
  }

  method PatchRecordsTool(c: Client, name: string, rowId: int, data: Json, parse: string -> Option<Json>)
    returns (r: Result<PatchOutcome>)
    modifies c
    ensures Run(c.log, r) == PatchToolRun(c.backend, old(c.log), name, rowId, data, parse)
  {
    var payload := data;
    if data.Str? {
      var parsed := parse(data.s);
      if parsed.None? {
        return Ok(InvalidPayload(InvalidPayloadMessage));
      }
      payload := parsed.value;
    }
    var response := c.PatchRecords(name, rowId, payload);
    r := match response
         case Err(m) => Err(m)
         case Ok(w) => Ok(Patched(w));
  }

  /** `nocodb-post-records-bulk`. */
  method PostRecordsBulkTool(c: Client, name: string, uploadItems: seq<Json>) returns (r: Result<seq<WriteResult>>)
    modifies c
    ensures Run(c.log, r) == BulkCreateRun(c.backend, old(c.log), name, uploadItems)
  {
    var responses: seq<WriteResult> := [];
    var i := 0;
    while i < |uploadItems|
      invariant 0 <= i <= |uploadItems|
      invariant Run(c.log, Ok(responses)) == BulkCreateRun(c.backend, old(c.log), name, uploadItems[..i])
    {
      var data := uploadItems[i];
      if !Truthy(data) {
        StopsAtFirstMissing(CreateStep(c.backend, name), Truthy, old(c.log), uploadItems, i);
        return Err(DataRequired);
      }
      var response := c.PostRecords(name, data);
      assert uploadItems[..i + 1][..i] == uploadItems[..i];
      if response.Err? {
        AbortIsFinal(CreateStep(c.backend, name), Truthy, old(c.log), uploadItems, i + 1);
        return Err(response.message);
      }
      responses := responses + [response.value];
      i := i + 1;
    }
    assert uploadItems[..i] == uploadItems;
    r := Ok(responses);
  }

  /** `nocodb-delete-records-bulk`. */
  method DeleteRecordsBulkTool(c: Client, name: string, deleteRowsId: seq<int>) returns (r: Result<seq<Data>>)
    modifies c
    ensures Run(c.log, r) == BulkDeleteRun(c.backend, old(c.log), name, deleteRowsId)
  {
    var responses: seq<Data> := [];
    var i := 0;
    while i < |deleteRowsId|
      invariant 0 <= i <= |deleteRowsId|
      invariant Run(c.log, Ok(responses)) == BulkDeleteRun(c.backend, old(c.log), name, deleteRowsId[..i])
    {
      var rowId := deleteRowsId[i];
      if !RowIdGiven(rowId) {
        StopsAtFirstMissing(DeleteStep(c.backend, name), RowIdGiven, old(c.log), deleteRowsId, i);
        return Err(DataRequired);
      }
      var response := c.DeleteRecords(name, rowId);
      assert deleteRowsId[..i + 1][..i] == deleteRowsId[..i];
      if response.Err? {
        AbortIsFinal(DeleteStep(c.backend, name), RowIdGiven, old(c.log), deleteRowsId, i + 1);
        return Err(response.message);
      }
      responses := responses + [response.value];
      i := i + 1;
    }
    assert deleteRowsId[..i] == deleteRowsId;
    r := Ok(responses);
  }
}
