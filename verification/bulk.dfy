/** The bulk create and bulk delete tool handlers: items are handled one
    after the other in input order; the first item without its required
    field, or the first failing item, aborts the rest; results are
    collected in input order. */
module Bulk {
  import opened Wrappers
  import opened JsonValues
  import opened Remote
  import opened Payloads
  import opened TableResolver
  import opened Operations

  const DataRequired := "Data is required"

  /** The handler's state once the items `items` have been considered:
      either every item so far succeeded (`Ok` with their results, in
      order) or the run aborted (`Err`). `admit` is the check on an item's
      required field and `step` the single-item operation. */
  function BulkRun<I, O>(step: (seq<Request>, I) -> Run<O>, admit: I -> bool,
                         log: seq<Request>, items: seq<I>): Run<seq<O>>
    decreases |items|
  {
    if items == [] then Run(log, Ok([]))
    else
      var prev := BulkRun(step, admit, log, items[..|items| - 1]);
      var item := items[|items| - 1];
      if prev.result.Err? then prev
      else if !admit(item) then Run(prev.log, Err(DataRequired))
      else
        var one := step(prev.log, item);
        match one.result
        case Err(m) => Run(one.log, Err(m))
        case Ok(o) => Run(one.log, Ok(prev.result.value + [o]))
  }

  /** Once the first `k` items have aborted the run, no later item is
      handled and no further request is issued. */
  lemma {:induction false} AbortIsFinal<I, O>(step: (seq<Request>, I) -> Run<O>, admit: I -> bool,
                                              log: seq<Request>, items: seq<I>, k: nat)
    requires k <= |items|
    requires BulkRun(step, admit, log, items[..k]).result.Err?
    ensures BulkRun(step, admit, log, items) == BulkRun(step, admit, log, items[..k])
    decreases |items| - k
  {
    if k == |items| {
      assert items[..k] == items;
    } else {
      var n := |items|;
      assert items[..n - 1][..k] == items[..k];
      AbortIsFinal(step, admit, log, items[..n - 1], k);
    }
  }

  /** An item without its required field, reached after every earlier item
      succeeded, aborts the run with "Data is required" and nothing is
      issued for it or for any later item. */
  lemma StopsAtFirstMissing<I, O>(step: (seq<Request>, I) -> Run<O>, admit: I -> bool,
                                  log: seq<Request>, items: seq<I>, k: nat)
    requires k < |items| && !admit(items[k])
    requires BulkRun(step, admit, log, items[..k]).result.Ok?
    ensures BulkRun(step, admit, log, items)
         == Run(BulkRun(step, admit, log, items[..k]).log, Err(DataRequired))
  {
    assert items[..k + 1][..k] == items[..k];
    AbortIsFinal(step, admit, log, items, k + 1);
  }

  /** Item `i` passed its check and its operation, run right after the
      items before it, returned `done[i]`. */
  ghost predicate ItemHandled<I, O>(step: (seq<Request>, I) -> Run<O>, admit: I -> bool,
                                    log: seq<Request>, items: seq<I>, done: seq<O>, i: int)
  {
    && 0 <= i < |items| && i < |done|
    && admit(items[i])
    && step(BulkRun(step, admit, log, items[..i]).log, items[i]).result == Ok(done[i])
    && BulkRun(step, admit, log, items[..i + 1]).log
       == step(BulkRun(step, admit, log, items[..i]).log, items[i]).log
  }

  /** A successful run handled every item, in input order: the `i`-th
      result is what the `i`-th item's operation returned when it ran right
      after the items before it. */
  lemma {:induction false} ResultsInInputOrder<I, O>(step: (seq<Request>, I) -> Run<O>, admit: I -> bool,
                                                     log: seq<Request>, items: seq<I>)
    requires BulkRun(step, admit, log, items).result.Ok?
    ensures |BulkRun(step, admit, log, items).result.value| == |items|
    ensures forall i :: 0 <= i < |items| ==>
      ItemHandled(step, admit, log, items, BulkRun(step, admit, log, items).result.value, i)
    decreases |items|
  {
    if items != [] {
      var n := |items|;
      var prefix := items[..n - 1];
      ResultsInInputOrder(step, admit, log, prefix);
      var done := BulkRun(step, admit, log, items).result.value;
      var before := BulkRun(step, admit, log, prefix).result.value;
      assert done == before + [done[n - 1]];
      forall i | 0 <= i < n
        ensures ItemHandled(step, admit, log, items, done, i)
      {
        if i < n - 1 {
          assert ItemHandled(step, admit, log, prefix, before, i);
          assert prefix[..i] == items[..i] && prefix[..i + 1] == items[..i + 1];
          assert prefix[i] == items[i] && done[i] == before[i];
        } else {
          assert items[..i + 1] == items;
        }
      }
    }
  }

  // The two handlers.

  function CreateStep(b: Backend, name: string): (seq<Request>, Json) -> Run<WriteResult> {
    (log: seq<Request>, data: Json) => PostRun(b, log, name, data)
  }

  function DeleteStep(b: Backend, name: string): (seq<Request>, int) -> Run<Data> {
    (log: seq<Request>, rowId: int) => DeleteRun(b, log, name, rowId)
  }

  /** `if (!rowId)` fails exactly for `0`. */
  predicate RowIdGiven(rowId: int) {
    rowId != 0
  }

  /** `nocodb-post-records-bulk`: `data` must be truthy. */
  function BulkCreateRun(b: Backend, log: seq<Request>, name: string, items: seq<Json>): Run<seq<WriteResult>> {
    BulkRun(CreateStep(b, name), Truthy, log, items)
  }

  /** `nocodb-delete-records-bulk`: `rowId` must be truthy. */
  function BulkDeleteRun(b: Backend, log: seq<Request>, name: string, rowIds: seq<int>): Run<seq<Data>> {
    BulkRun(DeleteStep(b, name), RowIdGiven, log, rowIds)
  }

  /** The last row of a successful bulk delete: the rows before it
      succeeded, and it added a listing request and its delete. */
  lemma BulkDeleteLastStep(b: Backend, log: seq<Request>, name: string, rowIds: seq<int>)
    requires rowIds != [] && BulkDeleteRun(b, log, name, rowIds).result.Ok?
    ensures var prev := BulkDeleteRun(b, log, name, rowIds[..|rowIds| - 1]);
      && prev.result.Ok?
      && rowIds[|rowIds| - 1] != 0
      && ResolveRun(b, prev.log, name).result.Ok?
      && BulkDeleteRun(b, log, name, rowIds).log
         == prev.log + [ListTablesRequest(b.baseId),
                        Request(Delete, RecordsPath(ResolveRun(b, prev.log, name).result.value),
                                Some(DeleteBody(rowIds[|rowIds| - 1])))]
  {
    var n := |rowIds|;
    var prev := BulkDeleteRun(b, log, name, rowIds[..n - 1]);
    var one := DeleteRun(b, prev.log, name, rowIds[n - 1]);
    assert prev.result.Ok? && RowIdGiven(rowIds[n - 1]);
    assert DeleteStep(b, name)(prev.log, rowIds[n - 1]) == one;
    assert BulkDeleteRun(b, log, name, rowIds).log == one.log;
    var res := ResolveRun(b, prev.log, name);
    assert res.result.Ok?;
    DeleteRequests(b, prev.log, name, rowIds[n - 1], res.result.value);
  }

  /** Row `i` was sent, after the listing request, as the delete at
      position `start + 2 * i + 1` of the log. */
  ghost predicate DeleteIssuedAt(b: Backend, start: nat, after: seq<Request>, rowIds: seq<int>, i: int) {
    && 0 <= i < |rowIds| && start + 2 * i + 1 < |after|
    && rowIds[i] != 0
    && after[start + 2 * i] == ListTablesRequest(b.baseId)
    && after[start + 2 * i + 1].verb == Delete
    && after[start + 2 * i + 1].body == Some(DeleteBody(rowIds[i]))
  }

  /** Appending one row's listing request and delete to a log in which the
      earlier rows were issued in order keeps every earlier row where it was
      and issues the new one after them. */
  lemma DeleteIssuedExtend(b: Backend, start: nat, before: seq<Request>, prefix: seq<int>,
                           rowIds: seq<int>, after: seq<Request>, id: string)
    requires rowIds != [] && prefix == rowIds[..|rowIds| - 1]
    requires |before| == start + 2 * |prefix|
    requires forall i :: 0 <= i < |prefix| ==> DeleteIssuedAt(b, start, before, prefix, i)
    requires rowIds[|rowIds| - 1] != 0
    requires after == before + [ListTablesRequest(b.baseId), Request(Delete, RecordsPath(id), Some(DeleteBody(rowIds[|rowIds| - 1])))]
    ensures forall i :: 0 <= i < |rowIds| ==> DeleteIssuedAt(b, start, after, rowIds, i)
  {
    var n := |rowIds|;
    forall i | 0 <= i < n ensures DeleteIssuedAt(b, start, after, rowIds, i) {
      if i < n - 1 {
        assert DeleteIssuedAt(b, start, before, prefix, i);
        assert prefix[i] == rowIds[i];
        assert after[start + 2 * i] == before[start + 2 * i];
        assert after[start + 2 * i + 1] == before[start + 2 * i + 1];
      }
    }
  }

  /** A successful bulk delete issued, per row and in input order, a listing
      request and a delete whose body is `{Id: rowId}`. */
  lemma {:induction false} BulkDeleteRequestsInOrder(b: Backend, log: seq<Request>, name: string, rowIds: seq<int>)
    requires BulkDeleteRun(b, log, name, rowIds).result.Ok?
    ensures var after := BulkDeleteRun(b, log, name, rowIds).log;
      && |after| == |log| + 2 * |rowIds|
      && after[..|log|] == log
      && forall i :: 0 <= i < |rowIds| ==> DeleteIssuedAt(b, |log|, after, rowIds, i)
    decreases |rowIds|
  {
    if rowIds != [] {
      var n := |rowIds|;
      var prev := BulkDeleteRun(b, log, name, rowIds[..n - 1]).log;
      BulkDeleteLastStep(b, log, name, rowIds);
      BulkDeleteRequestsInOrder(b, log, name, rowIds[..n - 1]);
      var after := BulkDeleteRun(b, log, name, rowIds).log;
      assert after[..|log|] == prev[..|log|];
      DeleteIssuedExtend(b, |log|, prev, rowIds[..n - 1], rowIds, after,
                         ResolveRun(b, prev, name).result.value);
    }
  }

  /** The last item of a successful bulk create: the items before it
      succeeded, and it added a listing request and its POST. */
  lemma BulkCreateLastStep(b: Backend, log: seq<Request>, name: string, items: seq<Json>)
    requires items != [] && BulkCreateRun(b, log, name, items).result.Ok?
    ensures var prev := BulkCreateRun(b, log, name, items[..|items| - 1]);
      var run := BulkCreateRun(b, log, name, items);
      && prev.result.Ok?
      && Truthy(items[|items| - 1])
      && ResolveRun(b, prev.log, name).result.Ok?
      && run.log
         == prev.log + [ListTablesRequest(b.baseId),
                        Request(Post, RecordsPath(ResolveRun(b, prev.log, name).result.value),
                                Some(items[|items| - 1]))]
      && |run.result.value| == |prev.result.value| + 1
      && run.result.value[..|prev.result.value|] == prev.result.value
      && run.result.value[|prev.result.value|].input == items[|items| - 1]
  {
    var n := |items|;
    var prev := BulkCreateRun(b, log, name, items[..n - 1]);
    var one := PostRun(b, prev.log, name, items[n - 1]);
    assert prev.result.Ok? && Truthy(items[n - 1]);
    assert CreateStep(b, name)(prev.log, items[n - 1]) == one;
    assert one.result.Ok?;
    var run := BulkCreateRun(b, log, name, items);
    assert run == Run(one.log, Ok(prev.result.value + [one.result.value]));
    var res := ResolveRun(b, prev.log, name);
    assert res.result.Ok?;
    PostRequests(b, prev.log, name, items[n - 1], res.result.value);
  }

  /** Item `i` was sent, after the listing request, as the POST at position
      `start + 2 * i + 1` of the log, and result `i` echoes it. */
  ghost predicate PostIssuedAt(b: Backend, start: nat, after: seq<Request>, items: seq<Json>,
                               results: seq<WriteResult>, i: int) {
    && 0 <= i < |items| && start + 2 * i + 1 < |after| && i < |results|
    && Truthy(items[i])
    && after[start + 2 * i] == ListTablesRequest(b.baseId)
    && after[start + 2 * i + 1].verb == Post
    && after[start + 2 * i + 1].body == Some(items[i])
    && results[i].input == items[i]
  }

  /** Appending one item's listing request and POST to a log in which the
      earlier items were issued in order keeps every earlier item where it
      was and issues the new one after them. */
  lemma PostIssuedExtend(b: Backend, start: nat, before: seq<Request>, done: seq<WriteResult>, prefix: seq<Json>,
                         items: seq<Json>, after: seq<Request>, results: seq<WriteResult>, id: string)
    requires items != [] && prefix == items[..|items| - 1]
    requires |before| == start + 2 * |prefix| && |done| == |prefix|
    requires forall i :: 0 <= i < |prefix| ==> PostIssuedAt(b, start, before, prefix, done, i)
    requires Truthy(items[|items| - 1])
    requires after == before + [ListTablesRequest(b.baseId), Request(Post, RecordsPath(id), Some(items[|items| - 1]))]
    requires |results| == |items| && results[..|done|] == done && results[|done|].input == items[|items| - 1]
    ensures forall i :: 0 <= i < |items| ==> PostIssuedAt(b, start, after, items, results, i)
  {
    var n := |items|;
    forall i | 0 <= i < n ensures PostIssuedAt(b, start, after, items, results, i) {
      if i < n - 1 {
        assert PostIssuedAt(b, start, before, prefix, done, i);
        assert prefix[i] == items[i];
        assert results[i] == results[..|done|][i];
        assert after[start + 2 * i] == before[start + 2 * i];
        assert after[start + 2 * i + 1] == before[start + 2 * i + 1];
      }
    }
  }

  /** A successful bulk create issued, per item and in input order, a
      listing request and a POST of the item's data, and its results echo
      the items in input order. */
  lemma {:induction false} BulkCreateRequestsInOrder(b: Backend, log: seq<Request>, name: string, items: seq<Json>)
    requires BulkCreateRun(b, log, name, items).result.Ok?
    ensures var run := BulkCreateRun(b, log, name, items);
      && |run.log| == |log| + 2 * |items|
      && run.log[..|log|] == log
      && |run.result.value| == |items|
      && forall i :: 0 <= i < |items| ==> PostIssuedAt(b, |log|, run.log, items, run.result.value, i)
    decreases |items|
  {
    if items != [] {
      var n := |items|;
      var prev := BulkCreateRun(b, log, name, items[..n - 1]);
      BulkCreateLastStep(b, log, name, items);
      BulkCreateRequestsInOrder(b, log, name, items[..n - 1]);
      var run := BulkCreateRun(b, log, name, items);
      assert run.log[..|log|] == prev.log[..|log|];
      PostIssuedExtend(b, |log|, prev.log, prev.result.value, items[..n - 1], items, run.log, run.result.value,
                       ResolveRun(b, prev.log, name).result.value);
    }
  }
}
