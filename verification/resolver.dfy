/** Table-name resolution and table listing: both read the base's table
    listing, one looks a title up, the other returns all titles. */
module TableResolver {
  import opened Wrappers
  import opened Remote

  const ResolvePrefix := "Error retrieving table ID: "
  const ListPrefix := "Error get list tables: "

  function NotFoundMessage(name: string): string {
    "Table '" + name + "' not found"
  }

  /** `response.data.list || []`: a missing list reads as no tables. */
  function TablesOf(d: Data): seq<Table> {
    if d.Listing? && d.list.Some? then d.list.value else []
  }

  /** `i` is the first position whose title is exactly `name`. */
  ghost predicate IsFirstMatch(tables: seq<Table>, name: string, i: int) {
    0 <= i < |tables| && tables[i].title == name &&
    forall j :: 0 <= j < i ==> tables[j].title != name
  }

  /** `tables.find(t => t.title === name)`. */
  function FindTable(tables: seq<Table>, name: string): (r: Option<Table>)
    ensures r.Some? <==> exists i :: 0 <= i < |tables| && tables[i].title == name
    ensures r.Some? ==> exists i :: IsFirstMatch(tables, name, i) && tables[i] == r.value
  {
    if tables == [] then None
    else if tables[0].title == name then
      assert IsFirstMatch(tables, name, 0);
      Some(tables[0])
    else
      var r := FindTable(tables[1..], name);
      assert r.Some? ==> exists i :: IsFirstMatch(tables, name, i) && tables[i] == r.value by {
        if r.Some? {
          var i :| IsFirstMatch(tables[1..], name, i) && tables[1..][i] == r.value;
          assert IsFirstMatch(tables, name, i + 1);
        }
      }
      assert (exists i :: 0 <= i < |tables| && tables[i].title == name) ==>
             exists i :: 0 <= i < |tables[1..]| && tables[1..][i].title == name by {
        if exists i :: 0 <= i < |tables| && tables[i].title == name {
          var i :| 0 <= i < |tables| && tables[i].title == name;
          assert tables[1..][i - 1].title == name;
        }
      }
      r
  }

  /** `getTableId` given the reply to the listing request: the id of the
      first table titled exactly `name`; otherwise a not-found error; a
      failed listing keeps its message. Both errors carry the prefix. */
  function ResolveTableId(reply: Reply, name: string): (r: Result<string>)
    ensures r.Ok? <==> reply.Replied? && exists i :: 0 <= i < |TablesOf(reply.data)| && TablesOf(reply.data)[i].title == name
    ensures r.Ok? ==> exists i :: IsFirstMatch(TablesOf(reply.data), name, i) && TablesOf(reply.data)[i].id == r.value
    ensures reply.Failed? ==> r == Err(ResolvePrefix + reply.message)
    ensures reply.Replied? && r.Err? ==> r.message == ResolvePrefix + NotFoundMessage(name)
  {
    match reply
    case Failed(m) => Err(ResolvePrefix + m)
    case Replied(d) =>
      match FindTable(TablesOf(d), name)
      case None => Err(ResolvePrefix + NotFoundMessage(name))
      case Some(t) => Ok(t.id)
  }

  /** `tables.map(t => t.title)`. */
  function Titles(tables: seq<Table>): (r: seq<string>)
    ensures |r| == |tables|
    ensures forall i :: 0 <= i < |tables| ==> r[i] == tables[i].title
  {
    if tables == [] then [] else [tables[0].title] + Titles(tables[1..])
  }

  /** `getListTables` given the reply to the listing request. */
  function ListTitles(reply: Reply): Result<seq<string>> {
    match reply
    case Failed(m) => Err(ListPrefix + m)
    case Replied(d) => Ok(Titles(TablesOf(d)))
  }

  /** Resolution issues exactly the listing request and reads its reply. */
  function ResolveRun(b: Backend, log: seq<Request>, name: string): Run<string> {
    var req := ListTablesRequest(b.baseId);
    Run(log + [req], ResolveTableId(b.answer(log, req), name))
  }

  function ListTablesRun(b: Backend, log: seq<Request>): Run<seq<string>> {
    var req := ListTablesRequest(b.baseId);
    Run(log + [req], ListTitles(b.answer(log, req)))
  }

  /** Resolution agrees with the listing: a name resolves exactly when it is
      one of the listed titles, and then to the id of the first table listed
      under it. */
  lemma ResolveAgreesWithListing(reply: Reply, name: string)
    requires reply.Replied?
    ensures ListTitles(reply).Ok?
    ensures ResolveTableId(reply, name).Ok? <==> name in ListTitles(reply).value
    ensures ResolveTableId(reply, name).Ok? ==>
      exists i :: 0 <= i < |ListTitles(reply).value| && ListTitles(reply).value[i] == name &&
        (forall j :: 0 <= j < i ==> ListTitles(reply).value[j] != name) &&
        ResolveTableId(reply, name).value == TablesOf(reply.data)[i].id
  {
    var tables := TablesOf(reply.data);
    var titles := ListTitles(reply).value;
    if name in titles {
      var k :| 0 <= k < |titles| && titles[k] == name;
      assert tables[k].title == name;
    }
    if ResolveTableId(reply, name).Ok? {
      var i :| IsFirstMatch(tables, name, i) && tables[i].id == ResolveTableId(reply, name).value;
      assert titles[i] == name;
    }
  }

  /** A listing without tables (or without a `list` field) lists no titles
      and resolves no name. */
  lemma EmptyListing(d: Data, name: string)
    requires TablesOf(d) == []
    ensures ListTitles(Replied(d)) == Ok([])
    ensures ResolveTableId(Replied(d), name) == Err(ResolvePrefix + NotFoundMessage(name))
  {
  }
}
