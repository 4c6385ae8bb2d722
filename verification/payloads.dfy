/** The request bodies the record and schema operations build. */
module Payloads {
  import opened JsonValues

  /** `{...data, Id: rowId}`: the row of a single-row update. */
  function PatchRow(rowId: int, data: Json): (row: map<string, Json>)
    ensures "Id" in row && row["Id"] == Num(rowId)
    ensures forall k :: k != "Id" ==> (k in row <==> k in SpreadFields(data))
    ensures forall k :: k != "Id" && k in row ==> row[k] == SpreadFields(data)[k]
  {
    SpreadFields(data)["Id" := Num(rowId)]
  }

  /** The update endpoint takes a batch: one row here. */
  function PatchBody(rowId: int, data: Json): (body: Json)
    ensures body.Arr? && |body.items| == 1 && body.items[0].Obj?
  {
    Arr([Obj(PatchRow(rowId, data))])
  }

  /** The body of a record delete, `{Id: rowId}`. */
  function DeleteBody(rowId: int): Json {
    Obj(map["Id" := Num(rowId)])
  }

  /** The update's id overrides the payload's: `{Id: 99, Title: "x"}` updated
      as row 2 is sent as `[{Id: 2, Title: "x"}]`. */
  lemma PatchOverridesPayloadId()
    ensures PatchBody(2, Obj(map["Id" := Num(99), "Title" := Str("x")]))
         == Arr([Obj(map["Id" := Num(2), "Title" := Str("x")])])
  {
    var row := PatchRow(2, Obj(map["Id" := Num(99), "Title" := Str("x")]));
    var expected := map["Id" := Num(2), "Title" := Str("x")];
    assert "Id" != "Title";
    assert row.Keys == expected.Keys;
    assert forall k :: k in row ==> row[k] == expected[k];
    assert row == expected;
  }

  /** Updating an object with its own id changes nothing but the batching. */
  lemma PatchWithOwnId(fields: map<string, Json>, rowId: int)
    requires "Id" in fields && fields["Id"] == Num(rowId)
    ensures PatchBody(rowId, Obj(fields)) == Arr([Obj(fields)])
  {
    assert PatchRow(rowId, Obj(fields)) == fields;
  }

  // Columns of a new table.

  datatype ColumnType = SingleLineText | Number | Checkbox | DateTime | ID

  datatype Column = Column(title: string, uidt: ColumnType)

  /** The column `createTable` adds when none is titled `Id`. */
  const IdColumn := Column("Id", ID)

  /** `data.filter(x => x.title === title).length`. */
  function CountTitled(cols: seq<Column>, title: string): nat {
    if cols == [] then 0
    else (if cols[0].title == title then 1 else 0) + CountTitled(cols[1..], title)
  }

  lemma {:induction false} CountTitledPositive(cols: seq<Column>, title: string)
    ensures CountTitled(cols, title) > 0 <==> exists i :: 0 <= i < |cols| && cols[i].title == title
  {
    if cols != [] {
      CountTitledPositive(cols[1..], title);
      if cols[0].title != title && exists i :: 0 <= i < |cols| && cols[i].title == title {
        var i :| 0 <= i < |cols| && cols[i].title == title;
        assert cols[1..][i - 1].title == title;
      }
    }
  }

  lemma {:induction false} CountTitledAppend(a: seq<Column>, b: seq<Column>, title: string)
    ensures CountTitled(a + b, title) == CountTitled(a, title) + CountTitled(b, title)
  {
    if a == [] {
      assert a + b == b;
    } else {
      assert (a + b)[1..] == a[1..] + b;
      CountTitledAppend(a[1..], b, title);
    }
  }

  /** `hasId` in `createTable`. */
  predicate HasIdColumn(cols: seq<Column>) {
    CountTitled(cols, "Id") > 0
  }

  /** The column list `createTable` sends: the caller's columns, in order,
      behind an `Id` identifier column exactly when none was titled `Id`. */
  function WithIdColumn(cols: seq<Column>): (r: seq<Column>)
    ensures |r| == |cols| + (if HasIdColumn(cols) then 0 else 1)
    ensures r[|r| - |cols|..] == cols
    ensures !HasIdColumn(cols) ==> r[0] == IdColumn
    ensures exists i :: 0 <= i < |r| && r[i].title == "Id"
    ensures CountTitled(r, "Id") == if HasIdColumn(cols) then CountTitled(cols, "Id") else 1
  {
    if HasIdColumn(cols) then
      CountTitledPositive(cols, "Id");
      cols
    else
      CountTitledAppend([IdColumn], cols, "Id");
      assert ([IdColumn] + cols)[0].title == "Id";
      [IdColumn] + cols
  }

  /** Adding the identifier column is done at most once. */
  lemma WithIdColumnIdempotent(cols: seq<Column>)
    ensures WithIdColumn(WithIdColumn(cols)) == WithIdColumn(cols)
  {
    CountTitledPositive(WithIdColumn(cols), "Id");
  }

  function TypeName(t: ColumnType): string {
    match t
    case SingleLineText => "SingleLineText"
    case Number => "Number"
    case Checkbox => "Checkbox"
    case DateTime => "DateTime"
    case ID => "ID"
  }

  function ColumnJson(c: Column): Json {
    Obj(map["title" := Str(c.title), "uidt" := Str(TypeName(c.uidt))])
  }

  /** `data.map(value => ({title: value.title, uidt: value.uidt}))`. */
  function ColumnsJson(cols: seq<Column>): (r: seq<Json>)
    ensures |r| == |cols|
    ensures forall i :: 0 <= i < |cols| ==> r[i] == ColumnJson(cols[i])
  {
    if cols == [] then [] else [ColumnJson(cols[0])] + ColumnsJson(cols[1..])
  }

  /** The body of a table creation. */
  function CreateTableBody(tableName: string, cols: seq<Column>): Json {
    Obj(map["title" := Str(tableName), "columns" := Arr(ColumnsJson(cols))])
  }

  /** The body of a column addition; the type is an open string here. */
  function AddColumnBody(columnName: string, columnType: string): Json {
    Obj(map["title" := Str(columnName), "uidt" := Str(columnType)])
  }
}
