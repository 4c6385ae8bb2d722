/** The query string `getRecords` appends to the records path: only the
    options that were given, in the order where, limit, offset, sort,
    fields, inserted verbatim and joined by `&`. */
module RecordQuery {
  import opened Wrappers
  import opened Decimal
  import opened Remote

  /** The optional read parameters; `filters` is sent as `where`. */
  datatype ReadOptions = ReadOptions(
    filters: Option<string>,
    limit: Option<int>,
    offset: Option<int>,
    sort: Option<string>,
    fields: Option<string>)

  const NoOptions := ReadOptions(None, None, None, None, None)

  /** `if (value)` on an optional string: present and not empty. */
  predicate Given(o: Option<string>) {
    o.Some? && o.value != ""
  }

  /** `if (value)` on an optional number: present and not zero. */
  predicate GivenNum(o: Option<int>) {
    o.Some? && o.value != 0
  }

  /** One `key=value` entry, the value inserted verbatim. */
  function Param(key: string, value: string): string {
    key + "=" + value
  }

  function StrParam(key: string, o: Option<string>): seq<string> {
    if Given(o) then [Param(key, o.value)] else []
  }

  function NumParam(key: string, o: Option<int>): seq<string> {
    if GivenNum(o) then [Param(key, IntToString(o.value))] else []
  }

  /** `paramsArray` after the five checks. */
  function Params(o: ReadOptions): seq<string> {
    StrParam("where", o.filters) + NumParam("limit", o.limit) + NumParam("offset", o.offset)
      + StrParam("sort", o.sort) + StrParam("fields", o.fields)
  }

  /** `xs.join(sep)`. */
  function Join(xs: seq<string>, sep: char): string {
    if xs == [] then "" else if |xs| == 1 then xs[0] else xs[0] + [sep] + Join(xs[1..], sep)
  }

  function QueryString(o: ReadOptions): string {
    Join(Params(o), '&')
  }

  /** The path of the records read, `?` included even with no parameters. */
  function ReadPath(tableId: string, o: ReadOptions): string {
    RecordsPath(tableId) + "?" + QueryString(o)
  }

  /** The pushes onto `paramsArray`, then the join. */
  method BuildQuery(o: ReadOptions) returns (query: string)
    ensures query == QueryString(o)
  {
    var paramsArray: seq<string> := [];
    if Given(o.filters) {
      paramsArray := paramsArray + [Param("where", o.filters.value)];
    }
    assert paramsArray == StrParam("where", o.filters);
    if GivenNum(o.limit) {
      paramsArray := paramsArray + [Param("limit", IntToString(o.limit.value))];
    }
    assert paramsArray == StrParam("where", o.filters) + NumParam("limit", o.limit);
    if GivenNum(o.offset) {
      paramsArray := paramsArray + [Param("offset", IntToString(o.offset.value))];
    }
    assert paramsArray == StrParam("where", o.filters) + NumParam("limit", o.limit) + NumParam("offset", o.offset);
    if Given(o.sort) {
      paramsArray := paramsArray + [Param("sort", o.sort.value)];
    }
    assert paramsArray == StrParam("where", o.filters) + NumParam("limit", o.limit) + NumParam("offset", o.offset)
                          + StrParam("sort", o.sort);
    if Given(o.fields) {
      paramsArray := paramsArray + [Param("fields", o.fields.value)];
    }
    assert paramsArray == Params(o);
    query := Join(paramsArray, '&');
  }

  // A plain split-based decoder: split on `&`, then each entry on its first
  // `=`, with no percent-decoding.

  /** `s.split(sep)` for a one-character separator. */
  function Split(s: string, sep: char): (r: seq<string>)
    ensures |r| > 0
  {
    if s == [] then [""]
    else
      var rest := Split(s[1..], sep);
      if s[0] == sep then [""] + rest else [[s[0]] + rest[0]] + rest[1..]
  }

  /** The text before the first `sep` and the text after it (all of `p`
      and nothing when there is no `sep`). */
  function SplitFirst(p: string, sep: char): (string, string) {
    if p == [] then ("", "")
    else if p[0] == sep then ("", p[1..])
    else var kv := SplitFirst(p[1..], sep); ([p[0]] + kv.0, kv.1)
  }

  /** Records one `key=value` parameter; unknown keys are ignored. */
  function ApplyParam(o: ReadOptions, p: string): ReadOptions {
    var kv := SplitFirst(p, '=');
    if kv.0 == "where" then o.(filters := Some(kv.1))
    else if kv.0 == "limit" then o.(limit := ParseInt(kv.1))
    else if kv.0 == "offset" then o.(offset := ParseInt(kv.1))
    else if kv.0 == "sort" then o.(sort := Some(kv.1))
    else if kv.0 == "fields" then o.(fields := Some(kv.1))
    else o
  }

  function ApplyAll(o: ReadOptions, ps: seq<string>): ReadOptions
    decreases |ps|
  {
    if ps == [] then o else ApplyAll(ApplyParam(o, ps[0]), ps[1..])
  }

  function DecodeQuery(q: string): ReadOptions {
    if q == "" then NoOptions else ApplyAll(NoOptions, Split(q, '&'))
  }

  /** The options with every falsy one replaced by an absent one. */
  function Canonical(o: ReadOptions): ReadOptions {
    ReadOptions(
      if Given(o.filters) then o.filters else None,
      if GivenNum(o.limit) then o.limit else None,
      if GivenNum(o.offset) then o.offset else None,
      if Given(o.sort) then o.sort else None,
      if Given(o.fields) then o.fields else None)
  }

  predicate NoAmpersand(o: Option<string>) {
    o.Some? ==> '&' !in o.value
  }

  lemma {:induction false} SplitWithoutSeparator(a: string, sep: char)
    requires sep !in a
    ensures Split(a, sep) == [a]
  {
    if a != [] {
      SplitWithoutSeparator(a[1..], sep);
      assert [a[0]] + a[1..] == a;
    }
  }

  lemma {:induction false} SplitAtSeparator(a: string, t: string, sep: char)
    requires sep !in a
    ensures Split(a + [sep] + t, sep) == [a] + Split(t, sep)
  {
    if a == [] {
      assert ([sep] + t)[1..] == t;
    } else {
      assert (a + [sep] + t)[1..] == a[1..] + [sep] + t;
      SplitAtSeparator(a[1..], t, sep);
      assert [a[0]] + a[1..] == a;
    }
  }

  /** Splitting a join recovers its parts when no part holds the separator. */
  lemma {:induction false} SplitJoin(xs: seq<string>, sep: char)
    requires |xs| > 0
    requires forall i :: 0 <= i < |xs| ==> sep !in xs[i]
    ensures Split(Join(xs, sep), sep) == xs
  {
    if |xs| == 1 {
      SplitWithoutSeparator(xs[0], sep);
    } else {
      SplitJoin(xs[1..], sep);
      SplitAtSeparator(xs[0], Join(xs[1..], sep), sep);
    }
  }

  lemma {:induction false} SplitFirstAt(k: string, v: string, sep: char)
    requires sep !in k
    ensures SplitFirst(k + [sep] + v, sep) == (k, v)
  {
    if k == [] {
      assert ([sep] + v)[1..] == v;
    } else {
      assert (k + [sep] + v)[1..] == k[1..] + [sep] + v;
      SplitFirstAt(k[1..], v, sep);
      assert [k[0]] + k[1..] == k;
    }
  }

  lemma {:induction false} ApplyAllAppend(o: ReadOptions, a: seq<string>, b: seq<string>)
    ensures ApplyAll(o, a + b) == ApplyAll(ApplyAll(o, a), b)
    decreases |a|
  {
    if a == [] {
      assert a + b == b;
    } else {
      assert (a + b)[1..] == a[1..] + b;
      ApplyAllAppend(ApplyParam(o, a[0]), a[1..], b);
    }
  }

  lemma NumberParamHasNoAmpersand(key: string, n: int)
    requires '&' !in key
    ensures '&' !in Param(key, IntToString(n))
  {
    var s := IntToString(n);
    assert forall i :: 0 <= i < |s| ==> s[i] != '&';
  }

  lemma ParamsHaveNoAmpersand(o: ReadOptions)
    requires NoAmpersand(o.filters) && NoAmpersand(o.sort) && NoAmpersand(o.fields)
    ensures forall i :: 0 <= i < |Params(o)| ==> '&' !in Params(o)[i]
  {
    var p1, p2, p3 := StrParam("where", o.filters), NumParam("limit", o.limit), NumParam("offset", o.offset);
    var p4, p5 := StrParam("sort", o.sort), StrParam("fields", o.fields);
    var ps := Params(o);
    if GivenNum(o.limit) { NumberParamHasNoAmpersand("limit", o.limit.value); }
    if GivenNum(o.offset) { NumberParamHasNoAmpersand("offset", o.offset.value); }
    forall i | 0 <= i < |ps| ensures '&' !in ps[i] {
      assert ps[i] in p1 || ps[i] in p2 || ps[i] in p3 || ps[i] in p4 || ps[i] in p5;
    }
  }

  lemma ApplyStrParam(x: ReadOptions, key: string, opt: Option<string>)
    requires '=' !in key
    ensures ApplyAll(x, StrParam(key, opt)) == if Given(opt) then ApplyParam(x, Param(key, opt.value)) else x
  {
  }

  lemma ApplyNumParam(x: ReadOptions, key: string, opt: Option<int>)
    requires '=' !in key
    ensures ApplyAll(x, NumParam(key, opt)) == if GivenNum(opt) then ApplyParam(x, Param(key, IntToString(opt.value))) else x
  {
  }

  /** Applying the parameters in order rebuilds the given options. */
  lemma ApplyParams(o: ReadOptions)
    ensures ApplyAll(NoOptions, Params(o)) == Canonical(o)
  {
    var p1, p2, p3 := StrParam("where", o.filters), NumParam("limit", o.limit), NumParam("offset", o.offset);
    var p4, p5 := StrParam("sort", o.sort), StrParam("fields", o.fields);
    ApplyAllAppend(NoOptions, p1 + p2 + p3 + p4, p5);
    ApplyAllAppend(NoOptions, p1 + p2 + p3, p4);
    ApplyAllAppend(NoOptions, p1 + p2, p3);
    ApplyAllAppend(NoOptions, p1, p2);
    var c := Canonical(o);
    var o1 := ApplyAll(NoOptions, p1);
    assert o1 == NoOptions.(filters := c.filters) by {
      ApplyStrParam(NoOptions, "where", o.filters);
      if Given(o.filters) { SplitFirstAt("where", o.filters.value, '='); }
    }
    var o2 := ApplyAll(o1, p2);
    assert o2 == o1.(limit := c.limit) by {
      ApplyNumParam(o1, "limit", o.limit);
      if GivenNum(o.limit) {
        SplitFirstAt("limit", IntToString(o.limit.value), '=');
        IntToStringRoundTrip(o.limit.value);
      }
    }
    var o3 := ApplyAll(o2, p3);
    assert o3 == o2.(offset := c.offset) by {
      ApplyNumParam(o2, "offset", o.offset);
      if GivenNum(o.offset) {
        SplitFirstAt("offset", IntToString(o.offset.value), '=');
        IntToStringRoundTrip(o.offset.value);
      }
    }
    var o4 := ApplyAll(o3, p4);
    assert o4 == o3.(sort := c.sort) by {
      ApplyStrParam(o3, "sort", o.sort);
      if Given(o.sort) { SplitFirstAt("sort", o.sort.value, '='); }
    }
    var o5 := ApplyAll(o4, p5);
    assert o5 == o4.(fields := c.fields) by {
      ApplyStrParam(o4, "fields", o.fields);
      if Given(o.fields) { SplitFirstAt("fields", o.fields.value, '='); }
    }
  }

  /** The query string, read back by splitting on `&` and then on the first
      `=`, gives exactly the options that were given, provided no given
      string contains `&` (values are inserted without encoding). */
  lemma QueryRoundTrip(o: ReadOptions)
    requires NoAmpersand(o.filters) && NoAmpersand(o.sort) && NoAmpersand(o.fields)
    ensures DecodeQuery(QueryString(o)) == Canonical(o)
  {
    var ps := Params(o);
    ApplyParams(o);
    if ps == [] {
      assert ApplyAll(NoOptions, ps) == NoOptions;
    } else {
      ParamsHaveNoAmpersand(o);
      SplitJoin(ps, '&');
      assert QueryString(o) != "" by {
        assert |ps[0]| > 0;
        assert |ps| > 1 ==> Join(ps, '&') == ps[0] + ['&'] + Join(ps[1..], '&');
      }
    }
  }

  /** Falsy options (`0`, the empty string) are dropped as absent ones are. */
  lemma FalsyOptionsAreOmitted(o: ReadOptions)
    ensures Params(o) == Params(Canonical(o))
    ensures QueryString(o.(limit := Some(0))) == QueryString(o.(limit := None))
    ensures QueryString(o.(offset := Some(0))) == QueryString(o.(offset := None))
    ensures QueryString(o.(filters := Some(""))) == QueryString(o.(filters := None))
    ensures QueryString(o.(sort := Some(""))) == QueryString(o.(sort := None))
    ensures QueryString(o.(fields := Some(""))) == QueryString(o.(fields := None))
  {
  }

  /** With no option given, the path is the records path and a bare `?`. */
  lemma NoOptionsQuery(tableId: string, o: ReadOptions)
    requires !Given(o.filters) && !GivenNum(o.limit) && !GivenNum(o.offset)
    requires !Given(o.sort) && !Given(o.fields)
    ensures QueryString(o) == ""
    ensures ReadPath(tableId, o) == "/api/v2/tables/" + tableId + "/records?"
  {
  }

  /** `limit=20, offset=40` alone gives exactly `limit=20&offset=40`. */
  lemma LimitOffsetQuery()
    ensures QueryString(ReadOptions(None, Some(20), Some(40), None, None)) == "limit=20&offset=40"
  {
    assert IntToString(20) == "20";
    assert IntToString(40) == "40";
  }

  /** With every option given, the parameters appear in the fixed order. */
  lemma AllOptionsQuery(w: string, l: int, n: int, s: string, f: string)
    requires w != "" && l != 0 && n != 0 && s != "" && f != ""
    ensures QueryString(ReadOptions(Some(w), Some(l), Some(n), Some(s), Some(f)))
         == Param("where", w) + "&" + Param("limit", IntToString(l)) + "&" + Param("offset", IntToString(n))
            + "&" + Param("sort", s) + "&" + Param("fields", f)
  {
    var o := ReadOptions(Some(w), Some(l), Some(n), Some(s), Some(f));
    var ps := [Param("where", w), Param("limit", IntToString(l)), Param("offset", IntToString(n)),
               Param("sort", s), Param("fields", f)];
    assert Params(o) == ps by {
      assert StrParam("where", o.filters) == [ps[0]];
      assert NumParam("limit", o.limit) == [ps[1]];
      assert NumParam("offset", o.offset) == [ps[2]];
      assert StrParam("sort", o.sort) == [ps[3]];
      assert StrParam("fields", o.fields) == [ps[4]];
    }
    JoinFive(ps);
  }

  /** Joining five entries puts one `&` between each neighbouring pair. */
  lemma JoinFive(ps: seq<string>)
    requires |ps| == 5
    ensures Join(ps, '&') == ps[0] + "&" + ps[1] + "&" + ps[2] + "&" + ps[3] + "&" + ps[4]
  {
    assert Join(ps[4..], '&') == ps[4];
    assert Join(ps[3..], '&') == ps[3] + "&" + ps[4];
    assert Join(ps[2..], '&') == ps[2] + "&" + ps[3] + "&" + ps[4];
    assert Join(ps[1..], '&') == ps[1] + "&" + ps[2] + "&" + ps[3] + "&" + ps[4];
  }
}
