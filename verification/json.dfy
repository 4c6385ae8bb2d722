/** The untyped values that reach the tools as record data. */
module JsonValues {
  import opened Decimal

  /** A JavaScript value. `Null` stands for both `null` and `undefined`;
      numbers are integers; an object is a map from key to value (the order
      of its keys is not modelled). */
  datatype Json =
    | Null
    | Bool(b: bool)
    | Num(n: int)
    | Str(s: string)
    | Arr(items: seq<Json>)
    | Obj(fields: map<string, Json>)

  /** JavaScript truthiness: `!v` holds exactly when `Truthy(v)` does not. */
  predicate Truthy(v: Json) {
    match v
    case Null => false
    case Bool(b) => b
    case Num(n) => n != 0
    case Str(s) => s != ""
    case Arr(_) => true
    case Obj(_) => true
  }

  /** The object `{0: xs[0], 1: xs[1], ...}`: the own properties of an array. */
  function IndexFields(xs: seq<Json>): (m: map<string, Json>)
    ensures forall i :: 0 <= i < |xs| ==> IntToString(i) in m && m[IntToString(i)] == xs[i]
    ensures forall k :: k in m ==> exists i :: 0 <= i < |xs| && k == IntToString(i)
  {
    assert forall i, j :: 0 <= i < |xs| && 0 <= j < |xs| && IntToString(i) == IntToString(j) ==> i == j by {
      forall i, j | 0 <= i < |xs| && 0 <= j < |xs| && IntToString(i) == IntToString(j) ensures i == j {
        if i != j {
          IntToStringInjective(i, j);
        }
      }
    }
    map i | 0 <= i < |xs| :: IntToString(i) := xs[i]
  }

  /** The one-character strings of `s`, as indexing a string yields them. */
  function CharValues(s: string): (r: seq<Json>)
    ensures |r| == |s| && forall i :: 0 <= i < |s| ==> r[i] == Str([s[i]])
  {
    seq(|s|, i requires 0 <= i < |s| => Str([s[i]]))
  }

  /** The properties that the object spread `{...v}` copies: an object's own
      fields, the indices of an array or a string, and nothing for `null`,
      `undefined`, booleans and numbers. */
  function SpreadFields(v: Json): map<string, Json> {
    match v
    case Obj(fields) => fields
    case Arr(items) => IndexFields(items)
    case Str(s) => IndexFields(CharValues(s))
    case _ => map[]
  }
}
