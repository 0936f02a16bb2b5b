/** The JavaScript values the components read from API responses and
    settings objects, with the few operators the code applies to them:
    truthiness, `||`, optional-chaining property access, object spread and
    `String(x)` as a template literal performs it. */
module Js {
  import Text
  import opened Optional

  /** A JSON-like JavaScript value. Numbers are integers; objects are
      unordered maps from keys to values. */
  datatype Json =
    | Undefined
    | Null
    | Bool(b: bool)
    | Num(n: int)
    | Str(s: string)
    | Arr(elems: seq<Json>)
    | Obj(fields: map<string, Json>)

  /** JavaScript truthiness: `undefined`, `null`, `false`, `0` and `''` are falsy. */
  predicate Truthy(j: Json)
  {
    match j
    case Undefined => false
    case Null => false
    case Bool(b) => b
    case Num(n) => n != 0
    case Str(s) => s != ""
    case Arr(_) => true
    case Obj(_) => true
  }

  /** `x == null`: `undefined` or `null`. */
  predicate Nullish(j: Json)
  {
    j.Undefined? || j.Null?
  }

  /** `a || b`: the first operand when it is truthy, the second otherwise. */
  function Or(a: Json, b: Json): Json
  {
    if Truthy(a) then a else b
  }

  /** `a || b` is truthy exactly when either operand is. */
  lemma OrTruthy(a: Json, b: Json)
    ensures Truthy(Or(a, b)) <==> Truthy(a) || Truthy(b)
  {
  }

  /** A configured text value: a string, or a falsy placeholder. */
  predicate Textual(j: Json)
  {
    !Truthy(j) || j.Str?
  }

  /** `value || ''` for a textual value: its text, or the empty string. */
  function TextOrEmpty(j: Json): (s: string)
    requires Textual(j)
    ensures Truthy(j) ==> s == j.s && s != ""
    ensures !Truthy(j) ==> s == ""
  {
    if Truthy(j) then j.s else ""
  }

  /** `a || b || c` is associative, so chained fallbacks may be grouped either way. */
  lemma OrAssociative(a: Json, b: Json, c: Json)
    ensures Or(Or(a, b), c) == Or(a, Or(b, c))
  {
  }

  /** `obj?.key` (and `obj[key]` where `obj` is known to be an object): the
      field's value, or `undefined` when the field is absent or `obj` is not
      an object. */
  function Prop(j: Json, key: string): Json
  {
    if j.Obj? && key in j.fields then j.fields[key] else Undefined
  }

  /** `obj?.k1?.k2?...`: optional-chaining access along a path of keys. */
  function At(j: Json, path: seq<string>): (r: Json)
    ensures |path| == 1 ==> r == Prop(j, path[0])
    ensures path != [] && !j.Obj? ==> r == Undefined
    decreases path
  {
    if path == [] then j else At(Prop(j, path[0]), path[1..])
  }

  /** Following a path then the rest of it is following the whole path. */
  lemma {:induction false} AtAppend(j: Json, p: seq<string>, q: seq<string>)
    ensures At(At(j, p), q) == At(j, p + q)
    decreases p
  {
    if p == [] {
      assert p + q == q;
    } else {
      AtAppend(Prop(j, p[0]), p[1..], q);
      assert (p + q)[1..] == p[1..] + q;
    }
  }

  /** The own enumerable properties that `{...x}` copies: an object's fields,
      an array's elements or a string's characters keyed by their decimal
      index, and nothing for the other primitives. */
  function Spread(j: Json): (m: map<string, Json>)
    ensures j.Obj? ==> m == j.fields
    ensures j.Arr? ==> forall i: nat :: i < |j.elems| ==>
      Text.NatToString(i) in m && m[Text.NatToString(i)] == j.elems[i]
    ensures j.Str? ==> forall i: nat :: i < |j.s| ==>
      Text.NatToString(i) in m && m[Text.NatToString(i)] == Str([j.s[i]])
    ensures !(j.Obj? || j.Arr? || j.Str?) ==> m == map[]
  {
    match j
    case Obj(fields) => fields
    case Arr(elems) => IndexKeyed(elems)
    case Str(s) => IndexKeyed(seq(|s|, i requires 0 <= i < |s| => Str([s[i]])))
    case _ => map[]
  }

  /** The elements of a list keyed by their decimal index. */
  function IndexKeyed(elems: seq<Json>): (m: map<string, Json>)
    ensures forall i: nat :: i < |elems| ==> Text.NatToString(i) in m && m[Text.NatToString(i)] == elems[i]
  {
    if elems == [] then map[]
    else
      var n := |elems| - 1;
      var m := IndexKeyed(elems[..n])[Text.NatToString(n) := elems[n]];
      Text.NatToStringInjective();
      m
  }

  /** `[...xs]`: the elements an array or a string spreads into, or
      `None` when spreading throws. */
  function SpreadElements(xs: Json): (r: Option<seq<Json>>)
    ensures xs.Arr? ==> r == Some(xs.elems)
    ensures xs.Str? ==>
      (r.Some? && |r.value| == |xs.s|
       && forall i :: 0 <= i < |xs.s| ==> r.value[i] == Str([xs.s[i]]))
    ensures !xs.Arr? && !xs.Str? ==> r.None?
  {
    match xs
    case Arr(elems) => Some(elems)
    case Str(s) => Some(seq(|s|, i requires 0 <= i < |s| => Str([s[i]])))
    case _ => None
  }

  /** `v && <render v>`: the value when it is truthy, nothing otherwise. */
  function WhenTruthy(v: Json): (r: Option<Json>)
    ensures r.Some? <==> Truthy(v)
    ensures r.Some? ==> r.value == v
  {
    if Truthy(v) then Some(v) else None
  }

  /** `String(x)` for the values template strings print. */
  function JsString(j: Json): (r: string)
    ensures j.Str? ==> r == j.s
    ensures j.Undefined? ==> r == "undefined"
    ensures j.Null? ==> r == "null"
    ensures j.Num? && j.n >= 0 ==> r == Text.NatToString(j.n)
  {
    match j
    case Undefined => "undefined"
    case Null => "null"
    case Bool(b) => if b then "true" else "false"
    case Num(n) => Text.IntToString(n)
    case Str(s) => s
    case Arr(elems) => JoinElements(elems)
    case Obj(_) => "[object Object]"
  }

  /** `Array.prototype.toString`: elements joined with `,`, with `null` and
      `undefined` elements printed as the empty string. */
  function JoinElements(elems: seq<Json>): (r: string)
    ensures |elems| == 0 ==> r == ""
  {
    if |elems| == 0 then ""
    else
      var first := if Nullish(elems[0]) then "" else JsString(elems[0]);
      if |elems| == 1 then first else first + "," + JoinElements(elems[1..])
  }
}
