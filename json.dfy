/** JSON values as the services receive and send them, with the truthiness and property
    access rules of JavaScript and Python. `Undefined` is a JavaScript `undefined`: a key
    whose value is `Undefined` is left out when the value is serialised. */
module JsonValues {
  import opened Wrappers
  import opened Text
  import opened Numbers

  datatype Json =
    | Undefined
    | Null
    | Bool(b: bool)
    | Num(n: real)
    | Str(s: string)
    | Arr(items: seq<Json>)
    | Obj(fields: seq<(string, Json)>)

  /** JavaScript truthiness: `undefined`, `null`, `false`, `0` and `""` are falsy. */
  predicate Truthy(j: Json) {
    match j
    case Undefined => false
    case Null => false
    case Bool(b) => b
    case Num(n) => n != 0.0
    case Str(s) => s != ""
    case Arr(_) => true
    case Obj(_) => true
  }

  /** Python truthiness: empty lists and empty dicts are falsy as well. */
  predicate PyTruthy(j: Json) {
    match j
    case Arr(items) => items != []
    case Obj(fields) => fields != []
    case _ => Truthy(j)
  }

  /** `x == null` in JavaScript (loose equality): `null` or `undefined`. */
  predicate Nullish(j: Json) { j.Undefined? || j.Null? }

  /** `a || b` in JavaScript. */
  function Or(a: Json, b: Json): (r: Json)
    ensures Truthy(a) ==> r == a
    ensures !Truthy(a) ==> r == b
  {
    if Truthy(a) then a else b
  }

  /** `a ?? b` in JavaScript. */
  function Coalesce(a: Json, b: Json): (r: Json)
    ensures !Nullish(a) ==> r == a
    ensures Nullish(a) ==> r == b
  {
    if Nullish(a) then b else a
  }

  /** The value of the LAST field named `key` (a parsed object keeps the last duplicate). */
  function Lookup(fields: seq<(string, Json)>, key: string): (r: Option<Json>)
    ensures r.None? <==> forall i :: 0 <= i < |fields| ==> fields[i].0 != key
    ensures r.Some? ==> exists i :: 0 <= i < |fields| && fields[i] == (key, r.value) &&
                          forall k :: i < k < |fields| ==> fields[k].0 != key
  {
    if fields == [] then None
    else if fields[|fields| - 1].0 == key then Some(fields[|fields| - 1].1)
    else Lookup(fields[..|fields| - 1], key)
  }

  /** `x[key]` on a value that is not `null`/`undefined`: a missing key and a key of a
      non-object read as `undefined`. */
  function Get(j: Json, key: string): (r: Json)
    ensures !j.Obj? ==> r == Undefined
    ensures j.Obj? && Lookup(j.fields, key).None? ==> r == Undefined
  {
    if j.Obj? then Lookup(j.fields, key).GetOr(Undefined) else Undefined
  }

  /** The value of a field that no later field of the same name overrides. */
  lemma GetAt(j: Json, k: nat)
    requires j.Obj? && k < |j.fields|
    requires forall m :: k < m < |j.fields| ==> j.fields[m].0 != j.fields[k].0
    ensures Get(j, j.fields[k].0) == j.fields[k].1
  {
    var key := j.fields[k].0;
    var r := Lookup(j.fields, key);
    assert r.Some?;
    var i :| 0 <= i < |j.fields| && j.fields[i] == (key, r.value) &&
             forall m :: i < m < |j.fields| ==> j.fields[m].0 != key;
    assert i == k;
  }

  /** `x?.key`: `undefined` when `x` is `null` or `undefined`. */
  function OptGet(j: Json, key: string): (r: Json)
    ensures Nullish(j) ==> r == Undefined
    ensures !Nullish(j) ==> r == Get(j, key)
  {
    if Nullish(j) then Undefined else Get(j, key)
  }

  /** `x.k1.k2…kn` in JavaScript: `None` when some step reads a property of `null` or
      `undefined`, which throws a TypeError. */
  function Path(j: Json, keys: seq<string>): (r: Option<Json>)
    ensures keys == [] ==> r == Some(j)
    ensures keys != [] && Nullish(j) ==> r.None?
    decreases keys
  {
    if keys == [] then Some(j)
    else if Nullish(j) then None
    else Path(Get(j, keys[0]), keys[1..])
  }

  /** `x?.k1?.k2…?.kn`: never throws, `undefined` as soon as a step meets a nullish value. */
  function OptPath(j: Json, keys: seq<string>): (r: Json)
    ensures keys == [] ==> r == j
    decreases keys
  {
    if keys == [] then j else OptPath(OptGet(j, keys[0]), keys[1..])
  }

  /** An optional chain ends in `undefined` or agrees with the plain chain. */
  lemma {:induction false} OptPathAgreesWithPath(j: Json, keys: seq<string>)
    ensures Path(j, keys).Some? ==> OptPath(j, keys) == Path(j, keys).value
    ensures Path(j, keys).None? ==> OptPath(j, keys) == Undefined
    decreases keys
  {
    if keys != [] {
      if Nullish(j) {
        OptPathOfNullish(OptGet(j, keys[0]), keys[1..]);
      } else {
        OptPathAgreesWithPath(Get(j, keys[0]), keys[1..]);
      }
    }
  }

  lemma {:induction false} OptPathOfNullish(j: Json, keys: seq<string>)
    requires j == Undefined
    ensures OptPath(j, keys) == Undefined
    decreases keys
  {
    if keys != [] {
      OptPathOfNullish(OptGet(j, keys[0]), keys[1..]);
    }
  }

  /** `x.length` for the values that have one; `None` is `undefined`. */
  function Length(j: Json): (r: Option<nat>)
    ensures r.Some? <==> j.Arr? || j.Str?
  {
    match j
    case Arr(items) => Some(|items|)
    case Str(s) => Some(|s|)
    case _ => None
  }

  /** `x.length` on a value that is not `null`/`undefined`. */
  function LengthProp(j: Json): (r: Json)
    ensures Length(j).Some? ==> r == Num(Length(j).value as real)
    ensures j.Obj? ==> r == Get(j, "length")
    ensures !j.Arr? && !j.Str? && !j.Obj? ==> r == Undefined
  {
    match j
    case Arr(items) => Num(|items| as real)
    case Str(s) => Num(|s| as real)
    case Obj(_) => Get(j, "length")
    case _ => Undefined
  }

  /** `${x}` in a template string: how JavaScript prints a value as text. An array prints
      its elements joined with ',' and `null`/`undefined` elements as nothing. */
  function TemplateText(j: Json): string
    decreases j
  {
    match j
    case Undefined => "undefined"
    case Null => "null"
    case Bool(b) => if b then "true" else "false"
    case Num(n) => NumberText(n)
    case Str(s) => s
    case Arr(items) =>
      Join(seq(|items|, i requires 0 <= i < |items| => if Nullish(items[i]) then "" else TemplateText(items[i])), ',')
    case Obj(_) => "[object Object]"
  }

  /** An optional string as JSON: a missing one is `null`. */
  function StrOrNull(s: Option<string>): (r: Json)
    ensures s.None? <==> r == Null
  {
    if s.Some? then Str(s.value) else Null
  }

  /** An optional number as JSON: a missing one is `null`. */
  function NumOrNull(x: Option<real>): (r: Json)
    ensures x.None? <==> r == Null
  {
    if x.Some? then Num(x.value) else Null
  }

  /** An HTTP response: its status code and JSON body. */
  datatype Reply = Reply(status: nat, body: Json)

  /** A natural number as JSON. */
  function Count(n: nat): Json { Num(n as real) }
}
