/** JSON values as the server and the browser see them once parsed, together with
    the JavaScript operators the code applies to them: truthiness, the optional
    member and index accesses `v?.key` and `v?.[0]`, and the `a || b || c` chain.
    Numbers are integers here (the only numbers the code produces are sentiment
    scores and timestamps). */
module JsonValues {
  import opened Wrappers

  datatype Json =
    | JNull
    | JBool(b: bool)
    | JNumber(n: int)
    | JString(s: string)
    | JArray(items: seq<Json>)
    | JObject(fields: seq<(string, Json)>)

  /** JavaScript truthiness: `null`, `false`, `0` and `""` are falsy; every array
      and every object, even an empty one, is truthy. */
  predicate Truthy(v: Json) {
    match v
    case JNull => false
    case JBool(b) => b
    case JNumber(n) => n != 0
    case JString(s) => s != ""
    case JArray(_) => true
    case JObject(_) => true
  }

  /** Truthiness of a value that may be `undefined` (which is falsy). */
  predicate IsTruthy(v: Option<Json>) {
    v.Some? && Truthy(v.value)
  }

  /** The value of `key` in an object's fields. When a key is repeated the last
      occurrence wins, as with `JSON.parse`. */
  function Lookup(fields: seq<(string, Json)>, key: string): (r: Option<Json>)
    ensures r.None? <==> forall i | 0 <= i < |fields| :: fields[i].0 != key
    ensures r.Some? ==>
      exists i | 0 <= i < |fields| ::
        fields[i] == (key, r.value) && forall j | i < j < |fields| :: fields[j].0 != key
  {
    if fields == [] then None
    else if fields[|fields| - 1].0 == key then Some(fields[|fields| - 1].1)
    else Lookup(fields[..|fields| - 1], key)
  }

  /** `v?.key`: `undefined` unless `v` is an object holding `key`. (Properties
      of strings, arrays and numbers that the code reads — `message`, `content`,
      `error`, `choices`, `mood` — do not exist, so they read as `undefined`.) */
  function Member(v: Option<Json>, key: string): Option<Json> {
    match v
    case Some(JObject(fields)) => Lookup(fields, key)
    case _ => None
  }

  /** `v?.[0]`: the first element of an array, the first character of a
      string, the property "0" of an object, `undefined` otherwise. */
  function IndexZero(v: Option<Json>): (r: Option<Json>)
    ensures v.Some? && v.value.JArray? && v.value.items != [] ==> r == Some(v.value.items[0])
    ensures v.Some? && v.value.JArray? && v.value.items == [] ==> r.None?
    ensures v.None? ==> r.None?
  {
    match v
    case Some(JArray(items)) => if items == [] then None else Some(items[0])
    case Some(JString(s)) => if s == "" then None else Some(JString([s[0]]))
    case Some(JObject(fields)) => Lookup(fields, "0")
    case _ => None
  }

  /** No candidate before position `i` is truthy. */
  predicate NoneTruthyBefore(candidates: seq<Option<Json>>, i: int)
    requires 0 <= i <= |candidates|
  {
    forall j | 0 <= j < i :: !IsTruthy(candidates[j])
  }

  /** `c0 || c1 || ... || fallback`: the first truthy candidate, or the
      fallback when no candidate is truthy. */
  function FirstTruthy(candidates: seq<Option<Json>>, fallback: Json): (r: Json)
    ensures NoneTruthyBefore(candidates, |candidates|) ==> r == fallback
    ensures forall i | 0 <= i < |candidates| && NoneTruthyBefore(candidates, i) && IsTruthy(candidates[i]) ::
      r == candidates[i].value
  {
    if candidates == [] then fallback
    else if IsTruthy(candidates[0]) then candidates[0].value
    else
      var rest := candidates[1..];
      assert forall i | 1 <= i <= |candidates| :: NoneTruthyBefore(candidates, i) ==> NoneTruthyBefore(rest, i - 1);
      FirstTruthy(rest, fallback)
  }

  /** Whatever the candidates, a truthy fallback makes the chain truthy. */
  lemma {:induction false} FirstTruthyIsTruthy(candidates: seq<Option<Json>>, fallback: Json)
    requires Truthy(fallback)
    ensures Truthy(FirstTruthy(candidates, fallback))
  {
    if candidates != [] && !IsTruthy(candidates[0]) {
      FirstTruthyIsTruthy(candidates[1..], fallback);
    }
  }
}
