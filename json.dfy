/**
 * An abstract JSON value, as produced by `JSON.parse`, and the handful of
 * JavaScript operations the tracker applies to such values: truthiness,
 * `typeof … === 'object'`, property reads, `hasOwnProperty` and object spread.
 * A property read or method call on `null` throws; `Option<Json>` uses None
 * for `undefined`.
 */
module Json {
  import opened Wrappers
  import Strings

  datatype Json =
    | JNull
    | JBool(b: bool)
    | JNum(n: int)
    | JStr(s: string)
    | JArr(items: seq<Json>)
    | JObj(fields: map<string, Json>)

  /** JavaScript truthiness of a possibly-undefined value. */
  predicate Truthy(v: Option<Json>) {
    match v
    case None => false
    case Some(JNull) => false
    case Some(JBool(b)) => b
    case Some(JNum(n)) => n != 0
    case Some(JStr(s)) => s != ""
    case Some(_) => true
  }

  /** `typeof v === 'object'`: true for `null`, arrays and objects, false for `undefined`. */
  predicate TypeofObject(v: Option<Json>) {
    v.Some? && (v.value.JNull? || v.value.JArr? || v.value.JObj?)
  }

  /**
   * `j[key]` for a named (non-numeric, non-`length`) key on a value that is not
   * `null`: only objects have such own properties. The caller has excluded `null`.
   */
  function Get(j: Json, key: string): (r: Option<Json>)
    ensures r.Some? <==> j.JObj? && key in j.fields
    ensures r.Some? ==> r.value == j.fields[key]
  {
    if j.JObj? && key in j.fields then Some(j.fields[key]) else None
  }

  /** The own enumerable properties copied by `{...j}` and listed by `Object.entries(j)`. */
  function OwnEntries(j: Json): (m: map<string, Json>)
    ensures j.JObj? ==> m == j.fields
    ensures j.JNull? || j.JBool? || j.JNum? ==> m == map[]
    ensures j.JArr? ==> forall i :: 0 <= i < |j.items| ==> Strings.IntToString(i) in m && m[Strings.IntToString(i)] == j.items[i]
    ensures j.JStr? ==> forall i :: 0 <= i < |j.s| ==> Strings.IntToString(i) in m && m[Strings.IntToString(i)] == JStr([j.s[i]])
  {
    match j
    case JObj(fields) => fields
    case JArr(items) => IndexEntries(items)
    case JStr(s) => IndexEntries(seq(|s|, i requires 0 <= i < |s| => JStr([s[i]])))
    case _ => map[]
  }

  /** Index keys "0", "1", … of an array (or of a string's characters). */
  function IndexEntries(items: seq<Json>): (m: map<string, Json>)
    ensures forall i :: 0 <= i < |items| ==> Strings.IntToString(i) in m && m[Strings.IntToString(i)] == items[i]
    ensures forall k :: k in m ==> exists i :: 0 <= i < |items| && k == Strings.IntToString(i)
  {
    IndexEntriesFrom(items, 0)
  }

  function IndexEntriesFrom(items: seq<Json>, start: nat): (m: map<string, Json>)
    requires start <= |items|
    ensures forall i :: start <= i < |items| ==> Strings.IntToString(i) in m && m[Strings.IntToString(i)] == items[i]
    ensures forall k :: k in m ==> exists i :: start <= i < |items| && k == Strings.IntToString(i)
    decreases |items| - start
  {
    if start == |items| then map[]
    else
      var rest := IndexEntriesFrom(items, start + 1);
      forall i | start + 1 <= i < |items|
        ensures Strings.IntToString(i) != Strings.IntToString(start)
      {
        if Strings.IntToString(i) == Strings.IntToString(start) {
          Strings.IntToStringInjective(i, start);
        }
      }
      rest[Strings.IntToString(start) := items[start]]
  }

  /** The outcome of a JavaScript expression that may throw a TypeError. */
  datatype Outcome<+T> = Value(value: T) | Throws

  /**
   * `j.hasOwnProperty(key)` on a parsed value: `null` has no methods, and an object
   * whose own `hasOwnProperty` key holds data has that method shadowed by a
   * non-function, so the call throws. `key` is a named key, as above.
   */
  function HasOwnProperty(j: Json, key: string): (r: Outcome<bool>)
    ensures r.Throws? <==> j.JNull? || (j.JObj? && "hasOwnProperty" in j.fields)
    ensures r.Value? ==> (r.value <==> j.JObj? && key in j.fields)
  {
    if j.JNull? then Throws
    else if j.JObj? && "hasOwnProperty" in j.fields then Throws
    else Value(j.JObj? && key in j.fields)
  }
}
