/**
  JSON values as the Express server and the axios client exchange them.
  Numbers are kept integral: nothing in the modelled code does arithmetic on them.
  An object keeps its members in the order its text lists them. The objects the server
  builds itself have distinct, non-numeric keys, so `res.json` writes those in this order;
  values taken over from the activation service are kept as parsed, not as re-serialised.
 */
module JsonValue {
  import opened Wrappers

  datatype Json =
    | JNull
    | JBool(b: bool)
    | JNum(n: int)
    | JStr(s: string)
    | JArr(items: seq<Json>)
    | JObj(members: seq<Member>)

  datatype Member = Member(key: string, value: Json)

  /** The value bound to `key` in `ms` when read as an object: a later member with
      the same key overwrites an earlier one, as `JSON.parse` does. */
  function LastValue(ms: seq<Member>, key: string): (r: Option<Json>)
    ensures r.None? <==> forall i :: 0 <= i < |ms| ==> ms[i].key != key
    ensures r.Some? ==>
      exists i :: 0 <= i < |ms| && ms[i] == Member(key, r.value) &&
        forall k :: i < k < |ms| ==> ms[k].key != key
  {
    if |ms| == 0 then None
    else if ms[|ms| - 1].key == key then Some(ms[|ms| - 1].value)
    else LastValue(ms[..|ms| - 1], key)
  }

  /** `j.key` in JavaScript for a JSON value that is not null: only an object has
      members; on a string, number, boolean or array the property is `undefined`
      (the built-in `length` is not one of the keys this model reads). */
  function Get(j: Json, key: string): Option<Json> {
    if j.JObj? then LastValue(j.members, key) else None
  }

  /** A key that occurs exactly once in an object reads back the value stored with it. */
  lemma GetUnique(ms: seq<Member>, i: nat, key: string)
    requires i < |ms| && ms[i].key == key
    requires forall k :: 0 <= k < |ms| && k != i ==> ms[k].key != key
    ensures Get(JObj(ms), key) == Some(ms[i].value)
  {
    var r := LastValue(ms, key);
    assert r.Some?;
    var j :| 0 <= j < |ms| && ms[j] == Member(key, r.value);
    assert j == i;
  }

  /** JavaScript truthiness of a JSON value (`!!v`). */
  predicate Truthy(j: Json) {
    match j
    case JNull => false
    case JBool(b) => b
    case JNum(n) => n != 0
    case JStr(s) => s != ""
    case JArr(_) => true
    case JObj(_) => true
  }
}
