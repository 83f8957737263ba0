/**
 * Values shared by the whole model: an optional value, and the JSON values a
 * request body is made of once `express.json()` has parsed it.
 */
module Common {

  /** A value that may be missing (JavaScript's `undefined`). */
  datatype Option<+T> = None | Some(value: T)

  /**
   * A parsed JSON value. Numbers are exact reals; an object keeps its own
   * properties in the order JavaScript enumerates them. A parsed object has
   * distinct keys (`JSON.parse` keeps the last of repeated ones), and the
   * model's objects are read that way: `Get` takes the one property a key names.
   */
  datatype Json =
    | Null
    | Bool(b: bool)
    | Num(n: real)
    | Str(s: string)
    | Arr(items: seq<Json>)
    | Obj(members: seq<Member>)

  /** A character above U+FFFF, which a JavaScript string holds as two UTF-16 code units. */
  predicate IsAstral(c: char)
  {
    c as int > 0xFFFF
  }

  /**
   * JavaScript's `s.length`: the number of UTF-16 code units, one for each
   * character up to U+FFFF and two (a surrogate pair) for each character above.
   */
  function JsLength(s: string): (n: nat)
    ensures |s| <= n <= 2 * |s|
    ensures n == |s| <==> forall i :: 0 <= i < |s| ==> !IsAstral(s[i])
    ensures n == 2 * |s| <==> forall i :: 0 <= i < |s| ==> IsAstral(s[i])
  {
    if s == [] then 0
    else
      var n := JsLength(s[1..]);
      assert forall i :: 1 <= i < |s| ==> s[1..][i - 1] == s[i];
      (if IsAstral(s[0]) then 2 else 1) + n
  }

  /** One property of a JSON object. */
  datatype Member = Member(key: string, value: Json)

  /** True when the object has a property named `key`. */
  predicate HasKey(members: seq<Member>, key: string)
  {
    exists i :: 0 <= i < |members| && members[i].key == key
  }

  /**
   * `obj[key]`: the value of the property named `key`, or None when the
   * object has no such property.
   */
  function Get(members: seq<Member>, key: string): (v: Option<Json>)
    ensures v.None? <==> !HasKey(members, key)
    ensures v.Some? ==> exists i :: 0 <= i < |members| && members[i] == Member(key, v.value)
  {
    if members == [] then None
    else if members[0].key == key then Some(members[0].value)
    else
      var v := Get(members[1..], key);
      assert forall i :: 0 <= i < |members| - 1 ==> members[1..][i] == members[i + 1];
      assert members[0].key != key;
      v
  }
}
