/**
 * The JSON values that flow through request bodies and token payloads, and JavaScript's
 * truthiness and property lookup on them.
 */
module JsValue {
  import opened Wrappers

  /** A JSON primitive. Nested objects and arrays never occur in the modelled payloads. */
  datatype Value = Str(s: string) | Num(n: int) | Bool(b: bool) | Null

  /** A JSON object, its members in insertion order (JavaScript keeps that order). */
  type Object = seq<(string, Value)>

  /**
   * JavaScript truthiness of a possibly undefined value (`None` is `undefined`):
   * `undefined`, `null`, `false`, `0` and `""` are falsy, everything else is truthy.
   */
  predicate Truthy(v: Option<Value>) {
    match v
    case None => false
    case Some(Str(s)) => s != ""
    case Some(Num(n)) => n != 0
    case Some(Bool(b)) => b
    case Some(Null) => false
  }

  /** `obj[key]`: the value of the LAST member named `key` (what JSON.parse keeps), or undefined. */
  function Get(obj: Object, key: string): (r: Option<Value>)
    ensures r.Some? <==> exists i :: 0 <= i < |obj| && obj[i].0 == key
    ensures r.Some? ==> (key, r.value) in obj
  {
    if obj == [] then None
    else if obj[|obj| - 1].0 == key then Some(obj[|obj| - 1].1)
    else
      var r := Get(obj[..|obj| - 1], key);
      assert forall i :: 0 <= i < |obj| - 1 ==> obj[..|obj| - 1][i] == obj[i];
      assert r.Some? ==> (key, r.value) in obj[..|obj| - 1];
      r
  }

  /** Looking up in an object with one more member at the end. */
  lemma GetSnoc(obj: Object, k: string, v: Value, key: string)
    ensures Get(obj + [(k, v)], key) == if k == key then Some(v) else Get(obj, key)
  {
    assert (obj + [(k, v)])[..|obj|] == obj;
  }

  /** Lookup in a five-member object literal: the last member with that name wins. */
  lemma GetFive(m1: (string, Value), m2: (string, Value), m3: (string, Value), m4: (string, Value),
                m5: (string, Value), key: string)
    ensures Get([m1, m2, m3, m4, m5], key) ==
      if m5.0 == key then Some(m5.1) else if m4.0 == key then Some(m4.1)
      else if m3.0 == key then Some(m3.1) else if m2.0 == key then Some(m2.1)
      else if m1.0 == key then Some(m1.1) else None
  {
    assert [m1, m2, m3, m4, m5] == [m1, m2, m3, m4] + [m5];
    assert [m1, m2, m3, m4] == [m1, m2, m3] + [m4];
    assert [m1, m2, m3] == [m1, m2] + [m3];
    assert [m1, m2] == [m1] + [m2];
    assert [m1] == [] + [m1];
    GetSnoc([], m1.0, m1.1, key);
    GetSnoc([m1], m2.0, m2.1, key);
    GetSnoc([m1, m2], m3.0, m3.1, key);
    GetSnoc([m1, m2, m3], m4.0, m4.1, key);
    GetSnoc([m1, m2, m3, m4], m5.0, m5.1, key);
  }

  /** Lookup in a one-member object literal. */
  lemma GetOne(m1: (string, Value), key: string)
    ensures Get([m1], key) == if m1.0 == key then Some(m1.1) else None
  {
    assert [m1] == [] + [m1];
    GetSnoc([], m1.0, m1.1, key);
  }

  /** Lookup in a two-member object literal. */
  lemma GetTwo(m1: (string, Value), m2: (string, Value), key: string)
    ensures Get([m1, m2], key) == if m2.0 == key then Some(m2.1) else if m1.0 == key then Some(m1.1) else None
  {
    assert [m1, m2] == [m1] + [m2];
    assert [m1] == [] + [m1];
    GetSnoc([], m1.0, m1.1, key);
    GetSnoc([m1], m2.0, m2.1, key);
  }

  /** A body field: `req.body[name]`, undefined when the client did not send it. */
  function Field(body: map<string, Value>, name: string): (r: Option<Value>)
    ensures r.Some? <==> name in body
  {
    if name in body then Some(body[name]) else None
  }

  /** `a || false` for a possibly undefined `a`: `a` itself when truthy, else `false`. */
  function OrFalse(v: Option<Value>): (r: Value)
    ensures Truthy(Some(r)) <==> Truthy(v)
    ensures Truthy(v) ==> Some(r) == v
  {
    if Truthy(v) then v.value else Bool(false)
  }

  /**
   * `v >= 3` with JavaScript's numeric conversion on the primitives a payload can hold:
   * undefined converts to NaN, null and false to 0, true to 1.
   * Strings, which go through ToNumber, are treated as not reaching 3.
   */
  predicate AtLeastThree(v: Option<Value>) {
    match v
    case Some(Num(n)) => n >= 3
    case _ => false
  }
}
