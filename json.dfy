/** JSON values as the route handlers see them after `JSON.parse`.
    An object is the sequence of its members in key order; a parsed object
    lists each key once (the parser keeps the last of duplicate keys). */
module Json {
  import opened Options

  datatype Json =
    | JNull
    | JBool(b: bool)
    | JNumber(literal: string)
    | JString(s: string)
    | JArray(items: seq<Json>)
    | JObject(members: Members)

  type Members = seq<(string, Json)>

  /** The keys of an object, in member order (`Object.keys`). */
  function Keys(m: Members): (ks: seq<string>)
    ensures |ks| == |m|
    ensures forall i :: 0 <= i < |m| ==> ks[i] == m[i].0
  {
    if m == [] then [] else [m[0].0] + Keys(m[1..])
  }

  /** Every key occurs once, as in any object `JSON.parse` produces. */
  predicate DistinctKeys(m: Members) {
    forall i, j :: 0 <= i < j < |m| ==> m[i].0 != m[j].0
  }

  /** Property access `obj[k]`: the value of member `k`, or None for `undefined`. */
  function Lookup(m: Members, k: string): (r: Option<Json>)
    ensures r.Some? ==> (k, r.value) in m
  {
    if m == [] then None
    else if m[0].0 == k then Some(m[0].1)
    else Lookup(m[1..], k)
  }

  /** A key is defined exactly when it is one of the object's keys. */
  lemma {:induction false} LookupDefinedIffKey(m: Members, k: string)
    ensures Lookup(m, k).Some? <==> k in Keys(m)
  {
    if m != [] {
      LookupDefinedIffKey(m[1..], k);
      assert Keys(m) == [m[0].0] + Keys(m[1..]);
    }
  }

  /** With distinct keys an object is a finite function: `obj[k] == v`
      exactly when the member `(k, v)` is present. */
  lemma {:induction false} LookupIffMember(m: Members, k: string, v: Json)
    requires DistinctKeys(m)
    ensures Lookup(m, k) == Some(v) <==> (k, v) in m
  {
    if m != [] {
      assert DistinctKeys(m[1..]) by {
        forall i, j | 0 <= i < j < |m[1..]| ensures m[1..][i].0 != m[1..][j].0 {
          assert m[1..][i] == m[i + 1] && m[1..][j] == m[j + 1];
        }
      }
      LookupIffMember(m[1..], k, v);
    }
  }
}
