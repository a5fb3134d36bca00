/** The canonical form the webhook signs: the body's top-level members
    rebuilt in sorted key order (`Object.keys(body).sort().reduce(...)`). */
module Canonical {
  import opened Options
  import opened Json

  /** The default comparison of `Array.prototype.sort` on strings:
      lexicographic by character, a proper prefix first. */
  predicate KeyLess(a: string, b: string) {
    if |a| == 0 then |b| > 0
    else if |b| == 0 then false
    else if a[0] != b[0] then a[0] < b[0]
    else KeyLess(a[1..], b[1..])
  }

  lemma {:induction false} KeyLessIrreflexive(a: string)
    ensures !KeyLess(a, a)
  {
    if |a| > 0 { KeyLessIrreflexive(a[1..]); }
  }

  lemma {:induction false} KeyLessTransitive(a: string, b: string, c: string)
    requires KeyLess(a, b) && KeyLess(b, c)
    ensures KeyLess(a, c)
  {
    if |a| > 0 && |b| > 0 && |c| > 0 && a[0] == b[0] && b[0] == c[0] {
      KeyLessTransitive(a[1..], b[1..], c[1..]);
    }
  }

  lemma {:induction false} KeyLessTotal(a: string, b: string)
    requires a != b
    ensures KeyLess(a, b) || KeyLess(b, a)
  {
    if |a| > 0 && |b| > 0 && a[0] == b[0] {
      assert a == [a[0]] + a[1..] && b == [b[0]] + b[1..];
      KeyLessTotal(a[1..], b[1..]);
    }
  }

  lemma KeyLessAsymmetric(a: string, b: string)
    requires KeyLess(a, b)
    ensures !KeyLess(b, a)
  {
    if KeyLess(b, a) {
      KeyLessTransitive(a, b, a);
      KeyLessIrreflexive(a);
    }
  }

  /** Strictly increasing under KeyLess. */
  predicate Sorted(s: seq<string>) {
    forall i, j :: 0 <= i < j < |s| ==> KeyLess(s[i], s[j])
  }

  predicate Distinct(s: seq<string>) {
    forall i, j :: 0 <= i < j < |s| ==> s[i] != s[j]
  }

  /** Inserts `k` before the first key it is less than. */
  function Insert(k: string, s: seq<string>): (r: seq<string>)
    ensures |r| == |s| + 1
    ensures forall x :: x in r <==> x == k || x in s
  {
    if s == [] then [k]
    else if KeyLess(k, s[0]) then [k] + s
    else [s[0]] + Insert(k, s[1..])
  }

  lemma {:induction false} InsertSorted(k: string, s: seq<string>)
    requires Sorted(s) && k !in s
    ensures Sorted(Insert(k, s))
  {
    if s != [] && !KeyLess(k, s[0]) {
      assert k != s[0];
      KeyLessTotal(k, s[0]);
      var rest := s[1..];
      assert Sorted(rest) by {
        forall i, j | 0 <= i < j < |rest| ensures KeyLess(rest[i], rest[j]) {
          assert rest[i] == s[i + 1] && rest[j] == s[j + 1];
        }
      }
      InsertSorted(k, rest);
      var tail := Insert(k, rest);
      forall x | x in tail ensures KeyLess(s[0], x) {
        if x != k {
          var i :| 0 <= i < |rest| && rest[i] == x;
          assert s[i + 1] == x;
        }
      }
      var r := [s[0]] + tail;
      forall i, j | 0 <= i < j < |r| ensures KeyLess(r[i], r[j]) {
        if i == 0 {
          assert r[j] == tail[j - 1] && r[j] in tail;
        } else {
          assert r[i] == tail[i - 1] && r[j] == tail[j - 1];
        }
      }
    } else if s != [] {
      var r := [k] + s;
      forall i, j | 0 <= i < j < |r| ensures KeyLess(r[i], r[j]) {
        if i == 0 {
          if j > 1 { KeyLessTransitive(k, s[0], s[j - 1]); }
        } else {
          assert r[i] == s[i - 1] && r[j] == s[j - 1];
        }
      }
    }
  }

  /** A reference sort (insertion sort). Any correct sort gives the same
      result on distinct keys: see SortedUnique. */
  function SortKeys(s: seq<string>): (r: seq<string>)
    ensures |r| == |s|
    ensures forall x :: x in r <==> x in s
  {
    if s == [] then [] else Insert(s[0], SortKeys(s[1..]))
  }

  lemma {:induction false} SortKeysSorted(s: seq<string>)
    requires Distinct(s)
    ensures Sorted(SortKeys(s))
  {
    if s != [] {
      assert Distinct(s[1..]) by {
        forall i, j | 0 <= i < j < |s[1..]| ensures s[1..][i] != s[1..][j] {
          assert s[1..][i] == s[i + 1] && s[1..][j] == s[j + 1];
        }
      }
      SortKeysSorted(s[1..]);
      InsertSorted(s[0], SortKeys(s[1..]));
    }
  }

  /** Two sorted sequences with the same elements are equal: the sorted
      order of a set of keys is unique. */
  lemma {:induction false} SortedUnique(a: seq<string>, b: seq<string>)
    requires Sorted(a) && Sorted(b)
    requires forall x :: x in a <==> x in b
    ensures a == b
  {
    if b != [] {
      assert b[0] in b;
    }
    if a != [] {
      assert a[0] in b;
      var i :| 0 <= i < |b| && b[i] == a[0];
      assert b[0] in a;
      var j :| 0 <= j < |a| && a[j] == b[0];
      if i > 0 && j > 0 {
        KeyLessAsymmetric(a[0], b[0]);
      }
      assert a[0] == b[0];
      var a', b' := a[1..], b[1..];
      assert Sorted(a') by {
        forall p, q | 0 <= p < q < |a'| ensures KeyLess(a'[p], a'[q]) {
          assert a'[p] == a[p + 1] && a'[q] == a[q + 1];
        }
      }
      assert Sorted(b') by {
        forall p, q | 0 <= p < q < |b'| ensures KeyLess(b'[p], b'[q]) {
          assert b'[p] == b[p + 1] && b'[q] == b[q + 1];
        }
      }
      forall x ensures x in a' <==> x in b' {
        if x in a' {
          var p :| 0 <= p < |a'| && a'[p] == x;
          assert KeyLess(a[0], a[p + 1]);
          KeyLessIrreflexive(x);
          assert x in b && x != b[0];
          var q :| 0 <= q < |b| && b[q] == x;
          assert b'[q - 1] == x;
        }
        if x in b' {
          var p :| 0 <= p < |b'| && b'[p] == x;
          assert KeyLess(b[0], b[p + 1]);
          KeyLessIrreflexive(x);
          assert x in a && x != a[0];
          var q :| 0 <= q < |a| && a[q] == x;
          assert a'[q - 1] == x;
        }
      }
      SortedUnique(a', b');
      assert a == [a[0]] + a' && b == [b[0]] + b';
    }
  }

  /** `ks.reduce((acc, key) => { acc[key] = body[key]; return acc }, {})`
      followed by serialisation: a key whose value is `undefined` is
      dropped, as `JSON.stringify` drops it. */
  function Pick(ks: seq<string>, body: Members): (r: Members)
    ensures |r| <= |ks|
  {
    if ks == [] then []
    else match Lookup(body, ks[0])
      case Some(v) => [(ks[0], v)] + Pick(ks[1..], body)
      case None => Pick(ks[1..], body)
  }

  /** The canonical form of a webhook body (lines 27-31 of the route). */
  function Canonicalize(body: Members): Members {
    Pick(SortKeys(Keys(body)), body)
  }

  lemma {:induction false} PickLookup(ks: seq<string>, body: Members, k: string)
    ensures Lookup(Pick(ks, body), k) == if k in ks then Lookup(body, k) else None
  {
    if ks != [] {
      PickLookup(ks[1..], body, k);
      assert k in ks <==> k == ks[0] || k in ks[1..];
    }
  }

  lemma {:induction false} PickKeys(ks: seq<string>, body: Members)
    requires forall k :: k in ks ==> k in Keys(body)
    ensures Keys(Pick(ks, body)) == ks
  {
    if ks != [] {
      LookupDefinedIffKey(body, ks[0]);
      PickKeys(ks[1..], body);
    }
  }

  /** Canonicalising keeps every top-level value: the canonical form has the
      same value as the body under every key. */
  lemma CanonicalSameValues(body: Members, k: string)
    ensures Lookup(Canonicalize(body), k) == Lookup(body, k)
  {
    PickLookup(SortKeys(Keys(body)), body, k);
    LookupDefinedIffKey(body, k);
  }

  /** The canonical form lists exactly the body's keys, once each, in sorted order. */
  lemma CanonicalKeysSorted(body: Members)
    requires DistinctKeys(body)
    ensures Keys(Canonicalize(body)) == SortKeys(Keys(body))
    ensures Sorted(Keys(Canonicalize(body)))
    ensures |Canonicalize(body)| == |body|
    ensures DistinctKeys(Canonicalize(body))
  {
    var ks := Keys(body);
    PickKeys(SortKeys(ks), body);
    SortKeysSorted(ks);
    var c := Canonicalize(body);
    forall i, j | 0 <= i < j < |c| ensures c[i].0 != c[j].0 {
      assert Keys(c)[i] == c[i].0 && Keys(c)[j] == c[j].0;
      KeyLessIrreflexive(c[i].0);
    }
  }

  /** Objects that agree on every key canonicalise identically. */
  lemma SameValuesSameCanonical(a: Members, b: Members)
    requires DistinctKeys(a) && DistinctKeys(b)
    requires forall k :: Lookup(a, k) == Lookup(b, k)
    ensures Canonicalize(a) == Canonicalize(b)
  {
    forall x ensures x in Keys(a) <==> x in Keys(b) {
      LookupDefinedIffKey(a, x);
      LookupDefinedIffKey(b, x);
    }
    SortKeysSorted(Keys(a));
    SortKeysSorted(Keys(b));
    SortedUnique(SortKeys(Keys(a)), SortKeys(Keys(b)));
    PickCongruent(SortKeys(Keys(a)), a, b);
  }

  lemma {:induction false} PickCongruent(ks: seq<string>, a: Members, b: Members)
    requires forall k :: Lookup(a, k) == Lookup(b, k)
    ensures Pick(ks, a) == Pick(ks, b)
  {
    if ks != [] {
      PickCongruent(ks[1..], a, b);
      assert Lookup(a, ks[0]) == Lookup(b, ks[0]);
    }
  }

  /** The canonical form does not depend on the order in which the body
      lists its members: any permutation of the body signs the same bytes. */
  lemma CanonicalOrderIndependent(a: Members, b: Members)
    requires DistinctKeys(a) && DistinctKeys(b)
    requires multiset(a) == multiset(b)
    ensures Canonicalize(a) == Canonicalize(b)
  {
    forall k ensures Lookup(a, k) == Lookup(b, k) {
      match Lookup(a, k)
      case Some(v) =>
        LookupIffMember(a, k, v);
        assert (k, v) in multiset(b);
        LookupIffMember(b, k, v);
      case None =>
        if Lookup(b, k).Some? {
          var w := Lookup(b, k).value;
          LookupIffMember(b, k, w);
          assert (k, w) in multiset(a);
          LookupIffMember(a, k, w);
        }
    }
    SameValuesSameCanonical(a, b);
  }

  /** Canonicalising a canonical form changes nothing. */
  lemma CanonicalIdempotent(body: Members)
    requires DistinctKeys(body)
    ensures Canonicalize(Canonicalize(body)) == Canonicalize(body)
  {
    var c := Canonicalize(body);
    CanonicalKeysSorted(body);
    forall k ensures Lookup(c, k) == Lookup(body, k) {
      CanonicalSameValues(body, k);
    }
    SameValuesSameCanonical(c, body);
  }
}
