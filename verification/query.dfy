/**
 * The result orders the database produces for `find(...).sort(...)`: the matching ids, each once,
 * arranged so that `before` holds between every earlier and later key. Ties are left in any order.
 */
module Query {
  import opened Common

  /** `before` is total and transitive, as every sort order MongoDB applies is. */
  ghost predicate TotalPreorder<K(!new)>(before: (K, K) -> bool) {
    && (forall a, b :: before(a, b) || before(b, a))
    && (forall a, b, c :: before(a, b) && before(b, c) ==> before(a, c))
  }

  /** `m` is an id of `ids` whose key may come first. */
  predicate IsFirst<K>(keyOf: map<Id, K>, ids: set<Id>, before: (K, K) -> bool, m: Id)
    requires ids <= keyOf.Keys
  {
    m in ids && forall y :: y in ids ==> before(keyOf[m], keyOf[y])
  }

  /** `s` holds exactly the ids of `ids`, each once. */
  ghost predicate Enumerates(s: seq<Id>, ids: set<Id>) {
    Distinct(s) && forall x :: x in s <==> x in ids
  }

  /** Every earlier key of `s` may come before every later one. */
  ghost predicate ArrangedBy<K>(keyOf: map<Id, K>, s: seq<Id>, before: (K, K) -> bool)
  {
    forall i, j :: 0 <= i < j < |s| && s[i] in keyOf && s[j] in keyOf ==> before(keyOf[s[i]], keyOf[s[j]])
  }

  /** A non-empty finite set has an element that may come first. */
  lemma {:induction false} FirstExists<K(!new)>(keyOf: map<Id, K>, ids: set<Id>, before: (K, K) -> bool)
    requires ids != {} && ids <= keyOf.Keys && TotalPreorder(before)
    ensures exists m :: IsFirst(keyOf, ids, before, m)
    decreases ids
  {
    var x :| x in ids;
    if ids == {x} {
      assert before(keyOf[x], keyOf[x]);
      assert IsFirst(keyOf, ids, before, x);
    } else {
      var rest := ids - {x};
      FirstExists(keyOf, rest, before);
      var m :| IsFirst(keyOf, rest, before, m);
      if before(keyOf[m], keyOf[x]) {
        assert IsFirst(keyOf, ids, before, m);
      } else {
        assert before(keyOf[x], keyOf[m]);
        assert before(keyOf[x], keyOf[x]);
        assert IsFirst(keyOf, ids, before, x);
      }
    }
  }

  /** Lists `ids` in an order that respects `before`. */
  method Arrange<K(!new)>(keyOf: map<Id, K>, ids: set<Id>, before: (K, K) -> bool) returns (s: seq<Id>)
    requires ids <= keyOf.Keys && TotalPreorder(before)
    ensures Enumerates(s, ids)
    ensures ArrangedBy(keyOf, s, before)
  {
    s := [];
    var rest := ids;
    while rest != {}
      invariant rest <= ids
      invariant Distinct(s)
      invariant forall x :: x in s <==> x in ids && x !in rest
      invariant ArrangedBy(keyOf, s, before)
      invariant forall i, y :: 0 <= i < |s| && y in rest ==> before(keyOf[s[i]], keyOf[y])
      decreases rest
    {
      FirstExists(keyOf, rest, before);
      var m :| m in rest && IsFirst(keyOf, rest, before, m);
      s := s + [m];
      rest := rest - {m};
    }
  }

  /** Lists `ids` in no particular order (a query without `sort`). */
  method Enumerate(ids: set<Id>) returns (s: seq<Id>)
    ensures Enumerates(s, ids)
  {
    s := [];
    var rest := ids;
    while rest != {}
      invariant rest <= ids
      invariant Distinct(s)
      invariant forall x :: x in s <==> x in ids && x !in rest
      decreases rest
    {
      var m :| m in rest;
      s := s + [m];
      rest := rest - {m};
    }
  }
}
