/** Shared value types and small facts. */
module Prelude {
  datatype Option<+T> = None | Some(value: T)

  /** Finitely many ids never use them all up. */
  lemma FreshId(ids: set<nat>) returns (id: nat)
    ensures forall x :: x in ids ==> x < id
    decreases |ids|
  {
    if ids == {} { return 0; }
    var x :| x in ids;
    var rest := FreshId(ids - {x});
    id := if rest > x then rest else x + 1;
    forall y | y in ids ensures y < id { assert y == x || y in ids - {x}; }
  }

  // ---------------------------------------------------------------------
  // The library sort: stable, by a comparator given as "strictly before"
  // ---------------------------------------------------------------------

  function Insert<T>(x: T, s: seq<T>, before: (T, T) -> bool): seq<T> {
    if s == [] || !before(s[0], x) then [x] + s else [s[0]] + Insert(x, s[1..], before)
  }

  function Sort<T>(s: seq<T>, before: (T, T) -> bool): seq<T> {
    if s == [] then [] else Insert(s[0], Sort(s[1..], before), before)
  }

  ghost predicate StrictWeakOrder<T(!new)>(before: (T, T) -> bool) {
    && (forall a, b :: before(a, b) ==> !before(b, a))
    && (forall a, b, c :: before(a, c) ==> before(a, b) || before(b, c))
  }

  predicate Ordered<T>(s: seq<T>, before: (T, T) -> bool) {
    forall i, j :: 0 <= i < j < |s| ==> !before(s[j], s[i])
  }

  lemma {:induction false} InsertPermutes<T>(x: T, s: seq<T>, before: (T, T) -> bool)
    ensures multiset(Insert(x, s, before)) == multiset(s) + multiset{x}
  {
    if s != [] && before(s[0], x) {
      InsertPermutes(x, s[1..], before);
      assert s == [s[0]] + s[1..];
    }
  }

  lemma {:induction false} SortPermutes<T>(s: seq<T>, before: (T, T) -> bool)
    ensures multiset(Sort(s, before)) == multiset(s)
  {
    if s != [] {
      SortPermutes(s[1..], before);
      InsertPermutes(s[0], Sort(s[1..], before), before);
      assert s == [s[0]] + s[1..];
    }
  }

  lemma {:induction false} InsertOrders<T(!new)>(x: T, s: seq<T>, before: (T, T) -> bool)
    requires StrictWeakOrder(before) && Ordered(s, before)
    ensures Ordered(Insert(x, s, before), before)
  {
    if s != [] && before(s[0], x) {
      InsertOrders(x, s[1..], before);
      InsertPermutes(x, s[1..], before);
      var r := Insert(x, s[1..], before);
      forall j | 0 <= j < |r| ensures !before(r[j], s[0]) {
        assert r[j] in multiset(r);
        assert r[j] == x || r[j] in s[1..];
      }
    }
  }

  lemma {:induction false} SortOrders<T(!new)>(s: seq<T>, before: (T, T) -> bool)
    requires StrictWeakOrder(before)
    ensures Ordered(Sort(s, before), before)
  {
    if s != [] {
      SortOrders(s[1..], before);
      InsertOrders(s[0], Sort(s[1..], before), before);
    }
  }

  predicate Strictly<T>(s: seq<T>, before: (T, T) -> bool) {
    forall i, j :: 0 <= i < j < |s| ==> before(s[i], s[j])
  }

  lemma {:induction false} InsertStrictly<T(!new)>(x: T, s: seq<T>, before: (T, T) -> bool)
    requires StrictWeakOrder(before) && Strictly(s, before) && forall y :: y in s ==> before(x, y) || before(y, x)
    ensures Strictly(Insert(x, s, before), before)
  {
    if s != [] && before(s[0], x) {
      InsertStrictly(x, s[1..], before);
      InsertPermutes(x, s[1..], before);
      var r := Insert(x, s[1..], before);
      forall j | 0 <= j < |r| ensures before(s[0], r[j]) {
        assert r[j] in multiset(r);
        assert r[j] == x || r[j] in s[1..];
      }
    }
  }

  /** When any two elements compare, the sorted list is strictly sorted. */
  lemma {:induction false} SortStrictly<T(!new)>(s: seq<T>, before: (T, T) -> bool)
    requires StrictWeakOrder(before) && forall i, j :: 0 <= i < j < |s| ==> before(s[i], s[j]) || before(s[j], s[i])
    ensures Strictly(Sort(s, before), before)
  {
    if s != [] {
      SortStrictly(s[1..], before);
      SortPermutes(s[1..], before);
      var r := Sort(s[1..], before);
      forall y | y in r ensures before(s[0], y) || before(y, s[0]) {
        assert y in multiset(r);
        assert y in s[1..];
      }
      InsertStrictly(s[0], r, before);
    }
  }

  lemma HasElement<T>(s: seq<T>)
    ensures s != [] ==> exists x :: x in s
  {
    if s != [] { assert s[0] in s; }
  }

  /** Two strictly sorted lists with the same elements are the same list. */
  lemma {:induction false} StrictlySortedIsUnique<T(!new)>(a: seq<T>, b: seq<T>, before: (T, T) -> bool)
    requires StrictWeakOrder(before) && Strictly(a, before) && Strictly(b, before)
    requires forall x :: x in a <==> x in b
    ensures a == b
  {
    if a == [] {
      HasElement(b);
    } else {
      assert a[0] in b;
      assert b[0] in a;
      assert a[0] == b[0];
      forall x ensures x in a[1..] <==> x in b[1..] {
        assert x in a[1..] <==> x in a && x != a[0] by { assert a == [a[0]] + a[1..]; }
        assert x in b[1..] <==> x in b && x != b[0] by { assert b == [b[0]] + b[1..]; }
      }
      StrictlySortedIsUnique(a[1..], b[1..], before);
      assert a == [a[0]] + a[1..] && b == [b[0]] + b[1..];
    }
  }
}
