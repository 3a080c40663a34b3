/** Facts about finite sets. */
module FiniteSets {

  lemma Pick<T>(s: set<T>) returns (x: T)
    requires s != {}
    ensures x in s
  {
    x :| x in s;
  }

  method PickOne<T(==)>(s: set<T>) returns (x: T)
    requires s != {}
    ensures x in s
  {
    x :| x in s;
  }

  lemma {:induction false} SubsetSize<T>(a: set<T>, b: set<T>)
    requires a <= b
    ensures |a| <= |b|
    decreases a
  {
    if a == {} {
    } else {
      var x := Pick(a);
      SubsetSize(a - {x}, b - {x});
    }
  }

  /** The largest element, or `floor` if that is larger. */
  lemma {:induction false} Maximum(keys: set<int>, floor: int) returns (m: int)
    ensures m >= floor && forall k :: k in keys ==> k <= m
    ensures m in keys || m == floor
    decreases keys
  {
    if keys == {} {
      m := floor;
    } else {
      var k := Pick(keys);
      var rest := Maximum(keys - {k}, floor);
      m := if rest < k then k else rest;
      assert keys == (keys - {k}) + {k};
    }
  }

  // ----- Sums over a finite set -----

  ghost function Sum<T(!new)>(keys: set<T>, f: T -> int): int {
    if keys == {} then 0
    else
      var k :| k in keys;
      f(k) + Sum(keys - {k}, f)
  }

  lemma {:induction false} SumRemove<T(!new)>(keys: set<T>, f: T -> int, k: T)
    requires k in keys
    ensures Sum(keys, f) == f(k) + Sum(keys - {k}, f)
    decreases keys
  {
    var x :| x in keys && Sum(keys, f) == f(x) + Sum(keys - {x}, f);
    if x != k {
      SumRemove(keys - {x}, f, k);
      SumRemove(keys - {k}, f, x);
      assert keys - {x} - {k} == keys - {k} - {x};
    }
  }

  lemma {:induction false} SumSame<T(!new)>(keys: set<T>, f: T -> int, g: T -> int)
    requires forall k :: k in keys ==> f(k) == g(k)
    ensures Sum(keys, f) == Sum(keys, g)
    decreases keys
  {
    if keys == {} {
    } else {
      var x := Pick(keys);
      SumRemove(keys, f, x);
      SumRemove(keys, g, x);
      SumSame(keys - {x}, f, g);
    }
  }

  /** Two summands that differ in one place. */
  lemma SumChange<T(!new)>(keys: set<T>, f: T -> int, g: T -> int, k: T)
    requires k in keys
    requires forall x :: x in keys && x != k ==> f(x) == g(x)
    ensures Sum(keys, g) == Sum(keys, f) - f(k) + g(k)
  {
    SumRemove(keys, f, k);
    SumRemove(keys, g, k);
    SumSame(keys - {k}, f, g);
  }

  lemma {:induction false} SumAtMost<T(!new)>(keys: set<T>, f: T -> int, g: T -> int)
    requires forall k :: k in keys ==> f(k) <= g(k)
    ensures Sum(keys, f) <= Sum(keys, g)
    decreases keys
  {
    if keys == {} {
    } else {
      var x := Pick(keys);
      SumRemove(keys, f, x);
      SumRemove(keys, g, x);
      SumAtMost(keys - {x}, f, g);
    }
  }

  lemma {:induction false} SumUnion<T(!new)>(a: set<T>, b: set<T>, f: T -> int)
    requires a !! b
    ensures Sum(a + b, f) == Sum(a, f) + Sum(b, f)
    decreases a
  {
    if a == {} {
      assert a + b == b;
    } else {
      var x := Pick(a);
      SumRemove(a, f, x);
      SumRemove(a + b, f, x);
      assert a + b - {x} == (a - {x}) + b;
      SumUnion(a - {x}, b, f);
    }
  }

  lemma {:induction false} SumZero<T(!new)>(keys: set<T>, f: T -> int)
    requires forall k :: k in keys ==> f(k) == 0
    ensures Sum(keys, f) == 0
    decreases keys
  {
    if keys == {} {
    } else {
      var x := Pick(keys);
      SumRemove(keys, f, x);
      SumZero(keys - {x}, f);
    }
  }

  /** Summands that vanish outside a part. */
  lemma SumOfPart<T(!new)>(keys: set<T>, part: set<T>, f: T -> int)
    requires part <= keys && forall k :: k in keys && k !in part ==> f(k) == 0
    ensures Sum(keys, f) == Sum(part, f)
  {
    assert keys == part + (keys - part);
    SumUnion(part, keys - part, f);
    SumZero(keys - part, f);
  }

  lemma SameMap<K, V>(t: map<K, V>, u: map<K, V>)
    requires t.Keys == u.Keys && PartOf(t, u)
    ensures t == u
  {
  }

  predicate PartOf<K, V(==)>(t: map<K, V>, u: map<K, V>) {
    t.Keys <= u.Keys && forall k <- t.Keys :: t[k] == u[k]
  }

  lemma PartGrows<K, V>(t: map<K, V>, u: map<K, V>, k: K)
    requires PartOf(t, u) && k in u
    ensures PartOf(t[k := u[k]], u)
  {
  }

  lemma DisjointByTag<T>(a: set<T>, b: set<T>, tag: T -> int, i: int, j: int)
    requires i != j && (forall x <- a :: tag(x) == i) && (forall x <- b :: tag(x) == j)
    ensures a !! b
  {
  }
}
