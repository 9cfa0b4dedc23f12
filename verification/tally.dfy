/**
 * Counting how many keys of a name-indexed table point at a given value.
 * The registry uses it with the table "guest name -> assigned menu" to count
 * the guests that hold one menu option.
 */
module Tally {

  /** The number of keys of `a` whose entry is `x`. */
  function Count<K, T(==)>(a: map<K, T>, x: T): nat
  {
    |set k | k in a && a[k] == x|
  }

  /** No key points at a value that does not occur in the table. */
  lemma CountAbsent<K, T>(a: map<K, T>, x: T)
    requires forall k :: k in a ==> a[k] != x
    ensures Count(a, x) == 0
  {
  }

  /** A key that points at `x` makes the count positive. */
  lemma CountPositive<K, T>(a: map<K, T>, k: K)
    requires k in a
    ensures Count(a, a[k]) >= 1
  {
    var s := set j | j in a && a[j] == a[k];
    assert k in s;
  }

  /** Taking a key out of the table removes exactly its own contribution. */
  lemma CountWithout<K, T>(a: map<K, T>, k: K, x: T)
    requires k in a
    ensures Count(a, x) == Count(a - {k}, x) + (if a[k] == x then 1 else 0)
  {
    var b := a - {k};
    var with := set j | j in a && a[j] == x;
    var without := set j | j in b && b[j] == x;
    if a[k] == x {
      assert with == without + {k};
    } else {
      assert with == without;
    }
  }

  /**
   * Redirecting one key changes each count by at most one: the value the key
   * used to point at loses it, the value it now points at gains it, and every
   * other value keeps its count.
   */
  lemma CountAfterUpdate<K, T>(a: map<K, T>, k: K, v: T, x: T)
    ensures Count(a[k := v], x)
         == Count(a, x) - (if k in a && a[k] == x then 1 else 0) + (if v == x then 1 else 0)
  {
    var b := a[k := v];
    assert b - {k} == a - {k};
    CountWithout(b, k, x);
    if k in a {
      CountWithout(a, k, x);
    } else {
      assert a - {k} == a;
    }
  }
}
