/** What several components share. */
module Basics {

  datatype Option<T> = None | Some(value: T)

  const TWO_32 := 0x1_0000_0000

  /** Seconds, as the cache stores them. */
  type Time = t: int | 0 <= t < TWO_32

  type Key = string

  /** The hash masked to the number of buckets, a power of two. */
  function BucketOf(hash: Key -> nat, k: Key, buckets: nat): (b: nat)
    requires buckets > 0
    ensures b < buckets
  {
    hash(k) % buckets
  }

  lemma SubsetSize<T>(a: set<T>, b: set<T>)
    requires a <= b
    ensures |a| <= |b|
  {
    assert b == a + (b - a);
  }

  /** A number beyond all in the set. */
  lemma {:induction false} Spare(xs: set<int>) returns (n: int)
    ensures forall x :: x in xs ==> x < n
  {
    if exists x :: x in xs {
      var x :| x in xs;
      var rest := xs - {x};
      var v := Spare(rest);
      n := if x < v then v else x + 1;
      forall y | y in xs ensures y < n {
        assert y == x || y in rest;
      }
    } else {
      n := 0;
    }
  }

  // ---------- division ----------

  lemma Quotient(n: nat, p: nat, r: nat)
    requires p > 0
    ensures n / p == r <==> r * p <= n < r * p + p
  {
    var q := n / p;
    assert q * p <= n < q * p + p;
    if r < q {
      assert (r + 1) * p <= q * p;
    }
    if r > q {
      assert (q + 1) * p <= r * p;
    }
  }

  lemma DivideTwice(n: nat, k: nat, p: nat)
    requires k > 0 && p > 0
    ensures k * p > 0 && n / k / p == n / (k * p)
  {
    var m := n / k;
    var r := m / p;
    Quotient(n, k, m);
    Quotient(m, p, r);
    Scaled(n, k, p, m, r);
    Quotient(n, k * p, r);
  }

  lemma Scaled(n: nat, k: nat, p: nat, m: nat, r: nat)
    requires k > 0 && p > 0 && m * k <= n < m * k + k && r * p <= m < r * p + p
    ensures k * p > 0 && r * (k * p) <= n < r * (k * p) + k * p
  {
    var rp := r * p;
    MultiplyBounds(rp, m, k);
    MultiplyBounds(m + 1, rp + p, k);
    MultiplyOut(r, p, k);
  }

  lemma MultiplyBounds(a: nat, b: nat, k: nat)
    requires a <= b
    ensures a * k <= b * k
  {
  }

  lemma MultiplyOut(r: nat, p: nat, k: nat)
    ensures r * (k * p) == r * p * k
    ensures (r * p + p) * k == r * p * k + k * p
  {
  }

  // ---------- sequences ----------

  predicate Distinct<T(==)>(s: seq<T>) {
    forall i, j :: 0 <= i < j < |s| ==> s[i] != s[j]
  }

  function Without<T>(s: seq<T>, i: nat): seq<T>
    requires i < |s|
  {
    s[..i] + s[i + 1..]
  }

  /** The first occurrence taken out. */
  function Erase<T(==)>(s: seq<T>, x: T): seq<T> {
    if s == [] then [] else if s[0] == x then s[1..] else [s[0]] + Erase(s[1..], x)
  }
}
