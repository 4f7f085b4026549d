/** Small sequence and arithmetic helpers shared by the other modules. */
module Seqs {

  datatype Option<T> = None | Some(value: T)

  /** A slice inside the first part of a concatenation is that part's slice. */
  lemma PrefixSlice<T>(a: seq<T>, b: seq<T>, i: nat, j: nat)
    requires i <= j <= |a|
    ensures (a + b)[i..j] == a[i..j]
  {
    assert forall k :: 0 <= k < j - i ==> (a + b)[i..j][k] == a[i + k];
  }

  /** A slice inside the second part of a concatenation is that part's slice. */
  lemma SuffixSlice<T>(a: seq<T>, b: seq<T>, i: nat, j: nat)
    requires i <= j <= |b|
    ensures (a + b)[|a| + i..|a| + j] == b[i..j]
  {
    var s := (a + b)[|a| + i..|a| + j];
    assert forall k :: 0 <= k < j - i ==> s[k] == b[i + k];
  }

  /** 2^k as a natural number. */
  function Pow2(k: nat): (r: nat)
    ensures r >= 1
  {
    if k == 0 then 1 else 2 * Pow2(k - 1)
  }

  /** The sequence read back to front (Rust's `.rev()`). */
  function Reverse<T>(s: seq<T>): (r: seq<T>)
    ensures |r| == |s|
    ensures forall i :: 0 <= i < |s| ==> r[i] == s[|s| - 1 - i]
  {
    if s == [] then [] else Reverse(s[1..]) + [s[0]]
  }

  /** No element occurs twice. */
  ghost predicate NoDup<T>(s: seq<T>) {
    forall i, j :: 0 <= i < j < |s| ==> s[i] != s[j]
  }

  /** Each element is smaller than the next one. */
  predicate StrictlyIncreasing(s: seq<nat>) {
    forall i, j :: 0 <= i < j < |s| ==> s[i] < s[j]
  }

  /** The set {0, ..., n-1}. */
  function Range(n: nat): (r: set<nat>)
    ensures forall x: nat :: x in r <==> x < n
    ensures |r| == n
  {
    if n == 0 then {} else
      var r := Range(n - 1) + {n - 1};
      assert forall x: nat :: x in r <==> x < n;
      r
  }

  /** A duplicate-free sequence has as many elements as its set. */
  lemma {:induction false} NoDupCard<T>(s: seq<T>)
    requires NoDup(s)
    ensures |set x | x in s| == |s|
  {
    if s != [] {
      var t := s[..|s| - 1];
      assert NoDup(t);
      NoDupCard(t);
      assert (set x | x in s) == (set x | x in t) + {s[|s| - 1]};
      assert s[|s| - 1] !in (set x | x in t);
    }
  }

  /** A duplicate-free sequence of values below n has at most n elements. */
  lemma NoDupBounded(s: seq<nat>, n: nat)
    requires NoDup(s)
    requires forall x :: x in s ==> x < n
    ensures |s| <= n
  {
    NoDupCard(s);
    var elems := set x | x in s;
    assert elems <= Range(n);
    SubsetCard(elems, Range(n));
  }

  lemma SubsetCard<T>(a: set<T>, b: set<T>)
    requires a <= b
    ensures |a| <= |b|
  {
    assert b == a + (b - a);
  }

  /** m is the least element of s. */
  predicate IsLeast(m: nat, s: set<nat>) {
    m in s && forall y :: y in s ==> m <= y
  }

  lemma {:induction false} MinExists(s: set<nat>)
    requires s != {}
    ensures exists m :: IsLeast(m, s)
    decreases |s|
  {
    var x :| x in s;
    if s == {x} {
      assert IsLeast(x, s);
    } else {
      var rest := s - {x};
      MinExists(rest);
      var m :| IsLeast(m, rest);
      var least := if x < m then x else m;
      forall y | y in s
        ensures least <= y
      {
        if y != x {
          assert y in rest;
        }
      }
      assert IsLeast(least, s);
    }
  }

  /** The least element of a non-empty set of naturals. */
  function MinOf(s: set<nat>): (m: nat)
    requires s != {}
    ensures m in s && forall y :: y in s ==> m <= y
  {
    MinExists(s);
    var m :| IsLeast(m, s);
    m
  }

  /** The elements of a finite set of naturals in ascending order (the iteration
      order of a `BTreeMap`'s keys). */
  function SortedKeys(s: set<nat>): (r: seq<nat>)
    ensures StrictlyIncreasing(r)
    ensures forall x :: x in r <==> x in s
    ensures |r| == |s|
    decreases |s|
  {
    if s == {} then []
    else
      var m := MinOf(s);
      var rest := SortedKeys(s - {m});
      PrependSmaller(m, rest);
      [m] + rest
  }

  lemma PrependSmaller(m: nat, rest: seq<nat>)
    requires StrictlyIncreasing(rest) && forall x :: x in rest ==> m < x
    ensures StrictlyIncreasing([m] + rest)
  {
    forall i, j | 0 <= i < j < |[m] + rest|
      ensures ([m] + rest)[i] < ([m] + rest)[j]
    {
      assert rest[j - 1] in rest;
    }
  }

  /** Adding j to x does not wrap past a multiple of n while x % n + j stays below n. */
  lemma ShiftMod(x: nat, j: nat, n: nat)
    requires n > 0 && x % n + j < n
    ensures (x + j) % n == x % n + j
  {
    ModUnique(x + j, x / n, x % n + j, n);
  }

  /** The remainder is the only r in [0, n) with y == q * n + r. */
  lemma ModUnique(y: int, q: int, r: int, n: int)
    requires n > 0 && 0 <= r < n && y == q * n + r
    ensures y % n == r
  {
    var d, m := y / n, y % n;
    assert (q - d) * n == m - r;
    if q - d >= 1 {
      MulAtLeast(q - d, n);
    } else if d - q >= 1 {
      MulAtLeast(d - q, n);
    }
  }

  lemma {:induction false} MulAtLeast(k: int, n: int)
    requires k >= 1 && n > 0
    ensures k * n >= n
    decreases k
  {
    if k > 1 {
      MulAtLeast(k - 1, n);
      assert k * n == (k - 1) * n + n;
    }
  }
}
