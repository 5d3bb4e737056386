/** Notions about sequences, sets and maps that several components share. */
module Sequences {

  datatype Option<+T> = None | Some(value: T)

  ghost predicate Increasing(s: seq<int>) {
    forall i, j :: 0 <= i < j < |s| ==> s[i] < s[j]
  }

  ghost predicate Distinct<T>(s: seq<T>) {
    forall i, j :: 0 <= i < j < |s| ==> s[i] != s[j]
  }

  /** The table has the entry v for k, or none. */
  ghost predicate KnownAs<K, V>(m: map<K, V>, k: K, v: Option<V>) {
    (k in m <==> v.Some?) && (k in m ==> m[k] == v.value)
  }

  lemma Regroup<T>(a: seq<T>, b: seq<T>, x: T)
    ensures a + b + [x] == a + (b + [x])
  {
  }

  lemma Reassociate<T>(a: seq<T>, b: seq<T>, c: seq<T>)
    ensures a + b + c == a + (b + c)
  {
  }

  lemma SubsetOfEqualSize<T>(a: set<T>, b: set<T>)
    requires a <= b && |a| >= |b|
    ensures a == b
  {
    assert b == a + (b - a);
  }

  lemma SubsetIsSmaller<T>(a: set<T>, b: set<T>)
    requires a <= b
    ensures |a| <= |b|
  {
    assert b == a + (b - a);
  }

  ghost function Elements<T(!new)>(s: seq<T>): (r: set<T>)
    ensures forall x :: x in r <==> x in s
    ensures |r| <= |s|
  {
    if s == [] then {} else Elements(s[..|s| - 1]) + {s[|s| - 1]}
  }

  lemma {:induction false} DistinctElements<T(!new)>(s: seq<T>)
    requires Distinct(s)
    ensures |Elements(s)| == |s|
  {
    if s != [] {
      DistinctElements(s[..|s| - 1]);
    }
  }

  /** Some element of a set; the order in which the source walks a set or a dictionary is not modelled. */
  method Pick<T>(s: set<T>) returns (x: T)
    requires s != {}
    ensures x in s
  {
    x :| x in s;
  }

  /** The same for proofs, which cannot call a method. */
  ghost function SomeElement<T>(s: set<T>): (x: T)
    requires s != {}
    ensures x in s
  {
    var x :| x in s; x
  }

  /** a can be obtained from b by deleting elements. */
  predicate Subsequence<T(==)>(a: seq<T>, b: seq<T>) {
    if a == [] then true
    else if b == [] then false
    else
      || (a[|a| - 1] == b[|b| - 1] && Subsequence(a[..|a| - 1], b[..|b| - 1]))
      || Subsequence(a, b[..|b| - 1])
  }

  lemma SubsequenceBothGrow<T>(a: seq<T>, b: seq<T>, x: T)
    requires Subsequence(a, b)
    ensures Subsequence(a + [x], b + [x])
  {
    assert (a + [x])[..|a|] == a && (b + [x])[..|b|] == b;
  }

  lemma SubsequenceGrow<T>(a: seq<T>, b: seq<T>, x: T)
    requires Subsequence(a, b)
    ensures Subsequence(a, b + [x])
  {
    assert (b + [x])[..|b|] == b;
  }

  lemma {:induction false} SubsequencePrefix<T>(a: seq<T>, b: seq<T>, n: nat)
    requires Subsequence(a, b) && n <= |a|
    ensures Subsequence(a[..n], b)
  {
    if n == |a| {
      assert a[..n] == a;
    } else if a[|a| - 1] == b[|b| - 1] && Subsequence(a[..|a| - 1], b[..|b| - 1]) {
      assert a[..|a| - 1][..n] == a[..n];
      SubsequencePrefix(a[..|a| - 1], b[..|b| - 1], n);
      SubsequenceGrow(a[..n], b[..|b| - 1], b[|b| - 1]);
      assert b[..|b| - 1] + [b[|b| - 1]] == b;
    } else {
      SubsequencePrefix(a, b[..|b| - 1], n);
      SubsequenceGrow(a[..n], b[..|b| - 1], b[|b| - 1]);
      assert b[..|b| - 1] + [b[|b| - 1]] == b;
    }
  }

  lemma {:induction false} SubsequenceBehind<T>(front: seq<T>, a: seq<T>, b: seq<T>)
    requires Subsequence(a, b)
    ensures Subsequence(front + a, front + b)
  {
    if a == [] {
      SubsequenceExtend(front, b);
      assert front + a == front;
    } else if a[|a| - 1] == b[|b| - 1] && Subsequence(a[..|a| - 1], b[..|b| - 1]) {
      SubsequenceBehind(front, a[..|a| - 1], b[..|b| - 1]);
      SubsequenceBothGrow(front + a[..|a| - 1], front + b[..|b| - 1], a[|a| - 1]);
      assert front + a[..|a| - 1] + [a[|a| - 1]] == front + a;
      assert front + b[..|b| - 1] + [b[|b| - 1]] == front + b;
    } else {
      SubsequenceBehind(front, a, b[..|b| - 1]);
      SubsequenceGrow(front + a, front + b[..|b| - 1], b[|b| - 1]);
      assert front + b[..|b| - 1] + [b[|b| - 1]] == front + b;
    }
  }

  lemma {:induction false} SubsequenceExtend<T>(front: seq<T>, b: seq<T>)
    ensures Subsequence(front, front + b)
  {
    if b == [] {
      assert front + b == front;
      SubsequenceSelf(front);
    } else {
      SubsequenceExtend(front, b[..|b| - 1]);
      SubsequenceGrow(front, front + b[..|b| - 1], b[|b| - 1]);
      assert front + b[..|b| - 1] + [b[|b| - 1]] == front + b;
    }
  }

  lemma {:induction false} SubsequenceSelf<T>(a: seq<T>)
    ensures Subsequence(a, a)
  {
    if a != [] {
      SubsequenceSelf(a[..|a| - 1]);
    }
  }

  lemma {:induction false} SubsequenceMember<T>(a: seq<T>, b: seq<T>, x: T)
    requires Subsequence(a, b) && x in a
    ensures x in b
  {
    if a[|a| - 1] == b[|b| - 1] && Subsequence(a[..|a| - 1], b[..|b| - 1]) {
      if x in a[..|a| - 1] {
        SubsequenceMember(a[..|a| - 1], b[..|b| - 1], x);
      }
    } else {
      SubsequenceMember(a, b[..|b| - 1], x);
    }
  }

  lemma {:induction false} SubsequenceTransitive<T>(a: seq<T>, b: seq<T>, c: seq<T>)
    requires Subsequence(a, b) && Subsequence(b, c)
    ensures Subsequence(a, c)
    decreases |c|
  {
    if a != [] {
      var c' := c[..|c| - 1];
      assert c == c' + [c[|c| - 1]];
      if b[|b| - 1] == c[|c| - 1] && Subsequence(b[..|b| - 1], c') {
        if a[|a| - 1] == b[|b| - 1] && Subsequence(a[..|a| - 1], b[..|b| - 1]) {
          SubsequenceTransitive(a[..|a| - 1], b[..|b| - 1], c');
        } else {
          SubsequenceTransitive(a, b[..|b| - 1], c');
        }
      } else {
        SubsequenceTransitive(a, b, c');
      }
    }
  }

  /** A contiguous part is a subsequence. */
  lemma SubsequenceSlice<T>(s: seq<T>, lo: nat, hi: nat)
    requires lo <= hi <= |s|
    ensures Subsequence(s[lo..hi], s)
  {
    SubsequenceSelf(s[lo..hi]);
    SubsequenceBehindOnly(s[..lo], s[lo..hi], s[lo..hi]);
    assert s[..lo] + s[lo..hi] == s[..hi];
    SubsequenceExtend(s[..hi], s[hi..]);
    assert s[..hi] + s[hi..] == s;
    SubsequenceTransitive(s[lo..hi], s[..hi], s);
  }

  lemma {:induction false} SubsequenceBehindOnly<T>(front: seq<T>, a: seq<T>, b: seq<T>)
    requires Subsequence(a, b)
    ensures Subsequence(a, front + b)
  {
    if a != [] {
      assert (front + b)[..|front + b| - 1] == front + b[..|b| - 1];
      if a[|a| - 1] == b[|b| - 1] && Subsequence(a[..|a| - 1], b[..|b| - 1]) {
        SubsequenceBehindOnly(front, a[..|a| - 1], b[..|b| - 1]);
      } else {
        SubsequenceBehindOnly(front, a, b[..|b| - 1]);
      }
    }
  }
}
