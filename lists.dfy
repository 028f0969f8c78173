/**
 * Sequence operations the tools use on their record lists: JavaScript's
 * `filter`, `findIndex`, and `splice` / index assignment on a copied array.
 */
module Lists {

  /** `s.filter(p)`. */
  function Filter<T(==)>(s: seq<T>, p: T -> bool): (r: seq<T>)
    ensures |r| <= |s|
    ensures forall i :: 0 <= i < |r| ==> p(r[i]) && r[i] in s
    ensures forall i :: 0 <= i < |s| && p(s[i]) ==> s[i] in r
  {
    if s == [] then [] else (if p(s[0]) then [s[0]] else []) + Filter(s[1..], p)
  }

  /** `filter` keeps every copy of a passing element and none of a failing one. */
  lemma {:induction false} FilterMultiset<T>(s: seq<T>, p: T -> bool)
    ensures forall x :: multiset(Filter(s, p))[x] == if p(x) then multiset(s)[x] else 0
  {
    if s != [] {
      FilterMultiset(s[1..], p);
      assert s == [s[0]] + s[1..];
    }
  }

  /** `a` is obtained from `b` by deleting elements: an order-preserving subsequence. */
  ghost predicate IsSubseq<T>(a: seq<T>, b: seq<T>) {
    if b == [] then a == []
    else IsSubseq(a, b[1..]) || (a != [] && a[0] == b[0] && IsSubseq(a[1..], b[1..]))
  }

  lemma {:induction false} FilterIsSubseq<T>(s: seq<T>, p: T -> bool)
    ensures IsSubseq(Filter(s, p), s)
  {
    if s != [] {
      var f := Filter(s[1..], p);
      FilterIsSubseq(s[1..], p);
      if p(s[0]) {
        assert Filter(s, p) == [s[0]] + f;
        assert ([s[0]] + f)[1..] == f;
      } else {
        assert Filter(s, p) == f;
      }
    }
  }

  lemma {:induction false} FilterAppend<T>(a: seq<T>, b: seq<T>, p: T -> bool)
    ensures Filter(a + b, p) == Filter(a, p) + Filter(b, p)
  {
    if a == [] {
      assert a + b == b;
    } else {
      assert (a + b)[0] == a[0];
      assert (a + b)[1..] == a[1..] + b;
      FilterAppend(a[1..], b, p);
      var h: seq<T> := if p(a[0]) then [a[0]] else [];
      assert Filter(a + b, p) == h + Filter(a[1..] + b, p);
      assert Filter(a, p) == h + Filter(a[1..], p);
    }
  }

  /** Filtering with a predicate that every element meets keeps the whole sequence. */
  lemma {:induction false} FilterAll<T>(s: seq<T>, p: T -> bool)
    requires forall i :: 0 <= i < |s| ==> p(s[i])
    ensures Filter(s, p) == s
  {
    if s != [] {
      FilterAll(s[1..], p);
    }
  }

  /** Two predicates that agree on every element filter alike. */
  lemma {:induction false} FilterExt<T>(s: seq<T>, p: T -> bool, q: T -> bool)
    requires forall i :: 0 <= i < |s| ==> p(s[i]) == q(s[i])
    ensures Filter(s, p) == Filter(s, q)
  {
    if s != [] {
      FilterExt(s[1..], p, q);
    }
  }

  /** Number of elements that satisfy `p` (`s.filter(p).length`). */
  function Count<T(==)>(s: seq<T>, p: T -> bool): nat {
    |Filter(s, p)|
  }

  /** `s.findIndex(p)`, with `|s|` standing for JavaScript's `-1`. */
  function FindIndex<T>(s: seq<T>, p: T -> bool): (k: nat)
    ensures k <= |s|
    ensures k < |s| ==> p(s[k])
    ensures forall i :: 0 <= i < k ==> !p(s[i])
  {
    if s == [] then 0 else if p(s[0]) then 0 else 1 + FindIndex(s[1..], p)
  }

  /** The result of `copy.splice(i, 1)` on a copy of `s`, for a non-negative `i`. */
  function RemoveAt<T>(s: seq<T>, i: nat): (r: seq<T>)
    ensures i < |s| ==> |r| == |s| - 1
    ensures i < |s| ==> forall k :: 0 <= k < i ==> r[k] == s[k]
    ensures i < |s| ==> forall k :: i <= k < |r| ==> r[k] == s[k + 1]
    ensures i < |s| ==> multiset(r) + multiset{s[i]} == multiset(s)
    ensures i >= |s| ==> r == s
  {
    if i < |s| then
      assert s == s[..i] + [s[i]] + s[i + 1..];
      s[..i] + s[i + 1..]
    else s
  }

  /** The result of `copy.splice(i, 0, x)` on a copy of `s`, for a non-negative `i`. */
  function InsertAt<T>(s: seq<T>, i: nat, x: T): (r: seq<T>)
    ensures |r| == |s| + 1
    ensures i <= |s| ==> r[i] == x
    ensures forall k :: 0 <= k < i && k < |s| ==> r[k] == s[k]
    ensures forall k :: i <= k < |s| ==> r[k + 1] == s[k]
    ensures multiset(r) == multiset(s) + multiset{x}
  {
    if i <= |s| then
      assert s == s[..i] + s[i..];
      s[..i] + [x] + s[i..]
    else s + [x]
  }

  /** Removing what was inserted at the same place gives the original back. */
  lemma InsertThenRemove<T>(s: seq<T>, i: nat, x: T)
    requires i <= |s|
    ensures RemoveAt(InsertAt(s, i, x), i) == s
  {
    var r := InsertAt(s, i, x);
    assert RemoveAt(r, i) == r[..i] + r[i + 1..];
  }

  /** `const copy = [...s]; copy.splice(i, 1);` on an array, element by element. */
  method SpliceRemove<T>(s: seq<T>, i: nat) returns (r: seq<T>)
    ensures r == RemoveAt(s, i)
  {
    if i >= |s| {
      return s;
    }
    var a := new T[|s|](k requires 0 <= k < |s| => s[k]);
    var j := i;
    while j < a.Length - 1
      invariant i <= j <= a.Length - 1
      invariant a[..j] == s[..i] + s[i + 1..j + 1]
      invariant a[j + 1..] == s[j + 1..]
    {
      a[j] := a[j + 1];
      j := j + 1;
    }
    r := a[..a.Length - 1];
  }

  /** `copy.splice(i, 0, x)` on a copied array, which grows by one slot. */
  method SpliceInsert<T>(s: seq<T>, i: nat, x: T) returns (r: seq<T>)
    ensures r == InsertAt(s, i, x)
  {
    var at := if i <= |s| then i else |s|;
    var a := new T[|s| + 1](k requires 0 <= k < |s| + 1 => if k < |s| then s[k] else x);
    var j := |s|;
    while j > at
      invariant at <= j <= |s|
      invariant a[..j] == s[..j]
      invariant a[j + 1..] == s[j..]
    {
      a[j] := a[j - 1];
      j := j - 1;
    }
    a[at] := x;
    r := a[..];
    assert r == s[..at] + [x] + s[at..];
  }

  /** `const copy = [...s]; copy[i] = x;` for an index inside the array. */
  method AssignAt<T>(s: seq<T>, i: nat, x: T) returns (r: seq<T>)
    requires i < |s|
    ensures |r| == |s| && r[i] == x
    ensures forall k :: 0 <= k < |s| && k != i ==> r[k] == s[k]
  {
    var a := new T[|s|](k requires 0 <= k < |s| => s[k]);
    a[i] := x;
    r := a[..];
  }
}
