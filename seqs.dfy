/**
 * Sequence operations the components borrow from JavaScript's arrays:
 * `filter` (Keep) and `splice(index, 1)` (SpliceOne), with the facts the
 * rest of the model needs about them.
 */
module Seqs {

  /** `r` can be obtained from `s` by deleting elements: same order, nothing new. */
  ghost predicate IsSubsequence<T>(r: seq<T>, s: seq<T>)
    decreases |s|
  {
    if r == [] then true
    else if s == [] then false
    else (r[0] == s[0] && IsSubsequence(r[1..], s[1..])) || IsSubsequence(r, s[1..])
  }

  /** The elements of `s` that satisfy `p`, in their original order (`s.filter(p)`). */
  function Keep<T>(s: seq<T>, p: T -> bool): (r: seq<T>)
    ensures |r| <= |s|
    ensures forall x :: x in r ==> p(x)
  {
    if s == [] then [] else (if p(s[0]) then [s[0]] else []) + Keep(s[1..], p)
  }

  lemma {:induction false} KeepMembership<T>(s: seq<T>, p: T -> bool, x: T)
    ensures x in Keep(s, p) <==> x in s && p(x)
  {
    if s != [] {
      KeepMembership(s[1..], p, x);
      assert s == [s[0]] + s[1..];
    }
  }

  /** Every element satisfying `p` keeps its multiplicity; every other one is gone. */
  lemma {:induction false} KeepCount<T>(s: seq<T>, p: T -> bool, x: T)
    ensures multiset(Keep(s, p))[x] == if p(x) then multiset(s)[x] else 0
  {
    if s != [] {
      KeepCount(s[1..], p, x);
      assert s == [s[0]] + s[1..];
      assert multiset(s) == multiset{s[0]} + multiset(s[1..]);
    }
  }

  lemma {:induction false} KeepSubsequence<T>(s: seq<T>, p: T -> bool)
    ensures IsSubsequence(Keep(s, p), s)
  {
    if s != [] {
      KeepSubsequence(s[1..], p);
      var rest := Keep(s[1..], p);
      if p(s[0]) {
        assert Keep(s, p) == [s[0]] + rest;
        assert ([s[0]] + rest)[1..] == rest;
      } else {
        assert Keep(s, p) == rest;
        SubsequenceOfTail(rest, s);
      }
    }
  }

  lemma SubsequenceOfTail<T>(r: seq<T>, s: seq<T>)
    requires s != [] && IsSubsequence(r, s[1..])
    ensures IsSubsequence(r, s)
  {
  }

  lemma {:induction false} KeepAppend<T>(a: seq<T>, b: seq<T>, p: T -> bool)
    ensures Keep(a + b, p) == Keep(a, p) + Keep(b, p)
  {
    if a == [] {
      assert a + b == b;
    } else {
      var ab := a + b;
      assert ab[0] == a[0] && ab[1..] == a[1..] + b;
      var head := if p(a[0]) then [a[0]] else [];
      calc {
        Keep(ab, p);
        head + Keep(a[1..] + b, p);
        { KeepAppend(a[1..], b, p); }
        head + (Keep(a[1..], p) + Keep(b, p));
        (head + Keep(a[1..], p)) + Keep(b, p);
      }
    }
  }

  /** Filtering by `p` and then by `q` is filtering once by their conjunction. */
  lemma {:induction false} KeepFuse<T>(s: seq<T>, p: T -> bool, q: T -> bool, pq: T -> bool)
    requires forall x :: pq(x) == (p(x) && q(x))
    ensures Keep(Keep(s, p), q) == Keep(s, pq)
  {
    if s != [] {
      KeepFuse(s[1..], p, q, pq);
      var rest := Keep(s[1..], p);
      if p(s[0]) {
        assert Keep(s, p) == [s[0]] + rest;
        assert ([s[0]] + rest)[1..] == rest;
      } else {
        assert Keep(s, p) == rest;
      }
    }
  }

  /** Two predicates that agree on the elements of `s` keep the same elements. */
  lemma {:induction false} KeepAgree<T>(s: seq<T>, p: T -> bool, q: T -> bool)
    requires forall x :: x in s ==> p(x) == q(x)
    ensures Keep(s, p) == Keep(s, q)
  {
    if s != [] {
      assert forall x :: x in s[1..] ==> x in s;
      KeepAgree(s[1..], p, q);
    }
  }

  lemma {:induction false} KeepEverything<T>(s: seq<T>, p: T -> bool)
    requires forall x :: x in s ==> p(x)
    ensures Keep(s, p) == s
  {
    if s != [] {
      assert forall x :: x in s[1..] ==> x in s;
      KeepEverything(s[1..], p);
      assert s == [s[0]] + s[1..];
    }
  }

  /** Where `splice(index, 1)` starts: a negative index counts from the end, both ends are clamped. */
  function SpliceStart(len: nat, index: int): (k: nat)
    ensures k <= len
    ensures 0 <= index <= len ==> k == index
    ensures -(len as int) <= index < 0 ==> k == len + index
    ensures index > len ==> k == len
    ensures index < -(len as int) ==> k == 0
  {
    if index < 0 then (if len + index < 0 then 0 else len + index)
    else if index < len then index else len
  }

  /** `s` after `s.splice(index, 1)`: at most one element is removed. */
  function SpliceOne<T>(s: seq<T>, index: int): (r: seq<T>)
    ensures |r| == if SpliceStart(|s|, index) < |s| then |s| - 1 else |s|
    ensures forall j :: 0 <= j < SpliceStart(|s|, index) ==> r[j] == s[j]
    ensures forall j :: SpliceStart(|s|, index) <= j < |r| ==> r[j] == s[j + 1]
  {
    var k := SpliceStart(|s|, index);
    if k < |s| then s[..k] + s[k + 1..] else s
  }

  /** For an index inside the list exactly that element goes, and nothing else. */
  lemma SpliceOneInRange<T>(s: seq<T>, i: int)
    requires 0 <= i < |s|
    ensures |SpliceOne(s, i)| == |s| - 1
    ensures SpliceOne(s, i) == s[..i] + s[i + 1..]
    ensures multiset(SpliceOne(s, i)) + multiset{s[i]} == multiset(s)
  {
    assert s == s[..i] + [s[i]] + s[i + 1..];
  }
}
