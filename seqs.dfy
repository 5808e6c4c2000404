/** The array methods the panel's list logic is built from: `filter`, `map` over a match, `slice`. */
module Seqs {
  import opened Wrappers

  /** `s.filter(p)` */
  function Filter<T>(s: seq<T>, p: T -> bool): (r: seq<T>)
    ensures |r| <= |s|
    ensures forall x :: x in r ==> x in s && p(x)
  {
    if s == [] then [] else (if p(s[0]) then [s[0]] else []) + Filter(s[1..], p)
  }

  /** Filtering distributes over concatenation: kept items stay in their original order. */
  lemma {:induction false} FilterConcat<T>(s: seq<T>, t: seq<T>, p: T -> bool)
    ensures Filter(s + t, p) == Filter(s, p) + Filter(t, p)
  {
    if s == [] {
      assert s + t == t;
    } else {
      assert (s + t)[0] == s[0] && (s + t)[1..] == s[1..] + t;
      FilterConcat(s[1..], t, p);
    }
  }

  /** Filtering keeps every occurrence of each item that satisfies `p` and no other item. */
  lemma {:induction false} FilterMultiset<T>(s: seq<T>, p: T -> bool, x: T)
    ensures multiset(Filter(s, p))[x] == if p(x) then multiset(s)[x] else 0
  {
    if s != [] {
      FilterMultiset(s[1..], p, x);
      assert s == [s[0]] + s[1..];
      assert multiset(s) == multiset([s[0]]) + multiset(s[1..]);
    }
  }

  /** When every item satisfies `p`, filtering returns the sequence unchanged. */
  lemma {:induction false} FilterAll<T>(s: seq<T>, p: T -> bool)
    requires forall i :: 0 <= i < |s| ==> p(s[i])
    ensures Filter(s, p) == s
  {
    if s != [] {
      FilterAll(s[1..], p);
      assert [s[0]] + s[1..] == s;
    }
  }

  /** Filtering depends only on which items pass, not on how the test is written. */
  lemma {:induction false} FilterExtensional<T>(s: seq<T>, p: T -> bool, q: T -> bool)
    requires forall x :: p(x) == q(x)
    ensures Filter(s, p) == Filter(s, q)
  {
    if s != [] {
      FilterExtensional(s[1..], p, q);
    }
  }

  /** `s.filter(p).length` */
  function Count<T>(s: seq<T>, p: T -> bool): nat {
    |Filter(s, p)|
  }

  /** Counting within a filtered sequence never finds more than counting in the whole one. */
  lemma {:induction false} CountFilterAtMost<T>(s: seq<T>, p: T -> bool, q: T -> bool)
    ensures Count(Filter(s, p), q) <= Count(s, q)
  {
    if s != [] {
      CountFilterAtMost(s[1..], p, q);
      var rest := Filter(s[1..], p);
      assert Count(s, q) == (if q(s[0]) then 1 else 0) + Count(s[1..], q);
      if p(s[0]) {
        assert Filter(s, p) == [s[0]] + rest;
        assert ([s[0]] + rest)[1..] == rest;
        assert Count(Filter(s, p), q) == (if q(s[0]) then 1 else 0) + Count(rest, q);
      } else {
        assert Filter(s, p) == rest;
      }
    }
  }

  /** Counts of mutually exclusive conditions add up to the count of their union. */
  lemma {:induction false} CountDisjoint<T>(s: seq<T>, p: T -> bool, q: T -> bool, either: T -> bool)
    requires forall x :: !(p(x) && q(x))
    requires forall x :: either(x) == (p(x) || q(x))
    ensures Count(s, p) + Count(s, q) == Count(s, either)
  {
    if s != [] {
      CountDisjoint(s[1..], p, q, either);
    }
  }

  /** `s.map(x => p(x) ? f(x) : x)` */
  function MapWhere<T>(s: seq<T>, p: T -> bool, f: T -> T): (r: seq<T>) {
    seq(|s|, i requires 0 <= i < |s| => if p(s[i]) then f(s[i]) else s[i])
  }

  /** Mapping over a match keeps length and order, rewrites exactly the matching items. */
  lemma MapWhereAt<T>(s: seq<T>, p: T -> bool, f: T -> T, i: int)
    requires 0 <= i < |s|
    ensures |MapWhere(s, p, f)| == |s|
    ensures p(s[i]) ==> MapWhere(s, p, f)[i] == f(s[i])
    ensures !p(s[i]) ==> MapWhere(s, p, f)[i] == s[i]
  {
  }

  /** With an idempotent rewrite, mapping over a match twice equals mapping once. */
  lemma MapWhereIdempotent<T>(s: seq<T>, p: T -> bool, f: T -> T)
    requires forall x :: f(f(x)) == f(x)
    ensures MapWhere(MapWhere(s, p, f), p, f) == MapWhere(s, p, f)
  {
    var once := MapWhere(s, p, f);
    forall i | 0 <= i < |s|
      ensures MapWhere(once, p, f)[i] == once[i]
    {
      if p(s[i]) {
        assert once[i] == f(s[i]);
        assert f(once[i]) == once[i];
      }
    }
  }

  /** `s.map(f)` */
  function MapAll<A, B>(s: seq<A>, f: A -> B): (r: seq<B>)
    ensures |r| == |s| && forall k :: 0 <= k < |s| ==> r[k] == f(s[k])
  {
    seq(|s|, k requires 0 <= k < |s| => f(s[k]))
  }

  /** Mapping a sequence with a first item maps that item, then the rest. */
  lemma MapAllCons<A, B>(a: A, s: seq<A>, f: A -> B)
    ensures MapAll([a] + s, f) == [f(a)] + MapAll(s, f)
  {
    var l := MapAll([a] + s, f);
    var r := [f(a)] + MapAll(s, f);
    forall k | 0 <= k < |l|
      ensures l[k] == r[k]
    {
      if k > 0 {
        assert ([a] + s)[k] == s[k - 1];
      }
    }
  }

  /** `s.slice(0, n)` */
  function Take<T>(s: seq<T>, n: nat): (r: seq<T>)
    ensures |r| == if n < |s| then n else |s|
    ensures r == s[..|r|]
  {
    if n < |s| then s[..n] else s
  }

  /** `s.findIndex(p)`, with `|s|` standing for "not found". */
  function FindIndex<T>(s: seq<T>, p: T -> bool): (i: nat)
    ensures i <= |s|
    ensures i < |s| ==> p(s[i])
    ensures forall j :: 0 <= j < i ==> !p(s[j])
  {
    if s == [] then 0
    else if p(s[0]) then 0
    else 1 + FindIndex(s[1..], p)
  }

  /** `s.find(p)`: the first item satisfying `p`, if any. */
  function Find<T>(s: seq<T>, p: T -> bool): Option<T> {
    var i := FindIndex(s, p);
    if i < |s| then Some(s[i]) else None
  }

  /** `find` fails exactly when no item satisfies `p`. */
  lemma FindNone<T>(s: seq<T>, p: T -> bool)
    ensures Find(s, p).None? <==> forall i :: 0 <= i < |s| ==> !p(s[i])
  {
  }
}
