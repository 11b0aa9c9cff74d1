/** The LINQ sequence operators the library calls, with their treatment of out-of-range counts. */
module Linq {

  /** `Skip(count)`: a count at or below zero skips nothing; one past the end leaves nothing. */
  function Skip<T>(s: seq<T>, count: int): (r: seq<T>)
    ensures count <= 0 ==> r == s
    ensures 0 <= count <= |s| ==> r == s[count..]
    ensures count >= |s| ==> r == []
  {
    if count <= 0 then s else if count >= |s| then [] else s[count..]
  }

  /** `Take(count)`: a count at or below zero takes nothing; one past the end takes everything. */
  function Take<T>(s: seq<T>, count: int): (r: seq<T>)
    ensures count <= 0 ==> r == []
    ensures 0 <= count <= |s| ==> r == s[..count]
    ensures count >= |s| ==> r == s
  {
    if count <= 0 then [] else if count >= |s| then s else s[..count]
  }

  /**
   * `Take(n)` and `Skip(n)` cut a list in two at the clamped count; `Skip(i).Take(n)` is the window
   * of at most n elements that starts at element i.
   */
  lemma TakeSkipWindow<T>(s: seq<T>, i: int, n: int)
    ensures Take(s, n) + Skip(s, n) == s
    ensures |Take(s, n)| == if n <= 0 then 0 else if n >= |s| then |s| else n
    ensures i >= 0 ==>
              var w := Take(Skip(s, i), n);
              && |w| == (if n <= 0 || i >= |s| then 0 else if i + n >= |s| then |s| - i else n)
              && forall k :: 0 <= k < |w| ==> w[k] == s[i + k]
  {
    if 0 < n < |s| {
      assert s[..n] + s[n..] == s;
    }
  }

  /** `Select(f)`: f applied to each element, in order. */
  function Map<A, B>(f: A -> B, s: seq<A>): (r: seq<B>)
    ensures |r| == |s|
    decreases |s|
  {
    if s == [] then [] else Map(f, s[..|s| - 1]) + [f(s[|s| - 1])]
  }

  lemma {:induction false} MapAt<A, B>(f: A -> B, s: seq<A>, i: nat)
    requires i < |s|
    ensures Map(f, s)[i] == f(s[i])
    decreases |s|
  {
    if i < |s| - 1 {
      MapAt(f, s[..|s| - 1], i);
    }
  }

  lemma MapSnoc<A, B>(f: A -> B, s: seq<A>, x: A)
    ensures Map(f, s + [x]) == Map(f, s) + [f(x)]
  {
    assert (s + [x])[..|s|] == s;
  }

  /** The lists one after the other (`SelectMany`, `AddRange` in a loop). */
  function Flatten<T>(ss: seq<seq<T>>): seq<T>
    decreases |ss|
  {
    if ss == [] then [] else Flatten(ss[..|ss| - 1]) + ss[|ss| - 1]
  }

  lemma FlattenSnoc<T>(ss: seq<seq<T>>, x: seq<T>)
    ensures Flatten(ss + [x]) == Flatten(ss) + x
  {
    assert (ss + [x])[..|ss|] == ss;
  }

  lemma {:induction false} FlattenAppend<T>(a: seq<seq<T>>, b: seq<seq<T>>)
    ensures Flatten(a + b) == Flatten(a) + Flatten(b)
    decreases |b|
  {
    if b == [] {
      assert a + b == a;
    } else {
      var b', x := b[..|b| - 1], b[|b| - 1];
      assert a + b == (a + b') + [x] by { assert b == b' + [x]; }
      FlattenAppend(a, b');
      FlattenSnoc(a + b', x);
    }
  }

  /** `Sum()` over unbounded integers. */
  function Sum(s: seq<int>): int
    decreases |s|
  {
    if s == [] then 0 else Sum(s[..|s| - 1]) + s[|s| - 1]
  }

  lemma SumSnoc(s: seq<int>, x: int)
    ensures Sum(s + [x]) == Sum(s) + x
  {
    assert (s + [x])[..|s|] == s;
  }

  /** Concatenation regrouped; stated once so that long chains of appends need not be re-derived. */
  lemma AppendAssoc<T>(a: seq<T>, b: seq<T>, c: seq<T>)
    ensures a + (b + c) == (a + b) + c
  {
  }
}
