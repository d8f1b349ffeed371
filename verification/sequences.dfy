/** Sequence building blocks for the table loops of `DatabaseCommon.Load`. */
module Sequences {
  import opened Results

  /** The loop `for (i = start; i < n; i++) table[i] = f(i);` where every `f(i)`
      may abort the load: the loop stops at the first failing index. */
  function CollectFrom<T, E>(start: nat, n: nat, f: nat --> Result<T, E>): (r: Result<seq<T>, E>)
    requires start <= n
    requires forall i :: start <= i < n ==> f.requires(i)
    ensures r.Success? <==> forall i :: start <= i < n ==> f(i).Success?
    ensures r.Success? ==> |r.value| == n - start
    ensures r.Success? ==> forall i :: start <= i < n ==> f(i) == Success(r.value[i - start])
    ensures r.Failure? ==>
      exists j :: start <= j < n && f(j) == Failure(r.error) && forall i :: start <= i < j ==> f(i).Success?
    decreases n - start
  {
    if n == start then Success([])
    else
      match f(start)
      case Failure(e) => Failure(e)
      case Success(x) =>
        match CollectFrom(start + 1, n, f)
        case Failure(e) => Failure(e)
        case Success(xs) => Success([x] + xs)
  }

  /** The whole loop over ordinals 0..n-1. */
  function Collect<T, E>(n: nat, f: nat --> Result<T, E>): (r: Result<seq<T>, E>)
    requires forall i :: 0 <= i < n ==> f.requires(i)
    ensures r.Success? <==> forall i :: 0 <= i < n ==> f(i).Success?
    ensures r.Success? ==> |r.value| == n && forall i :: 0 <= i < n ==> f(i) == Success(r.value[i])
    ensures r.Failure? ==>
      exists j :: 0 <= j < n && f(j) == Failure(r.error) && forall i :: 0 <= i < j ==> f(i).Success?
  {
    CollectFrom(0, n, f)
  }

  /** The concatenation g(start) + g(start + 1) + ... + g(n - 1). */
  function FlattenFrom<T>(start: nat, n: nat, g: nat --> seq<T>): (r: seq<T>)
    requires forall i :: start <= i < n ==> g.requires(i)
    decreases n - start
  {
    if n <= start then [] else g(start) + FlattenFrom(start + 1, n, g)
  }

  /** Every element of a concatenation comes from one of its parts. */
  lemma {:induction false} InFlattenFrom<T>(start: nat, n: nat, g: nat --> seq<T>, x: T)
    requires forall i :: start <= i < n ==> g.requires(i)
    requires x in FlattenFrom(start, n, g)
    ensures exists i :: start <= i < n && x in g(i)
    decreases n - start
  {
    if x !in g(start) {
      InFlattenFrom(start + 1, n, g, x);
    }
  }

  /** `Array.Resize(ref s, n)`: a new array of length n holding the first
      min(|s|, n) elements of s, the remaining slots holding the default value. */
  function Resize<T>(s: seq<T>, n: nat, default: T): (r: seq<T>)
    ensures |r| == n
    ensures forall k :: 0 <= k < n ==> r[k] == (if k < |s| then s[k] else default)
  {
    if n == 0 then []
    else if |s| == 0 then [default] + Resize(s, n - 1, default)
    else [s[0]] + Resize(s[1..], n - 1, default)
  }

  /** Number of occurrences of x in s. */
  function Count<T(==)>(s: seq<T>, x: T): nat
  {
    if |s| == 0 then 0 else (if s[0] == x then 1 else 0) + Count(s[1..], x)
  }

  lemma {:induction false} CountAppend<T>(a: seq<T>, b: seq<T>)
    ensures forall x :: Count(a + b, x) == Count(a, x) + Count(b, x)
  {
    if |a| == 0 {
      assert a + b == b;
    } else {
      assert (a + b)[1..] == a[1..] + b;
      CountAppend(a[1..], b);
    }
  }

  /** The first components of a sequence of pairs. */
  function Firsts<A, B>(ps: seq<(A, B)>): (r: seq<A>)
    ensures |r| == |ps| && forall k :: 0 <= k < |ps| ==> r[k] == ps[k].0
  {
    seq(|ps|, (k: int) requires 0 <= k < |ps| => ps[k].0)
  }

  /** The second components of a sequence of pairs. */
  function Seconds<A, B>(ps: seq<(A, B)>): (r: seq<B>)
    ensures |r| == |ps| && forall k :: 0 <= k < |ps| ==> r[k] == ps[k].1
  {
    seq(|ps|, (k: int) requires 0 <= k < |ps| => ps[k].1)
  }
}
