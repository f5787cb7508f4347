/** Option, Result and the few sequence functions several components share. */
module Prelude {
  datatype Option<+T> = None | Some(value: T)

  datatype Result<+T, +E> = Ok(value: T) | Err(error: E)

  /** The last `n` elements of `s`, or all of it when it is shorter (a `split_off` of the tail). */
  function LastN<T>(s: seq<T>, n: nat): seq<T> {
    if |s| <= n then s else s[|s| - n..]
  }

  lemma {:induction false} LastNAppend<T>(s: seq<T>, x: T, n: nat)
    ensures LastN(s + [x], n) == if n == 0 then [] else LastN(s, n - 1) + [x]
  {
  }

  lemma {:induction false} LastNTwice<T>(s: seq<T>, m: nat, n: nat)
    requires n <= m
    ensures LastN(LastN(s, m), n) == LastN(s, n)
  {
  }

  lemma {:induction false} LastNConcat<T>(s: seq<T>, t: seq<T>, n: nat)
    ensures LastN(LastN(s, n) + t, n) == LastN(s + t, n)
  {
    if |s| > n {
      var cut := |s| - n;
      assert (s[cut..] + t)[|t|..] == (s + t)[cut + |t|..];
    }
  }

  lemma {:induction false} Assoc<T>(a: seq<T>, b: seq<T>, c: seq<T>)
    ensures (a + b) + c == a + (b + c)
  {
  }

  /** The position of the first `x`, or the length. */
  function Find<T(==)>(s: seq<T>, x: T): (i: nat)
    ensures i <= |s|
    ensures i < |s| ==> s[i] == x
    ensures forall k :: 0 <= k < i ==> s[k] != x
  {
    if s == [] || s[0] == x then 0 else 1 + Find(s[1..], x)
  }

  lemma {:induction false} FindUnique<T>(s: seq<T>, x: T, n: nat)
    requires n <= |s| && (n < |s| ==> s[n] == x) && forall k :: 0 <= k < n ==> s[k] != x
    ensures Find(s, x) == n
  {
    var i := Find(s, x);
    assert i < |s| ==> i >= n;
  }

  lemma {:induction false} FindAppend<T>(a: seq<T>, x: T, b: seq<T>)
    requires x !in a
    ensures Find(a + [x] + b, x) == |a|
    ensures Find(a, x) == |a|
  {
    FindUnique(a + [x] + b, x, |a|);
    FindUnique(a, x, |a|);
  }

  /** `f` on every element, or the error of the first element that has one. */
  function Traverse<A, B, E>(f: A -> Result<B, E>, xs: seq<A>): (r: Result<seq<B>, E>)
    ensures r.Ok? ==> |r.value| == |xs|
  {
    if xs == [] then Ok([])
    else
      match Traverse(f, xs[..|xs| - 1])
      case Err(e) => Err(e)
      case Ok(ys) =>
        match f(xs[|xs| - 1])
        case Err(e) => Err(e)
        case Ok(y) => Ok(ys + [y])
  }

  lemma {:induction false} TraverseSnoc<A, B, E>(f: A -> Result<B, E>, xs: seq<A>, x: A)
    ensures Traverse(f, xs + [x]) ==
              match Traverse(f, xs)
              case Err(e) => Err(e)
              case Ok(ys) => match f(x) case Err(e) => Err(e) case Ok(y) => Ok(ys + [y])
  {
    assert (xs + [x])[..|xs|] == xs;
  }

  /** It succeeds exactly when every element does, and then element by element. */
  lemma {:induction false} TraverseOk<A, B, E>(f: A -> Result<B, E>, xs: seq<A>)
    ensures Traverse(f, xs).Ok? <==> forall k :: 0 <= k < |xs| ==> f(xs[k]).Ok?
    ensures Traverse(f, xs).Ok? ==> forall k :: 0 <= k < |xs| ==> f(xs[k]) == Ok(Traverse(f, xs).value[k])
  {
    if xs != [] {
      TraverseOk(f, xs[..|xs| - 1]);
    }
  }

  /** An error is that of the first element that has one. */
  lemma {:induction false} TraverseErr<A, B, E>(f: A -> Result<B, E>, xs: seq<A>, k: nat)
    requires k < |xs| && f(xs[k]).Err? && forall j :: 0 <= j < k ==> f(xs[j]).Ok?
    ensures Traverse(f, xs) == Err(f(xs[k]).error)
  {
    var n := |xs| - 1;
    if k == n {
      TraverseOk(f, xs[..n]);
    } else {
      TraverseErr(f, xs[..n], k);
    }
  }
}
