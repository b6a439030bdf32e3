/** Option and Result: Go's nil pointers and error returns. Error wording is not modelled. */
module Prelude {
  datatype Option<+T> = None | Some(value: T) {
    function GetOr(fallback: T): T {
      if Some? then value else fallback
    }
  }

  datatype Result<+T> = Ok(value: T) | Err

  /** What f makes of each element, or an error if it fails on one. */
  function Collect<T, U>(xs: seq<T>, f: T -> Result<U>): Result<seq<U>> {
    if xs == [] then Ok([])
    else
      var before, last := Collect(xs[..|xs| - 1], f), f(xs[|xs| - 1]);
      if before.Err? || last.Err? then Err else Ok(before.value + [last.value])
  }

  lemma {:induction false} CollectAgrees<T, U>(xs: seq<T>, f: T -> Result<U>, g: T -> Result<U>)
    requires forall x :: x in xs ==> f(x) == g(x)
    ensures Collect(xs, f) == Collect(xs, g)
  {
    if xs != [] {
      CollectAgrees(xs[..|xs| - 1], f, g);
    }
  }

  lemma {:induction false} CollectFails<T, U>(xs: seq<T>, f: T -> Result<U>, i: nat)
    requires i < |xs| && f(xs[i]).Err?
    ensures Collect(xs, f).Err?
  {
    if i < |xs| - 1 {
      CollectFails(xs[..|xs| - 1], f, i);
    }
  }

  lemma {:induction false} CollectSucceeds<T, U>(xs: seq<T>, f: T -> Result<U>)
    requires forall x :: x in xs ==> f(x).Ok?
    ensures Collect(xs, f).Ok?
  {
    if xs != [] {
      CollectSucceeds(xs[..|xs| - 1], f);
    }
  }

  /** The k-th result is that of the k-th element. */
  lemma {:induction false} CollectAt<T, U>(xs: seq<T>, f: T -> Result<U>, k: nat)
    requires Collect(xs, f).Ok? && k < |xs|
    ensures |Collect(xs, f).value| == |xs| && f(xs[k]) == Ok(Collect(xs, f).value[k])
  {
    if k < |xs| - 1 {
      CollectAt(xs[..|xs| - 1], f, k);
    } else if |xs| > 1 {
      CollectAt(xs[..|xs| - 1], f, 0);
    }
  }
}
