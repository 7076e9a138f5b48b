/** Small value types and real-number helpers shared by every module. */
module Common {

  datatype Option<+T> = None | Some(value: T)

  function MinR(a: real, b: real): real {
    if b < a then b else a
  }

  function MaxR(a: real, b: real): real {
    if b > a then b else a
  }

  function AbsR(a: real): real {
    if a < 0.0 then -a else a
  }

  function AbsI(a: int): nat {
    if a < 0 then -a else a
  }

  function MinI(a: int, b: int): int {
    if b < a then b else a
  }

  function MaxI(a: int, b: int): int {
    if b > a then b else a
  }

  /** Sum of a sequence of reals, last element outermost. */
  function Sum(xs: seq<real>): real {
    if |xs| == 0 then 0.0 else Sum(xs[..|xs| - 1]) + xs[|xs| - 1]
  }

  lemma {:induction false} SumAppend(xs: seq<real>, x: real)
    ensures Sum(xs + [x]) == Sum(xs) + x
  {
    assert (xs + [x])[..|xs|] == xs;
  }

  lemma {:induction false} SumConcat(xs: seq<real>, ys: seq<real>)
    ensures Sum(xs + ys) == Sum(xs) + Sum(ys)
  {
    if |ys| == 0 {
      assert xs + ys == xs;
    } else {
      var n := |ys| - 1;
      SumConcat(xs, ys[..n]);
      assert (xs + ys)[..|xs + ys| - 1] == xs + ys[..n];
    }
  }

  /** Taking one element out of a sequence takes it out of the sum. */
  lemma {:induction false} SumRemove(xs: seq<real>, j: nat)
    requires j < |xs|
    ensures Sum(xs[..j] + xs[j + 1..]) == Sum(xs) - xs[j]
  {
    assert xs == xs[..j] + [xs[j]] + xs[j + 1..];
    SumConcat(xs[..j], xs[j + 1..]);
    SumConcat(xs[..j] + [xs[j]], xs[j + 1..]);
    SumAppend(xs[..j], xs[j]);
  }

  lemma {:induction false} SumUpdate(xs: seq<real>, j: nat, x: real)
    requires j < |xs|
    ensures Sum(xs[j := x]) == Sum(xs) - xs[j] + x
  {
    var ys := xs[j := x];
    SumRemove(xs, j);
    SumRemove(ys, j);
    assert ys[..j] + ys[j + 1..] == xs[..j] + xs[j + 1..];
  }

  /** Sums are monotone in their elements. */
  lemma {:induction false} SumMonotone(xs: seq<real>, ys: seq<real>)
    requires |xs| == |ys|
    requires forall i :: 0 <= i < |xs| ==> xs[i] <= ys[i]
    ensures Sum(xs) <= Sum(ys)
  {
    if |xs| > 0 {
      SumMonotone(xs[..|xs| - 1], ys[..|ys| - 1]);
    }
  }

  lemma MulMono(a: real, b: real, k: real)
    requires a <= b && 0.0 <= k
    ensures a * k <= b * k
  {
  }

  /** A positive factor keeps signs and order. */
  lemma SignTimes(a: real, k: real)
    requires k > 0.0
    ensures a * k > 0.0 <==> a > 0.0
    ensures a * k >= 0.0 <==> a >= 0.0
  {
  }

  lemma AtMostScaled(a: real, b: real, k: real)
    requires k > 0.0
    ensures a <= b <==> a * k <= b * k
  {
    if a <= b { MulMono(a, b, k); } else { assert (a - b) * k > 0.0; }
  }
}
