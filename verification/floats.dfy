/** The two kinds of float division in the program. numpy divides by zero
    without raising: the result is an infinity or NaN, and `Num` keeps a finite
    value, or `None` for such a non-finite result. A plain Python float divided
    by zero raises `ZeroDivisionError`. */
module Floats {
  import opened Wrappers
  import opened Series
  import opened PyValue

  type Num = Option<real>

  /** numpy's `a / b`. */
  function Quot(a: real, b: real): (q: Num)
    ensures q.None? <==> b == 0.0
    ensures q.Some? ==> q.value * b == a
  {
    if b == 0.0 then None else Some(a / b)
  }

  /** numpy's `xs / d` for a whole series. */
  function QuotEach(xs: seq<real>, d: real): (r: seq<Num>)
    ensures |r| == |xs|
    ensures forall i :: 0 <= i < |xs| ==> r[i] == Quot(xs[i], d)
  {
    seq(|xs|, i requires 0 <= i < |xs| => Quot(xs[i], d))
  }

  /** Python's `a / b` on plain floats. */
  function Div(a: real, b: real): (r: Result<real, PyError>)
    ensures r.Failure? <==> b == 0.0
    ensures r.Failure? ==> r.error == ZeroDivisionError
    ensures r.Success? ==> r.value * b == a && Some(r.value) == Quot(a, b)
  {
    if b == 0.0 then Failure(ZeroDivisionError) else Success(a / b)
  }

  /** `[x / d for x in xs]` on plain floats: the first division raises when `d`
      is zero, so only an empty list survives a zero divisor. Where it succeeds
      it agrees with numpy's division. */
  function DivEach(xs: seq<real>, d: real): (r: Result<seq<real>, PyError>)
    ensures r.Failure? <==> d == 0.0 && |xs| > 0
    ensures r.Failure? ==> r.error == ZeroDivisionError
    ensures r.Success? ==> |r.value| == |xs| && forall i :: 0 <= i < |xs| ==> r.value[i] * d == xs[i]
    ensures r.Success? ==> Present(r.value) == QuotEach(xs, d)
  {
    if |xs| == 0 then Success([])
    else if d == 0.0 then Failure(ZeroDivisionError)
    else Success(DivideBy(xs, d))
  }

  /** pandas' row sum, which skips NaN: the sum of the finite entries. */
  function SkipNaNSum(xs: seq<Num>): (s: real)
    ensures (forall i :: 0 <= i < |xs| ==> xs[i].Some?) ==> NumSum(xs) == Some(s)
  {
    if |xs| == 0 then 0.0
    else
      assert forall i :: 1 <= i < |xs| ==> xs[i] == xs[1..][i - 1];
      (if xs[0].Some? then xs[0].value else 0.0) + SkipNaNSum(xs[1..])
  }

  /** A NaN entry adds nothing to pandas' row sum: it sums like a 0. */
  lemma {:induction false} NaNCountsAsZero(xs: seq<Num>, i: nat)
    requires i < |xs| && xs[i].None?
    ensures SkipNaNSum(xs[i := Some(0.0)]) == SkipNaNSum(xs)
  {
    if i > 0 {
      assert xs[i := Some(0.0)][1..] == xs[1..][i - 1 := Some(0.0)];
      NaNCountsAsZero(xs[1..], i - 1);
    }
  }

  /** The sum of a series, non-finite as soon as one entry is. */
  function NumSum(xs: seq<Num>): (s: Num)
    ensures s.Some? <==> forall i :: 0 <= i < |xs| ==> xs[i].Some?
  {
    if |xs| == 0 then Some(0.0)
    else
      var rest := NumSum(xs[1..]);
      assert forall i :: 1 <= i < |xs| ==> xs[i] == xs[1..][i - 1];
      if xs[0].Some? && rest.Some? then Some(xs[0].value + rest.value) else None
  }

  lemma {:induction false} NumSumPresent(xs: seq<real>)
    ensures NumSum(Present(xs)) == Some(Sum(xs))
  {
    if |xs| > 0 {
      assert Present(xs)[1..] == Present(xs[1..]);
      NumSumPresent(xs[1..]);
    }
  }

  /** Dividing every entry and then summing is dividing the sum. */
  lemma QuotEachSum(xs: seq<real>, d: real)
    ensures d != 0.0 ==> NumSum(QuotEach(xs, d)) == Quot(Sum(xs), d)
    ensures d == 0.0 && |xs| > 0 ==> NumSum(QuotEach(xs, d)) == None
  {
    if d != 0.0 {
      assert QuotEach(xs, d) == Present(DivideBy(xs, d));
      NumSumPresent(DivideBy(xs, d));
      SumDivideBy(xs, d);
    } else if |xs| > 0 {
      assert QuotEach(xs, d)[0].None?;
    }
  }
}
