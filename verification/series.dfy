/** Real-valued time series: sums, elementwise scaling and division, elementwise
    addition, the column sums of a table of equally long series (pandas'
    `sum(axis=1)` over the plant columns, numpy's `sum(axis=0)` over the plant rows),
    and the replacement of missing values by zero (`fillna(0)`). */
module Series {
  import opened Wrappers

  /** Sum of a series, 0 for the empty one. */
  function Sum(xs: seq<real>): real
  {
    if |xs| == 0 then 0.0 else xs[0] + Sum(xs[1..])
  }

  /** Sum distributes over concatenation. */
  lemma {:induction false} SumAppend(a: seq<real>, b: seq<real>)
    ensures Sum(a + b) == Sum(a) + Sum(b)
  {
    if |a| > 0 {
      assert (a + b)[1..] == a[1..] + b;
      SumAppend(a[1..], b);
    } else {
      assert a + b == b;
    }
  }

  /** A series whose every entry is `a` sums to its length times `a`. */
  lemma {:induction false} SumConstant(xs: seq<real>, a: real)
    requires forall i :: 0 <= i < |xs| ==> xs[i] == a
    ensures Sum(xs) == |xs| as real * a
  {
    if |xs| > 0 {
      SumConstant(xs[1..], a);
    }
  }

  /** Every element multiplied by `k`. */
  function Scale(k: real, xs: seq<real>): (r: seq<real>)
    ensures |r| == |xs|
    ensures forall i :: 0 <= i < |xs| ==> r[i] == k * xs[i]
  {
    seq(|xs|, i requires 0 <= i < |xs| => k * xs[i])
  }

  lemma {:induction false} SumScale(k: real, xs: seq<real>)
    ensures Sum(Scale(k, xs)) == k * Sum(xs)
  {
    if |xs| > 0 {
      assert forall i :: 0 <= i < |xs| - 1 ==> Scale(k, xs)[1..][i] == k * xs[1..][i];
      assert Scale(k, xs)[1..] == Scale(k, xs[1..]);
      SumScale(k, xs[1..]);
    }
  }

  /** Two series of the same length whose entries are in proportion: `a[i] * c == b[i] * d`. */
  predicate Proportional(a: seq<real>, b: seq<real>, c: real, d: real) {
    |a| == |b| && forall i :: 0 <= i < |a| ==> InProportion(a[i], b[i], c, d)
  }

  /** `x : y` is `d : c`, written without division. */
  predicate InProportion(x: real, y: real, c: real, d: real) {
    x * c == y * d
  }

  /** Proportional series have sums in the same proportion. */
  lemma {:induction false} SumProportional(a: seq<real>, b: seq<real>, c: real, d: real)
    requires Proportional(a, b, c, d)
    ensures InProportion(Sum(a), Sum(b), c, d)
  {
    if |a| > 0 {
      assert forall i :: 0 <= i < |a| - 1 ==> a[1..][i] == a[i + 1] && b[1..][i] == b[i + 1];
      SumProportional(a[1..], b[1..], c, d);
      Distribute(a[0], Sum(a[1..]), c);
      Distribute(b[0], Sum(b[1..]), d);
    }
  }

  lemma Distribute(x: real, y: real, c: real)
    ensures (x + y) * c == x * c + y * c
  {
  }

  /** Every element divided by `d`. */
  function DivideBy(xs: seq<real>, d: real): (r: seq<real>)
    requires d != 0.0
    ensures |r| == |xs|
    ensures forall i :: 0 <= i < |xs| ==> r[i] * d == xs[i]
  {
    seq(|xs|, i requires 0 <= i < |xs| => xs[i] / d)
  }

  /** Summing the divided series is dividing the sum. */
  lemma {:induction false} SumDivideBy(xs: seq<real>, d: real)
    requires d != 0.0
    ensures Sum(DivideBy(xs, d)) == Sum(xs) / d
  {
    if |xs| > 0 {
      assert DivideBy(xs, d)[1..] == DivideBy(xs[1..], d);
      SumDivideBy(xs[1..], d);
      AddQuotients(xs[0], Sum(xs[1..]), d);
    }
  }

  lemma AddQuotients(a: real, b: real, d: real)
    requires d != 0.0
    ensures a / d + b / d == (a + b) / d
  {
  }

  /** Elementwise sum of two series of the same length. */
  function Add(a: seq<real>, b: seq<real>): (r: seq<real>)
    requires |a| == |b|
    ensures |r| == |a|
    ensures forall i :: 0 <= i < |a| ==> r[i] - b[i] == a[i]
  {
    seq(|a|, i requires 0 <= i < |a| => a[i] + b[i])
  }

  lemma {:induction false} SumAdd(a: seq<real>, b: seq<real>)
    requires |a| == |b|
    ensures Sum(Add(a, b)) == Sum(a) + Sum(b)
  {
    if |a| > 0 {
      assert Add(a, b)[1..] == Add(a[1..], b[1..]);
      SumAdd(a[1..], b[1..]);
    }
  }

  function Zeros(n: nat): (r: seq<real>)
    ensures |r| == n
    ensures forall i :: 0 <= i < n ==> r[i] == 0.0
  {
    seq(n, i => 0.0)
  }

  lemma {:induction false} SumZeros(n: nat)
    ensures Sum(Zeros(n)) == 0.0
  {
    if n > 0 {
      assert Zeros(n)[1..] == Zeros(n - 1);
      SumZeros(n - 1);
    }
  }

  /** All series of the table have length `n`. */
  predicate Rectangular(table: seq<seq<real>>, n: nat) {
    forall i :: 0 <= i < |table| ==> |table[i]| == n
  }

  /** The entries of the table at time step `t`, one per series. */
  function Column(table: seq<seq<real>>, n: nat, t: nat): (c: seq<real>)
    requires Rectangular(table, n) && t < n
    ensures |c| == |table|
    ensures forall i :: 0 <= i < |table| ==> c[i] == table[i][t]
  {
    seq(|table|, i requires 0 <= i < |table| => table[i][t])
  }

  /** The elementwise sum of the series of the table. */
  function ColumnSums(table: seq<seq<real>>, n: nat): (r: seq<real>)
    requires Rectangular(table, n)
    ensures |r| == n
    decreases |table|
  {
    if |table| == 0 then Zeros(n)
    else Add(ColumnSums(table[..|table| - 1], n), table[|table| - 1])
  }

  /** Each entry of the elementwise sum is the sum of that time step over all series. */
  lemma {:induction false} ColumnSumsAt(table: seq<seq<real>>, n: nat, t: nat)
    requires Rectangular(table, n) && t < n
    ensures ColumnSums(table, n)[t] == Sum(Column(table, n, t))
    decreases |table|
  {
    if |table| > 0 {
      var init := table[..|table| - 1];
      ColumnSumsAt(init, n, t);
      assert Column(table, n, t) == Column(init, n, t) + [table[|table| - 1][t]];
      SumAppend(Column(init, n, t), [table[|table| - 1][t]]);
      assert Sum([table[|table| - 1][t]]) == table[|table| - 1][t];
    }
  }

  /** The per-series totals. */
  function Totals(table: seq<seq<real>>): (r: seq<real>)
    ensures |r| == |table|
    ensures forall i :: 0 <= i < |table| ==> r[i] == Sum(table[i])
  {
    seq(|table|, i requires 0 <= i < |table| => Sum(table[i]))
  }

  /** Summing the elementwise sum gives the sum of the per-series totals: the fleet
      total can be read from the fleet profile or from the plant totals alike. */
  lemma {:induction false} SumColumnSums(table: seq<seq<real>>, n: nat)
    requires Rectangular(table, n)
    ensures Sum(ColumnSums(table, n)) == Sum(Totals(table))
    decreases |table|
  {
    if |table| == 0 {
      SumZeros(n);
    } else {
      var init := table[..|table| - 1];
      var last := table[|table| - 1];
      SumColumnSums(init, n);
      SumAdd(ColumnSums(init, n), last);
      assert Totals(table) == Totals(init) + [Sum(last)];
      SumAppend(Totals(init), [Sum(last)]);
      assert Sum([Sum(last)]) == Sum(last);
    }
  }

  /** `fillna(0)`: missing values become 0, present ones are kept. */
  function FillMissing(xs: seq<Option<real>>): (r: seq<real>)
    ensures |r| == |xs|
    ensures forall i :: 0 <= i < |xs| ==> (xs[i].Some? ==> r[i] == xs[i].value)
    ensures forall i :: 0 <= i < |xs| ==> (xs[i].None? ==> r[i] == 0.0)
  {
    seq(|xs|, i requires 0 <= i < |xs| => xs[i].GetOr(0.0))
  }

  /** Every element present. */
  function Present(xs: seq<real>): (r: seq<Option<real>>)
    ensures |r| == |xs|
    ensures forall i :: 0 <= i < |xs| ==> r[i] == Some(xs[i])
  {
    seq(|xs|, i requires 0 <= i < |xs| => Some(xs[i]))
  }

  /** Filling a series with nothing missing changes nothing. */
  lemma FillMissingPresent(xs: seq<real>)
    ensures FillMissing(Present(xs)) == xs
  {
  }

  /** Multiplication that propagates a missing value (NaN times k is NaN). */
  function ScaleMissing(k: real, xs: seq<Option<real>>): (r: seq<Option<real>>)
    ensures |r| == |xs|
    ensures forall i :: 0 <= i < |xs| ==> r[i].Some? == xs[i].Some?
    ensures forall i :: 0 <= i < |xs| ==> xs[i].Some? ==> r[i].value == k * xs[i].value
  {
    seq(|xs|, i requires 0 <= i < |xs| =>
      match xs[i]
      case None => None
      case Some(v) => Some(k * v))
  }
}
