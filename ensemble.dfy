/** The median ensemble of the three model forecasts (aggregateEnsemble,
    app/app.py:84-94). The three forecast tables are lined up by row position and
    each of the columns fcst, fcst_lower and fcst_upper is replaced by the
    row-wise median of the three tables' values; the time column is that of the
    first table. */
module Ensemble {

  /** A forecast table as the forecasting library returns it: one time column and
      the point estimate with its lower and upper interval bounds. Values are reals;
      the model has no NaN. */
  datatype Forecast<Time> = Forecast(time: seq<Time>, fcst: seq<real>, fcstLower: seq<real>, fcstUpper: seq<real>)
  {
    /** All four columns have the same number of rows. */
    predicate Aligned() {
      |fcst| == |time| && |fcstLower| == |time| && |fcstUpper| == |time|
    }

    function Rows(): nat {
      |time|
    }

    /** lower <= point estimate <= upper on every row. */
    predicate Banded()
      requires Aligned()
    {
      forall i :: 0 <= i < |time| ==> fcstLower[i] <= fcst[i] <= fcstUpper[i]
    }
  }

  /** The median of three values: the one in the middle. With exactly three values
      the row-wise median is the middle one, never an average. */
  function Median3(a: real, b: real, c: real): (m: real)
    // m is one of the three values
    ensures m == a || m == b || m == c
    // at least two of the values are <= m and at least two are >= m
    ensures (a <= m && b <= m) || (a <= m && c <= m) || (b <= m && c <= m)
    ensures (a >= m && b >= m) || (a >= m && c >= m) || (b >= m && c >= m)
  {
    if a <= b then
      if b <= c then b else if a <= c then c else a
    else
      if a <= c then a else if b <= c then c else b
  }

  /** The median is the middle element of the sorted values. */
  lemma Median3IsSortedMiddle(a: real, b: real, c: real, x: real, y: real, z: real)
    requires multiset{a, b, c} == multiset{x, y, z}
    requires x <= y <= z
    ensures Median3(a, b, c) == y
  {
    PermutationCases(a, b, c, x, y, z);
  }

  /** The median does not depend on the order of its arguments. */
  lemma Median3Permutation(a: real, b: real, c: real, a': real, b': real, c': real)
    requires multiset{a, b, c} == multiset{a', b', c'}
    ensures Median3(a, b, c) == Median3(a', b', c')
  {
    PermutationCases(a, b, c, a', b', c');
  }

  /** The median is monotone in each argument. */
  lemma Median3Monotone(a: real, b: real, c: real, a': real, b': real, c': real)
    requires a <= a' && b <= b' && c <= c'
    ensures Median3(a, b, c) <= Median3(a', b', c')
  {
  }

  /** (x, y, z) is (a, b, c) in some order. */
  predicate Reordering<T(==)>(a: T, b: T, c: T, x: T, y: T, z: T) {
    || (x == a && y == b && z == c) || (x == a && y == c && z == b)
    || (x == b && y == a && z == c) || (x == b && y == c && z == a)
    || (x == c && y == a && z == b) || (x == c && y == b && z == a)
  }

  /** Three values that are equal as a multiset are a reordering of one another. */
  lemma PermutationCases<T>(a: T, b: T, c: T, x: T, y: T, z: T)
    requires multiset{a, b, c} == multiset{x, y, z}
    ensures Reordering(a, b, c, x, y, z)
  {
    assert x in multiset{a, b, c};
    RemoveFirst(x, y, z);
    if x == a {
      RemoveFirst(a, b, c);
      PairCases(b, c, y, z);
    } else if x == b {
      RemoveFirst(b, a, c);
      PairCases(a, c, y, z);
    } else {
      RemoveFirst(c, a, b);
      PairCases(a, b, y, z);
    }
  }

  lemma RemoveFirst<T>(x: T, y: T, z: T)
    ensures multiset{x, y, z} - multiset{x} == multiset{y, z}
    ensures multiset{x, y, z} == multiset{y, x, z} == multiset{z, x, y}
  {
  }

  lemma PairCases<T>(b: T, c: T, y: T, z: T)
    requires multiset{b, c} == multiset{y, z}
    ensures (y == b && z == c) || (y == c && z == b)
  {
    assert y in multiset{b, c};
    if y == b {
      assert multiset{z} == multiset{b, c} - multiset{b};
    } else {
      assert multiset{z} == multiset{b, c} - multiset{c};
    }
    assert z in multiset{z};
  }

  /** Row-wise median of three equally long columns (pandas `median(axis=1)` over
      the three columns of the same name after the positional concat). */
  function MedianColumn(a: seq<real>, b: seq<real>, c: seq<real>): (r: seq<real>)
    requires |a| == |b| == |c|
    ensures |r| == |a|
    ensures forall i :: 0 <= i < |a| ==> r[i] == Median3(a[i], b[i], c[i])
  {
    if |a| == 0 then []
    else [Median3(a[0], b[0], c[0])] + MedianColumn(a[1..], b[1..], c[1..])
  }

  /** aggregateEnsemble: the inputs must have the same number of rows. */
  function AggregateEnsemble<Time>(f1: Forecast<Time>, f2: Forecast<Time>, f3: Forecast<Time>): (e: Forecast<Time>)
    requires f1.Aligned() && f2.Aligned() && f3.Aligned()
    requires f1.Rows() == f2.Rows() == f3.Rows()
    ensures e.Aligned() && e.Rows() == f1.Rows()
    ensures e.time == f1.time
    ensures forall i :: 0 <= i < e.Rows() ==>
      && e.fcst[i] == Median3(f1.fcst[i], f2.fcst[i], f3.fcst[i])
      && e.fcstLower[i] == Median3(f1.fcstLower[i], f2.fcstLower[i], f3.fcstLower[i])
      && e.fcstUpper[i] == Median3(f1.fcstUpper[i], f2.fcstUpper[i], f3.fcstUpper[i])
  {
    Forecast(f1.time,
             MedianColumn(f1.fcst, f2.fcst, f3.fcst),
             MedianColumn(f1.fcstLower, f2.fcstLower, f3.fcstLower),
             MedianColumn(f1.fcstUpper, f2.fcstUpper, f3.fcstUpper))
  }

  /** Every ensemble value is one of the three inputs' values on its row and lies
      between their minimum and maximum. */
  lemma EnsembleWithinInputs<Time>(f1: Forecast<Time>, f2: Forecast<Time>, f3: Forecast<Time>, i: nat)
    requires f1.Aligned() && f2.Aligned() && f3.Aligned()
    requires f1.Rows() == f2.Rows() == f3.Rows()
    requires i < f1.Rows()
    ensures var e := AggregateEnsemble(f1, f2, f3);
      && e.fcst[i] in {f1.fcst[i], f2.fcst[i], f3.fcst[i]}
      && Min3(f1.fcst[i], f2.fcst[i], f3.fcst[i]) <= e.fcst[i] <= Max3(f1.fcst[i], f2.fcst[i], f3.fcst[i])
      && e.fcstLower[i] in {f1.fcstLower[i], f2.fcstLower[i], f3.fcstLower[i]}
      && Min3(f1.fcstLower[i], f2.fcstLower[i], f3.fcstLower[i]) <= e.fcstLower[i]
      && e.fcstLower[i] <= Max3(f1.fcstLower[i], f2.fcstLower[i], f3.fcstLower[i])
      && e.fcstUpper[i] in {f1.fcstUpper[i], f2.fcstUpper[i], f3.fcstUpper[i]}
      && Min3(f1.fcstUpper[i], f2.fcstUpper[i], f3.fcstUpper[i]) <= e.fcstUpper[i]
      && e.fcstUpper[i] <= Max3(f1.fcstUpper[i], f2.fcstUpper[i], f3.fcstUpper[i])
  {
  }

  function Min3(a: real, b: real, c: real): real {
    if a <= b && a <= c then a else if b <= c then b else c
  }

  function Max3(a: real, b: real, c: real): real {
    if a >= b && a >= c then a else if b >= c then b else c
  }

  /** Reordering the three inputs leaves the ensemble's value columns unchanged; only
      the time column follows whichever input comes first. */
  lemma EnsemblePermutation<Time>(f1: Forecast<Time>, f2: Forecast<Time>, f3: Forecast<Time>,
                                  g1: Forecast<Time>, g2: Forecast<Time>, g3: Forecast<Time>)
    requires f1.Aligned() && f2.Aligned() && f3.Aligned()
    requires f1.Rows() == f2.Rows() == f3.Rows()
    requires multiset{f1, f2, f3} == multiset{g1, g2, g3}
    ensures g1.Aligned() && g2.Aligned() && g3.Aligned() && g1.Rows() == g2.Rows() == g3.Rows()
    ensures var e, e' := AggregateEnsemble(f1, f2, f3), AggregateEnsemble(g1, g2, g3);
      && e.fcst == e'.fcst && e.fcstLower == e'.fcstLower && e.fcstUpper == e'.fcstUpper
      && e'.time == g1.time
  {
    PermutationCases(f1, f2, f3, g1, g2, g3);
    ReorderingColumns(f1, f2, f3, g1, g2, g3);
    ColumnReordering(f1.fcst, f2.fcst, f3.fcst, g1.fcst, g2.fcst, g3.fcst);
    ColumnReordering(f1.fcstLower, f2.fcstLower, f3.fcstLower, g1.fcstLower, g2.fcstLower, g3.fcstLower);
    ColumnReordering(f1.fcstUpper, f2.fcstUpper, f3.fcstUpper, g1.fcstUpper, g2.fcstUpper, g3.fcstUpper);
  }

  lemma ReorderingColumns<Time>(f1: Forecast<Time>, f2: Forecast<Time>, f3: Forecast<Time>,
                                g1: Forecast<Time>, g2: Forecast<Time>, g3: Forecast<Time>)
    requires Reordering(f1, f2, f3, g1, g2, g3)
    ensures Reordering(f1.fcst, f2.fcst, f3.fcst, g1.fcst, g2.fcst, g3.fcst)
    ensures Reordering(f1.fcstLower, f2.fcstLower, f3.fcstLower, g1.fcstLower, g2.fcstLower, g3.fcstLower)
    ensures Reordering(f1.fcstUpper, f2.fcstUpper, f3.fcstUpper, g1.fcstUpper, g2.fcstUpper, g3.fcstUpper)
    ensures f1.Aligned() && f2.Aligned() && f3.Aligned() && f1.Rows() == f2.Rows() == f3.Rows() ==>
            g1.Aligned() && g2.Aligned() && g3.Aligned() && g1.Rows() == g2.Rows() == g3.Rows()
  {
  }

  /** Reordering three columns leaves their row-wise median unchanged. */
  lemma ColumnReordering(a: seq<real>, b: seq<real>, c: seq<real>, x: seq<real>, y: seq<real>, z: seq<real>)
    requires |a| == |b| == |c|
    requires Reordering(a, b, c, x, y, z)
    ensures |x| == |y| == |z| == |a|
    ensures MedianColumn(a, b, c) == MedianColumn(x, y, z)
  {
    forall i | 0 <= i < |a|
      ensures MedianColumn(a, b, c)[i] == MedianColumn(x, y, z)[i]
    {
      RowReordering(a, b, c, x, y, z, i);
    }
  }

  lemma RowReordering(a: seq<real>, b: seq<real>, c: seq<real>, x: seq<real>, y: seq<real>, z: seq<real>, i: nat)
    requires |a| == |b| == |c| && i < |a|
    requires Reordering(a, b, c, x, y, z)
    ensures Median3(a[i], b[i], c[i]) == Median3(x[i], y[i], z[i])
  {
  }

  /** If every input keeps lower <= fcst <= upper on every row, so does the ensemble. */
  lemma EnsembleKeepsBands<Time>(f1: Forecast<Time>, f2: Forecast<Time>, f3: Forecast<Time>)
    requires f1.Aligned() && f2.Aligned() && f3.Aligned()
    requires f1.Rows() == f2.Rows() == f3.Rows()
    requires f1.Banded() && f2.Banded() && f3.Banded()
    ensures AggregateEnsemble(f1, f2, f3).Banded()
  {
    var e := AggregateEnsemble(f1, f2, f3);
    forall i | 0 <= i < e.Rows()
      ensures e.fcstLower[i] <= e.fcst[i] <= e.fcstUpper[i]
    {
      Median3Monotone(f1.fcstLower[i], f2.fcstLower[i], f3.fcstLower[i], f1.fcst[i], f2.fcst[i], f3.fcst[i]);
      Median3Monotone(f1.fcst[i], f2.fcst[i], f3.fcst[i], f1.fcstUpper[i], f2.fcstUpper[i], f3.fcstUpper[i]);
    }
  }

  /** Point estimates 10, 12 and 11 on one row give 11 (the mean would be 11 too,
      but 10, 12 and 20 give 12, not the mean 14). */
  lemma MedianExample()
    ensures Median3(10.0, 12.0, 11.0) == 11.0
    ensures Median3(10.0, 12.0, 20.0) == 12.0
  {
  }
}
