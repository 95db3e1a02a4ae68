/**
 * The `Outliers` class of analysis.py: the interquartile-range filter applied to
 * the menu before the tests. A row is kept when, in every listed column, its value
 * lies within 1.5 interquartile ranges of that column's quartiles.
 *
 * The menu is a table of numeric columns whose rows are numbered 0 .. height - 1.
 * pandas' `Series.quantile` is a parameter of the model.
 */
module Outliers {
  import opened Model

  /** pandas Series.quantile: the q-quantile of a column. */
  type Quantile = (seq<real>, real) -> real

  /** A DataFrame: `height` rows, and one sequence of values per column name. */
  datatype Table = Table(height: nat, columns: map<string, seq<real>>)

  /** Every column holds exactly one value per row. */
  predicate Rectangular(t: Table) {
    forall c :: c in t.columns ==> |t.columns[c]| == t.height
  }

  /** Every listed column is present, so that menu[col] raises no KeyError. */
  predicate HasColumns(t: Table, cols: seq<string>) {
    forall j :: 0 <= j < |cols| ==> cols[j] in t.columns
  }

  datatype Bounds = Bounds(lower: real, upper: real)

  /** Q1 - 1.5 * IQR and Q3 + 1.5 * IQR, with IQR = Q3 - Q1. */
  function RetentionBounds(q1: real, q3: real): (b: Bounds)
    ensures q1 <= q3 ==> b.lower <= q1 && q3 <= b.upper
    ensures b.lower <= b.upper <==> q1 <= q3
    ensures b.lower + b.upper == q1 + q3
  {
    var iqr := q3 - q1;
    Bounds(q1 - 1.5 * iqr, q3 + 1.5 * iqr)
  }

  /** remove_outliers: for each value of the column, whether it lies within the
      retention bounds of that column's first and third quartiles, both inclusive. */
  function RemoveOutliers(quantile: Quantile, column: seq<real>): (keep: seq<bool>)
    ensures |keep| == |column|
    ensures var q1, q3 := quantile(column, 0.25), quantile(column, 0.75);
            q1 <= q3 ==> forall i :: 0 <= i < |column| && q1 <= column[i] <= q3 ==> keep[i]
  {
    var bounds := RetentionBounds(quantile(column, 0.25), quantile(column, 0.75));
    seq(|column|, i requires 0 <= i < |column| => bounds.lower <= column[i] && column[i] <= bounds.upper)
  }

  /** Row i survives the filter of each column in cols, applied in turn: the
      sequential AND keeps a row exactly when every listed column keeps it. */
  predicate KeptBy(t: Table, cols: seq<string>, quantile: Quantile, i: nat)
    requires Rectangular(t) && HasColumns(t, cols) && i < t.height
    ensures KeptBy(t, cols, quantile, i)
            <==> forall j :: 0 <= j < |cols| ==> RemoveOutliers(quantile, t.columns[cols[j]])[i]
    decreases |cols|
  {
    if |cols| == 0 then true
    else
      var front := cols[..|cols| - 1];
      assert forall j :: 0 <= j < |front| ==> front[j] == cols[j];
      KeptBy(t, front, quantile, i) && RemoveOutliers(quantile, t.columns[cols[|cols| - 1]])[i]
  }

  /** The mask after every listed column has been applied: row i is True exactly
      when every listed column keeps it. */
  function Mask(t: Table, cols: seq<string>, quantile: Quantile): (m: seq<bool>)
    requires Rectangular(t) && HasColumns(t, cols)
    ensures |m| == t.height
    ensures forall i :: 0 <= i < t.height ==>
              (m[i] <==> forall j :: 0 <= j < |cols| ==> RemoveOutliers(quantile, t.columns[cols[j]])[i])
  {
    seq(t.height, i requires 0 <= i < t.height => KeptBy(t, cols, quantile, i))
  }

  /** The columns are combined by AND, each on its own: neither their order nor
      repetitions change the mask. */
  lemma MaskDependsOnlyOnColumnSet(t: Table, cols1: seq<string>, cols2: seq<string>, quantile: Quantile)
    requires Rectangular(t) && HasColumns(t, cols1) && HasColumns(t, cols2)
    requires forall c :: c in cols1 <==> c in cols2
    ensures Mask(t, cols1, quantile) == Mask(t, cols2, quantile)
  {
    forall i | 0 <= i < t.height
      ensures KeptBy(t, cols1, quantile, i) == KeptBy(t, cols2, quantile, i)
    {
      if KeptBy(t, cols1, quantile, i) {
        forall j | 0 <= j < |cols2|
          ensures RemoveOutliers(quantile, t.columns[cols2[j]])[i]
        {
          assert cols2[j] in cols1;
        }
      }
      if KeptBy(t, cols2, quantile, i) {
        forall j | 0 <= j < |cols1|
          ensures RemoveOutliers(quantile, t.columns[cols1[j]])[i]
        {
          assert cols1[j] in cols2;
        }
      }
    }
  }

  /** The row numbers a boolean mask selects, in ascending order. */
  function Positions(mask: seq<bool>): (p: seq<nat>)
    ensures forall k :: 0 <= k < |p| ==> p[k] < |mask| && mask[p[k]]
    ensures forall k, l :: 0 <= k < l < |p| ==> p[k] < p[l]
    ensures forall i :: 0 <= i < |mask| && mask[i] ==> i in p
    decreases |mask|
  {
    if |mask| == 0 then []
    else
      var n := |mask| - 1;
      var front := Positions(mask[..n]);
      assert forall k :: 0 <= k < |front| ==> front[k] < n && mask[front[k]];
      front + (if mask[n] then [n] else [])
  }

  /** A mask that selects every row selects the rows in order. */
  lemma {:induction false} AllRowsPositions(mask: seq<bool>)
    requires forall i :: 0 <= i < |mask| ==> mask[i]
    ensures Positions(mask) == seq(|mask|, i requires 0 <= i < |mask| => i)
    decreases |mask|
  {
    if |mask| != 0 {
      AllRowsPositions(mask[..|mask| - 1]);
    }
  }

  /** The values of a column at the selected rows. */
  function Filter(s: seq<real>, mask: seq<bool>): (r: seq<real>)
    requires |s| == |mask|
    ensures |r| == |Positions(mask)|
  {
    var p := Positions(mask);
    seq(|p|, k requires 0 <= k < |p| => s[p[k]])
  }

  /** menu[mask]: the table restricted to the rows the mask selects. The result
      is an order-preserving subsequence of the rows: the same columns, row k of
      the result being the k-th selected row of the input, and every selected row
      appearing. */
  function Select(t: Table, mask: seq<bool>): (r: Table)
    requires Rectangular(t) && |mask| == t.height
    ensures Rectangular(r)
    ensures r.columns.Keys == t.columns.Keys
    ensures var p := Positions(mask);
            && r.height == |p|
            && (forall c, k :: c in t.columns && 0 <= k < |p| ==> r.columns[c][k] == t.columns[c][p[k]])
            && (forall k, l :: 0 <= k < l < |p| ==> p[k] < p[l])
            && (forall i :: 0 <= i < t.height ==> (i in p <==> mask[i]))
  {
    Table(|Positions(mask)|, map c | c in t.columns :: Filter(t.columns[c], mask))
  }

  /** The rows the filter keeps are exactly those kept by every listed column. */
  lemma KeptRowsAreWithinEveryColumnsBounds(t: Table, cols: seq<string>, quantile: Quantile, i: nat)
    requires Rectangular(t) && HasColumns(t, cols) && i < t.height
    ensures i in Positions(Mask(t, cols, quantile))
            <==> forall j :: 0 <= j < |cols| ==>
                   var column := t.columns[cols[j]];
                   var b := RetentionBounds(quantile(column, 0.25), quantile(column, 0.75));
                   b.lower <= column[i] <= b.upper
  {
  }

  /** With no listed columns the mask stays all True and every row is kept. */
  lemma NoColumnsKeepsEveryRow(t: Table, quantile: Quantile)
    requires Rectangular(t)
    ensures Select(t, Mask(t, [], quantile)) == t
  {
    var m := Mask(t, [], quantile);
    AllRowsPositions(m);
    var r := Select(t, m);
    forall c | c in t.columns
      ensures r.columns[c] == t.columns[c]
    {
      assert Filter(t.columns[c], m) == t.columns[c];
    }
  }

  /** mask &= keep: each row's flag is ANDed in place with the column's flag. */
  method AndInto(mask: array<bool>, keep: seq<bool>)
    requires mask.Length == |keep|
    modifies mask
    ensures forall i :: 0 <= i < mask.Length ==> mask[i] == (old(mask[i]) && keep[i])
  {
    for i := 0 to mask.Length
      invariant forall j :: 0 <= j < i ==> mask[j] == (old(mask[j]) && keep[j])
      invariant forall j :: i <= j < mask.Length ==> mask[j] == old(mask[j])
    {
      mask[i] := mask[i] && keep[i];
    }
  }

  /** filter_outliers: starts from an all-True mask and ANDs into it the
      remove_outliers mask of each listed column; a column the menu lacks raises
      KeyError. */
  method FilterOutliers(menu: Table, columns: seq<string>, quantile: Quantile) returns (result: Result<Table>)
    requires Rectangular(menu)
    ensures result.Err? <==> !HasColumns(menu, columns)
    ensures result.Err? ==>
              exists j :: 0 <= j < |columns| && columns[j] !in menu.columns
                          && HasColumns(menu, columns[..j]) && result.error == KeyError(columns[j])
    ensures result.Ok? ==> result.value == Select(menu, Mask(menu, columns, quantile))
  {
    var mask := new bool[menu.height](i => true);
    for k := 0 to |columns|
      invariant HasColumns(menu, columns[..k])
      invariant forall i :: 0 <= i < menu.height ==> mask[i] == KeptBy(menu, columns[..k], quantile, i)
    {
      var col := columns[k];
      if col !in menu.columns {
        return Err(KeyError(col));
      }
      var keep := RemoveOutliers(quantile, menu.columns[col]);
      assert columns[..k + 1][..k] == columns[..k];
      AndInto(mask, keep);
      assert forall i :: 0 <= i < menu.height ==>
               KeptBy(menu, columns[..k + 1], quantile, i) == (KeptBy(menu, columns[..k], quantile, i) && keep[i]);
    }
    assert columns[..|columns|] == columns;
    assert mask[..] == Mask(menu, columns, quantile);
    result := Ok(Select(menu, mask[..]));
  }
}
