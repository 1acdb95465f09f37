/** The data handling of plot_helpers.py: the labels of a stacked histogram
    and the bars it stacks. Drawing itself is left to the plotting library. */
module PlotHelpers {
  import opened Base
  import opened Dicts
  import opened Text

  // ---------------------------------------------------------------------
  // histogram_labels_from_datasets

  /** Strictly ascending in Python's string order. */
  predicate Ascending(s: seq<string>) {
    forall i :: 0 < i < |s| ==> Less(s[i - 1], s[i])
  }

  /** The keys of every dataset, one dataset after another:
      `labels += list(dataset_dict.keys())`. */
  function AllKeys(datasets: seq<Dict<string, real>>): (r: seq<string>)
    ensures forall x :: x in r <==> InSomeDataset(datasets, x)
  {
    if datasets == [] then []
    else
      var prev := datasets[..|datasets| - 1];
      var r := AllKeys(prev) + datasets[|datasets| - 1].order;
      assert forall x :: InSomeDataset(datasets, x) <==> InSomeDataset(prev, x) || x in datasets[|datasets| - 1].order by {
        forall x ensures InSomeDataset(datasets, x) <==> InSomeDataset(prev, x) || x in datasets[|datasets| - 1].order {
          if InSomeDataset(prev, x) {
            var k :| 0 <= k < |prev| && x in prev[k].order;
            assert datasets[k] == prev[k];
          }
          if InSomeDataset(datasets, x) {
            var k :| 0 <= k < |datasets| && x in datasets[k].order;
            if k < |prev| {
              assert prev[k] == datasets[k];
            }
          }
        }
      }
      r
  }

  /** Some dataset has this label as a key. */
  predicate InSomeDataset(datasets: seq<Dict<string, real>>, x: string) {
    exists k :: 0 <= k < |datasets| && x in datasets[k].order
  }

  /** One label added to an ascending list of distinct labels. */
  function InsertLabel(x: string, s: seq<string>): (r: seq<string>)
    ensures forall y :: y in r <==> y in s || y == x
    ensures |r| > 0 && (r[0] == x || (s != [] && r[0] == s[0]))
    ensures Ascending(s) ==> Ascending(r)
  {
    if s == [] then [x]
    else if x == s[0] then s
    else if Less(x, s[0]) then [x] + s
    else
      LessTotal(x, s[0]);
      var rest := InsertLabel(x, s[1..]);
      assert forall y :: y in s <==> y == s[0] || y in s[1..];
      [s[0]] + rest
  }

  /** `sorted(set(labels))`. */
  function SortedSet(labels: seq<string>): (r: seq<string>)
    ensures forall y :: y in r <==> y in labels
    ensures Ascending(r)
  {
    if labels == [] then []
    else
      var prev := labels[..|labels| - 1];
      assert forall y :: y in labels <==> y in prev || y == labels[|labels| - 1] by {
        assert labels == prev + [labels[|labels| - 1]];
      }
      InsertLabel(labels[|labels| - 1], SortedSet(prev))
  }

  /** `histogram_labels_from_datasets`: every key of every dataset, once
      each, in ascending order. */
  function HistogramLabels(datasets: seq<Dict<string, real>>): (r: seq<string>)
    ensures Ascending(r)
    ensures forall x :: x in r <==> InSomeDataset(datasets, x)
    ensures datasets == [] ==> r == []
  {
    SortedSet(AllKeys(datasets))
  }

  /** The loop of `histogram_labels_from_datasets`, which gathers the keys
      dataset by dataset and sorts their set. */
  method LabelsFromDatasets(datasets: seq<Dict<string, real>>) returns (r: seq<string>)
    ensures r == HistogramLabels(datasets)
  {
    var labels: seq<string> := [];
    var i := 0;
    while i < |datasets|
      invariant 0 <= i <= |datasets| && labels == AllKeys(datasets[..i])
    {
      assert datasets[..i + 1][..i] == datasets[..i];
      labels := labels + datasets[i].order;
      i := i + 1;
    }
    assert datasets[..i] == datasets;
    r := SortedSet(labels);
  }

  lemma {:induction false} AscendingPairs(s: seq<string>, i: int, j: int)
    requires Ascending(s) && 0 <= i < j < |s|
    ensures Less(s[i], s[j])
    decreases j - i
  {
    if i + 1 < j {
      AscendingPairs(s, i + 1, j);
      LessTransitive(s[i], s[i + 1], s[j]);
    }
  }

  /** No label appears twice. */
  lemma AscendingDistinct(s: seq<string>)
    requires Ascending(s)
    ensures Distinct(s)
  {
    forall i, j | 0 <= i < j < |s|
      ensures s[i] != s[j]
    {
      AscendingPairs(s, i, j);
      if s[i] == s[j] {
        LessIrreflexive(s[i]);
      }
    }
  }

  /** The labels have no duplicates. */
  lemma HistogramLabelsDistinct(datasets: seq<Dict<string, real>>)
    ensures Distinct(HistogramLabels(datasets))
  {
    AscendingDistinct(HistogramLabels(datasets));
  }

  /** Only one strictly ascending list holds a given set of labels, so the
      labels are exactly `sorted(set(...))` of the keys. */
  lemma {:induction false} AscendingUnique(a: seq<string>, b: seq<string>)
    requires Ascending(a) && Ascending(b)
    requires forall x :: x in a <==> x in b
    ensures a == b
  {
    assert a != [] ==> a[0] in b;
    assert b != [] ==> b[0] in a;
    if a != [] && b != [] {
      if a[0] != b[0] {
        assert a[0] in b;
        var j :| 0 <= j < |b| && b[j] == a[0];
        assert b[0] in a;
        var i :| 0 <= i < |a| && a[i] == b[0];
        AscendingPairs(b, 0, j);
        AscendingPairs(a, 0, i);
        LessTransitive(a[0], b[0], a[0]);
        LessIrreflexive(a[0]);
      }
      AscendingDistinct(a);
      AscendingDistinct(b);
      forall x
        ensures x in a[1..] <==> x in b[1..]
      {
        if x in a[1..] {
          var i :| 1 <= i < |a| && a[i] == x;
          assert x != a[0];
          assert x in b;
        }
        if x in b[1..] {
          var j :| 1 <= j < |b| && b[j] == x;
          assert x != b[0];
          assert x in a;
        }
      }
      AscendingUnique(a[1..], b[1..]);
      assert a == [a[0]] + a[1..] && b == [b[0]] + b[1..];
    }
  }

  /** Any ascending list of exactly the datasets' keys is the list of
      labels. */
  lemma HistogramLabelsUnique(datasets: seq<Dict<string, real>>, labels: seq<string>)
    requires Ascending(labels) && forall x :: x in labels <==> InSomeDataset(datasets, x)
    ensures HistogramLabels(datasets) == labels
  {
    AscendingUnique(HistogramLabels(datasets), labels);
  }

  // ---------------------------------------------------------------------
  // add_stacked_histogram_data_to_axis

  /** One `ax.bar` call: the label of the series, the bar heights and
      where they start. */
  datatype Bar = Bar(series: string, heights: seq<real>, bottoms: seq<real>)

  /** Every dataset has every label. */
  predicate AllPresent(labels: seq<string>, datasets: seq<Dict<string, real>>) {
    forall j, k :: 0 <= j < |labels| && 0 <= k < |datasets| ==> labels[j] in datasets[k].entries
  }

  /** `[d[label] * scale_data for d in dataset_dicts]`, raising a KeyError
      when a dataset lacks the label. */
  function LabelHeights(name: string, datasets: seq<Dict<string, real>>, scale: real): (r: Result<seq<real>>)
    ensures r.Ok? <==> forall k :: 0 <= k < |datasets| ==> name in datasets[k].entries
    ensures r.Err? ==> r.msg == KeyError(name)
    ensures r.Ok? ==> |r.value| == |datasets|
                      && forall k :: 0 <= k < |datasets| ==> r.value[k] == datasets[k].entries[name] * scale
  {
    if forall k :: 0 <= k < |datasets| ==> name in datasets[k].entries then
      Ok(seq(|datasets|, k requires 0 <= k < |datasets| && name in datasets[k].entries => datasets[k].entries[name] * scale))
    else Err(KeyError(name))
  }

  /** `np.array([0.0] * n)`. */
  function Zeros(n: nat): (r: seq<real>)
    ensures |r| == n && forall k :: 0 <= k < n ==> r[k] == 0.0
  {
    seq(n, k => 0.0)
  }

  /** Element-wise `a + b` of two arrays of one length. */
  function Add(a: seq<real>, b: seq<real>): (r: seq<real>)
    requires |a| == |b|
    ensures |r| == |a| && forall k :: 0 <= k < |a| ==> r[k] == a[k] + b[k]
  {
    seq(|a|, k requires 0 <= k < |a| => a[k] + b[k])
  }

  /** The `bottom` array once the given labels are stacked. */
  function Bottoms(labels: seq<string>, datasets: seq<Dict<string, real>>, scale: real): (r: seq<real>)
    requires AllPresent(labels, datasets)
    ensures |r| == |datasets|
  {
    if labels == [] then Zeros(|datasets|)
    else
      var prev := labels[..|labels| - 1];
      assert AllPresent(prev, datasets);
      Add(Bottoms(prev, datasets, scale), LabelHeights(labels[|labels| - 1], datasets, scale).value)
  }

  /** The sum of one dataset's values for the given labels, scaled. */
  function LabelTotal(labels: seq<string>, d: Dict<string, real>, scale: real): real
    requires forall j :: 0 <= j < |labels| ==> labels[j] in d.entries
  {
    if labels == [] then 0.0
    else LabelTotal(labels[..|labels| - 1], d, scale) + d.entries[labels[|labels| - 1]] * scale
  }

  /** After each label, the bottom of a column is the scaled sum of that
      column's dataset over the labels stacked so far. */
  lemma {:induction false} BottomsAreTotals(labels: seq<string>, datasets: seq<Dict<string, real>>, scale: real, k: int)
    requires AllPresent(labels, datasets) && 0 <= k < |datasets|
    ensures Bottoms(labels, datasets, scale)[k] == LabelTotal(labels, datasets[k], scale)
  {
    if labels != [] {
      var prev := labels[..|labels| - 1];
      assert AllPresent(prev, datasets);
      BottomsAreTotals(prev, datasets, scale, k);
    }
  }

  /** The bars drawn for the given labels, in order, or the KeyError of the
      first label some dataset lacks. */
  function Bars(labels: seq<string>, datasets: seq<Dict<string, real>>, scale: real): (r: Result<seq<Bar>>)
    ensures r.Ok? <==> AllPresent(labels, datasets)
    ensures r.Ok? ==> |r.value| == |labels|
  {
    if labels == [] then Ok([])
    else
      var prev := labels[..|labels| - 1];
      var last := labels[|labels| - 1];
      assert AllPresent(labels, datasets) <==> AllPresent(prev, datasets) && LabelHeights(last, datasets, scale).Ok?;
      var bars :- Bars(prev, datasets, scale);
      var heights :- LabelHeights(last, datasets, scale);
      Ok(bars + [Bar(last, heights, Bottoms(prev, datasets, scale))])
  }

  /** Bar `j` is label `j`'s scaled values, drawn on the bottoms the labels
      before it leave. */
  lemma {:induction false} BarsContents(labels: seq<string>, datasets: seq<Dict<string, real>>, scale: real, j: int)
    requires AllPresent(labels, datasets) && 0 <= j < |labels|
    ensures AllPresent(labels[..j], datasets)
    ensures Bars(labels, datasets, scale).value[j]
            == Bar(labels[j], LabelHeights(labels[j], datasets, scale).value, Bottoms(labels[..j], datasets, scale))
  {
    var prev := labels[..|labels| - 1];
    assert AllPresent(prev, datasets);
    if j < |labels| - 1 {
      assert prev[j] == labels[j] && prev[..j] == labels[..j];
      BarsContents(prev, datasets, scale, j);
    }
  }

  /** The first label some dataset lacks ends the loop with its KeyError. */
  predicate FirstMissing(labels: seq<string>, datasets: seq<Dict<string, real>>, j: int) {
    0 <= j < |labels| && AllPresent(labels[..j], datasets)
    && exists k :: 0 <= k < |datasets| && labels[j] !in datasets[k].entries
  }

  /** Drawing stops at the first label some dataset lacks, with that
      label's KeyError. */
  lemma {:induction false} BarsMissing(labels: seq<string>, datasets: seq<Dict<string, real>>, scale: real)
    requires !AllPresent(labels, datasets)
    ensures exists j :: FirstMissing(labels, datasets, j) && Bars(labels, datasets, scale).msg == KeyError(labels[j])
  {
    var prev := labels[..|labels| - 1];
    var last := labels[|labels| - 1];
    if !AllPresent(prev, datasets) {
      BarsMissing(prev, datasets, scale);
      var j :| FirstMissing(prev, datasets, j) && Bars(prev, datasets, scale).msg == KeyError(prev[j]);
      assert prev[..j] == labels[..j] && prev[j] == labels[j];
      assert FirstMissing(labels, datasets, |labels| - 1) || FirstMissing(labels, datasets, j);
    } else {
      assert labels[..|labels| - 1] == prev;
      assert FirstMissing(labels, datasets, |labels| - 1);
    }
  }

  /** The loop of `add_stacked_histogram_data_to_axis`: each label's
      heights are drawn on top of the bars before it, and the bottoms grow
      by them. */
  method StackedBars(columns: seq<string>, labels: seq<string>, datasets: seq<Dict<string, real>>, scale: real)
    returns (r: Result<seq<Bar>>)
    requires |columns| == |datasets|
    ensures r == Bars(labels, datasets, scale)
  {
    var bars: seq<Bar> := [];
    var bottom := Zeros(|columns|);
    var j := 0;
    while j < |labels|
      invariant 0 <= j <= |labels|
      invariant Bars(labels[..j], datasets, scale) == Ok(bars)
      invariant AllPresent(labels[..j], datasets) && bottom == Bottoms(labels[..j], datasets, scale)
    {
      assert labels[..j + 1][..j] == labels[..j] && labels[..j + 1][j] == labels[j];
      var data := LabelHeights(labels[j], datasets, scale);
      if data.Err? {
        BarsStopAt(labels, datasets, scale, j + 1);
        return Err(data.msg);
      }
      bars := bars + [Bar(labels[j], data.value, bottom)];
      bottom := Add(bottom, data.value);
      j := j + 1;
    }
    assert labels[..j] == labels;
    return Ok(bars);
  }

  /** Once a prefix of the labels fails, so do all the labels. */
  lemma {:induction false} BarsStopAt(labels: seq<string>, datasets: seq<Dict<string, real>>, scale: real, n: nat)
    requires n <= |labels| && Bars(labels[..n], datasets, scale).Err?
    ensures Bars(labels, datasets, scale) == Bars(labels[..n], datasets, scale)
    decreases |labels| - n
  {
    if n < |labels| {
      assert labels[..n + 1][..n] == labels[..n];
      BarsStopAt(labels, datasets, scale, n + 1);
    } else {
      assert labels[..n] == labels;
    }
  }
}
