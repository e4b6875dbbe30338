/** The averaging rules of the two front ends, each written as its own
    function so that the windows can be compared: the client tables' L3MA
    (rows 2..4, zero below five rows) and the CEO page's slices of the
    turnover history (months -2..-4 and -2..-7). */
module Averages {
  import opened Basics

  /** `calculateAverage`: 0 for no values, otherwise their mean. The same
      rule is SQL's `AVG` read back with `parseFloat(avg) || 0`. */
  function Mean(xs: seq<real>): (r: real)
    ensures |xs| == 0 ==> r == 0.0
    ensures r * (|xs| as real) == Sum(xs)
  {
    if |xs| == 0 then 0.0 else Sum(xs) / (|xs| as real)
  }

  lemma {:induction false} SumBounds(xs: seq<real>, lo: real, hi: real)
    requires forall i :: 0 <= i < |xs| ==> lo <= xs[i] <= hi
    ensures (|xs| as real) * lo <= Sum(xs) <= (|xs| as real) * hi
    decreases |xs|
  {
    if |xs| > 0 {
      SumBounds(xs[1..], lo, hi);
    }
  }

  /** The mean of values that all lie in `[lo, hi]` lies there too. */
  lemma MeanBounds(xs: seq<real>, lo: real, hi: real)
    requires |xs| > 0
    requires forall i :: 0 <= i < |xs| ==> lo <= xs[i] <= hi
    ensures lo <= Mean(xs) <= hi
  {
    SumBounds(xs, lo, hi);
  }

  lemma SumOfThree(xs: seq<real>)
    requires |xs| == 3
    ensures Sum(xs) == xs[0] + xs[1] + xs[2]
  {
    assert Sum(xs[2..]) == xs[2] + Sum(xs[3..]);
    assert Sum(xs[1..]) == xs[1] + Sum(xs[2..]);
  }

  lemma SumOfSix(xs: seq<real>)
    requires |xs| == 6
    ensures Sum(xs) == xs[0] + xs[1] + xs[2] + xs[3] + xs[4] + xs[5]
  {
    assert Sum(xs[5..]) == xs[5] + Sum(xs[6..]);
    assert Sum(xs[4..]) == xs[4] + Sum(xs[5..]);
    assert Sum(xs[3..]) == xs[3] + Sum(xs[4..]);
    assert Sum(xs[2..]) == xs[2] + Sum(xs[3..]);
    assert Sum(xs[1..]) == xs[1] + Sum(xs[2..]);
  }

  /** `Array.prototype.slice(a, b)` with `0 <= a <= b`: both ends are clamped
      to the array's length. */
  function Slice(xs: seq<real>, a: nat, b: nat): (r: seq<real>)
    requires a <= b
    ensures |r| == Min(b, |xs|) - Min(a, |xs|)
    ensures forall i :: 0 <= i < |r| ==> r[i] == xs[a + i]
  {
    xs[Min(a, |xs|)..Min(b, |xs|)]
  }

  /** The client tables' L3MA of one column whose row `k` is month `-k`:
      the mean of rows 2, 3 and 4, and 0 when fewer than five rows exist. */
  function TrailingL3(xs: seq<real>): (r: real)
    ensures |xs| < 5 ==> r == 0.0
    ensures |xs| >= 5 ==> r == Mean(xs[2..5])
  {
    if |xs| >= 5 then
      SumOfThree(xs[2..5]);
      (xs[2] + xs[3] + xs[4]) / 3.0
    else 0.0
  }

  /** The L3MA reads rows 2..4 only: the current month, the immediately prior
      month and anything older than month -4 never affect it. */
  lemma TrailingL3Window(xs: seq<real>, ys: seq<real>)
    requires |xs| >= 5 && |ys| >= 5
    requires xs[2] == ys[2] && xs[3] == ys[3] && xs[4] == ys[4]
    ensures TrailingL3(xs) == TrailingL3(ys)
  {
  }

  /** The L3MA of a column of row sums is the sum of the columns' L3MAs. */
  lemma TrailingL3Additive(xs: seq<real>, ys: seq<real>, zs: seq<real>, total: seq<real>)
    requires |xs| == |ys| == |zs| == |total|
    requires forall i :: 0 <= i < |total| ==> total[i] == xs[i] + ys[i] + zs[i]
    ensures TrailingL3(total) == TrailingL3(xs) + TrailingL3(ys) + TrailingL3(zs)
  {
  }

  /** The sum of rows 2 up to (not including) `i` of one column. */
  function SumFromRow2(xs: seq<real>, i: int): real
    requires 2 <= i <= |xs|
    decreases i
  {
    if i == 2 then 0.0 else SumFromRow2(xs, i - 1) + xs[i - 1]
  }

  /** The footer loop of the client tables: it walks rows 2..4 once,
      adding each row into every column's running sum, and divides the sums
      by three; with fewer than five rows every column stays 0. The result
      is each column's L3MA. */
  method ColumnsL3ma(columns: seq<seq<real>>, n: nat) returns (avgs: seq<real>)
    requires forall c :: 0 <= c < |columns| ==> |columns[c]| == n
    ensures |avgs| == |columns|
    ensures forall c :: 0 <= c < |columns| ==> avgs[c] == TrailingL3(columns[c])
  {
    var sums := seq(|columns|, c => 0.0);
    if n >= 5 {
      var i := 2;
      while i < 5
        invariant 2 <= i <= 5
        invariant |sums| == |columns|
        invariant forall c :: 0 <= c < |columns| ==> sums[c] == SumFromRow2(columns[c], i)
      {
        sums := seq(|columns|, c requires 0 <= c < |columns| => sums[c] + columns[c][i]);
        i := i + 1;
      }
      avgs := seq(|columns|, c requires 0 <= c < |columns| => sums[c] / 3.0);
    } else {
      avgs := sums;
    }
  }

  /** The CEO page's "Last 3M Avg." of a history whose entry `k` is month
      `-(k + 1)`: `slice(1, 4)`, months -2..-4. */
  function CeoLast3(history: seq<real>): (r: real)
    ensures |history| >= 4 ==> r == (history[1] + history[2] + history[3]) / 3.0
  {
    var s := Slice(history, 1, 4);
    if |history| >= 4 then
      SumOfThree(s);
      Mean(s)
    else
    Mean(s)
  }

  /** The CEO page's "Last 6M Avg.": `slice(1, 7)`, months -2..-7. */
  function CeoLast6(history: seq<real>): (r: real)
    ensures |history| >= 7 ==>
      r == (history[1] + history[2] + history[3] + history[4] + history[5] + history[6]) / 6.0
  {
    var s := Slice(history, 1, 7);
    if |history| >= 7 then
      SumOfSix(s);
      Mean(s)
    else
    Mean(s)
  }

  /** The two front ends agree on the 3-month window: when `rows[k]` is month
      `-k` and the CEO history is the same months shifted by one
      (`history[k]` is month `-(k + 1)`), both average months -2..-4. */
  lemma CeoAndClientAgree(rows: seq<real>)
    requires |rows| >= 5
    ensures CeoLast3(rows[1..]) == TrailingL3(rows)
  {
  }

  /** The worked example of the trailing-average rule: months current..-6
      valued 100, 90, 80, 70, 60, 50, 40 give a 3-month average of 70. */
  lemma TrailingExample()
    ensures TrailingL3([100.0, 90.0, 80.0, 70.0, 60.0, 50.0, 40.0]) == 70.0
    ensures CeoLast3([90.0, 80.0, 70.0, 60.0, 50.0, 40.0]) == 70.0
  {
  }
}
