/** The arithmetic of the `Plot_<model>` functions: the flat Obs and Sim logs
    are reshaped into trials x gauges and transposed, and the best trial is
    picked by `np.argmin` over the metric column of the Metric log. */
module BestTrial {
  import opened Wrappers
  import opened ModelIds
  import opened Numeric

  /** Why the arrays cannot be formed: an empty Metric log, a division by a
      trial count of zero, or a log whose length is not a multiple of the
      trial count (`reshape` raises). */
  datatype PlotError = NoRows | ZeroDivision | SizeMismatch

  /** Every row has n entries. */
  predicate Rectangular(m: seq<seq<real>>, n: nat) {
    forall t :: 0 <= t < |m| ==> |m[t]| == n
  }

  lemma RowEnd(t: nat, trials: nat, g: nat)
    requires t < trials
    ensures t * g + g <= trials * g
  {
    assert trials * g == t * g + g + (trials - t - 1) * g;
  }

  lemma MulAtLeast(t: nat, k: nat)
    requires k >= 1
    ensures t * k >= t
  {
    assert t * k == t + t * (k - 1);
  }

  /** An exact product divided by one factor gives the other. */
  lemma MulDivExact(t: nat, g: nat)
    requires t > 0
    ensures (t * g) / t == g && (t * g) % t == 0
  {
    var q := (t * g) / t;
    var r := (t * g) % t;
    assert t * g == t * q + r;
    if q < g {
      assert t * g - t * q == t * (g - q);
      MulAtLeast(t, g - q);
    } else if q > g {
      assert t * q - t * g == t * (q - g);
      MulAtLeast(t, q - g);
    }
  }

  /** The flat log cut into trials rows of g entries, in order. */
  function Chunks(flat: seq<real>, trials: nat, g: nat): (m: seq<seq<real>>)
    requires |flat| == trials * g
    ensures |m| == trials && Rectangular(m, g)
    decreases trials
  {
    if trials == 0 then []
    else
      assert |flat| == g + (trials - 1) * g;
      [flat[..g]] + Chunks(flat[g..], trials - 1, g)
  }

  /** Row t of the cut log is the slice t*g .. t*g+g. */
  lemma {:induction false} ChunksRow(flat: seq<real>, trials: nat, g: nat, t: nat)
    requires |flat| == trials * g && t < trials
    ensures t * g + g <= |flat|
    ensures Chunks(flat, trials, g)[t] == flat[t * g .. t * g + g]
    decreases trials
  {
    RowEnd(t, trials, g);
    assert |flat| == g + (trials - 1) * g;
    var rest := flat[g..];
    assert Chunks(flat, trials, g) == [flat[..g]] + Chunks(rest, trials - 1, g);
    if t == 0 {
      assert t * g == 0;
    } else {
      var a := (t - 1) * g;
      assert t * g == g + a;
      ChunksRow(rest, trials - 1, g, t - 1);
      assert Chunks(flat, trials, g)[t] == Chunks(rest, trials - 1, g)[t - 1];
      assert rest[a .. a + g] == flat[g + a .. g + a + g];
    }
  }

  /** `flat.reshape(trials, len(flat) // trials)`: row t holds the entries
      t*G .. t*G+G-1 of the flat log, G being the number of gauges. */
  function Reshape(flat: seq<real>, trials: nat): (r: Result<seq<seq<real>>, PlotError>)
    ensures trials == 0 <==> r == Failure(ZeroDivision)
    ensures trials > 0 ==> (r.Success? <==> |flat| % trials == 0)
    ensures r.Success? ==> |r.value| == trials && Rectangular(r.value, |flat| / trials)
  {
    if trials == 0 then Failure(ZeroDivision)
    else if |flat| % trials != 0 then Failure(SizeMismatch)
    else Success(Chunks(flat, trials, |flat| / trials))
  }

  /** The rows one after the other: the inverse of `Reshape`. */
  function Flatten(m: seq<seq<real>>): (flat: seq<real>) {
    if |m| == 0 then [] else m[0] + Flatten(m[1..])
  }

  lemma {:induction false} FlattenLength(m: seq<seq<real>>, g: nat)
    requires Rectangular(m, g)
    ensures |Flatten(m)| == |m| * g
  {
    if |m| > 0 {
      FlattenLength(m[1..], g);
    }
  }

  /** Entry (t, g) of the reshaped log is entry t*G+g of the flat log. */
  lemma ReshapeEntry(flat: seq<real>, trials: nat, t: nat, g: nat)
    requires Reshape(flat, trials).Success?
    requires t < trials && g < |flat| / trials
    ensures t * (|flat| / trials) + g < |flat|
    ensures Reshape(flat, trials).value[t][g] == flat[t * (|flat| / trials) + g]
  {
    ChunksRow(flat, trials, |flat| / trials, t);
  }

  lemma {:induction false} FlattenRow(m: seq<seq<real>>, gauges: nat, t: nat)
    requires Rectangular(m, gauges) && t < |m|
    ensures |Flatten(m)| == |m| * gauges
    ensures t * gauges + gauges <= |Flatten(m)|
    ensures Flatten(m)[t * gauges .. t * gauges + gauges] == m[t]
  {
    FlattenLength(m, gauges);
    RowEnd(t, |m|, gauges);
    if t > 0 {
      FlattenRow(m[1..], gauges, t - 1);
      assert t * gauges == gauges + (t - 1) * gauges;
      assert Flatten(m)[gauges..] == Flatten(m[1..]);
    }
  }

  /** Reshaping the concatenated rows of a trials x gauges matrix gives the
      matrix back. */
  lemma ReshapeFlatten(m: seq<seq<real>>, gauges: nat)
    requires |m| > 0 && Rectangular(m, gauges)
    ensures Reshape(Flatten(m), |m|) == Success(m)
  {
    FlattenLength(m, gauges);
    MulDivExact(|m|, gauges);
    var r := Chunks(Flatten(m), |m|, gauges);
    forall t | 0 <= t < |m| ensures r[t] == m[t] {
      FlattenRow(m, gauges, t);
      ChunksRow(Flatten(m), |m|, gauges, t);
    }
    assert r == m;
  }

  /** The rows of a successful reshape concatenate back to the flat log. */
  lemma FlattenReshape(flat: seq<real>, trials: nat)
    requires Reshape(flat, trials).Success?
    ensures Flatten(Reshape(flat, trials).value) == flat
  {
    FlattenChunks(flat, trials, |flat| / trials);
  }

  lemma {:induction false} FlattenChunks(flat: seq<real>, trials: nat, g: nat)
    requires |flat| == trials * g
    ensures Flatten(Chunks(flat, trials, g)) == flat
    decreases trials
  {
    if trials > 0 {
      assert |flat| == g + (trials - 1) * g;
      var m := Chunks(flat, trials, g);
      FlattenChunks(flat[g..], trials - 1, g);
      assert m[1..] == Chunks(flat[g..], trials - 1, g);
      assert flat == flat[..g] + flat[g..];
    }
  }

  /** `.transpose()`: gauges x trials. */
  function Transpose(m: seq<seq<real>>, gauges: nat): (mt: seq<seq<real>>)
    requires Rectangular(m, gauges)
    ensures |mt| == gauges && Rectangular(mt, |m|)
    ensures forall g, t :: 0 <= g < gauges && 0 <= t < |m| ==> mt[g][t] == m[t][g]
  {
    seq(gauges, g requires 0 <= g < gauges => seq(|m|, t requires 0 <= t < |m| => m[t][g]))
  }

  /** Column t of a matrix (`M[:, t]`). */
  function ColumnOf(mt: seq<seq<real>>, t: nat): (c: seq<real>)
    requires forall g :: 0 <= g < |mt| ==> t < |mt[g]|
    ensures |c| == |mt|
  {
    seq(|mt|, g requires 0 <= g < |mt| => mt[g][t])
  }

  /** Column t of the transposed log is the row of trial t: one value per gauge. */
  lemma ColumnOfTranspose(m: seq<seq<real>>, gauges: nat, t: nat)
    requires Rectangular(m, gauges) && t < |m|
    ensures ColumnOf(Transpose(m, gauges), t) == m[t]
  {
  }

  /** `np.argmin`: an index of the least value, the first one when several
      are least. */
  function ArgMin(m: seq<real>): (i: nat)
    requires |m| > 0
    ensures i < |m|
    ensures forall j :: 0 <= j < |m| ==> m[i] <= m[j]
    ensures forall j :: 0 <= j < i ==> m[i] < m[j]
  {
    if |m| == 1 then 0
    else
      var k := ArgMin(m[..|m| - 1]);
      if m[|m| - 1] < m[k] then |m| - 1 else k
  }

  /** The argmin is the one index with the two properties above. */
  lemma ArgMinUnique(m: seq<real>, i: nat)
    requires i < |m|
    requires forall j :: 0 <= j < |m| ==> m[i] <= m[j]
    requires forall j :: 0 <= j < i ==> m[i] < m[j]
    ensures ArgMin(m) == i
  {
  }

  /** Dividing every value by the same positive constant (the seconds of a
      year in `Plot_AWY`) leaves the argmin where it is. */
  lemma ArgMinScale(m: seq<real>, c: real)
    requires |m| > 0 && c > 0.0
    ensures ArgMin(seq(|m|, i requires 0 <= i < |m| => m[i] / c)) == ArgMin(m)
  {
    var s := seq(|m|, i requires 0 <= i < |m| => m[i] / c);
    var k := ArgMin(m);
    forall j | 0 <= j < |m| ensures s[k] <= s[j] && (j < k ==> s[k] < s[j]) {
      DivMonotone(m[k], m[j], c);
      if j < k {
        DivStrict(m[k], m[j], c);
      }
    }
    ArgMinUnique(s, k);
  }

  lemma DivStrict(a: real, b: real, c: real)
    requires c > 0.0 && a < b
    ensures a / c < b / c
  {
  }

  /** `3600 * 24 * 365`: `Plot_AWY` turns the annual volumes into flows. */
  const SecondsPerYear: real := 31536000.0

  /** How many parameter columns the Metric log of each model has
      (`Tmp[:, :k]`); the metric is column k. */
  function ParamCount(m: ModelId): nat {
    match m
    case AWY => 2
    case SWY => 4
    case SDR => 6
    case NDR_N => 5
    case NDR_P => 3
  }

  /** The divisor `Plot_<model>` applies to the metric, Obs and Sim. */
  function Scale(m: ModelId): (c: real)
    ensures c > 0.0
  {
    if m == AWY then SecondsPerYear else 1.0
  }

  /** The best trial as reported: its index, its parameters (`BestParams`)
      and its metric (`BestAREM`). */
  datatype Best = Best(trial: nat, params: seq<real>, metric: real)

  /** The metric column `Tmp[:, k] / scale`. */
  function MetricColumn(rows: seq<seq<real>>, k: nat, scale: real): (metric: seq<real>)
    requires Rectangular(rows, k + 1) && scale > 0.0
    ensures |metric| == |rows|
    ensures forall t :: 0 <= t < |rows| ==> metric[t] == rows[t][k] / scale
  {
    seq(|rows|, t requires 0 <= t < |rows| => rows[t][k] / scale)
  }

  /** The sign-corrected metric column `FactorMetric * Tmp[:, k] / scale`:
      the objective as the user's metric defines it. */
  function ActualMetric(rows: seq<seq<real>>, k: nat, factor: real, scale: real): (metric: seq<real>)
    requires Rectangular(rows, k + 1) && scale > 0.0
    ensures |metric| == |rows|
    ensures forall t :: 0 <= t < |rows| ==> metric[t] == factor * (rows[t][k] / scale)
  {
    seq(|rows|, t requires 0 <= t < |rows| => factor * (rows[t][k] / scale))
  }

  /** The selection as written: `id_min = np.argmin(Metric)` on the stored
      values, which carry the sign factor; `BestAREM = FactorMetric *
      Metric[id_min]`. The trial chosen is the one whose stored value is least. */
  function BestAsWritten(rows: seq<seq<real>>, k: nat, factor: real, scale: real): (b: Best)
    requires |rows| > 0 && Rectangular(rows, k + 1) && scale > 0.0
    ensures b.trial < |rows| && b.params == rows[b.trial][..k]
    ensures b.metric == factor * (rows[b.trial][k] / scale)
    ensures forall t :: 0 <= t < |rows| ==> rows[b.trial][k] <= rows[t][k]
    ensures forall t :: 0 <= t < b.trial ==> rows[b.trial][k] < rows[t][k]
  {
    var metric := MetricColumn(rows, k, scale);
    var i := ArgMin(metric);
    forall t | 0 <= t < |rows| ensures rows[i][k] <= rows[t][k] {
      if rows[t][k] < rows[i][k] {
        DivStrict(rows[t][k], rows[i][k], scale);
      }
    }
    Best(i, rows[i][..k], factor * metric[i])
  }

  /** The selection as intended: the first trial whose sign-corrected metric
      is least, so the trial that fits best under the user's metric whatever
      the sampler. */
  function BestSelected(rows: seq<seq<real>>, k: nat, factor: real, scale: real): (b: Best)
    requires |rows| > 0 && Rectangular(rows, k + 1) && scale > 0.0
    ensures b.trial < |rows| && b.params == rows[b.trial][..k]
    ensures b.metric == factor * (rows[b.trial][k] / scale)
    ensures forall t :: 0 <= t < |rows| ==> b.metric <= factor * (rows[t][k] / scale)
    ensures forall t :: 0 <= t < b.trial ==> b.metric < factor * (rows[t][k] / scale)
  {
    var metric := ActualMetric(rows, k, factor, scale);
    var i := ArgMin(metric);
    Best(i, rows[i][..k], metric[i])
  }

  /** With the sign factor 1 both selections agree. */
  lemma SelectionsAgreeWithoutSign(rows: seq<seq<real>>, k: nat, scale: real)
    requires |rows| > 0 && Rectangular(rows, k + 1) && scale > 0.0
    ensures BestAsWritten(rows, k, 1.0, scale) == BestSelected(rows, k, 1.0, scale)
  {
    assert ActualMetric(rows, k, 1.0, scale) == MetricColumn(rows, k, scale);
  }

  /** Under the sign factor -1 (DDS) the selection as written reports the
      trial whose metric is greatest: the worst fit. */
  lemma AsWrittenIsWorstUnderDds(rows: seq<seq<real>>, k: nat, scale: real)
    requires |rows| > 0 && Rectangular(rows, k + 1) && scale > 0.0
    ensures forall t :: 0 <= t < |rows| ==>
              BestAsWritten(rows, k, -1.0, scale).metric >= -1.0 * (rows[t][k] / scale)
  {
    var b := BestAsWritten(rows, k, -1.0, scale);
    forall t | 0 <= t < |rows| ensures b.metric >= -1.0 * (rows[t][k] / scale) {
      DivMonotone(rows[b.trial][k], rows[t][k], scale);
    }
  }

  /** Two DDS trials whose metrics are 1 and 2 (stored as -1 and -2): the
      selection as written reports trial 1 with metric 2, the intended one
      trial 0 with metric 1. */
  lemma AsWrittenCounterexample()
    ensures BestAsWritten([[0.5, -1.0], [0.7, -2.0]], 1, -1.0, 1.0) == Best(1, [0.7], 2.0)
    ensures BestSelected([[0.5, -1.0], [0.7, -2.0]], 1, -1.0, 1.0) == Best(0, [0.5], 1.0)
  {
    var rows := [[0.5, -1.0], [0.7, -2.0]];
    assert MetricColumn(rows, 1, 1.0) == [-1.0, -2.0];
    assert ArgMin([-1.0, -2.0]) == 1 by {
      assert [-1.0, -2.0][..1] == [-1.0];
    }
    assert rows[1][..1] == [0.7];
    assert ActualMetric(rows, 1, -1.0, 1.0) == [1.0, 2.0];
    assert ArgMin([1.0, 2.0]) == 0 by {
      assert [1.0, 2.0][..1] == [1.0];
    }
    assert rows[0][..1] == [0.5];
  }

  /** What a `Plot_<model>` call computes before drawing: the best trial, the
      observed values of the first trial per gauge (`Obs[:, 0]`) and the
      simulated values of the best trial per gauge (`Sim[:, id_min]`), each
      divided by the model's scale. */
  datatype Selection = Selection(best: Best, obs: seq<real>, sim: seq<real>)

  function DividedBy(v: seq<real>, scale: real): (r: seq<real>)
    requires scale > 0.0
    ensures |r| == |v| && forall i :: 0 <= i < |v| ==> r[i] == v[i] / scale
  {
    seq(|v|, i requires 0 <= i < |v| => v[i] / scale)
  }

  /** The arrays drawn for a chosen best trial: the flat Obs and Sim logs
      reshaped into trials x gauges and transposed, then the column of the
      first trial for Obs and the column of the best trial for Sim. */
  function SelectionFor(m: ModelId, rows: seq<seq<real>>, obsFlat: seq<real>, simFlat: seq<real>, best: Best)
    : (r: Result<Selection, PlotError>)
    requires |rows| > 0 && best.trial < |rows|
    ensures r.Success? <==> |obsFlat| % |rows| == 0 && |simFlat| % |rows| == 0
    ensures r.Success? ==>
              r.value.best == best &&
              r.value.obs == DividedBy(Reshape(obsFlat, |rows|).value[0], Scale(m)) &&
              r.value.sim == DividedBy(Reshape(simFlat, |rows|).value[best.trial], Scale(m))
  {
    var obs :- Reshape(obsFlat, |rows|);
    var sim :- Reshape(simFlat, |rows|);
    var obsT := Transpose(obs, |obsFlat| / |rows|);
    var simT := Transpose(sim, |simFlat| / |rows|);
    ColumnOfTranspose(obs, |obsFlat| / |rows|, 0);
    ColumnOfTranspose(sim, |simFlat| / |rows|, best.trial);
    Success(Selection(best, DividedBy(ColumnOf(obsT, 0), Scale(m)), DividedBy(ColumnOf(simT, best.trial), Scale(m))))
  }

  /** One `Plot_<model>` call as written, from the three logs read back
      (Metric rows, flat Obs values, flat Sim values): the best trial is
      `np.argmin` of the stored, sign-multiplied metric. */
  function PlotSelection(m: ModelId, rows: seq<seq<real>>, obsFlat: seq<real>, simFlat: seq<real>, factor: real)
    : (r: Result<Selection, PlotError>)
    requires Rectangular(rows, ParamCount(m) + 1)
    ensures r.Success? <==> |rows| > 0 && |obsFlat| % |rows| == 0 && |simFlat| % |rows| == 0
    ensures |rows| == 0 ==> r == Failure(NoRows)
    ensures r.Success? ==>
              r.value.best == BestAsWritten(rows, ParamCount(m), factor, Scale(m)) &&
              r.value.obs == DividedBy(Reshape(obsFlat, |rows|).value[0], Scale(m)) &&
              r.value.sim == DividedBy(Reshape(simFlat, |rows|).value[r.value.best.trial], Scale(m))
  {
    if |rows| == 0 then Failure(NoRows)
    else SelectionFor(m, rows, obsFlat, simFlat, BestAsWritten(rows, ParamCount(m), factor, Scale(m)))
  }

  /** The same call with the intended selection: the first trial whose
      sign-corrected metric is least. */
  function PlotSelectionCorrected(m: ModelId, rows: seq<seq<real>>, obsFlat: seq<real>, simFlat: seq<real>, factor: real)
    : (r: Result<Selection, PlotError>)
    requires Rectangular(rows, ParamCount(m) + 1)
    ensures r.Success? <==> |rows| > 0 && |obsFlat| % |rows| == 0 && |simFlat| % |rows| == 0
    ensures |rows| == 0 ==> r == Failure(NoRows)
    ensures r.Success? ==>
              r.value.best == BestSelected(rows, ParamCount(m), factor, Scale(m)) &&
              r.value.obs == DividedBy(Reshape(obsFlat, |rows|).value[0], Scale(m)) &&
              r.value.sim == DividedBy(Reshape(simFlat, |rows|).value[r.value.best.trial], Scale(m))
  {
    if |rows| == 0 then Failure(NoRows)
    else SelectionFor(m, rows, obsFlat, simFlat, BestSelected(rows, ParamCount(m), factor, Scale(m)))
  }

  /** For SCE-UA and LHS (sign 1) the plot as written shows the intended
      trial. */
  lemma PlotSelectionsAgreeWithoutSign(m: ModelId, rows: seq<seq<real>>, obsFlat: seq<real>, simFlat: seq<real>)
    requires Rectangular(rows, ParamCount(m) + 1)
    ensures PlotSelection(m, rows, obsFlat, simFlat, 1.0) == PlotSelectionCorrected(m, rows, obsFlat, simFlat, 1.0)
  {
    if |rows| > 0 {
      SelectionsAgreeWithoutSign(rows, ParamCount(m), Scale(m));
    }
  }

  /** The two selections on the seasonal-model example below. */
  lemma ExampleSelections(rows: seq<seq<real>>)
    requires rows == [[0.0, 0.0, 0.0, 0.0, -1.0], [0.0, 0.0, 0.0, 0.0, -2.0]]
    ensures BestAsWritten(rows, 4, -1.0, 1.0) == Best(1, [0.0, 0.0, 0.0, 0.0], 2.0)
    ensures BestSelected(rows, 4, -1.0, 1.0) == Best(0, [0.0, 0.0, 0.0, 0.0], 1.0)
  {
    assert MetricColumn(rows, 4, 1.0) == [-1.0, -2.0];
    assert ArgMin([-1.0, -2.0]) == 1 by {
      assert [-1.0, -2.0][..1] == [-1.0];
    }
    assert rows[1][..4] == [0.0, 0.0, 0.0, 0.0];
    assert ActualMetric(rows, 4, -1.0, 1.0) == [1.0, 2.0];
    assert ArgMin([1.0, 2.0]) == 0 by {
      assert [1.0, 2.0][..1] == [1.0];
    }
    assert rows[0][..4] == [0.0, 0.0, 0.0, 0.0];
  }

  /** The reshaped one-gauge logs of the example below. */
  lemma ExampleColumns()
    ensures Reshape([5.0, 5.0], 2).Success? && Reshape([1.0, 2.0], 2).Success?
    ensures DividedBy(Reshape([5.0, 5.0], 2).value[0], 1.0) == [5.0]
    ensures DividedBy(Reshape([1.0, 2.0], 2).value[0], 1.0) == [1.0]
    ensures DividedBy(Reshape([1.0, 2.0], 2).value[1], 1.0) == [2.0]
  {
    ReshapeEntry([5.0, 5.0], 2, 0, 0);
    ReshapeEntry([1.0, 2.0], 2, 0, 0);
    ReshapeEntry([1.0, 2.0], 2, 1, 0);
  }

  /** The composed plot under DDS on two seasonal-model trials with errors 1
      and 2 (stored as -1 and -2) and one gauge: as written it shows the
      second trial, its error 2 and its simulation 2; corrected, the first
      trial, error 1 and simulation 1. */
  lemma PlotSelectionCounterexample()
    ensures var rows := [[0.0, 0.0, 0.0, 0.0, -1.0], [0.0, 0.0, 0.0, 0.0, -2.0]];
            PlotSelection(SWY, rows, [5.0, 5.0], [1.0, 2.0], -1.0) ==
              Success(Selection(Best(1, [0.0, 0.0, 0.0, 0.0], 2.0), [5.0], [2.0])) &&
            PlotSelectionCorrected(SWY, rows, [5.0, 5.0], [1.0, 2.0], -1.0) ==
              Success(Selection(Best(0, [0.0, 0.0, 0.0, 0.0], 1.0), [5.0], [1.0]))
  {
    ExampleSelections([[0.0, 0.0, 0.0, 0.0, -1.0], [0.0, 0.0, 0.0, 0.0, -2.0]]);
    ExampleColumns();
  }
}
