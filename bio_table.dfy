/** The biophysical-table transform applied before every calibration trial
    (`Factor_BioTable`): for each enabled model, selected columns of the table
    are multiplied by a calibration factor, rounded and capped, either on the
    rows whose calibration flag is 1 or on every row. */
module BioTable {
  import opened Wrappers
  import opened Numeric

  /** A data frame: a row count and named real columns of that length. */
  datatype Frame = Frame(rows: nat, columns: map<string, seq<real>>)

  predicate WellFormed(t: Frame) {
    forall c :: c in t.columns ==> |t.columns[c]| == t.rows
  }

  /** The trial parameters, by name (`Params`). */
  type Params = map<string, real>

  /** The five run switches of the user configuration (`Status_AWY`, ...). */
  datatype RunStatus = RunStatus(awy: real, swy: real, sdr: real, ndrN: real, ndrP: real)

  /** The annual and seasonal water yield switches are tested for truth
      (any non-zero value); the others for equality with 1. */
  predicate Truthy(x: real) {
    x != 0.0
  }

  /** The monthly crop-coefficient columns `Kc_1` .. `Kc_12`. */
  const MonthlyKc: seq<string> :=
    ["Kc_1", "Kc_2", "Kc_3", "Kc_4", "Kc_5", "Kc_6",
     "Kc_7", "Kc_8", "Kc_9", "Kc_10", "Kc_11", "Kc_12"]


  lemma MonthlyKcDistinct()
    ensures |MonthlyKc| == 12
    ensures forall i, j :: 0 <= i < j < 12 ==> MonthlyKc[i] != MonthlyKc[j]
  {
    forall i, j | 0 <= i < j < 12 ensures MonthlyKc[i] != MonthlyKc[j] {
      if |MonthlyKc[i]| == |MonthlyKc[j]| {
        assert MonthlyKc[i][|MonthlyKc[i]| - 1] != MonthlyKc[j][|MonthlyKc[j]| - 1];
      }
    }
  }

  // ---------------------------------------------------------------------------
  // Per-value rules
  // ---------------------------------------------------------------------------

  /** How a column is recomputed from its value v and the factor f. */
  datatype Rule =
    | KcAnnual   // round(v * f, 2), then 1.2 where that is >= 1.2
    | KcMonthly  // round(v * round(f, 2), 2), then 1.2 where that is >= 1.2
    | UsleC      // round(v * round(f, 2), 5), then 1 where that is > 1
    | UsleP      // round(v * round(f, 2), 2), then 1 where that is > 1
    | Load       // round(v * f, 3)
    | Eff        // round(v * f, 2)

  function Digits(rule: Rule): nat {
    match rule
    case KcAnnual => 2
    case KcMonthly => 2
    case UsleC => 5
    case UsleP => 2
    case Load => 3
    case Eff => 2
  }

  function Cap(rule: Rule, x: real): real {
    if (rule == KcAnnual || rule == KcMonthly) && x >= 1.2 then 1.2
    else if (rule == UsleC || rule == UsleP) && x > 1.0 then 1.0
    else x
  }

  lemma CapValuesHaveDecimals(d: nat)
    requires d >= 2
    ensures HasDecimals(1.2, d) && HasDecimals(1.0, d)
  {
    Pow10Integer(d - 2);
    assert Pow10(d) == 10.0 * (10.0 * Pow10(d - 2));
    var n := Pow10(d - 2).Floor;
    assert (1.2 * Pow10(d)) == (120 * n) as real;
    assert (1.0 * Pow10(d)) == (100 * n) as real;
  }

  lemma {:induction false} Pow10Integer(d: nat)
    ensures IsInteger(Pow10(d))
  {
    if d > 0 {
      Pow10Integer(d - 1);
      var n := Pow10(d - 1).Floor;
      assert Pow10(d) == (10 * n) as real;
    }
  }

  /** The new value of one table entry under a rule, for the value v and the
      factor f. */
  function Apply(rule: Rule, v: real, f: real): real {
    match rule
    case KcAnnual => Cap(rule, Round(v * f, 2))
    case KcMonthly => Cap(rule, Round(v * Round(f, 2), 2))
    case UsleC => Cap(rule, Round(v * Round(f, 2), 5))
    case UsleP => Cap(rule, Round(v * Round(f, 2), 2))
    case Load => Round(v * f, 3)
    case Eff => Round(v * f, 2)
  }

  /** A new value has the rule's number of decimals and never exceeds the
      rule's cap. */
  lemma ApplySpec(rule: Rule, v: real, f: real)
    ensures HasDecimals(Apply(rule, v, f), Digits(rule))
    ensures (rule == KcAnnual || rule == KcMonthly) ==> Apply(rule, v, f) <= 1.2
    ensures (rule == UsleC || rule == UsleP) ==> Apply(rule, v, f) <= 1.0
  {
    CapValuesHaveDecimals(Digits(rule));
  }

  // ---------------------------------------------------------------------------
  // Which columns change, and how
  // ---------------------------------------------------------------------------

  /** A column adjustment: the rule, the factor's parameter name, and the flag
      column that selects the rows (None: every row). */
  datatype Adjust = Adjust(rule: Rule, factor: string, flag: Option<string>)

  /** The adjustment the enabled models make to column c, if any. */
  function Adjustment(s: RunStatus, c: string): Option<Adjust> {
    if c == "Kc" then
      if Truthy(s.awy) then Some(Adjust(KcAnnual, "Factor-Kc", Some("Status_Cal_Kc"))) else None
    else if c == "usle_c" then
      if s.sdr == 1.0 then Some(Adjust(UsleC, "Factor-C", Some("Status_Cal_C"))) else None
    else if c == "usle_p" then
      if s.sdr == 1.0 then Some(Adjust(UsleP, "Factor-P", Some("Status_Cal_P"))) else None
    else if c == "load_n" then
      if s.ndrN == 1.0 then Some(Adjust(Load, "Factor_Load_N", None)) else None
    else if c == "eff_n" then
      if s.ndrN == 1.0 then Some(Adjust(Eff, "Factor_Eff_N", None)) else None
    else if c == "load_p" then
      if s.ndrP == 1.0 then Some(Adjust(Load, "Factor_Load_P", None)) else None
    else if c == "eff_p" then
      if s.ndrP == 1.0 then Some(Adjust(Eff, "Factor_Eff_P", None)) else None
    else if c in MonthlyKc && Truthy(s.swy) then Some(Adjust(KcMonthly, "Factor-Kc_m", Some("Status_Cal_Kc")))
    else None
  }

  // ---------------------------------------------------------------------------
  // Key lookups and KeyError
  // ---------------------------------------------------------------------------

  /** A key the transform looks up: a table column or a trial parameter. */
  datatype Lookup = Column(name: string) | Param(name: string)

  predicate Present(cols: map<string, seq<real>>, p: Params, l: Lookup) {
    match l
    case Column(n) => n in cols
    case Param(n) => n in p
  }

  /** The first key of ls, in order, that is missing: the KeyError raised. */
  function FirstMissing(cols: map<string, seq<real>>, p: Params, ls: seq<Lookup>): Option<string> {
    if |ls| == 0 then None
    else if !Present(cols, p, ls[0]) then Some(ls[0].name)
    else FirstMissing(cols, p, ls[1..])
  }

  predicate Complete(cols: map<string, seq<real>>, p: Params, ls: seq<Lookup>) {
    forall l :: l in ls ==> Present(cols, p, l)
  }


  /** The KeyError is the first missing key: every earlier key is present. */
  lemma {:induction false} FirstMissingSpec(cols: map<string, seq<real>>, p: Params, ls: seq<Lookup>)
    ensures FirstMissing(cols, p, ls).None? <==> Complete(cols, p, ls)
    ensures FirstMissing(cols, p, ls).Some? ==>
              exists i :: 0 <= i < |ls| && !Present(cols, p, ls[i]) && ls[i].name == FirstMissing(cols, p, ls).value &&
                          forall j :: 0 <= j < i ==> Present(cols, p, ls[j])
  {
    if |ls| > 0 {
      FirstMissingSpec(cols, p, ls[1..]);
      assert ls == [ls[0]] + ls[1..];
      if Present(cols, p, ls[0]) && FirstMissing(cols, p, ls[1..]).Some? {
        var i :| 0 <= i < |ls[1..]| && !Present(cols, p, ls[1..][i]) && ls[1..][i].name == FirstMissing(cols, p, ls[1..]).value &&
                 forall j :: 0 <= j < i ==> Present(cols, p, ls[1..][j]);
        assert !Present(cols, p, ls[i + 1]);
        assert forall j :: 0 <= j < i + 1 ==> Present(cols, p, ls[j]) by {
          forall j | 0 <= j < i + 1 ensures Present(cols, p, ls[j]) {
            if j > 0 { assert ls[j] == ls[1..][j - 1]; }
          }
        }
      }
    }
  }

  lemma {:induction false} FirstMissingAppend(cols: map<string, seq<real>>, p: Params, a: seq<Lookup>, b: seq<Lookup>)
    ensures FirstMissing(cols, p, a + b) ==
            if FirstMissing(cols, p, a).Some? then FirstMissing(cols, p, a) else FirstMissing(cols, p, b)
  {
    if |a| > 0 {
      assert (a + b)[1..] == a[1..] + b;
      FirstMissingAppend(cols, p, a[1..], b);
    } else {
      assert a + b == b;
    }
  }

  /** The KeyError of a lookup sequence depends only on the key sets. */
  lemma {:induction false} FirstMissingKeys(c1: map<string, seq<real>>, c2: map<string, seq<real>>, p: Params, ls: seq<Lookup>)
    requires c1.Keys == c2.Keys
    ensures FirstMissing(c1, p, ls) == FirstMissing(c2, p, ls)
  {
    if |ls| > 0 {
      assert Present(c1, p, ls[0]) == Present(c2, p, ls[0]);
      FirstMissingKeys(c1, c2, p, ls[1..]);
    }
  }

  // ---------------------------------------------------------------------------
  // The transform as the source performs it, one column assignment at a time
  // ---------------------------------------------------------------------------

  /** One column assignment of the transform: the column, its rule, the
      factor's parameter name and the flag column; `whole` marks the nutrient
      columns, which after the masked assignment are replaced as a whole. */
  datatype Step = Step(col: string, rule: Rule, factor: string, flag: string, whole: bool)

  /** The keys one step looks up, in evaluation order. */
  function StepLookups(st: Step): seq<Lookup> {
    [Column(st.col), Param(st.factor), Column(st.flag)]
  }

  function AllLookups(steps: seq<Step>): seq<Lookup> {
    if |steps| == 0 then [] else StepLookups(steps[0]) + AllLookups(steps[1..])
  }

  const AwySteps: seq<Step> := [Step("Kc", KcAnnual, "Factor-Kc", "Status_Cal_Kc", false)]

  /** The `for ij in range(1, 13)` loop: month ij adjusts `Kc_<ij>`. */
  function MonthSteps(): (ms: seq<Step>)
    ensures |ms| == 12
  {
    seq(12, j requires 0 <= j < 12 => Step(MonthlyKc[j], KcMonthly, "Factor-Kc_m", "Status_Cal_Kc", false))
  }

  const SdrSteps: seq<Step> :=
    [Step("usle_c", UsleC, "Factor-C", "Status_Cal_C", false), Step("usle_p", UsleP, "Factor-P", "Status_Cal_P", false)]

  const NdrNSteps: seq<Step> :=
    [Step("load_n", Load, "Factor_Load_N", "Status_Cal_Load_N", true), Step("eff_n", Eff, "Factor_Eff_N", "Status_Cal_Eff_N", true)]

  const NdrPSteps: seq<Step> :=
    [Step("load_p", Load, "Factor_Load_P", "Status_Cal_Load_P", true), Step("eff_p", Eff, "Factor_Eff_P", "Status_Cal_Eff_P", true)]

  /** The column assignments the enabled models perform, in source order. */
  function Steps(s: RunStatus): seq<Step> {
    (if Truthy(s.awy) then AwySteps else []) +
    ((if Truthy(s.swy) then MonthSteps() else []) +
     ((if s.sdr == 1.0 then SdrSteps else []) +
      ((if s.ndrN == 1.0 then NdrNSteps else []) +
       (if s.ndrP == 1.0 then NdrPSteps else []))))
  }

  /** Every key the transform looks up under status s, in order. */
  function Lookups(s: RunStatus): seq<Lookup> {
    AllLookups(Steps(s))
  }

  /** `round(column * factor, d)` and its cap, element-wise (the `Values` series). */
  function Scaled(col: seq<real>, rule: Rule, f: real): (values: seq<real>)
    ensures |values| == |col|
    ensures forall i :: 0 <= i < |col| ==> values[i] == Apply(rule, col[i], f)
  {
    seq(|col|, i requires 0 <= i < |col| => Apply(rule, col[i], f))
  }

  /** `column.loc[flag == 1] = values.loc[flag == 1]`: flagged rows take the
      new values, the others keep theirs. */
  function Overlay(col: seq<real>, flag: seq<real>, values: seq<real>): (r: seq<real>)
    requires |flag| == |col| && |values| == |col|
    ensures |r| == |col|
    ensures forall i :: 0 <= i < |col| ==> r[i] == (if flag[i] == 1.0 then values[i] else col[i])
  {
    seq(|col|, i requires 0 <= i < |col| => if flag[i] == 1.0 then values[i] else col[i])
  }

  lemma StepPresent(cols: map<string, seq<real>>, p: Params, st: Step)
    requires FirstMissing(cols, p, StepLookups(st)) == None
    ensures st.col in cols && st.factor in p && st.flag in cols
  {
    var ls := StepLookups(st);
    assert ls[1..] == [Param(st.factor), Column(st.flag)];
    assert ls[1..][1..] == [Column(st.flag)];
    assert FirstMissing(cols, p, ls[1..][1..]) == None;
  }

  /** One step on table f: the KeyError of its first missing key, or the table
      with only the step's column reassigned. */
  function Update(f: Frame, p: Params, st: Step): (r: Result<Frame, string>)
    requires WellFormed(f)
    ensures r.Failure? <==> FirstMissing(f.columns, p, StepLookups(st)).Some?
    ensures r.Failure? ==> r.error == FirstMissing(f.columns, p, StepLookups(st)).value
    ensures r.Success? ==> st.col in f.columns && st.factor in p && st.flag in f.columns
    ensures r.Success? ==> WellFormed(r.value) && r.value.rows == f.rows && r.value.columns.Keys == f.columns.Keys
    ensures r.Success? ==> forall c :: c in f.columns && c != st.col ==> r.value.columns[c] == f.columns[c]
  {
    match FirstMissing(f.columns, p, StepLookups(st))
    case Some(key) => Failure(key)
    case None =>
      StepPresent(f.columns, p, st);
      var values := Scaled(f.columns[st.col], st.rule, p[st.factor]);
      var masked := f.columns[st.col := Overlay(f.columns[st.col], f.columns[st.flag], values)];
      Success(Frame(f.rows, if st.whole then masked[st.col := values] else masked))
  }

  /** The steps in order, stopping at the first KeyError. */
  function RunSteps(f: Frame, p: Params, steps: seq<Step>): (r: Result<Frame, string>)
    requires WellFormed(f)
    ensures r.Success? ==> WellFormed(r.value) && r.value.rows == f.rows && r.value.columns.Keys == f.columns.Keys
    decreases |steps|
  {
    if |steps| == 0 then Success(f)
    else
      match Update(f, p, steps[0])
      case Failure(e) => Failure(e)
      case Success(g) => RunSteps(g, p, steps[1..])
  }

  /** The steps fail exactly when one of their keys is missing, and the error
      names the first missing key in lookup order. */
  lemma {:induction false} RunStepsKeyError(f: Frame, p: Params, steps: seq<Step>)
    requires WellFormed(f)
    ensures RunSteps(f, p, steps).Failure? <==> FirstMissing(f.columns, p, AllLookups(steps)).Some?
    ensures RunSteps(f, p, steps).Failure? ==> RunSteps(f, p, steps).error == FirstMissing(f.columns, p, AllLookups(steps)).value
    decreases |steps|
  {
    if |steps| > 0 {
      FirstMissingAppend(f.columns, p, StepLookups(steps[0]), AllLookups(steps[1..]));
      var u := Update(f, p, steps[0]);
      if u.Success? {
        FirstMissingKeys(u.value.columns, f.columns, p, AllLookups(steps[1..]));
        RunStepsKeyError(u.value, p, steps[1..]);
      }
    }
  }

  /** The first step that assigns column c. */
  function Target(steps: seq<Step>, c: string): (r: Option<Step>)
    ensures r.Some? ==> r.value in steps && r.value.col == c
    ensures r.None? ==> forall i :: 0 <= i < |steps| ==> steps[i].col != c
  {
    if |steps| == 0 then None
    else if steps[0].col == c then Some(steps[0])
    else Target(steps[1..], c)
  }

  /** No column is assigned twice. */
  predicate Distinct(steps: seq<Step>) {
    forall i, j :: 0 <= i < j < |steps| ==> steps[i].col != steps[j].col
  }

  /** No step assigns a column that some step reads as its flag. */
  predicate FlagsKept(steps: seq<Step>) {
    forall a, b :: a in steps && b in steps ==> a.col != b.flag
  }

  /** A step's effect on its column depends only on that column and its flag. */
  lemma UpdateLocal(f: Frame, g: Frame, p: Params, st: Step)
    requires WellFormed(f) && WellFormed(g) && f.rows == g.rows && f.columns.Keys == g.columns.Keys
    requires st.col in f.columns && f.columns[st.col] == g.columns[st.col]
    requires st.flag in f.columns && f.columns[st.flag] == g.columns[st.flag]
    ensures Update(f, p, st).Success? == Update(g, p, st).Success?
    ensures Update(f, p, st).Success? ==> Update(f, p, st).value.columns[st.col] == Update(g, p, st).value.columns[st.col]
  {
    FirstMissingKeys(f.columns, g.columns, p, StepLookups(st));
  }

  /** After a run of the steps, column c is what the one step assigning it
      makes of the original table; a column no step assigns is unchanged. */
  lemma {:induction false} RunStepsColumn(f: Frame, p: Params, steps: seq<Step>, c: string)
    requires WellFormed(f) && c in f.columns
    requires Distinct(steps) && FlagsKept(steps)
    requires RunSteps(f, p, steps).Success?
    ensures Target(steps, c).None? ==> RunSteps(f, p, steps).value.columns[c] == f.columns[c]
    ensures Target(steps, c).Some? ==>
              Update(f, p, Target(steps, c).value).Success? &&
              RunSteps(f, p, steps).value.columns[c] == Update(f, p, Target(steps, c).value).value.columns[c]
    decreases |steps|
  {
    if |steps| > 0 {
      var st := steps[0];
      var rest := steps[1..];
      var g := Update(f, p, st).value;
      assert RunSteps(f, p, steps) == RunSteps(g, p, rest);
      assert Distinct(rest) by {
        forall i, j | 0 <= i < j < |rest| ensures rest[i].col != rest[j].col {
          assert rest[i] == steps[i + 1] && rest[j] == steps[j + 1];
        }
      }
      assert FlagsKept(rest) by {
        forall a, b | a in rest && b in rest ensures a.col != b.flag {
          assert a in steps && b in steps;
        }
      }
      RunStepsColumn(g, p, rest, c);
      if c != st.col && Target(rest, c).Some? {
        var t := Target(rest, c).value;
        assert t in steps;
        assert st.col != t.flag;
        UpdateLocal(f, g, p, t);
      }
    }
  }

  /** Parameter k is present in both or in neither, with the same value. */
  predicate AgreeOn(p1: Params, p2: Params, k: string) {
    (k in p1 <==> k in p2) && (k in p1 ==> p1[k] == p2[k])
  }

  /** The transform reads a trial parameter only as the factor of a step:
      parameters that agree on every factor give the same run. */
  lemma {:induction false} RunStepsParams(f: Frame, p1: Params, p2: Params, steps: seq<Step>)
    requires WellFormed(f)
    requires forall st :: st in steps ==> AgreeOn(p1, p2, st.factor)
    ensures RunSteps(f, p1, steps) == RunSteps(f, p2, steps)
    decreases |steps|
  {
    if |steps| > 0 {
      var st := steps[0];
      assert AgreeOn(p1, p2, st.factor);
      var ls := StepLookups(st);
      assert ls[1..] == [Param(st.factor), Column(st.flag)];
      assert ls[1..][1..] == [Column(st.flag)];
      assert Present(f.columns, p1, ls[1]) == Present(f.columns, p2, ls[1]);
      assert FirstMissing(f.columns, p1, ls[1..][1..]) == FirstMissing(f.columns, p2, ls[1..][1..]);
      assert FirstMissing(f.columns, p1, ls) == FirstMissing(f.columns, p2, ls);
      assert Update(f, p1, st) == Update(f, p2, st);
      if Update(f, p1, st).Success? {
        assert forall x :: x in steps[1..] ==> x in steps;
        RunStepsParams(Update(f, p1, st).value, p1, p2, steps[1..]);
      }
    }
  }

  // ---------------------------------------------------------------------------
  // The steps agree with the declarative column table
  // ---------------------------------------------------------------------------

  /** The declared adjustment of a step. */
  function AdjustOf(st: Step): Adjust {
    Adjust(st.rule, st.factor, if st.whole then None else Some(st.flag))
  }

  lemma MonthlyKcShape()
    ensures |MonthlyKc| == 12
    ensures forall j :: 0 <= j < 12 ==> |MonthlyKc[j]| >= 4 && MonthlyKc[j][0] == 'K' && MonthlyKc[j][2] == '_'
  {
  }

  /** A monthly column is none of the other adjusted columns. */
  lemma MonthlyName(c: string)
    requires c in MonthlyKc
    ensures c != "Kc" && c != "usle_c" && c != "usle_p"
    ensures c != "load_n" && c != "eff_n" && c != "load_p" && c != "eff_p"
    ensures BlockOf(c) == 1
  {
    MonthlyKcShape();
    var j :| 0 <= j < 12 && MonthlyKc[j] == c;
    assert c[0] == 'K' && |c| >= 4;
  }

  lemma MonthStepsAdjust(s: RunStatus, st: Step)
    requires st in MonthSteps() && Truthy(s.swy)
    ensures Adjustment(s, st.col) == Some(AdjustOf(st))
  {
    var j :| 0 <= j < 12 && MonthSteps()[j] == st;
    assert st.col in MonthlyKc;
    MonthlyName(st.col);
  }

  /** Every step the status enables is the adjustment declared for its column. */
  lemma StepsAdjust(s: RunStatus, st: Step)
    requires st in Steps(s)
    ensures Adjustment(s, st.col) == Some(AdjustOf(st))
  {
    if st in MonthSteps() && Truthy(s.swy) {
      MonthStepsAdjust(s, st);
    }
  }

  /** Every column with a declared adjustment is assigned by an enabled step. */
  lemma AdjustStep(s: RunStatus, c: string) returns (st: Step)
    requires Adjustment(s, c).Some?
    ensures st in Steps(s) && st.col == c
  {
    if c == "Kc" {
      st := AwySteps[0];
    } else if c == "usle_c" || c == "usle_p" {
      st := if c == "usle_c" then SdrSteps[0] else SdrSteps[1];
    } else if c == "load_n" || c == "eff_n" {
      st := if c == "load_n" then NdrNSteps[0] else NdrNSteps[1];
    } else if c == "load_p" || c == "eff_p" {
      st := if c == "load_p" then NdrPSteps[0] else NdrPSteps[1];
    } else {
      var j :| 0 <= j < 12 && MonthlyKc[j] == c;
      st := MonthSteps()[j];
    }
  }

  /** Flag columns are never adjusted. */
  lemma FlagsNotAdjusted(s: RunStatus)
    ensures Adjustment(s, "Status_Cal_Kc") == None && Adjustment(s, "Status_Cal_C") == None
    ensures Adjustment(s, "Status_Cal_P") == None
    ensures Adjustment(s, "Status_Cal_Load_N") == None && Adjustment(s, "Status_Cal_Eff_N") == None
    ensures Adjustment(s, "Status_Cal_Load_P") == None && Adjustment(s, "Status_Cal_Eff_P") == None
  {
    MonthlyKcShape();
  }

  /** No adjusted column starts with 'S', as every flag column does. */
  lemma FlagNameNotAdjusted(s: RunStatus, c: string)
    requires |c| > 0 && c[0] == 'S'
    ensures Adjustment(s, c) == None
  {
    MonthlyKcShape();
    assert c !in MonthlyKc;
  }

  lemma StepFlags(s: RunStatus, st: Step)
    requires st in Steps(s)
    ensures Adjustment(s, st.flag) == None
  {
    assert |st.flag| > 0 && st.flag[0] == 'S' by {
      if st in MonthSteps() {
        var j :| 0 <= j < 12 && MonthSteps()[j] == st;
      }
    }
    FlagNameNotAdjusted(s, st.flag);
  }

  lemma StepsFlagsKept(s: RunStatus)
    ensures FlagsKept(Steps(s))
  {
    forall a, b | a in Steps(s) && b in Steps(s) ensures a.col != b.flag {
      StepsAdjust(s, a);
      StepFlags(s, b);
    }
  }

  /** The block of the transform that may assign column c (0: annual water
      yield, 1: seasonal, 2: sediment, 3: nitrogen, 4: phosphorus, 5: none). */
  function BlockOf(c: string): nat {
    if c == "Kc" then 0
    else if c == "usle_c" || c == "usle_p" then 2
    else if c == "load_n" || c == "eff_n" then 3
    else if c == "load_p" || c == "eff_p" then 4
    else if c in MonthlyKc then 1
    else 5
  }

  /** Each block assigns distinct columns, all of that block. */
  lemma BlockSteps()
    ensures Distinct(AwySteps) && forall x :: x in AwySteps ==> BlockOf(x.col) == 0
    ensures Distinct(MonthSteps()) && forall x :: x in MonthSteps() ==> BlockOf(x.col) == 1
    ensures Distinct(SdrSteps) && forall x :: x in SdrSteps ==> BlockOf(x.col) == 2
    ensures Distinct(NdrNSteps) && forall x :: x in NdrNSteps ==> BlockOf(x.col) == 3
    ensures Distinct(NdrPSteps) && forall x :: x in NdrPSteps ==> BlockOf(x.col) == 4
  {
    MonthBlock();
  }

  lemma MonthBlock()
    ensures Distinct(MonthSteps()) && forall x :: x in MonthSteps() ==> BlockOf(x.col) == 1
  {
    MonthlyKcDistinct();
    forall x | x in MonthSteps() ensures BlockOf(x.col) == 1 {
      var j :| 0 <= j < 12 && MonthSteps()[j] == x;
      assert x.col in MonthlyKc;
      MonthlyName(x.col);
    }
  }

  /** Appending a later block keeps the columns distinct. */
  lemma DistinctAppend(a: seq<Step>, b: seq<Step>, k: nat)
    requires Distinct(a) && Distinct(b)
    requires forall x :: x in a ==> BlockOf(x.col) == k
    requires forall y :: y in b ==> BlockOf(y.col) > k
    ensures Distinct(a + b)
    ensures forall z :: z in a + b ==> BlockOf(z.col) >= k
  {
    forall i, j | 0 <= i < j < |a + b| ensures (a + b)[i].col != (a + b)[j].col {
      if j < |a| {
        assert (a + b)[i] == a[i] && (a + b)[j] == a[j];
      } else if i >= |a| {
        assert (a + b)[i] == b[i - |a|] && (a + b)[j] == b[j - |a|];
      } else {
        assert (a + b)[i] in a && (a + b)[j] in b;
      }
    }
  }

  /** No enabled step assigns a column twice. */
  lemma StepsDistinct(s: RunStatus)
    ensures Distinct(Steps(s))
  {
    BlockSteps();
    var p4 := if s.ndrP == 1.0 then NdrPSteps else [];
    var p3 := if s.ndrN == 1.0 then NdrNSteps else [];
    var p2 := if s.sdr == 1.0 then SdrSteps else [];
    var p1 := if Truthy(s.swy) then MonthSteps() else [];
    var p0 := if Truthy(s.awy) then AwySteps else [];
    DistinctAppend(p3, p4, 3);
    DistinctAppend(p2, p3 + p4, 2);
    DistinctAppend(p1, p2 + (p3 + p4), 1);
    DistinctAppend(p0, p1 + (p2 + (p3 + p4)), 0);
  }

  /** Each step's keys are among the lookups of a sequence holding it. */
  lemma {:induction false} StepLookupsIn(steps: seq<Step>, st: Step)
    requires st in steps
    ensures forall l :: l in StepLookups(st) ==> l in AllLookups(steps)
    decreases |steps|
  {
    if steps[0] != st {
      assert st in steps[1..];
      StepLookupsIn(steps[1..], st);
    }
  }

  // ---------------------------------------------------------------------------
  // The declarative result
  // ---------------------------------------------------------------------------

  /** The keys the adjustment of column c needs (its factor, its flag column). */
  predicate Ready(t: Frame, p: Params, s: RunStatus, c: string) {
    match Adjustment(s, c)
    case None => true
    case Some(a) => a.factor in p && (a.flag.Some? ==> a.flag.value in t.columns)
  }

  lemma CompleteReady(t: Frame, p: Params, s: RunStatus, c: string)
    requires Complete(t.columns, p, Lookups(s))
    ensures Ready(t, p, s, c)
    ensures Adjustment(s, c).Some? ==> c in t.columns
  {
    if Adjustment(s, c).Some? {
      var st := AdjustStep(s, c);
      StepsAdjust(s, st);
      StepLookupsIn(Steps(s), st);
      assert Column(c) in StepLookups(st);
      assert Param(st.factor) in StepLookups(st) && Column(st.flag) in StepLookups(st);
    }
  }

  /** Entry i of column c after the transform: adjusted when the column is
      adjusted and the row is selected (flag == 1, or no flag), else kept. */
  function NewEntry(t: Frame, p: Params, s: RunStatus, c: string, i: nat): real
    requires WellFormed(t) && c in t.columns && i < t.rows && Ready(t, p, s, c)
  {
    match Adjustment(s, c)
    case None => t.columns[c][i]
    case Some(a) =>
      if a.flag.None? || t.columns[a.flag.value][i] == 1.0 then Apply(a.rule, t.columns[c][i], p[a.factor])
      else t.columns[c][i]
  }

  function NewColumn(t: Frame, p: Params, s: RunStatus, c: string): (col: seq<real>)
    requires WellFormed(t) && c in t.columns && Ready(t, p, s, c)
    ensures |col| == t.rows
  {
    seq(t.rows, i requires 0 <= i < t.rows => NewEntry(t, p, s, c, i))
  }

  /** The transformed table, when every lookup succeeds. */
  function Transformed(t: Frame, p: Params, s: RunStatus): (u: Frame)
    requires WellFormed(t) && Complete(t.columns, p, Lookups(s))
    ensures WellFormed(u) && u.rows == t.rows && u.columns.Keys == t.columns.Keys
  {
    Frame(t.rows, map c | c in t.columns :: CompleteReady(t, p, s, c); NewColumn(t, p, s, c))
  }

  /** An enabled step, applied to the original table, gives its column's
      declared new values. */
  lemma UpdateIsNewColumn(t: Frame, p: Params, s: RunStatus, st: Step)
    requires WellFormed(t) && st in Steps(s) && Update(t, p, st).Success?
    ensures Ready(t, p, s, st.col)
    ensures Update(t, p, st).value.columns[st.col] == NewColumn(t, p, s, st.col)
  {
    StepsAdjust(s, st);
    var col := Update(t, p, st).value.columns[st.col];
    forall i | 0 <= i < t.rows ensures col[i] == NewEntry(t, p, s, st.col, i) {
    }
  }

  /** The step-by-step run fails with the first missing key, and otherwise
      yields the declarative result. */
  lemma RunMeaning(t: Frame, p: Params, s: RunStatus)
    requires WellFormed(t)
    ensures FirstMissing(t.columns, p, Lookups(s)).Some? ==>
              RunSteps(t, p, Steps(s)) == Failure(FirstMissing(t.columns, p, Lookups(s)).value)
    ensures FirstMissing(t.columns, p, Lookups(s)).None? ==>
              Complete(t.columns, p, Lookups(s)) && RunSteps(t, p, Steps(s)) == Success(Transformed(t, p, s))
  {
    RunStepsKeyError(t, p, Steps(s));
    FirstMissingSpec(t.columns, p, Lookups(s));
    if FirstMissing(t.columns, p, Lookups(s)).None? {
      var u := RunSteps(t, p, Steps(s)).value;
      var v := Transformed(t, p, s);
      StepsDistinct(s);
      StepsFlagsKept(s);
      forall c | c in t.columns ensures u.columns[c] == v.columns[c] {
        RunStepsColumn(t, p, Steps(s), c);
        CompleteReady(t, p, s, c);
        match Target(Steps(s), c)
        case None =>
          if Adjustment(s, c).Some? {
            var st := AdjustStep(s, c);
            assert false;
          }
        case Some(st) =>
          UpdateIsNewColumn(t, p, s, st);
      }
      assert u.columns == v.columns;
    }
  }

  // ---------------------------------------------------------------------------
  // Properties of the transformed table
  // ---------------------------------------------------------------------------

  lemma TransformedEntry(t: Frame, p: Params, s: RunStatus, c: string, i: nat)
    requires WellFormed(t) && Complete(t.columns, p, Lookups(s)) && c in t.columns && i < t.rows
    ensures Ready(t, p, s, c)
    ensures Transformed(t, p, s).columns[c][i] == NewEntry(t, p, s, c, i)
  {
    CompleteReady(t, p, s, c);
  }

  /** Annual water yield: on the rows flagged in `Status_Cal_Kc`, `Kc` becomes
      round(Kc * factor, 2), or exactly 1.2 where that reaches 1.2; the other
      rows keep their value. */
  lemma AnnualKcRows(t: Frame, p: Params, s: RunStatus)
    requires WellFormed(t) && Complete(t.columns, p, Lookups(s)) && Truthy(s.awy)
    ensures "Kc" in t.columns && "Status_Cal_Kc" in t.columns && "Factor-Kc" in p
    ensures forall i :: 0 <= i < t.rows ==>
              var v := t.columns["Kc"][i];
              var x := Round(v * p["Factor-Kc"], 2);
              Transformed(t, p, s).columns["Kc"][i] ==
                if t.columns["Status_Cal_Kc"][i] == 1.0 then (if x >= 1.2 then 1.2 else x) else v
  {
    CompleteReady(t, p, s, "Kc");
    assert Adjustment(s, "Kc") == Some(Adjust(KcAnnual, "Factor-Kc", Some("Status_Cal_Kc")));
    forall i | 0 <= i < t.rows
      ensures var v := t.columns["Kc"][i];
              var x := Round(v * p["Factor-Kc"], 2);
              Transformed(t, p, s).columns["Kc"][i] ==
                if t.columns["Status_Cal_Kc"][i] == 1.0 then (if x >= 1.2 then 1.2 else x) else v
    {
      TransformedEntry(t, p, s, "Kc", i);
    }
  }

  /** Seasonal water yield: each `Kc_<m>` is adjusted like `Kc`, with the
      shared flag `Status_Cal_Kc` and the factor first rounded to 2 decimals. */
  lemma MonthlyKcRows(t: Frame, p: Params, s: RunStatus, c: string)
    requires WellFormed(t) && Complete(t.columns, p, Lookups(s)) && Truthy(s.swy) && c in MonthlyKc
    ensures c in t.columns && "Status_Cal_Kc" in t.columns && "Factor-Kc_m" in p
    ensures forall i :: 0 <= i < t.rows ==>
              var v := t.columns[c][i];
              var x := Round(v * Round(p["Factor-Kc_m"], 2), 2);
              Transformed(t, p, s).columns[c][i] ==
                if t.columns["Status_Cal_Kc"][i] == 1.0 then (if x >= 1.2 then 1.2 else x) else v
  {
    MonthlyKcShape();
    CompleteReady(t, p, s, c);
    assert Adjustment(s, c) == Some(Adjust(KcMonthly, "Factor-Kc_m", Some("Status_Cal_Kc")));
    forall i | 0 <= i < t.rows
      ensures var v := t.columns[c][i];
              var x := Round(v * Round(p["Factor-Kc_m"], 2), 2);
              Transformed(t, p, s).columns[c][i] ==
                if t.columns["Status_Cal_Kc"][i] == 1.0 then (if x >= 1.2 then 1.2 else x) else v
    {
      TransformedEntry(t, p, s, c, i);
    }
  }

  /** Sediment delivery ratio: flagged rows of `usle_c` become
      round(c * round(fC, 2), 5) and of `usle_p` round(p * round(fP, 2), 2),
      each replaced by 1 where it exceeds 1; unflagged rows are unchanged. */
  lemma SedimentRows(t: Frame, p: Params, s: RunStatus)
    requires WellFormed(t) && Complete(t.columns, p, Lookups(s)) && s.sdr == 1.0
    ensures "usle_c" in t.columns && "Status_Cal_C" in t.columns && "Factor-C" in p
    ensures "usle_p" in t.columns && "Status_Cal_P" in t.columns && "Factor-P" in p
    ensures forall i :: 0 <= i < t.rows ==>
              var v := t.columns["usle_c"][i];
              var x := Round(v * Round(p["Factor-C"], 2), 5);
              Transformed(t, p, s).columns["usle_c"][i] ==
                if t.columns["Status_Cal_C"][i] == 1.0 then (if x > 1.0 then 1.0 else x) else v
    ensures forall i :: 0 <= i < t.rows ==>
              var v := t.columns["usle_p"][i];
              var x := Round(v * Round(p["Factor-P"], 2), 2);
              Transformed(t, p, s).columns["usle_p"][i] ==
                if t.columns["Status_Cal_P"][i] == 1.0 then (if x > 1.0 then 1.0 else x) else v
  {
    CompleteReady(t, p, s, "usle_c");
    CompleteReady(t, p, s, "usle_p");
    assert Adjustment(s, "usle_c") == Some(Adjust(UsleC, "Factor-C", Some("Status_Cal_C")));
    assert Adjustment(s, "usle_p") == Some(Adjust(UsleP, "Factor-P", Some("Status_Cal_P")));
    forall i | 0 <= i < t.rows
      ensures var v := t.columns["usle_c"][i];
              var x := Round(v * Round(p["Factor-C"], 2), 5);
              Transformed(t, p, s).columns["usle_c"][i] ==
                if t.columns["Status_Cal_C"][i] == 1.0 then (if x > 1.0 then 1.0 else x) else v
    {
      TransformedEntry(t, p, s, "usle_c", i);
    }
    forall i | 0 <= i < t.rows
      ensures var v := t.columns["usle_p"][i];
              var x := Round(v * Round(p["Factor-P"], 2), 2);
              Transformed(t, p, s).columns["usle_p"][i] ==
                if t.columns["Status_Cal_P"][i] == 1.0 then (if x > 1.0 then 1.0 else x) else v
    {
      TransformedEntry(t, p, s, "usle_p", i);
    }
  }

  /** Nutrient delivery ratio: `load_*` becomes round(v * f, 3) and `eff_*`
      round(v * f, 2) on every row, whatever its flag, with no cap, because
      the masked assignment is followed by a whole-column assignment. */
  lemma NutrientColumns(t: Frame, p: Params, s: RunStatus)
    requires WellFormed(t) && Complete(t.columns, p, Lookups(s))
    ensures s.ndrN == 1.0 ==>
              "load_n" in t.columns && "eff_n" in t.columns && "Factor_Load_N" in p && "Factor_Eff_N" in p &&
              (forall i :: 0 <= i < t.rows ==>
                 Transformed(t, p, s).columns["load_n"][i] == Round(t.columns["load_n"][i] * p["Factor_Load_N"], 3) &&
                 Transformed(t, p, s).columns["eff_n"][i] == Round(t.columns["eff_n"][i] * p["Factor_Eff_N"], 2))
    ensures s.ndrP == 1.0 ==>
              "load_p" in t.columns && "eff_p" in t.columns && "Factor_Load_P" in p && "Factor_Eff_P" in p &&
              (forall i :: 0 <= i < t.rows ==>
                 Transformed(t, p, s).columns["load_p"][i] == Round(t.columns["load_p"][i] * p["Factor_Load_P"], 3) &&
                 Transformed(t, p, s).columns["eff_p"][i] == Round(t.columns["eff_p"][i] * p["Factor_Eff_P"], 2))
  {
    if s.ndrN == 1.0 {
      CompleteReady(t, p, s, "load_n");
      CompleteReady(t, p, s, "eff_n");
      forall i | 0 <= i < t.rows
        ensures Transformed(t, p, s).columns["load_n"][i] == Round(t.columns["load_n"][i] * p["Factor_Load_N"], 3)
        ensures Transformed(t, p, s).columns["eff_n"][i] == Round(t.columns["eff_n"][i] * p["Factor_Eff_N"], 2)
      {
        TransformedEntry(t, p, s, "load_n", i);
        TransformedEntry(t, p, s, "eff_n", i);
      }
    }
    if s.ndrP == 1.0 {
      CompleteReady(t, p, s, "load_p");
      CompleteReady(t, p, s, "eff_p");
      forall i | 0 <= i < t.rows
        ensures Transformed(t, p, s).columns["load_p"][i] == Round(t.columns["load_p"][i] * p["Factor_Load_P"], 3)
        ensures Transformed(t, p, s).columns["eff_p"][i] == Round(t.columns["eff_p"][i] * p["Factor_Eff_P"], 2)
      {
        TransformedEntry(t, p, s, "load_p", i);
        TransformedEntry(t, p, s, "eff_p", i);
      }
    }
  }

  /** Whether block k of the transform runs under status s. */
  predicate Enabled(s: RunStatus, k: nat) {
    if k == 0 then Truthy(s.awy)
    else if k == 1 then Truthy(s.swy)
    else if k == 2 then s.sdr == 1.0
    else if k == 3 then s.ndrN == 1.0
    else if k == 4 then s.ndrP == 1.0
    else false
  }

  /** A column is adjusted exactly when it belongs to a block that runs. */
  lemma AdjustmentBlocks(s: RunStatus, c: string)
    ensures Adjustment(s, c).Some? <==> Enabled(s, BlockOf(c))
  {
  }

  /** Columns of disabled models, and columns no model adjusts, are unchanged. */
  lemma DisabledUnchanged(t: Frame, p: Params, s: RunStatus, c: string)
    requires WellFormed(t) && Complete(t.columns, p, Lookups(s)) && c in t.columns
    requires !Enabled(s, BlockOf(c))
    ensures Transformed(t, p, s).columns[c] == t.columns[c]
  {
    AdjustmentBlocks(s, c);
  }

  /** With every model switched off nothing is looked up and the table is
      returned as read. */
  lemma AllDisabledIdentity(t: Frame, p: Params, s: RunStatus)
    requires WellFormed(t)
    requires !Truthy(s.awy) && !Truthy(s.swy) && s.sdr != 1.0 && s.ndrN != 1.0 && s.ndrP != 1.0
    ensures Lookups(s) == [] && Complete(t.columns, p, Lookups(s))
    ensures Transformed(t, p, s) == t
  {
    var u := Transformed(t, p, s);
    forall c | c in t.columns ensures u.columns[c] == t.columns[c] {
      DisabledUnchanged(t, p, s, c);
    }
    assert u.columns == t.columns;
  }

  /** With a unit factor a value is adjusted at most once: its rounded and
      capped form is a fixed point. */
  lemma ApplyUnitIdempotent(rule: Rule, v: real)
    ensures Apply(rule, Apply(rule, v, 1.0), 1.0) == Apply(rule, v, 1.0)
  {
    ApplySpec(rule, v, 1.0);
    UnitFactorKeeps(rule, Apply(rule, v, 1.0));
  }

  /** A value that already has the rule's decimals and lies under its cap is
      a fixed point of the rule with factor 1. */
  lemma UnitFactorKeeps(rule: Rule, x: real)
    requires HasDecimals(x, Digits(rule))
    requires (rule == KcAnnual || rule == KcMonthly) ==> x <= 1.2
    requires (rule == UsleC || rule == UsleP) ==> x <= 1.0
    ensures Apply(rule, x, 1.0) == x
  {
    if rule == KcAnnual || rule == Load || rule == Eff {
      UnitFactorDirect(rule, x);
    } else {
      UnitFactorRounded(rule, x);
    }
  }

  /** The rules that multiply by the factor as given. */
  lemma UnitFactorDirect(rule: Rule, x: real)
    requires rule == KcAnnual || rule == Load || rule == Eff
    requires HasDecimals(x, Digits(rule))
    requires rule == KcAnnual ==> x <= 1.2
    ensures Apply(rule, x, 1.0) == x
  {
    RoundUnitFactor(x, 1.0, Digits(rule));
  }

  /** The rules that first round the factor to two decimals. */
  lemma UnitFactorRounded(rule: Rule, x: real)
    requires rule == KcMonthly || rule == UsleC || rule == UsleP
    requires HasDecimals(x, Digits(rule))
    requires rule == KcMonthly ==> x <= 1.2
    requires rule != KcMonthly ==> x <= 1.0
    ensures Apply(rule, x, 1.0) == x
  {
    var g := Round(1.0, 2);
    RoundOne(2);
    RoundUnitFactor(x, g, Digits(rule));
    assert Apply(rule, x, 1.0) == Cap(rule, Round(x * g, Digits(rule)));
  }

  lemma RoundOne(d: nat)
    ensures Round(1.0, d) == 1.0
  {
    Pow10Integer(d);
    RoundKeepsDecimals(1.0, d);
  }

  /** The flag column of an adjustment is itself never adjusted. */
  lemma FlagOfAdjustment(s: RunStatus, c: string)
    requires Adjustment(s, c).Some? && Adjustment(s, c).value.flag.Some?
    ensures Adjustment(s, Adjustment(s, c).value.flag.value) == None
  {
    FlagsNotAdjusted(s);
  }

  lemma CompleteKeys(c1: map<string, seq<real>>, c2: map<string, seq<real>>, p: Params, ls: seq<Lookup>)
    requires c1.Keys == c2.Keys && Complete(c1, p, ls)
    ensures Complete(c2, p, ls)
  {
    FirstMissingSpec(c1, p, ls);
    FirstMissingKeys(c1, c2, p, ls);
    FirstMissingSpec(c2, p, ls);
  }

  /** A trial whose factors are all 1 leaves an already transformed table as
      it is: transforming twice is transforming once. */
  lemma UnitFactorFixedPoint(t: Frame, p: Params, s: RunStatus)
    requires WellFormed(t) && Complete(t.columns, p, Lookups(s))
    requires forall k :: k in p ==> p[k] == 1.0
    ensures Complete(Transformed(t, p, s).columns, p, Lookups(s))
    ensures Transformed(Transformed(t, p, s), p, s) == Transformed(t, p, s)
  {
    var u := Transformed(t, p, s);
    CompleteKeys(t.columns, u.columns, p, Lookups(s));
    var w := Transformed(u, p, s);
    forall c | c in t.columns ensures w.columns[c] == u.columns[c] {
      CompleteReady(t, p, s, c);
      CompleteReady(u, p, s, c);
      match Adjustment(s, c)
      case None =>
      case Some(a) =>
        if a.flag.Some? {
          FlagOfAdjustment(s, c);
          CompleteReady(t, p, s, a.flag.value);
          assert u.columns[a.flag.value] == t.columns[a.flag.value];
        }
        forall i | 0 <= i < t.rows ensures w.columns[c][i] == u.columns[c][i] {
          ApplyUnitIdempotent(a.rule, t.columns[c][i]);
        }
    }
    assert w.columns == u.columns;
  }

  // ---------------------------------------------------------------------------
  // Factor_BioTable
  // ---------------------------------------------------------------------------

  lemma RunStepsCons(f: Frame, p: Params, st: Step, tail: seq<Step>)
    requires WellFormed(f)
    ensures Update(f, p, st).Failure? ==> RunSteps(f, p, [st] + tail) == Failure(Update(f, p, st).error)
    ensures Update(f, p, st).Success? ==> RunSteps(f, p, [st] + tail) == RunSteps(Update(f, p, st).value, p, tail)
  {
    assert ([st] + tail)[0] == st && ([st] + tail)[1..] == tail;
  }

  lemma AppendEmpty(x: seq<Step>)
    ensures x + [] == x
  {
  }

  lemma PairCons(pair: seq<Step>, tail: seq<Step>)
    requires |pair| == 2
    ensures pair + tail == [pair[0]] + ([pair[1]] + tail)
  {
    assert pair == [pair[0]] + [pair[1]];
  }

  lemma MonthSuffix(m: nat, tail: seq<Step>)
    requires m <= 12
    ensures m == 0 ==> MonthSteps()[m..] + tail == MonthSteps() + tail
    ensures m == 12 ==> MonthSteps()[m..] + tail == tail
    ensures m < 12 ==> MonthSteps()[m..] + tail == [MonthSteps()[m]] + (MonthSteps()[m + 1..] + tail)
  {
    if m < 12 {
      assert MonthSteps()[m..] == [MonthSteps()[m]] + MonthSteps()[m + 1..];
    }
  }

  /** `Factor_BioTable`: the table after the enabled models' adjustments, or
      the KeyError of the first column or parameter missing. The table is read
      from disk by the caller; here it is the argument t. */
  method FactorBioTable(t: Frame, p: Params, s: RunStatus) returns (r: Result<Frame, string>)
    requires WellFormed(t)
    ensures FirstMissing(t.columns, p, Lookups(s)).Some? ==> r == Failure(FirstMissing(t.columns, p, Lookups(s)).value)
    ensures FirstMissing(t.columns, p, Lookups(s)).None? ==>
              Complete(t.columns, p, Lookups(s)) && r == Success(Transformed(t, p, s))
  {
    r := AdjustTable(t, p, s);
    RunMeaning(t, p, s);
  }

  /** The body of `Factor_BioTable`: the five model blocks in source order on
      the table, each stopping the transform at its first KeyError. */
  method AdjustTable(t: Frame, p: Params, s: RunStatus) returns (r: Result<Frame, string>)
    requires WellFormed(t)
    ensures r == RunSteps(t, p, Steps(s))
  {
    ghost var p4 := if s.ndrP == 1.0 then NdrPSteps else [];
    ghost var p3 := (if s.ndrN == 1.0 then NdrNSteps else []) + p4;
    ghost var p2 := (if s.sdr == 1.0 then SdrSteps else []) + p3;
    ghost var p1 := (if Truthy(s.swy) then MonthSteps() else []) + p2;
    var table := t;
    // Annual water yield
    table, r := AnnualKc(t, p, s, table, p1);
    // Seasonal water yield: the months 1 .. 12
    if r.Success? {
      table, r := MonthlyKcLoop(t, p, s, table, p2);
    }
    // Sediment delivery ratio
    if r.Success? {
      table, r := AssignPair(t, p, s, table, s.sdr == 1.0, SdrSteps, p3);
    }
    // Nutrient delivery ratio, nitrogen: masked, then whole-column assignments
    if r.Success? {
      table, r := AssignPair(t, p, s, table, s.ndrN == 1.0, NdrNSteps, p4);
    }
    // Nutrient delivery ratio, phosphorus
    if r.Success? {
      AppendEmpty(if s.ndrP == 1.0 then NdrPSteps else []);
      table, r := AssignPair(t, p, s, table, s.ndrP == 1.0, NdrPSteps, []);
    }
    if r.Success? {
      r := Success(table);
    }
  }

  /** One column assignment on the current table. On failure r is the KeyError
      the whole transform raises; otherwise the run continues with tail. */
  method Assign(ghost t: Frame, p: Params, ghost s: RunStatus, table: Frame, st: Step, ghost tail: seq<Step>)
    returns (next: Frame, r: Result<Frame, string>)
    requires WellFormed(t) && WellFormed(table)
    requires RunSteps(t, p, Steps(s)) == RunSteps(table, p, [st] + tail)
    ensures WellFormed(next)
    ensures r.Failure? ==> r == RunSteps(t, p, Steps(s))
    ensures r.Success? ==> RunSteps(t, p, Steps(s)) == RunSteps(next, p, tail)
  {
    RunStepsCons(table, p, st, tail);
    var u := Update(table, p, st);
    if u.Failure? {
      return table, Failure(u.error);
    }
    next, r := u.value, Success(u.value);
  }

  /** The annual water yield block: the `Kc` column, when enabled. */
  method AnnualKc(ghost t: Frame, p: Params, s: RunStatus, table: Frame, ghost tail: seq<Step>)
    returns (next: Frame, r: Result<Frame, string>)
    requires WellFormed(t) && WellFormed(table)
    requires RunSteps(t, p, Steps(s)) == RunSteps(table, p, (if Truthy(s.awy) then AwySteps else []) + tail)
    ensures WellFormed(next)
    ensures r.Failure? ==> r == RunSteps(t, p, Steps(s))
    ensures r.Success? ==> RunSteps(t, p, Steps(s)) == RunSteps(next, p, tail)
  {
    if Truthy(s.awy) {
      next, r := Assign(t, p, s, table, AwySteps[0], tail);
    } else {
      assert [] + tail == tail;
      next, r := table, Success(table);
    }
  }

  /** The seasonal water yield block: `for ij in range(1, 13)` over the
      columns `Kc_<ij>`, when enabled. */
  method MonthlyKcLoop(ghost t: Frame, p: Params, s: RunStatus, table: Frame, ghost tail: seq<Step>)
    returns (next: Frame, r: Result<Frame, string>)
    requires WellFormed(t) && WellFormed(table)
    requires RunSteps(t, p, Steps(s)) == RunSteps(table, p, (if Truthy(s.swy) then MonthSteps() else []) + tail)
    ensures WellFormed(next)
    ensures r.Failure? ==> r == RunSteps(t, p, Steps(s))
    ensures r.Success? ==> RunSteps(t, p, Steps(s)) == RunSteps(next, p, tail)
  {
    next, r := table, Success(table);
    if !Truthy(s.swy) {
      assert [] + tail == tail;
      return;
    }
    MonthSuffix(0, tail);
    var ij := 1;
    while ij < 13
      invariant 1 <= ij <= 13
      invariant WellFormed(next) && r.Success?
      invariant RunSteps(t, p, Steps(s)) == RunSteps(next, p, MonthSteps()[ij - 1..] + tail)
    {
      MonthSuffix(ij - 1, tail);
      next, r := Assign(t, p, s, next, Step(MonthlyKc[ij - 1], KcMonthly, "Factor-Kc_m", "Status_Cal_Kc", false),
                        MonthSteps()[ij..] + tail);
      if r.Failure? {
        return;
      }
      ij := ij + 1;
    }
    MonthSuffix(12, tail);
  }

  /** The two column assignments of one model's block, when enabled. */
  method AssignPair(ghost t: Frame, p: Params, ghost s: RunStatus, table: Frame, enabled: bool, pair: seq<Step>,
                    ghost tail: seq<Step>)
    returns (next: Frame, r: Result<Frame, string>)
    requires WellFormed(t) && WellFormed(table)
    requires |pair| == 2
    requires RunSteps(t, p, Steps(s)) == RunSteps(table, p, (if enabled then pair else []) + tail)
    ensures WellFormed(next)
    ensures r.Failure? ==> r == RunSteps(t, p, Steps(s))
    ensures r.Success? ==> RunSteps(t, p, Steps(s)) == RunSteps(next, p, tail)
  {
    if !enabled {
      assert [] + tail == tail;
      return table, Success(table);
    }
    PairCons(pair, tail);
    next, r := Assign(t, p, s, table, pair[0], [pair[1]] + tail);
    if r.Success? {
      next, r := Assign(t, p, s, next, pair[1], tail);
    }
  }
}
