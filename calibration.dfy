/** One calibration trial of a model (`Execute_<model>`): the sampled vector
    becomes named parameters, the biophysical table is adjusted with them,
    the argument dictionary is built and completed, the engine runs, the
    observations are aligned with the simulated watersheds, the objective is
    the metric times the sampler's sign factor, and the three logs get their
    rows. The engine and the metric are parameters of the model. */
module Calibration {
  import opened Wrappers
  import opened Numeric
  import opened ModelIds
  import opened KeyAlignment
  import opened InvestArgs
  import opened TrialLogs
  import BioTable
  import BestTrial

  // ---------------------------------------------------------------------------
  // The sampler's sign factor
  // ---------------------------------------------------------------------------

  const DDS: string := "Dynamical dimensional search (DDS)"
  const SCEUA: string := "Shuffled Complex Evolution (SCE-UA)"
  const LHS: string := "Latin Hypercube Sampling (LHS)"

  /** The two values the sign factor takes. */
  predicate IsSign(f: real) {
    f == 1.0 || f == -1.0
  }

  /** `FactorMetric` in `RunCalInVEST`: -1 for DDS, which maximizes its
      objective, 1 for SCE-UA and LHS; any other sampler name leaves it
      unset (None). */
  function FactorMetric(nameOpt: string): (f: Option<real>)
    ensures f.Some? <==> nameOpt == DDS || nameOpt == SCEUA || nameOpt == LHS
    ensures f == Some(-1.0) <==> nameOpt == DDS
    ensures f == Some(1.0) <==> nameOpt == SCEUA || nameOpt == LHS
    ensures f.Some? ==> IsSign(f.value)
  {
    if nameOpt == DDS then Some(-1.0)
    else if nameOpt == SCEUA then Some(1.0)
    else if nameOpt == LHS then Some(1.0)
    else None
  }

  /** `FactorMetric * value`, written by cases on the sign. */
  function Signed(factor: real, v: real): real
    requires IsSign(factor)
  {
    if factor == 1.0 then v else -v
  }

  /** Signing is the product with the factor, and signing twice gives the
      value back: a logged objective, signed once more, is the user's
      metric. */
  lemma SignedProduct(factor: real, v: real)
    requires IsSign(factor)
    ensures Signed(factor, v) == factor * v
    ensures Signed(factor, Signed(factor, v)) == v
  {
  }

  // ---------------------------------------------------------------------------
  // The sampled vector and the trial parameters
  // ---------------------------------------------------------------------------

  /** The search space of each model: for sample component i, the parameter
      whose range it is drawn from (`spotpy.parameter.Uniform(name,
      ParamsMin[key], ParamsMax[key])`, the key). */
  function SearchSpace(m: ModelId): seq<string> {
    match m
    case AWY => ["Z", "Factor-Kc"]
    case SWY => ["Gamma", "Beta", "Alpha", "Factor-Kc_m"]
    case SDR => ["sdr_max", "Borselli-K_SDR", "IC0", "L_max", "Factor-C", "Factor-P"]
    case NDR_N => ["SubCri_Len_N", "Sub_Eff_N", "Borselli-K_NDR", "Factor_Load_N", "Factor_Eff_N"]
    case NDR_P => ["Borselli-K_NDR", "Factor_Load_P", "Factor_Eff_P"]
  }

  /** The trial parameters each `Execute_<model>` builds from the sampled
      vector x (`Params = {...}`). Their names are the names of the sampled
      ranges, and every component lands under the name of its own range,
      except in the seasonal model (see `SwyAlphaGammaSwapped`). */
  function TrialParams(m: ModelId, x: seq<real>): (p: map<string, real>)
    requires |x| >= |SearchSpace(m)|
    ensures forall k :: k in p <==> k in SearchSpace(m)
    ensures m != SWY ==> forall i :: 0 <= i < |SearchSpace(m)| ==> p[SearchSpace(m)[i]] == x[i]
  {
    match m
    case AWY => map["Z" := x[0], "Factor-Kc" := x[1]]
    case SWY => map["Alpha" := x[0], "Beta" := x[1], "Gamma" := x[2], "Factor-Kc_m" := x[3]]
    case SDR => map["sdr_max" := x[0], "Borselli-K_SDR" := x[1], "IC0" := x[2], "L_max" := x[3],
                    "Factor-C" := x[4], "Factor-P" := x[5]]
    case NDR_N => map["SubCri_Len_N" := x[0], "Sub_Eff_N" := x[1], "Borselli-K_NDR" := x[2],
                      "Factor_Load_N" := x[3], "Factor_Eff_N" := x[4]]
    case NDR_P => map["Borselli-K_NDR" := x[0], "Factor_Load_P" := x[1], "Factor_Eff_P" := x[2]]
  }

  /** The seasonal model passes the component drawn from Gamma's range as
      `Alpha` and the one drawn from Alpha's range as `Gamma`; `Beta` and
      `Factor-Kc_m` get their own components. */
  lemma SwyAlphaGammaSwapped(x: seq<real>)
    requires |x| >= 4
    ensures SearchSpace(SWY)[0] == "Gamma" && SearchSpace(SWY)[2] == "Alpha"
    ensures TrialParams(SWY, x)["Alpha"] == x[0] && TrialParams(SWY, x)["Gamma"] == x[2]
    ensures TrialParams(SWY, x)[SearchSpace(SWY)[1]] == x[1] && TrialParams(SWY, x)[SearchSpace(SWY)[3]] == x[3]
    ensures x[0] != x[2] ==> TrialParams(SWY, x)[SearchSpace(SWY)[0]] != x[0]
  {
  }

  /** The block of the table transform that belongs to each model. */
  function ModelBlock(m: ModelId): (k: nat)
    ensures k < 5
  {
    match m
    case AWY => 0
    case SWY => 1
    case SDR => 2
    case NDR_N => 3
    case NDR_P => 4
  }

  /** The factor parameter the first step of block k reads. */
  function BlockFactor(k: nat): string
    requires k < 5
  {
    if k == 0 then "Factor-Kc"
    else if k == 1 then "Factor-Kc_m"
    else if k == 2 then "Factor-C"
    else if k == 3 then "Factor_Load_N"
    else "Factor_Load_P"
  }

  /** The trial parameters of a model hold the factor of its own block and
      of no other. */
  lemma TrialHasOwnFactorOnly(m: ModelId, x: seq<real>, k: nat)
    requires |x| >= |SearchSpace(m)| && k < 5
    ensures BlockFactor(k) in TrialParams(m, x) <==> k == ModelBlock(m)
  {
    assert BlockFactor(k) in TrialParams(m, x) <==> BlockFactor(k) in SearchSpace(m);
    OwnFactor(m, k);
  }

  lemma OwnFactor(m: ModelId, k: nat)
    requires k < 5
    ensures BlockFactor(k) in SearchSpace(m) <==> k == ModelBlock(m)
  {
    match m
    case AWY =>
    case SWY =>
    case SDR =>
    case NDR_N =>
    case NDR_P =>
  }

  /** The first step of block k: a step of the transform when the block runs,
      reading the block's factor. */
  lemma BlockStep(s: BioTable.RunStatus, k: nat) returns (st: BioTable.Step)
    requires k < 5 && BioTable.Enabled(s, k)
    ensures st in BioTable.Steps(s) && st.factor == BlockFactor(k)
  {
    if k == 0 {
      st := BioTable.AwySteps[0];
    } else if k == 1 {
      st := BioTable.MonthSteps()[0];
    } else if k == 2 {
      st := BioTable.SdrSteps[0];
    } else if k == 3 {
      st := BioTable.NdrNSteps[0];
    } else {
      st := BioTable.NdrPSteps[0];
    }
  }

  /** With the switch of another model's block on, the table transform of a
      trial raises a KeyError: the trial parameters lack that block's factor.
      So one session can calibrate only one model with its own switch on. */
  lemma OtherBlockKeyError(m: ModelId, x: seq<real>, t: BioTable.Frame, s: BioTable.RunStatus, k: nat)
    requires |x| >= |SearchSpace(m)| && BioTable.WellFormed(t)
    requires k < 5 && k != ModelBlock(m) && BioTable.Enabled(s, k)
    ensures BioTable.FirstMissing(t.columns, TrialParams(m, x), BioTable.Lookups(s)).Some?
  {
    var p := TrialParams(m, x);
    var st := BlockStep(s, k);
    TrialHasOwnFactorOnly(m, x, k);
    BioTable.StepLookupsIn(BioTable.Steps(s), st);
    assert BioTable.Param(st.factor) in BioTable.StepLookups(st);
    assert !BioTable.Present(t.columns, p, BioTable.Param(st.factor));
    BioTable.FirstMissingSpec(t.columns, p, BioTable.Lookups(s));
  }

  /** Every factor the table transform may read. */
  const FactorNames: set<string> :=
    {"Factor-Kc", "Factor-Kc_m", "Factor-C", "Factor-P", "Factor_Load_N", "Factor_Eff_N", "Factor_Load_P", "Factor_Eff_P"}

  lemma StepFactors(s: BioTable.RunStatus)
    ensures forall st :: st in BioTable.Steps(s) ==> st.factor in FactorNames
  {
    forall st | st in BioTable.Steps(s) ensures st.factor in FactorNames {
      if st in BioTable.MonthSteps() {
        var j :| 0 <= j < 12 && BioTable.MonthSteps()[j] == st;
      }
    }
  }

  // ---------------------------------------------------------------------------
  // The argument dictionary of a trial
  // ---------------------------------------------------------------------------

  /** The results folder of each model under `OUTPUTS`. */
  function WorkspaceName(m: ModelId): string {
    match m
    case AWY => "01-AWY"
    case SWY => "02-SWY"
    case SDR => "03-SDR"
    case NDR_N => "04-NDR_N"
    case NDR_P => "04-NDR_P"
  }

  /** Where the adjusted table is written: `TMP/<model>_<BioTable>.csv`. */
  function TablePath(project: string, m: ModelId, bioTable: string): seq<string> {
    [project, "TMP", Name(m) + "_" + bioTable + ".csv"]
  }

  /** The calibration basins: `INPUTS/Basin_Cal_<model>/Basin_Cal_<model>.shp`. */
  function CalibrationBasinPath(project: string, m: ModelId): seq<string> {
    [project, "INPUTS", "Basin_Cal_" + Name(m), "Basin_Cal_" + Name(m) + ".shp"]
  }

  /** The keys a trial sets after `Create_argsInVEST`. */
  function Overridden(m: ModelId): set<ArgKey> {
    {Base(BiophysicalTablePath), Base(WatershedsPath), WorkspaceDir} +
    (if m in {SDR, NDR_N, NDR_P} then {Base(FlowDirAlgorithm)} else {})
  }

  /** The trial's own entries written over a dictionary: the adjusted table,
      the calibration basins, the results folder and, for the sediment and
      nutrient models, the flow direction algorithm. Nothing else changes. */
  function TrialEntries(a: Args, project: string, m: ModelId, bioTable: string): (r: Args)
    ensures forall k :: k in r <==> k in a || k in Overridden(m)
    ensures Base(BiophysicalTablePath) in r && r[Base(BiophysicalTablePath)] == Path(TablePath(project, m, bioTable))
    ensures Base(WatershedsPath) in r && r[Base(WatershedsPath)] == Path(CalibrationBasinPath(project, m))
    ensures WorkspaceDir in r && r[WorkspaceDir] == Path([project, "OUTPUTS", WorkspaceName(m)])
    ensures m in {SDR, NDR_N, NDR_P} ==> Base(FlowDirAlgorithm) in r && r[Base(FlowDirAlgorithm)] == Str("MFD")
    ensures forall k :: k in a && k !in Overridden(m) ==> r[k] == a[k]
  {
    var b := a[Base(BiophysicalTablePath) := Path(TablePath(project, m, bioTable))]
              [Base(WatershedsPath) := Path(CalibrationBasinPath(project, m))]
              [WorkspaceDir := Path([project, "OUTPUTS", WorkspaceName(m)])];
    if m in {SDR, NDR_N, NDR_P} then b[Base(FlowDirAlgorithm) := Str("MFD")] else b
  }

  /** The dictionary of a trial: `Create_argsInVEST`, then the trial's own
      entries. It fails exactly when `Create_argsInVEST` does. */
  function TrialArgs(project: string, user: UserData, params: map<string, real>, m: ModelId, bioTable: string)
    : (r: Result<Args, ArgError>)
    ensures r.Success? <==> UserReady(user) && RequiredParams(m) <= params.Keys
    ensures r.Failure? ==> UserDefect(user, r.error) || (UserReady(user) && MissingParam(r.error, RequiredParams(m), params))
  {
    var a :- CreateArgs(project, user, params, m);
    Success(TrialEntries(a, project, m, bioTable))
  }

  /** The flow direction the sediment and nutrient trials set is the one the
      baseline already holds, so in every model's dictionary it reads `MFD`
      and equals what `Create_argsInVEST` built. */
  lemma FlowDirAlreadyMfd(project: string, user: UserData, params: map<string, real>, m: ModelId, bioTable: string)
    requires CreateArgs(project, user, params, m).Success?
    ensures Base(FlowDirAlgorithm) in TrialArgs(project, user, params, m, bioTable).value
    ensures TrialArgs(project, user, params, m, bioTable).value[Base(FlowDirAlgorithm)] == Str("MFD")
    ensures TrialArgs(project, user, params, m, bioTable).value[Base(FlowDirAlgorithm)] ==
            CreateArgs(project, user, params, m).value[Base(FlowDirAlgorithm)]
  {
    var a := CreateArgs(project, user, params, m).value;
    CreateArgsKeys(project, user, params, m);
    CreateArgsValues(project, user, params, m);
    BaselineFlowDir(project, user);
    assert a[Base(FlowDirAlgorithm)] == Str("MFD");
    FlowDirKept(a, project, m, bioTable);
  }

  lemma FlowDirKept(a: Args, project: string, m: ModelId, bioTable: string)
    requires Base(FlowDirAlgorithm) in a && a[Base(FlowDirAlgorithm)] == Str("MFD")
    ensures TrialEntries(a, project, m, bioTable)[Base(FlowDirAlgorithm)] == Str("MFD")
  {
    if m !in {SDR, NDR_N, NDR_P} {
      assert Base(FlowDirAlgorithm) !in Overridden(m);
    }
  }

  // ---------------------------------------------------------------------------
  // Observations aligned with the simulation
  // ---------------------------------------------------------------------------

  /** `Obs = evaluation[<model>].values[idx]` with `idx` the index array of
      `ismember(simulation['ws_id'], evaluation['ws_id'])` (`MatchIndex`, the
      index part of `IsMember`): one observation per simulated watershed that
      is observed, in simulation order. */
  function AlignedObs(simIds: seq<int>, evalIds: seq<int>, evalValues: seq<real>): (obs: seq<real>)
    requires |evalValues| == |evalIds|
    ensures |obs| == CountTrue(IsIn(simIds, evalIds))
  {
    MatchIndexBounds(simIds, evalIds);
    Pick(evalValues, MatchIndex(simIds, evalIds))
  }

  /** Integer-array indexing `values[index]`: one value per index, in order. */
  function Pick(values: seq<real>, index: seq<nat>): (r: seq<real>)
    requires forall k :: 0 <= k < |index| ==> index[k] < |values|
    ensures |r| == |index| && forall k :: 0 <= k < |index| ==> r[k] == values[index[k]]
  {
    seq(|index|, k requires 0 <= k < |index| => values[index[k]])
  }

  /** Entry k of the aligned observations is the value on the first
      observation row of the k-th simulated watershed that has one. */
  lemma AlignedObsEntry(simIds: seq<int>, evalIds: seq<int>, evalValues: seq<real>, k: nat)
    requires |evalValues| == |evalIds| && k < |AlignedObs(simIds, evalIds, evalValues)|
    ensures k < |Select(simIds, IsIn(simIds, evalIds))|
    ensures Select(simIds, IsIn(simIds, evalIds))[k] in evalIds
    ensures AlignedObs(simIds, evalIds, evalValues)[k] ==
            evalValues[FirstIndex(evalIds, Select(simIds, IsIn(simIds, evalIds))[k])]
  {
    IsMemberFirstIndex(simIds, evalIds, k);
  }

  /** The Obs and Sim of a trial have the same length exactly when every
      simulated watershed is observed; Sim is never filtered. */
  lemma AlignedObsLength(simIds: seq<int>, evalIds: seq<int>, evalValues: seq<real>)
    requires |evalValues| == |evalIds|
    ensures |AlignedObs(simIds, evalIds, evalValues)| <= |simIds|
    ensures |AlignedObs(simIds, evalIds, evalValues)| == |simIds| <==> forall i :: 0 <= i < |simIds| ==> simIds[i] in evalIds
  {
    CountTrueAll(IsIn(simIds, evalIds));
  }

  // ---------------------------------------------------------------------------
  // The trial
  // ---------------------------------------------------------------------------

  /** What the engine leaves behind, read back: watershed ids and simulated
      values. */
  datatype SimOutput = SimOutput(ids: seq<int>, values: seq<real>)

  /** Both come from one table, one row per watershed. */
  type SimTable = o: SimOutput | |o.ids| == |o.values| witness SimOutput([], [])

  /** Why a trial stops: a configuration row missing or of the wrong kind, or
      a KeyError of the table transform. A suffix that is not text passes
      `Create_argsInVEST` but fails when the engine's output file name is
      joined after the run. */
  datatype TrialError = Config(error: ArgError) | TableKey(key: string)

  /** A completed trial: the objective returned to the sampler, and the Obs
      and Sim series that were compared. */
  datatype Outcome = Outcome(objective: real, obs: seq<real>, sim: seq<real>)

  /** What a trial hands the engine: the adjusted table and the dictionary. */
  datatype EngineInput = EngineInput(table: BioTable.Frame, args: Args)

  /** The part of a trial before the engine run, in source order: the table
      name, the table transform and `Create_argsInVEST` with the trial's
      overrides. It fails exactly when the configuration falls short or the
      table lacks a key the transform reads; the sampled parameters always
      cover the dictionary. */
  function TrialInputs(m: ModelId, project: string, user: UserData, s: BioTable.RunStatus, t: BioTable.Frame, x: seq<real>)
    : (r: Result<EngineInput, TrialError>)
    requires BioTable.WellFormed(t) && |x| >= |SearchSpace(m)|
    ensures r.Success? <==> UserReady(user) && BioTable.Complete(t.columns, TrialParams(m, x), BioTable.Lookups(s))
    ensures r.Success? ==>
              BioTable.Complete(t.columns, TrialParams(m, x), BioTable.Lookups(s)) &&
              r.value.table == BioTable.Transformed(t, TrialParams(m, x), s) &&
              "BioTable" in user && user["BioTable"].Text? &&
              TrialArgs(project, user, TrialParams(m, x), m, user["BioTable"].s) == Success(r.value.args)
    ensures r.Failure? && r.error.Config? ==> UserDefect(user, r.error.error)
    ensures r.Failure? && r.error.TableKey? ==>
              BioTable.FirstMissing(t.columns, TrialParams(m, x), BioTable.Lookups(s)) == Some(r.error.key)
  {
    var bioPath := InputPath(project, user, [], "BioTable", ".csv");
    assert "BioTable" in TextKeys;
    if bioPath.Failure? then Failure(Config(bioPath.error))
    else
      var p := TrialParams(m, x);
      BioTable.FirstMissingSpec(t.columns, p, BioTable.Lookups(s));
      var missing := BioTable.FirstMissing(t.columns, p, BioTable.Lookups(s));
      if missing.Some? then Failure(TableKey(missing.value))
      else
        RequiredParamsSampled(m, x);
        var args := TrialArgs(project, user, p, m, user["BioTable"].s);
        if args.Failure? then Failure(Config(args.error))
        else Success(EngineInput(BioTable.Transformed(t, p, s), args.value))
  }

  /** The trial as a value: the specification of `ExecuteTrial`. */
  function Trial(m: ModelId, project: string, user: UserData, s: BioTable.RunStatus, t: BioTable.Frame,
                 x: seq<real>, evalIds: seq<int>, evalValues: seq<real>,
                 engine: (BioTable.Frame, Args) -> SimTable, metric: (seq<real>, seq<real>) -> real, factor: real)
    : Result<Outcome, TrialError>
    requires BioTable.WellFormed(t) && |x| >= |SearchSpace(m)| && |evalValues| == |evalIds| && IsSign(factor)
  {
    match TrialInputs(m, project, user, s, t, x)
    case Failure(e) => Failure(e)
    case Success(EngineInput(table, args)) => AfterRun(user, engine(table, args), evalIds, evalValues, metric, factor)
  }

  /** What follows the engine run: the output file name joined from the
      suffix (a `TypeError` unless it is text), the alignment of Obs and the
      signed metric. */
  function AfterRun(user: UserData, out: SimTable, evalIds: seq<int>, evalValues: seq<real>,
                    metric: (seq<real>, seq<real>) -> real, factor: real)
    : (r: Result<Outcome, TrialError>)
    requires "Suffix" in user && |evalValues| == |evalIds| && IsSign(factor)
    ensures r.Success? <==> user["Suffix"].Text?
    ensures r.Failure? ==> r.error == Config(TypeError("Suffix"))
    ensures r.Success? ==>
              r.value.obs == AlignedObs(out.ids, evalIds, evalValues) && r.value.sim == out.values &&
              r.value.objective == Signed(factor, metric(r.value.obs, r.value.sim)) &&
              |r.value.obs| <= |r.value.sim|
  {
    if !user["Suffix"].Text? then Failure(Config(TypeError("Suffix")))
    else
      var obs := AlignedObs(out.ids, evalIds, evalValues);
      AlignedObsLength(out.ids, evalIds, evalValues);
      Success(Outcome(Signed(factor, metric(obs, out.values)), obs, out.values))
  }

  /** Every model's trial parameters include what its dictionary needs. */
  lemma RequiredParamsSampled(m: ModelId, x: seq<real>)
    requires |x| >= |SearchSpace(m)|
    ensures RequiredParams(m) <= TrialParams(m, x).Keys
  {
  }

  /** A trial's own demand on the configuration beyond `Create_argsInVEST`:
      the suffix is joined into file names, so it must be text. */
  predicate SuffixText(user: UserData) {
    "Suffix" in user && user["Suffix"].Text?
  }

  /** A trial fails exactly when the configuration falls short, the suffix is
      not text, or the table lacks a key the transform reads: the sampled
      parameters always cover the dictionary. */
  lemma TrialSucceeds(m: ModelId, project: string, user: UserData, s: BioTable.RunStatus, t: BioTable.Frame,
                     x: seq<real>, evalIds: seq<int>, evalValues: seq<real>,
                     engine: (BioTable.Frame, Args) -> SimTable, metric: (seq<real>, seq<real>) -> real, factor: real)
    requires BioTable.WellFormed(t) && |x| >= |SearchSpace(m)| && |evalValues| == |evalIds| && IsSign(factor)
    ensures Trial(m, project, user, s, t, x, evalIds, evalValues, engine, metric, factor).Success? <==>
            UserReady(user) && SuffixText(user) && BioTable.Complete(t.columns, TrialParams(m, x), BioTable.Lookups(s))
  {
    var inputs := TrialInputs(m, project, user, s, t, x);
  }

  /** A configuration error of a trial names a row that is missing or of the
      wrong kind, or is the `TypeError` of a suffix that is not text. */
  lemma TrialConfigError(m: ModelId, project: string, user: UserData, s: BioTable.RunStatus, t: BioTable.Frame,
                         x: seq<real>, evalIds: seq<int>, evalValues: seq<real>,
                         engine: (BioTable.Frame, Args) -> SimTable, metric: (seq<real>, seq<real>) -> real, factor: real)
    requires BioTable.WellFormed(t) && |x| >= |SearchSpace(m)| && |evalValues| == |evalIds| && IsSign(factor)
    ensures var r := Trial(m, project, user, s, t, x, evalIds, evalValues, engine, metric, factor);
            r.Failure? && r.error.Config? ==>
              UserDefect(user, r.error.error) || (r.error.error == TypeError("Suffix") && "Suffix" in user && !SuffixText(user))
  {
    var inputs := TrialInputs(m, project, user, s, t, x);
  }

  /** A KeyError of a trial names the first key the transform misses. */
  lemma TrialKeyError(m: ModelId, project: string, user: UserData, s: BioTable.RunStatus, t: BioTable.Frame,
                     x: seq<real>, evalIds: seq<int>, evalValues: seq<real>,
                     engine: (BioTable.Frame, Args) -> SimTable, metric: (seq<real>, seq<real>) -> real, factor: real)
    requires BioTable.WellFormed(t) && |x| >= |SearchSpace(m)| && |evalValues| == |evalIds| && IsSign(factor)
    ensures Trial(m, project, user, s, t, x, evalIds, evalValues, engine, metric, factor).Failure? && Trial(m, project, user, s, t, x, evalIds, evalValues, engine, metric, factor).error.TableKey? ==>
            BioTable.FirstMissing(t.columns, TrialParams(m, x), BioTable.Lookups(s)).Some? &&
            Trial(m, project, user, s, t, x, evalIds, evalValues, engine, metric, factor).error.key == BioTable.FirstMissing(t.columns, TrialParams(m, x), BioTable.Lookups(s)).value
  {
    var inputs := TrialInputs(m, project, user, s, t, x);
  }

  /** The objective of a completed trial is the sign factor applied to the
      metric of the aligned Obs against the whole Sim, and Obs is never
      longer than Sim. */
  lemma TrialObjective(m: ModelId, project: string, user: UserData, s: BioTable.RunStatus, t: BioTable.Frame,
                     x: seq<real>, evalIds: seq<int>, evalValues: seq<real>,
                     engine: (BioTable.Frame, Args) -> SimTable, metric: (seq<real>, seq<real>) -> real, factor: real)
    requires BioTable.WellFormed(t) && |x| >= |SearchSpace(m)| && |evalValues| == |evalIds| && IsSign(factor)
    ensures Trial(m, project, user, s, t, x, evalIds, evalValues, engine, metric, factor).Success? ==>
            Trial(m, project, user, s, t, x, evalIds, evalValues, engine, metric, factor).value.objective == Signed(factor, metric(Trial(m, project, user, s, t, x, evalIds, evalValues, engine, metric, factor).value.obs, Trial(m, project, user, s, t, x, evalIds, evalValues, engine, metric, factor).value.sim)) &&
            |Trial(m, project, user, s, t, x, evalIds, evalValues, engine, metric, factor).value.obs| <= |Trial(m, project, user, s, t, x, evalIds, evalValues, engine, metric, factor).value.sim|
  {
    var inputs := TrialInputs(m, project, user, s, t, x);
  }

  /** Two nitrogen samples that agree from the third component on give
      trial parameters that agree on every name but the two subsurface ones,
      which no factor of the table transform is. */
  lemma NdrNParamsAgree(x: seq<real>, y: seq<real>)
    requires |x| >= 5 && |y| >= 5 && x[2] == y[2] && x[3] == y[3] && x[4] == y[4]
    ensures forall k :: k in FactorNames ==> BioTable.AgreeOn(TrialParams(NDR_N, x), TrialParams(NDR_N, y), k)
    ensures forall k :: k in RequiredParams(NDR_N) ==>
              (k in TrialParams(NDR_N, x) <==> k in TrialParams(NDR_N, y)) &&
              (k in TrialParams(NDR_N, x) ==> TrialParams(NDR_N, x)[k] == TrialParams(NDR_N, y)[k])
  {
    assert "SubCri_Len_N" !in FactorNames + RequiredParams(NDR_N);
    assert "Sub_Eff_N" !in FactorNames + RequiredParams(NDR_N);
    var p1 := TrialParams(NDR_N, x);
    var p2 := TrialParams(NDR_N, y);
    forall k | k in FactorNames + RequiredParams(NDR_N) ensures BioTable.AgreeOn(p1, p2, k) {
      assert k != "SubCri_Len_N" && k != "Sub_Eff_N";
    }
  }

  /** The nitrogen model never reads the components sampled for
      `SubCri_Len_N` and `Sub_Eff_N`: two vectors that differ only there give
      the same trial. */
  lemma NdrNIgnoresSubsurfaceSamples(project: string, user: UserData, s: BioTable.RunStatus, t: BioTable.Frame,
                                     x: seq<real>, y: seq<real>, evalIds: seq<int>, evalValues: seq<real>,
                                     engine: (BioTable.Frame, Args) -> SimTable,
                                     metric: (seq<real>, seq<real>) -> real, factor: real)
    requires BioTable.WellFormed(t) && |x| >= 5 && |y| >= 5 && |evalValues| == |evalIds| && IsSign(factor)
    requires x[2] == y[2] && x[3] == y[3] && x[4] == y[4]
    ensures Trial(NDR_N, project, user, s, t, x, evalIds, evalValues, engine, metric, factor) ==
            Trial(NDR_N, project, user, s, t, y, evalIds, evalValues, engine, metric, factor)
  {
    var p1 := TrialParams(NDR_N, x);
    var p2 := TrialParams(NDR_N, y);
    NdrNParamsAgree(x, y);
    SameTransform(t, p1, p2, s);
    OnlyRequiredParamsMatter(project, user, p1, p2, NDR_N);
    SameTrial(NDR_N, project, user, s, t, x, y, evalIds, evalValues, engine, metric, factor);
  }

  /** Two samples whose parameters give the same table outcome and the same
      dictionary give the same trial. */
  lemma SameTrial(m: ModelId, project: string, user: UserData, s: BioTable.RunStatus, t: BioTable.Frame,
                  x: seq<real>, y: seq<real>, evalIds: seq<int>, evalValues: seq<real>,
                  engine: (BioTable.Frame, Args) -> SimTable, metric: (seq<real>, seq<real>) -> real, factor: real)
    requires BioTable.WellFormed(t) && |x| >= |SearchSpace(m)| && |y| >= |SearchSpace(m)|
    requires |evalValues| == |evalIds| && IsSign(factor)
    requires BioTable.FirstMissing(t.columns, TrialParams(m, x), BioTable.Lookups(s)) ==
             BioTable.FirstMissing(t.columns, TrialParams(m, y), BioTable.Lookups(s))
    requires BioTable.FirstMissing(t.columns, TrialParams(m, x), BioTable.Lookups(s)).None? ==>
               BioTable.Complete(t.columns, TrialParams(m, x), BioTable.Lookups(s)) &&
               BioTable.Complete(t.columns, TrialParams(m, y), BioTable.Lookups(s)) &&
               BioTable.Transformed(t, TrialParams(m, x), s) == BioTable.Transformed(t, TrialParams(m, y), s)
    requires CreateArgs(project, user, TrialParams(m, x), m) == CreateArgs(project, user, TrialParams(m, y), m)
    ensures Trial(m, project, user, s, t, x, evalIds, evalValues, engine, metric, factor) ==
            Trial(m, project, user, s, t, y, evalIds, evalValues, engine, metric, factor)
  {
  }

  /** Parameters that agree on every factor name give the same KeyError or
      the same adjusted table. */
  lemma SameTransform(t: BioTable.Frame, p1: map<string, real>, p2: map<string, real>, s: BioTable.RunStatus)
    requires BioTable.WellFormed(t)
    requires forall k :: k in FactorNames ==> BioTable.AgreeOn(p1, p2, k)
    ensures BioTable.FirstMissing(t.columns, p1, BioTable.Lookups(s)) == BioTable.FirstMissing(t.columns, p2, BioTable.Lookups(s))
    ensures BioTable.FirstMissing(t.columns, p1, BioTable.Lookups(s)).None? ==>
              BioTable.Complete(t.columns, p1, BioTable.Lookups(s)) && BioTable.Complete(t.columns, p2, BioTable.Lookups(s)) &&
              BioTable.Transformed(t, p1, s) == BioTable.Transformed(t, p2, s)
  {
    StepFactors(s);
    BioTable.RunStepsParams(t, p1, p2, BioTable.Steps(s));
    BioTable.RunMeaning(t, p1, s);
    BioTable.RunMeaning(t, p2, s);
  }

  // ---------------------------------------------------------------------------
  // The logs of a trial
  // ---------------------------------------------------------------------------

  /** The header of the Metric log: the names written for the parameters,
      then the metric's name. */
  function MetricHeader(m: ModelId, nameFunObj: string): seq<string> {
    match m
    case AWY => ["Z", "Factor-Kc", nameFunObj]
    case SWY => ["Alpha", "Beta", "Gamma", "Factor-Kc", nameFunObj]
    case SDR => ["sdr_max", "k_param", "ic_0_param", "l_max", "Factor-C", "Factor-P", nameFunObj]
    case NDR_N => ["SubCri_Len_N", "Sub_Eff_N", "Borselli-K", "Factor_Load_N", "Factor_Eff_N", nameFunObj]
    case NDR_P => ["Borselli-K", "Factor_Load_P", "Factor_Eff_P", nameFunObj]
  }

  /** The decimals each sample component is written with. */
  function MetricDigits(m: ModelId): (ds: seq<nat>)
    ensures |ds| == |SearchSpace(m)|
  {
    match m
    case AWY => [2, 2]
    case SWY => [3, 3, 3, 2]
    case SDR => [2, 2, 2, 2, 5, 5]
    case NDR_N => [2, 2, 2, 2, 5]
    case NDR_P => [2, 2, 2]
  }

  /** The Metric row of a trial: each component with its decimals, then the
      objective with 2. */
  function MetricRow(m: ModelId, x: seq<real>, objective: real): (row: seq<real>)
    requires |x| >= |SearchSpace(m)|
    ensures |row| == BestTrial.ParamCount(m) + 1
    ensures forall i :: 0 <= i < |SearchSpace(m)| ==> row[i] == Round(x[i], MetricDigits(m)[i])
    ensures row[|SearchSpace(m)|] == Round(objective, 2)
  {
    seq(|SearchSpace(m)|, i requires 0 <= i < |SearchSpace(m)| => Round(x[i], MetricDigits(m)[i])) + [Round(objective, 2)]
  }

  /** The Metric header names one column per cell of the Metric row. */
  lemma MetricHeaderWidth(m: ModelId, nameFunObj: string, x: seq<real>, objective: real)
    requires |x| >= |SearchSpace(m)|
    ensures |MetricHeader(m, nameFunObj)| == |MetricRow(m, x, objective)|
  {
  }

  /** The part of `Execute_<model>` before the engine run, in source order:
      the table name, the table transform and the dictionary. */
  method PrepareInputs(m: ModelId, project: string, user: UserData, s: BioTable.RunStatus, t: BioTable.Frame, x: seq<real>)
    returns (r: Result<EngineInput, TrialError>)
    requires BioTable.WellFormed(t) && |x| >= |SearchSpace(m)|
    ensures r == TrialInputs(m, project, user, s, t, x)
  {
    var bioPath := InputPath(project, user, [], "BioTable", ".csv");
    if bioPath.Failure? {
      return Failure(Config(bioPath.error));
    }
    var p := TrialParams(m, x);
    var table := BioTable.FactorBioTable(t, p, s);
    if table.Failure? {
      return Failure(TableKey(table.error));
    }
    var args := TrialArgs(project, user, p, m, user["BioTable"].s);
    if args.Failure? {
      return Failure(Config(args.error));
    }
    r := Success(EngineInput(table.value, args.value));
  }

  /** The computing part of `Execute_<model>`: the inputs, the engine, the
      output file name built from the suffix, the alignment and the signed
      metric. */
  method RunTrial(m: ModelId, project: string, user: UserData, s: BioTable.RunStatus, t: BioTable.Frame,
                  x: seq<real>, evalIds: seq<int>, evalValues: seq<real>,
                  engine: (BioTable.Frame, Args) -> SimTable, metric: (seq<real>, seq<real>) -> real, factor: real)
    returns (r: Result<Outcome, TrialError>)
    requires BioTable.WellFormed(t) && |x| >= |SearchSpace(m)| && |evalValues| == |evalIds| && IsSign(factor)
    ensures r == Trial(m, project, user, s, t, x, evalIds, evalValues, engine, metric, factor)
  {
    var inputs := PrepareInputs(m, project, user, s, t, x);
    match inputs {
      case Failure(e) =>
        r := Failure(e);
      case Success(EngineInput(table, args)) =>
        var out := engine(table, args);
        if !user["Suffix"].Text? {
          return Failure(Config(TypeError("Suffix")));
        }
        var obs := AlignedObs(out.ids, evalIds, evalValues);
        r := Success(Outcome(Signed(factor, metric(obs, out.values)), obs, out.values));
    }
  }

  /** The logging part of `Execute_<model>`: the Metric row, then the Obs and
      the Sim columns, each to its own file. */
  method WriteLogs(m: ModelId, x: seq<real>, o: Outcome, nameFunObj: string,
                   metricLog: LogFile, obsLog: LogFile, simLog: LogFile)
    requires |x| >= |SearchSpace(m)|
    requires metricLog.Valid() && obsLog.Valid() && simLog.Valid()
    requires metricLog != obsLog && metricLog != simLog && obsLog != simLog
    modifies metricLog, obsLog, simLog
    ensures metricLog.Valid() && obsLog.Valid() && simLog.Valid()
    ensures metricLog.onDisk && obsLog.onDisk && simLog.onDisk
    ensures metricLog.lines == old(metricLog.lines) +
                               Appended(old(metricLog.onDisk), MetricHeader(m, nameFunObj), [MetricRow(m, x, o.objective)])
    ensures obsLog.lines == old(obsLog.lines) + Appended(old(obsLog.onDisk), ["Obs"], ColumnRows(o.obs))
    ensures simLog.lines == old(simLog.lines) + Appended(old(simLog.onDisk), ["Sim"], ColumnRows(o.sim))
  {
    metricLog.AppendRow(MetricHeader(m, nameFunObj), MetricRow(m, x, o.objective));
    obsLog.AppendColumn(["Obs"], o.obs);
    simLog.AppendColumn(["Sim"], o.sim);
  }

  /** `Execute_<model>`: the trial, then its three log appends; a trial that
      stops leaves the logs as they were. The objective goes back to the
      sampler. */
  method ExecuteTrial(m: ModelId, project: string, user: UserData, s: BioTable.RunStatus, t: BioTable.Frame,
                      x: seq<real>, evalIds: seq<int>, evalValues: seq<real>,
                      engine: (BioTable.Frame, Args) -> SimTable, metric: (seq<real>, seq<real>) -> real,
                      factor: real, nameFunObj: string, metricLog: LogFile, obsLog: LogFile, simLog: LogFile)
    returns (r: Result<real, TrialError>)
    requires BioTable.WellFormed(t) && |x| >= |SearchSpace(m)| && |evalValues| == |evalIds| && IsSign(factor)
    requires metricLog.Valid() && obsLog.Valid() && simLog.Valid()
    requires metricLog != obsLog && metricLog != simLog && obsLog != simLog
    modifies metricLog, obsLog, simLog
    ensures metricLog.Valid() && obsLog.Valid() && simLog.Valid()
    ensures var spec := Trial(m, project, user, s, t, x, evalIds, evalValues, engine, metric, factor);
            match spec
            case Failure(e) =>
              r == Failure(e) && unchanged(metricLog, obsLog, simLog)
            case Success(o) =>
              r == Success(o.objective) &&
              metricLog.lines == old(metricLog.lines) +
                                 Appended(old(metricLog.onDisk), MetricHeader(m, nameFunObj), [MetricRow(m, x, o.objective)]) &&
              obsLog.lines == old(obsLog.lines) + Appended(old(obsLog.onDisk), ["Obs"], ColumnRows(o.obs)) &&
              simLog.lines == old(simLog.lines) + Appended(old(simLog.onDisk), ["Sim"], ColumnRows(o.sim))
  {
    var outcome := RunTrial(m, project, user, s, t, x, evalIds, evalValues, engine, metric, factor);
    if outcome.Failure? {
      return Failure(outcome.error);
    }
    WriteLogs(m, x, outcome.value, nameFunObj, metricLog, obsLog, simLog);
    r := Success(outcome.value.objective);
  }
}
