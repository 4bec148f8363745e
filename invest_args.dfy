/** The argument dictionary handed to an InVEST model run (`Create_argsInVEST`):
    a baseline of input paths and switches read from the user configuration,
    always present, and an overlay of calibrated parameters chosen by the
    model being run (`StatusK`, one of the five model names). Path joining is kept as the list of path
    components and `'%0.Nf' % x` as the value x with its N decimals. */
module InvestArgs {
  import opened Wrappers
  import opened ModelIds

  /** A cell of the user configuration sheet: text or a number. */
  datatype Cell = Text(s: string) | Number(x: real)

  /** The user configuration, by row name (`UserData`). */
  type UserData = map<string, Cell>

  /** Trial parameters, by name. */
  type Params = map<string, real>

  /** A value of the argument dictionary. */
  datatype Arg =
    | Path(parts: seq<string>)          // os.path.join of the parts
    | Str(s: string)
    | Bool(b: bool)
    | Fixed(x: real, decimals: nat)     // '%0.<decimals>f' % x
    | Value(c: Cell)                    // a configuration cell passed through

  /** The keys every run gets. */
  datatype BaseKey =
    | LulcPath | LulcRasterPath | LulcCurPath
    | BiophysicalTablePath | CarbonPoolsPath | DepthToRootRestLayerPath
    | DoScarcityAndValuation | EtoPath | PawcPath | PrecipitationPath
    | ResultsSuffix | SubWatershedsPath | WatershedsPath | AoiPath
    | DemRasterPath | Et0Dir | MonthlyAlpha | PrecipDir | RainEventsTablePath
    | SoilGroupPath | ThresholdFlowAccumulation | UserDefinedClimateZones
    | UserDefinedLocalRecharge | DemPath | DrainagePath | ErodibilityPath
    | ErosivityPath | RunoffProxyPath | CalcSequestration | DoRedd
    | DoValuation | FlowDirAlgorithm

  /** The keys only some models get. */
  datatype ModelKey =
    | SeasonalityConstant | AlphaM | BetaI | GammaKey
    | LMax | Ic0Param | SdrMax
    | CalcN | CalcP | SubsurfaceCriticalLengthN | SubsurfaceEffN
    | SubsurfaceCriticalLengthP | SubsurfaceEffP | KParam

  /** A dictionary key; `workspace_dir` is added by the trial, not here. */
  datatype ArgKey = Base(base: BaseKey) | Model(model: ModelKey) | WorkspaceDir

  type Args = map<ArgKey, Arg>

  /** Why building the dictionary stops: a missing configuration row or
      parameter (KeyError), or a cell of the wrong kind (TypeError). */
  datatype ArgError = KeyError(key: string) | TypeError(key: string)

  /** The configuration rows used as file or directory names. */
  const TextKeys: set<string> :=
    {"LULC", "BioTable", "SoilDepth", "ETP", "PAWC", "P", "SubBasin", "Basin",
     "DEM", "ETP_Path", "P_Path", "RainTable", "SoilGroup", "K", "R"}

  /** The configuration supports the baseline: every name row holds text, the
      flow threshold is a number, and a suffix is given. */
  predicate UserReady(user: UserData) {
    (forall k :: k in TextKeys ==> k in user && user[k].Text?) &&
    "Threshold" in user && user["Threshold"].Number? &&
    "Suffix" in user
  }

  /** The error names a configuration row that really is missing or of the
      wrong kind. */
  predicate UserDefect(user: UserData, e: ArgError) {
    match e
    case KeyError(k) => k !in user && (k in TextKeys || k == "Threshold" || k == "Suffix")
    case TypeError(k) => k in user && ((k in TextKeys && !user[k].Text?) || (k == "Threshold" && !user[k].Number?))
  }

  /** The trial parameters each model writes into its overlay. */
  function RequiredParams(statusK: ModelId): set<string> {
    ModelParams(statusK) + KParamParams(statusK)
  }

  function ModelParams(statusK: ModelId): set<string> {
    match statusK
    case AWY => {"Z"}
    case SWY => {"Alpha", "Beta", "Gamma"}
    case SDR => {"L_max", "IC0", "sdr_max"}
    case NDR_N => {"Factor_Load_N", "Factor_Eff_N"}
    case NDR_P => {"Factor_Load_P", "Factor_Eff_P"}
  }

  function KParamParams(statusK: ModelId): set<string> {
    match statusK
    case SDR => {"Borselli-K_SDR"}
    case NDR_N | NDR_P => {"Borselli-K_NDR"}
    case _ => {}
  }

  /** The overlay keys each model gets. */
  function OverlayKeys(statusK: ModelId): set<ModelKey> {
    ModelKeys(statusK) + KParamKeys(statusK)
  }

  function ModelKeys(statusK: ModelId): set<ModelKey> {
    match statusK
    case AWY => {SeasonalityConstant}
    case SWY => {AlphaM, BetaI, GammaKey}
    case SDR => {LMax, Ic0Param, SdrMax}
    case NDR_N => {CalcN, CalcP, SubsurfaceCriticalLengthN, SubsurfaceEffN}
    case NDR_P => {CalcN, CalcP, SubsurfaceCriticalLengthP, SubsurfaceEffP}
  }

  function KParamKeys(statusK: ModelId): set<ModelKey> {
    if statusK in {SDR, NDR_N, NDR_P} then {KParam} else {}
  }

  /** The entries of a carry exactly the model keys ks. */
  predicate HasModelKeys(a: Args, ks: set<ModelKey>) {
    (forall k :: k in a ==> k.Model? && k.model in ks) && (forall m :: m in ks ==> Model(m) in a)
  }

  /** The error is a KeyError for one of the parameters ps that is missing. */
  predicate MissingParam(e: ArgError, ps: set<string>, params: Params) {
    e.KeyError? && e.key in ps && e.key !in params
  }

  /** Entry Model(k) of a holds v. */
  predicate Sets(a: Args, k: ModelKey, v: Arg) {
    Model(k) in a && a[Model(k)] == v
  }

  /** Entry Model(k) of a holds trial parameter key written with d decimals. */
  predicate Writes(a: Args, k: ModelKey, params: Params, key: string, d: nat) {
    key in params && Sets(a, k, Fixed(params[key], d))
  }

  // ---------------------------------------------------------------------------
  // Reading one value
  // ---------------------------------------------------------------------------

  /** `os.path.join(ProjectPath, 'INPUTS', *dirs, UserData[key] + ext)`. */
  function InputPath(project: string, user: UserData, dirs: seq<string>, key: string, ext: string): (r: Result<Arg, ArgError>)
    ensures r.Success? <==> key in user && user[key].Text?
    ensures r.Success? ==> r.value == Path([project, "INPUTS"] + dirs + [user[key].s + ext])
    ensures r.Failure? ==> r.error == (if key in user then TypeError(key) else KeyError(key))
  {
    if key !in user then Failure(KeyError(key))
    else match user[key]
      case Text(s) => Success(Path([project, "INPUTS"] + dirs + [s + ext]))
      case Number(_) => Failure(TypeError(key))
  }

  /** `'%0.<d>f' % UserData[key]`. */
  function UserFixed(user: UserData, key: string, d: nat): (r: Result<Arg, ArgError>)
    ensures r.Success? <==> key in user && user[key].Number?
    ensures r.Success? ==> r.value == Fixed(user[key].x, d)
    ensures r.Failure? ==> r.error == (if key in user then TypeError(key) else KeyError(key))
  {
    if key !in user then Failure(KeyError(key))
    else match user[key]
      case Number(x) => Success(Fixed(x, d))
      case Text(_) => Failure(TypeError(key))
  }

  /** `'%0.<d>f' % Params[key]`. */
  function ParamFixed(params: Params, key: string, d: nat): (r: Result<Arg, ArgError>)
    ensures r.Success? <==> key in params
    ensures r.Success? ==> r.value == Fixed(params[key], d)
    ensures r.Failure? ==> r.error == KeyError(key)
  {
    if key in params then Success(Fixed(params[key], d)) else Failure(KeyError(key))
  }

  // ---------------------------------------------------------------------------
  // The dictionary
  // ---------------------------------------------------------------------------

  /** The values the baseline reads from the configuration, in the order of
      the source. */
  datatype BaseInputs = BaseInputs(
    lulc: Arg, bioTable: Arg, soilDepth: Arg, eto: Arg, pawc: Arg, precip: Arg, suffix: Arg,
    subBasin: Arg, basin: Arg, dem: Arg, et0Dir: Arg, precipDir: Arg, rainTable: Arg,
    soilGroup: Arg, threshold: Arg, erodibility: Arg, erosivity: Arg)

  /** The value of baseline key b. Keys whose value is the same join of the
      same configuration row share that value. */
  function BaseEntry(i: BaseInputs, b: BaseKey): Arg {
    if b == FlowDirAlgorithm then Str("MFD")
    else if b == DrainagePath then Str("")
    else if b in {DoScarcityAndValuation, MonthlyAlpha, UserDefinedClimateZones, UserDefinedLocalRecharge,
                  CalcSequestration, DoRedd, DoValuation} then Bool(false)
    else if b in {LulcPath, LulcRasterPath, LulcCurPath} then i.lulc
    else if b in {BiophysicalTablePath, CarbonPoolsPath} then i.bioTable
    else if b in {WatershedsPath, AoiPath} then i.basin
    else if b in {DemRasterPath, DemPath} then i.dem
    else if b in {PrecipitationPath, RunoffProxyPath} then i.precip
    else if b == DepthToRootRestLayerPath then i.soilDepth
    else if b == EtoPath then i.eto
    else if b == PawcPath then i.pawc
    else if b == ResultsSuffix then i.suffix
    else if b == SubWatershedsPath then i.subBasin
    else if b == Et0Dir then i.et0Dir
    else if b == PrecipDir then i.precipDir
    else if b == RainEventsTablePath then i.rainTable
    else if b == SoilGroupPath then i.soilGroup
    else if b == ThresholdFlowAccumulation then i.threshold
    else if b == ErodibilityPath then i.erodibility
    else i.erosivity
  }

  /** The baseline dictionary: every baseline key, and no other. */
  function BaseEntries(i: BaseInputs): (a: Args)
    ensures forall k :: k in a <==> k.Base?
    ensures forall b :: a[Base(b)] == BaseEntry(i, b)
  {
    map b: BaseKey :: Base(b) := BaseEntry(i, b)
  }

  /** The configuration values of the baseline, read in the order of the
      source; the first failing lookup ends the build. */
  function BaselineInputs(project: string, user: UserData): (r: Result<BaseInputs, ArgError>)
    ensures r.Success? <==> UserReady(user)
    ensures r.Failure? ==> UserDefect(user, r.error)
    ensures r.Success? ==>
              r.value.lulc == Path([project, "INPUTS", "LULC", user["LULC"].s + ".tif"]) &&
              r.value.bioTable == Path([project, "INPUTS", user["BioTable"].s + ".csv"]) &&
              r.value.basin == Path([project, "INPUTS", "Basin", user["Basin"].s + ".shp"]) &&
              r.value.suffix == Value(user["Suffix"]) &&
              r.value.threshold == Fixed(user["Threshold"].x, 0)
  {
    var nl :- InputPath(project, user, ["LULC"], "LULC", ".tif");
    var nb :- InputPath(project, user, [], "BioTable", ".csv");
    var depth :- InputPath(project, user, [], "SoilDepth", ".tif");
    var eto :- InputPath(project, user, [], "ETP", ".tif");
    var pawc :- InputPath(project, user, [], "PAWC", ".tif");
    var precip :- InputPath(project, user, [], "P", ".tif");
    var suffix :- if "Suffix" in user then Success(Value(user["Suffix"])) else Failure(KeyError("Suffix"));
    var sub :- InputPath(project, user, ["Basin"], "SubBasin", ".shp");
    var basin :- InputPath(project, user, ["Basin"], "Basin", ".shp");
    var demRaster :- InputPath(project, user, [], "DEM", ".tif");
    var et0 :- InputPath(project, user, [], "ETP_Path", "");
    var precipDir :- InputPath(project, user, [], "P_Path", "");
    var rain :- InputPath(project, user, [], "RainTable", ".csv");
    var soil :- InputPath(project, user, [], "SoilGroup", ".tif");
    var threshold :- UserFixed(user, "Threshold", 0);
    var erodibility :- InputPath(project, user, [], "K", ".tif");
    var erosivity :- InputPath(project, user, [], "R", ".tif");
    Success(BaseInputs(nl, nb, depth, eto, pawc, precip, suffix, sub, basin, demRaster, et0,
                       precipDir, rain, soil, threshold, erodibility, erosivity))
  }

  /** The baseline: every baseline key, with its entry. */
  function Baseline(project: string, user: UserData): (r: Result<Args, ArgError>)
    ensures r.Success? <==> UserReady(user)
    ensures r.Failure? ==> UserDefect(user, r.error)
    ensures r.Success? ==> forall k :: k in r.value <==> k.Base?
    ensures r.Success? ==> BaselineInputs(project, user).Success? &&
                           forall b :: r.value[Base(b)] == BaseEntry(BaselineInputs(project, user).value, b)
  {
    var inputs :- BaselineInputs(project, user);
    Success(BaseEntries(inputs))
  }

  /** Keys built from the same configuration row share its value: the land
      use map and the biophysical table. */
  lemma BaseEntriesShared(i: BaseInputs)
    ensures BaseEntry(i, LulcPath) == BaseEntry(i, LulcRasterPath) == BaseEntry(i, LulcCurPath) == i.lulc
    ensures BaseEntry(i, BiophysicalTablePath) == BaseEntry(i, CarbonPoolsPath) == i.bioTable
  {
  }

  /** The same for the basin, the elevation model and the precipitation. */
  lemma BaseEntriesSharedRasters(i: BaseInputs)
    ensures BaseEntry(i, WatershedsPath) == BaseEntry(i, AoiPath) == i.basin
    ensures BaseEntry(i, DemRasterPath) == BaseEntry(i, DemPath) == i.dem
    ensures BaseEntry(i, PrecipitationPath) == BaseEntry(i, RunoffProxyPath) == i.precip
  {
  }

  /** The fixed switches of the water yield models: no scarcity and
      valuation, no monthly alpha, no user-defined climate zones or recharge. */
  lemma BaseEntriesWaterSwitches(i: BaseInputs)
    ensures BaseEntry(i, DoScarcityAndValuation) == BaseEntry(i, MonthlyAlpha) == Bool(false)
    ensures BaseEntry(i, UserDefinedClimateZones) == BaseEntry(i, UserDefinedLocalRecharge) == Bool(false)
  {
  }

  /** The other fixed entries: no sequestration, REDD or valuation runs, no
      drainage layer, and multiple flow direction routing. */
  lemma BaseEntriesOtherSwitches(i: BaseInputs)
    ensures BaseEntry(i, CalcSequestration) == BaseEntry(i, DoRedd) == BaseEntry(i, DoValuation) == Bool(false)
    ensures BaseEntry(i, DrainagePath) == Str("") && BaseEntry(i, FlowDirAlgorithm) == Str("MFD")
  {
  }

  /** The baseline always asks for multiple flow direction routing. */
  lemma BaselineFlowDir(project: string, user: UserData)
    requires Baseline(project, user).Success?
    ensures Base(FlowDirAlgorithm) in Baseline(project, user).value
    ensures Baseline(project, user).value[Base(FlowDirAlgorithm)] == Str("MFD")
  {
    assert Baseline(project, user).value[Base(FlowDirAlgorithm)] ==
           BaseEntry(BaselineInputs(project, user).value, FlowDirAlgorithm);
  }

  /** The model-specific entries other than `k_param`: the calibrated values
      with their decimals, and the nutrient switches (`NDR_N` computes
      nitrogen only, `NDR_P` phosphorus only). */
  function ModelOverlay(params: Params, statusK: ModelId): (r: Result<Args, ArgError>)
    ensures r.Success? <==> ModelParams(statusK) <= params.Keys
    ensures r.Failure? ==> MissingParam(r.error, ModelParams(statusK), params)
    ensures r.Success? ==> HasModelKeys(r.value, ModelKeys(statusK))
    ensures r.Success? && statusK == AWY ==> Writes(r.value, SeasonalityConstant, params, "Z", 2)
    ensures r.Success? && statusK == SWY ==>
              Writes(r.value, AlphaM, params, "Alpha", 3) && Writes(r.value, BetaI, params, "Beta", 3) &&
              Writes(r.value, GammaKey, params, "Gamma", 3)
    ensures r.Success? && statusK == SDR ==>
              Writes(r.value, LMax, params, "L_max", 2) && Writes(r.value, Ic0Param, params, "IC0", 2) &&
              Writes(r.value, SdrMax, params, "sdr_max", 2)
    ensures r.Success? && statusK == NDR_N ==>
              Sets(r.value, CalcN, Bool(true)) && Sets(r.value, CalcP, Bool(false)) &&
              Writes(r.value, SubsurfaceCriticalLengthN, params, "Factor_Load_N", 2) &&
              Writes(r.value, SubsurfaceEffN, params, "Factor_Eff_N", 2)
    ensures r.Success? && statusK == NDR_P ==>
              Sets(r.value, CalcN, Bool(false)) && Sets(r.value, CalcP, Bool(true)) &&
              Writes(r.value, SubsurfaceCriticalLengthP, params, "Factor_Load_P", 2) &&
              Writes(r.value, SubsurfaceEffP, params, "Factor_Eff_P", 2)
  {
    match statusK
    case AWY => AwyOverlay(params)
    case SWY => SwyOverlay(params)
    case SDR => SdrOverlay(params)
    case NDR_N => NdrOverlay(params, true)
    case NDR_P => NdrOverlay(params, false)
  }

  function AwyOverlay(params: Params): (r: Result<Args, ArgError>)
    ensures r.Success? <==> ModelParams(AWY) <= params.Keys
    ensures r.Failure? ==> MissingParam(r.error, ModelParams(AWY), params)
    ensures r.Success? ==> HasModelKeys(r.value, ModelKeys(AWY))
    ensures r.Success? ==> Writes(r.value, SeasonalityConstant, params, "Z", 2)
  {
    var z :- ParamFixed(params, "Z", 2);
    Success(map[Model(SeasonalityConstant) := z])
  }

  function SwyOverlay(params: Params): (r: Result<Args, ArgError>)
    ensures r.Success? <==> ModelParams(SWY) <= params.Keys
    ensures r.Failure? ==> MissingParam(r.error, ModelParams(SWY), params)
    ensures r.Success? ==> HasModelKeys(r.value, ModelKeys(SWY))
    ensures r.Success? ==>
              Writes(r.value, AlphaM, params, "Alpha", 3) && Writes(r.value, BetaI, params, "Beta", 3) &&
              Writes(r.value, GammaKey, params, "Gamma", 3)
  {
    var alpha :- ParamFixed(params, "Alpha", 3);
    var beta :- ParamFixed(params, "Beta", 3);
    var gamma :- ParamFixed(params, "Gamma", 3);
    Success(map[Model(AlphaM) := alpha, Model(BetaI) := beta, Model(GammaKey) := gamma])
  }

  function SdrOverlay(params: Params): (r: Result<Args, ArgError>)
    ensures r.Success? <==> ModelParams(SDR) <= params.Keys
    ensures r.Failure? ==> MissingParam(r.error, ModelParams(SDR), params)
    ensures r.Success? ==> HasModelKeys(r.value, ModelKeys(SDR))
    ensures r.Success? ==>
              Writes(r.value, LMax, params, "L_max", 2) && Writes(r.value, Ic0Param, params, "IC0", 2) &&
              Writes(r.value, SdrMax, params, "sdr_max", 2)
  {
    var lMax :- ParamFixed(params, "L_max", 2);
    var ic0 :- ParamFixed(params, "IC0", 2);
    var sdrMax :- ParamFixed(params, "sdr_max", 2);
    Success(map[Model(LMax) := lMax, Model(Ic0Param) := ic0, Model(SdrMax) := sdrMax])
  }

  /** The nutrient models: `nitrogen` tells `NDR_N` from `NDR_P`. */
  function NdrOverlay(params: Params, nitrogen: bool): (r: Result<Args, ArgError>)
    ensures var m := if nitrogen then NDR_N else NDR_P;
            (r.Success? <==> ModelParams(m) <= params.Keys) &&
            (r.Failure? ==> MissingParam(r.error, ModelParams(m), params)) &&
            (r.Success? ==> HasModelKeys(r.value, ModelKeys(m)))
    ensures r.Success? ==> Sets(r.value, CalcN, Bool(nitrogen)) && Sets(r.value, CalcP, Bool(!nitrogen))
    ensures r.Success? && nitrogen ==>
              Writes(r.value, SubsurfaceCriticalLengthN, params, "Factor_Load_N", 2) &&
              Writes(r.value, SubsurfaceEffN, params, "Factor_Eff_N", 2)
    ensures r.Success? && !nitrogen ==>
              Writes(r.value, SubsurfaceCriticalLengthP, params, "Factor_Load_P", 2) &&
              Writes(r.value, SubsurfaceEffP, params, "Factor_Eff_P", 2)
  {
    if nitrogen then
      var len :- ParamFixed(params, "Factor_Load_N", 2);
      var eff :- ParamFixed(params, "Factor_Eff_N", 2);
      Success(map[Model(CalcN) := Bool(true), Model(CalcP) := Bool(false),
                  Model(SubsurfaceCriticalLengthN) := len, Model(SubsurfaceEffN) := eff])
    else
      var len :- ParamFixed(params, "Factor_Load_P", 2);
      var eff :- ParamFixed(params, "Factor_Eff_P", 2);
      Success(map[Model(CalcN) := Bool(false), Model(CalcP) := Bool(true),
                  Model(SubsurfaceCriticalLengthP) := len, Model(SubsurfaceEffP) := eff])
  }

  /** The `k_param` entry: the SDR Borselli constant for SDR, the NDR one for
      either nutrient model, and none for the water yield models. */
  function KParamOverlay(params: Params, statusK: ModelId): (r: Result<Args, ArgError>)
    ensures r.Success? <==> KParamParams(statusK) <= params.Keys
    ensures r.Failure? ==> MissingParam(r.error, KParamParams(statusK), params)
    ensures r.Success? ==> HasModelKeys(r.value, KParamKeys(statusK))
    ensures r.Success? && statusK == SDR ==> Writes(r.value, KParam, params, "Borselli-K_SDR", 2)
    ensures r.Success? && (statusK == NDR_N || statusK == NDR_P) ==> Writes(r.value, KParam, params, "Borselli-K_NDR", 2)
  {
    match statusK
    case SDR =>
      var k :- ParamFixed(params, "Borselli-K_SDR", 2);
      Success(map[Model(KParam) := k])
    case NDR_N | NDR_P =>
      var k :- ParamFixed(params, "Borselli-K_NDR", 2);
      Success(map[Model(KParam) := k])
    case _ => Success(map[])
  }

  /** The model-specific entries: present exactly for the model's keys, and
      failing only on a missing parameter of that model. The nutrient models
      switch on their own nutrient only; `k_param` is the SDR Borselli
      constant for SDR and the NDR one for either nutrient model. */
  function Overlay(params: Params, statusK: ModelId): (r: Result<Args, ArgError>)
    ensures r.Success? <==> RequiredParams(statusK) <= params.Keys
    ensures r.Failure? ==> MissingParam(r.error, RequiredParams(statusK), params)
    ensures r.Success? ==> HasModelKeys(r.value, OverlayKeys(statusK))
    ensures r.Success? && statusK == NDR_N ==> Sets(r.value, CalcN, Bool(true)) && Sets(r.value, CalcP, Bool(false))
    ensures r.Success? && statusK == NDR_P ==> Sets(r.value, CalcN, Bool(false)) && Sets(r.value, CalcP, Bool(true))
    ensures r.Success? && statusK == SDR ==> Writes(r.value, KParam, params, "Borselli-K_SDR", 2)
    ensures r.Success? && statusK in {NDR_N, NDR_P} ==> Writes(r.value, KParam, params, "Borselli-K_NDR", 2)
  {
    var model :- ModelOverlay(params, statusK);
    var k :- KParamOverlay(params, statusK);
    Success(model + k)
  }

  /** `Create_argsInVEST`: the baseline followed by the overlay of the model
      named by statusK. It fails exactly when the configuration or the
      model's parameters fall short, naming a key that does. */
  function CreateArgs(project: string, user: UserData, params: Params, statusK: ModelId): (r: Result<Args, ArgError>)
    ensures r.Success? <==> UserReady(user) && RequiredParams(statusK) <= params.Keys
    ensures r.Failure? ==> UserDefect(user, r.error) ||
                           (UserReady(user) && MissingParam(r.error, RequiredParams(statusK), params))
  {
    var base :- Baseline(project, user);
    var over :- Overlay(params, statusK);
    Success(base + over)
  }

  /** Every baseline key is present, a model key exactly when the model gets
      it, and `workspace_dir` not yet. */
  lemma CreateArgsKeys(project: string, user: UserData, params: Params, statusK: ModelId)
    requires CreateArgs(project, user, params, statusK).Success?
    ensures var a := CreateArgs(project, user, params, statusK).value;
            (forall b :: Base(b) in a) && (forall m :: Model(m) in a <==> m in OverlayKeys(statusK)) &&
            WorkspaceDir !in a
  {
    var a := CreateArgs(project, user, params, statusK).value;
    var base := Baseline(project, user).value;
    var over := Overlay(params, statusK).value;
    assert a == base + over;
    assert HasModelKeys(over, OverlayKeys(statusK));
    forall b ensures Base(b) in a {
      assert Base(b) in base;
    }
    forall m ensures Model(m) in a <==> m in OverlayKeys(statusK) {
      assert Model(m) !in base;
    }
    assert WorkspaceDir !in base && WorkspaceDir !in over;
  }

  /** The baseline entries are the baseline's values and the model entries
      the overlay's. */
  lemma CreateArgsValues(project: string, user: UserData, params: Params, statusK: ModelId)
    requires CreateArgs(project, user, params, statusK).Success?
    ensures Baseline(project, user).Success? && Overlay(params, statusK).Success?
    ensures var a := CreateArgs(project, user, params, statusK).value;
            (forall k :: k in Baseline(project, user).value ==> k in a && a[k] == Baseline(project, user).value[k]) &&
            (forall m :: Model(m) in Overlay(params, statusK).value ==> Model(m) in a && a[Model(m)] == Overlay(params, statusK).value[Model(m)])
  {
  }

  // ---------------------------------------------------------------------------
  // Properties
  // ---------------------------------------------------------------------------

  /** The baseline keys and values do not depend on the model or its
      parameters, and a baseline defect fails every model alike. */
  lemma BaselineIndependent(project: string, user: UserData, p1: Params, s1: ModelId, p2: Params, s2: ModelId)
    ensures !UserReady(user) ==> CreateArgs(project, user, p1, s1) == CreateArgs(project, user, p2, s2)
    ensures CreateArgs(project, user, p1, s1).Success? && CreateArgs(project, user, p2, s2).Success? ==>
              var a1 := CreateArgs(project, user, p1, s1).value;
              var a2 := CreateArgs(project, user, p2, s2).value;
              forall b :: Base(b) in a1 && Base(b) in a2 && a1[Base(b)] == a2[Base(b)]
  {
    if CreateArgs(project, user, p1, s1).Success? && CreateArgs(project, user, p2, s2).Success? {
      CreateArgsKeys(project, user, p1, s1);
      CreateArgsKeys(project, user, p2, s2);
      CreateArgsValues(project, user, p1, s1);
      CreateArgsValues(project, user, p2, s2);
      }
  }

  /** The dictionary depends on the parameters only through the model's own
      required parameters. */
  lemma OnlyRequiredParamsMatter(project: string, user: UserData, p1: Params, p2: Params, statusK: ModelId)
    requires forall k :: k in RequiredParams(statusK) ==> (k in p1 <==> k in p2) && (k in p1 ==> p1[k] == p2[k])
    ensures CreateArgs(project, user, p1, statusK) == CreateArgs(project, user, p2, statusK)
  {
    assert Overlay(p1, statusK) == Overlay(p2, statusK);
  }
}
