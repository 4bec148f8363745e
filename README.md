# InVEST calibration pipeline — a Dafny model

This project models the deterministic core of the InVEST automatic
calibration assistant (`Spotpy_InVEST.py`) and proves properties of it. A
calibration session drives one of five InVEST models (annual water yield AWY,
seasonal water yield SWY, sediment delivery SDR, nitrogen NDR_N, phosphorus
NDR_P). For each parameter vector the optimizer proposes, one trial:

1. names the sampled components;
2. rescales columns of the biophysical table (`Factor_BioTable`);
3. builds the model's argument dictionary (`Create_argsInVEST`);
4. runs the engine;
5. aligns the simulated watersheds with the observation table by watershed id
   (`ismember`);
6. returns the sign-corrected error metric (`FactorMetric * metric`);
7. appends one row to the Metric log, and the Obs and Sim series to their logs.

After the session, `Plot_*` reads the logs back, reshapes the flat Obs and Sim
logs into trials × gauges, and picks the best trial.

The modules follow those pieces:

- `Wrappers` — `Option` and `Result`.
- `Numeric` — exact decimal round-half-even on reals (`round(x, d)` and the
  `'%0.Nf'` writes), with its bound and idempotence.
- `ModelIds` — the five model names.
- `KeyAlignment` — `ismember` / `_compute`, modelled stage by stage as numpy
  computes it (`isin`, boolean selection, `unique` with first indices and
  inverse, then the gather). The stages are proved equal to "mask of
  membership, and for each matched element the lowest index in `b` holding it".
- `BioTable` — `Factor_BioTable` as a method. The loop over `Kc_1..Kc_12` stays
  a `while` loop. Each masked `.loc` assignment updates one column of the table
  in place (pandas without copy-on-write; see "Left out").
  The method is proved equal to a declarative transform: which column changes,
  on which rows, under which rule and cap. Missing columns or parameters raise
  the first `KeyError` the source would raise.
- `InvestArgs` — `Create_argsInVEST` as a function returning the argument map:
  - a baseline read from the user configuration, independent of the model;
  - an overlay keyed on `StatusK`;
  - the shared `k_param` entry.
  Path joins are kept as component lists. `'%0.Nf' % x` is kept as the value
  with its decimal count.
- `TrialLogs` — the append-only CSV logs as a class. Each log keeps the lines
  written so far and whether the file exists. A header is written only when the
  file did not exist. `AppendColumn` is the `for ii in range(len(...))` loop.
- `Calibration` — the sign factor chosen from the optimizer name, the per-model
  vector-to-parameter mapping, the trial argument overrides (temporary table,
  calibration basin, workspace, flow algorithm), the trial as a specification
  function, and the `Execute_*` glue as a method that runs a trial and writes
  its three logs. The engine and the metric are function parameters.
- `BestTrial` — the `Plot_*` reshape (`NGauges = |Obs| div |Metric|`, entry
  (t, g) = `flat[t * NGauges + g]`), the transpose, the first argmin, and the
  best-trial selection. `PlotSelection` is the selection the source makes,
  `PlotSelectionCorrected` the intended one; the `Findings` section below
  explains the difference.

Two behaviours of the code that a reader may not expect are kept as written:

- The nutrient columns (`load_n`, `eff_n`, `load_p`, `eff_p`) are rescaled on
  every row, not only on flagged rows. The masked assignment is followed by a
  whole-column assignment.
- The best trial is the first argmin of the stored, sign-multiplied metric,
  not of the sign-corrected one (`BestTrial.PlotSelection`). The intended
  selection is modelled beside it (`BestTrial.PlotSelectionCorrected`).

Three further properties of the code are kept as written and proved as lemmas:

- the seasonal model passes the component sampled from Gamma's range as
  `Alpha`, and Alpha's as `Gamma`;
- the nitrogen model's first two sampled components (`SubCri_Len_N`,
  `Sub_Eff_N`) never reach the engine, because `subsurface_critical_length_n`
  and `subsurface_eff_n` are written from `Factor_Load_N` and `Factor_Eff_N`;
- because each trial's parameters hold only its own model's factor, a session
  whose configuration enables a second model's table block fails every trial
  with a `KeyError` (the other block's factor when the table has every column).

## Model

| member | source | states |
|---|---|---|
| `Numeric.RoundHalfEvenInt` | Spotpy_InVEST.py:262 | the integer is within 1/2 of the input, even on an exact tie, and equal to an integral input (numpy's half-to-even rounding) |
| `Numeric.Round` | Spotpy_InVEST.py:262 | `round(x, d)` has at most d decimals and lies within half a unit of the d-th decimal of x |
| `Numeric.RoundKeepsDecimals` | Spotpy_InVEST.py:275 | a value that already has d decimals is left unchanged by rounding to d decimals |
| `Numeric.RoundIdempotent` | Spotpy_InVEST.py:275 | rounding twice to d decimals equals rounding once (so pre-rounding an already rounded factor changes nothing) |
| `Numeric.RoundUnitFactor` | Spotpy_InVEST.py:262 | a value with d decimals multiplied by the factor 1 and rounded to d decimals is unchanged |
| `KeyAlignment.IsIn` | Spotpy_InVEST.py:1986 | `np.isin(a, b)`: a mask of length \|a\| whose entry i holds exactly when a[i] occurs in b |
| `KeyAlignment.Positions` | Spotpy_InVEST.py:1987 | the positions of the true mask entries, strictly increasing, as many as there are true entries |
| `KeyAlignment.Select` | Spotpy_InVEST.py:1987 | boolean selection `a[mask]` keeps one element per true entry |
| `KeyAlignment.SelectAt` | Spotpy_InVEST.py:1987 | the k-th selected element is the element at the k-th true position |
| `KeyAlignment.SelectIsInMembers` | Spotpy_InVEST.py:1986-1987 | the elements of `a[isin(a, b)]` are exactly the values in both a and b |
| `KeyAlignment.Insert` | Spotpy_InVEST.py:1988-1989 | inserting into a strictly sorted sequence keeps it strictly sorted and adds exactly the new value |
| `KeyAlignment.Unique` | Spotpy_InVEST.py:1988-1989 | `np.unique`: strictly sorted, holding exactly the values of the input |
| `KeyAlignment.SortedUnique` | Spotpy_InVEST.py:1988-1989 | two strictly sorted sequences with the same values are equal (so `np.unique` is determined by its value set) |
| `KeyAlignment.SelectSorted` | Spotpy_InVEST.py:1990 | selecting from a strictly sorted sequence keeps it strictly sorted |
| `KeyAlignment.FirstIndex` | Spotpy_InVEST.py:1925-1927 | the lowest index of b holding v: in bounds, holds v, and no earlier index does |
| `KeyAlignment.FirstIndices` | Spotpy_InVEST.py:1989 | `return_index=True`: for each value, the index of its first occurrence in b |
| `KeyAlignment.CommonIndex` | Spotpy_InVEST.py:1989-1990 | `b_ind[isin(b_unique, common_unique)]`: for each common unique value, its first index in b |
| `KeyAlignment.SelectedFirstIndices` | Spotpy_InVEST.py:1989-1990 | selecting the first indices of b's unique values by membership in a sorted common set gives each common value's first index |
| `KeyAlignment.Gather` | Spotpy_InVEST.py:1988-1992 | `common_ind[common_inv]`: one index per matched element of a, the first index of its value in b |
| `KeyAlignment.IsMember` | Spotpy_InVEST.py:1919-1963 | `ismember` (no method): the mask has length \|a\| and marks exactly the elements of a found in b; the index array has one entry per true mask entry; the k-th entry is in bounds, holds the k-th matched element, and is the lowest such index |
| `KeyAlignment.MatchIndex` | Spotpy_InVEST.py:1985-1992 | the index array is, entry by entry, the first index in b of the k-th element of `a[isin(a, b)]` |
| `KeyAlignment.MatchIndexBounds` | Spotpy_InVEST.py:1985-1992 | every entry of the index array is a valid position of b, so `values[idx]` never indexes out of range |
| `KeyAlignment.MatchIndexFirst` | Spotpy_InVEST.py:1985-1992 | every entry of the index array points at an element of b equal to its matched element, and no earlier element of b has that value |
| `KeyAlignment.IsMemberFirstIndex` | Spotpy_InVEST.py:1925-1927 | the mask of `ismember` equals `isin(a, b)`, and each index entry is the first index in b of the matched element |
| `KeyAlignment.MatchedPairsAgree` | Spotpy_InVEST.py:1941-1944 | the documented identity `a_vec[Iloc] == b_vec[idx]` holds element-wise |
| `KeyAlignment.SelfMatchIsIdentity` | Spotpy_InVEST.py:1985-1992 | matching a duplicate-free sequence against itself marks every element and gives the identity index |
| `KeyAlignment.IdentityMatch` | Spotpy_InVEST.py:1925-1927 | any all-true match of a duplicate-free sequence against itself with correct entries is the identity |
| `KeyAlignment.CountTrueAll` | Spotpy_InVEST.py:1986-1987 | at most \|mask\| entries are true, and exactly \|mask\| when every entry is true |
| `KeyAlignment.SelectAllTrue` | Spotpy_InVEST.py:1987 | selecting with an all-true mask returns the sequence |
| `BioTable.MonthlyKcDistinct` | Spotpy_InVEST.py:273-279 | the loop visits twelve distinct monthly columns `Kc_1..Kc_12` |
| `BioTable.Apply` | Spotpy_InVEST.py:262-337 | the new value of one entry under each rule (262, 275, 287, 294, 306, 316, 327, 337): `round(v * f, d)` with the factor pre-rounded to 2 for monthly Kc and USLE, then the cap (264, 277, 289, 296); its properties are `BioTable.ApplySpec` |
| `BioTable.ApplySpec` | Spotpy_InVEST.py:262-264 | each new value has its rule's decimals (2, 2, 5, 2, 3, 2), Kc values never exceed 1.2 and USLE values never exceed 1 |
| `BioTable.Scaled` | Spotpy_InVEST.py:262 | the column-wide `Values` series: each entry is the rule applied to the entry and the factor |
| `BioTable.Overlay` | Spotpy_InVEST.py:266 | the masked assignment: entries whose flag is 1 take the new value, the others keep theirs |
| `BioTable.Adjustment` | Spotpy_InVEST.py:257-341 | the declared per-column change: `Kc` under a truthy `Status_AWY`, `Kc_1..Kc_12` under a truthy `Status_SWY`, `usle_c`/`usle_p` when `Status_SDR == 1`, the nutrient columns when `Status_NDR_N`/`Status_NDR_P == 1`, each with its rule, factor name and flag (none for the whole-column nutrient writes); tied to the steps by `BioTable.StepsAdjust` and `BioTable.AdjustStep` |
| `BioTable.Step` | Spotpy_InVEST.py:262-341 | one column assignment: the column, its rule, its factor name, its flag column and whether a whole-column write follows (310, 320, 331, 341) |
| `BioTable.Steps` | Spotpy_InVEST.py:257-341 | the assignments of the enabled blocks in source order, the twelve monthly ones from `BioTable.MonthSteps`; `BioTable.RunMeaning` and `BioTable.StepsDistinct` state what running them does |
| `BioTable.FirstMissingSpec` | Spotpy_InVEST.py:262 | the reported key is the first missing lookup in evaluation order, and there is none exactly when every lookup succeeds |
| `BioTable.FirstMissingAppend` | Spotpy_InVEST.py:257-341 | the first missing key of two lookup lists in sequence is the first list's, else the second's |
| `BioTable.FirstMissingKeys` | Spotpy_InVEST.py:262-266 | which key is missing depends only on the table's column names, not on its values |
| `BioTable.Update` | Spotpy_InVEST.py:262-266 | one block: a KeyError exactly when a lookup fails (naming the first missing key); otherwise the same rows and column names, and every other column unchanged |
| `BioTable.RunSteps` | Spotpy_InVEST.py:257-341 | running the steps in order keeps the row count and column names |
| `BioTable.RunStepsKeyError` | Spotpy_InVEST.py:257-341 | the steps fail exactly when some lookup over all steps fails, reporting the first missing key in source order |
| `BioTable.RunStepsCons` | Spotpy_InVEST.py:257-341 | a failing first step stops the run with its key; a succeeding one hands its table to the rest |
| `BioTable.Target` | Spotpy_InVEST.py:257-341 | the step that assigns column c, if any |
| `BioTable.UpdateLocal` | Spotpy_InVEST.py:262-266 | a step's new column depends only on that column and its flag column |
| `BioTable.RunStepsColumn` | Spotpy_InVEST.py:257-341 | after distinct steps, each column equals what its own step computes from the original table, or is unchanged when no step assigns it |
| `BioTable.RunStepsParams` | Spotpy_InVEST.py:257-341 | the transform depends only on the parameters its steps read |
| `BioTable.MonthSteps` | Spotpy_InVEST.py:273 | `range(1, 13)` gives twelve monthly steps |
| `BioTable.StepsAdjust` | Spotpy_InVEST.py:257-341 | every step the enabled blocks run is the declared adjustment of its column |
| `BioTable.AdjustStep` | Spotpy_InVEST.py:257-341 | every declared adjustment is performed by some step |
| `BioTable.StepFlags` | Spotpy_InVEST.py:266 | no step rewrites a flag column that a step reads |
| `BioTable.StepsFlagsKept` | Spotpy_InVEST.py:257-341 | no step's flag column is an assigned column |
| `BioTable.BlockSteps` | Spotpy_InVEST.py:257-341 | each block assigns distinct columns, all of its own block |
| `BioTable.StepsDistinct` | Spotpy_InVEST.py:257-341 | the enabled blocks never assign one column twice |
| `BioTable.CompleteReady` | Spotpy_InVEST.py:257-341 | when every lookup succeeds, each adjusted column exists and its factor and flag are present |
| `BioTable.NewColumn` | Spotpy_InVEST.py:262-266 | the declared new column has the table's row count |
| `BioTable.Transformed` | Spotpy_InVEST.py:250-347 | the transformed table keeps the row count and the column names |
| `BioTable.UpdateIsNewColumn` | Spotpy_InVEST.py:262-266 | a performed step yields the declared new column |
| `BioTable.RunMeaning` | Spotpy_InVEST.py:250-347 | the step sequence fails with the first missing key, or yields the declared transformed table |
| `BioTable.TransformedEntry` | Spotpy_InVEST.py:262-266 | entry i of column c is rescaled when c is adjusted and the row is selected, else kept |
| `BioTable.AnnualKcRows` | Spotpy_InVEST.py:257-266 | with `Status_AWY` truthy, flagged rows of `Kc` become round(Kc·f, 2), or 1.2 when that is ≥ 1.2; unflagged rows keep their value |
| `BioTable.MonthlyKcRows` | Spotpy_InVEST.py:269-279 | with `Status_SWY` truthy, each `Kc_j` is rescaled the same way under the `Status_Cal_Kc` flag, with the factor pre-rounded to 2 decimals |
| `BioTable.SedimentRows` | Spotpy_InVEST.py:282-298 | with `Status_SDR == 1`, flagged `usle_c` rows become round(c·round(fC,2), 5) capped to 1 when > 1, flagged `usle_p` rows round(p·round(fP,2), 2) capped likewise; unflagged rows keep theirs |
| `BioTable.NutrientColumns` | Spotpy_InVEST.py:301-341 | with `Status_NDR_N` / `Status_NDR_P == 1`, every row of `load_*` becomes round(v·f, 3) and of `eff_*` round(v·f, 2), whatever the flag, unclamped |
| `BioTable.AdjustmentBlocks` | Spotpy_InVEST.py:257-341 | a column is adjusted exactly when its block runs |
| `BioTable.DisabledUnchanged` | Spotpy_InVEST.py:257-341 | columns of disabled blocks, and all other columns, are unchanged |
| `BioTable.AllDisabledIdentity` | Spotpy_InVEST.py:250-347 | with every block disabled nothing is looked up and the table is returned unchanged |
| `BioTable.ApplyUnitIdempotent` | Spotpy_InVEST.py:262-341 | applying a rule with factor 1 twice equals applying it once |
| `BioTable.UnitFactorKeeps` | Spotpy_InVEST.py:262-341 | with factor 1, a value already in its rule's decimals and under its cap is kept |
| `BioTable.UnitFactorFixedPoint` | Spotpy_InVEST.py:250-347 | with every factor 1 the transform is idempotent |
| `BioTable.FlagOfAdjustment` | Spotpy_InVEST.py:266 | a flag column is never itself adjusted |
| `BioTable.CompleteKeys` | Spotpy_InVEST.py:250-347 | success of the lookups depends only on the column names |
| `BioTable.FactorBioTable` | Spotpy_InVEST.py:250-347 | the result is the `KeyError` of the first missing column or parameter, or the declared transformed table |
| `BioTable.AdjustTable` | Spotpy_InVEST.py:257-341 | the block-by-block in-place updates compute exactly the step sequence |
| `BioTable.MonthlyKcLoop` | Spotpy_InVEST.py:269-279 | the `for ij in range(1, 13)` loop performs the twelve monthly steps in order |
| `InvestArgs.InputPath` | Spotpy_InVEST.py:179 | a configuration name row joined under `INPUTS`; KeyError when the row is missing, TypeError when it is not text |
| `InvestArgs.UserFixed` | Spotpy_InVEST.py:201 | `'%0.0f' % UserData['Threshold']`; KeyError or TypeError when absent or not a number |
| `InvestArgs.ParamFixed` | Spotpy_InVEST.py:216 | `'%0.Nf' % Params[key]`; KeyError when the parameter is absent |
| `InvestArgs.UserReady` | Spotpy_InVEST.py:178-212 | the configuration rows the baseline reads: every name row holds text, `Threshold` is a number, `Suffix` is present (any kind, 191) |
| `InvestArgs.BaseEntry` | Spotpy_InVEST.py:178-212 | the value of each baseline key: the fixed switches, `''` for drainage, `MFD`, the threshold and suffix, and each path joined from its row; `InvestArgs.BaseEntriesShared` and its siblings state its sharing and fixed values |
| `InvestArgs.BaseEntries` | Spotpy_InVEST.py:178-212 | the baseline map holds exactly the baseline keys, each with its declared entry |
| `InvestArgs.BaselineInputs` | Spotpy_InVEST.py:179-207 | the baseline's inputs read from the configuration: success exactly when the configuration is ready, otherwise a defect of it; shared paths are built once |
| `InvestArgs.Baseline` | Spotpy_InVEST.py:178-212 | the baseline: success exactly when the configuration is ready, exactly the baseline keys, each with its declared entry |
| `InvestArgs.BaseEntriesShared` | Spotpy_InVEST.py:179-185 | the three LULC keys share one path, and the biophysical and carbon tables share one |
| `InvestArgs.BaseEntriesSharedRasters` | Spotpy_InVEST.py:190-208 | watersheds and AOI, both DEM keys, and precipitation and runoff proxy share one path each |
| `InvestArgs.BaseEntriesWaterSwitches` | Spotpy_InVEST.py:187-203 | scarcity, monthly alpha, climate zones and local recharge are off |
| `InvestArgs.BaseEntriesOtherSwitches` | Spotpy_InVEST.py:205-212 | sequestration, REDD and valuation are off, the drainage path is empty, the flow algorithm is MFD |
| `InvestArgs.BaselineFlowDir` | Spotpy_InVEST.py:212 | every built dictionary sets `flow_dir_algorithm` to MFD |
| `InvestArgs.AwyOverlay` | Spotpy_InVEST.py:215-216 | AWY writes `seasonality_constant` from `Z` with 2 decimals, or fails with the missing key |
| `InvestArgs.SwyOverlay` | Spotpy_InVEST.py:219-222 | SWY writes `alpha_m`, `beta_i`, `gamma` with 3 decimals |
| `InvestArgs.SdrOverlay` | Spotpy_InVEST.py:225-228 | SDR writes `l_max`, `ic_0_param`, `sdr_max` with 2 decimals |
| `InvestArgs.NdrOverlay` | Spotpy_InVEST.py:231-241 | NDR_N sets calc_n true and calc_p false and the N subsurface keys; NDR_P the reverse and the P keys |
| `InvestArgs.ModelOverlay` | Spotpy_InVEST.py:215-241 | the model keys appear only for the matching `StatusK`, with the stated sources and decimals; otherwise the missing parameter |
| `InvestArgs.KParamOverlay` | Spotpy_InVEST.py:243-246 | `k_param` from `Borselli-K_SDR` for SDR, from `Borselli-K_NDR` for both NDR variants, absent for AWY and SWY |
| `InvestArgs.Overlay` | Spotpy_InVEST.py:215-246 | the whole overlay: success exactly when the model's parameters are present, and the model's keys with their values |
| `InvestArgs.CreateArgs` | Spotpy_InVEST.py:174-248 | success exactly when the configuration is ready and the model's parameters are present; otherwise a configuration defect or the missing parameter |
| `InvestArgs.CreateArgsKeys` | Spotpy_InVEST.py:178-248 | the dictionary holds every baseline key, exactly the model's overlay keys, and no workspace |
| `InvestArgs.CreateArgsValues` | Spotpy_InVEST.py:178-248 | the baseline and the overlay entries appear unchanged in the dictionary |
| `InvestArgs.BaselineIndependent` | Spotpy_InVEST.py:178-212 | the baseline keys and values do not depend on `StatusK` or the parameters |
| `InvestArgs.OnlyRequiredParamsMatter` | Spotpy_InVEST.py:214-248 | the dictionary depends only on the parameters the model reads |
| `Calibration.FactorMetric` | Spotpy_InVEST.py:92-97 | −1 for DDS, +1 for SCE-UA and LHS, unset for any other optimizer name |
| `Calibration.Signed` | Spotpy_InVEST.py:938 | `FactorMetric * metric` for a factor of ±1; `Calibration.SignedProduct` proves it is the product and an involution |
| `Calibration.SearchSpace` | Spotpy_InVEST.py:790-826 | the names of the sampled components per model, in sampling order (`Z, Factor-Kc`; `Gamma, Beta, Alpha, Factor-Kc_m`; ...); `Calibration.SwyAlphaGammaSwapped` and `Calibration.OwnFactor` are about it |
| `Calibration.SignedProduct` | Spotpy_InVEST.py:938 | the returned objective is the sign times the metric, and applying the sign twice restores the metric |
| `Calibration.TrialParams` | Spotpy_InVEST.py:902 | the named parameters hold exactly the model's sampled names, each component under its own range's name except in SWY |
| `Calibration.SwyAlphaGammaSwapped` | Spotpy_InVEST.py:797-800 | SWY samples Gamma first but passes x[0] as Alpha and x[2] as Gamma |
| `Calibration.ModelBlock` | Spotpy_InVEST.py:257-341 | each model owns one block of the table transform |
| `Calibration.OwnFactor` | Spotpy_InVEST.py:790-828 | a block's factor is sampled exactly by the block's own model |
| `Calibration.TrialHasOwnFactorOnly` | Spotpy_InVEST.py:902 | a trial's parameters hold a block's factor exactly when the block is the model's own |
| `Calibration.BlockStep` | Spotpy_InVEST.py:257-341 | an enabled block performs a step reading the block's factor |
| `Calibration.OtherBlockKeyError` | Spotpy_InVEST.py:905 | a trial of one model with another model's block enabled always fails with a table `KeyError` |
| `Calibration.StepFactors` | Spotpy_InVEST.py:257-341 | every step reads one of the eight factor parameters |
| `Calibration.TablePath` | Spotpy_InVEST.py:906 | the temporary table `TMP/<model>_<BioTable>.csv` |
| `Calibration.CalibrationBasinPath` | Spotpy_InVEST.py:913 | the calibration basin `INPUTS/Basin_Cal_<model>/Basin_Cal_<model>.shp` |
| `Calibration.WorkspaceName` | Spotpy_InVEST.py:915 | the output folder per model: `01-AWY`, `02-SWY`, `03-SDR`, `04-NDR_N`, `04-NDR_P` (915 and its siblings, 1107 for SDR) |
| `Calibration.TrialEntries` | Spotpy_InVEST.py:909-915 | the trial replaces the table and watershed paths, adds the workspace, sets MFD for SDR and NDR, and keeps every other entry |
| `Calibration.TrialArgs` | Spotpy_InVEST.py:909-915 | the trial dictionary exists exactly when `Create_argsInVEST` succeeds |
| `Calibration.FlowDirAlreadyMfd` | Spotpy_InVEST.py:1107 | the trial's MFD override only repeats the baseline value |
| `Calibration.FlowDirKept` | Spotpy_InVEST.py:1107 | a dictionary already set to MFD keeps MFD through the trial overrides |
| `Calibration.AlignedObs` | Spotpy_InVEST.py:932-933 | `evaluation[...].values[idx]`: one observation per matched simulated watershed |
| `Calibration.Pick` | Spotpy_InVEST.py:933 | integer-array indexing `values[idx]`: one value per index, in order, each the value at that index |
| `Calibration.AlignedObsEntry` | Spotpy_InVEST.py:932-933 | the k-th observation is the evaluation value at the first index of the k-th matched simulated id |
| `Calibration.AlignedObsLength` | Spotpy_InVEST.py:932-933 | Obs is never longer than Sim, and equally long exactly when every simulated id is observed (Sim is not filtered) |
| `Calibration.Trial` | Spotpy_InVEST.py:884-977 | the trial as a value: the table name, the table transform's first `KeyError`, `Create_argsInVEST`, the engine, the suffix `TypeError` on a non-text suffix (925), the alignment and the signed metric; the specification of `Calibration.RunTrial` and `Calibration.ExecuteTrial` |
| `Calibration.TrialInputs` | Spotpy_InVEST.py:902-915 | the engine inputs succeed exactly when the configuration is ready and every table lookup succeeds; the table is the transformed table and the dictionary is `Create_argsInVEST` with the three trial paths; a configuration error is a defect of the user data and a table error is the first missing key |
| `Calibration.AfterRun` | Spotpy_InVEST.py:925-938 | after the engine: fails with the suffix `TypeError` exactly when the suffix is not text; otherwise Obs is the aligned evaluation column, Sim the engine output, and the objective the signed metric of the two |
| `Calibration.SuffixText` | Spotpy_InVEST.py:925 | the suffix row is present and holds text, as the output file name join requires (925, 1016, 1117, 1218, 1319) |
| `Calibration.RequiredParamsSampled` | Spotpy_InVEST.py:902 | every model's own parameters include what its dictionary needs |
| `Calibration.TrialSucceeds` | Spotpy_InVEST.py:884-977 | a trial succeeds exactly when the configuration is ready, the suffix is text and every table lookup succeeds; a configuration error names a missing or mistyped row, or is the `TypeError` of a non-text suffix |
| `Calibration.TrialKeyError` | Spotpy_InVEST.py:905 | a table error names the first missing key of the transform |
| `Calibration.TrialConfigError` | Spotpy_InVEST.py:884-977 | a trial's configuration error is a missing or mistyped row of the user data, or the `TypeError` of a present but non-text suffix |
| `Calibration.TrialObjective` | Spotpy_InVEST.py:938 | the returned value is the sign times the metric of the aligned Obs and the unfiltered Sim |
| `Calibration.NdrNParamsAgree` | Spotpy_InVEST.py:1193 | two NDR_N vectors agreeing on components 2–4 give parameters agreeing on every key the table and the dictionary read |
| `Calibration.NdrNIgnoresSubsurfaceSamples` | Spotpy_InVEST.py:1193-1232 | an NDR_N trial does not depend on the sampled `SubCri_Len_N` and `Sub_Eff_N` |
| `Calibration.SameTrial` | Spotpy_InVEST.py:884-977 | two samples with the same table outcome and the same dictionary give the same trial |
| `Calibration.SameTransform` | Spotpy_InVEST.py:905 | parameters agreeing on the factors give the same table and the same key error |
| `Calibration.MetricHeader` | Spotpy_InVEST.py:947 | the Metric log header per model: the parameter names written (947, 1039, 1140, 1241, 1342), then the metric's name; `Calibration.MetricHeaderWidth` ties it to the row |
| `Calibration.MetricDigits` | Spotpy_InVEST.py:949-951 | one decimal count per sampled component |
| `Calibration.MetricRow` | Spotpy_InVEST.py:949-951 | the Metric row is each component with its decimals, then the objective with 2 decimals |
| `Calibration.MetricHeaderWidth` | Spotpy_InVEST.py:947-951 | the header and the row have the same width |
| `Calibration.RunTrial` | Spotpy_InVEST.py:884-938 | the trial's steps in order compute the trial specification |
| `Calibration.PrepareInputs` | Spotpy_InVEST.py:902-915 | the table name, the table transform and the dictionary, in the code's order with its early failures, compute the engine inputs specification |
| `Calibration.WriteLogs` | Spotpy_InVEST.py:943-975 | each log gets its header only if it did not exist, one Metric row, one Obs line per observation, one Sim line per simulated value; earlier lines are kept |
| `Calibration.ExecuteTrial` | Spotpy_InVEST.py:884-977 | a failing trial (including a non-text suffix, which fails at 925 before any log) writes nothing and reports its error; a succeeding one returns the objective and appends to the three logs |
| `TrialLogs.Appended` | Spotpy_InVEST.py:943-951 | one append: the header only when the file did not exist, then the rows; its read-back is `TrialLogs.RowsAfterAppend` |
| `TrialLogs.Rows` | Spotpy_InVEST.py:1382 | `np.loadtxt(..., skiprows=1)`: the data rows of a log, header dropped, never more than its lines; `TrialLogs.RowsOfRowLines` and `TrialLogs.RowsConcat` state its behaviour |
| `TrialLogs.Column` | Spotpy_InVEST.py:1388 | a one-column log read back as a flat series, one value per row; `TrialLogs.ColumnRowsBack` states the round trip |
| `TrialLogs.RowLines` | Spotpy_InVEST.py:949-951 | one line per row, in order |
| `TrialLogs.ColumnRows` | Spotpy_InVEST.py:962-963 | one single-value row per series value, with 2 decimals |
| `TrialLogs.RowsConcat` | Spotpy_InVEST.py:945 | reading back two appended pieces gives the rows of each in order |
| `TrialLogs.RowsOfRowLines` | Spotpy_InVEST.py:949-951 | the rows written are the rows read back |
| `TrialLogs.RowsAfterAppend` | Spotpy_InVEST.py:945-951 | appending adds exactly the new rows after the earlier ones, whatever the header |
| `TrialLogs.HeaderLines` | Spotpy_InVEST.py:946-947 | what is appended is a header (absent when the file existed) followed by the rows, and the header holds no data row |
| `TrialLogs.ColumnRowsBack` | Spotpy_InVEST.py:962-963 | the series read back is the series with 2 decimals |
| `TrialLogs.ColumnConcat` | Spotpy_InVEST.py:958-963 | reading a column of appended pieces concatenates the pieces |
| `TrialLogs.AppendKeepsWellFormed` | Spotpy_InVEST.py:944-947 | a log stays with exactly one header at its start after any append |
| `TrialLogs.LogFile.constructor` | Spotpy_InVEST.py:944 | a log that does not exist yet has no lines |
| `TrialLogs.LogFile.AppendRow` | Spotpy_InVEST.py:943-951 | the file exists afterwards and its lines are the old lines plus the header (if it did not exist) and the row |
| `TrialLogs.LogFile.AppendColumn` | Spotpy_InVEST.py:956-963 | the loop appends the header (if needed) and one line per value, in order |
| `BestTrial.Chunks` | Spotpy_InVEST.py:1390 | cutting into `trials` rows of g entries gives a trials × g matrix |
| `BestTrial.ChunksRow` | Spotpy_InVEST.py:1390 | row t is `flat[t*g .. t*g + g]` |
| `BestTrial.Reshape` | Spotpy_InVEST.py:1389-1390 | `reshape(len(Metric), len // len(Metric))` fails on no trials or a length that is not a multiple, else gives a rectangular trials × NGauges matrix |
| `BestTrial.ReshapeEntry` | Spotpy_InVEST.py:1389-1390 | entry (t, g) of the reshaped log is `flat[t * NGauges + g]` |
| `BestTrial.FlattenLength` | Spotpy_InVEST.py:1388 | a rectangular matrix flattens to trials × gauges values |
| `BestTrial.FlattenRow` | Spotpy_InVEST.py:1388-1390 | the t-th row occupies the t-th slice of the flat log |
| `BestTrial.ReshapeFlatten` | Spotpy_InVEST.py:1388-1390 | reshaping a flattened log gives the trial matrix back |
| `BestTrial.FlattenReshape` | Spotpy_InVEST.py:1388-1390 | flattening the reshaped log gives the log back |
| `BestTrial.FlattenChunks` | Spotpy_InVEST.py:1398 | cutting into rows and flattening returns the input |
| `BestTrial.Transpose` | Spotpy_InVEST.py:1391 | the transpose is gauges × trials with entry (g, t) = entry (t, g) |
| `BestTrial.ColumnOfTranspose` | Spotpy_InVEST.py:1392 | column t of the transpose is trial t's row (`Obs[:, 0]`, `Sim[:, id_min]`) |
| `BestTrial.ArgMin` | Spotpy_InVEST.py:1402 | `np.argmin`: an index of a minimum, and the first one |
| `BestTrial.ArgMinUnique` | Spotpy_InVEST.py:1402 | the first minimum index is unique |
| `BestTrial.ArgMinScale` | Spotpy_InVEST.py:1384 | dividing the metric by a positive constant does not change the argmin |
| `BestTrial.ParamCount` | Spotpy_InVEST.py:1383 | the number of parameter columns in the Metric log per model (2, 4, 6, 5, 3), the metric column following them |
| `BestTrial.Scale` | Spotpy_InVEST.py:1384 | the per-model metric divisor is positive |
| `BestTrial.MetricColumn` | Spotpy_InVEST.py:1384 | the metric column read from the log, divided by the model's scale |
| `BestTrial.ActualMetric` | Spotpy_InVEST.py:1405 | the sign-corrected metric of each trial |
| `BestTrial.BestAsWritten` | Spotpy_InVEST.py:1402-1405 | as written: the first trial with the least stored metric (every earlier trial's stored metric is strictly greater), its parameters and its sign-corrected metric |
| `BestTrial.BestSelected` | Spotpy_InVEST.py:1402-1405 | corrected: the first trial with the least sign-corrected metric, its parameters and metric |
| `BestTrial.SelectionsAgreeWithoutSign` | Spotpy_InVEST.py:1402-1405 | for SCE-UA and LHS (sign +1) both selections agree |
| `BestTrial.AsWrittenIsWorstUnderDds` | Spotpy_InVEST.py:1402-1405 | under DDS (sign −1) the selection as written has the largest actual error of all trials |
| `BestTrial.AsWrittenCounterexample` | Spotpy_InVEST.py:1402-1405 | two DDS trials with errors 1 and 2: as written picks the second, corrected picks the first |
| `BestTrial.DividedBy` | Spotpy_InVEST.py:1399 | a series divided entry-wise by the scale |
| `BestTrial.Selection` | Spotpy_InVEST.py:1392-1405 | what a plot shows: the best trial, trial 0's observations and the best trial's simulation |
| `BestTrial.SelectionFor` | Spotpy_InVEST.py:1388-1399 | for a given best trial: fails on ragged logs, else that trial, trial 0's observations and that trial's simulation, each divided by the scale |
| `BestTrial.PlotSelection` | Spotpy_InVEST.py:1381-1405 | as written, from the three logs: fails on no trials or ragged logs, else the selection as written (`BestAsWritten`), trial 0's observations and that trial's simulation, scaled |
| `BestTrial.PlotSelectionCorrected` | Spotpy_InVEST.py:1381-1405 | the same call with the intended selection (`BestSelected`): the first trial with the least sign-corrected metric |
| `BestTrial.PlotSelectionsAgreeWithoutSign` | Spotpy_InVEST.py:1402-1405 | for SCE-UA and LHS (sign +1) both plots show the same trial, observations and simulation |
| `BestTrial.PlotSelectionCounterexample` | Spotpy_InVEST.py:1381-1405 | seasonal model under DDS, trials with errors 1 and 2, one gauge: as written the plot shows trial 1, error 2, simulation [2]; corrected, trial 0, error 1, simulation [1] |

## Left out

- The InVEST engine runs (`awy.execute`, `swy.execute`, `sdr.execute`, `ndr.execute`) and the reading of their output tables. The engine is a function parameter returning watershed ids and values.
- `calculate_zonal_stats`, `zonal_stats_1` and `bbox_to_pixel_offsets`: raster and vector I/O with floating-point pixel arithmetic. They are part of what the engine parameter produces.
- The spotpy samplers and the `RunCalInVEST` session loop over models. The sampler is not modelled; a trial takes the sampled vector as input.
- `Cal_FunObj` and the spotpy metrics (MSE, MAE, RMSE, RRMSE): floating-point numerics, modelled as a function parameter.
- Calibration.FactorMetric: for an optimizer name other than the three known ones the source leaves `FactorMetric` unassigned (a `NameError` later); the model returns `None`.
- Matplotlib plotting, the Excel write-back, `RunInVEST`, and the configuration sheets read with `pd.read_excel`. The configuration is a map parameter.
- `ismember` with `method='rows'` and `_settypes`: the calibration never uses the row-wise variant, and `_settypes` only converts pandas and list inputs to arrays.
- IEEE floating point: values are exact reals and `round` is exact decimal round-half-even. The `'%0.Nf'` writes are modelled as rounding to N decimals, and the text layout of CSV lines is not modelled (a line is a header or a row of values).
- Numeric.Round: states the decimals and the half-unit bound, and the tie rule through `Numeric.RoundHalfEvenInt`. It does not state the IEEE result of `round` on binary floats.
- Unknown `StatusK` strings and the `StatusK='SDR'` default: `StatusK` is one of the five model names.
- BioTable.FactorBioTable: the `Status_*` switches are taken as numbers. The configuration lookup of them, and a missing switch, are not modelled.
- BioTable.FactorBioTable, BioTable.Update: the chained assignments `Table[col].loc[mask] = Values.loc[mask]` (Spotpy_InVEST.py:266, 279, 291, 298, 308, 318, 329, 339) are modelled as updating `Table` in place, which is what pandas does with copy-on-write off (the default before pandas 3.0). Under copy-on-write those writes reach only a temporary copy: the masked adjustments of `Kc`, `Kc_1..Kc_12`, `usle_c` and `usle_p` are lost, while the nutrient columns end the same because a whole-column assignment follows each masked one. The model does not capture that behaviour.
- The evaluation table's column lookup (`evaluation['AWY']`, ...): the observation ids and values are inputs of the trial.
- `np.loadtxt` returning a one-dimensional array when a log has a single data row: the model reads every log as a matrix of rows.
- InvestArgs.CreateArgs: on failure it states that the error names a missing or mistyped configuration row or a missing parameter. It does not state which one comes first in source order (the body follows the source order).
- Calibration.TrialEntries: the temporary biophysical table is kept as its path. Writing it with `Table.to_csv` is not modelled.
- `CreateFolder` and other filesystem effects other than the three logs.

## Findings

| source | as written | input that shows it | evidently intended | confidence | as-written member | corrected member |
|---|---|---|---|---|---|---|
| Spotpy_InVEST.py:1402-1405 | `id_min = np.argmin(Metric)` is taken over the stored metric, which is already multiplied by `FactorMetric`; under DDS (factor −1) that is the trial with the largest actual error | two DDS trials with errors 1 and 2 are logged as −1 and −2; the argmin picks the second, with error 2 | the trial with the least sign-corrected metric, the argmin of `FactorMetric * Metric` | not executed | `BestTrial.BestAsWritten` and `BestTrial.PlotSelection` (with `BestTrial.AsWrittenCounterexample`, `BestTrial.PlotSelectionCounterexample` and `BestTrial.AsWrittenIsWorstUnderDds`) | `BestTrial.BestSelected` and `BestTrial.PlotSelectionCorrected` |
