// The batch runner (src/vscsim/api/batch.py): one run_simulation call per
// case, each exception caught and turned into a failed result, the results
// kept in the order of the cases. Only the sequential branch is modelled.

module Batch {
  import opened Common
  import Saturation
  import ApiSimulation
  import Parameters
  import Scenario
  import InitialConditions

  /** BatchCase: the two configurations, the integrator name and the
      adaptive flag the case asks for, t_end and dt. */
  datatype BatchCase = BatchCase(id: string, paramsConfig: Dict<Value>, scenarioConfig: Dict<Value>,
                                 integrator: string, adaptive: bool, tEnd: real, dt: real)

  /** BatchResult: ok, the run's result when it completed, the exception
      when it raised (its class stands for str(e)). */
  datatype BatchResult = BatchResult(id: string, ok: bool, data: Option<ApiSimulation.Results>, error: Option<Error>)

  /** The keyword arguments run_simulation declares. */
  const RunSimulationKeywords: set<string> := {"params_config", "scenario_config", "t_end", "dt"}

  /** The keyword arguments _run_single_case passes. */
  const PassedKeywords: set<string> := {"params_config", "scenario_config", "t_end", "dt", "integrator", "adaptive"}

  /** Both configurations are well-formed dicts (no repeated key). */
  ghost predicate WellFormed(c: BatchCase)
  {
    Unique(c.paramsConfig) && Unique(c.scenarioConfig)
  }

  /** The failed result for an exception e. */
  function Failed(c: BatchCase, e: Error): (r: BatchResult)
    ensures r.id == c.id && !r.ok && r.data.None? && r.error == Some(e)
  {
    BatchResult(c.id, false, None, Some(e))
  }

  /** _run_single_case calling run_simulation with the given keyword
      arguments: Python binds them before run_simulation starts, and one
      that run_simulation does not declare raises TypeError, which the
      runner catches like any other exception. */
  method RunSingleCaseWith(c: BatchCase, keywords: set<string>, sqrt: Saturation.Sqrt) returns (r: BatchResult)
    requires Saturation.IsSqrt(sqrt) && WellFormed(c)
    ensures !(keywords <= RunSimulationKeywords) ==> r == Failed(c, TypeError)
    ensures keywords <= RunSimulationKeywords ==> Reported(c, r, sqrt)
  {
    if !(keywords <= RunSimulationKeywords) {
      return Failed(c, TypeError);
    }
    var res := ApiSimulation.RunSimulation(c.paramsConfig, c.scenarioConfig, c.tEnd, c.dt, sqrt);
    r := match res
      case Ok(data) => BatchResult(c.id, true, Some(data), None)
      case Err(e) => Failed(c, e);
  }

  /** _run_single_case as written: it passes integrator= and adaptive= as
      well, so every case fails with TypeError. */
  method RunSingleCaseAsWritten(c: BatchCase, sqrt: Saturation.Sqrt) returns (r: BatchResult)
    requires Saturation.IsSqrt(sqrt) && WellFormed(c)
    ensures r == Failed(c, TypeError)
  {
    assert "integrator" in PassedKeywords && "integrator" !in RunSimulationKeywords;
    r := RunSingleCaseWith(c, PassedKeywords, sqrt);
  }

  /** The seven required parameters, all numbers. */
  const NominalParams: Dict<Value> :=
    [("L", VNum(1.0)), ("R", VNum(1.0)), ("Cdc", VNum(1.0)), ("omega", VNum(1.0)),
     ("V_max", VNum(1.0)), ("Kp_id", VNum(1.0)), ("Kp_iq", VNum(1.0))]

  /** A PQ scenario with its references and no initial conditions. */
  const NominalScenario: Dict<Value> :=
    [("control_mode", VStr("PQ")), ("v_pcc_d", VNum(1.0)), ("v_pcc_q", VNum(0.0)),
     ("P_ref", VNum(0.5)), ("Q_ref", VNum(0.0))]

  /** A case the loaders accept, run to t_end = 0. */
  const LoadableCase: BatchCase := BatchCase("nominal", NominalParams, NominalScenario, "rk4", false, 0.0, 0.01)

  lemma NominalParamsLoad()
    ensures Unique(NominalParams)
    ensures Parameters.AllRequired(NominalParams) && Parameters.AllFloat(NominalParams)
  {
    var p := NominalParams;
    assert p[0].0 == "L" && p[1].0 == "R" && p[2].0 == "Cdc" && p[3].0 == "omega";
    assert p[4].0 == "V_max" && p[5].0 == "Kp_id" && p[6].0 == "Kp_iq";
  }

  lemma NominalScenarioUnique()
    ensures Unique(NominalScenario)
  {
  }

  lemma NominalScenarioCommon()
    ensures Scenario.HasCommon(NominalScenario)
    ensures Scenario.PairError(NominalScenario, Scenario.PccKeys).None?
    ensures Scenario.ModeOf(NominalScenario) == Some("PQ")
  {
    var sc := NominalScenario;
    NominalScenarioUnique();
    GetAt(sc, 0);
    GetAt(sc, 1);
    GetAt(sc, 2);
  }

  lemma NominalScenarioReferences()
    ensures Scenario.HasPair(NominalScenario, Scenario.PqKeys)
    ensures Scenario.PairError(NominalScenario, Scenario.PqKeys).None?
  {
    var sc := NominalScenario;
    NominalScenarioUnique();
    GetAt(sc, 3);
    GetAt(sc, 4);
  }

  lemma NominalScenarioLoads()
    ensures Scenario.ScenarioError(NominalScenario).None?
  {
    NominalScenarioCommon();
    NominalScenarioReferences();
    assert Scenario.ModeKeys(Scenario.ModeOf(NominalScenario)) == Some(Scenario.PqKeys);
  }

  lemma NominalScenarioNoInitialConditions()
    ensures InitialConditions.Group(NominalScenario, "initial_conditions") == VDict([])
  {
    var sc := NominalScenario;
    forall i | 0 <= i < |sc|
      ensures sc[i].0 != "initial_conditions"
    {
      assert |sc[i].0| < |"initial_conditions"|;
    }
  }

  lemma EmptyInitialConditionsLoad()
    ensures InitialConditions.AllLoad([], InitialConditions.Group([], "x0"), StateKeys)
    ensures InitialConditions.AllLoad([], InitialConditions.Group([], "y0"), AlgebraicKeys)
  {
  }

  /** The discrepancy: the keywords are rejected, while every loader accepts
      LoadableCase and its t_end is 0, so the corrected runner succeeds on
      it (RunSingleCase's contract with ReportedAtZero) and the as-written
      one fails. */
  lemma AsWrittenRejectsLoadableCase()
    ensures !(PassedKeywords <= RunSimulationKeywords)
    ensures WellFormed(LoadableCase)
    ensures LoadableCase.dt > 0.0 && LoadableCase.tEnd == 0.0
    ensures ApiSimulation.InputsLoad(LoadableCase.paramsConfig, LoadableCase.scenarioConfig)
  {
    assert "integrator" in PassedKeywords && "integrator" !in RunSimulationKeywords;
    NominalParamsLoad();
    NominalScenarioUnique();
    NominalScenarioLoads();
    NominalScenarioNoInitialConditions();
    EmptyInitialConditionsLoad();
  }

  /** What _run_single_case reports for a case: the case's id; ok exactly
      when there is data and no error; and the data or the exception are
      what run_simulation returns or raises for the case. */
  ghost predicate Reported(c: BatchCase, r: BatchResult, sqrt: Saturation.Sqrt)
    requires Saturation.IsSqrt(sqrt) && WellFormed(c)
  {
    && r.id == c.id
    && (r.ok <==> r.data.Some?) && (r.ok <==> r.error.None?)
    && (r.ok ==> ApiSimulation.RunOutcome(c.paramsConfig, c.scenarioConfig, c.tEnd, c.dt, sqrt, Ok(r.data.value)))
    && (!r.ok ==> ApiSimulation.RunOutcome(c.paramsConfig, c.scenarioConfig, c.tEnd, c.dt, sqrt, Err(r.error.value)))
  }

  /** A case whose configurations load, run to t_end = 0, is reported ok
      with the initial state as its data. */
  lemma ReportedAtZero(c: BatchCase, r: BatchResult, sqrt: Saturation.Sqrt)
    requires Saturation.IsSqrt(sqrt) && WellFormed(c) && Reported(c, r, sqrt)
    requires c.dt > 0.0 && c.tEnd == 0.0 && ApiSimulation.InputsLoad(c.paramsConfig, c.scenarioConfig)
    ensures var inputs := ApiSimulation.LoadedInputs(c.paramsConfig, c.scenarioConfig);
            && inputs.ic.x0.Keys == ApiSimulation.StateSet
            && r.ok && r.data == Some(ApiSimulation.InitialReport(inputs.ic.x0, inputs.ic.y0))
  {
    if r.ok {
      ApiSimulation.RunAtZero(c.paramsConfig, c.scenarioConfig, c.dt, sqrt, Ok(r.data.value));
    } else {
      assert false;
    }
  }

  /** _run_single_case as intended: run_simulation with the two
      configurations, t_end and dt only; a result becomes ok=True with the
      data, an exception ok=False with the exception and no data. */
  method RunSingleCase(c: BatchCase, sqrt: Saturation.Sqrt) returns (r: BatchResult)
    requires Saturation.IsSqrt(sqrt) && WellFormed(c)
    ensures Reported(c, r, sqrt)
  {
    r := RunSingleCaseWith(c, RunSimulationKeywords, sqrt);
  }

  /** The first |results| cases are reported by the results, in order. */
  ghost predicate AllReported(cases: seq<BatchCase>, results: seq<BatchResult>, sqrt: Saturation.Sqrt)
    requires Saturation.IsSqrt(sqrt) && |results| <= |cases|
    requires forall i :: 0 <= i < |cases| ==> WellFormed(cases[i])
  {
    forall i :: 0 <= i < |results| ==> Reported(cases[i], results[i], sqrt)
  }

  /** Appending the report of the next case keeps the results in order. */
  lemma AllReportedSnoc(cases: seq<BatchCase>, results: seq<BatchResult>, r: BatchResult, sqrt: Saturation.Sqrt)
    requires Saturation.IsSqrt(sqrt) && |results| < |cases|
    requires forall i :: 0 <= i < |cases| ==> WellFormed(cases[i])
    requires AllReported(cases, results, sqrt) && Reported(cases[|results|], r, sqrt)
    ensures AllReported(cases, results + [r], sqrt)
  {
    forall i | 0 <= i < |results| + 1 ensures Reported(cases[i], (results + [r])[i], sqrt) {
      if i < |results| {
        assert (results + [r])[i] == results[i];
      }
    }
  }

  /** run_batch(cases, parallel=False): one result per case, in the order of
      the cases, each the one _run_single_case reports. */
  method RunBatch(cases: seq<BatchCase>, sqrt: Saturation.Sqrt) returns (results: seq<BatchResult>)
    requires Saturation.IsSqrt(sqrt)
    requires forall i :: 0 <= i < |cases| ==> WellFormed(cases[i])
    ensures |results| == |cases|
    ensures forall i :: 0 <= i < |cases| ==> results[i].id == cases[i].id && Reported(cases[i], results[i], sqrt)
  {
    results := [];
    for i := 0 to |cases|
      invariant |results| == i
      invariant AllReported(cases, results, sqrt)
    {
      var r := RunSingleCase(cases[i], sqrt);
      AllReportedSnoc(cases, results, r, sqrt);
      results := results + [r];
    }
  }
}
