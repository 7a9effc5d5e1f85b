// The fixed-step driver (src/vscsim/api/simulation.py): loads the
// parameters, the scenario and the initial conditions, then calls run_step
// floor(t_end / dt) times and records time, states and algebraic variables
// after each call.

module ApiSimulation {
  import opened Common
  import Saturation
  import Simulation
  import Parameters
  import Scenario
  import InitialConditions

  type State = map<string, real>

  /** The returned dict {"time": ..., "x": ..., "y": ...}: x and y map each
      variable name to its history. */
  datatype Results = Results(time: seq<real>, x: map<string, seq<real>>, y: map<string, seq<real>>)

  const StateSet: set<string> := {"id", "iq", "Vdc"}
  const AlgebraicSet: set<string> := {"Idc", "P_ac", "Q_ac"}

  /** t after k increments of dt, starting from 0.0. */
  function Times(k: nat, dt: real): real
  {
    if k == 0 then 0.0 else Times(k - 1, dt) + dt
  }

  /** The pairs (x, y) the driver holds before the loop and after each of
      the first n calls of run_step; the first failing call is the error. */
  ghost function Trajectory(n: nat, dt: real, x0: State, y0: State, scenario: map<string, Value>,
                            params: map<string, real>, sqrt: Saturation.Sqrt): (r: Result<seq<(State, State)>>)
    requires Saturation.IsSqrt(sqrt)
    ensures r.Ok? ==> |r.value| == n + 1 && r.value[0] == (x0, y0)
  {
    if n == 0 then Ok([(x0, y0)])
    else
      var prev :- Trajectory(n - 1, dt, x0, y0, scenario, params, sqrt);
      var last := prev[n - 1];
      var next :- Simulation.StepOutcome(dt, last.0, last.1, scenario, params, sqrt);
      Ok(prev + [next])
  }

  /** One more call of run_step extends the trajectory by its result, or
      ends it with its error. */
  lemma TrajectoryNext(k: nat, dt: real, x0: State, y0: State, scenario: map<string, Value>,
                       params: map<string, real>, sqrt: Saturation.Sqrt, traj: seq<(State, State)>)
    requires Saturation.IsSqrt(sqrt)
    requires Trajectory(k, dt, x0, y0, scenario, params, sqrt) == Ok(traj)
    ensures var step := Simulation.StepOutcome(dt, traj[k].0, traj[k].1, scenario, params, sqrt);
            Trajectory(k + 1, dt, x0, y0, scenario, params, sqrt)
              == if step.Ok? then Ok(traj + [step.value]) else Err(step.error)
  {
  }

  /** Once a call of run_step fails, every longer run fails with that error. */
  lemma {:induction false} FailurePersists(k: nat, m: nat, dt: real, x0: State, y0: State, scenario: map<string, Value>,
                                           params: map<string, real>, sqrt: Saturation.Sqrt)
    requires Saturation.IsSqrt(sqrt)
    requires k <= m && Trajectory(k, dt, x0, y0, scenario, params, sqrt).Err?
    ensures Trajectory(m, dt, x0, y0, scenario, params, sqrt) == Trajectory(k, dt, x0, y0, scenario, params, sqrt)
    decreases m - k
  {
    if k < m {
      FailurePersists(k, m - 1, dt, x0, y0, scenario, params, sqrt);
    }
  }

  /** y with every algebraic variable it lacks set to 0.0. */
  function WithAlgebraicDefaults(y: State): (r: State)
    ensures r.Keys == y.Keys + AlgebraicSet
    ensures forall k :: k in y ==> r[k] == y[k]
    ensures forall k :: k in AlgebraicSet && k !in y ==> r[k] == 0.0
  {
    map k | k in y.Keys + AlgebraicSet :: if k in y then y[k] else 0.0
  }

  /** The loop that fills the missing algebraic variables. */
  method FillAlgebraic(y0: State) returns (y: State)
    ensures y == WithAlgebraicDefaults(y0)
  {
    y := y0;
    for i := 0 to |AlgebraicKeys|
      invariant y.Keys == y0.Keys + set j | 0 <= j < i :: AlgebraicKeys[j]
      invariant forall k :: k in y0 ==> y[k] == y0[k]
      invariant forall k :: k in y && k !in y0 ==> y[k] == 0.0
    {
      var name := AlgebraicKeys[i];
      if name !in y {
        y := y[name := 0.0];
      }
    }
    assert (set j | 0 <= j < |AlgebraicKeys| :: AlgebraicKeys[j]) == AlgebraicSet by {
      assert AlgebraicKeys[0] == "Idc" && AlgebraicKeys[1] == "P_ac" && AlgebraicKeys[2] == "Q_ac";
    }
  }

  /** hist with the value of s appended to each of its histories. */
  function Record(hist: map<string, seq<real>>, s: State): (r: map<string, seq<real>>)
    requires hist.Keys <= s.Keys
    ensures r.Keys == hist.Keys
    ensures forall k :: k in hist ==> r[k] == hist[k] + [s[k]]
  {
    map k | k in hist :: hist[k] + [s[k]]
  }

  /** hist holds, for each of its keys, the values of that key along the
      states of states (which(p) picks x or y from a pair). */
  ghost predicate Recorded(hist: map<string, seq<real>>, states: seq<State>)
  {
    forall k :: k in hist ==>
      |hist[k]| == |states| && forall i :: 0 <= i < |states| ==> k in states[i] && hist[k][i] == states[i][k]
  }

  function Xs(traj: seq<(State, State)>): (r: seq<State>)
    ensures |r| == |traj| && forall i :: 0 <= i < |traj| ==> r[i] == traj[i].0
  {
    seq(|traj|, i requires 0 <= i < |traj| => traj[i].0)
  }

  function Ys(traj: seq<(State, State)>): (r: seq<State>)
    ensures |r| == |traj| && forall i :: 0 <= i < |traj| ==> r[i] == traj[i].1
  {
    seq(|traj|, i requires 0 <= i < |traj| => traj[i].1)
  }

  /** Appending one state to the states and to each history keeps them in step. */
  lemma RecordStep(hist: map<string, seq<real>>, states: seq<State>, s: State)
    requires hist.Keys <= s.Keys && Recorded(hist, states)
    ensures Recorded(Record(hist, s), states + [s])
  {
  }

  /** The driver's variables between two iterations of the time loop. */
  datatype Loop = Loop(t: real, x: State, y: State, times: seq<real>, xHist: map<string, seq<real>>,
                       yHist: map<string, seq<real>>)

  /** After k iterations the variables hold the k-th pair of traj and the
      histories of all pairs so far. */
  ghost predicate Tracks(l: Loop, k: nat, dt: real, traj: seq<(State, State)>)
  {
    && |traj| == k + 1 && traj[k] == (l.x, l.y)
    && l.x.Keys == StateSet && AlgebraicSet <= l.y.Keys
    && l.t == Times(k, dt)
    && |l.times| == k + 1 && (forall i :: 0 <= i <= k ==> l.times[i] == Times(i, dt))
    && l.xHist.Keys == StateSet && l.yHist.Keys == AlgebraicSet
    && Recorded(l.xHist, Xs(traj)) && Recorded(l.yHist, Ys(traj))
  }

  /** The variables before the loop: t = 0 and one entry per history. */
  method Start(x: State, y: State, ghost dt: real) returns (l: Loop)
    requires x.Keys == StateSet && AlgebraicSet <= y.Keys
    ensures Tracks(l, 0, dt, [(x, y)])
  {
    var t := 0.0;
    var times := [t];
    var xHist := map["id" := [x["id"]], "iq" := [x["iq"]], "Vdc" := [x["Vdc"]]];
    var yHist := map["Idc" := [y["Idc"]], "P_ac" := [y["P_ac"]], "Q_ac" := [y["Q_ac"]]];
    assert Xs([(x, y)]) == [x] && Ys([(x, y)]) == [y];
    l := Loop(t, x, y, times, xHist, yHist);
  }

  /** Appending the next pair keeps the variables in step with the trajectory. */
  lemma TracksStep(l: Loop, k: nat, dt: real, traj: seq<(State, State)>, x: State, y: State)
    requires Tracks(l, k, dt, traj)
    requires x.Keys == l.x.Keys && y.Keys == l.y.Keys
    ensures Tracks(Loop(l.t + dt, x, y, l.times + [l.t + dt], Record(l.xHist, x), Record(l.yHist, y)),
                   k + 1, dt, traj + [(x, y)])
  {
    TimesStep(l.times, k, dt, l.t);
    HistoriesStep(l.xHist, l.yHist, traj, x, y);
  }

  /** The clock and the list of times advance together. */
  lemma TimesStep(times: seq<real>, k: nat, dt: real, t: real)
    requires t == Times(k, dt)
    requires |times| == k + 1 && forall i :: 0 <= i <= k ==> times[i] == Times(i, dt)
    ensures t + dt == Times(k + 1, dt)
    ensures forall i :: 0 <= i <= k + 1 ==> (times + [t + dt])[i] == Times(i, dt)
  {
  }

  /** Both histories take the values of the appended pair. */
  lemma HistoriesStep(xHist: map<string, seq<real>>, yHist: map<string, seq<real>>,
                      traj: seq<(State, State)>, x: State, y: State)
    requires xHist.Keys <= x.Keys && yHist.Keys <= y.Keys
    requires Recorded(xHist, Xs(traj)) && Recorded(yHist, Ys(traj))
    ensures Recorded(Record(xHist, x), Xs(traj + [(x, y)]))
    ensures Recorded(Record(yHist, y), Ys(traj + [(x, y)]))
  {
    RecordStep(xHist, Xs(traj), x);
    RecordStep(yHist, Ys(traj), y);
    assert Xs(traj + [(x, y)]) == Xs(traj) + [x];
    assert Ys(traj + [(x, y)]) == Ys(traj) + [y];
  }

  /** A successful run_step returns maps with the keys it was given. */
  lemma StepKeys(dt: real, x: State, y: State, scenario: map<string, Value>, params: map<string, real>,
                 sqrt: Saturation.Sqrt)
    requires Saturation.IsSqrt(sqrt)
    requires Simulation.StepOutcome(dt, x, y, scenario, params, sqrt).Ok?
    ensures var next := Simulation.StepOutcome(dt, x, y, scenario, params, sqrt).value;
            next.0.Keys == x.Keys && next.1.Keys == y.Keys
  {
    Simulation.StepConsistent(dt, x, y, scenario, params, sqrt);
  }

  /** What the driver returns after n iterations. */
  ghost predicate Reports(res: Results, n: nat, dt: real, traj: seq<(State, State)>)
  {
    && |res.time| == n + 1
    && (forall k :: 0 <= k <= n ==> res.time[k] == Times(k, dt))
    && res.x.Keys == StateSet && res.y.Keys == AlgebraicSet
    && Recorded(res.x, Xs(traj)) && Recorded(res.y, Ys(traj))
  }

  /** The shape of the returned dict: n + 1 times 0, dt, 2 dt, ..., and a
      history of n + 1 values for each state and each algebraic variable. */
  predicate Shaped(res: Results, n: nat, dt: real)
  {
    && |res.time| == n + 1
    && (forall k :: 0 <= k <= n ==> res.time[k] == Times(k, dt))
    && res.x.Keys == StateSet && res.y.Keys == AlgebraicSet
    && (forall v :: v in res.x ==> |res.x[v]| == n + 1)
    && (forall v :: v in res.y ==> |res.y[v]| == n + 1)
  }

  lemma ReportsShaped(res: Results, n: nat, dt: real, traj: seq<(State, State)>)
    requires |traj| == n + 1 && Reports(res, n, dt, traj)
    ensures Shaped(res, n, dt)
  {
  }

  lemma TracksReports(l: Loop, n: nat, dt: real, traj: seq<(State, State)>)
    requires Tracks(l, n, dt, traj)
    ensures Reports(Results(l.times, l.xHist, l.yHist), n, dt, traj)
  {
  }

  /** One iteration: run_step, t += dt, and one value appended to each history. */
  method Iterate(l: Loop, ghost k: nat, dt: real, scenario: map<string, Value>, params: map<string, real>,
                 sqrt: Saturation.Sqrt, ghost traj: seq<(State, State)>) returns (r: Result<Loop>)
    requires Saturation.IsSqrt(sqrt) && Tracks(l, k, dt, traj)
    ensures var step := Simulation.StepOutcome(dt, l.x, l.y, scenario, params, sqrt);
            && (r.Ok? <==> step.Ok?)
            && (r.Err? ==> r.error == step.error)
            && (r.Ok? ==> Tracks(r.value, k + 1, dt, traj + [step.value]))
  {
    var step := Simulation.RunStep(dt, l.x, l.y, scenario, params, sqrt);
    if step.Err? {
      return Err(step.error);
    }
    StepKeys(dt, l.x, l.y, scenario, params, sqrt);
    var (x, y) := step.value;
    var t := l.t + dt;
    r := Ok(Loop(t, x, y, l.times + [t], Record(l.xHist, x), Record(l.yHist, y)));
    TracksStep(l, k, dt, traj, x, y);
  }

  /** The time loop, from the loaded states to the returned histories: the
      result is the recorded trajectory of floor(t_end / dt) steps, or the
      error of its first failing step. */
  method Simulate(x0: State, y0: State, scenario: map<string, Value>, params: map<string, real>,
                  tEnd: real, dt: real, sqrt: Saturation.Sqrt) returns (r: Result<Results>)
    requires Saturation.IsSqrt(sqrt)
    requires dt > 0.0 && tEnd >= 0.0
    requires x0.Keys == StateSet
    ensures var n := (tEnd / dt).Floor;
            var traj := Trajectory(n, dt, x0, WithAlgebraicDefaults(y0), scenario, params, sqrt);
            && n >= 0
            && (r.Ok? <==> traj.Ok?)
            && (r.Err? ==> r.error == traj.error)
            && (r.Ok? ==> Reports(r.value, n, dt, traj.value))
  {
    NonNegativeSteps(tEnd, dt);
    var y := FillAlgebraic(y0);
    var l := Start(x0, y, dt);
    if tEnd == 0.0 {
      assert (tEnd / dt).Floor == 0;
      assert Trajectory(0, dt, x0, y, scenario, params, sqrt) == Ok([(x0, y)]);
      TracksReports(l, 0, dt, [(x0, y)]);
      return Ok(Results(l.times, l.xHist, l.yHist));
    }
    var n := (tEnd / dt).Floor;
    r := TimeLoop(l, n, dt, x0, y, scenario, params, sqrt);
  }

  /** for _ in range(n_steps): the recorded trajectory of n calls of
      run_step, or the error of the first failing call. */
  method TimeLoop(l0: Loop, n: nat, dt: real, x0: State, y0: State, scenario: map<string, Value>,
                  params: map<string, real>, sqrt: Saturation.Sqrt) returns (r: Result<Results>)
    requires Saturation.IsSqrt(sqrt)
    requires Tracks(l0, 0, dt, [(x0, y0)])
    ensures var traj := Trajectory(n, dt, x0, y0, scenario, params, sqrt);
            && (r.Ok? <==> traj.Ok?)
            && (r.Err? ==> r.error == traj.error)
            && (r.Ok? ==> Reports(r.value, n, dt, traj.value))
  {
    var l := l0;
    ghost var traj: seq<(State, State)> := [(x0, y0)];
    for k := 0 to n
      invariant Trajectory(k, dt, x0, y0, scenario, params, sqrt) == Ok(traj)
      invariant Tracks(l, k, dt, traj)
    {
      var next := Iterate(l, k, dt, scenario, params, sqrt, traj);
      TrajectoryNext(k, dt, x0, y0, scenario, params, sqrt, traj);
      if next.Err? {
        FailurePersists(k + 1, n, dt, x0, y0, scenario, params, sqrt);
        return Err(next.error);
      }
      traj := traj + [Simulation.StepOutcome(dt, l.x, l.y, scenario, params, sqrt).value];
      l := next.value;
    }
    TracksReports(l, n, dt, traj);
    return Ok(Results(l.times, l.xHist, l.yHist));
  }

  /** floor(t_end / dt) is a step count. */
  lemma NonNegativeSteps(tEnd: real, dt: real)
    requires dt > 0.0 && tEnd >= 0.0
    ensures (tEnd / dt).Floor >= 0
  {
    assert tEnd / dt >= 0.0;
  }

  /** Every loader accepts its configuration: the parameters, the scenario,
      and the scenario's "initial_conditions" entry (a dict, or absent). */
  predicate InputsLoad(paramsConfig: Dict<Value>, scenarioConfig: Dict<Value>)
  {
    var ic := InitialConditions.Group(scenarioConfig, "initial_conditions");
    && Parameters.AllRequired(paramsConfig) && Parameters.AllFloat(paramsConfig)
    && Scenario.ScenarioError(scenarioConfig).None?
    && ic.VDict?
    && InitialConditions.AllLoad(ic.entries, InitialConditions.Group(ic.entries, "x0"), StateKeys)
    && InitialConditions.AllLoad(ic.entries, InitialConditions.Group(ic.entries, "y0"), AlgebraicKeys)
  }

  /** What the three loaders return. */
  datatype Inputs = Inputs(params: map<string, real>, scenario: map<string, Value>, ic: InitialConditions.Initial)

  /** What the three loaders return for configurations they all accept. */
  function LoadedInputs(paramsConfig: Dict<Value>, scenarioConfig: Dict<Value>): Inputs
    requires Unique(paramsConfig) && InputsLoad(paramsConfig, scenarioConfig)
  {
    var ic := InitialConditions.Group(scenarioConfig, "initial_conditions").entries;
    Inputs(Parameters.LoadedParams(paramsConfig), Scenario.LoadedScenario(scenarioConfig),
           InitialConditions.Initial(InitialConditions.LoadedGroup(ic, InitialConditions.Group(ic, "x0"), StateKeys),
                                     InitialConditions.LoadedGroup(ic, InitialConditions.Group(ic, "y0"), AlgebraicKeys)))
  }

  /** e is the error of the first loader that raises, checked in order: the
      parameters (a missing required one, then the first value float()
      rejects, required parameters before the other entries), the
      scenario, a non-dict "initial_conditions" entry (AttributeError on its
      .get), then the first initial value that does not convert. */
  ghost predicate LoadFails(paramsConfig: Dict<Value>, scenarioConfig: Dict<Value>, e: Error)
  {
    var ic := InitialConditions.Group(scenarioConfig, "initial_conditions");
    if !Parameters.AllRequired(paramsConfig) then e == ValueError
    else if !Parameters.AllFloat(paramsConfig) then Parameters.FirstFloatError(paramsConfig) == Some(e)
    else if Scenario.ScenarioError(scenarioConfig).Some? then e == Scenario.ScenarioError(scenarioConfig).value
    else if !ic.VDict? then e == AttributeError
    else if InitialConditions.AllLoad(ic.entries, InitialConditions.Group(ic.entries, "x0"), StateKeys)
    then InitialConditions.FirstFailure(ic.entries, InitialConditions.Group(ic.entries, "y0"), AlgebraicKeys, e)
    else InitialConditions.FirstFailure(ic.entries, InitialConditions.Group(ic.entries, "x0"), StateKeys, e)
  }

  /** The three loader calls of run_simulation, in order; the first that
      raises decides the error. */
  method LoadInputs(paramsConfig: Dict<Value>, scenarioConfig: Dict<Value>) returns (r: Result<Inputs>)
    requires Unique(paramsConfig) && Unique(scenarioConfig)
    ensures r.Ok? <==> InputsLoad(paramsConfig, scenarioConfig)
    ensures r.Ok? ==> r.value == LoadedInputs(paramsConfig, scenarioConfig) && r.value.ic.x0.Keys == StateSet
    ensures r.Err? ==> LoadFails(paramsConfig, scenarioConfig, r.error)
  {
    var params :- Parameters.LoadParameters(paramsConfig);
    var scenario :- Scenario.LoadScenario(scenarioConfig);
    var icValue: Value := InitialConditions.Group(scenarioConfig, "initial_conditions");
    if !icValue.VDict? {
      return Err(AttributeError);
    }
    var icConfig := icValue.entries;
    var ic :- InitialConditions.LoadInitialConditions(icConfig);
    InitialConditions.LoadedKeys(icConfig, ic.x0, ic.y0);
    return Ok(Inputs(params, scenario, ic));
  }

  /** What run_simulation(params_config, scenario_config, t_end, dt) does:
      ValueError for dt <= 0 or t_end < 0 before anything is loaded; then
      the first loader error; then, from the loaded inputs, the recorded
      trajectory of floor(t_end / dt) calls of run_step or the error of the
      first failing call. */
  ghost predicate RunOutcome(paramsConfig: Dict<Value>, scenarioConfig: Dict<Value>, tEnd: real, dt: real,
                             sqrt: Saturation.Sqrt, r: Result<Results>)
    requires Saturation.IsSqrt(sqrt) && Unique(paramsConfig)
  {
    if dt <= 0.0 || tEnd < 0.0 then r == Err(ValueError)
    else if !InputsLoad(paramsConfig, scenarioConfig) then r.Err? && LoadFails(paramsConfig, scenarioConfig, r.error)
    else
      var inputs := LoadedInputs(paramsConfig, scenarioConfig);
      var n := (tEnd / dt).Floor;
      var traj := Trajectory(n, dt, inputs.ic.x0, WithAlgebraicDefaults(inputs.ic.y0), inputs.scenario, inputs.params, sqrt);
      && n >= 0
      && (r.Ok? <==> traj.Ok?)
      && (r.Err? ==> r.error == traj.error)
      && (r.Ok? ==> Reports(r.value, n, dt, traj.value))
  }

  /** run_simulation(params_config, scenario_config, t_end, dt): the
      argument checks, the three loaders, the initial conditions coming from
      the scenario's "initial_conditions" entry, then the time loop. */
  method RunSimulation(paramsConfig: Dict<Value>, scenarioConfig: Dict<Value>, tEnd: real, dt: real,
                       sqrt: Saturation.Sqrt) returns (r: Result<Results>)
    requires Saturation.IsSqrt(sqrt)
    requires Unique(paramsConfig) && Unique(scenarioConfig)
    ensures RunOutcome(paramsConfig, scenarioConfig, tEnd, dt, sqrt, r)
  {
    if dt <= 0.0 {
      return Err(ValueError);
    }
    if tEnd < 0.0 {
      return Err(ValueError);
    }
    var inputs :- LoadInputs(paramsConfig, scenarioConfig);
    r := Simulate(inputs.ic.x0, inputs.ic.y0, inputs.scenario, inputs.params, tEnd, dt, sqrt);
  }

  /** The dict of a run with t_end = 0: the time 0.0 and one value per
      variable, the loaded initial state and the filled algebraic variables. */
  function InitialReport(x0: State, y0: State): (res: Results)
    requires StateSet <= x0.Keys
  {
    var y := WithAlgebraicDefaults(y0);
    Results([0.0], map v | v in StateSet :: [x0[v]], map v | v in AlgebraicSet :: [y[v]])
  }

  /** With t_end = 0 there is no step: the dict holds only the initial state. */
  lemma ReportsAtZero(res: Results, dt: real, x0: State, y0: State)
    requires x0.Keys == StateSet
    requires Reports(res, 0, dt, [(x0, WithAlgebraicDefaults(y0))])
    ensures res == InitialReport(x0, y0)
  {
    var traj := [(x0, WithAlgebraicDefaults(y0))];
    var expected := InitialReport(x0, y0);
    assert res.time == [0.0];
    forall v | v in res.x ensures res.x[v] == expected.x[v] {
      assert Xs(traj)[0] == x0;
    }
    forall v | v in res.y ensures res.y[v] == expected.y[v] {
      assert Ys(traj)[0] == WithAlgebraicDefaults(y0);
    }
  }

  /** The loaded x0 carries exactly the three state keys. */
  lemma LoadedStateKeys(paramsConfig: Dict<Value>, scenarioConfig: Dict<Value>)
    requires Unique(paramsConfig) && InputsLoad(paramsConfig, scenarioConfig)
    ensures LoadedInputs(paramsConfig, scenarioConfig).ic.x0.Keys == StateSet
  {
    assert StateKeys[0] == "id" && StateKeys[1] == "iq" && StateKeys[2] == "Vdc";
  }

  /** A run with t_end = 0 and inputs that load makes no step and returns
      only the initial state. */
  lemma RunAtZero(paramsConfig: Dict<Value>, scenarioConfig: Dict<Value>, dt: real,
                  sqrt: Saturation.Sqrt, r: Result<Results>)
    requires Saturation.IsSqrt(sqrt) && Unique(paramsConfig)
    requires dt > 0.0 && InputsLoad(paramsConfig, scenarioConfig)
    requires RunOutcome(paramsConfig, scenarioConfig, 0.0, dt, sqrt, r)
    ensures LoadedInputs(paramsConfig, scenarioConfig).ic.x0.Keys == StateSet
    ensures r == Ok(InitialReport(LoadedInputs(paramsConfig, scenarioConfig).ic.x0,
                                  LoadedInputs(paramsConfig, scenarioConfig).ic.y0))
  {
    var inputs := LoadedInputs(paramsConfig, scenarioConfig);
    LoadedStateKeys(paramsConfig, scenarioConfig);
    assert (0.0 / dt).Floor == 0;
    ReportsAtZero(r.value, dt, inputs.ic.x0, inputs.ic.y0);
  }

  /** A successful run had valid arguments and loadable inputs, and its dict
      has the shape of floor(t_end / dt) steps. */
  lemma RunShaped(paramsConfig: Dict<Value>, scenarioConfig: Dict<Value>, tEnd: real, dt: real,
                  sqrt: Saturation.Sqrt, r: Result<Results>)
    requires Saturation.IsSqrt(sqrt) && Unique(paramsConfig)
    requires RunOutcome(paramsConfig, scenarioConfig, tEnd, dt, sqrt, r) && r.Ok?
    ensures dt > 0.0 && tEnd >= 0.0 && InputsLoad(paramsConfig, scenarioConfig)
    ensures (tEnd / dt).Floor >= 0 && Shaped(r.value, (tEnd / dt).Floor, dt)
  {
    var inputs := LoadedInputs(paramsConfig, scenarioConfig);
    var n := (tEnd / dt).Floor;
    ReportsShaped(r.value, n, dt, Trajectory(n, dt, inputs.ic.x0, WithAlgebraicDefaults(inputs.ic.y0),
                                             inputs.scenario, inputs.params, sqrt).value);
  }

  /** The time after k steps is k * dt. */
  lemma {:induction false} TimesIsProduct(k: nat, dt: real)
    ensures Times(k, dt) == (k as real) * dt
  {
    if k > 0 {
      TimesIsProduct(k - 1, dt);
      calc {
        Times(k, dt);
        ==
        Times(k - 1, dt) + dt;
        ==
        ((k - 1) as real) * dt + dt;
        ==
        (k as real) * dt;
      }
    }
  }

  /** The last recorded time, n_steps * dt, never passes t_end. */
  lemma LastTimeWithinEnd(tEnd: real, dt: real)
    requires dt > 0.0 && tEnd >= 0.0
    ensures (tEnd / dt).Floor >= 0
    ensures Times((tEnd / dt).Floor, dt) <= tEnd
  {
    NonNegativeSteps(tEnd, dt);
    var n := (tEnd / dt).Floor;
    TimesIsProduct(n, dt);
    FloorTimes(tEnd / dt, dt, n);
    assert tEnd / dt * dt == tEnd;
  }

  /** floor(q) * dt <= q * dt for a positive dt. */
  lemma FloorTimes(q: real, dt: real, n: int)
    requires dt > 0.0 && n == q.Floor
    ensures (n as real) * dt <= q * dt
  {
    assert n as real <= q;
  }
}
