// Selection of an integration scheme by name
// (src/vscsim/solver/integrator_factory.py).  An integrator instance is
// modelled by the scheme it runs; its step is the matching method of
// IntegratorRk.

module IntegratorFactory {
  import opened Common
  import opened IntegratorRk

  /** The three integrator classes RK1Integrator, RK2Integrator, RK4Integrator. */
  datatype Scheme = Rk1Scheme | Rk2Scheme | Rk4Scheme

  /** The names get_integrator accepts ("euler" is an alias of "rk1"). */
  predicate KnownName(name: string)
  {
    name == "rk1" || name == "euler" || name == "rk2" || name == "rk4"
  }

  /** get_integrator(name, config): the scheme for a known name, ValueError
      for any other; the reserved config argument is never consulted. */
  function GetIntegrator(name: string, config: Option<Value>): (r: Result<Scheme>)
    ensures r.Ok? <==> KnownName(name)
    ensures r.Err? ==> r.error == ValueError
    ensures r == Ok(Rk1Scheme) <==> name == "rk1" || name == "euler"
    ensures r == Ok(Rk2Scheme) <==> name == "rk2"
    ensures r == Ok(Rk4Scheme) <==> name == "rk4"
  {
    if name == "rk1" || name == "euler" then Ok(Rk1Scheme)
    else if name == "rk2" then Ok(Rk2Scheme)
    else if name == "rk4" then Ok(Rk4Scheme)
    else Err(ValueError)
  }

  /** The canonical name of each scheme. */
  function Name(s: Scheme): (name: string)
    ensures KnownName(name)
  {
    match s
    case Rk1Scheme => "rk1"
    case Rk2Scheme => "rk2"
    case Rk4Scheme => "rk4"
  }

  /** Looking a scheme up by its name gives it back, whatever the config. */
  lemma NameRoundTrip(s: Scheme, config: Option<Value>)
    ensures GetIntegrator(Name(s), config) == Ok(s)
  {
    match s
    case Rk1Scheme =>
    case Rk2Scheme =>
    case Rk4Scheme =>
  }

  /** The config argument has no effect on the result. */
  lemma ConfigIgnored(name: string, c1: Option<Value>, c2: Option<Value>)
    ensures GetIntegrator(name, c1) == GetIntegrator(name, c2)
  {
    var r1, r2 := GetIntegrator(name, c1), GetIntegrator(name, c2);
    if KnownName(name) {
      assert r1.Ok? && r2.Ok?;
    }
  }

  /** The step of the selected scheme, None when it raises KeyError. */
  function SchemeStep(s: Scheme, f: Rhs, state: map<string, real>, dt: real): Option<map<string, real>>
  {
    match s
    case Rk1Scheme => Rk1(f, state, dt)
    case Rk2Scheme => Rk2(f, state, dt)
    case Rk4Scheme => Rk4(f, state, dt)
  }

  /** integrator.step(f, state, context, dt) on the selected instance. */
  method Step(s: Scheme, f: Rhs, state: map<string, real>, dt: real) returns (r: Result<map<string, real>>)
    ensures r.Ok? <==> SchemeStep(s, f, state, dt).Some?
    ensures r.Ok? ==> r.value == SchemeStep(s, f, state, dt).value
    ensures r.Err? ==> r.error.KeyError? && r.error.key in state
  {
    ghost var evals;
    match s {
      case Rk1Scheme =>
        r, evals := Rk1Step(f, state, dt);
      case Rk2Scheme =>
        r, evals := Rk2Step(f, state, dt);
      case Rk4Scheme =>
        r, evals := Rk4Step(f, state, dt);
    }
  }

  /** "euler" and "rk1" select the same scheme, whose step is explicit
      Euler with x_dot = f(x). */
  lemma EulerAliasIsEuler(f: Rhs, state: map<string, real>, dt: real, config: Option<Value>)
    requires state.Keys <= f(state).Keys
    ensures GetIntegrator("euler", config) == GetIntegrator("rk1", config)
    ensures SchemeStep(GetIntegrator("euler", config).value, f, state, dt)
            == Some(Integrator.Euler(state, f(state), dt))
  {
    Rk1IsEuler(f, state, dt);
  }
}
