// The parameter loader (src/vscsim/io/parameters.py): checks that the seven
// parameters the model needs are present, then converts every entry of the
// configuration, required or extra, with float().

module Parameters {
  import opened Common

  /** _REQUIRED_PARAMS, in the order the loader checks and copies them. */
  const RequiredParams: seq<string> := ["L", "R", "Cdc", "omega", "V_max", "Kp_id", "Kp_iq"]

  /** Every required parameter is a key of the configuration. */
  predicate AllRequired(config: Dict<Value>)
  {
    forall i :: 0 <= i < |RequiredParams| ==> HasKey(config, RequiredParams[i])
  }

  /** Every value of the configuration converts with float(). */
  predicate AllFloat(config: Dict<Value>)
  {
    forall i :: 0 <= i < |config| ==> ToFloat(config[i].1).Ok?
  }

  /** The loaded dict holds exactly the keys in done, each with the float()
      of the configuration's value under that key. */
  ghost predicate Converted(config: Dict<Value>, params: map<string, real>, done: set<string>)
  {
    params.Keys == done
    && forall k :: k in done ==> HasKey(config, k) && ToFloat(Get(config, k).value) == Ok(params[k])
  }

  /** float() of the value of the m-th required parameter. */
  function RequiredValue(config: Dict<Value>, m: nat): Result<real>
    requires AllRequired(config) && m < |RequiredParams|
  {
    ToFloat(Get(config, RequiredParams[m]).value)
  }

  /** The float() error of the first required parameter, from position j
      of _REQUIRED_PARAMS on, whose value does not convert; None when all
      of them convert. */
  function RequiredErrorFrom(config: Dict<Value>, j: nat): Option<Error>
    requires AllRequired(config) && j <= |RequiredParams|
    decreases |RequiredParams| - j
  {
    if j == |RequiredParams| then None
    else match RequiredValue(config, j)
      case Err(e) => Some(e)
      case Ok(_) => RequiredErrorFrom(config, j + 1)
  }

  /** The float() error of the first entry, from position i of the
      configuration on, that is not a required parameter and whose value
      does not convert; None when all of them convert. */
  function ExtraErrorFrom(config: Dict<Value>, i: nat): Option<Error>
    requires i <= |config|
    decreases |config| - i
  {
    if i == |config| then None
    else if config[i].0 in RequiredParams then ExtraErrorFrom(config, i + 1)
    else match ToFloat(config[i].1)
      case Err(e) => Some(e)
      case Ok(_) => ExtraErrorFrom(config, i + 1)
  }

  /** The error the two copy loops raise: the first required parameter, in
      _REQUIRED_PARAMS order, that does not convert, else the first other
      entry, in configuration order, that does not convert. */
  function FirstFloatError(config: Dict<Value>): Option<Error>
    requires AllRequired(config)
  {
    if RequiredErrorFrom(config, 0).Some? then RequiredErrorFrom(config, 0) else ExtraErrorFrom(config, 0)
  }

  /** The scan of the required parameters finds nothing exactly when each
      of them converts, and what it finds is one of their errors. */
  lemma {:induction false} RequiredErrorFromFacts(config: Dict<Value>, j: nat)
    requires AllRequired(config) && j <= |RequiredParams|
    ensures RequiredErrorFrom(config, j).None?
            <==> forall m :: j <= m < |RequiredParams| ==> RequiredValue(config, m).Ok?
    ensures RequiredErrorFrom(config, j).Some? ==>
              exists m :: j <= m < |RequiredParams| && RequiredValue(config, m) == Err(RequiredErrorFrom(config, j).value)
    decreases |RequiredParams| - j
  {
    if j < |RequiredParams| {
      RequiredErrorFromFacts(config, j + 1);
      if RequiredValue(config, j).Ok? {
        assert RequiredErrorFrom(config, j) == RequiredErrorFrom(config, j + 1);
        if RequiredErrorFrom(config, j).None? {
          forall m | j <= m < |RequiredParams| ensures RequiredValue(config, m).Ok? {
            if m > j {
              assert j + 1 <= m;
            }
          }
        }
      } else {
        assert RequiredErrorFrom(config, j) == Some(RequiredValue(config, j).error);
      }
    }
  }

  /** The scan of the other entries finds nothing exactly when each of them
      converts, and what it finds is one of their errors. */
  lemma {:induction false} ExtraErrorFromFacts(config: Dict<Value>, i: nat)
    requires i <= |config|
    ensures ExtraErrorFrom(config, i).None?
            <==> forall m :: i <= m < |config| && config[m].0 !in RequiredParams ==> ToFloat(config[m].1).Ok?
    ensures ExtraErrorFrom(config, i).Some? ==>
              exists m :: i <= m < |config| && ToFloat(config[m].1) == Err(ExtraErrorFrom(config, i).value)
    decreases |config| - i
  {
    if i < |config| {
      ExtraErrorFromFacts(config, i + 1);
    }
  }

  /** Where the m-th required parameter sits in the configuration. */
  lemma RequiredEntry(config: Dict<Value>, m: nat) returns (i: nat)
    requires Unique(config) && AllRequired(config) && m < |RequiredParams|
    ensures i < |config| && config[i].0 == RequiredParams[m]
    ensures RequiredValue(config, m) == ToFloat(config[i].1)
  {
    i := IndexOf(config, RequiredParams[m]);
    GetAt(config, i);
  }

  /** The first float() error is absent exactly when every value of the
      configuration converts, and when present it is the error of one of
      the configuration's values. */
  lemma FirstFloatErrorFacts(config: Dict<Value>)
    requires Unique(config) && AllRequired(config)
    ensures FirstFloatError(config).None? <==> AllFloat(config)
    ensures FirstFloatError(config).Some? ==>
              exists i :: 0 <= i < |config| && ToFloat(config[i].1) == Err(FirstFloatError(config).value)
  {
    RequiredErrorFromFacts(config, 0);
    ExtraErrorFromFacts(config, 0);
    if RequiredErrorFrom(config, 0).Some? {
      var m :| 0 <= m < |RequiredParams| && RequiredValue(config, m) == Err(RequiredErrorFrom(config, 0).value);
      var i := RequiredEntry(config, m);
      assert !AllFloat(config) by {
        assert !ToFloat(config[i].1).Ok?;
      }
    } else if ExtraErrorFrom(config, 0).None? {
      NoErrorAllFloat(config);
    } else {
      var i :| 0 <= i < |config| && ToFloat(config[i].1) == Err(ExtraErrorFrom(config, 0).value);
      assert !AllFloat(config) by {
        assert !ToFloat(config[i].1).Ok?;
      }
    }
  }

  /** When neither scan finds an error, every value converts. */
  lemma NoErrorAllFloat(config: Dict<Value>)
    requires Unique(config) && AllRequired(config)
    requires forall m :: 0 <= m < |RequiredParams| ==> RequiredValue(config, m).Ok?
    requires forall m :: 0 <= m < |config| && config[m].0 !in RequiredParams ==> ToFloat(config[m].1).Ok?
    ensures AllFloat(config)
  {
    forall i | 0 <= i < |config| ensures ToFloat(config[i].1).Ok? {
      if config[i].0 in RequiredParams {
        var m :| 0 <= m < |RequiredParams| && RequiredParams[m] == config[i].0;
        var j := RequiredEntry(config, m);
        assert i == j;
      }
    }
  }

  /** The missing list: the required parameters absent from the configuration. */
  method MissingParams(config: Dict<Value>) returns (missing: seq<string>)
    ensures forall k :: k in missing <==> k in RequiredParams && !HasKey(config, k)
    ensures missing == [] <==> AllRequired(config)
  {
    missing := [];
    for j := 0 to |RequiredParams|
      invariant forall k :: k in missing <==> k in RequiredParams[..j] && !HasKey(config, k)
    {
      if !HasKey(config, RequiredParams[j]) {
        missing := missing + [RequiredParams[j]];
      }
    }
    assert RequiredParams[..|RequiredParams|] == RequiredParams;
    if missing != [] {
      assert missing[0] in missing;
    } else {
      forall i | 0 <= i < |RequiredParams|
        ensures HasKey(config, RequiredParams[i])
      {
        assert RequiredParams[i] in RequiredParams;
      }
    }
  }

  /** Where the copy of the required parameters stands after the first j:
      each of them is loaded with its converted value, and none raised. */
  ghost predicate RequiredProgress(config: Dict<Value>, params: map<string, real>, done: set<string>, j: nat)
    requires AllRequired(config) && j <= |RequiredParams|
  {
    && Converted(config, params, done)
    && (forall k :: k in done <==> exists m :: 0 <= m < j && RequiredParams[m] == k)
    && RequiredErrorFrom(config, 0) == RequiredErrorFrom(config, j)
  }

  /** Storing the j-th required parameter, which converts, keeps the copy in progress. */
  lemma RequiredStore(config: Dict<Value>, params: map<string, real>, done: set<string>, j: nat, f: real)
    requires AllRequired(config) && j < |RequiredParams|
    requires RequiredProgress(config, params, done, j) && RequiredValue(config, j) == Ok(f)
    ensures RequiredProgress(config, params[RequiredParams[j] := f], done + {RequiredParams[j]}, j + 1)
  {
    ConvertedAdd(config, params, done, RequiredParams[j], f);
    forall k | k in done + {RequiredParams[j]}
      ensures exists m :: 0 <= m < j + 1 && RequiredParams[m] == k
    {
      if k == RequiredParams[j] {
        assert RequiredParams[j] == k;
      }
    }
  }

  /** The j-th required parameter's error, met in progress, is the first one
      and the error of one of the configuration's values. */
  lemma RequiredFail(config: Dict<Value>, params: map<string, real>, done: set<string>, j: nat)
    requires AllRequired(config) && j < |RequiredParams|
    requires RequiredProgress(config, params, done, j) && RequiredValue(config, j).Err?
    ensures RequiredErrorFrom(config, 0) == Some(RequiredValue(config, j).error)
    ensures exists i :: 0 <= i < |config| && ToFloat(config[i].1) == Err(RequiredValue(config, j).error)
  {
    var i := IndexOf(config, RequiredParams[j]);
    assert ToFloat(config[i].1) == RequiredValue(config, j);
  }

  /** The copy of the required parameters, each through float(). */
  method ConvertRequired(config: Dict<Value>) returns (r: Result<map<string, real>>, ghost done: set<string>)
    requires AllRequired(config)
    ensures r.Ok? ==> Converted(config, r.value, done)
    ensures forall k :: k in done ==> k in RequiredParams
    ensures r.Err? ==> exists i :: 0 <= i < |config| && ToFloat(config[i].1) == Err(r.error)
    ensures r.Ok? <==> RequiredErrorFrom(config, 0).None?
    ensures r.Err? ==> RequiredErrorFrom(config, 0) == Some(r.error)
    ensures r.Ok? ==> forall k :: k in done <==> k in RequiredParams
  {
    var params: map<string, real> := map[];
    done := {};
    for j := 0 to |RequiredParams|
      invariant RequiredProgress(config, params, done, j)
    {
      var name := RequiredParams[j];
      match RequiredValue(config, j)
      case Err(e) =>
        RequiredFail(config, params, done, j);
        return Err(e), done;
      case Ok(f) =>
        RequiredStore(config, params, done, j, f);
        params := params[name := f];
        done := done + {name};
    }
    return Ok(params), done;
  }

  /** Where the copy of the other entries stands after the first i entries:
      the loaded dict holds the required parameters and every entry seen so
      far, each converted, and no error has been met yet. */
  ghost predicate ExtrasProgress(config: Dict<Value>, done: set<string>, out: map<string, real>, seen: set<string>, i: nat)
    requires i <= |config|
  {
    && Converted(config, out, seen)
    && (forall m :: 0 <= m < i ==> ToFloat(config[m].1).Ok? && config[m].0 in seen)
    && done <= seen
    && (forall k :: k in seen && k !in done ==> IndexOf(config, k) < i)
    && ExtraErrorFrom(config, 0) == ExtraErrorFrom(config, i)
  }

  /** A key already loaded when its entry comes up is a required
      parameter: the loop skips it and the scan moves past it. */
  lemma ExtrasSkip(config: Dict<Value>, done: set<string>, out: map<string, real>, seen: set<string>, i: nat)
    requires Unique(config) && i < |config|
    requires forall k :: k in done <==> k in RequiredParams
    requires ExtrasProgress(config, done, out, seen, i) && config[i].0 in out
    ensures ExtrasProgress(config, done, out, seen, i + 1)
  {
    GetAt(config, i);
    IndexOfIs(config, config[i].0, i);
    assert config[i].0 in RequiredParams;
    assert ExtraErrorFrom(config, i) == ExtraErrorFrom(config, i + 1);
  }

  /** Any other entry is not a required parameter: the scan looks at it. */
  lemma ExtrasLooked(config: Dict<Value>, done: set<string>, out: map<string, real>, seen: set<string>, i: nat)
    requires i < |config|
    requires forall k :: k in done <==> k in RequiredParams
    requires ExtrasProgress(config, done, out, seen, i) && config[i].0 !in out
    ensures config[i].0 !in RequiredParams
    ensures ToFloat(config[i].1).Err? ==> ExtraErrorFrom(config, 0) == Some(ToFloat(config[i].1).error)
    ensures ToFloat(config[i].1).Ok? ==> ExtraErrorFrom(config, 0) == ExtraErrorFrom(config, i + 1)
  {
  }

  /** Storing an entry that converts keeps the copy in progress. */
  lemma ExtrasStore(config: Dict<Value>, done: set<string>, out: map<string, real>, seen: set<string>, i: nat)
    requires Unique(config) && i < |config|
    requires forall k :: k in done <==> k in RequiredParams
    requires ExtrasProgress(config, done, out, seen, i) && config[i].0 !in out && ToFloat(config[i].1).Ok?
    ensures ExtrasProgress(config, done, out[config[i].0 := ToFloat(config[i].1).value], seen + {config[i].0}, i + 1)
  {
    var name := config[i].0;
    GetAt(config, i);
    IndexOfIs(config, name, i);
    ExtrasLooked(config, done, out, seen, i);
    ConvertedAdd(config, out, seen, name, ToFloat(config[i].1).value);
  }

  /** The copy of every other entry, through float(), skipping keys already loaded. */
  method CopyExtras(config: Dict<Value>, params: map<string, real>, ghost done: set<string>) returns (r: Result<map<string, real>>)
    requires Unique(config)
    requires Converted(config, params, done)
    requires forall k :: k in done <==> k in RequiredParams
    ensures r.Ok? ==> AllFloat(config) && Converted(config, r.value, set i | 0 <= i < |config| :: config[i].0)
    ensures r.Err? ==> exists i :: 0 <= i < |config| && ToFloat(config[i].1) == Err(r.error)
    ensures r.Ok? <==> ExtraErrorFrom(config, 0).None?
    ensures r.Err? ==> ExtraErrorFrom(config, 0) == Some(r.error)
  {
    var out := params;
    ghost var seen := done;
    for i := 0 to |config|
      invariant ExtrasProgress(config, done, out, seen, i)
    {
      var (name, value) := config[i];
      if name in out {
        ExtrasSkip(config, done, out, seen, i);
      } else {
        ExtrasLooked(config, done, out, seen, i);
        match ToFloat(value)
        case Err(e) =>
          return Err(e);
        case Ok(f) =>
          ExtrasStore(config, done, out, seen, i);
          out := out[name := f];
          seen := seen + {name};
      }
    }
    SeenAreKeys(config, seen);
    return Ok(out);
  }

  /** Storing one more converted entry keeps the loaded dict converted. */
  lemma ConvertedAdd(config: Dict<Value>, params: map<string, real>, done: set<string>, name: string, f: real)
    requires Converted(config, params, done)
    requires HasKey(config, name) && ToFloat(Get(config, name).value) == Ok(f)
    ensures Converted(config, params[name := f], done + {name})
  {
  }

  /** A set of keys of the configuration that holds every entry's key is
      exactly the configuration's key set. */
  lemma SeenAreKeys(config: Dict<Value>, seen: set<string>)
    requires forall k :: k in seen ==> HasKey(config, k)
    requires forall m :: 0 <= m < |config| ==> config[m].0 in seen
    ensures seen == set i | 0 <= i < |config| :: config[i].0
  {
    forall k | k in seen
      ensures k in set i | 0 <= i < |config| :: config[i].0
    {
      var i := IndexOf(config, k);
      assert config[i].0 == k;
    }
  }

  /** load_parameters: ValueError when a required parameter is missing;
      otherwise the required parameters and then the extra entries are
      converted with float(), and the first conversion that raises is the
      error (FirstFloatError). On success the result has the configuration's
      keys and the float() of each value. */
  method LoadParameters(config: Dict<Value>) returns (r: Result<map<string, real>>)
    requires Unique(config)
    ensures !AllRequired(config) ==> r == Err(ValueError)
    ensures r.Ok? <==> AllRequired(config) && AllFloat(config)
    ensures r.Ok? ==> forall k :: k in r.value <==> HasKey(config, k)
    ensures r.Ok? ==> forall i :: 0 <= i < |config| ==> config[i].0 in r.value && r.value[config[i].0] == ToFloat(config[i].1).value
    ensures r.Err? && AllRequired(config) ==> exists i :: 0 <= i < |config| && ToFloat(config[i].1) == Err(r.error)
    ensures r.Ok? ==> r.value == LoadedParams(config)
    ensures AllRequired(config) ==> (r.Ok? <==> FirstFloatError(config).None?)
    ensures r.Err? && AllRequired(config) ==> FirstFloatError(config) == Some(r.error)
  {
    var missing := MissingParams(config);
    if missing != [] {
      return Err(ValueError);
    }
    var required, done := ConvertRequired(config);
    if required.Err? {
      return Err(required.error);
    }
    r := CopyExtras(config, required.value, done);
    if r.Ok? {
      LoadedFacts(config, r.value);
      LoadedParamsUnique(config, r.value);
    }
  }

  /** The dict a configuration that converts loads as: each of its keys
      with the float() of its value. */
  function LoadedParams(config: Dict<Value>): map<string, real>
    requires Unique(config) && AllFloat(config)
  {
    map i | 0 <= i < |config| :: config[i].0 := ToFloat(config[i].1).value
  }

  /** The entry-by-entry description of the loaded dict pins it down. */
  lemma LoadedParamsUnique(config: Dict<Value>, params: map<string, real>)
    requires Unique(config) && AllFloat(config)
    requires forall k :: k in params <==> HasKey(config, k)
    requires forall i :: 0 <= i < |config| ==> config[i].0 in params && params[config[i].0] == ToFloat(config[i].1).value
    ensures params == LoadedParams(config)
  {
    var l := LoadedParams(config);
    forall k | k in params ensures k in l && l[k] == params[k] {
      var i :| 0 <= i < |config| && config[i].0 == k;
    }
    forall k | k in l ensures k in params {
      var i :| 0 <= i < |config| && config[i].0 == k;
    }
  }

  /** What Converted over all the configuration's keys says entry by entry. */
  lemma LoadedFacts(config: Dict<Value>, params: map<string, real>)
    requires Unique(config) && AllFloat(config)
    requires Converted(config, params, set i | 0 <= i < |config| :: config[i].0)
    ensures forall k :: k in params <==> HasKey(config, k)
    ensures forall i :: 0 <= i < |config| ==> config[i].0 in params && params[config[i].0] == ToFloat(config[i].1).value
  {
    forall k | HasKey(config, k)
      ensures k in params
    {
      var i := IndexOf(config, k);
      assert config[i].0 == k;
    }
    forall i | 0 <= i < |config|
      ensures config[i].0 in params && params[config[i].0] == ToFloat(config[i].1).value
    {
      GetAt(config, i);
    }
  }
}
