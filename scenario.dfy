// The scenario loader (src/vscsim/io/scenario.py): checks the keys every
// scenario needs, converts the PCC voltages and the references of the
// control mode with float(), rejects unknown modes, and copies every other
// entry of the configuration unchanged.

module Scenario {
  import opened Common

  /** _REQUIRED_COMMON_KEYS: the mode and the two PCC voltages. */
  predicate HasCommon(config: Dict<Value>)
  {
    HasKey(config, "control_mode") && HasKey(config, "v_pcc_d") && HasKey(config, "v_pcc_q")
  }

  /** The PCC voltages, converted right after the common check. */
  const PccKeys: (string, string) := ("v_pcc_d", "v_pcc_q")

  /** _REQUIRED_PQ_KEYS */
  const PqKeys: (string, string) := ("P_ref", "Q_ref")

  /** _REQUIRED_VDCQ_KEYS */
  const VdcqKeys: (string, string) := ("id_ref", "iq_ref")

  predicate HasPair(config: Dict<Value>, keys: (string, string))
  {
    HasKey(config, keys.0) && HasKey(config, keys.1)
  }

  /** str(config["control_mode"]) as far as the loader looks at it: the text
      of a str. The str() of None, a bool, a number, a list or a dict is
      never "PQ" or "VdcQ", so every such mode is unsupported. */
  function ModeText(v: Value): (r: Option<string>)
    ensures r.Some? <==> v.VStr?
  {
    match v
    case VStr(s) => Some(s)
    case _ => None
  }

  /** The references a supported mode requires, or None for any other mode. */
  function ModeKeys(mode: Option<string>): (r: Option<(string, string)>)
    ensures r == Some(PqKeys) <==> mode == Some("PQ")
    ensures r == Some(VdcqKeys) <==> mode == Some("VdcQ")
    ensures r.None? <==> mode != Some("PQ") && mode != Some("VdcQ")
  {
    if mode == Some("PQ") then Some(PqKeys)
    else if mode == Some("VdcQ") then Some(VdcqKeys)
    else None
  }

  /** The control mode of a configuration that has the common keys. */
  function ModeOf(config: Dict<Value>): Option<string>
    requires HasCommon(config)
  {
    ModeText(Get(config, "control_mode").value)
  }

  /** float() of the value under a present key. */
  function FloatAt(config: Dict<Value>, k: string): Result<real>
    requires HasKey(config, k)
  {
    ToFloat(Get(config, k).value)
  }

  /** The error of the first of the two keys whose value float() rejects. */
  function PairError(config: Dict<Value>, keys: (string, string)): (r: Option<Error>)
    requires HasPair(config, keys)
    ensures r.None? <==> FloatAt(config, keys.0).Ok? && FloatAt(config, keys.1).Ok?
  {
    if FloatAt(config, keys.0).Err? then Some(FloatAt(config, keys.0).error)
    else if FloatAt(config, keys.1).Err? then Some(FloatAt(config, keys.1).error)
    else None
  }

  /** float() of both values, the first failure raising. */
  method ConvertPair(config: Dict<Value>, keys: (string, string)) returns (r: Result<(real, real)>)
    requires HasPair(config, keys)
    ensures r.Err? <==> PairError(config, keys).Some?
    ensures r.Err? ==> r.error == PairError(config, keys).value
    ensures r.Ok? ==> r.value == (FloatAt(config, keys.0).value, FloatAt(config, keys.1).value)
  {
    var a :- ToFloat(Get(config, keys.0).value);
    var b :- ToFloat(Get(config, keys.1).value);
    return Ok((a, b));
  }

  /** Every key of config not yet in base is added with its value as given;
      the entries of base stay as they are. */
  method CopyExtraEntries(config: Dict<Value>, base: map<string, Value>) returns (out: map<string, Value>)
    requires Unique(config)
    ensures out.Keys == base.Keys + set i | 0 <= i < |config| :: config[i].0
    ensures forall k :: k in base ==> k in out && out[k] == base[k]
    ensures OthersAsGiven(config, out, base.Keys)
  {
    out := base;
    for i := 0 to |config|
      invariant out.Keys == base.Keys + set m | 0 <= m < i :: config[m].0
      invariant forall k :: k in base ==> out[k] == base[k]
      invariant forall k :: k in out && k !in base ==> HasKey(config, k) && out[k] == Get(config, k).value
    {
      var (name, value) := config[i];
      GetAt(config, i);
      if name !in out {
        out := out[name := value];
      }
    }
  }

  /** The failure the loader raises, checking in its order: the common keys,
      float() of v_pcc_d and v_pcc_q, the mode, the mode's references and
      float() of them. None when the configuration loads. */
  function ScenarioError(config: Dict<Value>): Option<Error>
  {
    if !HasCommon(config) then Some(ValueError)
    else if PairError(config, PccKeys).Some? then PairError(config, PccKeys)
    else if ModeKeys(ModeOf(config)).None? then Some(ValueError)
    else if !HasPair(config, ModeKeys(ModeOf(config)).value) then Some(ValueError)
    else PairError(config, ModeKeys(ModeOf(config)).value)
  }

  /** The keys the loader itself sets: the mode, the PCC voltages and the
      mode's references. */
  function ValidatedKeys(config: Dict<Value>): set<string>
    requires ScenarioError(config).None?
  {
    var ks := ModeKeys(ModeOf(config)).value;
    {"control_mode", PccKeys.0, PccKeys.1, ks.0, ks.1}
  }

  /** Every entry of m outside fixed is the configuration's entry, unchanged. */
  ghost predicate OthersAsGiven(config: Dict<Value>, m: map<string, Value>, fixed: set<string>)
  {
    forall k :: k in m && k !in fixed ==> HasKey(config, k) && m[k] == Get(config, k).value
  }

  /** m holds the mode as given and the float() of the PCC voltages and of
      the mode's references. */
  predicate HoldsValidated(config: Dict<Value>, m: map<string, Value>)
    requires ScenarioError(config).None?
  {
    var ks := ModeKeys(ModeOf(config)).value;
    && "control_mode" in m && m["control_mode"] == Get(config, "control_mode").value
    && PccKeys.0 in m && m[PccKeys.0] == VNum(FloatAt(config, PccKeys.0).value)
    && PccKeys.1 in m && m[PccKeys.1] == VNum(FloatAt(config, PccKeys.1).value)
    && ks.0 in m && m[ks.0] == VNum(FloatAt(config, ks.0).value)
    && ks.1 in m && m[ks.1] == VNum(FloatAt(config, ks.1).value)
  }

  /** Entries that survive unchanged keep the validated values. */
  lemma ValidatedKept(config: Dict<Value>, base: map<string, Value>, out: map<string, Value>)
    requires ScenarioError(config).None? && HoldsValidated(config, base)
    requires forall k :: k in base ==> k in out && out[k] == base[k]
    ensures HoldsValidated(config, out)
  {
  }

  /** The entries the loader sets: the mode as given, the two PCC voltages
      and the two references under the mode's keys. */
  function Entries(mode: Value, pcc: (real, real), keys: (string, string), refs: (real, real)): map<string, Value>
  {
    map["control_mode" := mode, PccKeys.0 := VNum(pcc.0), PccKeys.1 := VNum(pcc.1),
        keys.0 := VNum(refs.0), keys.1 := VNum(refs.1)]
  }

  /** The entries the loader sets for a configuration that loads. */
  function ValidatedEntries(config: Dict<Value>): map<string, Value>
    requires ScenarioError(config).None?
  {
    var ks := ModeKeys(ModeOf(config)).value;
    Entries(Get(config, "control_mode").value,
            (FloatAt(config, PccKeys.0).value, FloatAt(config, PccKeys.1).value),
            ks, (FloatAt(config, ks.0).value, FloatAt(config, ks.1).value))
  }

  /** What the entries hold when the reference keys are distinct from each
      other and from the mode and voltage keys. */
  lemma EntriesAt(mode: Value, pcc: (real, real), keys: (string, string), refs: (real, real))
    requires keys.0 != keys.1
    requires keys.0 !in {"control_mode", PccKeys.0, PccKeys.1} && keys.1 !in {"control_mode", PccKeys.0, PccKeys.1}
    ensures var m := Entries(mode, pcc, keys, refs);
            && m.Keys == {"control_mode", PccKeys.0, PccKeys.1, keys.0, keys.1}
            && m["control_mode"] == mode && m[PccKeys.0] == VNum(pcc.0) && m[PccKeys.1] == VNum(pcc.1)
            && m[keys.0] == VNum(refs.0) && m[keys.1] == VNum(refs.1)
  {
  }

  lemma ValidatedEntriesFacts(config: Dict<Value>)
    requires ScenarioError(config).None?
    ensures ValidatedEntries(config).Keys == ValidatedKeys(config)
    ensures HoldsValidated(config, ValidatedEntries(config))
  {
    var ks := ModeKeys(ModeOf(config)).value;
    assert ks == PqKeys || ks == VdcqKeys;
    EntriesAt(Get(config, "control_mode").value,
              (FloatAt(config, PccKeys.0).value, FloatAt(config, PccKeys.1).value),
              ks, (FloatAt(config, ks.0).value, FloatAt(config, ks.1).value));
  }

  /** The validated part of the scenario: the mode as given and the four
      converted voltages and references, or the loader's first failure. */
  method ValidateScenario(config: Dict<Value>) returns (r: Result<map<string, Value>>)
    ensures r.Err? <==> ScenarioError(config).Some?
    ensures r.Err? ==> r.error == ScenarioError(config).value
    ensures r.Ok? ==> r.value == ValidatedEntries(config)
  {
    if !(HasKey(config, "control_mode") && HasKey(config, "v_pcc_d") && HasKey(config, "v_pcc_q")) {
      return Err(ValueError);
    }
    var modeValue := Get(config, "control_mode").value;
    var pcc :- ConvertPair(config, PccKeys);
    var keys := ModeKeys(ModeText(modeValue));
    assert keys == ModeKeys(ModeOf(config));
    if keys.None? {
      return Err(ValueError);
    }
    if !HasPair(config, keys.value) {
      return Err(ValueError);
    }
    var refs :- ConvertPair(config, keys.value);
    return Ok(Entries(modeValue, pcc, keys.value, refs));
  }

  /** load_scenario: the checks and conversions in the loader's order, each
      failure raising before anything after it is looked at, then the copy
      of the remaining entries. */
  method LoadScenario(config: Dict<Value>) returns (r: Result<map<string, Value>>)
    requires Unique(config)
    ensures r.Err? <==> ScenarioError(config).Some?
    ensures r.Err? ==> r.error == ScenarioError(config).value
    // what a loaded scenario holds
    ensures r.Ok? ==> r.value.Keys == set i | 0 <= i < |config| :: config[i].0
    ensures r.Ok? ==> HoldsValidated(config, r.value)
    ensures r.Ok? ==> OthersAsGiven(config, r.value, ValidatedKeys(config))
    ensures r.Ok? ==> r.value == LoadedScenario(config)
  {
    var validated :- ValidateScenario(config);
    var loaded := CopyExtraEntries(config, validated);
    ValidatedEntriesFacts(config);
    ValidatedKept(config, validated, loaded);
    ValidatedKeysPresent(config);
    forall k | k in validated
      ensures k in set i | 0 <= i < |config| :: config[i].0
    {
      KeyOfPresent(config, k);
    }
    LoadedScenarioUnique(config, loaded);
    return Ok(loaded);
  }

  /** The dict a configuration that passes the checks loads as: the entries
      the loader sets, and every other entry of the configuration as given. */
  function LoadedScenario(config: Dict<Value>): (m: map<string, Value>)
    requires ScenarioError(config).None?
  {
    var ve := ValidatedEntries(config);
    map k | k in (set i | 0 <= i < |config| :: config[i].0) ::
      if k in ve then ve[k] else Get(config, k).value
  }

  /** The keys, the validated entries and the copied entries pin the loaded
      dict down. */
  lemma LoadedScenarioUnique(config: Dict<Value>, m: map<string, Value>)
    requires ScenarioError(config).None?
    requires m.Keys == set i | 0 <= i < |config| :: config[i].0
    requires HoldsValidated(config, m) && OthersAsGiven(config, m, ValidatedKeys(config))
    ensures m == LoadedScenario(config)
  {
    ValidatedEntriesFacts(config);
    var ve := ValidatedEntries(config);
    var l := LoadedScenario(config);
    assert l.Keys == m.Keys;
    forall k | k in m ensures l[k] == m[k] {
      if k in ve {
        ValidatedAgree(config, m, ve, k);
      }
    }
  }

  /** Two dicts that both hold the validated entries agree on their keys. */
  lemma ValidatedAgree(config: Dict<Value>, a: map<string, Value>, b: map<string, Value>, k: string)
    requires ScenarioError(config).None?
    requires HoldsValidated(config, a) && HoldsValidated(config, b) && k in ValidatedKeys(config)
    ensures k in a && k in b && a[k] == b[k]
  {
  }

  /** The keys the loader sets are keys of a configuration that loads. */
  lemma ValidatedKeysPresent(config: Dict<Value>)
    requires ScenarioError(config).None?
    ensures forall k :: k in ValidatedKeys(config) ==> HasKey(config, k)
  {
  }

  lemma KeyOfPresent(config: Dict<Value>, k: string)
    requires HasKey(config, k)
    ensures k in set i | 0 <= i < |config| :: config[i].0
  {
    var i := IndexOf(config, k);
    assert config[i].0 == k;
  }

  /** The order in which the loader fails: a missing common key, then a
      PCC voltage float() rejects, then an unsupported mode, then a missing
      reference of the mode, then a reference float() rejects; a
      configuration that passes all of these loads. */
  lemma ErrorOrder(config: Dict<Value>)
    ensures !HasCommon(config) ==> ScenarioError(config) == Some(ValueError)
    ensures HasCommon(config) && PairError(config, PccKeys).Some? ==> ScenarioError(config) == PairError(config, PccKeys)
    ensures HasCommon(config) && PairError(config, PccKeys).None? && ModeKeys(ModeOf(config)).None? ==>
              ScenarioError(config) == Some(ValueError)
    ensures HasCommon(config) && PairError(config, PccKeys).None? && ModeKeys(ModeOf(config)).Some? ==>
              var ks := ModeKeys(ModeOf(config)).value;
              (!HasPair(config, ks) ==> ScenarioError(config) == Some(ValueError))
              && (HasPair(config, ks) ==> ScenarioError(config) == PairError(config, ks))
    ensures ScenarioError(config).None? <==>
              HasCommon(config) && ModeOf(config) in {Some("PQ"), Some("VdcQ")}
              && FloatAt(config, PccKeys.0).Ok? && FloatAt(config, PccKeys.1).Ok?
              && HasPair(config, ModeKeys(ModeOf(config)).value)
              && FloatAt(config, ModeKeys(ModeOf(config)).value.0).Ok?
              && FloatAt(config, ModeKeys(ModeOf(config)).value.1).Ok?
  {
  }
}
