// The initial-condition loader (src/vscsim/io/initial_conditions.py): each
// state and each algebraic variable is taken from the "x0" or "y0" group
// first, then from the top level of the configuration, and is 0.0 when
// neither has it.

module InitialConditions {
  import opened Common

  /** The loader's result: the dict {"x0": ..., "y0": ...}. */
  datatype Initial = Initial(x0: map<string, real>, y0: map<string, real>)

  /** config.get(group, {}) */
  function Group(config: Dict<Value>, group: string): Value
  {
    match Get(config, group)
    case Some(v) => v
    case None => VDict([])
  }

  /** name occurs in s as a substring. */
  predicate IsSubstring(name: string, s: string)
    decreases |s|
  {
    |name| <= |s| && (s[..|name|] == name || (s != [] && IsSubstring(name, s[1..])))
  }

  /** `name in group`: a key of a dict, an element of a list, a substring of
      a str; TypeError for None, a bool or a number. */
  function Contains(group: Value, name: string): (r: Result<bool>)
    ensures group.VDict? ==> r == Ok(HasKey(group.entries, name))
    ensures group.VNone? || group.VBool? || group.VNum? ==> r == Err(TypeError)
  {
    match group
    case VDict(entries) => Ok(HasKey(entries, name))
    case VList(items) => Ok(VStr(name) in items)
    case VStr(s) => Ok(IsSubstring(name, s))
    case _ => Err(TypeError)
  }

  /** `group[name]` once `name in group` held: the value of a dict; a list
      or a str indexed by a str raises TypeError. */
  function Item(group: Value, name: string): (r: Result<Value>)
    requires Contains(group, name) == Ok(true)
    ensures group.VDict? ==> r == Ok(Get(group.entries, name).value)
    ensures !group.VDict? ==> r == Err(TypeError)
  {
    match group
    case VDict(entries) => Ok(Get(entries, name).value)
    case _ => Err(TypeError)
  }

  /** The value the loader stores for one name: float() of the group's
      entry, else float() of the top-level entry, else 0.0. */
  function InitialValue(config: Dict<Value>, group: Value, name: string): (r: Result<real>)
    ensures group.VDict? && HasKey(group.entries, name) ==> r == ToFloat(Get(group.entries, name).value)
    ensures group.VDict? && !HasKey(group.entries, name) && HasKey(config, name) ==> r == ToFloat(Get(config, name).value)
    ensures group.VDict? && !HasKey(group.entries, name) && !HasKey(config, name) ==> r == Ok(0.0)
  {
    var inGroup :- Contains(group, name);
    if inGroup then
      var v :- Item(group, name);
      ToFloat(v)
    else if HasKey(config, name) then ToFloat(Get(config, name).value)
    else Ok(0.0)
  }

  /** Every name's value converts. */
  predicate AllLoad(config: Dict<Value>, group: Value, names: seq<string>)
  {
    forall i :: 0 <= i < |names| ==> InitialValue(config, group, names[i]).Ok?
  }

  /** m holds exactly the names, each with its value. */
  ghost predicate Loaded(config: Dict<Value>, group: Value, names: seq<string>, m: map<string, real>)
    requires AllLoad(config, group, names)
  {
    && m.Keys == (set i | 0 <= i < |names| :: names[i])
    && forall i :: 0 <= i < |names| ==> m[names[i]] == InitialValue(config, group, names[i]).value
  }

  /** The dict of one group that loads: each name with its value. */
  function LoadedGroup(config: Dict<Value>, group: Value, names: seq<string>): map<string, real>
    requires AllLoad(config, group, names)
  {
    map i | 0 <= i < |names| :: names[i] := InitialValue(config, group, names[i]).value
  }

  /** Loaded pins the dict down. */
  lemma LoadedGroupUnique(config: Dict<Value>, group: Value, names: seq<string>, m: map<string, real>)
    requires AllLoad(config, group, names) && Loaded(config, group, names, m)
    ensures m == LoadedGroup(config, group, names)
  {
    var l := LoadedGroup(config, group, names);
    forall k | k in m ensures k in l && l[k] == m[k] {
      var i :| 0 <= i < |names| && names[i] == k;
    }
    forall k | k in l ensures k in m {
      var i :| 0 <= i < |names| && names[i] == k;
    }
  }

  /** e is the error of the first name whose value raises. */
  ghost predicate FirstFailure(config: Dict<Value>, group: Value, names: seq<string>, e: Error)
  {
    exists i :: 0 <= i < |names| && InitialValue(config, group, names[i]) == Err(e)
                && forall j :: 0 <= j < i ==> InitialValue(config, group, names[j]).Ok?
  }

  /** One of the per-name loops: every name with its value; the first name,
      in order, whose value raises ends the loop with that error. */
  method LoadGroup(config: Dict<Value>, group: Value, names: seq<string>) returns (r: Result<map<string, real>>)
    ensures r.Ok? <==> AllLoad(config, group, names)
    ensures r.Ok? ==> Loaded(config, group, names, r.value)
    ensures r.Err? ==> FirstFailure(config, group, names, r.error)
  {
    var d: map<string, real> := map[];
    for i := 0 to |names|
      invariant d.Keys == set j | 0 <= j < i :: names[j]
      invariant forall j :: 0 <= j < i ==> InitialValue(config, group, names[j]).Ok?
      invariant forall j :: 0 <= j < i ==> d[names[j]] == InitialValue(config, group, names[j]).value
    {
      var name := names[i];
      var value :- LoadValue(config, group, name);
      d := d[name := value];
    }
    return Ok(d);
  }

  /** The body of the loop for one name. */
  method LoadValue(config: Dict<Value>, group: Value, name: string) returns (r: Result<real>)
    ensures r == InitialValue(config, group, name)
  {
    var inGroup :- Contains(group, name);
    if inGroup {
      var v :- Item(group, name);
      r := ToFloat(v);
    } else if HasKey(config, name) {
      r := ToFloat(Get(config, name).value);
    } else {
      r := Ok(0.0);
    }
  }

  /** load_initial_conditions: x0 over STATE_KEYS from the "x0" group, then
      y0 over ALGEBRAIC_KEYS from the "y0" group; the result has exactly
      those two entries, and an empty configuration gives all zeros. */
  method LoadInitialConditions(config: Dict<Value>) returns (r: Result<Initial>)
    ensures r.Ok? <==> AllLoad(config, Group(config, "x0"), StateKeys) && AllLoad(config, Group(config, "y0"), AlgebraicKeys)
    ensures r.Ok? ==> Loaded(config, Group(config, "x0"), StateKeys, r.value.x0)
                      && Loaded(config, Group(config, "y0"), AlgebraicKeys, r.value.y0)
    ensures r.Err? ==> if AllLoad(config, Group(config, "x0"), StateKeys)
                       then FirstFailure(config, Group(config, "y0"), AlgebraicKeys, r.error)
                       else FirstFailure(config, Group(config, "x0"), StateKeys, r.error)
    ensures config == [] ==> r == Ok(Initial(map["id" := 0.0, "iq" := 0.0, "Vdc" := 0.0],
                                             map["Idc" := 0.0, "P_ac" := 0.0, "Q_ac" := 0.0]))
    ensures r.Ok? ==> r.value == Initial(LoadedGroup(config, Group(config, "x0"), StateKeys),
                                         LoadedGroup(config, Group(config, "y0"), AlgebraicKeys))
  {
    var x0 :- LoadGroup(config, Group(config, "x0"), StateKeys);
    var y0 :- LoadGroup(config, Group(config, "y0"), AlgebraicKeys);
    r := Ok(Initial(x0, y0));
    LoadedGroupUnique(config, Group(config, "x0"), StateKeys, x0);
    LoadedGroupUnique(config, Group(config, "y0"), AlgebraicKeys, y0);
    if config == [] {
      EmptyGroup(StateKeys, x0);
      EmptyGroup(AlgebraicKeys, y0);
    }
  }

  /** Without a configuration every name loads as 0.0. */
  lemma EmptyGroup(names: seq<string>, m: map<string, real>)
    requires |names| == 3 && AllLoad([], VDict([]), names) && Loaded([], VDict([]), names, m)
    ensures m == map[names[0] := 0.0, names[1] := 0.0, names[2] := 0.0]
  {
    assert forall i :: 0 <= i < 3 ==> InitialValue([], VDict([]), names[i]) == Ok(0.0);
    assert forall k :: k in m <==> k == names[0] || k == names[1] || k == names[2] by {
      forall k | k in m ensures k == names[0] || k == names[1] || k == names[2] {
        var i :| 0 <= i < 3 && names[i] == k;
      }
      assert names[0] in m && names[1] in m && names[2] in m;
    }
  }

  /** The loaded x0 and y0 carry exactly STATE_KEYS and ALGEBRAIC_KEYS. */
  lemma LoadedKeys(config: Dict<Value>, x0: map<string, real>, y0: map<string, real>)
    requires AllLoad(config, Group(config, "x0"), StateKeys) && Loaded(config, Group(config, "x0"), StateKeys, x0)
    requires AllLoad(config, Group(config, "y0"), AlgebraicKeys) && Loaded(config, Group(config, "y0"), AlgebraicKeys, y0)
    ensures x0.Keys == {"id", "iq", "Vdc"} && y0.Keys == {"Idc", "P_ac", "Q_ac"}
  {
    assert StateKeys[0] == "id" && StateKeys[1] == "iq" && StateKeys[2] == "Vdc";
    assert AlgebraicKeys[0] == "Idc" && AlgebraicKeys[1] == "P_ac" && AlgebraicKeys[2] == "Q_ac";
  }
}
