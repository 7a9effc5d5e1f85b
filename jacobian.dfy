// Closed-form Jacobians of the RMS model (src/vscsim/model/jacobian.py):
// df/dx, dg/dx and dg/dy, rows and columns in STATE_KEYS / ALGEBRAIC_KEYS order.

module Jacobian {
  import opened Common
  import opened Dae

  /** df_dx: only L, R and omega are read; x, y and inputs are not. */
  function DfDx(x: map<string, real>, y: map<string, real>,
                params: map<string, real>, inputs: map<string, real>): (r: Result<Matrix>)
    ensures r.Ok? <==> "L" in params && "R" in params && "omega" in params && params["L"] != 0.0
    ensures r.Err? ==> r.error.KeyError? || r.error == ZeroDivisionError
    ensures r.Ok? ==> Is3x3(r.value)
  {
    var l :- Lookup(params, "L");
    var res :- Lookup(params, "R");
    var omega :- Lookup(params, "omega");
    var rOverL :- Div(res, l);
    Ok([[-rOverL, omega, 0.0],
        [-omega, -rOverL, 0.0],
        [0.0, 0.0, 0.0]])
  }

  /** x with h added to the state in column j. */
  function Perturb(x: map<string, real>, j: nat, h: real): (r: map<string, real>)
    requires j < 3 && HasKeys(x, StateKeys)
    ensures r.Keys == x.Keys
  {
    x[StateKeys[j] := x[StateKeys[j]] + h]
  }

  /** Dividing an identity between L-multiples by a non-zero L. */
  lemma ScaleBack(l: real, a: real, b: real, c: real)
    requires l != 0.0 && l * a - l * b == c
    ensures a - b == c / l
  {
    assert l * (a - b) == c;
  }

  /** Moving one state keeps every key f_rhs reads. */
  lemma PerturbKeepsFKeys(x: map<string, real>, y: map<string, real>,
                          params: map<string, real>, inputs: map<string, real>, j: nat, h: real)
    requires FRhs(x, y, params, inputs).Ok? && j < 3
    ensures FRhs(Perturb(x, j, h), y, params, inputs).Ok?
  {
    assert FKeysPresent(Perturb(x, j, h), y, params, inputs);
  }

  /** Row i of L * f_rhs for a current row: L di_d/dt or L di_q/dt, given the
      converter and PCC voltages vc and vp of that axis. */
  predicate CurrentRowEq(i: nat, l: real, res: real, omega: real, id: real, iq: real,
                         vc: real, vp: real, a: real)
  {
    if i == 0 then a == vc - res * id + omega * l * iq - vp
    else a == vc - res * iq - omega * l * id - vp
  }

  /** The change of L * f_i when state j moves by h (i a current row). */
  function CurrentChange(l: real, res: real, omega: real, h: real, i: nat, j: nat): real
  {
    if j == 2 then 0.0
    else if i == j then -res * h
    else if i == 0 then omega * l * h
    else -omega * l * h
  }

  lemma CurrentRowScalar(i: nat, j: nat, l: real, res: real, omega: real, h: real,
                         id: real, iq: real, id1: real, iq1: real, vc: real, vp: real, a0: real, a1: real)
    requires i < 2 && j < 3
    requires id1 == id + (if j == 0 then h else 0.0) && iq1 == iq + (if j == 1 then h else 0.0)
    requires CurrentRowEq(i, l, res, omega, id, iq, vc, vp, a0)
    requires CurrentRowEq(i, l, res, omega, id1, iq1, vc, vp, a1)
    ensures a1 - a0 == CurrentChange(l, res, omega, h, i, j)
  {
    assert res * id1 - res * id == res * (id1 - id);
    assert res * iq1 - res * iq == res * (iq1 - iq);
    assert omega * l * iq1 - omega * l * iq == omega * l * (iq1 - iq);
    assert omega * l * id1 - omega * l * id == omega * l * (id1 - id);
  }

  lemma {:induction false} DAxisChange(x: map<string, real>, y: map<string, real>,
                                  params: map<string, real>, inputs: map<string, real>, j: nat, h: real)
    requires HasKeys(x, StateKeys) && j < 3
    requires FRhs(x, y, params, inputs).Ok? && FRhs(Perturb(x, j, h), y, params, inputs).Ok?
    ensures var l := params["L"];
            l * FRhs(Perturb(x, j, h), y, params, inputs).value["id"] - l * FRhs(x, y, params, inputs).value["id"]
            == CurrentChange(l, params["R"], params["omega"], h, 0, j)
  {
    var xp := Perturb(x, j, h);
    var l, res, omega := params["L"], params["R"], params["omega"];
    var a0 := l * FRhs(x, y, params, inputs).value["id"];
    var a1 := l * FRhs(xp, y, params, inputs).value["id"];
    var vc, vp := inputs["v_conv_d"], inputs["v_pcc_d"];
    assert CurrentRowEq(0, l, res, omega, x["id"], x["iq"], vc, vp, a0);
    assert CurrentRowEq(0, l, res, omega, xp["id"], xp["iq"], vc, vp, a1);
    CurrentRowScalar(0, j, l, res, omega, h, x["id"], x["iq"], xp["id"], xp["iq"], vc, vp, a0, a1);
  }

  lemma {:induction false} QAxisChange(x: map<string, real>, y: map<string, real>,
                                  params: map<string, real>, inputs: map<string, real>, j: nat, h: real)
    requires HasKeys(x, StateKeys) && j < 3
    requires FRhs(x, y, params, inputs).Ok? && FRhs(Perturb(x, j, h), y, params, inputs).Ok?
    ensures var l := params["L"];
            l * FRhs(Perturb(x, j, h), y, params, inputs).value["iq"] - l * FRhs(x, y, params, inputs).value["iq"]
            == CurrentChange(l, params["R"], params["omega"], h, 1, j)
  {
    var xp := Perturb(x, j, h);
    var l, res, omega := params["L"], params["R"], params["omega"];
    var a0 := l * FRhs(x, y, params, inputs).value["iq"];
    var a1 := l * FRhs(xp, y, params, inputs).value["iq"];
    var vc, vp := inputs["v_conv_q"], inputs["v_pcc_q"];
    assert CurrentRowEq(1, l, res, omega, x["id"], x["iq"], vc, vp, a0);
    assert CurrentRowEq(1, l, res, omega, xp["id"], xp["iq"], vc, vp, a1);
    CurrentRowScalar(1, j, l, res, omega, h, x["id"], x["iq"], xp["id"], xp["iq"], vc, vp, a0, a1);
  }

  /** The change of L * f along column j, for the two current rows. */
  lemma {:induction false} CurrentRowChange(x: map<string, real>, y: map<string, real>,
                                            params: map<string, real>, inputs: map<string, real>,
                                            i: nat, j: nat, h: real)
    requires HasKeys(x, StateKeys) && j < 3 && i < 2
    requires FRhs(x, y, params, inputs).Ok? && FRhs(Perturb(x, j, h), y, params, inputs).Ok?
    ensures var l, res, omega := params["L"], params["R"], params["omega"];
            var k := StateKeys[i];
            l * FRhs(Perturb(x, j, h), y, params, inputs).value[k] - l * FRhs(x, y, params, inputs).value[k]
            == CurrentChange(l, res, omega, h, i, j)
  {
    if i == 0 {
      DAxisChange(x, y, params, inputs, j, h);
    } else {
      QAxisChange(x, y, params, inputs, j, h);
    }
  }

  /** Entry (i, j) of df_dx. */
  function DfDxEntry(l: real, res: real, omega: real, i: nat, j: nat): real
    requires l != 0.0
  {
    if i == 2 || j == 2 then 0.0
    else if i == j then -(res / l)
    else if i == 0 then omega
    else -omega
  }

  /** The entries of df_dx as scalars. */
  lemma DfDxEntries(x: map<string, real>, y: map<string, real>,
                    params: map<string, real>, inputs: map<string, real>)
    requires DfDx(x, y, params, inputs).Ok?
    ensures forall i, j :: 0 <= i < 3 && 0 <= j < 3 ==>
              DfDx(x, y, params, inputs).value[i][j] == DfDxEntry(params["L"], params["R"], params["omega"], i, j)
  {
  }

  lemma CurrentEntryScalar(l: real, res: real, omega: real, h: real, i: nat, j: nat, a: real, b: real, e: real)
    requires l != 0.0 && i < 2 && l * a - l * b == CurrentChange(l, res, omega, h, i, j)
    requires e == DfDxEntry(l, res, omega, i, j)
    ensures a - b == h * e
  {
    assert l * (a - b) == l * (h * e);
  }

  /** The change of L * f_i and entry (i, j) of df_dx, for a current row i. */
  lemma {:induction false} CurrentChangeAndEntry(x: map<string, real>, y: map<string, real>,
                                                 params: map<string, real>, inputs: map<string, real>,
                                                 i: nat, j: nat, h: real)
    requires HasKeys(x, StateKeys) && i < 2 && j < 3
    requires FRhs(x, y, params, inputs).Ok? && FRhs(Perturb(x, j, h), y, params, inputs).Ok?
    requires DfDx(x, y, params, inputs).Ok?
    ensures var l, res, omega := params["L"], params["R"], params["omega"];
            var k := StateKeys[i];
            l != 0.0
            && l * FRhs(Perturb(x, j, h), y, params, inputs).value[k] - l * FRhs(x, y, params, inputs).value[k]
               == CurrentChange(l, res, omega, h, i, j)
            && DfDx(x, y, params, inputs).value[i][j] == DfDxEntry(l, res, omega, i, j)
  {
    CurrentRowChange(x, y, params, inputs, i, j, h);
    DfDxEntries(x, y, params, inputs);
  }

  /** One current row of df_dx against f_rhs. */
  lemma {:induction false} CurrentRowExact(x: map<string, real>, y: map<string, real>,
                                           params: map<string, real>, inputs: map<string, real>,
                                           i: nat, j: nat, h: real)
    requires HasKeys(x, StateKeys) && i < 2 && j < 3
    requires FRhs(x, y, params, inputs).Ok? && FRhs(Perturb(x, j, h), y, params, inputs).Ok?
    requires DfDx(x, y, params, inputs).Ok?
    ensures FRhs(Perturb(x, j, h), y, params, inputs).value[StateKeys[i]]
            - FRhs(x, y, params, inputs).value[StateKeys[i]]
            == h * DfDx(x, y, params, inputs).value[i][j]
  {
    var k := StateKeys[i];
    CurrentChangeAndEntry(x, y, params, inputs, i, j, h);
    CurrentEntryScalar(params["L"], params["R"], params["omega"], h, i, j,
                       FRhs(Perturb(x, j, h), y, params, inputs).value[k], FRhs(x, y, params, inputs).value[k],
                       DfDx(x, y, params, inputs).value[i][j]);
  }

  /** The Vdc row of df_dx is zero and f_rhs's dVdc/dt ignores x. */
  lemma {:induction false} VdcRowExact(x: map<string, real>, y: map<string, real>,
                                       params: map<string, real>, inputs: map<string, real>,
                                       j: nat, h: real)
    requires HasKeys(x, StateKeys) && j < 3
    requires FRhs(x, y, params, inputs).Ok? && FRhs(Perturb(x, j, h), y, params, inputs).Ok?
    requires DfDx(x, y, params, inputs).Ok?
    ensures FRhs(Perturb(x, j, h), y, params, inputs).value["Vdc"] - FRhs(x, y, params, inputs).value["Vdc"]
            == h * DfDx(x, y, params, inputs).value[2][j]
  {
    var f0, f1 := FRhs(x, y, params, inputs).value, FRhs(Perturb(x, j, h), y, params, inputs).value;
    ScaleBack(params["Cdc"], f1["Vdc"], f0["Vdc"], 0.0);
    DfDxEntries(x, y, params, inputs);
  }

  /** df_dx is the exact derivative of f_rhs: f is affine in x, so moving
      state j by h moves every component i of f by h * df_dx[i][j]. */
  lemma {:induction false} DfDxIsExact(x: map<string, real>, y: map<string, real>,
                                       params: map<string, real>, inputs: map<string, real>,
                                       i: nat, j: nat, h: real)
    requires FRhs(x, y, params, inputs).Ok? && i < 3 && j < 3
    ensures FRhs(Perturb(x, j, h), y, params, inputs).Ok?
    ensures DfDx(x, y, params, inputs).Ok?
    ensures FRhs(Perturb(x, j, h), y, params, inputs).value[StateKeys[i]]
            - FRhs(x, y, params, inputs).value[StateKeys[i]]
            == h * DfDx(x, y, params, inputs).value[i][j]
  {
    PerturbKeepsFKeys(x, y, params, inputs, j, h);
    if i == 2 {
      VdcRowExact(x, y, params, inputs, j, h);
    } else {
      CurrentRowExact(x, y, params, inputs, i, j, h);
    }
  }

  /** dg_dx: reads Vdc, P_ac and the PCC voltages; Vdc = 0 raises. */
  function DgDx(x: map<string, real>, y: map<string, real>,
                params: map<string, real>, inputs: map<string, real>): (r: Result<Matrix>)
    ensures r.Ok? <==> "Vdc" in x && "P_ac" in y && "v_pcc_d" in inputs && "v_pcc_q" in inputs && x["Vdc"] != 0.0
    ensures r.Err? ==> r.error.KeyError? || r.error == ZeroDivisionError
    ensures r.Ok? ==> Is3x3(r.value)
  {
    var vdc :- Lookup(x, "Vdc");
    var pAc :- Lookup(y, "P_ac");
    var vPccD :- Lookup(inputs, "v_pcc_d");
    var vPccQ :- Lookup(inputs, "v_pcc_q");
    var factor := 1.5;
    var dIdcDVdc :- Div(pAc, vdc * vdc);
    Ok([[0.0, 0.0, dIdcDVdc],
        [-factor * vPccD, -factor * vPccQ, 0.0],
        [-factor * vPccQ, factor * vPccD, 0.0]])
  }

  /** Moving one state keeps every key g_residual reads; moving Vdc to a
      non-zero value keeps it evaluable. */
  lemma PerturbKeepsGKeys(x: map<string, real>, y: map<string, real>,
                          params: map<string, real>, inputs: map<string, real>, j: nat, h: real)
    requires GResidual(x, y, params, inputs).Ok? && j < 3
    requires j == 2 ==> x["Vdc"] + h != 0.0
    ensures GResidual(Perturb(x, j, h), y, params, inputs).Ok?
  {
    assert GKeysPresent(Perturb(x, j, h), y, inputs);
  }

  /** Entry (i, j) of dg_dx at Vdc = v, P_ac = p and PCC voltage (vd, vq). */
  function DgDxEntry(v: real, p: real, vd: real, vq: real, i: nat, j: nat): real
    requires v != 0.0
  {
    if i == 0 then (if j == 2 then p / (v * v) else 0.0)
    else if i == 1 then (if j == 0 then -1.5 * vd else if j == 1 then -1.5 * vq else 0.0)
    else (if j == 0 then -1.5 * vq else if j == 1 then 1.5 * vd else 0.0)
  }

  /** The entries of dg_dx as scalars. */
  lemma DgDxEntries(x: map<string, real>, y: map<string, real>,
                    params: map<string, real>, inputs: map<string, real>)
    requires DgDx(x, y, params, inputs).Ok?
    ensures forall i, j :: 0 <= i < 3 && 0 <= j < 3 ==>
              DgDx(x, y, params, inputs).value[i][j]
              == DgDxEntry(x["Vdc"], y["P_ac"], inputs["v_pcc_d"], inputs["v_pcc_q"], i, j)
  {
    var v := x["Vdc"];
    assert v * v > 0.0;
  }

  /** How g_residual's component i moves when state j moves by h. */
  function ResidualChange(v: real, p: real, vd: real, vq: real, h: real, i: nat, j: nat): real
    requires v != 0.0 && (j == 2 ==> v + h != 0.0)
  {
    if i == 0 then (if j == 2 then p / v - p / (v + h) else 0.0)
    else if i == 1 then (if j == 0 then -1.5 * vd * h else if j == 1 then -1.5 * vq * h else 0.0)
    else (if j == 0 then -1.5 * vq * h else if j == 1 then 1.5 * vd * h else 0.0)
  }

  /** The residual values, one equation each. */
  lemma ResidualValues(x: map<string, real>, y: map<string, real>,
                       params: map<string, real>, inputs: map<string, real>)
    requires GResidual(x, y, params, inputs).Ok?
    ensures var g := GResidual(x, y, params, inputs).value;
            g["P_ac"] == y["P_ac"] - PCalc(x, inputs) && g["Q_ac"] == y["Q_ac"] - QCalc(x, inputs)
            && g["Idc"] == y["Idc"] - y["P_ac"] / x["Vdc"]
  {
  }

  /** How the computed powers move when state j moves by h. */
  lemma PowersChange(x: map<string, real>, inputs: map<string, real>, j: nat, h: real)
    requires HasKeys(x, StateKeys) && "v_pcc_d" in inputs && "v_pcc_q" in inputs && j < 3
    ensures var vd, vq, xp := inputs["v_pcc_d"], inputs["v_pcc_q"], Perturb(x, j, h);
            HasKeys(xp, StateKeys)
            && PCalc(xp, inputs) - PCalc(x, inputs) == (if j == 0 then 1.5 * vd * h else if j == 1 then 1.5 * vq * h else 0.0)
            && QCalc(xp, inputs) - QCalc(x, inputs) == (if j == 0 then 1.5 * vq * h else if j == 1 then -1.5 * vd * h else 0.0)
  {
  }

  lemma {:induction false} ResidualRowChange(x: map<string, real>, y: map<string, real>,
                                             params: map<string, real>, inputs: map<string, real>,
                                             i: nat, j: nat, h: real)
    requires GResidual(x, y, params, inputs).Ok? && i < 3 && j < 3
    requires GResidual(Perturb(x, j, h), y, params, inputs).Ok?
    requires j == 2 ==> x["Vdc"] + h != 0.0
    ensures GResidual(Perturb(x, j, h), y, params, inputs).value[AlgebraicKeys[i]]
            - GResidual(x, y, params, inputs).value[AlgebraicKeys[i]]
            == ResidualChange(x["Vdc"], y["P_ac"], inputs["v_pcc_d"], inputs["v_pcc_q"], h, i, j)
  {
    var xp := Perturb(x, j, h);
    var v, p := x["Vdc"], y["P_ac"];
    var g0, g1 := GResidual(x, y, params, inputs).value, GResidual(xp, y, params, inputs).value;
    assert g0["P_ac"] == p - PCalc(x, inputs) && g0["Q_ac"] == y["Q_ac"] - QCalc(x, inputs)
           && g0["Idc"] == y["Idc"] - p / v by {
      ResidualValues(x, y, params, inputs);
    }
    assert g1["P_ac"] == p - PCalc(xp, inputs) && g1["Q_ac"] == y["Q_ac"] - QCalc(xp, inputs)
           && g1["Idc"] == y["Idc"] - p / xp["Vdc"] by {
      ResidualValues(xp, y, params, inputs);
    }
    PowersChange(x, inputs, j, h);
    assert xp["Vdc"] == if j == 2 then v + h else v;
  }

  /** The power rows and the exact Idc entries: the change is h times the entry;
      the Vdc column of the Idc row leaves the remainder -h^2 P_ac / (Vdc^2 (Vdc + h)). */
  /** A change d of g against h times the Jacobian entry e: equal, except for
      the Idc row's Vdc column, where the remainder times Vdc^2 (Vdc + h) is -h^2 P_ac. */
  predicate IdcRemainderOrExact(d: real, e: real, v: real, p: real, h: real, i: nat, j: nat)
  {
    if i == 0 && j == 2 then (d - h * e) * (v * v * (v + h)) == -(h * h * p) else d == h * e
  }

  lemma ChangeAgainstEntry(v: real, p: real, vd: real, vq: real, h: real, i: nat, j: nat, d: real, e: real)
    requires v != 0.0 && (j == 2 ==> v + h != 0.0) && i < 3 && j < 3
    requires d == ResidualChange(v, p, vd, vq, h, i, j) && e == DgDxEntry(v, p, vd, vq, i, j)
    ensures IdcRemainderOrExact(d, e, v, p, h, i, j)
  {
    if i == 0 && j == 2 {
      RemainderTimesDenominator(v, p, h);
    }
  }

  /** The remainder of the Idc row, multiplied by Vdc^2 (Vdc + h), is -h^2 P_ac. */
  lemma RemainderTimesDenominator(v: real, p: real, h: real)
    requires v != 0.0 && v + h != 0.0
    ensures ((p / v - p / (v + h)) - h * (p / (v * v))) * (v * v * (v + h)) == -(h * h * p)
  {
    var w := v + h;
    var a, b, c := p / v, p / w, p / (v * v);
    assert a * v == p && b * w == p;
    assert c * (v * v) == p;
    assert a * (v * v * w) == p * v * w;
    assert b * (v * v * w) == p * v * v;
    assert c * (v * v * w) == p * w;
  }

  /** The change of g_residual's component i and entry (i, j) of dg_dx, as scalars. */
  lemma {:induction false} ChangeAndEntry(x: map<string, real>, y: map<string, real>,
                                          params: map<string, real>, inputs: map<string, real>,
                                          i: nat, j: nat, h: real)
    requires GResidual(x, y, params, inputs).Ok? && i < 3 && j < 3
    requires j == 2 ==> x["Vdc"] + h != 0.0
    ensures GResidual(Perturb(x, j, h), y, params, inputs).Ok?
    ensures DgDx(x, y, params, inputs).Ok?
    ensures var v, p, vd, vq := x["Vdc"], y["P_ac"], inputs["v_pcc_d"], inputs["v_pcc_q"];
            GResidual(Perturb(x, j, h), y, params, inputs).value[AlgebraicKeys[i]]
            - GResidual(x, y, params, inputs).value[AlgebraicKeys[i]]
            == ResidualChange(v, p, vd, vq, h, i, j)
            && DgDx(x, y, params, inputs).value[i][j] == DgDxEntry(v, p, vd, vq, i, j)
  {
    PerturbKeepsGKeys(x, y, params, inputs, j, h);
    ResidualRowChange(x, y, params, inputs, i, j, h);
    DgDxEntries(x, y, params, inputs);
  }

  /** dg_dx against g_residual.  The power rows are exact for every column
      (g_P and g_Q are affine in x).  In the Idc row the id and iq columns are
      exact and the Vdc column is the derivative: the remainder left over,
      times Vdc^2 (Vdc + h), is the second-order term -h^2 P_ac. */
  lemma {:induction false} DgDxMatchesResidual(x: map<string, real>, y: map<string, real>,
                                               params: map<string, real>, inputs: map<string, real>,
                                               i: nat, j: nat, h: real)
    requires GResidual(x, y, params, inputs).Ok? && i < 3 && j < 3
    requires j == 2 ==> x["Vdc"] + h != 0.0
    ensures GResidual(Perturb(x, j, h), y, params, inputs).Ok?
    ensures DgDx(x, y, params, inputs).Ok?
    ensures var k := AlgebraicKeys[i];
            IdcRemainderOrExact(GResidual(Perturb(x, j, h), y, params, inputs).value[k]
                                - GResidual(x, y, params, inputs).value[k],
                                DgDx(x, y, params, inputs).value[i][j], x["Vdc"], y["P_ac"], h, i, j)
  {
    ChangeAndEntry(x, y, params, inputs, i, j, h);
    var k := AlgebraicKeys[i];
    ChangeAgainstEntry(x["Vdc"], y["P_ac"], inputs["v_pcc_d"], inputs["v_pcc_q"], h, i, j,
                       GResidual(Perturb(x, j, h), y, params, inputs).value[k] - GResidual(x, y, params, inputs).value[k],
                       DgDx(x, y, params, inputs).value[i][j]);
  }

  /** dg_dy: reads Vdc only; Vdc = 0 raises. */
  function DgDy(x: map<string, real>, y: map<string, real>,
                params: map<string, real>, inputs: map<string, real>): (r: Result<Matrix>)
    ensures r.Ok? <==> "Vdc" in x && x["Vdc"] != 0.0
    ensures r.Err? ==> r.error.KeyError? || r.error == ZeroDivisionError
    ensures r.Ok? ==> Is3x3(r.value)
    // Unit upper-triangular, with -1/Vdc at (Idc, P_ac) its only off-diagonal entry.
    ensures r.Ok? ==> forall i, j :: 0 <= i < 3 && 0 <= j < 3 ==>
                        r.value[i][j] == (if i == j then 1.0 else if i == 0 && j == 1 then r.value[0][1] else 0.0)
    ensures r.Ok? ==> r.value[0][1] * x["Vdc"] == -1.0
  {
    var vdc :- Lookup(x, "Vdc");
    var dIdcDPac :- Div(-1.0, vdc);
    Ok([[1.0, dIdcDPac, 0.0],
        [0.0, 1.0, 0.0],
        [0.0, 0.0, 1.0]])
  }

  /** Entry (i, j) of dg_dy at Vdc = v. */
  function DgDyEntry(v: real, i: nat, j: nat): real
    requires v != 0.0
  {
    if i == j then 1.0 else if i == 0 && j == 1 then -1.0 / v else 0.0
  }

  lemma DgDyEntries(x: map<string, real>, y: map<string, real>,
                    params: map<string, real>, inputs: map<string, real>)
    requires DgDy(x, y, params, inputs).Ok?
    ensures forall i, j :: 0 <= i < 3 && 0 <= j < 3 ==>
              DgDy(x, y, params, inputs).value[i][j] == DgDyEntry(x["Vdc"], i, j)
  {
  }

  /** How g_residual's component i moves when y moves by d. */
  function ResidualYChange(v: real, d: seq<real>, i: nat): real
    requires v != 0.0 && |d| == 3
  {
    if i == 0 then d[0] - d[1] / v else if i == 1 then d[1] else d[2]
  }

  lemma {:induction false} ResidualYRowChange(x: map<string, real>, y: map<string, real>,
                                              params: map<string, real>, inputs: map<string, real>,
                                              d: seq<real>, i: nat)
    requires GResidual(x, y, params, inputs).Ok? && |d| == 3 && i < 3
    ensures GResidual(x, ShiftY(y, d), params, inputs).Ok?
    ensures GResidual(x, ShiftY(y, d), params, inputs).value[AlgebraicKeys[i]]
            - GResidual(x, y, params, inputs).value[AlgebraicKeys[i]]
            == ResidualYChange(x["Vdc"], d, i)
  {
    var y1 := ShiftY(y, d);
    assert GKeysPresent(x, y1, inputs);
    var v := x["Vdc"];
    var g0, g1 := GResidual(x, y, params, inputs).value, GResidual(x, y1, params, inputs).value;
    assert g0["P_ac"] == y["P_ac"] - PCalc(x, inputs) && g0["Q_ac"] == y["Q_ac"] - QCalc(x, inputs)
           && g0["Idc"] == y["Idc"] - y["P_ac"] / v by {
      ResidualValues(x, y, params, inputs);
    }
    assert g1["P_ac"] == y1["P_ac"] - PCalc(x, inputs) && g1["Q_ac"] == y1["Q_ac"] - QCalc(x, inputs)
           && g1["Idc"] == y1["Idc"] - y1["P_ac"] / v by {
      ResidualValues(x, y1, params, inputs);
    }
    assert y1["Idc"] == y["Idc"] + d[0] && y1["P_ac"] == y["P_ac"] + d[1] && y1["Q_ac"] == y["Q_ac"] + d[2];
    if i == 0 {
      IdcRowScalar(y["Idc"], y["P_ac"], d[0], d[1], v);
    }
  }

  /** Idc - P_ac / v moves by d0 - d1 / v when Idc moves by d0 and P_ac by d1. */
  lemma IdcRowScalar(idc: real, pac: real, d0: real, d1: real, v: real)
    requires v != 0.0
    ensures ((idc + d0) - (pac + d1) / v) - (idc - pac / v) == d0 - d1 / v
  {
    assert (pac + d1) / v == pac / v + d1 / v;
  }

  /** Row i of dg_dy, entry by entry. */
  lemma DgDyRow(x: map<string, real>, y: map<string, real>,
                params: map<string, real>, inputs: map<string, real>, i: nat)
    requires DgDy(x, y, params, inputs).Ok? && i < 3
    ensures DgDy(x, y, params, inputs).value[i][0] == DgDyEntry(x["Vdc"], i, 0)
    ensures DgDy(x, y, params, inputs).value[i][1] == DgDyEntry(x["Vdc"], i, 1)
    ensures DgDy(x, y, params, inputs).value[i][2] == DgDyEntry(x["Vdc"], i, 2)
  {
    DgDyEntries(x, y, params, inputs);
  }

  /** The scalar identity behind the affinity in y. */
  lemma YChangeIsProduct(v: real, d: seq<real>, i: nat, e0: real, e1: real, e2: real)
    requires v != 0.0 && |d| == 3 && i < 3
    requires e0 == DgDyEntry(v, i, 0) && e1 == DgDyEntry(v, i, 1) && e2 == DgDyEntry(v, i, 2)
    ensures ResidualYChange(v, d, i) == e0 * d[0] + e1 * d[1] + e2 * d[2]
  {
    if i == 0 {
      assert (-1.0 / v) * d[1] == -(d[1] / v);
    }
  }

  /** Row i of dg_dy times d is the change of component i of g. */
  lemma DgDyTimes(x: map<string, real>, y: map<string, real>,
                  params: map<string, real>, inputs: map<string, real>, d: seq<real>, i: nat)
    requires DgDy(x, y, params, inputs).Ok? && |d| == 3 && i < 3
    ensures var jac := DgDy(x, y, params, inputs).value;
            ResidualYChange(x["Vdc"], d, i) == jac[i][0] * d[0] + jac[i][1] * d[1] + jac[i][2] * d[2]
  {
    var jac := DgDy(x, y, params, inputs).value;
    DgDyRow(x, y, params, inputs, i);
    YChangeIsProduct(x["Vdc"], d, i, jac[i][0], jac[i][1], jac[i][2]);
  }

  /** g is affine in y and dg_dy is its exact Jacobian:
      g(x, y + d) = g(x, y) + dg_dy * d, component by component. */
  lemma {:induction false} ResidualAffineInY(x: map<string, real>, y: map<string, real>,
                                             params: map<string, real>, inputs: map<string, real>,
                                             d: seq<real>, i: nat)
    requires GResidual(x, y, params, inputs).Ok? && |d| == 3 && i < 3
    ensures GResidual(x, ShiftY(y, d), params, inputs).Ok?
    ensures DgDy(x, y, params, inputs).Ok?
    ensures var jac := DgDy(x, y, params, inputs).value;
            GResidual(x, ShiftY(y, d), params, inputs).value[AlgebraicKeys[i]]
            == GResidual(x, y, params, inputs).value[AlgebraicKeys[i]]
               + (jac[i][0] * d[0] + jac[i][1] * d[1] + jac[i][2] * d[2])
  {
    ResidualYRowChange(x, y, params, inputs, d, i);
    DgDyTimes(x, y, params, inputs, d, i);
  }

  /** None of the three Jacobians depends on the converter voltages. */
  lemma JacobiansIgnoreConverterVoltages(x: map<string, real>, y: map<string, real>,
                                         params: map<string, real>, inputs: map<string, real>, a: real, b: real)
    ensures var other := inputs["v_conv_d" := a]["v_conv_q" := b];
            DfDx(x, y, params, other) == DfDx(x, y, params, inputs)
            && DgDx(x, y, params, other) == DgDx(x, y, params, inputs)
            && DgDy(x, y, params, other) == DgDy(x, y, params, inputs)
  {
    var other := inputs["v_conv_d" := a]["v_conv_q" := b];
    assert ("v_pcc_d" in other) == ("v_pcc_d" in inputs);
    assert ("v_pcc_q" in other) == ("v_pcc_q" in inputs);
  }
}
