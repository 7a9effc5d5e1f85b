// The RMS model of the converter in dq coordinates (src/vscsim/model/dae.py):
// the dynamic right-hand side f(x, y) and the algebraic residual g(x, y).

module Dae {
  import opened Common

  /** The subscriptions f_rhs performs, in order. */
  function FReads(x: map<string, real>, y: map<string, real>,
                  params: map<string, real>, inputs: map<string, real>): Reads
  {
    [(x, "id"), (x, "iq"), (x, "Vdc"), (y, "Idc"),
     (params, "L"), (params, "R"), (params, "Cdc"), (params, "omega"),
     (inputs, "v_conv_d"), (inputs, "v_conv_q"), (inputs, "v_pcc_d"), (inputs, "v_pcc_q")]
  }

  /** Every key f_rhs reads is present. */
  predicate FKeysPresent(x: map<string, real>, y: map<string, real>,
                         params: map<string, real>, inputs: map<string, real>)
  {
    "id" in x && "iq" in x && "Vdc" in x && "Idc" in y
    && "L" in params && "R" in params && "Cdc" in params && "omega" in params
    && "v_conv_d" in inputs && "v_conv_q" in inputs && "v_pcc_d" in inputs && "v_pcc_q" in inputs
  }

  lemma FReadsPresent(x: map<string, real>, y: map<string, real>,
                      params: map<string, real>, inputs: map<string, real>)
    ensures AllPresent(FReads(x, y, params, inputs)) <==> FKeysPresent(x, y, params, inputs)
  {
    var rs := FReads(x, y, params, inputs);
    if AllPresent(rs) {
      assert rs[0].1 in rs[0].0 && rs[1].1 in rs[1].0 && rs[2].1 in rs[2].0 && rs[3].1 in rs[3].0 && rs[4].1 in rs[4].0 && rs[5].1 in rs[5].0 && rs[6].1 in rs[6].0 && rs[7].1 in rs[7].0 && rs[8].1 in rs[8].0 && rs[9].1 in rs[9].0 && rs[10].1 in rs[10].0 && rs[11].1 in rs[11].0;
    }
  }

  /** f_rhs: the state derivatives x_dot = f(x, y).  The first missing key
      raises KeyError; L = 0 or Cdc = 0 raises ZeroDivisionError. */
  function FRhs(x: map<string, real>, y: map<string, real>,
                params: map<string, real>, inputs: map<string, real>): (r: Result<map<string, real>>)
    ensures r.Ok? <==> FKeysPresent(x, y, params, inputs) && params["L"] != 0.0 && params["Cdc"] != 0.0
    ensures r.Err? ==> r.error.KeyError? || r.error == ZeroDivisionError
    ensures r.Ok? ==> r.value.Keys == {"id", "iq", "Vdc"}
    // L di_d/dt = v_conv_d - R id + omega L iq - v_pcc_d
    ensures r.Ok? ==> params["L"] * r.value["id"]
                      == inputs["v_conv_d"] - params["R"] * x["id"]
                         + params["omega"] * params["L"] * x["iq"] - inputs["v_pcc_d"]
    // L di_q/dt = v_conv_q - R iq - omega L id - v_pcc_q
    ensures r.Ok? ==> params["L"] * r.value["iq"]
                      == inputs["v_conv_q"] - params["R"] * x["iq"]
                         - params["omega"] * params["L"] * x["id"] - inputs["v_pcc_q"]
    // Cdc dVdc/dt = Idc
    ensures r.Ok? ==> params["Cdc"] * r.value["Vdc"] == y["Idc"]
  {
    FReadsPresent(x, y, params, inputs);
    if !FKeysPresent(x, y, params, inputs) then Err(KeyError(FirstMissing(FReads(x, y, params, inputs))))
    else if params["L"] == 0.0 || params["Cdc"] == 0.0 then Err(ZeroDivisionError)
    else
      var id, iq, idc := x["id"], x["iq"], y["Idc"];
      var l, res, cdc, omega := params["L"], params["R"], params["Cdc"], params["omega"];
      var vConvD, vConvQ := inputs["v_conv_d"], inputs["v_conv_q"];
      var vPccD, vPccQ := inputs["v_pcc_d"], inputs["v_pcc_q"];
      Ok(map["id" := (vConvD - res * id + omega * l * iq - vPccD) / l,
             "iq" := (vConvQ - res * iq - omega * l * id - vPccQ) / l,
             "Vdc" := idc / cdc])
  }

  /** dVdc/dt depends on Idc and Cdc only: not on id, iq, Vdc, the other
      parameters or any input. */
  lemma FRhsVdcOnlyFromIdc(x1: map<string, real>, y1: map<string, real>, p1: map<string, real>, in1: map<string, real>,
                           x2: map<string, real>, y2: map<string, real>, p2: map<string, real>, in2: map<string, real>)
    requires FRhs(x1, y1, p1, in1).Ok? && FRhs(x2, y2, p2, in2).Ok?
    requires y1["Idc"] == y2["Idc"] && p1["Cdc"] == p2["Cdc"]
    ensures FRhs(x1, y1, p1, in1).value["Vdc"] == FRhs(x2, y2, p2, in2).value["Vdc"]
  {
    var a, b := FRhs(x1, y1, p1, in1).value["Vdc"], FRhs(x2, y2, p2, in2).value["Vdc"];
    assert p1["Cdc"] * a == p1["Cdc"] * b;
  }

  /** The first unit test's operating point: f = (1, 0, 3). */
  lemma FRhsSimpleCase()
    ensures FRhs(map["id" := 1.0, "iq" := 0.0, "Vdc" := 2.0],
                 map["Idc" := 3.0, "P_ac" := 0.0, "Q_ac" := 0.0],
                 map["L" := 1.0, "R" := 0.0, "Cdc" := 1.0, "omega" := 0.0],
                 map["v_conv_d" := 1.0, "v_conv_q" := 0.0, "v_pcc_d" := 0.0, "v_pcc_q" := 0.0])
            == Ok(map["id" := 1.0, "iq" := 0.0, "Vdc" := 3.0])
  {
  }

  /** The subscriptions g_residual performs, in order. */
  function GReads(x: map<string, real>, y: map<string, real>, inputs: map<string, real>): Reads
  {
    [(x, "id"), (x, "iq"), (x, "Vdc"), (y, "Idc"), (y, "P_ac"), (y, "Q_ac"),
     (inputs, "v_pcc_d"), (inputs, "v_pcc_q")]
  }

  /** Every key g_residual reads is present. */
  predicate GKeysPresent(x: map<string, real>, y: map<string, real>, inputs: map<string, real>)
  {
    "id" in x && "iq" in x && "Vdc" in x && "Idc" in y && "P_ac" in y && "Q_ac" in y
    && "v_pcc_d" in inputs && "v_pcc_q" in inputs
  }

  lemma GReadsPresent(x: map<string, real>, y: map<string, real>, inputs: map<string, real>)
    ensures AllPresent(GReads(x, y, inputs)) <==> GKeysPresent(x, y, inputs)
  {
    var rs := GReads(x, y, inputs);
    if AllPresent(rs) {
      assert rs[0].1 in rs[0].0 && rs[1].1 in rs[1].0 && rs[2].1 in rs[2].0 && rs[3].1 in rs[3].0 && rs[4].1 in rs[4].0 && rs[5].1 in rs[5].0 && rs[6].1 in rs[6].0 && rs[7].1 in rs[7].0;
    }
  }

  /** Active power the PCC voltage and the currents inject: 1.5 (v_d id + v_q iq). */
  function PCalc(x: map<string, real>, inputs: map<string, real>): (p: real)
    requires HasKeys(x, StateKeys) && "v_pcc_d" in inputs && "v_pcc_q" in inputs
    ensures inputs["v_pcc_q"] == 0.0 ==> p == 1.5 * inputs["v_pcc_d"] * x["id"]
    ensures x["id"] == 0.0 && x["iq"] == 0.0 ==> p == 0.0
  {
    1.5 * (inputs["v_pcc_d"] * x["id"] + inputs["v_pcc_q"] * x["iq"])
  }

  /** Reactive power: 1.5 (v_q id - v_d iq). */
  function QCalc(x: map<string, real>, inputs: map<string, real>): (q: real)
    requires HasKeys(x, StateKeys) && "v_pcc_d" in inputs && "v_pcc_q" in inputs
    ensures inputs["v_pcc_q"] == 0.0 ==> q == -1.5 * inputs["v_pcc_d"] * x["iq"]
    ensures x["id"] == 0.0 && x["iq"] == 0.0 ==> q == 0.0
  {
    1.5 * (inputs["v_pcc_q"] * x["id"] - inputs["v_pcc_d"] * x["iq"])
  }

  /** The product of two complex numbers given as (real part, imaginary part). */
  function ComplexMul(a: (real, real), b: (real, real)): (real, real)
  {
    (a.0 * b.0 - a.1 * b.1, a.0 * b.1 + a.1 * b.0)
  }

  /** The complex conjugate. */
  function Conj(a: (real, real)): (real, real)
  {
    (a.0, -a.1)
  }

  /** P and Q are the real and imaginary parts of the complex power
      S = 1.5 v conj(i), with v = v_d + j v_q and i = id + j iq, for every
      operating point. */
  lemma PowerIsComplexProduct(x: map<string, real>, inputs: map<string, real>)
    requires HasKeys(x, StateKeys) && "v_pcc_d" in inputs && "v_pcc_q" in inputs
    ensures var s := ComplexMul((inputs["v_pcc_d"], inputs["v_pcc_q"]), Conj((x["id"], x["iq"])));
            PCalc(x, inputs) == 1.5 * s.0 && QCalc(x, inputs) == 1.5 * s.1
  {
  }

  /** g_residual: g(x, y) for the three algebraic equations.  params is never
      read.  A missing key raises KeyError; Vdc = 0 raises ZeroDivisionError. */
  function GResidual(x: map<string, real>, y: map<string, real>,
                     params: map<string, real>, inputs: map<string, real>): (r: Result<map<string, real>>)
    ensures r.Ok? <==> GKeysPresent(x, y, inputs) && x["Vdc"] != 0.0
    ensures r.Err? ==> r.error.KeyError? || r.error == ZeroDivisionError
    ensures r.Ok? ==> r.value.Keys == {"Idc", "P_ac", "Q_ac"}
    // Each residual vanishes exactly when its equation holds.
    ensures r.Ok? ==> (r.value["P_ac"] == 0.0 <==> y["P_ac"] == PCalc(x, inputs))
    ensures r.Ok? ==> (r.value["Q_ac"] == 0.0 <==> y["Q_ac"] == QCalc(x, inputs))
    ensures r.Ok? ==> (r.value["Idc"] == 0.0 <==> y["Idc"] * x["Vdc"] == y["P_ac"])
  {
    GReadsPresent(x, y, inputs);
    if !GKeysPresent(x, y, inputs) then Err(KeyError(FirstMissing(GReads(x, y, inputs))))
    else if x["Vdc"] == 0.0 then Err(ZeroDivisionError)
    else
      var id, iq, vdc := x["id"], x["iq"], x["Vdc"];
      var idc, pAc, qAc := y["Idc"], y["P_ac"], y["Q_ac"];
      var vPccD, vPccQ := inputs["v_pcc_d"], inputs["v_pcc_q"];
      var pCalc := 1.5 * (vPccD * id + vPccQ * iq);
      var qCalc := 1.5 * (vPccQ * id - vPccD * iq);
      var idcCalc := pAc / vdc;
      Ok(map["Idc" := idc - idcCalc, "P_ac" := pAc - pCalc, "Q_ac" := qAc - qCalc])
  }

  /** g_residual never looks at params. */
  lemma GResidualIgnoresParams(x: map<string, real>, y: map<string, real>, inputs: map<string, real>,
                               p1: map<string, real>, p2: map<string, real>)
    ensures GResidual(x, y, p1, inputs) == GResidual(x, y, p2, inputs)
  {
  }

  /** The consistent algebraic point for fixed x: P_ac and Q_ac from the
      power formulas and Idc = P_ac / Vdc; other keys of y are kept. */
  function ConsistentY(x: map<string, real>, y: map<string, real>, inputs: map<string, real>): (r: map<string, real>)
    requires HasKeys(x, StateKeys) && "v_pcc_d" in inputs && "v_pcc_q" in inputs && x["Vdc"] != 0.0
    ensures r.Keys == y.Keys + {"Idc", "P_ac", "Q_ac"}
  {
    y["Idc" := PCalc(x, inputs) / x["Vdc"]]["P_ac" := PCalc(x, inputs)]["Q_ac" := QCalc(x, inputs)]
  }

  /** The residual is zero exactly at the consistent point (test_model_dae's
      power-consistency case is an instance). */
  lemma {:induction false} ResidualZeroIffConsistent(x: map<string, real>, y: map<string, real>,
                                                     params: map<string, real>, inputs: map<string, real>)
    requires GKeysPresent(x, y, inputs) && x["Vdc"] != 0.0
    ensures GResidual(x, y, params, inputs) == Ok(map["Idc" := 0.0, "P_ac" := 0.0, "Q_ac" := 0.0])
            <==> y == ConsistentY(x, y, inputs)
  {
    var g := GResidual(x, y, params, inputs).value;
    var c := ConsistentY(x, y, inputs);
    var z := map["Idc" := 0.0, "P_ac" := 0.0, "Q_ac" := 0.0];
    if g == z {
      assert y["P_ac"] == PCalc(x, inputs);
      assert y["Idc"] * x["Vdc"] == PCalc(x, inputs);
      assert y["Idc"] == PCalc(x, inputs) / x["Vdc"];
      assert y.Keys == c.Keys;
      assert forall k :: k in y ==> y[k] == c[k];
    }
    if y == c {
      assert y["Idc"] * x["Vdc"] == y["P_ac"];
      assert g.Keys == z.Keys;
      assert g["Idc"] == 0.0 && g["P_ac"] == 0.0 && g["Q_ac"] == 0.0;
    }
  }
}
