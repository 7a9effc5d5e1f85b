// The outer controller: current references from the scenario's control
// mode (src/vscsim/vsc/control_external.py).  The time, the states, the
// algebraic variables and the parameters it receives are never read, so
// they are not parameters of the model.

module ControlExternal {
  import opened Common

  /** The 1.5 of the dq power equations. */
  const PowerFactor: real := 1.5

  /** P_ac = 1.5 (v_d id + v_q iq). */
  function ActivePower(vd: real, vq: real, id: real, iq: real): real
  {
    PowerFactor * (vd * id + vq * iq)
  }

  /** Q_ac = 1.5 (v_q id - v_d iq). */
  function ReactivePower(vd: real, vq: real, id: real, iq: real): real
  {
    PowerFactor * (vq * id - vd * iq)
  }

  /** The determinant -(v_d^2 + v_q^2) of the 2x2 system. */
  function Det(vd: real, vq: real): real
  {
    vd * (-vd) - vq * vq
  }

  /** The numerators of the inverse applied to (sP, sQ). */
  function NumeratorD(vd: real, vq: real, sP: real, sQ: real): real
  {
    -vd * sP - vq * sQ
  }

  function NumeratorQ(vd: real, vq: real, sP: real, sQ: real): real
  {
    -vq * sP + vd * sQ
  }

  /** _compute_currents_from_pq: the solution of the power equations for
      (id, iq), or (0, 0) when the determinant is zero. */
  function CurrentsFromPq(pRef: real, qRef: real, vd: real, vq: real): (r: (real, real))
    ensures Det(vd, vq) == 0.0 ==> r == (0.0, 0.0)
  {
    var sP := pRef / PowerFactor;
    var sQ := qRef / PowerFactor;
    var det := Det(vd, vq);
    if det == 0.0 then (0.0, 0.0)
    else
      var invDet := 1.0 / det;
      (invDet * NumeratorD(vd, vq, sP, sQ), invDet * NumeratorQ(vd, vq, sP, sQ))
  }

  /** A non-zero PCC voltage makes the determinant strictly negative. */
  lemma DetNegative(vd: real, vq: real)
    requires vd != 0.0 || vq != 0.0
    ensures Det(vd, vq) < 0.0
  {
    calc {
      Det(vd, vq);
      ==
      vd * (-vd) - vq * vq;
      <
      0.0;
    }
  }

  /** The determinant is zero exactly when both PCC voltages are, so the
      (0, 0) fallback is taken only for a zero voltage. */
  lemma DetZero(vd: real, vq: real)
    ensures Det(vd, vq) == 0.0 <==> vd == 0.0 && vq == 0.0
  {
    if vd != 0.0 || vq != 0.0 {
      DetNegative(vd, vq);
    }
  }

  /** Away from a zero determinant the currents are the inverse of the
      2x2 system applied to (P_ref / 1.5, Q_ref / 1.5). */
  lemma CurrentsNonSingular(pRef: real, qRef: real, vd: real, vq: real)
    requires Det(vd, vq) != 0.0
    ensures CurrentsFromPq(pRef, qRef, vd, vq)
            == ((1.0 / Det(vd, vq)) * NumeratorD(vd, vq, pRef / PowerFactor, qRef / PowerFactor),
                (1.0 / Det(vd, vq)) * NumeratorQ(vd, vq, pRef / PowerFactor, qRef / PowerFactor))
  {
  }

  /** v_d A + v_q B = det sP and v_q A - v_d B = det sQ for the numerators
      A, B of the inverse. */
  lemma NumeratorIdentities(vd: real, vq: real, sP: real, sQ: real)
    ensures vd * NumeratorD(vd, vq, sP, sQ) + vq * NumeratorQ(vd, vq, sP, sQ) == Det(vd, vq) * sP
    ensures vq * NumeratorD(vd, vq, sP, sQ) - vd * NumeratorQ(vd, vq, sP, sQ) == Det(vd, vq) * sQ
  {
  }

  /** Multiplying equals by the same factor. */
  lemma MulEq(c: real, x: real, y: real)
    requires x == y
    ensures c * x == c * y
  {
  }

  /** u (c a) + v (c b) = c (u a + v b), and the same with a minus. */
  lemma Factor(u: real, v: real, c: real, a: real, b: real)
    ensures u * (c * a) + v * (c * b) == c * (u * a + v * b)
    ensures u * (c * a) - v * (c * b) == c * (u * a - v * b)
  {
  }

  lemma InverseTimes(d: real, s: real)
    requires d != 0.0
    ensures (1.0 / d) * (d * s) == s
  {
  }

  /** If (a, b) solve the system scaled by d, then (a / d, b / d) produce
      the powers 1.5 sP and 1.5 sQ. */
  lemma PowerOfInverse(vd: real, vq: real, d: real, a: real, b: real, sP: real, sQ: real)
    requires d != 0.0
    requires vd * a + vq * b == d * sP
    requires vq * a - vd * b == d * sQ
    ensures ActivePower(vd, vq, (1.0 / d) * a, (1.0 / d) * b) == PowerFactor * sP
    ensures ReactivePower(vd, vq, (1.0 / d) * a, (1.0 / d) * b) == PowerFactor * sQ
  {
    Factor(vd, vq, 1.0 / d, a, b);
    Factor(vq, vd, 1.0 / d, a, b);
    MulEq(1.0 / d, vd * a + vq * b, d * sP);
    MulEq(1.0 / d, vq * a - vd * b, d * sQ);
    InverseTimes(d, sP);
    InverseTimes(d, sQ);
  }

  /** PQ round trip: for a non-zero PCC voltage the currents produce
      exactly the requested active and reactive power. */
  lemma PqRoundTrip(pRef: real, qRef: real, vd: real, vq: real)
    requires vd != 0.0 || vq != 0.0
    ensures var r := CurrentsFromPq(pRef, qRef, vd, vq);
            ActivePower(vd, vq, r.0, r.1) == pRef && ReactivePower(vd, vq, r.0, r.1) == qRef
  {
    DetNegative(vd, vq);
    CurrentsNonSingular(pRef, qRef, vd, vq);
    NumeratorIdentities(vd, vq, pRef / PowerFactor, qRef / PowerFactor);
    PowerOfInverse(vd, vq, Det(vd, vq),
                   NumeratorD(vd, vq, pRef / PowerFactor, qRef / PowerFactor),
                   NumeratorQ(vd, vq, pRef / PowerFactor, qRef / PowerFactor),
                   pRef / PowerFactor, qRef / PowerFactor);
  }

  /** Eliminating one unknown at a time from the two equations. */
  lemma SolvedComponents(vd: real, vq: real, id: real, iq: real, sP: real, sQ: real)
    requires vd * id + vq * iq == sP && vq * id - vd * iq == sQ
    ensures NumeratorD(vd, vq, sP, sQ) == Det(vd, vq) * id
    ensures NumeratorQ(vd, vq, sP, sQ) == Det(vd, vq) * iq
  {
  }

  /** 1.5 x = p gives x = p / 1.5. */
  lemma DivideOut(x: real, p: real)
    requires PowerFactor * x == p
    ensures x == p / PowerFactor
  {
  }

  /** (d x) / d = x. */
  lemma Unscale(d: real, a: real, x: real)
    requires d != 0.0
    requires a == d * x
    ensures (1.0 / d) * a == x
  {
    MulEq(1.0 / d, a, d * x);
    InverseTimes(d, x);
  }

  /** The system has no other solution: currents that produce the requested
      powers are the ones computed. */
  lemma PqUnique(pRef: real, qRef: real, vd: real, vq: real, id: real, iq: real)
    requires vd != 0.0 || vq != 0.0
    requires ActivePower(vd, vq, id, iq) == pRef && ReactivePower(vd, vq, id, iq) == qRef
    ensures CurrentsFromPq(pRef, qRef, vd, vq) == (id, iq)
  {
    DetNegative(vd, vq);
    CurrentsNonSingular(pRef, qRef, vd, vq);
    DivideOut(vd * id + vq * iq, pRef);
    DivideOut(vq * id - vd * iq, qRef);
    SolvedComponents(vd, vq, id, iq, pRef / PowerFactor, qRef / PowerFactor);
    Unscale(Det(vd, vq), NumeratorD(vd, vq, pRef / PowerFactor, qRef / PowerFactor), id);
    Unscale(Det(vd, vq), NumeratorQ(vd, vq, pRef / PowerFactor, qRef / PowerFactor), iq);
    PairEq((1.0 / Det(vd, vq)) * NumeratorD(vd, vq, pRef / PowerFactor, qRef / PowerFactor),
           (1.0 / Det(vd, vq)) * NumeratorQ(vd, vq, pRef / PowerFactor, qRef / PowerFactor), id, iq);
  }

  lemma PairEq(x: real, y: real, id: real, iq: real)
    requires x == id && y == iq
    ensures (x, y) == (id, iq)
  {
  }

  // ---------------------------------------------------------------------
  // compute_current_references
  // ---------------------------------------------------------------------

  /** A value used in float arithmetic: numbers and bools work, anything
      else raises TypeError. */
  function Numeric(v: Value): (r: Result<real>)
    ensures r.Ok? <==> v.VNum? || v.VBool?
    ensures v.VNum? ==> r == Ok(v.x)
    ensures r.Err? ==> r.error == TypeError
  {
    match v
    case VNum(x) => Ok(x)
    case VBool(b) => Ok(if b then 1.0 else 0.0)
    case _ => Err(TypeError)
  }

  /** `scenario.get("control_mode", "PQ")`. */
  const DefaultMode: Value := VStr("PQ")

  /** The reference dict {id_ref, iq_ref}. */
  function Refs(idRef: Value, iqRef: Value): map<string, Value>
  {
    map["id_ref" := idRef, "iq_ref" := iqRef]
  }

  /** compute_current_references: PQ inverts the power equations with the
      scenario's P_ref, Q_ref, v_pcc_d and v_pcc_q (KeyError for the first
      one missing, TypeError for a non-numeric one); VdcQ passes id_ref and
      iq_ref through; any other mode gives zero currents. */
  function ComputeCurrentReferences(scenario: map<string, Value>): (r: Result<map<string, Value>>)
    ensures r.Ok? ==> r.value.Keys == {"id_ref", "iq_ref"}
    ensures ValueOr(scenario, "control_mode", DefaultMode) != VStr("PQ") && ValueOr(scenario, "control_mode", DefaultMode) != VStr("VdcQ") ==> r == Ok(Refs(VNum(0.0), VNum(0.0)))
    ensures ValueOr(scenario, "control_mode", DefaultMode) == VStr("VdcQ") && "id_ref" in scenario && "iq_ref" in scenario
            ==> r == Ok(Refs(scenario["id_ref"], scenario["iq_ref"]))
    ensures ValueOr(scenario, "control_mode", DefaultMode) == VStr("VdcQ") && "id_ref" !in scenario ==> r == Err(KeyError("id_ref"))
    ensures ValueOr(scenario, "control_mode", DefaultMode) == VStr("VdcQ") && "id_ref" in scenario && "iq_ref" !in scenario
            ==> r == Err(KeyError("iq_ref"))
  {
    var mode := ValueOr(scenario, "control_mode", DefaultMode);
    if mode == VStr("PQ") then
      var pV :- Lookup(scenario, "P_ref");
      var qV :- Lookup(scenario, "Q_ref");
      var dV :- Lookup(scenario, "v_pcc_d");
      var vqV :- Lookup(scenario, "v_pcc_q");
      var p :- Numeric(pV);
      var q :- Numeric(qV);
      var vd :- Numeric(dV);
      var vq :- Numeric(vqV);
      var (id, iq) := CurrentsFromPq(p, q, vd, vq);
      Ok(Refs(VNum(id), VNum(iq)))
    else if mode == VStr("VdcQ") then
      var idRef :- Lookup(scenario, "id_ref");
      var iqRef :- Lookup(scenario, "iq_ref");
      Ok(Refs(idRef, iqRef))
    else
      Ok(Refs(VNum(0.0), VNum(0.0)))
  }

  /** The PQ mode's keys, in the order they are read. */
  const PqKeys: seq<string> := ["P_ref", "Q_ref", "v_pcc_d", "v_pcc_q"]

  /** A scenario in PQ mode (explicit or by default) with numeric P_ref,
      Q_ref, v_pcc_d and v_pcc_q. */
  predicate PqReady(scenario: map<string, Value>)
  {
    ValueOr(scenario, "control_mode", DefaultMode) == VStr("PQ")
    && (forall k :: k in PqKeys ==> k in scenario && (scenario[k].VNum? || scenario[k].VBool?))
  }

  /** In PQ mode with a non-zero PCC voltage the references produce the
      scenario's P_ref and Q_ref through the model's power equations, and a
      missing control_mode counts as PQ. */
  lemma PqReferencesDeliverPower(scenario: map<string, Value>, p: real, q: real, vd: real, vq: real)
    requires "control_mode" !in scenario || scenario["control_mode"] == VStr("PQ")
    requires "P_ref" in scenario && scenario["P_ref"] == VNum(p)
    requires "Q_ref" in scenario && scenario["Q_ref"] == VNum(q)
    requires "v_pcc_d" in scenario && scenario["v_pcc_d"] == VNum(vd)
    requires "v_pcc_q" in scenario && scenario["v_pcc_q"] == VNum(vq)
    requires vd != 0.0 || vq != 0.0
    ensures var r := ComputeCurrentReferences(scenario);
            r.Ok? && r.value["id_ref"].VNum? && r.value["iq_ref"].VNum?
            && ActivePower(vd, vq, r.value["id_ref"].x, r.value["iq_ref"].x) == p
            && ReactivePower(vd, vq, r.value["id_ref"].x, r.value["iq_ref"].x) == q
  {
    var c := CurrentsFromPq(p, q, vd, vq);
    assert ComputeCurrentReferences(scenario) == Ok(Refs(VNum(c.0), VNum(c.1)));
    PqRoundTrip(p, q, vd, vq);
  }

  /** In PQ mode the result is an error exactly when a key is missing or a
      value is not numeric; the error is KeyError for the first missing key. */
  lemma PqErrors(scenario: map<string, Value>)
    requires ValueOr(scenario, "control_mode", DefaultMode) == VStr("PQ")
    ensures ComputeCurrentReferences(scenario).Ok? <==> PqReady(scenario)
    ensures (exists k :: k in PqKeys && k !in scenario) ==>
              exists i :: 0 <= i < 4 && PqKeys[i] !in scenario
                          && ComputeCurrentReferences(scenario) == Err(KeyError(PqKeys[i]))
                          && forall j :: 0 <= j < i ==> PqKeys[j] in scenario
  {
    var r := ComputeCurrentReferences(scenario);
    if "P_ref" !in scenario {
      assert r == Err(KeyError(PqKeys[0]));
    } else if "Q_ref" !in scenario {
      assert r == Err(KeyError(PqKeys[1]));
    } else if "v_pcc_d" !in scenario {
      assert r == Err(KeyError(PqKeys[2]));
    } else if "v_pcc_q" !in scenario {
      assert r == Err(KeyError(PqKeys[3]));
    }
  }
}
