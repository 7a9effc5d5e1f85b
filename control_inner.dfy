// The inner current controller (src/vscsim/vsc/control_inner.py): a
// proportional law per dq axis, with no integrator state of its own.

module ControlInner {
  import opened Common

  /** The keys of the voltage reference dict. */
  const VoltageKeys: set<string> := {"v_conv_d_ref", "v_conv_q_ref"}

  /** Kp * (reference - measured): the converter voltage one axis asks for. */
  function AxisVoltage(kp: real, reference: real, measured: real): (v: real)
    ensures kp != 0.0 ==> (v == 0.0 <==> reference == measured)
  {
    kp * (reference - measured)
  }

  /** `dict(controller_state or {})`. */
  function StateOut(controllerState: Option<map<string, real>>): map<string, real>
  {
    match controllerState
    case None => map[]
    case Some(m) => m
  }

  /** compute_converter_voltage_references: reads id then iq from x
      (KeyError for the first missing one), takes the gains Kp_id and Kp_iq
      from params with 0.0 as default, and returns the two voltage
      references together with the controller state, passed through. */
  function VoltageReferences(idRef: real, iqRef: real, x: map<string, real>, params: map<string, real>,
                             controllerState: Option<map<string, real>>)
    : (r: Result<(map<string, real>, map<string, real>)>)
    ensures r.Ok? <==> "id" in x && "iq" in x
    ensures "id" !in x ==> r == Err(KeyError("id"))
    ensures "id" in x && "iq" !in x ==> r == Err(KeyError("iq"))
    ensures r.Ok? ==> r.value.0.Keys == VoltageKeys
    ensures r.Ok? ==> r.value.1 == StateOut(controllerState)
  {
    var id :- Lookup(x, "id");
    var iq :- Lookup(x, "iq");
    var kpId := GetOr(params, "Kp_id", 0.0);
    var kpIq := GetOr(params, "Kp_iq", 0.0);
    var voltages := map["v_conv_d_ref" := AxisVoltage(kpId, idRef, id),
                        "v_conv_q_ref" := AxisVoltage(kpIq, iqRef, iq)];
    Ok((voltages, StateOut(controllerState)))
  }

  /** Both axes at once: the d reference follows the d error with Kp_id and
      the q reference the q error with Kp_iq. */
  lemma VoltagesFollowErrors(idRef: real, iqRef: real, x: map<string, real>, params: map<string, real>,
                             controllerState: Option<map<string, real>>)
    requires "id" in x && "iq" in x
    ensures var r := VoltageReferences(idRef, iqRef, x, params, controllerState);
            r.Ok? && r.value.0["v_conv_d_ref"] == AxisVoltage(GetOr(params, "Kp_id", 0.0), idRef, x["id"])
            && r.value.0["v_conv_q_ref"] == AxisVoltage(GetOr(params, "Kp_iq", 0.0), iqRef, x["iq"])
  {
  }

  /** No error, no voltage, whatever the gain. */
  lemma AxisVoltageAtReference(kp: real, measured: real)
    ensures AxisVoltage(kp, measured, measured) == 0.0
  {
    calc {
      AxisVoltage(kp, measured, measured);
      ==
      kp * (measured - measured);
      ==
      0.0;
    }
  }

  /** A zero gain (the default when the gain is missing) opens the loop. */
  lemma AxisVoltageZeroGain(reference: real, measured: real)
    ensures AxisVoltage(0.0, reference, measured) == 0.0
  {
  }

  /** With a positive gain the voltage pushes the current toward its
      reference: positive below it, negative above it. */
  lemma AxisVoltageSign(kp: real, reference: real, measured: real)
    requires kp > 0.0
    ensures AxisVoltage(kp, reference, measured) > 0.0 <==> reference > measured
    ensures AxisVoltage(kp, reference, measured) < 0.0 <==> reference < measured
  {
    if reference > measured {
      assert kp * (reference - measured) > 0.0 * (reference - measured);
    } else if reference < measured {
      assert kp * (measured - reference) > 0.0 * (measured - reference);
    }
  }

  /** The law is additive in the error: the voltage for the sum of two
      errors is the sum of their voltages. */
  lemma AxisVoltageLinear(kp: real, r1: real, m1: real, r2: real, m2: real)
    ensures AxisVoltage(kp, r1 + r2, m1 + m2) == AxisVoltage(kp, r1, m1) + AxisVoltage(kp, r2, m2)
  {
    calc {
      AxisVoltage(kp, r1 + r2, m1 + m2);
      ==
      kp * ((r1 + r2) - (m1 + m2));
      ==
      kp * (r1 - m1) + kp * (r2 - m2);
      ==
      AxisVoltage(kp, r1, m1) + AxisVoltage(kp, r2, m2);
    }
  }

  /** When both currents equal their references the controller asks for
      zero voltage on both axes, whatever the gains. */
  lemma ZeroErrorZeroVoltage(x: map<string, real>, params: map<string, real>,
                             controllerState: Option<map<string, real>>)
    requires "id" in x && "iq" in x
    ensures var r := VoltageReferences(x["id"], x["iq"], x, params, controllerState);
            r.Ok? && r.value.0 == map["v_conv_d_ref" := 0.0, "v_conv_q_ref" := 0.0]
  {
    AxisVoltageAtReference(GetOr(params, "Kp_id", 0.0), x["id"]);
    AxisVoltageAtReference(GetOr(params, "Kp_iq", 0.0), x["iq"]);
  }

  /** Without gains in params both references are zero. */
  lemma MissingGainsGiveZero(idRef: real, iqRef: real, x: map<string, real>, params: map<string, real>,
                             controllerState: Option<map<string, real>>)
    requires "id" in x && "iq" in x && "Kp_id" !in params && "Kp_iq" !in params
    ensures var r := VoltageReferences(idRef, iqRef, x, params, controllerState);
            r.Ok? && r.value.0 == map["v_conv_d_ref" := 0.0, "v_conv_q_ref" := 0.0]
  {
  }

  /** The d reference is blind to the q channel and the q reference to the
      d channel. */
  lemma AxesDecoupled(idRef: real, iqRef1: real, iqRef2: real, x1: map<string, real>, x2: map<string, real>,
                      params: map<string, real>, s1: Option<map<string, real>>, s2: Option<map<string, real>>)
    requires "id" in x1 && "iq" in x1 && "id" in x2 && "iq" in x2 && x1["id"] == x2["id"]
    ensures var r1 := VoltageReferences(idRef, iqRef1, x1, params, s1);
            var r2 := VoltageReferences(idRef, iqRef2, x2, params, s2);
            r1.Ok? && r2.Ok? && r1.value.0["v_conv_d_ref"] == r2.value.0["v_conv_d_ref"]
  {
  }
}
