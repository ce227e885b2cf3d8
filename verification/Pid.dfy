/** The PID controller of `pid.c`, over the reals. */
module Pid {

  datatype Gains = Gains(kp: real, ki: real, kd: real, iLimit: real, outLimit: real)

  datatype State = State(gains: Gains, integral: real, prevError: real, prevDerivative: real)

  datatype Input = Input(setpoint: real, measured: real)

  function Clamp(v: real, lo: real, hi: real): real {
    if v < lo then lo else if v > hi then hi else v
  }

  function Init(g: Gains): State { State(g, 0.0, 0.0, 0.0) }

  function Reset(s: State): State { s.(integral := 0.0, prevError := 0.0, prevDerivative := 0.0) }

  function Error(i: Input): real { i.setpoint - i.measured }

  function Derivative(s: State, i: Input, dt: real): real
    requires dt > 0.0
  {
    0.5 * ((Error(i) - s.prevError) / dt) + 0.5 * s.prevDerivative
  }

  function Next(s: State, i: Input, dt: real): State
    requires dt > 0.0
  {
    State(s.gains,
          Clamp(s.integral + Error(i) * dt, -s.gains.iLimit, s.gains.iLimit),
          Error(i),
          Derivative(s, i, dt))
  }

  function Output(s: State, i: Input, dt: real): real
    requires dt > 0.0
  {
    Mix(Next(s, i, dt))
  }

  /** The three terms for the state just reached, limited. */
  function Mix(n: State): real {
    Clamp(Terms(n.gains, n.prevError, n.integral, n.prevDerivative), -n.gains.outLimit, n.gains.outLimit)
  }

  function Terms(g: Gains, error: real, integral: real, derivative: real): real {
    g.kp * error + g.ki * integral + g.kd * derivative
  }

  function Run(s: State, inputs: seq<Input>, dt: real): State
    requires dt > 0.0
    decreases |inputs|
  {
    if inputs == [] then s else Run(Next(s, inputs[0], dt), inputs[1..], dt)
  }

  function Outputs(s: State, inputs: seq<Input>, dt: real): (o: seq<real>)
    requires dt > 0.0
    ensures |o| == |inputs|
    decreases |inputs|
  {
    if inputs == [] then [] else [Output(s, inputs[0], dt)] + Outputs(Next(s, inputs[0], dt), inputs[1..], dt)
  }

  // ---------------------------------------------------------------- limits

  predicate Within(v: real, limit: real) { -limit <= v <= limit }

  /** A clamp to plus or minus a limit keeps it exactly when the limit is not negative. */
  lemma ClampWithinIff(v: real, limit: real)
    ensures Within(Clamp(v, -limit, limit), limit) <==> limit >= 0.0
  {
  }

  /** Over every input sequence the integral and all outputs respect their limits. */
  lemma {:induction false} LimitsHold(s: State, inputs: seq<Input>, dt: real, k: nat)
    requires dt > 0.0 && s.gains.iLimit >= 0.0 && s.gains.outLimit >= 0.0
    requires Within(s.integral, s.gains.iLimit) && k < |inputs|
    ensures Within(Run(s, inputs, dt).integral, s.gains.iLimit)
    ensures Within(Outputs(s, inputs, dt)[k], s.gains.outLimit)
    decreases |inputs|
  {
    var n := Next(s, inputs[0], dt);
    if k > 0 {
      LimitsHold(n, inputs[1..], dt, k - 1);
    } else if |inputs| > 1 {
      LimitsHold(n, inputs[1..], dt, 0);
    } else {
      assert Run(n, inputs[1..], dt) == n;
    }
  }

  lemma DivideBound(x: real, bound: real, dt: real)
    requires dt > 0.0 && Within(x, bound)
    ensures Within(x / dt, bound / dt)
  {
  }

  /** Errors bounded by `e` keep the filtered derivative within 2e/dt for ever. */
  lemma {:induction false} DerivativeBounded(s: State, inputs: seq<Input>, dt: real, e: real)
    requires dt > 0.0 && Within(s.prevError, e) && Within(s.prevDerivative, 2.0 * e / dt)
    requires forall i :: 0 <= i < |inputs| ==> Within(Error(inputs[i]), e)
    ensures Within(Run(s, inputs, dt).prevDerivative, 2.0 * e / dt)
    decreases |inputs|
  {
    if inputs != [] {
      assert Within(Error(inputs[0]), e);
      DivideBound(Error(inputs[0]) - s.prevError, 2.0 * e, dt);
      DerivativeBounded(Next(s, inputs[0], dt), inputs[1..], dt, e);
    }
  }

  function Half(n: nat): real { if n == 0 then 1.0 else 0.5 * Half(n - 1) }

  /** Under a constant error the derivative halves with every step. */
  lemma {:induction false} ConstantErrorHalves(s: State, inputs: seq<Input>, dt: real)
    requires dt > 0.0 && forall i :: 0 <= i < |inputs| ==> Error(inputs[i]) == s.prevError
    ensures Run(s, inputs, dt).prevDerivative == Half(|inputs|) * s.prevDerivative
    decreases |inputs|
  {
    if inputs != [] {
      var n := Next(s, inputs[0], dt);
      assert Error(inputs[0]) == s.prevError;
      assert (Error(inputs[0]) - s.prevError) / dt == 0.0;
      ConstantErrorHalves(n, inputs[1..], dt);
    }
  }

  /** After a reset the controller answers every later input sequence as a new one would. */
  lemma {:induction false} ResetIsFresh(s: State, inputs: seq<Input>, dt: real)
    requires dt > 0.0
    ensures Outputs(Reset(s), inputs, dt) == Outputs(Init(s.gains), inputs, dt)
  {
    assert Reset(s) == Init(s.gains);
  }

  // ---------------------------------------------------------------- what an output is

  /** The output is the limited sum of the three terms: the gains times the new error, the
      limited integral with the new error added, and half the error's slope plus half the
      last derivative. */
  lemma {:induction false} OutputExact(s: State, i: Input, dt: real, e: real, sum: real, slope: real)
    requires dt > 0.0 && e == i.setpoint - i.measured
    requires sum == (if s.integral + e * dt < -s.gains.iLimit then -s.gains.iLimit
                     else if s.integral + e * dt > s.gains.iLimit then s.gains.iLimit else s.integral + e * dt)
    requires slope == 0.5 * ((e - s.prevError) / dt) + 0.5 * s.prevDerivative
    ensures var total := s.gains.kp * e + s.gains.ki * sum + s.gains.kd * slope;
      Output(s, i, dt) == if total < -s.gains.outLimit then -s.gains.outLimit
                          else if total > s.gains.outLimit then s.gains.outLimit else total
    ensures Next(s, i, dt) == s.(integral := sum, prevError := e, prevDerivative := slope)
  {
    var n := s.(integral := sum, prevError := e, prevDerivative := slope);
    assert Next(s, i, dt) == n;
    assert Terms(n.gains, e, sum, slope) == s.gains.kp * e + s.gains.ki * sum + s.gains.kd * slope;
  }

  lemma {:induction false} ClampMonotone(v: real, w: real, limit: real)
    requires v <= w && limit >= 0.0
    ensures Clamp(v, -limit, limit) <= Clamp(w, -limit, limit)
  {
  }

  lemma {:induction false} GainMonotone(k: real, v: real, w: real)
    requires k >= 0.0 && v <= w
    ensures k * v <= k * w
  {
    assert k * (w - v) >= 0.0;
  }

  lemma {:induction false} SlopeMonotone(v: real, w: real, dt: real)
    requires dt > 0.0 && v <= w
    ensures v / dt <= w / dt
  {
  }

  lemma {:induction false} TermsMonotone(g: Gains, e: real, e': real, i: real, i': real, d: real, d': real)
    requires g.kp >= 0.0 && g.ki >= 0.0 && g.kd >= 0.0 && e <= e' && i <= i' && d <= d'
    ensures Terms(g, e, i, d) <= Terms(g, e', i', d')
  {
    GainMonotone(g.kp, e, e');
    GainMonotone(g.ki, i, i');
    GainMonotone(g.kd, d, d');
  }

  /** With gains that are not negative a higher setpoint, or a lower measurement, never lowers
      the output. */
  lemma {:induction false} OutputMonotone(s: State, i: Input, j: Input, dt: real)
    requires dt > 0.0 && s.gains.iLimit >= 0.0 && s.gains.outLimit >= 0.0
    requires s.gains.kp >= 0.0 && s.gains.ki >= 0.0 && s.gains.kd >= 0.0
    requires i.setpoint - i.measured <= j.setpoint - j.measured
    ensures Output(s, i, dt) <= Output(s, j, dt)
  {
    var e, e' := Error(i), Error(j);
    GainMonotone(dt, e, e');
    assert dt * e == e * dt && dt * e' == e' * dt;
    ClampMonotone(s.integral + e * dt, s.integral + e' * dt, s.gains.iLimit);
    SlopeMonotone(e - s.prevError, e' - s.prevError, dt);
    var n, n' := Next(s, i, dt), Next(s, j, dt);
    TermsMonotone(s.gains, e, e', n.integral, n'.integral, n.prevDerivative, n'.prevDerivative);
    ClampMonotone(Terms(s.gains, e, n.integral, n.prevDerivative),
                  Terms(s.gains, e', n'.integral, n'.prevDerivative), s.gains.outLimit);
  }

  // ---------------------------------------------------------------- symmetry

  function Negate(s: State): State {
    s.(integral := -s.integral, prevError := -s.prevError, prevDerivative := -s.prevDerivative)
  }

  function NegateAll(inputs: seq<Input>): (r: seq<Input>)
    ensures |r| == |inputs|
    ensures forall i :: 0 <= i < |r| ==> r[i] == Input(-inputs[i].setpoint, -inputs[i].measured)
  {
    seq(|inputs|, i requires 0 <= i < |inputs| => Input(-inputs[i].setpoint, -inputs[i].measured))
  }

  lemma {:induction false} NegateDerivative(s: State, i: Input, j: Input, dt: real)
    requires dt > 0.0 && j == Input(-i.setpoint, -i.measured)
    ensures Derivative(Negate(s), j, dt) == -Derivative(s, i, dt)
  {
    var x := Error(i) - s.prevError;
    assert Error(j) - Negate(s).prevError == -x;
    assert (-x) / dt == -(x / dt);
  }

  lemma {:induction false} NegateStep(s: State, i: Input, j: Input, dt: real)
    requires dt > 0.0 && s.gains.iLimit >= 0.0 && s.gains.outLimit >= 0.0
    requires j == Input(-i.setpoint, -i.measured)
    ensures Next(Negate(s), j, dt) == Negate(Next(s, i, dt))
    ensures Output(Negate(s), j, dt) == -Output(s, i, dt)
  {
    NegateDerivative(s, i, j, dt);
    assert Error(j) == -Error(i);
    assert Error(j) * dt == -(Error(i) * dt);
    NegateMix(Next(s, i, dt));
  }

  lemma {:induction false} NegateMix(n: State)
    requires n.gains.outLimit >= 0.0
    ensures Mix(Negate(n)) == -Mix(n)
  {
    var g := n.gains;
    assert g.kp * -n.prevError == -(g.kp * n.prevError);
    assert g.ki * -n.integral == -(g.ki * n.integral);
    assert g.kd * -n.prevDerivative == -(g.kd * n.prevDerivative);
  }

  /** The controller has no preferred direction: mirrored inputs give mirrored outputs. */
  lemma {:induction false} Mirrored(s: State, inputs: seq<Input>, dt: real, k: nat)
    requires dt > 0.0 && s.gains.iLimit >= 0.0 && s.gains.outLimit >= 0.0 && k < |inputs|
    ensures Outputs(Negate(s), NegateAll(inputs), dt)[k] == -Outputs(s, inputs, dt)[k]
    decreases |inputs|
  {
    NegateStep(s, inputs[0], NegateAll(inputs)[0], dt);
    assert NegateAll(inputs)[1..] == NegateAll(inputs[1..]);
    if k > 0 {
      Mirrored(Next(s, inputs[0], dt), inputs[1..], dt, k - 1);
    }
  }

  // ---------------------------------------------------------------- the code

  class Controller {
    var kp: real
    var ki: real
    var kd: real
    var iLimit: real
    var outLimit: real
    var integral: real
    var prevError: real
    var prevDerivative: real

    function View(): State
      reads this
    {
      State(Gains(kp, ki, kd, iLimit, outLimit), integral, prevError, prevDerivative)
    }

    constructor (g: Gains)
      ensures View() == Init(g)
    {
      kp, ki, kd, iLimit, outLimit := g.kp, g.ki, g.kd, g.iLimit, g.outLimit;
      integral, prevError, prevDerivative := 0.0, 0.0, 0.0;
    }

    method Compute(setpoint: real, measured: real, dt: real) returns (out: real)
      requires dt > 0.0
      modifies this`integral, this`prevError, this`prevDerivative
      ensures View() == Next(old(View()), Input(setpoint, measured), dt)
      ensures out == Output(old(View()), Input(setpoint, measured), dt)
    {
      ghost var i := Input(setpoint, measured);
      var error := setpoint - measured;
      var pOut := kp * error;
      integral := integral + error * dt;
      integral := Clamp(integral, -iLimit, iLimit);
      var iOut := ki * integral;
      var derivative := (error - prevError) / dt;
      derivative := 0.5 * derivative + 0.5 * prevDerivative;
      assert derivative == Derivative(old(View()), i, dt);
      var dOut := kd * derivative;
      assert pOut + iOut + dOut == Terms(old(View()).gains, error, integral, derivative);
      prevError := error;
      prevDerivative := derivative;
      out := Clamp(pOut + iOut + dOut, -outLimit, outLimit);
      assert View() == Next(old(View()), i, dt);
    }

    method ResetState()
      modifies this`integral, this`prevError, this`prevDerivative
      ensures View() == Reset(old(View()))
    {
      integral, prevError, prevDerivative := 0.0, 0.0, 0.0;
    }
  }
}
