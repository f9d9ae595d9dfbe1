/** Properties of the tug configurations' geometry, lever law and motor sizing. */
module TugProperties {
  import opened Wrappers
  import opened Numerics
  import opened Tug

  /**
   * A constrained configuration is its unconstrained twin with a solved
   * aircraft arm: projecting the back-solved arm at 50 degrees gives back the
   * X1 target.
   */
  lemma ConstrainedMatchesDirect(kind: Kind, s: TugState, handle: real, target: real)
    requires !kind.Horizontal()
    ensures var b := WithArmLengths(kind, true, s, handle, target);
            b.x1Initial == target &&
            WithArmLengths(kind, false, s, handle, b.aircraftArm).x1Initial == target
  {
  }

  /** With no target, a constrained configuration falls back to X1 = 1.5 ft. */
  lemma ConstrainedDefault(kind: Kind, s: TugState)
    requires !kind.Horizontal()
    ensures Recalculated(kind, true, s, None).x1Initial == DEFAULT_X1_TARGET
    ensures Recalculated(kind, true, s, None).aircraftArm == DEFAULT_X1_TARGET / COS50
  {
  }

  /** Re-deriving the geometry without a new target changes nothing more. */
  lemma RecalculateIdempotent(kind: Kind, constrained: bool, s: TugState, target: Option<real>)
    ensures var r := Recalculated(kind, constrained, s, target);
            Recalculated(kind, constrained, r, target) == r
  {
  }

  /** The handle force of the lever law, for a pull of 100 lb at X1 = 1.5 ft on a 3 ft handle. */
  lemma HandleForceExample()
    ensures HandleForce(100.0, 1.5, 3.0) == 50.0
  {
  }

  /**
   * Away from the guard the handle force is the pull scaled by X1 over the
   * handle length, so it has the pull's sign whenever X1 is positive.
   */
  lemma HandleForceSign(pull: real, x1: real, handle: real)
    requires handle > MIN_HANDLE_LENGTH && x1 > 0.0
    ensures pull > 0.0 ==> HandleForce(pull, x1, handle) > 0.0
    ensures pull < 0.0 ==> HandleForce(pull, x1, handle) < 0.0
    ensures pull == 0.0 ==> HandleForce(pull, x1, handle) == 0.0
  {
    var f := HandleForce(pull, x1, handle);
    assert f * handle == pull * x1;
    if pull > 0.0 {
      assert pull * x1 > 0.0;
    } else if pull < 0.0 {
      assert pull * x1 < 0.0;
    }
  }

  /** The tire radius cancels: horsepower is the handle force times the target speed over 550. */
  lemma MotorPowerSimplifies(f: real)
    ensures MotorPowerHp(MotorTorque(f)) == Abs(f) * TARGET_SPEED_FPS / FT_LB_PER_S_PER_HP
  {
    assert TIRE_RADIUS_FT == 5.0 / 12.0;
    assert TARGET_SPEED_FPS / TIRE_RADIUS_FT == 10.56;
    assert TARGET_SPEED_FPS == 4.4;
  }

  /** All three motor figures of a calculation are non-negative. */
  lemma MotorFiguresNonNegative(s: TugState, pull: real)
    ensures Forces(s, pull).motorTorque >= 0.0
    ensures Forces(s, pull).motorPowerHp >= 0.0
    ensures Forces(s, pull).motorPowerW >= 0.0
  {
    MotorPowerSimplifies(Forces(s, pull).fHandle);
  }

  /** A 100 lb handle force needs 125/3 (about 41.67) lb-ft, 0.8 hp or 596.56 W. */
  lemma MotorExample()
    ensures MotorTorque(100.0) == 125.0 / 3.0
    ensures MotorPowerHp(MotorTorque(100.0)) == 0.8
    ensures MotorPowerW(MotorPowerHp(MotorTorque(100.0))) == 596.56
  {
    MotorPowerSimplifies(100.0);
  }

  /** Calculating twice with the same pull gives the same result as once. */
  lemma ForcesIdempotent(s: TugState, pull: real)
    ensures Forces(Forces(s, pull), pull) == Forces(s, pull)
  {
  }

  /** With a guarded handle the motor torque is |pull| * X1 / handle at the tire radius. */
  lemma MotorTorqueFromPull(s: TugState, pull: real)
    requires s.handleLength > MIN_HANDLE_LENGTH
    ensures Forces(s, pull).motorTorque * s.handleLength == Abs(pull * s.x1Current) * TIRE_RADIUS_FT
  {
    var f := HandleForce(pull, s.x1Current, s.handleLength);
    assert f * s.handleLength == pull * s.x1Current;
    assert Abs(f) * s.handleLength == Abs(pull * s.x1Current);
  }
}
