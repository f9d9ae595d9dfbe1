/**
 * One lever configuration of the aircraft tire tug calculator: the handle
 * (grey) arm the operator pushes on, the aircraft (gold) arm that carries the
 * tire, the horizontal moment arm X1 of the tire, the handle force the lever
 * law demands for a given pull, and the drive motor that would replace the
 * operator at 3 mph.
 *
 * Lengths are in feet, forces in pounds, torque in lb-ft, power in hp and W.
 * The tug is static: nothing here rotates, so X1 stays at its initial value.
 */
module Tug {
  import opened Wrappers
  import opened Numerics

  const DEFAULT_HANDLE_LENGTH: real := 3.0
  const DEFAULT_AIRCRAFT_ARM: real := 1.5
  /** The X1 a constrained configuration takes when no target is given. */
  const DEFAULT_X1_TARGET: real := 1.5
  /** Handle lengths at or below this give no handle force at all. */
  const MIN_HANDLE_LENGTH: real := 0.01
  const TIRE_DIAMETER_IN: real := 10.0
  const TIRE_RADIUS_FT: real := (TIRE_DIAMETER_IN / 2.0) / 12.0
  const TARGET_SPEED_MPH: real := 3.0
  const TARGET_SPEED_FPS: real := TARGET_SPEED_MPH * 5280.0 / 3600.0
  const FT_LB_PER_S_PER_HP: real := 550.0
  const W_PER_HP: real := 745.7

  /**
   * The six configurations and the integer type codes of the source:
   * D1a = 1 and D1b = 2 (L-shaped), D2 = 3 (horizontal), D3a = 4 and
   * D3b = 5 (angled), D4 = 6 (horizontal, extended arms).
   */
  datatype Kind = D1a | D1b | D2 | D3a | D3b | D4 {
    /** Types 3 and 6 measure X1 along a horizontal aircraft arm. */
    predicate Horizontal() { this == D2 || this == D4 }
  }

  /** Every field of a configuration that the calculator updates. */
  datatype TugState = TugState(
    handleLength: real,
    aircraftArm: real,
    x1Initial: real,
    x1Current: real,
    fHandle: real,
    fPull: real,
    motorTorque: real,
    motorPowerHp: real,
    motorPowerW: real)

  /** A configuration as constructed, before its geometry is derived. */
  function Fresh(handleLength: real, aircraftArm: real): TugState
  {
    TugState(handleLength, aircraftArm, 0.0, 0.0, 0.0, 0.0, 0.0, 0.0, 0.0)
  }

  /**
   * `_recalculate_geometry(x1_target)`: types 3 and 6 measure X1 along the
   * aircraft arm; otherwise a constrained configuration takes X1 from the
   * target (1.5 ft when none is given) and back-solves the aircraft arm, and
   * an unconstrained one projects the aircraft arm at 50 degrees. Only the
   * aircraft arm, X1 and the current X1 change.
   */
  function Recalculated(kind: Kind, constrained: bool, s: TugState, target: Option<real>): (r: TugState)
    ensures r == s.(aircraftArm := r.aircraftArm, x1Initial := r.x1Initial, x1Current := r.x1Initial)
    ensures kind.Horizontal() ==> r.x1Initial == s.aircraftArm && r.aircraftArm == s.aircraftArm
    ensures !kind.Horizontal() && constrained ==>
              r.x1Initial == target.GetOr(DEFAULT_X1_TARGET) && r.aircraftArm * COS50 == r.x1Initial
    ensures !kind.Horizontal() && !constrained ==>
              r.aircraftArm == s.aircraftArm && r.x1Initial == s.aircraftArm * COS50
  {
    if kind.Horizontal() then
      s.(x1Initial := s.aircraftArm, x1Current := s.aircraftArm)
    else if constrained then
      var x1 := target.GetOr(DEFAULT_X1_TARGET);
      s.(x1Initial := x1, aircraftArm := x1 / COS50, x1Current := x1)
    else
      var x1 := s.aircraftArm * COS50;
      s.(x1Initial := x1, x1Current := x1)
  }

  /**
   * `set_arm_lengths(handle, arm)`: the handle is always `handle`; `arm` is
   * the aircraft arm of an unconstrained configuration and the X1 target of a
   * constrained one.
   */
  function WithArmLengths(kind: Kind, constrained: bool, s: TugState, handle: real, arm: real): (r: TugState)
    ensures r.handleLength == handle
    ensures !constrained ==> r.aircraftArm == arm
    ensures kind.Horizontal() ==> r.x1Initial == r.aircraftArm
    ensures !kind.Horizontal() && !constrained ==> r.x1Initial == arm * COS50
    ensures !kind.Horizontal() && constrained ==> r.x1Initial == arm && r.aircraftArm * COS50 == arm
    ensures r.x1Current == r.x1Initial
    ensures r == s.(handleLength := handle, aircraftArm := r.aircraftArm,
                    x1Initial := r.x1Initial, x1Current := r.x1Current)
  {
    if constrained then Recalculated(kind, constrained, s.(handleLength := handle), Some(arm))
    else Recalculated(kind, constrained, s.(handleLength := handle, aircraftArm := arm), None)
  }

  /**
   * The lever law for the handle: the pull acts at X1, the operator at the
   * handle length. A handle of 0.01 ft or less gives exactly 0.
   */
  function HandleForce(pull: real, x1: real, handle: real): (f: real)
    ensures handle > MIN_HANDLE_LENGTH ==> f * handle == pull * x1
    ensures handle <= MIN_HANDLE_LENGTH ==> f == 0.0
  {
    if handle > MIN_HANDLE_LENGTH then (pull * x1) / handle else 0.0
  }

  /** Torque at the tire for the given handle force. */
  function MotorTorque(fHandle: real): (t: real)
    ensures t >= 0.0
  {
    Abs(fHandle) * TIRE_RADIUS_FT
  }

  /** Horsepower to turn the tire with `torque` at the target speed. */
  function MotorPowerHp(torque: real): real
  {
    torque * (TARGET_SPEED_FPS / TIRE_RADIUS_FT) / FT_LB_PER_S_PER_HP
  }

  function MotorPowerW(hp: real): real
  {
    hp * W_PER_HP
  }

  /**
   * `calculate_forces(f_pull)`: store the pull, derive the handle force from
   * the current X1 and handle length, and the motor figures from the handle
   * force. The geometry is unchanged.
   */
  function Forces(s: TugState, pull: real): (r: TugState)
    ensures r.fPull == pull
    ensures r.fHandle == HandleForce(pull, s.x1Current, s.handleLength)
    ensures r.motorTorque == MotorTorque(r.fHandle) && r.motorTorque >= 0.0
    ensures r.motorPowerHp == MotorPowerHp(r.motorTorque)
    ensures r.motorPowerW == MotorPowerW(r.motorPowerHp)
    ensures r == s.(fPull := pull, fHandle := r.fHandle, motorTorque := r.motorTorque,
                    motorPowerHp := r.motorPowerHp, motorPowerW := r.motorPowerW)
  {
    var f := HandleForce(pull, s.x1Current, s.handleLength);
    var t := MotorTorque(f);
    var hp := MotorPowerHp(t);
    s.(fPull := pull, fHandle := f, motorTorque := t, motorPowerHp := hp, motorPowerW := MotorPowerW(hp))
  }

  class TugDiagram {
    const kind: Kind
    const name: string
    /** Whether the aircraft-arm slider sets X1 rather than the arm itself. */
    const x1Constrained: bool

    var handleLength: real
    var aircraftArm: real
    var x1Initial: real
    var x1Current: real
    var fHandle: real
    var fPull: real
    var motorTorque: real
    var motorPowerHp: real
    var motorPowerW: real

    function State(): TugState
      reads this
    {
      TugState(handleLength, aircraftArm, x1Initial, x1Current, fHandle, fPull,
               motorTorque, motorPowerHp, motorPowerW)
    }

    constructor (kind: Kind, name: string, handleLength: real, aircraftArm: real, x1Constrained: bool)
      ensures this.kind == kind && this.name == name && this.x1Constrained == x1Constrained
      ensures State() == Recalculated(kind, x1Constrained, Fresh(handleLength, aircraftArm), None)
    {
      this.kind := kind;
      this.name := name;
      this.x1Constrained := x1Constrained;
      this.handleLength := handleLength;
      this.aircraftArm := aircraftArm;
      x1Initial, x1Current := 0.0, 0.0;
      fHandle, fPull := 0.0, 0.0;
      motorTorque, motorPowerHp, motorPowerW := 0.0, 0.0, 0.0;
      new;
      RecalculateGeometry(None);
    }

    /** `_recalculate_geometry(x1_target)`. */
    method RecalculateGeometry(target: Option<real>)
      modifies this`aircraftArm, this`x1Initial, this`x1Current
      ensures State() == Recalculated(kind, x1Constrained, old(State()), target)
    {
      var cosGold := COS50;
      if kind == D2 || kind == D4 {
        x1Initial := aircraftArm;
      } else if x1Constrained {
        x1Initial := if target.Some? then target.value else DEFAULT_X1_TARGET;
        aircraftArm := x1Initial / cosGold;
      } else {
        x1Initial := aircraftArm * cosGold;
      }
      x1Current := x1Initial;
    }

    /** `set_arm_lengths(handle_length, aircraft_arm)`. */
    method SetArmLengths(handle: real, arm: real)
      modifies this`handleLength, this`aircraftArm, this`x1Initial, this`x1Current
      ensures State() == WithArmLengths(kind, x1Constrained, old(State()), handle, arm)
    {
      handleLength := handle;
      if x1Constrained {
        RecalculateGeometry(Some(arm));
      } else {
        aircraftArm := arm;
        RecalculateGeometry(None);
      }
    }

    /** `calculate_forces(f_pull)`: returns the handle force it stores. */
    method CalculateForces(pull: real) returns (f: real)
      modifies this`fPull, this`fHandle, this`motorTorque, this`motorPowerHp, this`motorPowerW
      ensures State() == Forces(old(State()), pull)
      ensures f == fHandle
    {
      fPull := pull;
      if handleLength > MIN_HANDLE_LENGTH {
        fHandle := (pull * x1Current) / handleLength;
      } else {
        fHandle := 0.0;
      }
      motorTorque := Abs(fHandle) * TIRE_RADIUS_FT;
      var omega := TARGET_SPEED_FPS / TIRE_RADIUS_FT;
      var powerFtLbPerS := motorTorque * omega;
      motorPowerHp := powerFtLbPerS / FT_LB_PER_S_PER_HP;
      motorPowerW := motorPowerHp * W_PER_HP;
      f := fHandle;
    }
  }
}
