/**
 * One lever diagram of the dynamic lever simulation: its geometry (the
 * horizontal moment arm X1 of the load point P2), the lever-law output force
 * F2, and the one-step rotational integrator driven by the applied force F1
 * against a fixed 300 lb hanging weight.
 *
 * Angles are in degrees, lengths in feet, forces in pounds. The cosine and
 * sine of the diagram's rotation of the current frame are supplied by the
 * caller as a `FrameTrig` value.
 */
module Lever {
  import opened Wrappers
  import opened Numerics

  const C_DISTANCE: real := 3.0
  const FIRST_SEGMENT_LENGTH: real := 1.5
  const X1_INITIAL_B_VARIANTS: real := 1.5
  const WEIGHT: real := 300.0
  const DEFAULT_F1: real := 200.0
  const MOMENT_OF_INERTIA: real := 35.0
  const ANGULAR_DAMPING: real := 0.25
  const MAX_ROTATION: real := 60.0
  /** The floor that keeps moment arms away from zero before dividing by them. */
  const ARM_FLOOR: real := 0.1

  /**
   * The five diagram variants and the integer type codes of the source:
   * D1a = 1 (L-shaped arm), D2 = 2 (horizontal arm), D3a = 3 (angled arm, no
   * bend), D1b = 4 and D3b = 5 (as D1a and D3a, but the gold slider sets X1
   * and the gold arm length is solved from it).
   */
  datatype Kind = D1a | D2 | D3a | D1b | D3b {
    predicate X1Constrained() { this == D1b || this == D3b }
  }

  /** Every field of a diagram that the engine updates. */
  datatype LeverState = LeverState(
    arm1Length: real,        // horizontal distance from pivot to P1
    arm2Length: real,        // gold arm length
    rotation: real,          // degrees
    angularVelocity: real,   // degrees per second
    f1: real,
    f2Result: real,
    x1Initial: real,
    x1Current: real,
    netTorque: real,
    v1Magnitude: real, v1X: real, v1Y: real,
    v2Magnitude: real, v2X: real, v2Y: real)

  /** The state a freshly constructed diagram has before its geometry is derived. */
  const Fresh: LeverState :=
    LeverState(C_DISTANCE, FIRST_SEGMENT_LENGTH, 0.0, 0.0, DEFAULT_F1, 0.0, 0.0, 0.0, 0.0,
               0.0, 0.0, 0.0, 0.0, 0.0, 0.0)

  /**
   * Cosines and sines a frame needs, all taken at the rotation the frame
   * starts with: of the rotation itself, of the grey arm direction
   * (140 degrees plus the rotation) and of the gold arm direction
   * (50 degrees plus the rotation).
   */
  datatype FrameTrig = FrameTrig(
    cosRot: real, sinRot: real,
    cosGray: real, sinGray: real,
    cosGold: real, sinGold: real)
  {
    /** Each pair is the cosine and sine of one angle. */
    predicate Unit()
    {
      UnitPair(cosRot, sinRot) && UnitPair(cosGray, sinGray) && UnitPair(cosGold, sinGold)
    }
  }

  /**
   * `_recalculate_x1_initial(x1_target)`: D2 measures X1 along its horizontal
   * arm; D1b and D3b take X1 from the target (1.5 ft when none is given) and
   * back-solve the gold arm; D1a and D3a project the gold arm at 50 degrees.
   * Only the gold arm, X1 and the current X1 change.
   */
  function Recalculated(kind: Kind, s: LeverState, target: Option<real>): (r: LeverState)
    ensures r == s.(arm2Length := r.arm2Length, x1Initial := r.x1Initial, x1Current := r.x1Initial)
    ensures kind == D2 ==> r.x1Initial == s.arm2Length && r.arm2Length == s.arm2Length
    ensures kind.X1Constrained() ==> r.x1Initial == target.GetOr(X1_INITIAL_B_VARIANTS)
    ensures kind.X1Constrained() ==> r.arm2Length * COS50 == r.x1Initial
    ensures (kind == D1a || kind == D3a) ==>
              r.arm2Length == s.arm2Length && r.x1Initial == s.arm2Length * COS50
  {
    if kind == D2 then
      s.(x1Initial := s.arm2Length, x1Current := s.arm2Length)
    else if kind.X1Constrained() then
      var x1 := target.GetOr(X1_INITIAL_B_VARIANTS);
      s.(x1Initial := x1, arm2Length := x1 / COS50, x1Current := x1)
    else
      var x1 := s.arm2Length * COS50;
      s.(x1Initial := x1, x1Current := x1)
  }

  /**
   * `set_arm_lengths(a1, a2)`: the grey arm is always `a1`; the gold slider
   * value `a2` is the gold arm for unconstrained diagrams and the X1 target for
   * constrained ones.
   */
  function WithArmLengths(kind: Kind, s: LeverState, a1: real, a2: real): (r: LeverState)
    ensures r.arm1Length == a1
    ensures !kind.X1Constrained() ==> r.arm2Length == a2
    ensures kind.X1Constrained() ==> r.x1Initial == a2 && r.arm2Length * COS50 == a2
    ensures kind == D2 ==> r.x1Initial == a2
    ensures (kind == D1a || kind == D3a) ==> r.x1Initial == a2 * COS50
    ensures r.x1Current == r.x1Initial
    ensures r == s.(arm1Length := a1, arm2Length := r.arm2Length,
                    x1Initial := r.x1Initial, x1Current := r.x1Current)
  {
    if kind.X1Constrained() then Recalculated(kind, s.(arm1Length := a1), Some(a2))
    else Recalculated(kind, s.(arm1Length := a1, arm2Length := a2), None)
  }

  /** `reset()` of one diagram: at rest, level, with X1 back at its initial value. */
  function Rested(s: LeverState): LeverState
  {
    s.(rotation := 0.0, angularVelocity := 0.0, x1Current := s.x1Initial)
  }

  /** `max(0.1, |length * cos(rot)|)`: a moment arm at the current rotation. */
  function MomentArm(length: real, cosRot: real): (r: real)
    ensures r >= ARM_FLOOR
    ensures r >= Abs(length * cosRot)
    ensures r == ARM_FLOOR || r == Abs(length * cosRot)
  {
    Max(ARM_FLOOR, Abs(length * cosRot))
  }

  /** Angular velocity after one step: accelerate by torque / inertia, then damp. */
  function NextAngularVelocity(omega: real, torque: real, dt: real): real
  {
    (omega + (torque / MOMENT_OF_INERTIA) * dt) * (1.0 - ANGULAR_DAMPING * dt)
  }

  /** The rotation after moving at `omega` for `dt`, held within +-60 degrees. */
  function Advanced(rotation: real, omega: real, dt: real): (r: real)
    ensures -MAX_ROTATION <= r <= MAX_ROTATION
    ensures r == Clamp(-MAX_ROTATION, MAX_ROTATION, rotation + omega * dt)
  {
    Clamp(-MAX_ROTATION, MAX_ROTATION, rotation + omega * dt)
  }

  /** +1 or -1: which way the velocity points, perpendicular to an arm. */
  function Turn(omega: real): (t: real)
    ensures t == 1.0 || t == -1.0
    ensures t * omega == Abs(omega)
  {
    if omega >= 0.0 then 1.0 else -1.0
  }

  /** `f1 * arm1 / x1`: the output force F2 balancing F1's moment about the pivot. */
  function LeverForce(f1: real, arm1: real, x1: real): (f2: real)
    requires x1 != 0.0
    ensures f2 * x1 == f1 * arm1
  {
    f1 * arm1 / x1
  }

  /** Linear speed of a point `radius` ft from the pivot, for `omega` in degrees per second. */
  function PointSpeed(omega: real, radius: real): (v: real)
    ensures v >= 0.0
    ensures v == Abs(Radians(omega)) * Abs(radius)
  {
    Abs(Radians(omega) * radius)
  }

  /**
   * Screen-coordinate components of a velocity of magnitude `mag` perpendicular
   * to the direction with cosine `c` and sine `s`, turned by `turn` (+1 or -1):
   * cos(a + turn*90) = -turn*sin(a), and sin(a + turn*90) = turn*cos(a), whose
   * sign is flipped for screen y.
   */
  function VelocityX(mag: real, turn: real, s: real): real { mag * (-turn * s) }
  function VelocityY(mag: real, turn: real, c: real): real { -mag * (turn * c) }

  /** Cosine and sine of the gold arm direction: D2's arm lies along the rotation itself. */
  function GoldCos(kind: Kind, t: FrameTrig): real { if kind == D2 then t.cosRot else t.cosGold }
  function GoldSin(kind: Kind, t: FrameTrig): real { if kind == D2 then t.sinRot else t.sinGold }

  /** The net torque: F1 at P1's current horizontal distance against the weight at X1. */
  function NetTorque(f1: real, arm1: real, x1: real, cosRot: real): real
  {
    f1 * MomentArm(arm1, cosRot) - WEIGHT * x1
  }

  /** The common part of every frame: X1 follows the rotation, F2 follows X1. */
  function Measured(s: LeverState, cosRot: real): (r: LeverState)
    ensures r.x1Current == MomentArm(s.x1Initial, cosRot)
    ensures r.f2Result == LeverForce(s.f1, s.arm1Length, r.x1Current)
    ensures r == s.(x1Current := r.x1Current, f2Result := r.f2Result)
  {
    var x1 := MomentArm(s.x1Initial, cosRot);
    s.(x1Current := x1, f2Result := LeverForce(s.f1, s.arm1Length, x1))
  }

  /**
   * The motion of one step: the angular velocity integrates the net torque
   * with damping, and the rotation integrates the new velocity and is clamped.
   */
  function Moved(s: LeverState, dt: real, cosRot: real): (r: LeverState)
    ensures -MAX_ROTATION <= r.rotation <= MAX_ROTATION
    ensures r.netTorque == NetTorque(s.f1, s.arm1Length, s.x1Current, cosRot)
    ensures r.angularVelocity == NextAngularVelocity(s.angularVelocity, r.netTorque, dt)
    ensures r.rotation == Clamp(-MAX_ROTATION, MAX_ROTATION, s.rotation + r.angularVelocity * dt)
    ensures r == s.(netTorque := r.netTorque, angularVelocity := r.angularVelocity,
                    rotation := r.rotation)
  {
    var torque := NetTorque(s.f1, s.arm1Length, s.x1Current, cosRot);
    var omega := NextAngularVelocity(s.angularVelocity, torque, dt);
    s.(netTorque := torque, angularVelocity := omega, rotation := Advanced(s.rotation, omega, dt))
  }

  /**
   * The displayed point velocities for the state's angular velocity: P1 at
   * the grey arm's length arm1 / cos 40 and P2 at the gold arm's length, each
   * perpendicular to its arm.
   */
  function WithVelocities(kind: Kind, s: LeverState, t: FrameTrig): (r: LeverState)
    ensures r.v1Magnitude >= 0.0 && r.v2Magnitude >= 0.0
    ensures r == s.(v1Magnitude := r.v1Magnitude, v1X := r.v1X, v1Y := r.v1Y,
                    v2Magnitude := r.v2Magnitude, v2X := r.v2X, v2Y := r.v2Y)
  {
    var v1 := PointSpeed(s.angularVelocity, s.arm1Length / COS40);
    var v2 := PointSpeed(s.angularVelocity, s.arm2Length);
    var turn := Turn(s.angularVelocity);
    s.(v1Magnitude := v1, v1X := VelocityX(v1, turn, t.sinGray), v1Y := VelocityY(v1, turn, t.cosGray),
       v2Magnitude := v2, v2X := VelocityX(v2, turn, GoldSin(kind, t)),
       v2Y := VelocityY(v2, turn, GoldCos(kind, t)))
  }

  /**
   * The integration step proper, on a state already measured: the angular
   * velocity integrates the net torque with damping, the rotation integrates
   * the new velocity and is clamped, and the point velocities are derived.
   */
  function Integrated(kind: Kind, s: LeverState, dt: real, t: FrameTrig): (r: LeverState)
    ensures -MAX_ROTATION <= r.rotation <= MAX_ROTATION
    ensures r.v1Magnitude >= 0.0 && r.v2Magnitude >= 0.0
    ensures r.netTorque == NetTorque(s.f1, s.arm1Length, s.x1Current, t.cosRot)
    ensures r.angularVelocity == NextAngularVelocity(s.angularVelocity, r.netTorque, dt)
    ensures r.rotation == Clamp(-MAX_ROTATION, MAX_ROTATION, s.rotation + r.angularVelocity * dt)
    ensures r == s.(netTorque := r.netTorque, angularVelocity := r.angularVelocity,
                    rotation := r.rotation,
                    v1Magnitude := r.v1Magnitude, v1X := r.v1X, v1Y := r.v1Y,
                    v2Magnitude := r.v2Magnitude, v2X := r.v2X, v2Y := r.v2Y)
  {
    WithVelocities(kind, Moved(s, dt, t.cosRot), t)
  }

  /**
   * `update(dt, simulating)`. X1 follows the rotation with the 0.1 floor and
   * F2 obeys the lever law in every case. When paused, the net torque reads 0
   * and nothing else moves: rotation, angular velocity and the displayed
   * point velocities keep their last values. When simulating, see `Integrated`.
   */
  function Updated(kind: Kind, s: LeverState, dt: real, simulating: bool, t: FrameTrig): (r: LeverState)
    ensures r.x1Current >= ARM_FLOOR
    ensures r.x1Current == MomentArm(s.x1Initial, t.cosRot)
    ensures r.f2Result == LeverForce(r.f1, r.arm1Length, r.x1Current)
    ensures r.arm1Length == s.arm1Length && r.arm2Length == s.arm2Length
    ensures r.f1 == s.f1 && r.x1Initial == s.x1Initial
    ensures !simulating ==>
              r == s.(x1Current := r.x1Current, f2Result := r.f2Result, netTorque := 0.0)
    ensures simulating ==> -MAX_ROTATION <= r.rotation <= MAX_ROTATION
    ensures simulating ==> r.v1Magnitude >= 0.0 && r.v2Magnitude >= 0.0
  {
    var m := Measured(s, t.cosRot);
    if simulating then Integrated(kind, m, dt, t) else m.(netTorque := 0.0)
  }

  class LeverDiagram {
    const kind: Kind
    const name: string

    var arm1Length: real
    var arm2Length: real
    var rotation: real
    var angularVelocity: real
    var f1: real
    var f2Result: real
    var x1Initial: real
    var x1Current: real
    var netTorque: real
    var v1Magnitude: real
    var v1X: real
    var v1Y: real
    var v2Magnitude: real
    var v2X: real
    var v2Y: real

    function State(): LeverState
      reads this
    {
      LeverState(arm1Length, arm2Length, rotation, angularVelocity, f1, f2Result,
                 x1Initial, x1Current, netTorque,
                 v1Magnitude, v1X, v1Y, v2Magnitude, v2X, v2Y)
    }

    constructor (kind: Kind, name: string)
      ensures this.kind == kind && this.name == name
      ensures State() == Recalculated(kind, Fresh, None)
    {
      this.kind := kind;
      this.name := name;
      arm1Length := C_DISTANCE;
      arm2Length := FIRST_SEGMENT_LENGTH;
      rotation := 0.0;
      angularVelocity := 0.0;
      f1 := DEFAULT_F1;
      f2Result := 0.0;
      x1Initial := 0.0;
      x1Current := 0.0;
      netTorque := 0.0;
      v1Magnitude, v1X, v1Y := 0.0, 0.0, 0.0;
      v2Magnitude, v2X, v2Y := 0.0, 0.0, 0.0;
      new;
      RecalculateX1Initial(None);
    }

    /** `_recalculate_x1_initial(x1_target)`. */
    method RecalculateX1Initial(target: Option<real>)
      modifies this`arm2Length, this`x1Initial, this`x1Current
      ensures State() == Recalculated(kind, old(State()), target)
    {
      var cosGold := COS50;
      if kind == D2 {
        x1Initial := arm2Length;
      } else if kind.X1Constrained() {
        x1Initial := if target.Some? then target.value else X1_INITIAL_B_VARIANTS;
        arm2Length := x1Initial / cosGold;
      } else {
        x1Initial := arm2Length * cosGold;
      }
      x1Current := x1Initial;
    }

    /** `set_arm_lengths(arm1_length, arm2_length)`. */
    method SetArmLengths(a1: real, a2: real)
      modifies this`arm1Length, this`arm2Length, this`x1Initial, this`x1Current
      ensures State() == WithArmLengths(kind, old(State()), a1, a2)
    {
      arm1Length := a1;
      if kind.X1Constrained() {
        RecalculateX1Initial(Some(a2));
      } else {
        arm2Length := a2;
        RecalculateX1Initial(None);
      }
    }

    /** `set_f1(f1)`. */
    method SetF1(f: real)
      modifies this`f1
      ensures State() == old(State()).(f1 := f)
    {
      f1 := f;
    }

    /** `reset()`: rotation and angular velocity to zero, X1 back to its initial value. */
    method Reset()
      modifies this`rotation, this`angularVelocity, this`x1Current
      ensures State() == Rested(old(State()))
    {
      rotation := 0.0;
      angularVelocity := 0.0;
      x1Current := x1Initial;
    }

    /** `update(dt, simulating)`: one frame. */
    method Update(dt: real, simulating: bool, t: FrameTrig)
      requires t.Unit()
      modifies this
      ensures State() == Updated(kind, old(State()), dt, simulating, t)
    {
      x1Current := MomentArm(x1Initial, t.cosRot);
      f2Result := LeverForce(f1, arm1Length, x1Current);
      if !simulating {
        netTorque := 0.0;
        return;
      }
      Integrate(dt, t);
    }

    /** The simulating branch of `update`, after X1 and F2 are refreshed. */
    method Integrate(dt: real, t: FrameTrig)
      requires t.Unit()
      modifies this
      ensures State() == Integrated(kind, old(State()), dt, t)
    {
      Spin(dt, t.cosRot);
      ShowVelocities(t);
    }

    /** Net torque, damped angular velocity and clamped rotation for one step. */
    method Spin(dt: real, cosRot: real)
      modifies this
      ensures State() == Moved(old(State()), dt, cosRot)
    {
      // P1 pushes down at its current horizontal distance; the weight hangs at X1.
      var torque := NetTorque(f1, arm1Length, x1Current, cosRot);
      var omega := NextAngularVelocity(angularVelocity, torque, dt);
      netTorque, angularVelocity, rotation := torque, omega, Advanced(rotation, omega, dt);
    }

    /** The point velocities for the new angular velocity. */
    method ShowVelocities(t: FrameTrig)
      modifies this
      ensures State() == WithVelocities(kind, old(State()), t)
    {
      var turn := Turn(angularVelocity);
      var v1 := PointSpeed(angularVelocity, arm1Length / COS40);
      // For D1a/D1b the distance to P2 is sqrt((a cos 50)^2 + (a sin 50)^2) = a.
      var v2 := PointSpeed(angularVelocity, arm2Length);
      var cosGold, sinGold := GoldCos(kind, t), GoldSin(kind, t);
      v1Magnitude, v1X, v1Y := v1, VelocityX(v1, turn, t.sinGray), VelocityY(v1, turn, t.cosGray);
      v2Magnitude, v2X, v2Y := v2, VelocityX(v2, turn, sinGold), VelocityY(v2, turn, cosGold);
    }
  }
}
