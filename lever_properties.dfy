/** Properties of the lever diagram's geometry rules and integrator. */
module LeverProperties {
  import opened Wrappers
  import opened Numerics
  import opened Lever

  /**
   * A constrained diagram is its unconstrained twin with a solved gold arm:
   * projecting the back-solved arm of D1b (or D3b) at 50 degrees gives back
   * exactly the X1 target that was dialled in.
   */
  lemma ConstrainedMatchesDirect(s: LeverState, a1: real, target: real)
    ensures var b := WithArmLengths(D1b, s, a1, target);
            WithArmLengths(D1a, s, a1, b.arm2Length).x1Initial == target
    ensures var b := WithArmLengths(D3b, s, a1, target);
            WithArmLengths(D3a, s, a1, b.arm2Length).x1Initial == target
  {
  }

  /** With no target, a constrained diagram falls back to X1 = 1.5 ft and arm2 = 1.5 / cos 50. */
  lemma ConstrainedDefault(kind: Kind, s: LeverState)
    requires kind.X1Constrained()
    ensures Recalculated(kind, s, None).x1Initial == 1.5
    ensures Recalculated(kind, s, None).arm2Length == 1.5 / COS50
  {
  }

  /** A paused frame is idempotent: repeating it changes nothing more. */
  lemma PausedFrameIdempotent(kind: Kind, s: LeverState, dt1: real, dt2: real, t: FrameTrig)
    ensures var p := Updated(kind, s, dt1, false, t);
            Updated(kind, p, dt2, false, t) == p
  {
  }

  /**
   * At rest the integrator stays at rest: with zero angular velocity, zero net
   * torque and an in-bounds rotation, a simulated frame keeps the rotation,
   * keeps the velocity at zero and reports both points motionless.
   */
  lemma AtRestStaysAtRest(kind: Kind, s: LeverState, dt: real, t: FrameTrig)
    requires s.angularVelocity == 0.0
    requires NetTorque(s.f1, s.arm1Length, MomentArm(s.x1Initial, t.cosRot), t.cosRot) == 0.0
    requires -MAX_ROTATION <= s.rotation <= MAX_ROTATION
    ensures var r := Updated(kind, s, dt, true, t);
            r.rotation == s.rotation && r.angularVelocity == 0.0 && r.netTorque == 0.0 &&
            r.v1Magnitude == 0.0 && r.v2Magnitude == 0.0
  {
    var m := Measured(s, t.cosRot);
    assert NetTorque(m.f1, m.arm1Length, m.x1Current, t.cosRot) == 0.0;
    assert NextAngularVelocity(0.0, 0.0, dt) == 0.0;
  }

  /**
   * The rotation clamp only stops the position: a diagram pegged at +60
   * degrees (cos 60 = 1/2) with 40 deg/s and balanced torque stays at 60
   * degrees while its angular velocity, merely damped, is still 39 deg/s.
   */
  lemma ClampKeepsVelocity(kind: Kind, t: FrameTrig)
    requires t.Unit() && t.cosRot == 0.5
    ensures var s := Fresh.(arm1Length := 1.0, x1Initial := 1.0, f1 := 300.0,
                            rotation := 60.0, angularVelocity := 40.0);
            var r := Updated(kind, s, 0.1, true, t);
            r.rotation == 60.0 && r.angularVelocity == 39.0
  {
    var s := Fresh.(arm1Length := 1.0, x1Initial := 1.0, f1 := 300.0,
                    rotation := 60.0, angularVelocity := 40.0);
    var m := Measured(s, t.cosRot);
    assert m.x1Current == 0.5;
    assert NetTorque(m.f1, m.arm1Length, m.x1Current, t.cosRot) == 0.0;
    assert NextAngularVelocity(40.0, 0.0, 0.1) == 39.0;
  }

  /**
   * Within the bounds the rotation simply integrates the new velocity; past a
   * bound it is held exactly at that bound.
   */
  lemma RotationIntegratesOrPegs(kind: Kind, s: LeverState, dt: real, t: FrameTrig)
    ensures var r := Updated(kind, s, dt, true, t);
            var moved := s.rotation + r.angularVelocity * dt;
            (-MAX_ROTATION <= moved <= MAX_ROTATION ==> r.rotation == moved) &&
            (moved > MAX_ROTATION ==> r.rotation == MAX_ROTATION) &&
            (moved < -MAX_ROTATION ==> r.rotation == -MAX_ROTATION)
  {
    var m := Measured(s, t.cosRot);
    assert m.rotation == s.rotation && m.angularVelocity == s.angularVelocity;
  }

  /**
   * Geometry of a derived point velocity: for a unit direction (c, s), the
   * screen-coordinate vector (VelocityX, VelocityY) has the stated magnitude,
   * is perpendicular to the direction once y is flipped back, and turns the
   * way `turn` says (its cross product with the direction is turn * mag).
   */
  lemma VelocityPerpendicular(mag: real, turn: real, c: real, s: real, vx: real, vy: real)
    requires c * c + s * s == 1.0
    requires turn == 1.0 || turn == -1.0
    requires vx == VelocityX(mag, turn, s) && vy == VelocityY(mag, turn, c)
    ensures vx * vx + vy * vy == mag * mag
    ensures vx * c + (-vy) * s == 0.0
    ensures c * (-vy) - s * vx == turn * mag
  {
    assert vx == -(turn * mag) * s;
    assert -vy == (turn * mag) * c;
    assert turn * turn == 1.0;
    calc {
      vx * vx + vy * vy;
      (turn * mag) * (turn * mag) * (s * s + c * c);
      (turn * turn) * (mag * mag);
    }
    calc {
      c * (-vy) - s * vx;
      (turn * mag) * (c * c + s * s);
    }
  }

  /** How a simulated frame's point velocities are put together. */
  lemma FrameVelocityTerms(kind: Kind, s: LeverState, dt: real, t: FrameTrig)
    ensures var r := Updated(kind, s, dt, true, t);
            var w := r.angularVelocity;
            r.v1Magnitude == PointSpeed(w, s.arm1Length / COS40) &&
            r.v2Magnitude == PointSpeed(w, s.arm2Length) &&
            r.v1X == VelocityX(r.v1Magnitude, Turn(w), t.sinGray) &&
            r.v1Y == VelocityY(r.v1Magnitude, Turn(w), t.cosGray) &&
            r.v2X == VelocityX(r.v2Magnitude, Turn(w), GoldSin(kind, t)) &&
            r.v2Y == VelocityY(r.v2Magnitude, Turn(w), GoldCos(kind, t))
  {
    var m := Measured(s, t.cosRot);
    assert Updated(kind, s, dt, true, t) == Integrated(kind, m, dt, t);
  }

  /**
   * When the supplied grey arm direction is a unit vector, P1's velocity has
   * the length of its speed, is perpendicular to the grey arm, and turns with
   * the sign of the angular velocity.
   */
  lemma FrameP1Direction(kind: Kind, s: LeverState, dt: real, t: FrameTrig, r: LeverState)
    requires r == Updated(kind, s, dt, true, t)
    requires t.cosGray * t.cosGray + t.sinGray * t.sinGray == 1.0
    ensures r.v1X * r.v1X + r.v1Y * r.v1Y == r.v1Magnitude * r.v1Magnitude
    ensures r.v1X * t.cosGray + (-r.v1Y) * t.sinGray == 0.0
    ensures t.cosGray * (-r.v1Y) - t.sinGray * r.v1X == Turn(r.angularVelocity) * r.v1Magnitude
  {
    FrameVelocityTerms(kind, s, dt, t);
    VelocityPerpendicular(r.v1Magnitude, Turn(r.angularVelocity), t.cosGray, t.sinGray, r.v1X, r.v1Y);
  }

  /**
   * Likewise for P2, perpendicular to the gold arm (whose direction for D2 is
   * the rotation itself, for the others 50 degrees plus the rotation).
   */
  lemma FrameP2Direction(kind: Kind, s: LeverState, dt: real, t: FrameTrig, r: LeverState)
    requires r == Updated(kind, s, dt, true, t)
    requires GoldCos(kind, t) * GoldCos(kind, t) + GoldSin(kind, t) * GoldSin(kind, t) == 1.0
    ensures r.v2X * r.v2X + r.v2Y * r.v2Y == r.v2Magnitude * r.v2Magnitude
    ensures r.v2X * GoldCos(kind, t) + (-r.v2Y) * GoldSin(kind, t) == 0.0
    ensures GoldCos(kind, t) * (-r.v2Y) - GoldSin(kind, t) * r.v2X == Turn(r.angularVelocity) * r.v2Magnitude
  {
    FrameVelocityTerms(kind, s, dt, t);
    VelocityPerpendicular(r.v2Magnitude, Turn(r.angularVelocity), GoldCos(kind, t), GoldSin(kind, t), r.v2X, r.v2Y);
  }
}
