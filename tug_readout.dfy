/**
 * The figures the tug calculator's right-hand panel derives for the selected
 * configuration: a four-level effort assessment of the handle force and the
 * motor torque in three units. Fonts, colours and layout are not modelled.
 */
module TugReadout {
  import opened Tug

  const EASY_LIMIT: real := 50.0
  const MODERATE_LIMIT: real := 100.0
  const SIGNIFICANT_LIMIT: real := 150.0
  /** 1 lb-ft = 1.35582 N m, 1 N m = 10.1972 kg cm. */
  const NM_PER_LB_FT: real := 1.35582
  const KGCM_PER_NM: real := 10.1972

  /** The effort levels, from least to most demanding. */
  datatype Effort = Easy | Moderate | Significant | MotorRecommended {
    function Rank(): nat
    {
      match this
      case Easy => 0
      case Moderate => 1
      case Significant => 2
      case MotorRecommended => 3
    }

    /** The note the panel shows. */
    function Note(): string
    {
      match this
      case Easy => "Easy for most adults"
      case Moderate => "Moderate effort"
      case Significant => "Significant effort"
      case MotorRecommended => "Motor recommended"
    }
  }

  /**
   * The assessment of a handle force: up to 50 lb is easy, up to 100 lb
   * moderate, up to 150 lb significant, anything more calls for a motor.
   * Every force, negative ones included, gets exactly one level.
   */
  function EffortOf(fHandle: real): (e: Effort)
    ensures e == Easy <==> fHandle <= EASY_LIMIT
    ensures e == Moderate <==> EASY_LIMIT < fHandle <= MODERATE_LIMIT
    ensures e == Significant <==> MODERATE_LIMIT < fHandle <= SIGNIFICANT_LIMIT
    ensures e == MotorRecommended <==> SIGNIFICANT_LIMIT < fHandle
  {
    if fHandle <= EASY_LIMIT then Easy
    else if fHandle <= MODERATE_LIMIT then Moderate
    else if fHandle <= SIGNIFICANT_LIMIT then Significant
    else MotorRecommended
  }

  function TorqueNm(torqueLbFt: real): real
  {
    torqueLbFt * NM_PER_LB_FT
  }

  function TorqueKgcm(torqueNm: real): real
  {
    torqueNm * KGCM_PER_NM
  }

  /** What the panel shows for one configuration. */
  datatype Readout = Readout(
    handleForce: real,
    effort: Effort,
    torqueLbFt: real,
    torqueNm: real,
    torqueKgcm: real,
    powerHp: real,
    powerW: real)

  function ReadoutOf(s: TugState): (r: Readout)
    ensures r.handleForce == s.fHandle && r.effort == EffortOf(s.fHandle)
    ensures r.torqueLbFt == s.motorTorque
    ensures r.torqueNm == s.motorTorque * NM_PER_LB_FT
    ensures r.torqueKgcm == r.torqueNm * KGCM_PER_NM
    ensures r.powerHp == s.motorPowerHp && r.powerW == s.motorPowerW
  {
    var nm := TorqueNm(s.motorTorque);
    Readout(s.fHandle, EffortOf(s.fHandle), s.motorTorque, nm, TorqueKgcm(nm),
            s.motorPowerHp, s.motorPowerW)
  }

  /** A larger handle force never gets a lighter assessment. */
  lemma EffortMonotone(f1: real, f2: real)
    requires f1 <= f2
    ensures EffortOf(f1).Rank() <= EffortOf(f2).Rank()
  {
  }

  /** The two conversions compose to a single factor, and keep the sign and order of torques. */
  lemma TorqueConversions(t1: real, t2: real)
    ensures TorqueKgcm(TorqueNm(t1)) == t1 * (NM_PER_LB_FT * KGCM_PER_NM)
    ensures t1 >= 0.0 ==> TorqueNm(t1) >= 0.0 && TorqueKgcm(TorqueNm(t1)) >= 0.0
    ensures t1 <= t2 ==> TorqueKgcm(TorqueNm(t1)) <= TorqueKgcm(TorqueNm(t2))
  {
    assert TorqueKgcm(TorqueNm(t2)) - TorqueKgcm(TorqueNm(t1)) == (t2 - t1) * (NM_PER_LB_FT * KGCM_PER_NM);
  }

  /** The readout of a stored calculation shows non-negative torques and powers. */
  lemma ReadoutNonNegative(s: TugState, pull: real)
    ensures var r := ReadoutOf(Forces(s, pull));
            r.torqueLbFt >= 0.0 && r.torqueNm >= 0.0 && r.torqueKgcm >= 0.0 &&
            r.powerHp >= 0.0 && r.powerW >= 0.0
  {
    var f := Forces(s, pull);
    TorqueConversions(f.motorTorque, f.motorTorque);
    assert f.motorPowerHp == f.motorTorque * (TARGET_SPEED_FPS / TIRE_RADIUS_FT) / FT_LB_PER_S_PER_HP;
  }

  /**
   * Each threshold belongs to the lighter level: 50 lb is easy, 100 lb
   * moderate, 150 lb significant. A negative (downhill) handle force reads easy.
   */
  lemma EffortBoundaries()
    ensures EffortOf(50.0) == Easy && EffortOf(50.5) == Moderate
    ensures EffortOf(100.0) == Moderate && EffortOf(150.0) == Significant
    ensures EffortOf(150.5) == MotorRecommended
    ensures EffortOf(-60.0) == Easy
  {
  }
}
