/**
 * The manager of the aircraft tire tug calculator: the aircraft weight, the
 * incline and the rolling surface fix the pull the tug must deliver, and that
 * pull, with the two arm sliders, is pushed into six lever configurations
 * side by side.
 */
module TugCalculation {
  import opened Wrappers
  import opened Numerics
  import opened Sliders
  import opened Tug
  import opened TugReadout

  const DEFAULT_AIRCRAFT_WEIGHT: real := 3000.0
  const DEFAULT_INCLINE: real := 0.0
  const CLEAN_CONCRETE: string := "Clean Concrete"

  /** A rolling surface and its rolling-resistance coefficient. */
  datatype Surface = Surface(name: string, coeff: real)

  /** The surface presets, in the order their buttons are laid out. */
  const FRICTION_PRESETS: seq<Surface> :=
    [Surface(CLEAN_CONCRETE, 0.015), Surface("Asphalt", 0.020), Surface("Gravel", 0.035),
     Surface("Dirt Road", 0.045), Surface("Grass", 0.070)]

  /** The six configurations in panel order, with their titles. */
  const DIAGRAM_KINDS: seq<Kind> := [D1a, D1b, D2, D3a, D3b, D4]
  const DIAGRAM_NAMES: seq<string> :=
    ["D1a: L-Shape", "D1b: L-Shape (X1)", "D2: Horizontal",
     "D3a: Angled", "D3b: Angled (X1)", "D4: Extended"]

  /** The index of the first preset at or after `i` called `name`, or |FRICTION_PRESETS|. */
  function FindPreset(name: string, i: nat): (k: nat)
    requires i <= |FRICTION_PRESETS|
    ensures i <= k <= |FRICTION_PRESETS|
    ensures k < |FRICTION_PRESETS| ==> FRICTION_PRESETS[k].name == name
    ensures forall j :: i <= j < k ==> FRICTION_PRESETS[j].name != name
    decreases |FRICTION_PRESETS| - i
  {
    if i == |FRICTION_PRESETS| then i
    else if FRICTION_PRESETS[i].name == name then i
    else FindPreset(name, i + 1)
  }

  /** The coefficient the preset table holds under `name`; None where the table has no such key. */
  function PresetCoeff(name: string): (r: Option<real>)
    ensures r.Some? <==> exists k :: 0 <= k < |FRICTION_PRESETS| && FRICTION_PRESETS[k].name == name
    ensures forall k :: 0 <= k < |FRICTION_PRESETS| && FRICTION_PRESETS[k].name == name ==>
              r == Some(FRICTION_PRESETS[k].coeff)
  {
    PresetNamesDistinct();
    var k := FindPreset(name, 0);
    if k < |FRICTION_PRESETS| then Some(FRICTION_PRESETS[k].coeff) else None
  }

  /** No two presets share a name, so a name picks out at most one button. */
  lemma PresetNamesDistinct()
    ensures forall i, j ::
              0 <= i < |FRICTION_PRESETS| && 0 <= j < |FRICTION_PRESETS| &&
              FRICTION_PRESETS[i].name == FRICTION_PRESETS[j].name
              ==> i == j
  {
    forall i, j | 0 <= i < |FRICTION_PRESETS| && 0 <= j < |FRICTION_PRESETS| &&
                  FRICTION_PRESETS[i].name == FRICTION_PRESETS[j].name
      ensures i == j
    {
      assert |FRICTION_PRESETS[i].name| == |FRICTION_PRESETS[j].name|;
    }
  }

  /** Exactly one preset carries a name the table holds. */
  lemma ExactlyOneMatch(name: string)
    requires PresetCoeff(name).Some?
    ensures exists k :: 0 <= k < |FRICTION_PRESETS| && FRICTION_PRESETS[k].name == name &&
              forall j :: 0 <= j < |FRICTION_PRESETS| && FRICTION_PRESETS[j].name == name ==> j == k
  {
    PresetNamesDistinct();
    var k := FindPreset(name, 0);
    assert FRICTION_PRESETS[k].name == name;
  }

  /** The default surface is the first button, with coefficient 0.015. */
  lemma CleanConcreteIsFirst()
    ensures PresetCoeff(CLEAN_CONCRETE) == Some(0.015)
    ensures forall k :: 0 <= k < |FRICTION_PRESETS| ==> (FRICTION_PRESETS[k].name == CLEAN_CONCRETE <==> k == 0)
  {
    PresetNamesDistinct();
    assert FRICTION_PRESETS[0].name == CLEAN_CONCRETE;
  }

  /** Rolling resistance `mu W cos(theta)`, with the cosine of the incline given. */
  function RollingForce(mu: real, weight: real, cosIncline: real): real
  {
    mu * weight * cosIncline
  }

  /** Grade resistance `W sin(theta)`, negative downhill. */
  function GradeForce(weight: real, sinIncline: real): real
  {
    weight * sinIncline
  }

  /** The pull the tug must deliver; it is not clamped at zero. */
  function PullTotal(mu: real, weight: real, cosIncline: real, sinIncline: real): real
  {
    RollingForce(mu, weight, cosIncline) + GradeForce(weight, sinIncline)
  }

  /**
   * For a positive weight the pull is negative exactly when the slope's pull
   * outweighs rolling resistance, `mu cos(theta) + sin(theta) < 0`; the
   * weight only scales it.
   */
  lemma PullNegativeIff(mu: real, weight: real, cosIncline: real, sinIncline: real)
    requires weight > 0.0
    ensures PullTotal(mu, weight, cosIncline, sinIncline) < 0.0 <==> mu * cosIncline + sinIncline < 0.0
  {
    assert PullTotal(mu, weight, cosIncline, sinIncline) == weight * (mu * cosIncline + sinIncline);
  }

  /**
   * On concrete, at any incline of 2 degrees downhill or steeper
   * (sin 2 degrees is about 0.0349), a 3000 lb aircraft needs a pull below
   * -59 lb: the calculator reports the negative value as is.
   */
  lemma DownhillPullNegative(cosIncline: real, sinIncline: real)
    requires UnitPair(cosIncline, sinIncline) && sinIncline <= -0.0348
    ensures PullTotal(0.015, DEFAULT_AIRCRAFT_WEIGHT, cosIncline, sinIncline) < -59.0
  {
  }

  /** On the level the pull is rolling resistance alone: 45 lb for the defaults. */
  lemma LevelPull(mu: real, weight: real)
    ensures PullTotal(mu, weight, 1.0, 0.0) == mu * weight
    ensures PullTotal(0.015, DEFAULT_AIRCRAFT_WEIGHT, 1.0, 0.0) == 45.0
  {
  }

  /** Configurations 1b and 3b take the aircraft-arm slider as their X1 target. */
  predicate Constrained(kind: Kind)
  {
    kind == D1b || kind == D3b
  }

  /** The handle and aircraft arm a configuration is built with: 4 ft and 2 ft for D4, else 3 ft and 1.5 ft. */
  function BuiltHandle(kind: Kind): real
  {
    if kind == D4 then 4.0 else DEFAULT_HANDLE_LENGTH
  }

  function BuiltArm(kind: Kind): real
  {
    if kind == D4 then 2.0 else DEFAULT_AIRCRAFT_ARM
  }

  /** A configuration as its own constructor leaves it. */
  function Built(kind: Kind): TugState
  {
    Recalculated(kind, Constrained(kind), Fresh(BuiltHandle(kind), BuiltArm(kind)), None)
  }

  /** The extended configuration D4 runs one foot more handle and half a foot more arm than the sliders. */
  function HandleFor(kind: Kind, handle: real): real
  {
    if kind == D4 then handle + 1.0 else handle
  }

  function ArmFor(kind: Kind, arm: real): real
  {
    if kind == D4 then arm + 0.5 else arm
  }

  /** What `_update_calculations()` does to one configuration: new arm lengths, then forces for the pull. */
  function Pushed(kind: Kind, s: TugState, handle: real, arm: real, pull: real): TugState
  {
    Forces(WithArmLengths(kind, Constrained(kind), s, HandleFor(kind, handle), ArmFor(kind, arm)), pull)
  }

  /**
   * After an update a configuration depends on the sliders and the pull
   * alone: whatever state it was in before is entirely overwritten.
   */
  lemma PushedForgetsHistory(kind: Kind, s: TugState, t: TugState, handle: real, arm: real, pull: real)
    ensures Pushed(kind, s, handle, arm, pull) == Pushed(kind, t, handle, arm, pull)
  {
    var h, a := HandleFor(kind, handle), ArmFor(kind, arm);
    var ws, wt := WithArmLengths(kind, Constrained(kind), s, h, a), WithArmLengths(kind, Constrained(kind), t, h, a);
    if Constrained(kind) {
      assert ws.aircraftArm == a / COS50 == wt.aircraftArm;
    }
    assert ws.x1Current == wt.x1Current;
  }

  /** Updating twice with the same sliders and pull is the same as once. */
  lemma PushedIdempotent(kind: Kind, s: TugState, handle: real, arm: real, pull: real)
    ensures Pushed(kind, Pushed(kind, s, handle, arm, pull), handle, arm, pull) == Pushed(kind, s, handle, arm, pull)
  {
    PushedForgetsHistory(kind, Pushed(kind, s, handle, arm, pull), s, handle, arm, pull);
  }

  /**
   * The geometry and the lever law of each configuration after an update:
   * X1 is the arm for D2, the arm plus 0.5 ft for D4 (on a handle 1 ft
   * longer), the arm projected at 50 degrees for D1a and D3a, and the slider
   * value itself for D1b and D3b; every configuration carries the whole pull
   * and balances it on its handle.
   */
  lemma PushedGeometry(kind: Kind, s: TugState, handle: real, arm: real, pull: real)
    ensures var r := Pushed(kind, s, handle, arm, pull);
      && r.fPull == pull
      && r.x1Current == r.x1Initial
      && r.handleLength == (if kind == D4 then handle + 1.0 else handle)
      && (kind == D2 ==> r.x1Initial == arm)
      && (kind == D4 ==> r.x1Initial == arm + 0.5)
      && ((kind == D1a || kind == D3a) ==> r.x1Initial == arm * COS50)
      && ((kind == D1b || kind == D3b) ==> r.x1Initial == arm && r.aircraftArm * COS50 == arm)
      && (r.handleLength > MIN_HANDLE_LENGTH ==> r.fHandle * r.handleLength == pull * r.x1Initial)
  {
  }

  /**
   * With the default sliders on level concrete every configuration needs a
   * 22.5 lb handle force, except the projected ones (D1a, D3a) at
   * 22.5 cos 50 lb; all of them are easy.
   */
  lemma DefaultHandleForces(kind: Kind, s: TugState)
    ensures var r := Pushed(kind, s, DEFAULT_HANDLE_LENGTH, DEFAULT_AIRCRAFT_ARM, 45.0);
      && r.fHandle == (if kind == D1a || kind == D3a then 22.5 * COS50 else 22.5)
      && EffortOf(r.fHandle) == Easy
  {
    var h := HandleFor(kind, DEFAULT_HANDLE_LENGTH);
    var r := Pushed(kind, s, DEFAULT_HANDLE_LENGTH, DEFAULT_AIRCRAFT_ARM, 45.0);
    assert r.fHandle * h == 45.0 * r.x1Initial;
  }

  /** One surface button; it remembers the preset it selects. */
  class SurfaceButton {
    const name: string
    const coeff: real
    var active: bool

    constructor (name: string, coeff: real, active: bool)
      ensures this.name == name && this.coeff == coeff && this.active == active
    {
      this.name := name;
      this.coeff := coeff;
      this.active := active;
    }
  }

  class TugCalculator {
    /** The six configurations in panel order D1a, D1b, D2, D3a, D3b, D4. */
    const diagrams: seq<TugDiagram>
    /** The surface buttons, one per preset, in preset order. */
    const buttons: seq<SurfaceButton>
    const weightSlider: Slider
    const inclineSlider: Slider
    const handleSlider: Slider
    const aircraftArmSlider: Slider

    var aircraftWeight: real
    var inclineDeg: real
    var currentSurface: string
    var frictionCoeff: real
    var fRolling: real
    var fGrade: real
    var fPullTotal: real
    var selectedIdx: nat

    /** The fixed layout the constructor builds. */
    ghost predicate Valid()
    {
      DiagramsValid() && ButtonsValid() && SlidersValid()
    }

    /** Six distinct configurations in panel order, 1b and 3b constrained. */
    ghost predicate DiagramsValid()
    {
      && |diagrams| == |DIAGRAM_KINDS|
      && (forall k :: 0 <= k < |diagrams| ==>
            diagrams[k].kind == DIAGRAM_KINDS[k] && diagrams[k].x1Constrained == Constrained(DIAGRAM_KINDS[k]))
      && (forall i, j :: 0 <= i < j < |diagrams| ==> diagrams[i] != diagrams[j])
    }

    /** One distinct button per preset, in preset order. */
    ghost predicate ButtonsValid()
    {
      && |buttons| == |FRICTION_PRESETS|
      && (forall k :: 0 <= k < |buttons| ==>
            buttons[k].name == FRICTION_PRESETS[k].name && buttons[k].coeff == FRICTION_PRESETS[k].coeff)
      && (forall i, j :: 0 <= i < j < |buttons| ==> buttons[i] != buttons[j])
    }

    /** Four distinct sliders with the calculator's ranges. */
    ghost predicate SlidersValid()
    {
      && weightSlider != inclineSlider && weightSlider != handleSlider && weightSlider != aircraftArmSlider
      && inclineSlider != handleSlider && inclineSlider != aircraftArmSlider && handleSlider != aircraftArmSlider
      && weightSlider.minVal == 500.0 && weightSlider.maxVal == 10000.0
      && inclineSlider.minVal == -2.0 && inclineSlider.maxVal == 2.0
      && handleSlider.minVal == 1.0 && handleSlider.maxVal == 6.0
      && aircraftArmSlider.minVal == 0.5 && aircraftArmSlider.maxVal == 4.0
    }

    /**
     * The calculator as it starts: default sliders, clean concrete, the
     * first configuration selected, and every configuration updated for the
     * level 45 lb pull.
     */
    constructor ()
      ensures Valid()
      ensures forall k :: 0 <= k < |diagrams| ==> fresh(diagrams[k]) && diagrams[k].name == DIAGRAM_NAMES[k]
      ensures forall k :: 0 <= k < |buttons| ==> fresh(buttons[k])
      ensures weightSlider.value == DEFAULT_AIRCRAFT_WEIGHT && inclineSlider.value == DEFAULT_INCLINE
      ensures handleSlider.value == DEFAULT_HANDLE_LENGTH && aircraftArmSlider.value == DEFAULT_AIRCRAFT_ARM
      ensures currentSurface == CLEAN_CONCRETE && frictionCoeff == 0.015 && selectedIdx == 0
      ensures forall k :: 0 <= k < |buttons| ==> (buttons[k].active <==> k == 0)
      ensures aircraftWeight == DEFAULT_AIRCRAFT_WEIGHT && inclineDeg == DEFAULT_INCLINE
      ensures fRolling == 45.0 && fGrade == 0.0 && fPullTotal == 45.0
      ensures forall k :: 0 <= k < |diagrams| ==>
        diagrams[k].State() ==
          Pushed(diagrams[k].kind, Built(diagrams[k].kind), DEFAULT_HANDLE_LENGTH, DEFAULT_AIRCRAFT_ARM, 45.0)
    {
      CleanConcreteIsFirst();
      aircraftWeight := DEFAULT_AIRCRAFT_WEIGHT;
      inclineDeg := DEFAULT_INCLINE;
      currentSurface := CLEAN_CONCRETE;
      frictionCoeff := PresetCoeff(CLEAN_CONCRETE).value;
      fRolling, fGrade, fPullTotal := 0.0, 0.0, 0.0;
      var ds := TugCalculator.NewDiagrams();
      diagrams := ds;
      selectedIdx := 0;
      weightSlider := new Slider(20, 160, 500.0, 10000.0, DEFAULT_AIRCRAFT_WEIGHT);
      var bs := TugCalculator.NewButtons(CLEAN_CONCRETE);
      buttons := bs;
      inclineSlider := new Slider(20, 160, -2.0, 2.0, DEFAULT_INCLINE);
      handleSlider := new Slider(20, 160, 1.0, 6.0, DEFAULT_HANDLE_LENGTH);
      aircraftArmSlider := new Slider(20, 160, 0.5, 4.0, DEFAULT_AIRCRAFT_ARM);
      new;
      UpdateCalculations(1.0, 0.0);
      LevelPull(0.015, DEFAULT_AIRCRAFT_WEIGHT);
    }

    /** The six configurations, each as its own constructor leaves it. */
    static method NewDiagrams() returns (ds: seq<TugDiagram>)
      ensures |ds| == |DIAGRAM_KINDS| && |ds| == |DIAGRAM_NAMES|
      ensures forall k :: 0 <= k < |ds| ==> fresh(ds[k])
      ensures forall k :: 0 <= k < |ds| ==>
        ds[k].kind == DIAGRAM_KINDS[k] && ds[k].name == DIAGRAM_NAMES[k] &&
        ds[k].x1Constrained == Constrained(DIAGRAM_KINDS[k])
      ensures forall i, j :: 0 <= i < j < |ds| ==> ds[i] != ds[j]
      ensures forall k :: 0 <= k < |ds| ==> ds[k].State() == Built(ds[k].kind)
    {
      ds := [];
      for k := 0 to |DIAGRAM_KINDS|
        invariant |ds| == k
        invariant forall m :: 0 <= m < k ==> fresh(ds[m])
        invariant forall m :: 0 <= m < k ==>
          ds[m].kind == DIAGRAM_KINDS[m] && ds[m].name == DIAGRAM_NAMES[m] &&
          ds[m].x1Constrained == Constrained(DIAGRAM_KINDS[m])
        invariant forall i, j :: 0 <= i < j < k ==> ds[i] != ds[j]
        invariant forall m :: 0 <= m < k ==> ds[m].State() == Built(ds[m].kind)
      {
        var kind := DIAGRAM_KINDS[k];
        var d := new TugDiagram(kind, DIAGRAM_NAMES[k], BuiltHandle(kind), BuiltArm(kind), Constrained(kind));
        ds := ds + [d];
      }
    }

    /** One button per preset, in preset order; the one named `current` is active. */
    static method NewButtons(current: string) returns (bs: seq<SurfaceButton>)
      ensures |bs| == |FRICTION_PRESETS|
      ensures forall k :: 0 <= k < |bs| ==> fresh(bs[k])
      ensures forall k :: 0 <= k < |bs| ==>
        bs[k].name == FRICTION_PRESETS[k].name && bs[k].coeff == FRICTION_PRESETS[k].coeff &&
        (bs[k].active <==> FRICTION_PRESETS[k].name == current)
      ensures forall i, j :: 0 <= i < j < |bs| ==> bs[i] != bs[j]
    {
      bs := [];
      for i := 0 to |FRICTION_PRESETS|
        invariant |bs| == i
        invariant forall m :: 0 <= m < i ==> fresh(bs[m])
        invariant forall m :: 0 <= m < i ==>
          bs[m].name == FRICTION_PRESETS[m].name && bs[m].coeff == FRICTION_PRESETS[m].coeff &&
          (bs[m].active <==> FRICTION_PRESETS[m].name == current)
        invariant forall m, n :: 0 <= m < n < i ==> bs[m] != bs[n]
      {
        var preset := FRICTION_PRESETS[i];
        var btn := new SurfaceButton(preset.name, preset.coeff, preset.name == current);
        bs := bs + [btn];
      }
    }

    /**
     * `_update_calculations()`: read weight and incline, derive the pull, and
     * push the arm sliders and the pull into every configuration.
     * `cosIncline` and `sinIncline` are the cosine and sine of the incline
     * slider's value in degrees.
     */
    method UpdateCalculations(cosIncline: real, sinIncline: real)
      requires Valid() && UnitPair(cosIncline, sinIncline)
      modifies this`aircraftWeight, this`inclineDeg, this`fRolling, this`fGrade, this`fPullTotal, diagrams
      ensures aircraftWeight == weightSlider.value && inclineDeg == inclineSlider.value
      ensures fRolling == RollingForce(frictionCoeff, aircraftWeight, cosIncline)
      ensures fGrade == GradeForce(aircraftWeight, sinIncline)
      ensures fPullTotal == PullTotal(frictionCoeff, aircraftWeight, cosIncline, sinIncline)
      ensures forall k :: 0 <= k < |diagrams| ==> diagrams[k].fPull == fPullTotal
      ensures forall k :: 0 <= k < |diagrams| ==>
        diagrams[k].State() ==
          Pushed(diagrams[k].kind, old(diagrams[k].State()), handleSlider.value, aircraftArmSlider.value, fPullTotal)
    {
      aircraftWeight := weightSlider.value;
      inclineDeg := inclineSlider.value;
      fRolling := frictionCoeff * aircraftWeight * cosIncline;
      fGrade := aircraftWeight * sinIncline;
      fPullTotal := fRolling + fGrade;
      PushToDiagrams(handleSlider.value, aircraftArmSlider.value, fPullTotal);
    }

    /** The loop of `_update_calculations()` over the configurations. */
    method PushToDiagrams(handle: real, arm: real, pull: real)
      requires Valid()
      modifies diagrams
      ensures forall k :: 0 <= k < |diagrams| ==>
        diagrams[k].State() == Pushed(diagrams[k].kind, old(diagrams[k].State()), handle, arm, pull)
    {
      for i := 0 to |diagrams|
        invariant forall k :: 0 <= k < i ==>
          diagrams[k].State() == Pushed(diagrams[k].kind, old(diagrams[k].State()), handle, arm, pull)
        invariant forall k :: i <= k < |diagrams| ==> diagrams[k].State() == old(diagrams[k].State())
      {
        var diag := diagrams[i];
        if diag.kind == D4 {
          diag.SetArmLengths(handle + 1.0, arm + 0.5);
        } else {
          diag.SetArmLengths(handle, arm);
        }
        var _ := diag.CalculateForces(pull);
      }
    }

    /** The loop of `_select_surface(name, coeff)` over the buttons. */
    method ActivateButtons(name: string)
      requires Valid()
      modifies buttons
      ensures forall k :: 0 <= k < |buttons| ==> (buttons[k].active <==> buttons[k].name == name)
    {
      for i := 0 to |buttons|
        invariant forall k :: 0 <= k < i ==> (buttons[k].active <==> buttons[k].name == name)
      {
        buttons[i].active := buttons[i].name == name;
      }
    }

    /**
     * `_select_surface(name, coeff)`: make `name` the surface with
     * coefficient `coeff`, light exactly the buttons called `name`, and
     * recalculate.
     */
    method SelectSurface(name: string, coeff: real, cosIncline: real, sinIncline: real)
      requires Valid() && UnitPair(cosIncline, sinIncline)
      modifies this`currentSurface, this`frictionCoeff, buttons
      modifies this`aircraftWeight, this`inclineDeg, this`fRolling, this`fGrade, this`fPullTotal, diagrams
      ensures currentSurface == name && frictionCoeff == coeff
      ensures forall k :: 0 <= k < |buttons| ==> (buttons[k].active <==> buttons[k].name == name)
      ensures aircraftWeight == weightSlider.value && inclineDeg == inclineSlider.value
      ensures fRolling == RollingForce(coeff, aircraftWeight, cosIncline)
      ensures fGrade == GradeForce(aircraftWeight, sinIncline)
      ensures fPullTotal == PullTotal(coeff, aircraftWeight, cosIncline, sinIncline)
      ensures forall k :: 0 <= k < |diagrams| ==>
        diagrams[k].State() ==
          Pushed(diagrams[k].kind, old(diagrams[k].State()), handleSlider.value, aircraftArmSlider.value, fPullTotal)
    {
      currentSurface := name;
      frictionCoeff := coeff;
      ActivateButtons(name);
      UpdateCalculations(cosIncline, sinIncline);
    }

    /**
     * `reset()`: the four sliders back to their defaults, clean concrete
     * selected (on the level, so the incline's cosine is 1 and its sine 0),
     * and the first configuration selected.
     */
    method Reset()
      requires Valid()
      modifies this, diagrams, buttons, weightSlider, inclineSlider, handleSlider, aircraftArmSlider
      ensures weightSlider.value == DEFAULT_AIRCRAFT_WEIGHT && inclineSlider.value == DEFAULT_INCLINE
      ensures handleSlider.value == DEFAULT_HANDLE_LENGTH && aircraftArmSlider.value == DEFAULT_AIRCRAFT_ARM
      ensures currentSurface == CLEAN_CONCRETE && frictionCoeff == 0.015 && selectedIdx == 0
      ensures forall k :: 0 <= k < |buttons| ==> (buttons[k].active <==> k == 0)
      ensures aircraftWeight == DEFAULT_AIRCRAFT_WEIGHT && inclineDeg == DEFAULT_INCLINE
      ensures fRolling == 45.0 && fGrade == 0.0 && fPullTotal == 45.0
      ensures forall k :: 0 <= k < |diagrams| ==>
        diagrams[k].State() ==
          Pushed(diagrams[k].kind, old(diagrams[k].State()), DEFAULT_HANDLE_LENGTH, DEFAULT_AIRCRAFT_ARM, 45.0)
    {
      weightSlider.Reset(DEFAULT_AIRCRAFT_WEIGHT);
      inclineSlider.Reset(DEFAULT_INCLINE);
      handleSlider.Reset(DEFAULT_HANDLE_LENGTH);
      aircraftArmSlider.Reset(DEFAULT_AIRCRAFT_ARM);
      CleanConcreteIsFirst();
      SelectSurface(CLEAN_CONCRETE, PresetCoeff(CLEAN_CONCRETE).value, 1.0, 0.0);
      selectedIdx := 0;
      LevelPull(0.015, DEFAULT_AIRCRAFT_WEIGHT);
    }
  }
}
