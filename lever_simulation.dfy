/**
 * The manager of the dynamic lever simulation: five lever diagrams side by
 * side, three sliders whose values it pushes into every diagram, a
 * start/pause flag, and the panel colouring that groups diagrams by their
 * output force F2.
 */
module LeverSimulation {
  import opened Wrappers
  import opened Numerics
  import opened Sliders
  import opened Lever
  import opened PanelGroups

  /** An RGB colour triple. */
  datatype Rgb = Rgb(red: int, green: int, blue: int)

  /** Panel background colours, one per F2 group, reused cyclically after six groups. */
  const PANEL_GROUP_COLORS: seq<Rgb> :=
    [Rgb(25, 45, 55), Rgb(35, 50, 40), Rgb(30, 35, 55),
     Rgb(45, 40, 50), Rgb(40, 50, 45), Rgb(25, 40, 50)]

  /** The diagram kinds in panel order: 1a, 1b, 2, 3a, 3b. */
  const PANEL_KINDS: seq<Kind> := [D1a, D1b, D2, D3a, D3b]
  const PANEL_NAMES: seq<string> := ["Diagram 1a", "Diagram 1b", "Diagram 2", "Diagram 3a", "Diagram 3b"]

  /** The colour of the panel whose diagram is in group `gid`. */
  function PanelColor(gid: nat): (c: Rgb)
    ensures c in PANEL_GROUP_COLORS
    ensures c == PANEL_GROUP_COLORS[gid % |PANEL_GROUP_COLORS|]
  {
    PANEL_GROUP_COLORS[gid % |PANEL_GROUP_COLORS|]
  }

  /** The F2 output of each diagram, in panel order. */
  function F2Values(ds: seq<LeverDiagram>): (v: seq<real>)
    reads set d | d in ds
    ensures |v| == |ds|
    ensures forall k :: 0 <= k < |ds| ==> v[k] == ds[k].f2Result
  {
    if ds == [] then [] else F2Values(ds[..|ds| - 1]) + [ds[|ds| - 1].f2Result]
  }

  /**
   * What `reset()` of the manager does to one diagram: F1 back to 200, the
   * default arm lengths pushed in, then the diagram itself brought to rest.
   */
  function ResetState(kind: Kind, s: LeverState): LeverState
  {
    Rested(WithArmLengths(kind, s.(f1 := DEFAULT_F1), C_DISTANCE, FIRST_SEGMENT_LENGTH))
  }

  /** The state of a diagram as its own constructor leaves it. */
  function InitialState(kind: Kind): LeverState
  {
    Recalculated(kind, Fresh, None)
  }

  /**
   * A diagram after the manager's constructor: built, then given the F1
   * slider's and both arm sliders' initial values.
   */
  function Started(kind: Kind): LeverState
  {
    WithArmLengths(kind, InitialState(kind).(f1 := DEFAULT_F1), C_DISTANCE, FIRST_SEGMENT_LENGTH)
  }

  /**
   * Pushing the initial slider values into a newly built diagram changes
   * nothing: the diagram's own defaults are the sliders' defaults.
   */
  lemma DefaultsMatchFresh(kind: Kind)
    ensures Started(kind) == InitialState(kind)
  {
  }

  /**
   * After a reset every diagram is level, at rest, with F1 = 200 lb, the
   * 3 ft grey arm and the 1.5 ft default for the gold arm (or for X1 on the
   * constrained diagrams), and X1 back at its initial value.
   */
  lemma ResetDefaults(kind: Kind, s: LeverState)
    ensures ResetState(kind, s).rotation == 0.0
    ensures ResetState(kind, s).angularVelocity == 0.0
    ensures ResetState(kind, s).x1Current == ResetState(kind, s).x1Initial
    ensures ResetState(kind, s).f1 == DEFAULT_F1
    ensures ResetState(kind, s).arm1Length == C_DISTANCE
    ensures kind == D2 ==> ResetState(kind, s).x1Initial == FIRST_SEGMENT_LENGTH
    ensures kind == D2 ==> ResetState(kind, s).arm2Length == FIRST_SEGMENT_LENGTH
    ensures (kind == D1a || kind == D3a) ==>
      ResetState(kind, s).x1Initial == FIRST_SEGMENT_LENGTH * COS50
    ensures kind.X1Constrained() ==> ResetState(kind, s).x1Initial == X1_INITIAL_B_VARIANTS
    ensures kind.X1Constrained() ==> ResetState(kind, s).arm2Length * COS50 == X1_INITIAL_B_VARIANTS
  {
  }

  /** Resetting twice is the same as resetting once. */
  lemma ResetIdempotent(kind: Kind, s: LeverState)
    ensures ResetState(kind, ResetState(kind, s)) == ResetState(kind, s)
  {
    var r := ResetState(kind, s);
    if kind.X1Constrained() {
      assert r.arm2Length == X1_INITIAL_B_VARIANTS / COS50;
    }
  }

  /** A reset discards the motion and the slider history, keeping only the last readings. */
  lemma ResetForgetsHistory(kind: Kind, s: LeverState, t: LeverState)
    requires s.f2Result == t.f2Result && s.netTorque == t.netTorque
    requires s.v1Magnitude == t.v1Magnitude && s.v1X == t.v1X && s.v1Y == t.v1Y
    requires s.v2Magnitude == t.v2Magnitude && s.v2X == t.v2X && s.v2Y == t.v2Y
    ensures ResetState(kind, s) == ResetState(kind, t)
  {
    if kind.X1Constrained() {
      assert ResetState(kind, s).arm2Length == X1_INITIAL_B_VARIANTS / COS50;
      assert ResetState(kind, t).arm2Length == X1_INITIAL_B_VARIANTS / COS50;
    }
  }

  /** The manager's reset leaves each diagram where the manager's constructor started it. */
  lemma ResetRestoresInitial(kind: Kind, s: LeverState)
    requires s.f2Result == 0.0 && s.netTorque == 0.0
    requires s.v1Magnitude == 0.0 && s.v1X == 0.0 && s.v1Y == 0.0
    requires s.v2Magnitude == 0.0 && s.v2X == 0.0 && s.v2Y == 0.0
    ensures ResetState(kind, s) == InitialState(kind)
  {
    ResetForgetsHistory(kind, s, Recalculated(kind, Fresh, None));
  }

  /**
   * Distinct groups among the first six get distinct colours; beyond six the
   * palette is reused, so group g and group g + 6 share a colour.
   */
  lemma GroupColorsDistinct(g: nat, h: nat)
    ensures g < 6 && h < 6 && g != h ==> PanelColor(g) != PanelColor(h)
    ensures PanelColor(g) == PanelColor(g + 6)
  {
  }

  /**
   * The F2 a diagram shows after the first paused frame from where the
   * manager's constructor started it, with the lever level: F1 = 200 lb on
   * the 3 ft grey arm against X1 = 1.5 cos 50 ft for the unconstrained bent
   * diagrams 1a and 3a, and against X1 = 1.5 ft for the other three.
   */
  lemma FirstFrameF2(kind: Kind, dt: real, t: FrameTrig)
    requires t.Unit() && t.cosRot == 1.0
    ensures Updated(kind, Started(kind), dt, false, t).f2Result ==
              LeverForce(DEFAULT_F1, C_DISTANCE,
                         if kind == D1a || kind == D3a then FIRST_SEGMENT_LENGTH * COS50
                         else FIRST_SEGMENT_LENGTH)
  {
    DefaultsMatchFresh(kind);
  }

  /**
   * In the first paused frame after start, with the levers level, the two
   * unconstrained bent diagrams (1a and 3a) form one colour group and the
   * three diagrams with X1 = 1.5 ft form the other.
   */
  lemma DefaultPanelGroups(dt: real, t: FrameTrig, v: seq<real>)
    requires t.Unit() && t.cosRot == 1.0
    requires |v| == |PANEL_KINDS|
    requires forall k :: 0 <= k < |v| ==>
               v[k] == Updated(PANEL_KINDS[k], Started(PANEL_KINDS[k]), dt, false, t).f2Result
    ensures Group(v, 0) == 0 && Group(v, 1) == 1 && Group(v, 2) == 1
    ensures Group(v, 3) == 0 && Group(v, 4) == 1
  {
    FirstFrameF2(D1a, dt, t);
    FirstFrameF2(D1b, dt, t);
    FirstFrameF2(D2, dt, t);
    FirstFrameF2(D3a, dt, t);
    FirstFrameF2(D3b, dt, t);
    DefaultForceGroups(v);
  }

  /** The grouping of the five default forces, in panel order. */
  lemma DefaultForceGroups(v: seq<real>)
    requires v == [LeverForce(DEFAULT_F1, C_DISTANCE, FIRST_SEGMENT_LENGTH * COS50),
                   LeverForce(DEFAULT_F1, C_DISTANCE, FIRST_SEGMENT_LENGTH),
                   LeverForce(DEFAULT_F1, C_DISTANCE, FIRST_SEGMENT_LENGTH),
                   LeverForce(DEFAULT_F1, C_DISTANCE, FIRST_SEGMENT_LENGTH * COS50),
                   LeverForce(DEFAULT_F1, C_DISTANCE, FIRST_SEGMENT_LENGTH)]
    ensures Group(v, 0) == 0 && Group(v, 1) == 1 && Group(v, 2) == 1
    ensures Group(v, 3) == 0 && Group(v, 4) == 1
  {
    assert v[1] == 400.0 && v[2] == 400.0 && v[4] == 400.0;
    assert v[0] == v[3];
    assert v[0] * (FIRST_SEGMENT_LENGTH * COS50) == 600.0;
    assert v[0] > 600.0;
    assert !Near(v, 0, 1);
    assert Leaders(v, 1) == [0];
    assert Leaders(v, 2) == [0, 1];
    assert [0, 1][1..] == [1];
    assert !Near(v, 0, 2) && Near(v, 1, 2);
    assert FirstNear(v, [0, 1], 2) == 1;
    assert Leaders(v, 3) == [0, 1];
    assert Near(v, 0, 3);
    assert Leaders(v, 4) == [0, 1];
    assert !Near(v, 0, 4) && Near(v, 1, 4);
    assert FirstNear(v, [0, 1], 4) == 1;
  }

  class Simulation {
    /** The five diagrams in panel order 1a, 1b, 2, 3a, 3b. */
    const diagrams: seq<LeverDiagram>
    const f1Slider: Slider
    const arm1Slider: Slider
    const arm2Slider: Slider
    var simulating: bool

    /** The fixed layout the constructor builds. */
    ghost predicate Valid()
    {
      && |diagrams| == |PANEL_KINDS|
      && (forall k :: 0 <= k < |diagrams| ==> diagrams[k].kind == PANEL_KINDS[k])
      && (forall i, j :: 0 <= i < j < |diagrams| ==> diagrams[i] != diagrams[j])
      && f1Slider != arm1Slider && f1Slider != arm2Slider && arm1Slider != arm2Slider
      && f1Slider.minVal == 10.0 && f1Slider.maxVal == 300.0
      && arm1Slider.minVal == 1.0 && arm1Slider.maxVal == 6.0
      && arm2Slider.minVal == 0.5 && arm2Slider.maxVal == 4.0
    }

    constructor ()
      ensures Valid() && !simulating
      ensures forall k :: 0 <= k < |diagrams| ==> fresh(diagrams[k]) && diagrams[k].name == PANEL_NAMES[k]
      ensures f1Slider.value == DEFAULT_F1
      ensures arm1Slider.value == C_DISTANCE && arm2Slider.value == FIRST_SEGMENT_LENGTH
      ensures forall k :: 0 <= k < |diagrams| ==>
        diagrams[k].State() == Started(diagrams[k].kind)
    {
      var ds := Simulation.NewDiagrams();
      diagrams := ds;
      f1Slider := new Slider(925, 200, 10.0, 300.0, DEFAULT_F1);
      arm1Slider := new Slider(50, 180, 1.0, 6.0, C_DISTANCE);
      arm2Slider := new Slider(1780, 180, 0.5, 4.0, FIRST_SEGMENT_LENGTH);
      simulating := false;
      new;
      UpdateForces();
      UpdateArmLengths();
    }

    /**
     * The five diagrams the constructor creates one after another (1a, 1b, 2,
     * 3a, 3b), each as its own constructor leaves it.
     */
    static method NewDiagrams() returns (ds: seq<LeverDiagram>)
      ensures |ds| == |PANEL_KINDS| && |ds| == |PANEL_NAMES|
      ensures forall k :: 0 <= k < |ds| ==> fresh(ds[k])
      ensures forall k :: 0 <= k < |ds| ==> ds[k].kind == PANEL_KINDS[k] && ds[k].name == PANEL_NAMES[k]
      ensures forall i, j :: 0 <= i < j < |ds| ==> ds[i] != ds[j]
      ensures forall k :: 0 <= k < |ds| ==> ds[k].State() == InitialState(ds[k].kind)
    {
      ds := [];
      for k := 0 to |PANEL_KINDS|
        invariant |ds| == k
        invariant forall m :: 0 <= m < k ==> fresh(ds[m])
        invariant forall m :: 0 <= m < k ==> ds[m].kind == PANEL_KINDS[m] && ds[m].name == PANEL_NAMES[m]
        invariant forall i, j :: 0 <= i < j < k ==> ds[i] != ds[j]
        invariant forall m :: 0 <= m < k ==> ds[m].State() == InitialState(ds[m].kind)
      {
        var d := new LeverDiagram(PANEL_KINDS[k], PANEL_NAMES[k]);
        ds := ds + [d];
      }
    }

    /** `_update_forces()`: every diagram takes F1 from the F1 slider. */
    method UpdateForces()
      requires Valid()
      modifies diagrams
      ensures forall k :: 0 <= k < |diagrams| ==>
        diagrams[k].State() == old(diagrams[k].State()).(f1 := f1Slider.value)
    {
      var f1 := f1Slider.value;
      for i := 0 to |diagrams|
        invariant forall k :: 0 <= k < i ==>
          diagrams[k].State() == old(diagrams[k].State()).(f1 := f1)
        invariant forall k :: i <= k < |diagrams| ==> diagrams[k].State() == old(diagrams[k].State())
      {
        diagrams[i].SetF1(f1);
      }
    }

    /** `_update_arm_lengths()`: every diagram takes both arm sliders' values. */
    method UpdateArmLengths()
      requires Valid()
      modifies diagrams
      ensures forall k :: 0 <= k < |diagrams| ==>
        diagrams[k].State() ==
          WithArmLengths(diagrams[k].kind, old(diagrams[k].State()), arm1Slider.value, arm2Slider.value)
    {
      var arm1, arm2 := arm1Slider.value, arm2Slider.value;
      for i := 0 to |diagrams|
        invariant forall k :: 0 <= k < i ==>
          diagrams[k].State() == WithArmLengths(diagrams[k].kind, old(diagrams[k].State()), arm1, arm2)
        invariant forall k :: i <= k < |diagrams| ==> diagrams[k].State() == old(diagrams[k].State())
      {
        diagrams[i].SetArmLengths(arm1, arm2);
      }
    }

    /**
     * `_get_panel_colors_by_f2()`: one colour per panel, the colour of the
     * diagram's F2 group.
     */
    method PanelColorsByF2() returns (colors: seq<Rgb>)
      ensures |colors| == |diagrams|
      ensures forall k :: 0 <= k < |colors| ==> colors[k] == PanelColor(Group(F2Values(diagrams), k))
    {
      var f2Values := F2Values(diagrams);
      var groupIds := AssignGroups(f2Values);
      colors := [];
      for k := 0 to |groupIds|
        invariant |colors| == k
        invariant forall m :: 0 <= m < k ==> colors[m] == PanelColor(Group(f2Values, m))
      {
        var colorIdx := groupIds[k] % |PANEL_GROUP_COLORS|;
        colors := colors + [PANEL_GROUP_COLORS[colorIdx]];
      }
    }

    /** The closing loop of `reset()`: every diagram brought to rest. */
    method RestDiagrams()
      requires Valid()
      modifies diagrams
      ensures forall k :: 0 <= k < |diagrams| ==> diagrams[k].State() == Rested(old(diagrams[k].State()))
    {
      for i := 0 to |diagrams|
        invariant forall k :: 0 <= k < i ==> diagrams[k].State() == Rested(old(diagrams[k].State()))
        invariant forall k :: i <= k < |diagrams| ==> diagrams[k].State() == old(diagrams[k].State())
      {
        diagrams[i].Reset();
      }
    }

    /**
     * `reset()`: pause, put the three sliders back to their defaults, push
     * them into every diagram, and bring every diagram to rest.
     */
    method Reset()
      requires Valid()
      modifies this, diagrams, f1Slider, arm1Slider, arm2Slider
      ensures !simulating
      ensures f1Slider.value == DEFAULT_F1
      ensures arm1Slider.value == C_DISTANCE && arm2Slider.value == FIRST_SEGMENT_LENGTH
      ensures forall k :: 0 <= k < |diagrams| ==>
        diagrams[k].State() == ResetState(diagrams[k].kind, old(diagrams[k].State()))
    {
      simulating := false;
      f1Slider.Reset(DEFAULT_F1);
      arm1Slider.Reset(C_DISTANCE);
      arm2Slider.Reset(FIRST_SEGMENT_LENGTH);
      UpdateForces();
      label Forced:
      UpdateArmLengths();
      RestDiagrams();
      forall k | 0 <= k < |diagrams|
        ensures diagrams[k].State() == ResetState(diagrams[k].kind, old(diagrams[k].State()))
      {
        assert old@Forced(diagrams[k].State()) == old(diagrams[k].State()).(f1 := DEFAULT_F1);
      }
    }
  }
}
