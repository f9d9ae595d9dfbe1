# Lever engines of the lever physics simulation and the aircraft tire tug calculator

This project models, in Dafny, the computational core of two interactive lever
programs.

- **The dynamic lever simulation** (`lever_sim_orig.py`) shows five lever
  diagrams side by side. In each, a grey arm carries an applied force F1 at P1
  and a gold arm carries a 300 lb weight at P2. Each diagram:
  - derives the horizontal moment arm X1 of P2 from its gold arm, or
    back-solves the gold arm from a wanted X1 (diagrams 1b and 3b);
  - computes the output force F2 = F1 * C / X1;
  - when the simulation runs, integrates its rotation one frame at a time,
    driven by the net torque, with damping and a +-60 degree clamp.

  A manager pushes three slider values (F1, grey arm, gold arm/X1) into every
  diagram, resets them, and colours the panels by a greedy grouping of the F2
  values (within 5 lb of a group's first member).
- **The aircraft tire tug calculator** (`aircraft_tire_tug_sim.py`) computes
  the pull needed to move an aircraft. The pull is rolling resistance
  (mu W cos theta) plus grade resistance (W sin theta). The calculator pushes
  that pull and two arm sliders into six static lever configurations. Each one
  derives the handle force the operator must apply, F_handle = F_pull * X1 /
  handle, and the torque and power of a motor that would drive the 10 in tire
  at 3 mph instead. The selected configuration's handle force is rated on a
  four-level effort scale, and its torque is shown in lb-ft, N m and kg cm.

The model keeps the programs' imperative form:
- each diagram is a class whose methods update its fields;
- each manager is a class holding its diagrams, sliders and buttons;
- slider values are objects the managers read and reset.

Every state-changing method is specified by a pure function of the old state
(`State() == F(old(State()), ...)`), and the properties are proved as lemmas
about those functions. Arithmetic is exact over `real`. cos 50 and cos 40 are
named constants holding the values the programs compute. Cosines and sines of
runtime angles (the lever's rotation, the tug's incline) are supplied by the
caller as parameters.

Modules:
- `Wrappers`: the optional value, for Python's `None` default arguments.
- `Numerics`: `max`, `min`, `abs`, the clamp, degrees to radians, and the constants.
- `Sliders`: the slider's value logic, which both programs share.
- `Lever`, `LeverProperties`, `PanelGroups` and `LeverSimulation`: the dynamic simulation.
- `Tug`, `TugProperties`, `TugReadout` and `TugCalculation`: the tug calculator.

## Model

| member | source | states |
|---|---|---|
| Numerics.Clamp | lever_sim_orig.py:364 | `max(lo, min(hi, v))` never goes below `lo`, stays at or below `hi` when the bounds are ordered, and returns an in-range value unchanged |
| Sliders.PixelOffset | lever_sim_orig.py:173-175 | the mouse offset from the track start is pinned to [0, width]: 0 left of the track, the width right of it, the exact offset on it |
| Sliders.DragValue | lever_sim_orig.py:173-176 | for an ordered range, the dragged value lies in [min, max], is min when the mouse is left of the track and max when it is right of it |
| Sliders.DragMonotone | lever_sim_orig.py:173-176 | dragging further right never lowers the slider value |
| Sliders.Slider.constructor | lever_sim_orig.py:113-118 | the slider keeps its track position and range, and stores its initial value as given |
| Sliders.Slider.Reset | lever_sim_orig.py:181-183 | the stored value is the request clamped into [min, max]; a request below the minimum stores exactly the minimum (the tug calculator's `reset`, aircraft_tire_tug_sim.py lines 202-203, is the same) |
| Sliders.Slider.UpdateValue | lever_sim_orig.py:173-176 | the value becomes the drag value of the mouse column, so it lies in [min, max] (the tug calculator's `_update_value`, aircraft_tire_tug_sim.py lines 195-197, is the same) |
| Lever.Recalculated | lever_sim_orig.py:263-294 | D2: X1 = gold arm; D1b/D3b: X1 = target (1.5 ft by default) and gold arm * cos 50 = X1; D1a/D3a: X1 = gold arm * cos 50; in every case X1_current = X1, and nothing but these three fields changes |
| Lever.WithArmLengths | lever_sim_orig.py:296-312 | the grey arm is always the first value; the second is the gold arm of an unconstrained diagram and the X1 target of a constrained one; the new X1 is that value for D2, that value times cos 50 for D1a and D3a, and the target for D1b and D3b (whose gold arm then projects onto it); X1_current = X1 |
| Lever.MomentArm | lever_sim_orig.py:330-331 | `max(0.1, abs(l cos))` is at least 0.1, at least abs(l cos), and one of the two |
| Lever.Advanced | lever_sim_orig.py:363-364 | the new rotation is the clamp of rotation + omega dt to [-60, 60] |
| Lever.Turn | lever_sim_orig.py:377-380 | the velocity is turned by +90 or -90 degrees, and the sign chosen times omega is abs(omega) |
| Lever.LeverForce | lever_sim_orig.py:335 | F2 * X1 = F1 * arm1: the lever law |
| Lever.PointSpeed | lever_sim_orig.py:368-372 | the speed of a point is non-negative and equals abs(omega in rad/s) * abs(radius) |
| Lever.Measured | lever_sim_orig.py:326-335 | X1_current = max(0.1, abs(X1 cos rot)) and F2 follows the lever law for it; nothing else changes |
| Lever.Integrated | lever_sim_orig.py:343-419 | the net torque is F1 * max(0.1, abs(arm1 cos rot)) - 300 * X1; omega := (omega + torque/35 dt)(1 - 0.25 dt); rotation := the clamp of rotation + omega dt to [-60, 60]; both point speeds are non-negative; only these fields and the velocity components change |
| Lever.Updated | lever_sim_orig.py:324-341 | every frame ends with X1_current >= 0.1 and F2 = F1 * arm1 / X1_current; arm lengths, F1 and X1 are untouched; a paused frame also sets the net torque to 0 and changes nothing else |
| Lever.LeverDiagram.constructor | lever_sim_orig.py:207-261 | a new diagram has the default arms, F1 = 200, is at rest, and has its geometry derived |
| Lever.LeverDiagram.RecalculateX1Initial | lever_sim_orig.py:263-294 | the new state is `Recalculated` of the old one |
| Lever.LeverDiagram.SetArmLengths | lever_sim_orig.py:296-312 | the new state is `WithArmLengths` of the old one |
| Lever.LeverDiagram.SetF1 | lever_sim_orig.py:314-315 | only F1 changes |
| Lever.LeverDiagram.Reset | lever_sim_orig.py:317-322 | rotation and angular velocity become 0 and X1_current becomes X1; nothing else changes |
| Lever.LeverDiagram.Update | lever_sim_orig.py:324-341 | the new state is `Updated` of the old one |
| Lever.LeverDiagram.Integrate | lever_sim_orig.py:343-419 | the new state is `Integrated` of the old one |
| LeverProperties.ConstrainedMatchesDirect | lever_sim_orig.py:282-292 | the gold arm that D1b (D3b) back-solves for a target X1, given to D1a (D3a), projects back to exactly that X1 |
| LeverProperties.ConstrainedDefault | lever_sim_orig.py:286-287 | with no target, a constrained diagram takes X1 = 1.5 ft and gold arm = 1.5 / cos 50 |
| LeverProperties.PausedFrameIdempotent | lever_sim_orig.py:337-341 | a second paused frame changes nothing, whatever its dt |
| LeverProperties.AtRestStaysAtRest | lever_sim_orig.py:358-364 | with omega = 0, zero net torque and an in-bounds rotation, a simulated frame keeps the rotation, keeps omega at 0 and reports both points motionless |
| LeverProperties.ClampKeepsVelocity | lever_sim_orig.py:361-364 | a diagram pegged at 60 degrees (cos 60 = 1/2, with every supplied cosine and sine a point of the unit circle) and balanced torque stays there while its angular velocity is only damped (40 to 39 deg/s): the clamp never touches the velocity |
| LeverProperties.RotationIntegratesOrPegs | lever_sim_orig.py:363-364 | inside the bounds the rotation is rotation + omega dt; beyond a bound it is exactly that bound |
| LeverProperties.VelocityPerpendicular | lever_sim_orig.py:374-382 | for a unit direction, the velocity components constructed from the +-90 degree turn have length `mag`, are perpendicular to the direction (with screen y flipped back), and turn the way the sign says |
| LeverProperties.FrameVelocityTerms | lever_sim_orig.py:366-419 | a simulated frame's point speeds use the grey arm's length arm1 / cos 40 and the gold arm's length, and its velocity components follow the sign of the new angular velocity |
| LeverProperties.FrameP1Direction | lever_sim_orig.py:374-382 | P1's velocity has the length of its speed, is perpendicular to the grey arm and turns with the angular velocity |
| LeverProperties.FrameP2Direction | lever_sim_orig.py:407-419 | P2's velocity likewise, perpendicular to the gold arm (D2: along the rotation; the others: 50 degrees plus the rotation) |
| PanelGroups.FirstNear | lever_sim_orig.py:523-526 | the position found is either past the end or that of a leader within 5 lb |
| PanelGroups.FirstNearIsFirst | lever_sim_orig.py:523-526 | no leader before the one found is within 5 lb |
| PanelGroups.Leaders | lever_sim_orig.py:517-520 | the group leaders among the first n elements are indices below n, at most n of them |
| PanelGroups.Group | lever_sim_orig.py:515-528 | an element's group id is at most the number of leaders before it, hence at most its index |
| PanelGroups.FirstNearAppend | lever_sim_orig.py:517-526 | a new leader changes an element's first near leader only if no earlier leader was near |
| PanelGroups.PendingStep | lever_sim_orig.py:517-528 | visiting element i either opens a new group that claims every unclaimed later element within 5 lb, or leaves everything as it was |
| PanelGroups.AssignGroups | lever_sim_orig.py:513-528 | the nested loop gives every element exactly its reference `Group` id (never the -1 placeholder) |
| PanelGroups.ClaimNear | lever_sim_orig.py:521-525 | the inner loop, run for an element that opens a group, leaves every id up to that element alone and turns every later id into its reference value once that element is a leader |
| PanelGroups.LeadersPrefix | lever_sim_orig.py:517-528 | groups once opened stay open: the leaders of a prefix are a prefix of the leaders |
| PanelGroups.LeaderGroup | lever_sim_orig.py:517-528 | the g-th leader has exactly g leaders before it and group id g |
| PanelGroups.GroupBelowLeaderCount | lever_sim_orig.py:517-528 | every id used before n is below the number of groups opened before n |
| PanelGroups.FirstOfGroupIsLeader | lever_sim_orig.py:518-520 | an element opens a group if and only if no earlier leader is within 5 lb of it |
| PanelGroups.GroupsIntroducedInOrder | lever_sim_orig.py:515-528 | every id below an element's id was used earlier, and an element opening a group gets an id above all earlier ones (so element 0 has id 0) |
| PanelGroups.LeaderListed | lever_sim_orig.py:517-520 | a group's first element is the leader at the position of its id |
| PanelGroups.JoinsFirstNearLeader | lever_sim_orig.py:523-526 | an element's group is opened by an element within 5 lb of it, and no leader of an earlier group is within 5 lb of it |
| PanelGroups.LeadersFarApart | lever_sim_orig.py:518-526 | any two elements that open groups are more than 5 lb apart |
| PanelGroups.GroupExample | lever_sim_orig.py:517-528 | F2 values 100, 103 and 200 get the groups 0, 0 and 1 |
| LeverSimulation.PanelColor | lever_sim_orig.py:531-534 | the colour of group g is entry g mod 6 of the palette |
| LeverSimulation.GroupColorsDistinct | lever_sim_orig.py:58-65 | the first six groups have six different colours, and group g + 6 reuses group g's colour |
| LeverSimulation.F2Values | lever_sim_orig.py:511 | the list holds each diagram's F2 in panel order |
| LeverSimulation.DefaultsMatchFresh | lever_sim_orig.py:453-482 | pushing the sliders' initial values into new diagrams changes nothing: the sliders start at the diagrams' own defaults |
| LeverSimulation.ResetDefaults | lever_sim_orig.py:538-553 | after a reset every diagram is level and at rest, with F1 = 200, grey arm 3 ft, X1_current = X1, and X1 = 1.5 ft (D2, D1b, D3b) or 1.5 cos 50 ft (D1a, D3a) |
| LeverSimulation.ResetIdempotent | lever_sim_orig.py:538-553 | resetting twice is the same as resetting once |
| LeverSimulation.ResetForgetsHistory | lever_sim_orig.py:538-553 | two diagrams that differ in motion, arms or F1 are identical after a reset |
| LeverSimulation.ResetRestoresInitial | lever_sim_orig.py:538-553 | a reset diagram is back where the manager's constructor started it, apart from the readings of the last frame |
| LeverSimulation.FirstFrameF2 | lever_sim_orig.py:324-335 | in the first paused frame after start, with the lever level, F2 = 200 * 3 / X1 with X1 = 1.5 cos 50 ft for 1a and 3a and 1.5 ft for 1b, 2 and 3b |
| LeverSimulation.DefaultPanelGroups | lever_sim_orig.py:504-528 | for the F2 values the five diagrams show in the first paused frame after start, levers level, 1a and 3a form one colour group and 1b, 2 and 3b the other |
| LeverSimulation.Simulation.constructor | lever_sim_orig.py:445-482 | five new diagrams in panel order, the three sliders at F1 = 200, 3 ft and 1.5 ft, paused, with the slider values pushed in |
| LeverSimulation.Simulation.NewDiagrams | lever_sim_orig.py:453-458 | five distinct new diagrams 1a, 1b, 2, 3a, 3b, each as its constructor leaves it |
| LeverSimulation.Simulation.UpdateForces | lever_sim_orig.py:491-495 | every diagram takes F1 from the slider, and nothing else changes |
| LeverSimulation.Simulation.UpdateArmLengths | lever_sim_orig.py:497-502 | every diagram applies `set_arm_lengths` to both arm sliders' values |
| LeverSimulation.Simulation.PanelColorsByF2 | lever_sim_orig.py:504-536 | one colour per panel: the palette colour of the diagram's F2 group |
| LeverSimulation.Simulation.RestDiagrams | lever_sim_orig.py:551-553 | every diagram is brought to rest |
| LeverSimulation.Simulation.Reset | lever_sim_orig.py:538-553 | paused; sliders at 200, 3.0 and 1.5; every diagram given F1 and the arm lengths, then brought to rest |
| Tug.Recalculated | aircraft_tire_tug_sim.py:249-261 | types 3 and 6: X1 = aircraft arm; constrained: X1 = target (1.5 ft by default) and aircraft arm * cos 50 = X1; otherwise X1 = aircraft arm * cos 50; X1_current = X1; nothing else changes |
| Tug.WithArmLengths | aircraft_tire_tug_sim.py:263-269 | the handle is always the first value; the second is the aircraft arm unless the configuration is constrained, when it is the X1 target; the new X1 is the aircraft arm for the horizontal configurations, the arm times cos 50 for the unconstrained bent ones, and the target for the constrained bent ones (whose aircraft arm then projects onto it) |
| Tug.HandleForce | aircraft_tire_tug_sim.py:275-278 | above a 0.01 ft handle, F_handle * handle = pull * X1; otherwise exactly 0 |
| Tug.MotorTorque | aircraft_tire_tug_sim.py:282 | the motor torque is never negative |
| Tug.Forces | aircraft_tire_tug_sim.py:271-288 | stores the pull, the guarded handle force, the torque abs(F_handle) * 5/12, the horsepower and the wattage; the geometry is untouched |
| Tug.TugDiagram.constructor | aircraft_tire_tug_sim.py:211-247 | a new configuration has the given arms and flag, with its geometry derived |
| Tug.TugDiagram.RecalculateGeometry | aircraft_tire_tug_sim.py:249-261 | the new state is `Recalculated` of the old one |
| Tug.TugDiagram.SetArmLengths | aircraft_tire_tug_sim.py:263-269 | the new state is `WithArmLengths` of the old one |
| Tug.TugDiagram.CalculateForces | aircraft_tire_tug_sim.py:271-288 | the new state is `Forces` of the old one, and the handle force it stores is returned |
| TugProperties.ConstrainedMatchesDirect | aircraft_tire_tug_sim.py:253-259 | a constrained configuration reaches its X1 target, and its back-solved arm, given to the unconstrained twin, projects to the same X1 |
| TugProperties.ConstrainedDefault | aircraft_tire_tug_sim.py:255-257 | with no target, X1 = 1.5 ft and the aircraft arm = 1.5 / cos 50 |
| TugProperties.RecalculateIdempotent | aircraft_tire_tug_sim.py:249-261 | deriving the geometry a second time with the same target changes nothing |
| TugProperties.HandleForceExample | aircraft_tire_tug_sim.py:275-276 | a 100 lb pull at X1 = 1.5 ft on a 3 ft handle needs 50 lb |
| TugProperties.HandleForceSign | aircraft_tire_tug_sim.py:275-276 | for a positive X1 and a handle above 0.01 ft, the handle force has the pull's sign |
| TugProperties.MotorPowerSimplifies | aircraft_tire_tug_sim.py:282-285 | the tire radius cancels: horsepower = abs(F_handle) * 4.4 ft/s / 550 |
| TugProperties.MotorFiguresNonNegative | aircraft_tire_tug_sim.py:282-286 | torque, horsepower and wattage are all non-negative |
| TugProperties.MotorExample | aircraft_tire_tug_sim.py:282-286 | a 100 lb handle force needs 125/3 lb-ft, 0.8 hp and 596.56 W |
| TugProperties.ForcesIdempotent | aircraft_tire_tug_sim.py:271-288 | calculating twice with the same pull is the same as once |
| TugProperties.MotorTorqueFromPull | aircraft_tire_tug_sim.py:275-282 | with a real handle, torque * handle = abs(pull * X1) * tire radius |
| TugReadout.EffortOf | aircraft_tire_tug_sim.py:646-653 | every handle force gets exactly one level: easy up to 50 lb, moderate up to 100, significant up to 150, motor recommended above |
| TugReadout.ReadoutOf | aircraft_tire_tug_sim.py:641-687 | the panel shows the stored handle force with its level, the torque in lb-ft, in N m (x 1.35582) and in kg cm (x 10.1972), and the stored powers |
| TugReadout.EffortMonotone | aircraft_tire_tug_sim.py:646-653 | a larger handle force never gets a lighter level |
| TugReadout.TorqueConversions | aircraft_tire_tug_sim.py:671-673 | the two conversions compose to one factor and keep a torque's sign and order |
| TugReadout.ReadoutNonNegative | aircraft_tire_tug_sim.py:672-687 | the torques and powers shown for a calculated configuration are non-negative |
| TugReadout.EffortBoundaries | aircraft_tire_tug_sim.py:646-653 | each threshold belongs to the lighter level, and a negative (downhill) force reads easy |
| TugCalculation.FindPreset | aircraft_tire_tug_sim.py:63-69 | the index found is the first preset with that name, or past the end when none has it |
| TugCalculation.PresetCoeff | aircraft_tire_tug_sim.py:63-69 | looking a name up in the preset table succeeds exactly for the five preset names and gives that preset's coefficient |
| TugCalculation.PresetNamesDistinct | aircraft_tire_tug_sim.py:63-69 | no two presets share a name |
| TugCalculation.ExactlyOneMatch | aircraft_tire_tug_sim.py:415-419 | for a name in the table exactly one preset, hence one button, carries it |
| TugCalculation.CleanConcreteIsFirst | aircraft_tire_tug_sim.py:327-328 | the default surface's coefficient is 0.015, and it is the first button and only that one |
| TugCalculation.PullNegativeIff | aircraft_tire_tug_sim.py:400-402 | for a positive weight the pull is negative exactly when mu cos theta + sin theta < 0 |
| TugCalculation.DownhillPullNegative | aircraft_tire_tug_sim.py:400-402 | on concrete, at any incline about 2 degrees downhill or steeper, a 3000 lb aircraft gives a pull below -59 lb, kept as is |
| TugCalculation.LevelPull | aircraft_tire_tug_sim.py:400-402 | on the level the pull is mu W: 45 lb for the defaults |
| TugCalculation.PushedForgetsHistory | aircraft_tire_tug_sim.py:404-413 | after an update a configuration depends only on the arm sliders and the pull |
| TugCalculation.PushedIdempotent | aircraft_tire_tug_sim.py:404-413 | a second update with the same inputs changes nothing |
| TugCalculation.PushedGeometry | aircraft_tire_tug_sim.py:408-413 | after an update every configuration carries the whole pull and balances it on its handle; D4's handle is 1 ft longer; X1 is the arm (D2), the arm + 0.5 ft (D4), the projected arm (D1a, D3a) or the slider value (D1b, D3b) |
| TugCalculation.DefaultHandleForces | aircraft_tire_tug_sim.py:422-427 | with default sliders on level concrete, every handle force is 22.5 lb (22.5 cos 50 lb for D1a and D3a), all rated easy |
| TugCalculation.SurfaceButton.constructor | aircraft_tire_tug_sim.py:364-366 | a button remembers its preset and starts active as given |
| TugCalculation.TugCalculator.constructor | aircraft_tire_tug_sim.py:324-391 | default sliders, clean concrete with only its button lit, the first configuration selected, and all six configurations updated for the 45 lb pull |
| TugCalculation.TugCalculator.NewDiagrams | aircraft_tire_tug_sim.py:336-343 | six distinct new configurations D1a..D4 with their titles, 1b and 3b constrained, D4 built with a 4 ft handle and 2 ft arm |
| TugCalculation.TugCalculator.NewButtons | aircraft_tire_tug_sim.py:361-366 | one distinct button per preset in preset order, active exactly when its name is the current surface |
| TugCalculation.TugCalculator.UpdateCalculations | aircraft_tire_tug_sim.py:393-413 | weight and incline read from the sliders; rolling = mu W cos, grade = W sin, total = their sum; every configuration updated, so each one's pull equals the total |
| TugCalculation.TugCalculator.PushToDiagrams | aircraft_tire_tug_sim.py:408-413 | D4 gets (handle + 1, arm + 0.5), the others (handle, arm), then each calculates its forces for the pull |
| TugCalculation.TugCalculator.ActivateButtons | aircraft_tire_tug_sim.py:418-419 | a button is active exactly when its name is the selected one |
| TugCalculation.TugCalculator.SelectSurface | aircraft_tire_tug_sim.py:415-420 | surface and coefficient stored, exactly the matching button lit, and everything recalculated with the new coefficient |
| TugCalculation.TugCalculator.Reset | aircraft_tire_tug_sim.py:422-428 | sliders at 3000 lb, 0 degrees, 3 ft and 1.5 ft; clean concrete at 0.015 with only its button lit; selection 0; pull 45 lb in every configuration |

## Left out

- Drawing is not modelled: pygame, windows, fonts, colours other than the panel palette, buttons' hover state, slider knob hit-testing and event handling, arrow heads, label placement and the pixel geometry of the diagrams.
- The run loops are not modelled: frame timing, key and mouse dispatch, the start/pause toggle and the tug's selection of a configuration by number keys or clicks. The methods they call (`update`, `_update_forces`, `_update_arm_lengths`, `_update_calculations`, `_select_surface`, `reset`) are modelled and can be called in any order.
- Trigonometry of runtime angles is not computed. The lever's `update` takes the cosines and sines of the frame's rotation and its two arm directions as a `FrameTrig` value. The tug's `_update_calculations` takes the cosine and sine of the incline. Only `Reset` and the constructor of the tug calculator supply their own (1 and 0, for an incline of 0 degrees). Each supplied pair is required to be a point of the unit circle (`Numerics.UnitPair`, and `Lever.FrameTrig.Unit` for the lever's three pairs). The model does not check that a pair belongs to the particular angle it stands for. cos 50, cos 40 and pi are the decimal constants the programs compute.
- Floating-point rounding is not modelled; everything is exact over `real`.
- Lever.Integrated: for the L-shaped diagrams P2's radius is written out as sqrt((a cos 50)^2 + (a sin 50)^2). That is the gold arm length a itself over the reals, and the model uses a.
- Lever.Integrated: the velocity components are built from the supplied sines and cosines by the identities cos(x +- 90) = -+sin x and sin(x +- 90) = +-cos x, rather than from `math.cos`/`math.sin` of the turned angle.
- Display-only attributes of the diagrams are not modelled: `gold_angle`, `has_bend`, `gray_angle`, `panel_rect` and `contains_point`.
- LeverSimulation.Simulation.NewDiagrams builds the five diagrams in a loop over the panel order, where the source writes five assignments. The order and the result are the same.
- TugCalculation.TugCalculator.NewDiagrams builds the six configurations in a loop over the panel order, where the source writes a list of six constructor calls. The order and the result are the same.
- The tug calculator's reset button and title strings and its effort colours are not modelled.
