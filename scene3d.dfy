/**
 * The per-frame vehicle motion of the 3D scene (js/scene3d.js).
 *
 * Module Motion is the pure specification of one animation frame: the
 * vehicle's position and its "is animating" flag, advanced under one of the
 * four motion profiles, plus the emergency vehicle that drives in during the
 * yield scenario. Module SceneAnimation holds the Scene3D class, whose methods
 * update those fields in place and are proved against Motion.
 *
 * Positions are JavaScript doubles in the program and `real` here, so the
 * frame counts proved below are those of exact arithmetic.
 */
module Motion {

  /** Distance the vehicle covers per frame (the constructor's vehicleSpeed). */
  const VehicleSpeed: real := 0.15
  /** Sideways distance per frame while evading or yielding. */
  const LateralStep: real := 0.05
  /** Distance the emergency vehicle covers per frame. */
  const EmergencyStep: real := 0.1

  /** Where the vehicle comes from, and where the emergency vehicle starts. */
  const StartZ: real := -15.0
  const EmergencyStartZ: real := -5.0

  /** The line in front of the crosswalk where `stop` halts and `yield` holds. */
  const StopLine: real := -2.0
  /** The `evade` profile steers right from EvadeFrom and back from EvadeBack on. */
  const EvadeFrom: real := -3.0
  const EvadeBack: real := -1.0
  /** At or past YieldHold the `yield` profile does nothing at all. */
  const YieldHold: real := -1.5
  /** The lane the yielding vehicle moves over into. */
  const YieldLane: real := -2.0

  /** The vehicle position and whether the scene is still animating it. */
  datatype VehicleState = VehicleState(x: real, y: real, z: real, animating: bool)

  /** The state the constructor creates: far away, not yet moving. */
  const Initial: VehicleState := VehicleState(0.0, 0.0, StartZ, false)

  /** The constructor's state once the animation has been started. */
  const Started: VehicleState := Initial.(animating := true)

  /**
   * One call of updateVehiclePosition under the named profile. A profile name
   * the code does not know leaves the state as it is.
   */
  function Advance(profile: string, speed: real, v: VehicleState): (r: VehicleState)
    ensures r.y == v.y
    ensures r.animating ==> v.animating
  {
    if profile == "stop" then
      if v.z < StopLine then v.(z := v.z + speed)
      else v.(z := StopLine, animating := false)
    else if profile == "evade" then
      if v.z < EvadeFrom then v.(z := v.z + speed)
      else if v.z < EvadeBack then v.(z := v.z + speed, x := v.x + LateralStep)
      else v.(z := v.z + speed, x := v.x - LateralStep)
    else if profile == "yield" then
      if v.z < StopLine then v.(z := v.z + speed)
      else if v.z < YieldHold then
        var x := v.x - LateralStep;
        if x < YieldLane then v.(z := StopLine, x := YieldLane, animating := false)
        else v.(z := StopLine, x := x)
      else v
    else if profile == "proceed" then v.(z := v.z + speed)
    else v
  }

  /** The vehicle part of one animation frame: it moves only while animating. */
  function Frame(profile: string, speed: real, v: VehicleState): VehicleState
  {
    if v.animating then Advance(profile, speed, v) else v
  }

  /** The vehicle after n frames. */
  function Frames(profile: string, speed: real, v: VehicleState, n: nat): VehicleState
    decreases n
  {
    if n == 0 then v else Frames(profile, speed, Frame(profile, speed, v), n - 1)
  }

  /** The emergency-vehicle part of one frame: it drives in only in yield mode. */
  function EmergencyFrame(profile: string, present: bool, ez: real): real
  {
    if present && profile == "yield" && ez < 0.0 then ez + EmergencyStep else ez
  }

  function EmergencyFrames(profile: string, present: bool, ez: real, n: nat): real
    decreases n
  {
    if n == 0 then ez else EmergencyFrames(profile, present, EmergencyFrame(profile, present, ez), n - 1)
  }

  // ---------------------------------------------------------------------
  // One step, profile by profile

  /** `stop`: approach by one speed increment, or snap to the stop line and halt. */
  lemma StopStep(speed: real, v: VehicleState)
    ensures var r := Advance("stop", speed, v);
      (v.z < StopLine ==>
         r == v.(z := v.z + speed) && r.z < StopLine + speed) &&
      (v.z >= StopLine ==> r == VehicleState(v.x, v.y, StopLine, false))
  {
  }

  /** `stop` is not monotone in z: an overshoot past the line is pulled back. */
  lemma StopPullsBack()
    ensures var v := VehicleState(0.0, 0.0, -1.95, true);
      Advance("stop", VehicleSpeed, v).z < v.z
  {
  }

  /** `evade`: always advances z; x is kept, then steered right, then back left. */
  lemma EvadeStep(speed: real, v: VehicleState)
    ensures var r := Advance("evade", speed, v);
      r.z == v.z + speed && r.y == v.y && r.animating == v.animating &&
      (v.z < EvadeFrom ==> r.x == v.x) &&
      (EvadeFrom <= v.z < EvadeBack ==> r.x == v.x + LateralStep) &&
      (EvadeBack <= v.z ==> r.x == v.x - LateralStep)
  {
  }

  /** `yield`: approach, then hold z on the stop line and move over until the lane is reached. */
  lemma YieldStep(speed: real, v: VehicleState)
    ensures var r := Advance("yield", speed, v);
      (v.z < StopLine ==> r == v.(z := v.z + speed)) &&
      (StopLine <= v.z < YieldHold && v.x - LateralStep >= YieldLane ==>
         r == v.(z := StopLine, x := v.x - LateralStep)) &&
      (StopLine <= v.z < YieldHold && v.x - LateralStep < YieldLane ==>
         r == VehicleState(YieldLane, v.y, StopLine, false)) &&
      (YieldHold <= v.z ==> r == v)
  {
  }

  /** `proceed` only advances z; a profile name the code does not know changes nothing. */
  lemma ProceedAndUnknownStep(profile: string, speed: real, v: VehicleState)
    ensures Advance("proceed", speed, v) == v.(z := v.z + speed)
    ensures profile !in {"stop", "evade", "yield", "proceed"} ==> Advance(profile, speed, v) == v
  {
  }

  /**
   * With the code's speed, a yielding vehicle that has not yet reached the
   * hold zone never jumps into it.
   */
  lemma YieldAvoidsHoldZone(v: VehicleState)
    requires v.z < YieldHold
    ensures Advance("yield", VehicleSpeed, v).z < YieldHold
  {
  }

  // ---------------------------------------------------------------------
  // Runs of frames

  lemma {:induction false} FramesAdd(profile: string, speed: real, v: VehicleState, a: nat, b: nat)
    ensures Frames(profile, speed, v, a + b) == Frames(profile, speed, Frames(profile, speed, v, a), b)
    decreases a
  {
    if a > 0 {
      FramesAdd(profile, speed, Frame(profile, speed, v), a - 1, b);
    }
  }

  /** Once the animation flag is cleared the vehicle is frozen. */
  lemma {:induction false} FramesFrozen(profile: string, speed: real, v: VehicleState, n: nat)
    requires !v.animating
    ensures Frames(profile, speed, v, n) == v
  {
    if n > 0 {
      FramesFrozen(profile, speed, v, n - 1);
    }
  }

  /** No profile ever moves the vehicle up or down, nor restarts a halted one. */
  lemma {:induction false} FramesKeepHeight(profile: string, speed: real, v: VehicleState, n: nat)
    ensures Frames(profile, speed, v, n).y == v.y
    ensures Frames(profile, speed, v, n).animating ==> v.animating
    decreases n
  {
    if n > 0 {
      FramesKeepHeight(profile, speed, Frame(profile, speed, v), n - 1);
    }
  }

  /**
   * `stop` and `yield` both approach at constant speed while short of the
   * stop line: n frames whose starting points are all short of the line add
   * n speed increments to z and change nothing else.
   */
  lemma {:induction false} Approach(profile: string, v: VehicleState, n: nat)
    requires profile == "stop" || profile == "yield"
    requires v.animating
    requires n > 0 ==> v.z + (n - 1) as real * VehicleSpeed < StopLine
    ensures Frames(profile, VehicleSpeed, v, n) == v.(z := v.z + n as real * VehicleSpeed)
    decreases n
  {
    if n > 0 {
      Approach(profile, v.(z := v.z + VehicleSpeed), n - 1);
    }
  }

  /**
   * `stop` terminates: a vehicle that can reach the stop line within n
   * increments is halted exactly on the line after n + 1 frames.
   */
  lemma {:induction false} StopSettles(v: VehicleState, n: nat)
    requires v.animating
    requires v.z + n as real * VehicleSpeed >= StopLine
    ensures Frames("stop", VehicleSpeed, v, n + 1) == VehicleState(v.x, v.y, StopLine, false)
    decreases n
  {
    if v.z >= StopLine {
      FramesFrozen("stop", VehicleSpeed, VehicleState(v.x, v.y, StopLine, false), n);
    } else {
      StopSettles(v.(z := v.z + VehicleSpeed), n - 1);
    }
  }

  /**
   * From the started state the `stop` profile approaches for 87 frames, is
   * halted on the stop line by the 88th and stays there.
   */
  lemma StopFromStart(n: nat)
    ensures Frames("stop", VehicleSpeed, Started, n) ==
      if n <= 87 then Started.(z := StartZ + n as real * VehicleSpeed)
      else VehicleState(0.0, 0.0, StopLine, false)
  {
    if n <= 87 {
      Approach("stop", Started, n);
    } else {
      StopSettles(Started, n - 1);
    }
  }

  /**
   * `yield` moving over: while the lane is not yet passed, k frames in the
   * hold zone pin z to the stop line and move x by k lateral steps.
   */
  lemma {:induction false} YieldMoveOver(v: VehicleState, k: nat)
    requires v.animating && StopLine <= v.z < YieldHold
    requires v.x - k as real * LateralStep >= YieldLane
    ensures Frames("yield", VehicleSpeed, v, k) ==
      if k == 0 then v else v.(z := StopLine, x := v.x - k as real * LateralStep)
    decreases k
  {
    if k > 0 {
      YieldMoveOver(v.(z := StopLine, x := v.x - LateralStep), k - 1);
    }
  }

  /**
   * `yield` terminates: once held, a vehicle whose lateral moves pass the lane
   * within m frames ends clamped in the lane on the stop line, halted.
   */
  lemma {:induction false} YieldSettles(v: VehicleState, m: nat)
    requires v.animating && StopLine <= v.z < YieldHold
    requires m > 0 && v.x - m as real * LateralStep < YieldLane
    ensures Frames("yield", VehicleSpeed, v, m) == VehicleState(YieldLane, v.y, StopLine, false)
    decreases m
  {
    var next := Frame("yield", VehicleSpeed, v);
    if v.x - LateralStep < YieldLane {
      FramesFrozen("yield", VehicleSpeed, next, m - 1);
    } else {
      YieldSettles(next, m - 1);
    }
  }

  /**
   * From the started state `yield` approaches for 87 frames without ever
   * entering the zone where it would do nothing, then moves over for 40
   * frames, and on the 128th is clamped at (x, z) = (-2, -2) and halted.
   */
  lemma YieldFromStart(n: nat)
    ensures Frames("yield", VehicleSpeed, Started, n).z < YieldHold
    ensures Frames("yield", VehicleSpeed, Started, n) ==
      if n <= 87 then Started.(z := StartZ + n as real * VehicleSpeed)
      else if n <= 127 then Started.(z := StopLine, x := -((n - 87) as real) * LateralStep)
      else VehicleState(YieldLane, 0.0, StopLine, false)
  {
    Approach("yield", Started, if n <= 87 then n else 87);
    if n > 87 {
      var held := Frames("yield", VehicleSpeed, Started, 87);
      FramesAdd("yield", VehicleSpeed, Started, 87, n - 87);
      if n <= 127 {
        YieldMoveOver(held, n - 87);
      } else {
        YieldSettles(held, n - 87);
      }
    }
  }

  /** `evade` never halts: every frame adds one speed increment to z. */
  lemma {:induction false} EvadeKeepsGoing(v: VehicleState, n: nat)
    requires v.animating
    ensures Frames("evade", VehicleSpeed, v, n).animating
    ensures Frames("evade", VehicleSpeed, v, n).z == v.z + n as real * VehicleSpeed
    decreases n
  {
    if n > 0 {
      EvadeKeepsGoing(Advance("evade", VehicleSpeed, v), n - 1);
    }
  }

  /** `proceed` drives straight on for ever. */
  lemma {:induction false} ProceedRun(v: VehicleState, n: nat)
    requires v.animating
    ensures Frames("proceed", VehicleSpeed, v, n) == v.(z := v.z + n as real * VehicleSpeed)
    decreases n
  {
    if n > 0 {
      ProceedRun(v.(z := v.z + VehicleSpeed), n - 1);
    }
  }

  // ---------------------------------------------------------------------
  // The emergency vehicle

  /** Outside yield mode, or with no emergency vehicle, it never moves. */
  lemma {:induction false} EmergencyIdle(profile: string, present: bool, ez: real, n: nat)
    requires !(present && profile == "yield")
    ensures EmergencyFrames(profile, present, ez, n) == ez
  {
    if n > 0 {
      EmergencyIdle(profile, present, ez, n - 1);
    }
  }

  lemma {:induction false} EmergencyStill(ez: real, n: nat)
    requires ez >= 0.0
    ensures EmergencyFrames("yield", true, ez, n) == ez
  {
    if n > 0 {
      EmergencyStill(ez, n - 1);
    }
  }

  lemma {:induction false} EmergencyClimb(ez: real, n: nat)
    requires n > 0 ==> ez + (n - 1) as real * EmergencyStep < 0.0
    ensures EmergencyFrames("yield", true, ez, n) == ez + n as real * EmergencyStep
    decreases n
  {
    if n > 0 {
      EmergencyClimb(ez + EmergencyStep, n - 1);
    }
  }

  lemma {:induction false} EmergencyFramesAdd(profile: string, present: bool, ez: real, a: nat, b: nat)
    ensures EmergencyFrames(profile, present, ez, a + b) ==
      EmergencyFrames(profile, present, EmergencyFrames(profile, present, ez, a), b)
    decreases a
  {
    if a > 0 {
      EmergencyFramesAdd(profile, present, EmergencyFrame(profile, present, ez), a - 1, b);
    }
  }

  /** Short of one step past z = 0, the emergency vehicle never gets further. */
  lemma {:induction false} EmergencyBelowStep(ez: real, n: nat)
    requires ez < EmergencyStep
    ensures EmergencyFrames("yield", true, ez, n) < EmergencyStep
    decreases n
  {
    if n > 0 {
      EmergencyBelowStep(EmergencyFrame("yield", true, ez), n - 1);
    }
  }

  /**
   * In yield mode the emergency vehicle drives in from z = -5 by 0.1 per
   * frame, reaches z = 0 after 50 frames and stays there. The exact resting
   * value 0 is a result of exact arithmetic; that it rests at or past 0 but
   * short of one further step does not depend on it.
   */
  lemma EmergencyFromStart(n: nat)
    ensures EmergencyFrames("yield", true, EmergencyStartZ, n) ==
      if n <= 50 then EmergencyStartZ + n as real * EmergencyStep else 0.0
    ensures n >= 50 ==>
      0.0 <= EmergencyFrames("yield", true, EmergencyStartZ, n) < EmergencyStep
  {
    if n <= 50 {
      EmergencyClimb(EmergencyStartZ, n);
    } else {
      EmergencyClimb(EmergencyStartZ, 50);
      EmergencyFramesAdd("yield", true, EmergencyStartZ, 50, n - 50);
      EmergencyStill(0.0, n - 50);
    }
  }
}

module SceneAnimation {
  import opened Motion
  import Scenarios

  /** eHMI panel colours, named as the scene names them. */
  const Green: int := 0x27ae60
  const Orange: int := 0xf39c12
  const Red: int := 0xe74c3c
  const Blue: int := 0x3498db

  /** The colour of the vehicle's eHMI panel for a scenario; green when the id is unknown. */
  function EHMIColor(scenarioId: string): (c: int)
    ensures c in {Green, Orange, Red, Blue}
    ensures c == Orange <==> scenarioId == "scenario_2"
    ensures c == Red <==> scenarioId == "scenario_3"
    ensures c == Blue <==> scenarioId == "scenario_4"
    ensures c == Green <==> scenarioId !in {"scenario_2", "scenario_3", "scenario_4"}
  {
    if scenarioId == "scenario_1" then Green
    else if scenarioId == "scenario_2" then Orange
    else if scenarioId == "scenario_3" then Red
    else if scenarioId == "scenario_4" then Blue
    else Green
  }

  /** The scenario-specific object placed in the scene besides the vehicle. */
  datatype Prop = NoProp | Obstacle | EmergencyVehicle

  function ScenarioProp(scenarioId: string): (p: Prop)
    ensures p == Obstacle <==> scenarioId == "scenario_2"
    ensures p == EmergencyVehicle <==> scenarioId == "scenario_3"
  {
    if scenarioId == "scenario_2" then Obstacle
    else if scenarioId == "scenario_3" then EmergencyVehicle
    else NoProp
  }

  /**
   * Over the catalogue, the panel colour the scene paints is the one the
   * catalogue names for the scenario, the obstacle belongs to the evading
   * scenario and the emergency vehicle to the yielding one.
   */
  lemma CatalogueScenes()
    ensures forall s :: s in Scenarios.Catalogue ==>
      (s.eHMIColor == "green" ==> EHMIColor(s.id) == Green) &&
      (s.eHMIColor == "orange" ==> EHMIColor(s.id) == Orange) &&
      (s.eHMIColor == "red" ==> EHMIColor(s.id) == Red) &&
      (s.eHMIColor == "blue" ==> EHMIColor(s.id) == Blue)
    ensures forall s :: s in Scenarios.Catalogue ==>
      (ScenarioProp(s.id) == Obstacle <==> s.eHMIMessage == "OBSTACLE DETECTED - EVADING") &&
      (ScenarioProp(s.id) == EmergencyVehicle <==> s.eHMIMessage == "EMERGENCY VEHICLE - YIELDING")
  {
  }

  /**
   * One scene. `mounted` says that init found its container and built the
   * scene, camera, renderer and vehicle; emergencyZ means something only
   * while hasEmergencyVehicle holds.
   */
  class Scene3D {
    var animationType: string
    var scenarioId: string
    var x: real
    var y: real
    var z: real
    var vehicleSpeed: real
    var isAnimating: bool
    var mounted: bool
    var ehmiColor: int
    var hasObstacle: bool
    var hasEmergencyVehicle: bool
    var emergencyZ: real

    /** The vehicle's position and animation flag. */
    function State(): VehicleState
      reads this
    {
      VehicleState(x, y, z, isAnimating)
    }

    constructor (animationType: string, scenarioId: string)
      ensures this.animationType == animationType && this.scenarioId == scenarioId
      ensures State() == Initial && vehicleSpeed == VehicleSpeed
      ensures !mounted && !hasObstacle && !hasEmergencyVehicle
    {
      this.animationType := animationType;
      this.scenarioId := scenarioId;
      x, y, z := 0.0, 0.0, StartZ;
      vehicleSpeed := VehicleSpeed;
      isAnimating := false;
      mounted := false;
      ehmiColor := Green;
      hasObstacle, hasEmergencyVehicle := false, false;
      emergencyZ := 0.0;
    }

    /**
     * Builds the scene when the container exists (otherwise does nothing),
     * paints the eHMI panel, adds the scenario's prop and runs the first frame.
     */
    method Init(containerFound: bool)
      modifies this
      ensures animationType == old(animationType) && scenarioId == old(scenarioId)
      ensures vehicleSpeed == old(vehicleSpeed) && y == old(y)
      ensures !containerFound ==> unchanged(this)
      ensures containerFound ==>
        mounted && ehmiColor == EHMIColor(scenarioId) &&
        hasObstacle == (old(hasObstacle) || ScenarioProp(scenarioId) == Obstacle) &&
        hasEmergencyVehicle == (old(hasEmergencyVehicle) || ScenarioProp(scenarioId) == EmergencyVehicle) &&
        State() == Frame(animationType, vehicleSpeed, old(State())) &&
        emergencyZ == (if ScenarioProp(scenarioId) == EmergencyVehicle
                       then EmergencyFrame(animationType, true, EmergencyStartZ)
                       else EmergencyFrame(animationType, old(hasEmergencyVehicle), old(emergencyZ)))
    {
      if !containerFound {
        return;
      }
      mounted := true;
      ehmiColor := EHMIColor(scenarioId);
      var prop := ScenarioProp(scenarioId);
      if prop == Obstacle {
        hasObstacle := true;
      } else if prop == EmergencyVehicle {
        hasEmergencyVehicle := true;
        emergencyZ := EmergencyStartZ;
      }
      Animate();
    }

    /** One rendered frame: the vehicle moves only while animating. */
    method Animate()
      requires mounted
      modifies this`x, this`z, this`isAnimating, this`emergencyZ
      ensures State() == Frame(animationType, vehicleSpeed, old(State()))
      ensures emergencyZ == EmergencyFrame(animationType, hasEmergencyVehicle, old(emergencyZ))
    {
      if isAnimating {
        UpdateVehiclePosition();
      }
      if hasEmergencyVehicle && animationType == "yield" {
        if emergencyZ < 0.0 {
          emergencyZ := emergencyZ + EmergencyStep;
        }
      }
    }

    /** Advances the vehicle one step under the scene's motion profile. */
    method UpdateVehiclePosition()
      modifies this`x, this`z, this`isAnimating
      ensures State() == Advance(animationType, vehicleSpeed, old(State()))
    {
      if animationType == "stop" {
        if z < StopLine {
          z := z + vehicleSpeed;
        } else {
          z := StopLine;
          isAnimating := false;
        }
      } else if animationType == "evade" {
        if z < EvadeFrom {
          z := z + vehicleSpeed;
        } else if z < EvadeBack {
          z := z + vehicleSpeed;
          x := x + LateralStep;
        } else {
          z := z + vehicleSpeed;
          x := x - LateralStep;
        }
      } else if animationType == "yield" {
        if z < StopLine {
          z := z + vehicleSpeed;
        } else if z < YieldHold {
          z := StopLine;
          x := x - LateralStep;
          if x < YieldLane {
            x := YieldLane;
            isAnimating := false;
          }
        }
      } else if animationType == "proceed" {
        z := z + vehicleSpeed;
      }
    }

    method StartAnimation()
      modifies this`isAnimating
      ensures isAnimating
    {
      isAnimating := true;
    }
  }
}
