/**
 * `RobotArm` (src/arm.py): the controller object. It holds the simulator connection,
 * the parameters read once from the arm's script and the cache of calibrated
 * home-to-location trajectories, and each method updates the simulator state and
 * the cache in place. Every method is proved to leave exactly the state, and return
 * exactly the answer, that the matching function of ArmSpec describes; what the
 * controller promises is proved about those functions in ArmProperties.
 */
module Arm {
  import opened Wrappers
  import opened Simulator
  import opened ArmPaths
  import opened ArmSpec

  /** `followPath`'s pauses and the clean-up after a trip add up to a `Travel`. */
  lemma TravelInSteps(p: Params, s: SimState, path: Path, shape: Handle)
    ensures Emit(Emit(FollowPath(p, s, path), RemoveObjects([shape])), Sleep(AfterMoveMs))
            == Travel(p, s, path, shape)
  {
    var f := FollowPathEvents(p.joints, path);
    assert s.trace + f + [RemoveObjects([shape])] + [Sleep(AfterMoveMs)]
        == s.trace + (f + [RemoveObjects([shape]), Sleep(AfterMoveMs)]);
  }

  lemma Regroup<T>(a: seq<T>, b: seq<T>, c: seq<T>)
    ensures a + (b + c) == (a + b) + c
  {
  }

  class RobotArm {
    /** The simulator's answers (planner, inverse kinematics, sensor, script bookkeeping). */
    const oracles: Oracles
    /** `self.params`, the answer of `getParams`. */
    const params: Params
    /** The bound on descent steps (the source's loop has none). */
    const maxDescentSteps: nat
    /** Everything sent to the simulator so far, and the robot-target pose. */
    var sim: SimState
    /** `self.target_params`. */
    var targetParams: Targets

    /** `RobotArm(sim, script)`: reads the parameters, starts with an empty cache. */
    constructor(oracles: Oracles, params: Params, sim: SimState, maxDescentSteps: nat)
      ensures this.oracles == oracles && this.params == params && this.maxDescentSteps == maxDescentSteps
      ensures this.sim == sim && targetParams == map[]
    {
      this.oracles := oracles;
      this.params := params;
      this.maxDescentSteps := maxDescentSteps;
      this.sim := sim;
      targetParams := map[];
    }

    /** `_set_target_config(config)`: one joint target per (joint, value) pair. */
    method SetTargetConfig(config: seq<real>)
      modifies this
      ensures sim == old(sim).(trace := old(sim).trace + JointTargets(params.joints, config))
      ensures targetParams == old(targetParams)
    {
      var joints := params.joints;
      var n := if |joints| < |config| then |joints| else |config|;
      for i := 0 to n
        invariant sim.targetPose == old(sim).targetPose && targetParams == old(targetParams)
        invariant old(sim).trace + JointTargets(joints, config) == sim.trace + JointTargets(joints[i..], config[i..])
      {
        var rest := JointTargets(joints[i + 1..], config[i + 1..]);
        assert JointTargets(joints[i..], config[i..]) == [SetJointTarget(joints[i], config[i])] + rest by {
          assert joints[i..][1..] == joints[i + 1..] && config[i..][1..] == config[i + 1..];
        }
        Regroup(sim.trace, [SetJointTarget(joints[i], config[i])], rest);
        sim := Emit(sim, SetJointTarget(joints[i], config[i]));
      }
      assert JointTargets(joints[n..], config[n..]) == [];
    }

    /** `followPath(path)`: the path six values at a time, each group followed by a pause. */
    method FollowPath(path: Path)
      modifies this
      ensures sim == ArmSpec.FollowPath(params, old(sim), path)
      ensures targetParams == old(targetParams)
    {
      var configs := Chunks(path);
      for i := 0 to |configs|
        invariant sim.targetPose == old(sim).targetPose && targetParams == old(targetParams)
        invariant old(sim).trace + SettleEvents(params.joints, configs) == sim.trace + SettleEvents(params.joints, configs[i..])
      {
        var group := JointTargets(params.joints, configs[i]);
        var rest := SettleEvents(params.joints, configs[i + 1..]);
        assert SettleEvents(params.joints, configs[i..]) == group + [Sleep(SettleMs)] + rest by {
          assert configs[i..][1..] == configs[i + 1..];
        }
        Regroup(sim.trace, group + [Sleep(SettleMs)], rest);
        Regroup(sim.trace, group, [Sleep(SettleMs)]);
        SetTargetConfig(configs[i]);
        sim := Emit(sim, Sleep(SettleMs));
      }
      assert configs[|configs|..] == [];
      Regroup(old(sim).trace, SettleEvents(params.joints, configs), [Sleep(StabiliseMs)]);
      sim := Emit(sim, Sleep(StabiliseMs));
    }

    /** `get_target_params(location, config)`. */
    method GetTargetParams(location: string, config: seq<real>) returns (r: Outcome<Plan>)
      modifies this
      ensures (r, sim) == ArmSpec.GetTargetParams(oracles, targetParams, old(sim), location, config)
      ensures targetParams == old(targetParams)
    {
      if location !in targetParams {
        return KeyError(location);
      }
      var loc := targetParams[location];
      var cfg := if config != [] then config else loc.config;
      var shape := oracles.shapes(sim.trace, cfg);
      sim := Emit(sim, CreatePassiveShape(cfg, shape));
      return Normal(Plan(loc.path, shape));
    }

    /** `moveWithPath(pose, location)`; an empty location stands for `None`. */
    method MoveWithPath(pose: Pose, location: string) returns (r: Outcome<MoveResult>)
      modifies this
      ensures (r, sim) == ArmSpec.MoveWithPath(oracles, params, targetParams, old(sim), pose, location)
      ensures targetParams == old(targetParams)
    {
      var path: Path;
      var shape: Handle;
      if location == "" {
        var plan := oracles.planner(sim.trace, pose);
        sim := Emit(sim, GetPath(pose, plan));
        if plan.None? {
          return Normal(NoPath);
        }
        path, shape := plan.value.path, plan.value.shape;
      } else {
        var got := GetTargetParams(location, []);
        if got.KeyError? {
          return KeyError(got.key);
        }
        path, shape := got.value.path, got.value.shape;
      }
      ghost var s1 := sim;
      FollowPath(path);
      sim := Emit(sim, RemoveObjects([shape]));
      sim := Emit(sim, Sleep(AfterMoveMs));
      TravelInSteps(params, s1, path, shape);
      return Normal(Moved(path));
    }

    /** `moveHome(item_path, location)`; an empty location stands for `None`. */
    method MoveHome(itemPath: Path, location: string) returns (r: Outcome<bool>)
      modifies this
      ensures (r, sim) == ArmSpec.MoveHome(oracles, params, targetParams, old(sim), itemPath, location)
      ensures targetParams == old(targetParams)
    {
      var path: Path;
      var shape: Handle;
      if location != "" {
        var got := GetTargetParams(location, params.homeConfig);
        if got.KeyError? {
          return KeyError(got.key);
        }
        path, shape := got.value.path, got.value.shape;
      } else {
        path := itemPath;
        shape := oracles.shapes(sim.trace, params.homeConfig);
        sim := Emit(sim, CreatePassiveShape(params.homeConfig, shape));
      }
      ghost var s1 := sim;
      FollowPath(ReverseGroups(path));
      sim := Emit(sim, RemoveObjects([shape]));
      sim := Emit(sim, Sleep(AfterMoveMs));
      TravelInSteps(params, s1, ReverseGroups(path), shape);
      return Normal(true);
    }

    /**
     * The descent loop of `pick_and_place`: lower the robot target one step, move there,
     * and read the suction sensor, until an object is reported, the inverse kinematics
     * fails or the steps run out.
     */
    method DescendUntilContact() returns (d: Descent)
      modifies this
      ensures (d, sim) == Descend(oracles, params, old(sim), maxDescentSteps)
      ensures targetParams == old(targetParams)
    {
      var steps := 0;
      while steps < maxDescentSteps
        invariant steps <= maxDescentSteps && targetParams == old(targetParams)
        invariant Descend(oracles, params, old(sim), maxDescentSteps) == Descend(oracles, params, sim, maxDescentSteps - steps)
        decreases maxDescentSteps - steps
      {
        var pose := Lowered(sim.targetPose);
        sim := CallSetTargetPose(sim, params.robotTarget, pose);
        var reached := oracles.ik(sim.trace, pose);
        sim := Emit(sim, MoveToPose(pose, reached));
        if !reached {
          return IkFailed;
        }
        var detected := oracles.sensor(sim.trace);
        sim := Emit(sim, DetectSuctionSensor(detected));
        if detected.Some? {
          return Contact(detected.value);
        }
        steps := steps + 1;
      }
      return OutOfSteps;
    }

    /**
     * `pick_and_place(pick, place)`. Like the source it raises the caller's `pick[2]`
     * by the height difference; the descent gives up after `maxDescentSteps` steps.
     */
    method PickAndPlace(pick: array<real>, place: string) returns (r: Outcome<bool>)
      requires pick.Length > 2 && place != ""
      modifies this, pick
      ensures pick[..] == RaisedPick(params, old(pick[..]))
      ensures (r, sim) == ArmSpec.PickAndPlace(oracles, params, targetParams, old(sim), old(pick[..]), place, maxDescentSteps)
      ensures targetParams == old(targetParams)
    {
      ghost var s0 := sim;
      pick[2] := pick[2] + params.heightDiff;
      assert pick[..] == RaisedPick(params, old(pick[..]));
      var pickPose := CreatePose(pick[..], params.downOriQuat);

      var approach := MoveWithPath(pickPose, "");
      if approach.KeyError? {
        return KeyError(approach.key);
      }
      if !Truthy(approach.value) {
        return Normal(false);
      }
      var itemPath := approach.value.path;

      // Move down until the suction sensor reports an object.
      var descent := DescendUntilContact();
      if !descent.Contact? {
        return Normal(false);
      }
      var obj := descent.obj;

      // Pick the item and lift it back to the pick pose.
      sim := Emit(sim, ToggleSuction(obj, false));
      var lifted := oracles.ik(sim.trace, pickPose);
      sim := Emit(sim, MoveToPose(pickPose, lifted));
      if !lifted {
        return Normal(false);
      }

      // Without a location `moveHome` always answers True, so the source's check never fires.
      var home := MoveHome(itemPath, "");
      assert home == Normal(true);
      ghost var s3 := sim;

      var placed := MoveWithPath([], place);
      if placed.KeyError? {
        return KeyError(placed.key);
      }
      if !Truthy(placed.value) {
        assert (Normal(false), sim) == Deliver(oracles, params, targetParams, s3, obj, place);
        return Normal(false);
      }

      // Drop the item and go home.
      sim := Emit(sim, ToggleSuction(obj, true));
      r := MoveHome([], place);
      assert (r, sim) == Deliver(oracles, params, targetParams, s3, obj, place);
    }

    /** `calculate_home_target_trajectories(locations)`, the locations in table order. */
    method CalculateHomeTargetTrajectories(locations: seq<(string, seq<real>)>)
      requires NamedLocations(locations)
      modifies this
      ensures (targetParams, sim) == Calibrate(oracles, params, old(targetParams), old(sim), locations)
    {
      sim := Emit(sim, InitialParams(true));
      ghost var start := (targetParams, sim);
      for i := 0 to |locations|
        invariant CalibrateLocations(oracles, params, start.0, start.1, locations)
               == CalibrateLocations(oracles, params, targetParams, sim, locations[i..])
      {
        assert locations[i..][1..] == locations[i + 1..];
        var (name, position) := locations[i];
        var pose := CreatePose(position, params.downOriQuat);
        var target := oracles.homeTargets(sim.trace, pose);
        sim := Emit(sim, FindHomeTargetPath(pose, target));
        targetParams := targetParams[name := target];
        FollowPath(target.path);
        sim := Emit(sim, Sleep(CalibrationPauseMs));
        var _ := MoveHome([], name);
        sim := Emit(sim, Sleep(CalibrationPauseMs));
      }
      sim := Emit(sim, InitialParams(false));
    }
  }
}
