/**
 * What each operation of `RobotArm` (src/arm.py) does, as functions from the
 * simulator state before the call to the answer and the state after it. The methods
 * of `Arm.RobotArm` are proved to compute exactly these; the lemmas below state what
 * the controller promises in terms of them.
 */
module ArmSpec {
  import opened Wrappers
  import opened Simulator
  import opened ArmPaths

  /** `moveWithPath` and `moveHome` wait 0.15 s after the path. */
  const AfterMoveMs: nat := 150
  /** Calibration waits 2.0 s after the outbound path and after the way back. */
  const CalibrationPauseMs: nat := 2000
  /** Each descent step lowers the robot target by 0.001 m. */
  const DescentStep: real := 0.001

  /** The answer of the script's `getParams`, read once when the arm is created. */
  datatype Params = Params(
    joints: seq<Handle>,
    homeConfig: seq<real>,
    heightDiff: real,
    downOriQuat: seq<real>,
    robotTarget: Handle)

  /** A normal return, or the KeyError raised by `self.target_params[location]`. */
  datatype Outcome<T> = Normal(value: T) | KeyError(key: string)

  /** What `moveWithPath` returns: `False`, or the path it followed. */
  datatype MoveResult = NoPath | Moved(path: Path)

  /** Python truthiness of that answer: `False` and an empty path are both falsy. */
  predicate Truthy(m: MoveResult)
  {
    m.Moved? && m.path != []
  }

  /** The cached trajectories (`self.target_params`). */
  type Targets = map<string, LocationTarget>

  // ---------------------------------------------------------------------------
  // Moving along a path.

  /** `followPath(path)`. */
  function FollowPath(p: Params, s: SimState, path: Path): SimState
  {
    s.(trace := s.trace + FollowPathEvents(p.joints, path))
  }

  /** `followPath` then `removeObjects([shape])` and the 0.15 s wait. */
  function TravelEvents(p: Params, path: Path, shape: Handle): seq<Event>
  {
    FollowPathEvents(p.joints, path) + [RemoveObjects([shape]), Sleep(AfterMoveMs)]
  }

  function Travel(p: Params, s: SimState, path: Path, shape: Handle): SimState
  {
    s.(trace := s.trace + TravelEvents(p, path, shape))
  }

  /**
   * `get_target_params(location, config)`: the cached path for the location and a new
   * passive shape built from `config` when it is truthy, else from the cached config.
   */
  function GetTargetParams(o: Oracles, tp: Targets, s: SimState, location: string, config: seq<real>)
    : (Outcome<Plan>, SimState)
  {
    if location !in tp then (KeyError(location), s)
    else
      var cfg := if config != [] then config else tp[location].config;
      var (h, s1) := CallCreatePassiveShape(o, s, cfg);
      (Normal(Plan(tp[location].path, h)), s1)
  }

  /**
   * `moveWithPath(pose, location)`: an empty location stands for `location=None`, and
   * then the planner is asked for a path to `pose`.
   */
  function MoveWithPath(o: Oracles, p: Params, tp: Targets, s: SimState, pose: Pose, location: string)
    : (Outcome<MoveResult>, SimState)
  {
    if location == "" then
      var (plan, s1) := CallGetPath(o, s, pose);
      if plan.None? then (Normal(NoPath), s1)
      else (Normal(Moved(plan.value.path)), Travel(p, s1, plan.value.path, plan.value.shape))
    else
      var (r, s1) := GetTargetParams(o, tp, s, location, []);
      if r.KeyError? then (KeyError(r.key), s1)
      else (Normal(Moved(r.value.path)), Travel(p, s1, r.value.path, r.value.shape))
  }

  /**
   * `moveHome(item_path, location)`: retrace the location's cached path (shape built
   * from the home configuration) or, without a location, the given item path.
   */
  function MoveHome(o: Oracles, p: Params, tp: Targets, s: SimState, itemPath: Path, location: string)
    : (Outcome<bool>, SimState)
  {
    if location != "" then
      var (r, s1) := GetTargetParams(o, tp, s, location, p.homeConfig);
      if r.KeyError? then (KeyError(r.key), s1)
      else (Normal(true), Travel(p, s1, ReverseGroups(r.value.path), r.value.shape))
    else
      var (h, s1) := CallCreatePassiveShape(o, s, p.homeConfig);
      (Normal(true), Travel(p, s1, ReverseGroups(itemPath), h))
  }

  // ---------------------------------------------------------------------------
  // Pick and place.

  /** The robot-target pose one descent step lower. */
  function Lowered(pose: FullPose): FullPose
  {
    pose[2 := pose[2] - DescentStep]
  }

  datatype Descent = Contact(obj: Handle) | IkFailed | OutOfSteps

  /**
   * The descent-until-suction loop, with at most `fuel` steps. Each step lowers the
   * robot target, moves there by inverse kinematics (a failure ends the descent) and
   * reads the suction sensor (an object ends it).
   */
  function Descend(o: Oracles, p: Params, s: SimState, fuel: nat): (Descent, SimState)
    decreases fuel
  {
    if fuel == 0 then (OutOfSteps, s)
    else
      var pose := Lowered(s.targetPose);
      var s1 := CallSetTargetPose(s, p.robotTarget, pose);
      var (ok, s2) := CallMoveToPose(o, s1, pose);
      if !ok then (IkFailed, s2)
      else
        var (obj, s3) := CallDetectSuctionSensor(o, s2);
        if obj.Some? then (Contact(obj.value), s3) else Descend(o, p, s3, fuel - 1)
  }

  /** `pick[2] += heightDiff`: the caller's coordinates after `pick_and_place` starts. */
  function RaisedPick(p: Params, pick: seq<real>): seq<real>
    requires |pick| > 2
  {
    pick[2 := pick[2] + p.heightDiff]
  }

  /** The pose the arm approaches and lifts back to. */
  function PickPose(p: Params, pick: seq<real>): Pose
    requires |pick| > 2
  {
    CreatePose(RaisedPick(p, pick), p.downOriQuat)
  }

  /** The end of the transaction, from home with `obj` held: to the place, release, home. */
  function Deliver(o: Oracles, p: Params, tp: Targets, s: SimState, obj: Handle, place: string)
    : (Outcome<bool>, SimState)
    requires place != ""
  {
    var (placed, s1) := MoveWithPath(o, p, tp, s, [], place);
    if placed.KeyError? then (KeyError(placed.key), s1)
    else if !Truthy(placed.value) then (Normal(false), s1)
    else MoveHome(o, p, tp, Emit(s1, ToggleSuction(obj, true)), [], place)
  }

  /** The transaction once the object `obj` is held: lift, home, then deliver. */
  function Grasped(o: Oracles, p: Params, tp: Targets, s: SimState, pose: Pose, itemPath: Path,
                   obj: Handle, place: string): (Outcome<bool>, SimState)
    requires place != ""
  {
    var (lifted, s1) := CallMoveToPose(o, s, pose);
    if !lifted then (Normal(false), s1)
    else
      var (home, s2) := MoveHome(o, p, tp, s1, itemPath, "");
      if home.KeyError? then (KeyError(home.key), s2)
      else if !home.value then (Normal(false), s2)
      else Deliver(o, p, tp, s2, obj, place)
  }

  /** `pick_and_place(pick, place)`, with the descent bounded by `fuel` steps. */
  function PickAndPlace(o: Oracles, p: Params, tp: Targets, s: SimState, pick: seq<real>,
                        place: string, fuel: nat): (Outcome<bool>, SimState)
    requires |pick| > 2 && place != ""
  {
    var pose := PickPose(p, pick);
    var (approach, s1) := MoveWithPath(o, p, tp, s, pose, "");
    if approach.KeyError? then (KeyError(approach.key), s1)
    else if !Truthy(approach.value) then (Normal(false), s1)
    else Grasp(o, p, tp, s1, pose, approach.value.path, place, fuel)
  }

  /** From above the object: descend, engage the suction on contact, and carry on. */
  function Grasp(o: Oracles, p: Params, tp: Targets, s: SimState, pose: Pose, itemPath: Path,
                 place: string, fuel: nat): (Outcome<bool>, SimState)
    requires place != ""
  {
    var (d, s1) := Descend(o, p, s, fuel);
    if !d.Contact? then (Normal(false), s1)
    else Grasped(o, p, tp, Emit(s1, ToggleSuction(d.obj, false)), pose, itemPath, d.obj, place)
  }

  // ---------------------------------------------------------------------------
  // Calibration.

  /** The names of an ordered table of locations. */
  function Names(locations: seq<(string, seq<real>)>): set<string>
  {
    set k | 0 <= k < |locations| :: locations[k].0
  }

  /** Python would hit `len(None)` in `moveHome` for an empty (falsy) location name. */
  predicate NamedLocations(locations: seq<(string, seq<real>)>)
  {
    forall k :: 0 <= k < |locations| ==> locations[k].0 != ""
  }

  /** The loop body of `calculate_home_target_trajectories`, over the remaining locations. */
  function CalibrateLocations(o: Oracles, p: Params, tp: Targets, s: SimState,
                              locations: seq<(string, seq<real>)>): (Targets, SimState)
    requires NamedLocations(locations)
    decreases |locations|
  {
    if locations == [] then (tp, s)
    else
      var name := locations[0].0;
      var (target, s1) := CallFindHomeTargetPath(o, s, CreatePose(locations[0].1, p.downOriQuat));
      var tp1 := tp[name := target];
      var s2 := Emit(FollowPath(p, s1, target.path), Sleep(CalibrationPauseMs));
      var s3 := MoveHome(o, p, tp1, s2, [], name).1;
      CalibrateLocations(o, p, tp1, Emit(s3, Sleep(CalibrationPauseMs)), locations[1..])
  }

  /** `calculate_home_target_trajectories(locations)`. */
  function Calibrate(o: Oracles, p: Params, tp: Targets, s: SimState,
                     locations: seq<(string, seq<real>)>): (Targets, SimState)
    requires NamedLocations(locations)
  {
    var (tp1, s1) := CalibrateLocations(o, p, tp, Emit(s, InitialParams(true)), locations);
    (tp1, Emit(s1, InitialParams(false)))
  }
}
