/**
 * The boundary between the arm controller and the simulator: the simulator API
 * (`sim.setJointTargetPosition`, `sim.removeObjects`, `sim.setObjectPose`, ...) and the
 * functions of the arm's Lua script reached through `call_lua_function`.
 *
 * Nothing behind the boundary is modelled. Each command and each planner, sensor or
 * script query appends one event to a trace; a query whose answer comes from the
 * planner, the inverse kinematics, the suction sensor or the script's shape
 * bookkeeping takes that answer from an oracle, a total function of the trace so far
 * (so the answer may depend on everything that happened before). Two calls append
 * nothing: `sim.getObjectPose` of the robot target reads the one piece of simulator
 * state kept, the pose of the robot-target dummy, which only `sim.setObjectPose`
 * changes; and the script's `getParams`, read once when the arm is created, is the
 * `Params` value the arm is built from.
 */
module Simulator {
  import opened Wrappers

  /** Handle of a simulator object (joint, shape, dummy). */
  type Handle = int

  /** A pose as the script takes it: 3 position values then 4 quaternion values. */
  type Pose = seq<real>

  /** A pose read back from the simulator always has 7 values. */
  type FullPose = p: seq<real> | |p| == 7 witness [0.0, 0.0, 0.0, 0.0, 0.0, 0.0, 0.0]

  /** A flat joint-space trajectory: consecutive groups of joint values. */
  type Path = seq<real>

  /** What `getPath` answers when planning succeeds: the path and a passive shape. */
  datatype Plan = Plan(path: Path, shape: Handle)

  /** A calibrated home-to-location entry: the home-side configuration and the path. */
  datatype LocationTarget = LocationTarget(config: seq<real>, path: Path)

  datatype Event =
    | SetJointTarget(joint: Handle, position: real)
    | Sleep(ms: nat)
    | GetPath(pose: Pose, plan: Option<Plan>)
    | CreatePassiveShape(config: seq<real>, shape: Handle)
    | RemoveObjects(handles: seq<Handle>)
    | SetObjectPose(obj: Handle, pose: Pose)
    | MoveToPose(pose: Pose, reached: bool)
    | DetectSuctionSensor(detected: Option<Handle>)
    | ToggleSuction(obj: Handle, release: bool)
    | InitialParams(enter: bool)
    | FindHomeTargetPath(pose: Pose, target: LocationTarget)
    | ToggleCollisionBox(enabled: bool)

  /** The answers of the simulator, as functions of the trace so far. */
  datatype Oracles = Oracles(
    planner: (seq<Event>, Pose) -> Option<Plan>,
    ik: (seq<Event>, Pose) -> bool,
    sensor: seq<Event> -> Option<Handle>,
    shapes: (seq<Event>, seq<real>) -> Handle,
    homeTargets: (seq<Event>, Pose) -> LocationTarget)

  datatype SimState = SimState(trace: seq<Event>, targetPose: FullPose)

  /** A call with no answer: the event is recorded and nothing else changes. */
  function Emit(s: SimState, e: Event): (s': SimState)
    ensures s'.trace == s.trace + [e] && s'.targetPose == s.targetPose
  {
    s.(trace := s.trace + [e])
  }

  /** `getPath(pose)`: the answer is recorded with the call. */
  function CallGetPath(o: Oracles, s: SimState, pose: Pose): (Option<Plan>, SimState)
  {
    var plan := o.planner(s.trace, pose);
    (plan, Emit(s, GetPath(pose, plan)))
  }

  /** `createPassiveShape(config)`. */
  function CallCreatePassiveShape(o: Oracles, s: SimState, config: seq<real>): (Handle, SimState)
  {
    var h := o.shapes(s.trace, config);
    (h, Emit(s, CreatePassiveShape(config, h)))
  }

  /** `moveToPose(pose)`: an inverse-kinematics move; true when it reached the pose. */
  function CallMoveToPose(o: Oracles, s: SimState, pose: Pose): (bool, SimState)
  {
    var ok := o.ik(s.trace, pose);
    (ok, Emit(s, MoveToPose(pose, ok)))
  }

  /** `detectSuctionSensor()`: the object under the suction cup, if any. */
  function CallDetectSuctionSensor(o: Oracles, s: SimState): (Option<Handle>, SimState)
  {
    var obj := o.sensor(s.trace);
    (obj, Emit(s, DetectSuctionSensor(obj)))
  }

  /** `findHomeTargetPath(pose)`. */
  function CallFindHomeTargetPath(o: Oracles, s: SimState, pose: Pose): (LocationTarget, SimState)
  {
    var t := o.homeTargets(s.trace, pose);
    (t, Emit(s, FindHomeTargetPath(pose, t)))
  }

  /** `sim.setObjectPose(robotTarget, -1, pose)`: moves the robot-target dummy. */
  function CallSetTargetPose(s: SimState, target: Handle, pose: FullPose): (s': SimState)
    ensures s'.targetPose == pose && s'.trace == s.trace + [SetObjectPose(target, pose)]
  {
    SimState(s.trace + [SetObjectPose(target, pose)], pose)
  }
}
