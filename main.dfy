/**
 * `main` (src/main.py): the scene tables, the start-up choice between the cached
 * trajectories and a fresh calibration, and the request loop that turns each typed
 * request into detection, validation by the language model and pick-and-place tasks.
 *
 * The console, the JSON cache file, the camera and the language model are outside the
 * model: the typed lines are a sequence of requests, the cache file is "absent" or
 * "present with these trajectories", and what the camera sees and the language model
 * answers come from a `Perception` record of functions of what happened so far.
 */
module MainLoop {
  import opened Wrappers
  import opened Simulator
  import opened ArmSpec
  import opened Arm
  import opened Llm
  import LlmProperties
  import opened Utils

  /** `ITEMS_IN_SCENE`: the items the language model's answer is validated against. */
  const ItemsInScene: set<string> := {"sugar_box", "large_clamp", "tuna_fish_can", "master_chef_can"}

  /** `IS_TALL`: whether to grasp an item at its top rather than its centre. */
  const IsTall: map<string, bool> :=
    map["sugar_box" := true, "large_clamp" := false, "tuna_fish_can" := false, "master_chef_can" := true]

  /** `LOCATIONS` in its dictionary order: the bins and their positions. */
  const Locations: seq<(string, seq<real>)> :=
    [("redBin", [0.570, 0.375, 0.6]), ("yellowBin", [0.050, 0.375, 0.6]), ("blueBin", [-0.450, 0.375, 0.6])]

  /** The keys of `LOCATIONS`, which the language model's locations are validated against. */
  const LocationKeys: set<string> := {"redBin", "yellowBin", "blueBin"}

  /** `time.sleep(0.1)` after a request's tasks. */
  const RequestPauseMs: nat := 100

  /** What the loop records of each request, besides the commands sent to the simulator. */
  datatype Step =
    | Showed(detection: Detection)
    | Answered(request: string, answer: PromptResult)
    | Looked(item: string, location: string, detection: Detection)
    | Picked(item: string, location: string, result: Outcome<bool>)

  /**
   * What the loop cannot see into: the parse outcome of the language model's answer to
   * a request, the first YOLO result's boxes for a target (or for every class), the
   * image height, and the conversion of a pixel to world coordinates on the current
   * depth map.
   */
  datatype Perception = Perception(
    respond: (seq<Step>, string) -> ParseOutcome,
    boxes: (seq<Event>, Option<string>) -> seq<Box>,
    resY: int,
    toWorld: (seq<Event>, (int, int)) -> Point)

  /** How a request's tasks end: all tried, stopped by a failed pick, or by a `KeyError`. */
  datatype Flow = Completed | Stopped | Raised(key: string)

  /** How the session ends: `exit`, the end of the input, or an exception reaching `finally`. */
  datatype Ending = Exited | InputExhausted | KeyErrorRaised(key: string) | TypeErrorRaised

  /** `utils.detect_objects(sim, yolo, camera, target, isTall)` on the current scene. */
  function Look(per: Perception, trace: seq<Event>, target: Option<string>, isTall: bool): Detection
  {
    DetectObjects(per.boxes(trace, target), per.resY, isTall, px => per.toWorld(trace, px))
  }

  /** Pairs that passed validation: known items and known locations. */
  predicate ValidIntents(pairs: seq<(string, string)>)
  {
    forall k :: 0 <= k < |pairs| ==> pairs[k].0 in ItemsInScene && pairs[k].1 in LocationKeys
  }

  /**
   * The `for item, location in res` loop over the remaining pairs: detect the item,
   * skip it when nothing (or more than one box) was found, otherwise pick and place it;
   * a failed pick ends the loop and a `KeyError` ends the session.
   */
  function RunIntents(o: Oracles, p: Params, tp: Targets, fuel: nat, per: Perception,
                      s: SimState, log: seq<Step>, pairs: seq<(string, string)>): (Flow, SimState, seq<Step>)
    requires ValidIntents(pairs)
    decreases |pairs|
  {
    if pairs == [] then (Completed, s, log)
    else
      var (item, location) := pairs[0];
      var d := Look(per, s.trace, Some(item), IsTall[item]);
      var log1 := log + [Looked(item, location, d)];
      if !d.Located? then RunIntents(o, p, tp, fuel, per, s, log1, pairs[1..])
      else
        var (r, s1) := PickAndPlace(o, p, tp, s, d.coords, location, fuel);
        var log2 := log1 + [Picked(item, location, r)];
        if r.KeyError? then (Raised(r.key), s1, log2)
        else if !r.value then (Stopped, s1, log2)
        else RunIntents(o, p, tp, fuel, per, s1, log2, pairs[1..])
  }

  /** The `while True` loop over the remaining typed requests. */
  function Session(o: Oracles, p: Params, tp: Targets, fuel: nat, per: Perception,
                   s: SimState, log: seq<Step>, requests: seq<string>): (Ending, SimState, seq<Step>)
    decreases |requests|
  {
    if requests == [] then (InputExhausted, s, log)
    else
      var req := requests[0];
      if req == "detect" then
        Session(o, p, tp, fuel, per, s, log + [Showed(Look(per, s.trace, None, false))], requests[1..])
      else if req == "exit" then (Exited, s, log)
      else
        var outcome := per.respond(log, req);
        var res := Answer(outcome, ItemsInScene, LocationKeys);
        var log1 := log + [Answered(req, res)];
        if res.TypeError? then (TypeErrorRaised, s, log1)
        else if res.Message? then Session(o, p, tp, fuel, per, s, log1, requests[1..])
        else
          LlmProperties.AcceptedIff(outcome, ItemsInScene, LocationKeys);
          var (flow, s1, log2) := RunIntents(o, p, tp, fuel, per, s, log1, res.pairs);
          if flow.Raised? then (KeyErrorRaised(flow.key), s1, log2)
          else Session(o, p, tp, fuel, per, Emit(s1, Sleep(RequestPauseMs)), log2, requests[1..])
  }

  /**
   * The start-up branch: the trajectories in use, the simulator state after it, and
   * what is written to the cache file (`None` when nothing is written).
   */
  function Startup(o: Oracles, p: Params, s: SimState, useCached: bool, cache: Option<Targets>)
    : (Targets, SimState, Option<Targets>)
  {
    if useCached && cache.Some? then (cache.value, Emit(s, ToggleCollisionBox(false)), None)
    else
      var (tp, s1) := Calibrate(o, p, map[], s, Locations);
      (tp, s1, if useCached then Some(tp) else None)
  }

  /** Lines 100-117 of `main`: create the arm, then load or calculate the trajectories. */
  method Start(o: Oracles, p: Params, s: SimState, fuel: nat, useCached: bool, cache: Option<Targets>)
    returns (arm: RobotArm, saved: Option<Targets>)
    ensures fresh(arm)
    ensures arm.oracles == o && arm.params == p && arm.maxDescentSteps == fuel
    ensures (arm.targetParams, arm.sim, saved) == Startup(o, p, s, useCached, cache)
  {
    arm := new RobotArm(o, p, s, fuel);
    if useCached && cache.Some? {
      arm.targetParams := cache.value;
      arm.sim := Emit(arm.sim, ToggleCollisionBox(false));
      saved := None;
    } else {
      arm.CalculateHomeTargetTrajectories(Locations);
      saved := if useCached then Some(arm.targetParams) else None;
    }
  }

  /** The request loop of `main`, over the typed requests. */
  method Serve(arm: RobotArm, per: Perception, requests: seq<string>) returns (ending: Ending, log: seq<Step>)
    modifies arm
    ensures (ending, arm.sim, log)
         == Session(arm.oracles, arm.params, arm.targetParams, arm.maxDescentSteps, per, old(arm.sim), [], requests)
    ensures arm.targetParams == old(arm.targetParams)
  {
    log := [];
    var i := 0;
    while i < |requests|
      invariant i <= |requests| && arm.targetParams == old(arm.targetParams)
      invariant Session(arm.oracles, arm.params, arm.targetParams, arm.maxDescentSteps, per, old(arm.sim), [], requests)
             == Session(arm.oracles, arm.params, arm.targetParams, arm.maxDescentSteps, per, arm.sim, log, requests[i..])
      decreases |requests| - i
    {
      var req := requests[i];
      assert requests[i..][1..] == requests[i + 1..];
      if req == "detect" {
        log := log + [Showed(Look(per, arm.sim.trace, None, false))];
      } else if req == "exit" {
        return Exited, log;
      } else {
        var outcome := per.respond(log, req);
        var res := ProcessPrompt(outcome, ItemsInScene, LocationKeys);
        log := log + [Answered(req, res)];
        if res.TypeError? {
          return TypeErrorRaised, log;
        }
        if res.Message? {
          i := i + 1;
          continue;
        }
        LlmProperties.AcceptedIff(outcome, ItemsInScene, LocationKeys);
        var flow := RunTasks(arm, per, res.pairs, log);
        log := flow.1;
        if flow.0.Raised? {
          return KeyErrorRaised(flow.0.key), log;
        }
        arm.sim := Emit(arm.sim, Sleep(RequestPauseMs));
      }
      i := i + 1;
    }
    assert requests[i..] == [];
    return InputExhausted, log;
  }

  /** The `for item, location in res` loop. */
  method RunTasks(arm: RobotArm, per: Perception, pairs: seq<(string, string)>, log0: seq<Step>)
    returns (r: (Flow, seq<Step>))
    requires ValidIntents(pairs)
    modifies arm
    ensures (r.0, arm.sim, r.1)
         == RunIntents(arm.oracles, arm.params, arm.targetParams, arm.maxDescentSteps, per, old(arm.sim), log0, pairs)
    ensures arm.targetParams == old(arm.targetParams)
  {
    var log := log0;
    for j := 0 to |pairs|
      invariant arm.targetParams == old(arm.targetParams)
      invariant RunIntents(arm.oracles, arm.params, arm.targetParams, arm.maxDescentSteps, per, old(arm.sim), log0, pairs)
             == RunIntents(arm.oracles, arm.params, arm.targetParams, arm.maxDescentSteps, per, arm.sim, log, pairs[j..])
    {
      assert pairs[j..][1..] == pairs[j + 1..];
      var (item, location) := pairs[j];
      var d := Look(per, arm.sim.trace, Some(item), IsTall[item]);
      log := log + [Looked(item, location, d)];
      if d.Located? {
        var pick := new real[3](k requires 0 <= k < 3 => d.coords[k]);
        assert pick[..] == d.coords;
        var picked := arm.PickAndPlace(pick, location);
        log := log + [Picked(item, location, picked)];
        if picked.KeyError? {
          return (Raised(picked.key), log);
        }
        if !picked.value {
          return (Stopped, log);
        }
      }
    }
    assert pairs[|pairs|..] == [];
    return (Completed, log);
  }

  /** `main` from the arm's creation to the end of the session. */
  method Run(o: Oracles, p: Params, s: SimState, fuel: nat, useCached: bool, cache: Option<Targets>,
             per: Perception, requests: seq<string>)
    returns (ending: Ending, sim: SimState, log: seq<Step>, saved: Option<Targets>)
    ensures var (tp, s1, written) := Startup(o, p, s, useCached, cache);
            saved == written && (ending, sim, log) == Session(o, p, tp, fuel, per, s1, [], requests)
  {
    var arm;
    arm, saved := Start(o, p, s, fuel, useCached, cache);
    ending, log := Serve(arm, per, requests);
    sim := arm.sim;
  }
}
