/**
 * What the arm controller (src/arm.py) promises, proved about the functions of ArmSpec:
 * planner failures have no physical effect, the suction cup is engaged only on contact
 * and released only at the place location, the descent is bounded and goes down by
 * 0.001 m a step, and calibration stores a trajectory for every location inside one
 * `initialParams` bracket.
 */
module ArmProperties {
  import opened Wrappers
  import opened Simulator
  import opened ArmPaths
  import opened ArmSpec

  // ---------------------------------------------------------------------------
  // Views of a trace.

  /** The suction toggles of a trace, in order. */
  function Toggles(t: seq<Event>): (r: seq<Event>)
    ensures forall k :: 0 <= k < |r| ==> r[k].ToggleSuction?
    ensures |r| <= |t|
  {
    if t == [] then [] else (if t[0].ToggleSuction? then [t[0]] else []) + Toggles(t[1..])
  }

  /** The number of inverse-kinematics moves in a trace. */
  function IkMoves(t: seq<Event>): nat
  {
    if t == [] then 0 else (if t[0].MoveToPose? then 1 else 0) + IkMoves(t[1..])
  }

  /** The number of `initialParams` calls in a trace. */
  function Setups(t: seq<Event>): nat
  {
    if t == [] then 0 else (if t[0].InitialParams? then 1 else 0) + Setups(t[1..])
  }

  /** The poses `findHomeTargetPath` was asked to plan to, in order. */
  function Planned(t: seq<Event>): seq<Pose>
  {
    if t == [] then [] else (if t[0].FindHomeTargetPath? then [t[0].pose] else []) + Planned(t[1..])
  }

  /** The events appended between two states, when the second extends the first. */
  function Added(s: SimState, s': SimState): seq<Event>
    requires s.trace <= s'.trace
  {
    s'.trace[|s.trace|..]
  }

  lemma {:induction false} TogglesConcat(a: seq<Event>, b: seq<Event>)
    ensures Toggles(a + b) == Toggles(a) + Toggles(b)
    decreases |a|
  {
    if a == [] {
      assert a + b == b;
    } else {
      assert (a + b)[0] == a[0] && (a + b)[1..] == a[1..] + b;
      TogglesConcat(a[1..], b);
    }
  }

  lemma {:induction false} IkMovesConcat(a: seq<Event>, b: seq<Event>)
    ensures IkMoves(a + b) == IkMoves(a) + IkMoves(b)
    decreases |a|
  {
    if a == [] {
      assert a + b == b;
    } else {
      assert (a + b)[0] == a[0] && (a + b)[1..] == a[1..] + b;
      IkMovesConcat(a[1..], b);
    }
  }

  lemma {:induction false} SetupsConcat(a: seq<Event>, b: seq<Event>)
    ensures Setups(a + b) == Setups(a) + Setups(b)
    decreases |a|
  {
    if a == [] {
      assert a + b == b;
    } else {
      assert (a + b)[0] == a[0] && (a + b)[1..] == a[1..] + b;
      SetupsConcat(a[1..], b);
    }
  }

  lemma {:induction false} PlannedConcat(a: seq<Event>, b: seq<Event>)
    ensures Planned(a + b) == Planned(a) + Planned(b)
    decreases |a|
  {
    if a == [] {
      assert a + b == b;
    } else {
      assert (a + b)[0] == a[0] && (a + b)[1..] == a[1..] + b;
      PlannedConcat(a[1..], b);
    }
  }

  /** Every toggle of a trace is one of its listed toggles. */
  lemma {:induction false} ToggleListed(t: seq<Event>, k: nat)
    requires k < |t| && t[k].ToggleSuction?
    ensures t[k] in Toggles(t)
    decreases |t|
  {
    if k > 0 {
      ToggleListed(t[1..], k - 1);
    }
  }

  lemma {:induction false} MotionOnlyCounts(t: seq<Event>)
    requires MotionOnly(t)
    ensures Toggles(t) == [] && IkMoves(t) == 0 && Setups(t) == 0
    decreases |t|
  {
    if t != [] {
      MotionOnlyCounts(t[1..]);
    }
  }

  lemma {:induction false} MotionOnlyUnplanned(t: seq<Event>)
    requires MotionOnly(t)
    ensures Planned(t) == []
    decreases |t|
  {
    if t != [] {
      MotionOnlyUnplanned(t[1..]);
    }
  }

  /** Following a path and travelling back along a shape plan nothing. */
  lemma TravelUnplanned(p: Params, path: Path, shape: Handle)
    ensures Planned(FollowPathEvents(p.joints, path)) == []
    ensures Planned(TravelEvents(p, path, shape)) == []
  {
    FollowPathMotionOnly(p.joints, path);
    MotionOnlyUnplanned(FollowPathEvents(p.joints, path));
    PlannedConcat(FollowPathEvents(p.joints, path), [RemoveObjects([shape]), Sleep(AfterMoveMs)]);
    assert Planned([Sleep(AfterMoveMs)]) == [];
    assert [RemoveObjects([shape]), Sleep(AfterMoveMs)][1..] == [Sleep(AfterMoveMs)];
  }

  lemma TravelCounts(p: Params, path: Path, shape: Handle)
    ensures var t := TravelEvents(p, path, shape);
      Toggles(t) == [] && IkMoves(t) == 0 && Setups(t) == 0
  {
    var f := FollowPathEvents(p.joints, path);
    FollowPathMotionOnly(p.joints, path);
    MotionOnlyCounts(f);
    TailCounts(shape);
    TogglesConcat(f, [RemoveObjects([shape]), Sleep(AfterMoveMs)]);
    IkMovesConcat(f, [RemoveObjects([shape]), Sleep(AfterMoveMs)]);
    SetupsConcat(f, [RemoveObjects([shape]), Sleep(AfterMoveMs)]);
  }

  /** Counts of a trace that starts with `e`. */
  lemma ConsCounts(e: Event, t: seq<Event>)
    ensures Toggles([e] + t) == (if e.ToggleSuction? then [e] else []) + Toggles(t)
    ensures IkMoves([e] + t) == (if e.MoveToPose? then 1 else 0) + IkMoves(t)
    ensures Setups([e] + t) == (if e.InitialParams? then 1 else 0) + Setups(t)
    ensures Commanded([e] + t) == (if e.SetJointTarget? then [e.position] else []) + Commanded(t)
  {
    assert ([e] + t)[0] == e && ([e] + t)[1..] == t;
  }

  lemma TailCounts(shape: Handle)
    ensures var t := [RemoveObjects([shape]), Sleep(AfterMoveMs)];
      Toggles(t) == [] && IkMoves(t) == 0 && Setups(t) == 0 && Commanded(t) == []
  {
    ConsCounts(Sleep(AfterMoveMs), []);
    ConsCounts(RemoveObjects([shape]), [Sleep(AfterMoveMs)]);
    assert [Sleep(AfterMoveMs)] == [Sleep(AfterMoveMs)] + [];
    assert [RemoveObjects([shape]), Sleep(AfterMoveMs)] == [RemoveObjects([shape])] + [Sleep(AfterMoveMs)];
  }

  /** A trip commands exactly the joint values of its path. */
  lemma TravelCommanded(p: Params, path: Path, shape: Handle)
    requires |p.joints| == NumJoints
    ensures Commanded(TravelEvents(p, path, shape)) == path
  {
    FollowPathReplaysPath(p.joints, path);
    TailCounts(shape);
    CommandedConcat(FollowPathEvents(p.joints, path), [RemoveObjects([shape]), Sleep(AfterMoveMs)]);
  }

  /** Counts of a one-event trace. */
  lemma SingleCounts(e: Event)
    ensures Toggles([e]) == (if e.ToggleSuction? then [e] else [])
    ensures IkMoves([e]) == (if e.MoveToPose? then 1 else 0)
    ensures Setups([e]) == (if e.InitialParams? then 1 else 0)
  {
    assert [e][1..] == [];
  }

  /** Counts of an event followed by a trip. */
  lemma PrefixedTravelCounts(e: Event, p: Params, path: Path, shape: Handle)
    ensures var t := [e] + TravelEvents(p, path, shape);
      && Toggles(t) == Toggles([e]) && IkMoves(t) == IkMoves([e]) && Setups(t) == Setups([e])
  {
    TravelCounts(p, path, shape);
    TogglesConcat([e], TravelEvents(p, path, shape));
    IkMovesConcat([e], TravelEvents(p, path, shape));
    SetupsConcat([e], TravelEvents(p, path, shape));
  }

  // ---------------------------------------------------------------------------
  // moveWithPath, get_target_params, moveHome.

  /**
   * `moveWithPath(pose)`: a falsy planner answer returns `False` having done nothing but
   * ask; otherwise the path is followed, the passive shape removed, and the path returned.
   */
  lemma MoveWithPoseContract(o: Oracles, p: Params, tp: Targets, s: SimState, pose: Pose)
    ensures var (r, s') := MoveWithPath(o, p, tp, s, pose, "");
      var plan := o.planner(s.trace, pose);
      && s'.targetPose == s.targetPose
      && (plan.None? ==> r == Normal(NoPath) && s'.trace == s.trace + [GetPath(pose, None)])
      && (plan.Some? ==>
            && r == Normal(Moved(plan.value.path))
            && s'.trace == s.trace + [GetPath(pose, plan)] + TravelEvents(p, plan.value.path, plan.value.shape))
  {
  }

  /**
   * `get_target_params`: a KeyError exactly for an unknown location; otherwise the cached
   * path, with a passive shape built from the override config when it is truthy and from
   * the cached config when it is not.
   */
  lemma TargetParamsContract(o: Oracles, tp: Targets, s: SimState, location: string, config: seq<real>)
    ensures var (r, s') := GetTargetParams(o, tp, s, location, config);
      && (r.KeyError? <==> location !in tp)
      && (r.KeyError? ==> r.key == location && s' == s)
      && (location in tp ==>
            var cfg := if config != [] then config else tp[location].config;
            && r == Normal(Plan(tp[location].path, o.shapes(s.trace, cfg)))
            && s'.trace == s.trace + [CreatePassiveShape(cfg, o.shapes(s.trace, cfg))]
            && s'.targetPose == s.targetPose)
  {
  }

  /**
   * `moveHome(location=...)` passes the home configuration as the override, and replays
   * the location's cached path group-reversed.
   */
  lemma MoveHomeFromLocation(o: Oracles, p: Params, tp: Targets, s: SimState, itemPath: Path, location: string)
    requires location != "" && location in tp
    ensures var (r, s') := MoveHome(o, p, tp, s, itemPath, location);
      var cfg := if p.homeConfig != [] then p.homeConfig else tp[location].config;
      var h := o.shapes(s.trace, cfg);
      && r == Normal(true)
      && s'.trace == s.trace + [CreatePassiveShape(cfg, h)] + TravelEvents(p, ReverseGroups(tp[location].path), h)
  {
  }

  /** The commands of a trip home retrace the outbound path: its groups, last group first. */
  lemma MoveHomeRetraces(o: Oracles, p: Params, tp: Targets, s: SimState, location: string)
    requires location != "" && location in tp && |p.joints| == NumJoints
    requires |tp[location].path| % NumJoints == 0
    ensures var s' := MoveHome(o, p, tp, s, [], location).1;
      && s.trace <= s'.trace
      && Chunks(Commanded(Added(s, s'))) == Reversed(Chunks(tp[location].path))
  {
    MoveHomeFromLocation(o, p, tp, s, [], location);
    var cfg := if p.homeConfig != [] then p.homeConfig else tp[location].config;
    var h := o.shapes(s.trace, cfg);
    var back := ReverseGroups(tp[location].path);
    var s' := MoveHome(o, p, tp, s, [], location).1;
    var t := TravelEvents(p, back, h);
    assert Added(s, s') == [CreatePassiveShape(cfg, h)] + t;
    ConsCounts(CreatePassiveShape(cfg, h), t);
    TravelCommanded(p, back, h);
    assert Commanded(Added(s, s')) == back;
    ReverseGroupsReversesGroups(tp[location].path);
  }

  // Phases of the transaction touch the suction cup only where the source does.

  lemma MoveWithPathQuiet(o: Oracles, p: Params, tp: Targets, s: SimState, pose: Pose, location: string)
    ensures var (r, s') := MoveWithPath(o, p, tp, s, pose, location);
      && s.trace <= s'.trace && s'.targetPose == s.targetPose
      && Toggles(Added(s, s')) == [] && IkMoves(Added(s, s')) == 0
      && (location == "" ==> r.Normal?)
      && (r.KeyError? <==> location != "" && location !in tp)
  {
    var (r, s') := MoveWithPath(o, p, tp, s, pose, location);
    if location == "" {
      var plan := o.planner(s.trace, pose);
      if plan.None? {
        assert Added(s, s') == [GetPath(pose, None)];
        SingleCounts(GetPath(pose, None));
      } else {
        assert Added(s, s') == [GetPath(pose, plan)] + TravelEvents(p, plan.value.path, plan.value.shape);
        PrefixedTravelCounts(GetPath(pose, plan), p, plan.value.path, plan.value.shape);
        SingleCounts(GetPath(pose, plan));
      }
    } else if location in tp {
      var cfg := tp[location].config;
      var h := o.shapes(s.trace, cfg);
      assert Added(s, s') == [CreatePassiveShape(cfg, h)] + TravelEvents(p, tp[location].path, h);
      PrefixedTravelCounts(CreatePassiveShape(cfg, h), p, tp[location].path, h);
      SingleCounts(CreatePassiveShape(cfg, h));
    } else {
      assert Added(s, s') == [];
    }
  }

  lemma MoveHomeQuiet(o: Oracles, p: Params, tp: Targets, s: SimState, itemPath: Path, location: string)
    ensures var (r, s') := MoveHome(o, p, tp, s, itemPath, location);
      && s.trace <= s'.trace && s'.targetPose == s.targetPose
      && Toggles(Added(s, s')) == [] && IkMoves(Added(s, s')) == 0 && Setups(Added(s, s')) == 0
      && (r.KeyError? <==> location != "" && location !in tp)
      && (r.Normal? ==> r.value)
  {
    if location == "" {
      ShapeTravelStates(s, p.homeConfig, o.shapes(s.trace, p.homeConfig), p, ReverseGroups(itemPath));
    } else if location in tp {
      var cfg := if p.homeConfig != [] then p.homeConfig else tp[location].config;
      ShapeTravelStates(s, cfg, o.shapes(s.trace, cfg), p, ReverseGroups(tp[location].path));
    } else {
      var s' := MoveHome(o, p, tp, s, itemPath, location).1;
      assert Added(s, s') == [];
    }
  }

  /** Creating a passive shape and travelling along it is quiet and leaves the robot target alone. */
  lemma ShapeTravelStates(s: SimState, cfg: seq<real>, h: Handle, p: Params, path: Path)
    ensures var s' := Travel(p, Emit(s, CreatePassiveShape(cfg, h)), path, h);
      Quiet(s, s') && s'.targetPose == s.targetPose
  {
    var s' := Travel(p, Emit(s, CreatePassiveShape(cfg, h)), path, h);
    assert Added(s, s') == [CreatePassiveShape(cfg, h)] + TravelEvents(p, path, h);
    ShapeTravelQuiet(CreatePassiveShape(cfg, h), p, path, h);
  }


  /** A passive shape followed by a travel along it leaves no toggle, no setup and no inverse-kinematics move. */
  lemma ShapeTravelQuiet(e: Event, p: Params, path: Path, shape: Handle)
    requires e.CreatePassiveShape?
    ensures var t := [e] + TravelEvents(p, path, shape);
      Toggles(t) == [] && IkMoves(t) == 0 && Setups(t) == 0
  {
    PrefixedTravelCounts(e, p, path, shape);
    SingleCounts(e);
  }

  // ---------------------------------------------------------------------------
  // The descent.

  /** One descent step that finds no object leaves a three-event trace. */
  lemma DescendStep(o: Oracles, p: Params, s: SimState, fuel: nat)
    requires fuel > 0
    ensures var pose := Lowered(s.targetPose);
      var s1 := CallSetTargetPose(s, p.robotTarget, pose);
      var ok := o.ik(s1.trace, pose);
      var s2 := Emit(s1, MoveToPose(pose, ok));
      var obj := o.sensor(s2.trace);
      var s3 := Emit(s2, DetectSuctionSensor(obj));
      && (!ok ==> Descend(o, p, s, fuel) == (IkFailed, s2))
      && (ok && obj.Some? ==> Descend(o, p, s, fuel) == (Contact(obj.value), s3))
      && (ok && obj.None? ==> Descend(o, p, s, fuel) == Descend(o, p, s3, fuel - 1))
      && s3.trace == s.trace + [SetObjectPose(p.robotTarget, pose), MoveToPose(pose, ok), DetectSuctionSensor(obj)]
      && s2.trace == s.trace + [SetObjectPose(p.robotTarget, pose), MoveToPose(pose, ok)]
      && s3.targetPose == pose
  {
  }

  /** Counts of one descent step, and of the step cut short by an inverse-kinematics failure. */
  lemma StepCounts(target: Handle, pose: Pose, ok: bool, obj: Option<Handle>)
    ensures var step := [SetObjectPose(target, pose), MoveToPose(pose, ok), DetectSuctionSensor(obj)];
      && IkMoves(step) == 1 && Toggles(step) == []
      && IkMoves(step[..2]) == 1 && Toggles(step[..2]) == []
  {
    var e0, e1, e2 := SetObjectPose(target, pose), MoveToPose(pose, ok), DetectSuctionSensor(obj);
    ConsCounts(e2, []);
    ConsCounts(e1, []);
    ConsCounts(e1, [e2]);
    ConsCounts(e0, [e1]);
    ConsCounts(e0, [e1, e2]);
    assert [e2] + [] == [e2] && [e1] + [] == [e1] && [e1] + [e2] == [e1, e2];
    assert [e0] + [e1] == [e0, e1, e2][..2] && [e0] + [e1, e2] == [e0, e1, e2];
  }

  /**
   * The descent never takes more than `fuel` inverse-kinematics steps, each after
   * lowering the robot target by 0.001 m, and leaves the target exactly that many
   * steps lower; it touches nothing else and never the suction cup. It reports
   * running out of steps only after all `fuel` of them.
   */
  lemma {:induction false} DescendBounded(o: Oracles, p: Params, s: SimState, fuel: nat)
    ensures var (d, s') := Descend(o, p, s, fuel);
      && s.trace <= s'.trace
      && IkMoves(Added(s, s')) <= fuel
      && (d.OutOfSteps? ==> IkMoves(Added(s, s')) == fuel)
      && s'.targetPose[2] == s.targetPose[2] - DescentStep * (IkMoves(Added(s, s')) as real)
      && s'.targetPose[..2] == s.targetPose[..2] && s'.targetPose[3..] == s.targetPose[3..]
      && Toggles(Added(s, s')) == []
      && (d.Contact? ==> |Added(s, s')| > 0 && Added(s, s')[|Added(s, s')| - 1] == DetectSuctionSensor(Some(d.obj)))
    decreases fuel
  {
    DescendTrace(o, p, s, fuel);
    DescendHeight(o, p, s, fuel);
  }

  lemma {:induction false} DescendTrace(o: Oracles, p: Params, s: SimState, fuel: nat)
    ensures var (d, s') := Descend(o, p, s, fuel);
      && s.trace <= s'.trace
      && IkMoves(Added(s, s')) <= fuel
      && (d.OutOfSteps? ==> IkMoves(Added(s, s')) == fuel)
      && Toggles(Added(s, s')) == []
      && (d.Contact? ==> |Added(s, s')| > 0 && Added(s, s')[|Added(s, s')| - 1] == DetectSuctionSensor(Some(d.obj)))
    decreases fuel
  {
    if fuel > 0 {
      DescendStep(o, p, s, fuel);
      var pose := Lowered(s.targetPose);
      var s1 := CallSetTargetPose(s, p.robotTarget, pose);
      var ok := o.ik(s1.trace, pose);
      var s2 := Emit(s1, MoveToPose(pose, ok));
      var obj := o.sensor(s2.trace);
      var s3 := Emit(s2, DetectSuctionSensor(obj));
      var step := [SetObjectPose(p.robotTarget, pose), MoveToPose(pose, ok), DetectSuctionSensor(obj)];
      StepCounts(p.robotTarget, pose, ok, obj);
      if !ok {
        assert Added(s, s2) == step[..2];
      } else if obj.Some? {
        assert Added(s, s3) == step;
      } else {
        DescendTrace(o, p, s3, fuel - 1);
        var (d, s') := Descend(o, p, s3, fuel - 1);
        assert Added(s, s3) == step;
        DescentExtends(s, s3, s', d, fuel);
      }
    }
  }

  /** One empty-handed step in front of a descent that keeps the trace facts keeps them. */
  lemma DescentExtends(s: SimState, s3: SimState, s': SimState, d: Descent, fuel: nat)
    requires fuel > 0
    requires s.trace <= s3.trace && IkMoves(Added(s, s3)) == 1 && Toggles(Added(s, s3)) == []
    requires s3.trace <= s'.trace && IkMoves(Added(s3, s')) <= fuel - 1 && Toggles(Added(s3, s')) == []
    requires d.OutOfSteps? ==> IkMoves(Added(s3, s')) == fuel - 1
    requires d.Contact? ==> |Added(s3, s')| > 0 && Added(s3, s')[|Added(s3, s')| - 1] == DetectSuctionSensor(Some(d.obj))
    ensures s.trace <= s'.trace && IkMoves(Added(s, s')) <= fuel && Toggles(Added(s, s')) == []
    ensures d.OutOfSteps? ==> IkMoves(Added(s, s')) == fuel
    ensures d.Contact? ==> |Added(s, s')| > 0 && Added(s, s')[|Added(s, s')| - 1] == DetectSuctionSensor(Some(d.obj))
  {
    AddedChain(s, s3, s');
  }

  lemma {:induction false} DescendHeight(o: Oracles, p: Params, s: SimState, fuel: nat)
    ensures var (d, s') := Descend(o, p, s, fuel);
      && s.trace <= s'.trace
      && s'.targetPose[2] == s.targetPose[2] - DescentStep * (IkMoves(Added(s, s')) as real)
      && s'.targetPose[..2] == s.targetPose[..2] && s'.targetPose[3..] == s.targetPose[3..]
    decreases fuel
  {
    if fuel > 0 {
      DescendStep(o, p, s, fuel);
      var pose := Lowered(s.targetPose);
      var s1 := CallSetTargetPose(s, p.robotTarget, pose);
      var ok := o.ik(s1.trace, pose);
      var s2 := Emit(s1, MoveToPose(pose, ok));
      var obj := o.sensor(s2.trace);
      var s3 := Emit(s2, DetectSuctionSensor(obj));
      var step := [SetObjectPose(p.robotTarget, pose), MoveToPose(pose, ok), DetectSuctionSensor(obj)];
      StepCounts(p.robotTarget, pose, ok, obj);
      if !ok {
        assert Added(s, s2) == step[..2];
        HeightExtends(s, s2, s2);
      } else if obj.Some? {
        assert Added(s, s3) == step;
        HeightExtends(s, s3, s3);
      } else {
        DescendHeight(o, p, s3, fuel - 1);
        assert Added(s, s3) == step;
        HeightExtends(s, s3, Descend(o, p, s3, fuel - 1).1);
      }
    }
  }

  /** One step lower, then as many steps lower as inverse-kinematics moves follow. */
  lemma HeightExtends(s: SimState, s3: SimState, s': SimState)
    requires s.trace <= s3.trace && IkMoves(Added(s, s3)) == 1 && s3.targetPose == Lowered(s.targetPose)
    requires s3.trace <= s'.trace
    requires s'.targetPose[2] == s3.targetPose[2] - DescentStep * (IkMoves(Added(s3, s')) as real)
    requires s'.targetPose[..2] == s3.targetPose[..2] && s'.targetPose[3..] == s3.targetPose[3..]
    ensures s.trace <= s'.trace
    ensures s'.targetPose[2] == s.targetPose[2] - DescentStep * (IkMoves(Added(s, s')) as real)
    ensures s'.targetPose[..2] == s.targetPose[..2] && s'.targetPose[3..] == s.targetPose[3..]
  {
    AddedChain(s, s3, s');
    LoweredThen(s.targetPose, s3.targetPose, s'.targetPose, IkMoves(Added(s3, s')));
  }

  /** One step lower changes the height only, by one step. */
  lemma LoweredKeeps(pose: FullPose)
    ensures Lowered(pose)[2] == pose[2] - DescentStep
    ensures Lowered(pose)[..2] == pose[..2] && Lowered(pose)[3..] == pose[3..]
  {
  }

  /** One step lower, then `n` steps lower, is `n + 1` steps lower. */
  lemma LoweredThen(a: FullPose, b: FullPose, c: FullPose, n: nat)
    requires b == Lowered(a)
    requires c[2] == b[2] - DescentStep * (n as real)
    requires c[..2] == b[..2] && c[3..] == b[3..]
    ensures c[2] == a[2] - DescentStep * ((1 + n) as real)
    ensures c[..2] == a[..2] && c[3..] == a[3..]
  {
    LoweredKeeps(a);
  }


  /** Every inverse-kinematics move of the descent goes to the pose just given to the target. */
  lemma {:induction false} DescendSetsTargetFirst(o: Oracles, p: Params, s: SimState, fuel: nat)
    ensures var s' := Descend(o, p, s, fuel).1;
      && s.trace <= s'.trace
      && forall k :: 0 <= k < |Added(s, s')| && Added(s, s')[k].MoveToPose? ==>
           k > 0 && Added(s, s')[k - 1] == SetObjectPose(p.robotTarget, Added(s, s')[k].pose)
    decreases fuel
  {
    if fuel > 0 {
      DescendStep(o, p, s, fuel);
      var pose := Lowered(s.targetPose);
      var s1 := CallSetTargetPose(s, p.robotTarget, pose);
      var ok := o.ik(s1.trace, pose);
      var obj := o.sensor(Emit(s1, MoveToPose(pose, ok)).trace);
      if ok && obj.None? {
        var s3 := Emit(Emit(s1, MoveToPose(pose, ok)), DetectSuctionSensor(obj));
        DescendSetsTargetFirst(o, p, s3, fuel - 1);
        var s' := Descend(o, p, s3, fuel - 1).1;
        var step := [SetObjectPose(p.robotTarget, pose), MoveToPose(pose, ok), DetectSuctionSensor(obj)];
        assert Added(s, s') == step + Added(s3, s');
        forall k | 0 <= k < |Added(s, s')| && Added(s, s')[k].MoveToPose?
          ensures k > 0 && Added(s, s')[k - 1] == SetObjectPose(p.robotTarget, Added(s, s')[k].pose)
        {
          if k >= 3 {
            assert Added(s, s')[k] == Added(s3, s')[k - 3];
            if k > 3 {
              assert Added(s, s')[k - 1] == Added(s3, s')[k - 4];
            }
          }
        }
      }
    }
  }

  /**
   * With a sensor that never fires and inverse kinematics that always succeeds, the
   * bounded descent stops after exactly `fuel` steps. (In the source the loop would
   * not stop at all.)
   */
  lemma DescendWithoutContactStops(o: Oracles, p: Params, s: SimState, fuel: nat)
    requires forall h :: o.sensor(h).None?
    requires forall h, q :: o.ik(h, q)
    ensures var (d, s') := Descend(o, p, s, fuel);
      d == OutOfSteps && s.trace <= s'.trace && IkMoves(Added(s, s')) == fuel
  {
    DescendNeverContacts(o, p, s, fuel);
    DescendBounded(o, p, s, fuel);
  }

  lemma {:induction false} DescendNeverContacts(o: Oracles, p: Params, s: SimState, fuel: nat)
    requires forall h :: o.sensor(h).None?
    requires forall h, q :: o.ik(h, q)
    ensures Descend(o, p, s, fuel).0 == OutOfSteps
    decreases fuel
  {
    if fuel > 0 {
      DescendStep(o, p, s, fuel);
      var pose := Lowered(s.targetPose);
      var s1 := CallSetTargetPose(s, p.robotTarget, pose);
      var s3 := Emit(Emit(s1, MoveToPose(pose, true)), DetectSuctionSensor(None));
      assert o.ik(s1.trace, pose);
      assert o.sensor(Emit(s1, MoveToPose(pose, true)).trace).None?;
      DescendNeverContacts(o, p, s3, fuel - 1);
    }
  }

  // ---------------------------------------------------------------------------
  // Composing the phases.

  lemma EmitAdded(s: SimState, e: Event)
    ensures s.trace <= Emit(s, e).trace && Added(s, Emit(s, e)) == [e]
    ensures Toggles([e]) == (if e.ToggleSuction? then [e] else [])
    ensures IkMoves([e]) == (if e.MoveToPose? then 1 else 0)
    ensures Setups([e]) == (if e.InitialParams? then 1 else 0)
  {
    SingleCounts(e);
  }

  lemma AddedChain(s0: SimState, s1: SimState, s2: SimState)
    requires s0.trace <= s1.trace && s1.trace <= s2.trace
    ensures s0.trace <= s2.trace
    ensures Added(s0, s2) == Added(s0, s1) + Added(s1, s2)
    ensures Toggles(Added(s0, s2)) == Toggles(Added(s0, s1)) + Toggles(Added(s1, s2))
    ensures IkMoves(Added(s0, s2)) == IkMoves(Added(s0, s1)) + IkMoves(Added(s1, s2))
    ensures Setups(Added(s0, s2)) == Setups(Added(s0, s1)) + Setups(Added(s1, s2))
  {
    assert Added(s0, s2) == Added(s0, s1) + Added(s1, s2);
    TogglesConcat(Added(s0, s1), Added(s1, s2));
    IkMovesConcat(Added(s0, s1), Added(s1, s2));
    SetupsConcat(Added(s0, s1), Added(s1, s2));
  }

  /** Delivering toggles suction once, to release `obj`, exactly when it succeeds. */
  lemma DeliverToggles(o: Oracles, p: Params, tp: Targets, s: SimState, obj: Handle, place: string)
    requires place != ""
    ensures var (r, s') := Deliver(o, p, tp, s, obj, place);
      && s.trace <= s'.trace
      && Toggles(Added(s, s')) == (if r == Normal(true) then [ToggleSuction(obj, true)] else [])
      && (r.KeyError? ==> r.key == place && place !in tp)
      && (place in tp ==> r.Normal?)
  {
    var (placed, s1) := MoveWithPath(o, p, tp, s, [], place);
    MoveWithPathQuiet(o, p, tp, s, [], place);
    if placed.Normal? && Truthy(placed.value) {
      var s2 := Emit(s1, ToggleSuction(obj, true));
      MoveHomeQuiet(o, p, tp, s2, [], place);
      ReleaseBetween(s, s1, s2, MoveHome(o, p, tp, s2, [], place).1, obj);
    }
  }

  /**
   * A place whose cached trajectory is empty: the move there is falsy, so delivering
   * reports failure right after it, with the object still held; the move itself only
   * creates the shape, waits for the arm to settle, removes the shape and waits.
   */
  lemma DeliverEmptyPlace(o: Oracles, p: Params, tp: Targets, s: SimState, obj: Handle, place: string)
    requires place != "" && place in tp && tp[place].path == []
    ensures Deliver(o, p, tp, s, obj, place) == (Normal(false), MoveWithPath(o, p, tp, s, [], place).1)
    ensures var h := o.shapes(s.trace, tp[place].config);
      Added(s, Deliver(o, p, tp, s, obj, place).1)
        == [CreatePassiveShape(tp[place].config, h), Sleep(StabiliseMs), RemoveObjects([h]), Sleep(AfterMoveMs)]
  {
    assert Chunks([]) == [];
    assert FollowPathEvents(p.joints, []) == [Sleep(StabiliseMs)];
  }

  /** A release between two stretches that toggle nothing is the only toggle. */
  lemma ReleaseBetween(s: SimState, s1: SimState, s2: SimState, s3: SimState, obj: Handle)
    requires s.trace <= s1.trace && Toggles(Added(s, s1)) == []
    requires s2 == Emit(s1, ToggleSuction(obj, true))
    requires s2.trace <= s3.trace && Toggles(Added(s2, s3)) == []
    ensures s.trace <= s3.trace && Toggles(Added(s, s3)) == [ToggleSuction(obj, true)]
  {
    EmitAdded(s1, ToggleSuction(obj, true));
    AddedChain(s, s1, s2);
    AddedChain(s, s2, s3);
  }

  /**
   * Once the object is held, the only suction toggle left is its release, and that
   * happens exactly when the transaction succeeds. Only the place lookup can raise.
   */
  lemma GraspedToggles(o: Oracles, p: Params, tp: Targets, s: SimState, pose: Pose, itemPath: Path,
                       obj: Handle, place: string)
    requires place != ""
    ensures var (r, s') := Grasped(o, p, tp, s, pose, itemPath, obj, place);
      && s.trace <= s'.trace
      && Toggles(Added(s, s')) == (if r == Normal(true) then [ToggleSuction(obj, true)] else [])
      && (r.KeyError? ==> r.key == place && place !in tp)
      && (place in tp ==> r.Normal?)
  {
    var (lifted, s1) := CallMoveToPose(o, s, pose);
    EmitAdded(s, MoveToPose(pose, lifted));
    if lifted {
      var s2 := MoveHome(o, p, tp, s1, itemPath, "").1;
      MoveHomeQuiet(o, p, tp, s1, itemPath, "");
      AddedChain(s, s1, s2);
      DeliverToggles(o, p, tp, s2, obj, place);
      AddedChain(s, s2, Deliver(o, p, tp, s2, obj, place).1);
    }
  }

  /**
   * Once lifted and back home, a place with an empty cached trajectory ends the
   * transaction in failure right after the move there, without releasing the object.
   */
  lemma GraspedEmptyPlace(o: Oracles, p: Params, tp: Targets, s: SimState, pose: Pose, itemPath: Path,
                          obj: Handle, place: string)
    requires place != "" && place in tp && tp[place].path == []
    requires o.ik(s.trace, pose)
    ensures var s2 := MoveHome(o, p, tp, Emit(s, MoveToPose(pose, true)), itemPath, "").1;
      Grasped(o, p, tp, s, pose, itemPath, obj, place) == (Normal(false), MoveWithPath(o, p, tp, s2, [], place).1)
    ensures Toggles(Added(s, Grasped(o, p, tp, s, pose, itemPath, obj, place).1)) == []
  {
    var s2 := MoveHome(o, p, tp, Emit(s, MoveToPose(pose, true)), itemPath, "").1;
    DeliverEmptyPlace(o, p, tp, s2, obj, place);
    GraspedToggles(o, p, tp, s, pose, itemPath, obj, place);
  }

  /**
   * The shape of a grasp attempt: a suction-free descent, then (only on contact) the
   * engage of the object the sensor reported last and the rest of the transaction.
   */
  lemma GraspPhases(o: Oracles, p: Params, tp: Targets, s: SimState, pose: Pose, itemPath: Path,
                    place: string, fuel: nat)
    returns (a: seq<Event>, obj: Option<Handle>, w: seq<Event>)
    requires place != ""
    ensures var (r, s') := Grasp(o, p, tp, s, pose, itemPath, place, fuel);
      && s.trace <= s'.trace
      && Toggles(a) == []
      && (obj.None? ==> Added(s, s') == a && r == Normal(false))
      && (obj.Some? ==>
            && Added(s, s') == a + [ToggleSuction(obj.value, false)] + w
            && |a| > 0 && a[|a| - 1] == DetectSuctionSensor(obj)
            && Toggles(w) == (if r == Normal(true) then [ToggleSuction(obj.value, true)] else []))
  {
    var (d, s1) := Descend(o, p, s, fuel);
    DescendBounded(o, p, s, fuel);
    a := Added(s, s1);
    w := [];
    obj := None;
    if d.Contact? {
      obj := Some(d.obj);
      var s2 := Emit(s1, ToggleSuction(d.obj, false));
      GraspedToggles(o, p, tp, s2, pose, itemPath, d.obj, place);
      var s' := Grasped(o, p, tp, s2, pose, itemPath, d.obj, place).1;
      w := Added(s2, s');
      EmitAdded(s1, ToggleSuction(d.obj, false));
      AddedChain(s, s1, s2);
      AddedChain(s, s2, s');
    }
  }

  lemma ConcatRegroup(x: seq<Event>, y: seq<Event>, e: Event, z: seq<Event>)
    ensures x + (y + [e] + z) == (x + y) + [e] + z
    ensures |y| > 0 ==> (x + y)[|x + y| - 1] == y[|y| - 1]
  {
  }

  /** The same shape for the whole of `pick_and_place`, the approach included. */
  lemma PickAndPlacePhases(o: Oracles, p: Params, tp: Targets, s: SimState,
                           pick: seq<real>, place: string, fuel: nat)
    returns (a: seq<Event>, obj: Option<Handle>, w: seq<Event>)
    requires |pick| > 2 && place != ""
    ensures var (r, s') := PickAndPlace(o, p, tp, s, pick, place, fuel);
      && s.trace <= s'.trace
      && Toggles(a) == []
      && (obj.None? ==> Added(s, s') == a && r == Normal(false))
      && (obj.Some? ==>
            && Added(s, s') == a + [ToggleSuction(obj.value, false)] + w
            && |a| > 0 && a[|a| - 1] == DetectSuctionSensor(obj)
            && Toggles(w) == (if r == Normal(true) then [ToggleSuction(obj.value, true)] else []))
  {
    var pose := PickPose(p, pick);
    var (approach, s1) := MoveWithPath(o, p, tp, s, pose, "");
    MoveWithPathQuiet(o, p, tp, s, pose, "");
    a := Added(s, s1);
    obj := None;
    w := [];
    if approach.Normal? && Truthy(approach.value) {
      var a1, obj1, w1 := GraspPhases(o, p, tp, s1, pose, approach.value.path, place, fuel);
      var s' := Grasp(o, p, tp, s1, pose, approach.value.path, place, fuel).1;
      AddedChain(s, s1, s');
      TogglesConcat(a, a1);
      if obj1.Some? {
        ConcatRegroup(a, a1, ToggleSuction(obj1.value, false), w1);
      }
      a, obj, w := a + a1, obj1, w1;
    }
  }

  /**
   * The toggle list of a transaction: nothing, or one engage followed by at most the
   * release of the same object, the release exactly when `success` holds.
   */
  predicate GraspList(ts: seq<Event>, success: bool)
  {
    && |ts| <= 2
    && (ts != [] ==> ts[0].ToggleSuction? && !ts[0].release)
    && (|ts| == 2 ==> ts[1] == ToggleSuction(ts[0].obj, true))
    && (|ts| == 2 <==> success)
  }

  /** Every engage comes right after the sensor reported the object it engages. */
  predicate EngagesFollowContact(t: seq<Event>)
  {
    forall k :: 0 <= k < |t| && t[k].ToggleSuction? && !t[k].release ==>
      k > 0 && t[k - 1] == DetectSuctionSensor(Some(t[k].obj))
  }

  predicate Disciplined(t: seq<Event>, success: bool)
  {
    GraspList(Toggles(t), success) && EngagesFollowContact(t)
  }

  /** A trace with no listed toggles toggles nothing. */
  lemma NoToggles(t: seq<Event>)
    requires Toggles(t) == []
    ensures forall k :: 0 <= k < |t| ==> !t[k].ToggleSuction?
  {
    forall k | 0 <= k < |t| && t[k].ToggleSuction?
      ensures false
    {
      ToggleListed(t, k);
    }
  }

  lemma QuietDisciplined(t: seq<Event>)
    requires Toggles(t) == []
    ensures Disciplined(t, false)
  {
    NoToggles(t);
  }

  /** A trace whose listed toggles are all releases holds no engage. */
  lemma OnlyReleases(t: seq<Event>)
    requires forall e :: e in Toggles(t) ==> e.release
    ensures forall k :: 0 <= k < |t| && t[k].ToggleSuction? ==> t[k].release
  {
    forall k | 0 <= k < |t| && t[k].ToggleSuction?
      ensures t[k].release
    {
      ToggleListed(t, k);
    }
  }

  /** The grasp in `a + [engage] + w` is the only engage, and it follows the sensor report. */
  lemma EngageAfterContact(t: seq<Event>, a: seq<Event>, obj: Handle, w: seq<Event>)
    requires t == a + [ToggleSuction(obj, false)] + w
    requires |a| > 0 && a[|a| - 1] == DetectSuctionSensor(Some(obj))
    requires forall j :: 0 <= j < |a| ==> !a[j].ToggleSuction?
    requires forall j :: 0 <= j < |w| && w[j].ToggleSuction? ==> w[j].release
    ensures EngagesFollowContact(t)
  {
  }

  lemma TogglesOfGrasp(t: seq<Event>, a: seq<Event>, obj: Handle, w: seq<Event>)
    requires t == a + [ToggleSuction(obj, false)] + w
    requires Toggles(a) == []
    ensures Toggles(t) == [ToggleSuction(obj, false)] + Toggles(w)
  {
    var engage := ToggleSuction(obj, false);
    TogglesConcat(a, [engage]);
    TogglesConcat(a + [engage], w);
    SingleCounts(engage);
  }

  lemma GraspListOfGrasp(t: seq<Event>, a: seq<Event>, obj: Handle, w: seq<Event>, success: bool)
    requires t == a + [ToggleSuction(obj, false)] + w
    requires Toggles(a) == []
    requires Toggles(w) == (if success then [ToggleSuction(obj, true)] else [])
    ensures GraspList(Toggles(t), success) && |Toggles(t)| >= 1
  {
    TogglesOfGrasp(t, a, obj, w);
  }

  lemma EngageOfGrasp(t: seq<Event>, a: seq<Event>, obj: Handle, w: seq<Event>, success: bool)
    requires t == a + [ToggleSuction(obj, false)] + w
    requires Toggles(a) == [] && |a| > 0 && a[|a| - 1] == DetectSuctionSensor(Some(obj))
    requires Toggles(w) == (if success then [ToggleSuction(obj, true)] else [])
    ensures EngagesFollowContact(t)
  {
    NoToggles(a);
    OnlyReleases(w);
    EngageAfterContact(t, a, obj, w);
  }

  lemma GraspDisciplined(t: seq<Event>, a: seq<Event>, obj: Handle, w: seq<Event>, success: bool)
    requires t == a + [ToggleSuction(obj, false)] + w
    requires Toggles(a) == [] && |a| > 0 && a[|a| - 1] == DetectSuctionSensor(Some(obj))
    requires Toggles(w) == (if success then [ToggleSuction(obj, true)] else [])
    ensures Disciplined(t, success) && |Toggles(t)| >= 1
  {
    GraspListOfGrasp(t, a, obj, w, success);
    EngageOfGrasp(t, a, obj, w, success);
  }

  /**
   * The suction discipline of `pick_and_place`: at most one grasp and one release, the
   * grasp of the object the sensor just reported, the release of that same object and
   * only when the whole transaction succeeds. A KeyError for an unknown place leaves
   * the object held.
   */
  lemma PickAndPlaceToggles(o: Oracles, p: Params, tp: Targets, s: SimState,
                            pick: seq<real>, place: string, fuel: nat)
    requires |pick| > 2 && place != ""
    ensures var (r, s') := PickAndPlace(o, p, tp, s, pick, place, fuel);
      && s.trace <= s'.trace
      && Disciplined(Added(s, s'), r == Normal(true))
      && (r.KeyError? ==> |Toggles(Added(s, s'))| == 1)
  {
    var a, obj, w := PickAndPlacePhases(o, p, tp, s, pick, place, fuel);
    var res := PickAndPlace(o, p, tp, s, pick, place, fuel);
    if obj.None? {
      QuietDisciplined(Added(s, res.1));
    } else {
      GraspDisciplined(Added(s, res.1), a, obj.value, w, res.0 == Normal(true));
    }
  }

  /** `pick_and_place` raises only for a place with no cached trajectory, and then for that place. */
  lemma PickAndPlaceKeyError(o: Oracles, p: Params, tp: Targets, s: SimState,
                             pick: seq<real>, place: string, fuel: nat)
    requires |pick| > 2 && place != ""
    ensures var r := PickAndPlace(o, p, tp, s, pick, place, fuel).0;
      && (r.KeyError? ==> r.key == place && place !in tp)
      && (place in tp ==> r.Normal?)
  {
    var pose := PickPose(p, pick);
    var (approach, s1) := MoveWithPath(o, p, tp, s, pose, "");
    MoveWithPathQuiet(o, p, tp, s, pose, "");
    if approach.Normal? && Truthy(approach.value) {
      var (d, s2) := Descend(o, p, s1, fuel);
      if d.Contact? {
        GraspedToggles(o, p, tp, Emit(s2, ToggleSuction(d.obj, false)), pose, approach.value.path, d.obj, place);
      }
    }
  }

  /**
   * A failed approach ends the transaction at once: when the planner finds no path, or
   * an empty one, `pick_and_place` answers `False` after asking (and following the
   * empty path), with no descent and no suction toggle.
   */
  lemma PickAndPlaceApproachFails(o: Oracles, p: Params, tp: Targets, s: SimState,
                                  pick: seq<real>, place: string, fuel: nat)
    requires |pick| > 2 && place != ""
    ensures var pose := PickPose(p, pick);
      var plan := o.planner(s.trace, pose);
      var (r, s') := PickAndPlace(o, p, tp, s, pick, place, fuel);
      && (plan.None? ==> r == Normal(false) && s'.trace == s.trace + [GetPath(pose, None)])
      && (plan.Some? && plan.value.path == [] ==>
            r == Normal(false)
            && s'.trace == s.trace + [GetPath(pose, plan)] + TravelEvents(p, [], plan.value.shape))
  {
  }

  /**
   * After a successful approach: no contact (the inverse kinematics failed or the steps
   * ran out) ends the transaction right after the descent, and a failed lift ends it
   * right after the engage and the lift attempt, with the object still held.
   */
  lemma GraspAborts(o: Oracles, p: Params, tp: Targets, s: SimState, pose: Pose, itemPath: Path,
                    place: string, fuel: nat)
    requires place != ""
    ensures var (d, s1) := Descend(o, p, s, fuel);
      var (r, s') := Grasp(o, p, tp, s, pose, itemPath, place, fuel);
      && (!d.Contact? ==> r == Normal(false) && s' == s1)
      && (d.Contact? ==>
            var engaged := Emit(s1, ToggleSuction(d.obj, false));
            !o.ik(engaged.trace, pose) ==>
              r == Normal(false) && s'.trace == s1.trace + [ToggleSuction(d.obj, false), MoveToPose(pose, false)])
  {
  }

  lemma AddedSplit(s: SimState, s': SimState)
    requires s.trace <= s'.trace
    ensures s'.trace == s.trace + Added(s, s')
  {
  }

  /** The held-object part of a successful transaction, event by event. */
  lemma GraspedSuccess(o: Oracles, p: Params, tp: Targets, s: SimState, pose: Pose, itemPath: Path,
                       obj: Handle, place: string)
    returns (home: Handle, placed: Handle, back: Handle)
    requires place != ""
    requires Grasped(o, p, tp, s, pose, itemPath, obj, place).0 == Normal(true)
    ensures var cfg := if p.homeConfig != [] then p.homeConfig else tp[place].config;
      && place in tp && tp[place].path != []
      && Grasped(o, p, tp, s, pose, itemPath, obj, place).1.trace
         == s.trace + [MoveToPose(pose, true)]
            + [CreatePassiveShape(p.homeConfig, home)] + TravelEvents(p, ReverseGroups(itemPath), home)
            + [CreatePassiveShape(tp[place].config, placed)] + TravelEvents(p, tp[place].path, placed)
            + [ToggleSuction(obj, true)]
            + [CreatePassiveShape(cfg, back)] + TravelEvents(p, ReverseGroups(tp[place].path), back)
  {
    var s1 := Emit(s, MoveToPose(pose, true));
    home := o.shapes(s1.trace, p.homeConfig);
    var s2 := MoveHome(o, p, tp, s1, itemPath, "").1;
    placed := o.shapes(s2.trace, tp[place].config);
    var s3 := MoveWithPath(o, p, tp, s2, [], place).1;
    var s4 := Emit(s3, ToggleSuction(obj, true));
    var cfg := if p.homeConfig != [] then p.homeConfig else tp[place].config;
    back := o.shapes(s4.trace, cfg);
  }

  /**
   * A successful transaction, step by step: plan and follow a path to the raised pick
   * pose, descend until the sensor reports `obj`, engage the suction, lift back to the
   * pick pose, retrace the item path home, follow the cached path to the place,
   * release, and retrace the cached path home.
   */
  lemma SuccessfulPickAndPlace(o: Oracles, p: Params, tp: Targets, s: SimState,
                               pick: seq<real>, place: string, fuel: nat)
    returns (obj: Handle, descent: seq<Event>, home: Handle, placed: Handle, back: Handle)
    requires |pick| > 2 && place != ""
    requires PickAndPlace(o, p, tp, s, pick, place, fuel).0 == Normal(true)
    ensures var pose := PickPose(p, pick);
      var plan := o.planner(s.trace, pose);
      var cfg := if p.homeConfig != [] then p.homeConfig else tp[place].config;
      && plan.Some? && plan.value.path != []
      && place in tp && tp[place].path != []
      && |descent| > 0 && descent[|descent| - 1] == DetectSuctionSensor(Some(obj))
      && IkMoves(descent) <= fuel && Toggles(descent) == []
      && PickAndPlace(o, p, tp, s, pick, place, fuel).1.trace
         == s.trace
            + [GetPath(pose, plan)] + TravelEvents(p, plan.value.path, plan.value.shape)
            + descent
            + [ToggleSuction(obj, false)] + [MoveToPose(pose, true)]
            + [CreatePassiveShape(p.homeConfig, home)] + TravelEvents(p, ReverseGroups(plan.value.path), home)
            + [CreatePassiveShape(tp[place].config, placed)] + TravelEvents(p, tp[place].path, placed)
            + [ToggleSuction(obj, true)]
            + [CreatePassiveShape(cfg, back)] + TravelEvents(p, ReverseGroups(tp[place].path), back)
  {
    var pose := PickPose(p, pick);
    var (approach, s1) := MoveWithPath(o, p, tp, s, pose, "");
    var (d, s2) := Descend(o, p, s1, fuel);
    DescendBounded(o, p, s1, fuel);
    obj := d.obj;
    descent := Added(s1, s2);
    AddedSplit(s1, s2);
    var s3 := Emit(s2, ToggleSuction(obj, false));
    home, placed, back := GraspedSuccess(o, p, tp, s3, pose, approach.value.path, obj, place);
  }

  // ---------------------------------------------------------------------------
  // Calibration.

  lemma NamesCons(locations: seq<(string, seq<real>)>)
    requires locations != []
    ensures Names(locations) == {locations[0].0} + Names(locations[1..])
  {
    forall x | x in Names(locations) ensures x in {locations[0].0} + Names(locations[1..]) {
      var k :| 0 <= k < |locations| && locations[k].0 == x;
      if k > 0 {
        assert locations[1..][k - 1].0 == x;
      }
    }
    forall x | x in Names(locations[1..]) ensures x in Names(locations) {
      var k :| 0 <= k < |locations| - 1 && locations[1..][k].0 == x;
      assert locations[k + 1].0 == x;
    }
  }

  /**
   * One calibration step: the planned home-to-location trajectory is stored under the
   * location's name, the path is followed out and retraced home, and nothing in
   * between toggles suction, calls `initialParams` or moves by inverse kinematics.
   */
  lemma CalibrationStep(o: Oracles, p: Params, tp: Targets, s: SimState,
                        locations: seq<(string, seq<real>)>)
    returns (tp1: Targets, s4: SimState)
    requires NamedLocations(locations) && locations != []
    ensures tp1 == tp[locations[0].0 := o.homeTargets(s.trace, CreatePose(locations[0].1, p.downOriQuat))]
    ensures CalibrateLocations(o, p, tp, s, locations) == CalibrateLocations(o, p, tp1, s4, locations[1..])
    ensures s.trace <= s4.trace
    ensures var pose := CreatePose(locations[0].1, p.downOriQuat);
      var target := o.homeTargets(s.trace, pose);
      var out := [FindHomeTargetPath(pose, target)] + FollowPathEvents(p.joints, target.path) + [Sleep(CalibrationPauseMs)];
      var cfg := if p.homeConfig != [] then p.homeConfig else target.config;
      var h := o.shapes(s.trace + out, cfg);
      Added(s, s4) == out + [CreatePassiveShape(cfg, h)] + TravelEvents(p, ReverseGroups(target.path), h)
                          + [Sleep(CalibrationPauseMs)]
    ensures Planned(Added(s, s4)) == [CreatePose(locations[0].1, p.downOriQuat)]
    ensures Setups(Added(s, s4)) == 0 && Toggles(Added(s, s4)) == [] && IkMoves(Added(s, s4)) == 0
  {
    var name := locations[0].0;
    var pose := CreatePose(locations[0].1, p.downOriQuat);
    var (target, s1) := CallFindHomeTargetPath(o, s, pose);
    tp1 := tp[name := target];
    var f := FollowPath(p, s1, target.path);
    var s2 := Emit(f, Sleep(CalibrationPauseMs));
    var s3 := MoveHome(o, p, tp1, s2, [], name).1;
    s4 := Emit(s3, Sleep(CalibrationPauseMs));
    StepEvents(o, p, tp1, s, pose, target, name);
    assert Added(s1, f) == FollowPathEvents(p.joints, target.path);
    FollowPathMotionOnly(p.joints, target.path);
    MoveHomeQuiet(o, p, tp1, s2, [], name);
    QuietLinks(s, s1, f, s2, s3, s4, FindHomeTargetPath(pose, target));
  }

  /** The recurrence of one calibration step and its quiet counts, without its exact events. */
  lemma StepRecurrence(o: Oracles, p: Params, tp: Targets, s: SimState,
                       locations: seq<(string, seq<real>)>)
    returns (tp1: Targets, s4: SimState)
    requires NamedLocations(locations) && locations != []
    ensures tp1 == tp[locations[0].0 := o.homeTargets(s.trace, CreatePose(locations[0].1, p.downOriQuat))]
    ensures CalibrateLocations(o, p, tp, s, locations) == CalibrateLocations(o, p, tp1, s4, locations[1..])
    ensures s.trace <= s4.trace
    ensures Setups(Added(s, s4)) == 0 && Toggles(Added(s, s4)) == [] && IkMoves(Added(s, s4)) == 0
  {
    var name := locations[0].0;
    var pose := CreatePose(locations[0].1, p.downOriQuat);
    var (target, s1) := CallFindHomeTargetPath(o, s, pose);
    tp1 := tp[name := target];
    var f := FollowPath(p, s1, target.path);
    var s2 := Emit(f, Sleep(CalibrationPauseMs));
    var s3 := MoveHome(o, p, tp1, s2, [], name).1;
    s4 := Emit(s3, Sleep(CalibrationPauseMs));
    assert Added(s1, f) == FollowPathEvents(p.joints, target.path);
    FollowPathMotionOnly(p.joints, target.path);
    MoveHomeQuiet(o, p, tp1, s2, [], name);
    QuietLinks(s, s1, f, s2, s3, s4, FindHomeTargetPath(pose, target));
  }

  /** The events of one calibration step, with the plan for `name` already cached. */
  lemma StepEvents(o: Oracles, p: Params, tp1: Targets, s: SimState, pose: Pose, target: LocationTarget, name: string)
    requires name != "" && name in tp1 && tp1[name] == target
    ensures var s2 := Emit(FollowPath(p, Emit(s, FindHomeTargetPath(pose, target)), target.path), Sleep(CalibrationPauseMs));
      var s4 := Emit(MoveHome(o, p, tp1, s2, [], name).1, Sleep(CalibrationPauseMs));
      var out := [FindHomeTargetPath(pose, target)] + FollowPathEvents(p.joints, target.path) + [Sleep(CalibrationPauseMs)];
      var cfg := if p.homeConfig != [] then p.homeConfig else target.config;
      var h := o.shapes(s.trace + out, cfg);
      && s.trace <= s4.trace
      && Added(s, s4) == out + [CreatePassiveShape(cfg, h)] + TravelEvents(p, ReverseGroups(target.path), h)
                           + [Sleep(CalibrationPauseMs)]
      && Planned(Added(s, s4)) == [pose]
  {
    var s2 := Emit(FollowPath(p, Emit(s, FindHomeTargetPath(pose, target)), target.path), Sleep(CalibrationPauseMs));
    var out := [FindHomeTargetPath(pose, target)] + FollowPathEvents(p.joints, target.path) + [Sleep(CalibrationPauseMs)];
    OutboundTrace(s, FindHomeTargetPath(pose, target), FollowPathEvents(p.joints, target.path), s2);
    var s3 := MoveHome(o, p, tp1, s2, [], name).1;
    MoveHomeFromLocation(o, p, tp1, s2, [], name);
    var cfg := if p.homeConfig != [] then p.homeConfig else target.config;
    var h := o.shapes(s.trace + out, cfg);
    StepTrace(s, out, s2, CreatePassiveShape(cfg, h), TravelEvents(p, ReverseGroups(target.path), h),
              s3, Emit(s3, Sleep(CalibrationPauseMs)));
    StepPlanned(pose, target, p, cfg, h);
  }

  lemma OutboundTrace(s: SimState, e: Event, a: seq<Event>, s2: SimState)
    requires s2 == Emit(s.(trace := s.trace + [e] + a), Sleep(CalibrationPauseMs))
    ensures s2.trace == s.trace + ([e] + a + [Sleep(CalibrationPauseMs)])
  {
  }

  lemma StepTrace(s: SimState, out: seq<Event>, s2: SimState, c: Event, back: seq<Event>, s3: SimState, s4: SimState)
    requires s2.trace == s.trace + out && s3.trace == s2.trace + [c] + back
    requires s4 == Emit(s3, Sleep(CalibrationPauseMs))
    ensures s.trace <= s4.trace && Added(s, s4) == out + [c] + back + [Sleep(CalibrationPauseMs)]
  {
    assert s4.trace == s.trace + (out + [c] + back + [Sleep(CalibrationPauseMs)]);
  }

  lemma StepPlanned(pose: Pose, target: LocationTarget, p: Params, cfg: seq<real>, h: Handle)
    ensures Planned([FindHomeTargetPath(pose, target)] + FollowPathEvents(p.joints, target.path) + [Sleep(CalibrationPauseMs)]
                    + [CreatePassiveShape(cfg, h)] + TravelEvents(p, ReverseGroups(target.path), h)
                    + [Sleep(CalibrationPauseMs)]) == [pose]
  {
    var a := FollowPathEvents(p.joints, target.path);
    var b := TravelEvents(p, ReverseGroups(target.path), h);
    TravelUnplanned(p, target.path, h);
    TravelUnplanned(p, ReverseGroups(target.path), h);
    var e := [FindHomeTargetPath(pose, target)];
    PlannedConcat(e, a);
    PlannedConcat(e + a, [Sleep(CalibrationPauseMs)]);
    PlannedConcat(e + a + [Sleep(CalibrationPauseMs)], [CreatePassiveShape(cfg, h)]);
    PlannedConcat(e + a + [Sleep(CalibrationPauseMs)] + [CreatePassiveShape(cfg, h)], b);
    PlannedConcat(e + a + [Sleep(CalibrationPauseMs)] + [CreatePassiveShape(cfg, h)] + b, [Sleep(CalibrationPauseMs)]);
    assert Planned(e) == [pose];
    assert Planned([Sleep(CalibrationPauseMs)]) == [];
    assert Planned([CreatePassiveShape(cfg, h)]) == [];
  }

  /** From `s` to `s'` the trace only grows, with no toggle, no setup and no inverse-kinematics move. */
  predicate Quiet(s: SimState, s': SimState)
  {
    s.trace <= s'.trace && Setups(Added(s, s')) == 0 && Toggles(Added(s, s')) == [] && IkMoves(Added(s, s')) == 0
  }

  lemma QuietChain(a: SimState, b: SimState, c: SimState)
    requires Quiet(a, b) && Quiet(b, c)
    ensures Quiet(a, c)
  {
    AddedChain(a, b, c);
  }

  lemma QuietEmit(s: SimState, e: Event)
    requires !e.ToggleSuction? && !e.MoveToPose? && !e.InitialParams?
    ensures Quiet(s, Emit(s, e))
  {
    EmitAdded(s, e);
  }

  /** The states one calibration step passes through, none of which toggles, sets up or moves by inverse kinematics. */
  lemma QuietLinks(s: SimState, s1: SimState, f: SimState, s2: SimState, s3: SimState, s4: SimState, e: Event)
    requires s1 == Emit(s, e) && e.FindHomeTargetPath?
    requires s1.trace <= f.trace && MotionOnly(Added(s1, f))
    requires s2 == Emit(f, Sleep(CalibrationPauseMs))
    requires s2.trace <= s3.trace && Setups(Added(s2, s3)) == 0 && Toggles(Added(s2, s3)) == [] && IkMoves(Added(s2, s3)) == 0
    requires s4 == Emit(s3, Sleep(CalibrationPauseMs))
    ensures Quiet(s, s4)
  {
    QuietEmit(s, e);
    MotionOnlyCounts(Added(s1, f));
    QuietChain(s, s1, f);
    QuietEmit(f, Sleep(CalibrationPauseMs));
    QuietChain(s, f, s2);
    assert Quiet(s2, s3);
    QuietChain(s, s2, s3);
    QuietEmit(s3, Sleep(CalibrationPauseMs));
    QuietChain(s, s3, s4);
  }


  /** `after` has a trajectory for every name in `names` and keeps every other entry of `before`. */
  predicate Covers(before: Targets, after: Targets, names: set<string>)
  {
    && after.Keys == before.Keys + names
    && forall n :: n in before && n !in names ==> after[n] == before[n]
  }

  /**
   * The calibration loop stores a trajectory under every location name and leaves
   * every other cached entry alone; it neither toggles suction, nor calls
   * `initialParams`, nor moves by inverse kinematics.
   */
  lemma {:induction false} CalibrateLocationsCovers(o: Oracles, p: Params, tp: Targets, s: SimState,
                                                    locations: seq<(string, seq<real>)>)
    requires NamedLocations(locations)
    ensures var (tp', s') := CalibrateLocations(o, p, tp, s, locations);
      && Covers(tp, tp', Names(locations))
      && s.trace <= s'.trace
      && Setups(Added(s, s')) == 0 && Toggles(Added(s, s')) == [] && IkMoves(Added(s, s')) == 0
    decreases |locations|
  {
    if locations != [] {
      var tp1, s4 := StepRecurrence(o, p, tp, s, locations);
      CalibrateLocationsCovers(o, p, tp1, s4, locations[1..]);
      QuietChain(s, s4, CalibrateLocations(o, p, tp1, s4, locations[1..]).1);
      NamesCons(locations);
    }
  }

  /** The poses calibration plans to: each location's position with the downward orientation. */
  function LocationPoses(p: Params, locations: seq<(string, seq<real>)>): (poses: seq<Pose>)
    ensures |poses| == |locations|
    ensures forall k :: 0 <= k < |locations| ==> poses[k] == CreatePose(locations[k].1, p.downOriQuat)
    decreases |locations|
  {
    if locations == [] then []
    else [CreatePose(locations[0].1, p.downOriQuat)] + LocationPoses(p, locations[1..])
  }

  /**
   * The calibration loop asks the planner for one home-to-location trajectory per
   * location, in the order of `locations`, and for no other.
   */
  lemma {:induction false} CalibrateLocationsInOrder(o: Oracles, p: Params, tp: Targets, s: SimState,
                                                     locations: seq<(string, seq<real>)>)
    requires NamedLocations(locations)
    ensures var s' := CalibrateLocations(o, p, tp, s, locations).1;
      s.trace <= s'.trace && Planned(Added(s, s')) == LocationPoses(p, locations)
    decreases |locations|
  {
    if locations == [] {
      assert Added(s, s) == [];
    } else {
      var tp1, s4 := CalibrationStep(o, p, tp, s, locations);
      CalibrateLocationsInOrder(o, p, tp1, s4, locations[1..]);
      PlannedChain(s, s4, CalibrateLocations(o, p, tp1, s4, locations[1..]).1);
    }
  }

  lemma PlannedChain(s0: SimState, s1: SimState, s2: SimState)
    requires s0.trace <= s1.trace && s1.trace <= s2.trace
    ensures s0.trace <= s2.trace
    ensures Planned(Added(s0, s2)) == Planned(Added(s0, s1)) + Planned(Added(s1, s2))
  {
    assert Added(s0, s2) == Added(s0, s1) + Added(s1, s2);
    PlannedConcat(Added(s0, s1), Added(s1, s2));
  }

  /**
   * `calculate_home_target_trajectories` plans exactly one trajectory per location,
   * in the order of `locations`, between its two `initialParams` calls.
   */
  lemma CalibrateInOrder(o: Oracles, p: Params, tp: Targets, s: SimState,
                         locations: seq<(string, seq<real>)>)
    requires NamedLocations(locations)
    ensures var s' := Calibrate(o, p, tp, s, locations).1;
      s.trace <= s'.trace && Planned(Added(s, s')) == LocationPoses(p, locations)
  {
    var s0 := Emit(s, InitialParams(true));
    var r1 := CalibrateLocations(o, p, tp, s0, locations);
    CalibrateLocationsInOrder(o, p, tp, s0, locations);
    BracketedPlanned(s, s0, r1.1, Emit(r1.1, InitialParams(false)));
  }

  lemma BracketedPlanned(s: SimState, s0: SimState, s1: SimState, s2: SimState)
    requires s0 == Emit(s, InitialParams(true)) && s2 == Emit(s1, InitialParams(false))
    requires s0.trace <= s1.trace
    ensures s.trace <= s2.trace && Planned(Added(s, s2)) == Planned(Added(s0, s1))
  {
    var t1 := Added(s0, s1);
    AddedSplit(s0, s1);
    assert Added(s, s2) == [InitialParams(true)] + t1 + [InitialParams(false)];
    PlannedConcat([InitialParams(true)] + t1, [InitialParams(false)]);
    PlannedConcat([InitialParams(true)], t1);
    assert Planned([InitialParams(true)]) == [] && Planned([InitialParams(false)]) == [];
  }

  /**
   * `calculate_home_target_trajectories`: one `initialParams(True)` first, one
   * `initialParams(False)` last and none in between; afterwards every location has a
   * cached trajectory, which is what later `moveWithPath(location=...)` calls need.
   */
  lemma CalibrateContract(o: Oracles, p: Params, tp: Targets, s: SimState,
                          locations: seq<(string, seq<real>)>)
    requires NamedLocations(locations)
    ensures var (tp', s') := Calibrate(o, p, tp, s, locations);
      && s.trace <= s'.trace
      && var t := Added(s, s');
      && |t| >= 2 && t[0] == InitialParams(true) && t[|t| - 1] == InitialParams(false)
      && Setups(t) == 2 && Toggles(t) == []
      && Covers(tp, tp', Names(locations))
  {
    var s0 := Emit(s, InitialParams(true));
    var r1 := CalibrateLocations(o, p, tp, s0, locations);
    CalibrateLocationsCovers(o, p, tp, s0, locations);
    BracketedStates(s, s0, r1.1, Emit(r1.1, InitialParams(false)));
  }

  /** A quiet stretch of trace between `initialParams(True)` and `initialParams(False)`. */
  lemma BracketedStates(s: SimState, s0: SimState, s1: SimState, s2: SimState)
    requires s0 == Emit(s, InitialParams(true)) && s2 == Emit(s1, InitialParams(false))
    requires s0.trace <= s1.trace && Setups(Added(s0, s1)) == 0 && Toggles(Added(s0, s1)) == []
    ensures s.trace <= s2.trace
    ensures var t := Added(s, s2);
      && |t| >= 2 && t[0] == InitialParams(true) && t[|t| - 1] == InitialParams(false)
      && Setups(t) == 2 && Toggles(t) == []
  {
    var t1 := Added(s0, s1);
    AddedSplit(s0, s1);
    assert s2.trace == s.trace + ([InitialParams(true)] + t1 + [InitialParams(false)]);
    Bracketed(t1);
  }

  /** A trace bracketed by `initialParams(True)` and `initialParams(False)`. */
  lemma Bracketed(t1: seq<Event>)
    ensures var t := [InitialParams(true)] + t1 + [InitialParams(false)];
      && |t| >= 2 && t[0] == InitialParams(true) && t[|t| - 1] == InitialParams(false)
      && Setups(t) == 2 + Setups(t1) && Toggles(t) == Toggles(t1)
  {
    var t := [InitialParams(true)] + t1 + [InitialParams(false)];
    SetupsConcat([InitialParams(true)] + t1, [InitialParams(false)]);
    SetupsConcat([InitialParams(true)], t1);
    TogglesConcat([InitialParams(true)] + t1, [InitialParams(false)]);
    TogglesConcat([InitialParams(true)], t1);
    SingleCounts(InitialParams(true));
    SingleCounts(InitialParams(false));
  }
}
