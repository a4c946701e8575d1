/**
 * The pure parts of the arm controller (src/arm.py): building a pose, cutting a flat
 * trajectory into joint groups, the group-wise reversal `moveHome` uses to retrace a
 * path, and the commands `followPath` sends for a path.
 */
module ArmPaths {
  import opened Simulator

  /** `self.num_joints`: the UR5 has six joints, so a path is read six values at a time. */
  const NumJoints: nat := 6
  /** `followPath` waits 0.075 s after each joint group ... */
  const SettleMs: nat := 75
  /** ... and 1.0 s once the whole path has been sent. */
  const StabiliseMs: nat := 1000

  /** `_create_pose`: the position values followed by the quaternion values. */
  function CreatePose(position: seq<real>, quaternion: seq<real>): (pose: Pose)
    ensures |pose| == |position| + |quaternion|
    ensures pose[..|position|] == position && pose[|position|..] == quaternion
  {
    position + quaternion
  }

  /** `sum(groups, [])`: concatenation of the groups, in order. */
  function Flatten<T>(groups: seq<seq<T>>): seq<T>
  {
    if groups == [] then [] else groups[0] + Flatten(groups[1..])
  }

  /**
   * `[path[i:i+6] for i in range(0, len(path), 6)]`: consecutive groups of six values,
   * the last one shorter when the length is not a multiple of six.
   */
  function Chunks(path: seq<real>): (groups: seq<seq<real>>)
    ensures Flatten(groups) == path
    ensures |groups| == (|path| + NumJoints - 1) / NumJoints
    ensures forall k :: 0 <= k < |groups| ==> 0 < |groups[k]| <= NumJoints
    ensures forall k :: 0 <= k < |groups| - 1 ==> |groups[k]| == NumJoints
    ensures |path| % NumJoints == 0 ==> forall k :: 0 <= k < |groups| ==> |groups[k]| == NumJoints
    decreases |path|
  {
    if path == [] then []
    else if |path| <= NumJoints then [path]
    else [path[..NumJoints]] + Chunks(path[NumJoints..])
  }

  /** `s[::-1]`. */
  function Reversed<T>(s: seq<T>): (r: seq<T>)
    ensures |r| == |s|
    ensures forall k :: 0 <= k < |s| ==> r[k] == s[|s| - 1 - k]
  {
    if s == [] then [] else Reversed(s[1..]) + [s[0]]
  }

  /** src/arm.py line 102: cut into groups, reverse the order of the groups, re-flatten. */
  function ReverseGroups(path: Path): Path
  {
    Flatten(Reversed(Chunks(path)))
  }

  lemma {:induction false} FlattenConcat<T>(a: seq<seq<T>>, b: seq<seq<T>>)
    ensures Flatten(a + b) == Flatten(a) + Flatten(b)
    decreases |a|
  {
    if a == [] {
      assert a + b == b;
    } else {
      assert (a + b)[0] == a[0] && (a + b)[1..] == a[1..] + b;
      FlattenConcat(a[1..], b);
    }
  }

  /** Re-cutting a concatenation of full groups gives back the same groups. */
  lemma {:induction false} ChunksOfFlatten(groups: seq<seq<real>>)
    requires forall k :: 0 <= k < |groups| ==> |groups[k]| == NumJoints
    ensures Chunks(Flatten(groups)) == groups
    decreases |groups|
  {
    if groups != [] {
      var rest := Flatten(groups[1..]);
      assert Flatten(groups) == groups[0] + rest;
      if |groups| == 1 {
        assert rest == [];
      } else {
        ChunksOfFlatten(groups[1..]);
        assert |rest| > 0 by { assert rest == groups[1] + Flatten(groups[2..]); }
        assert (groups[0] + rest)[..NumJoints] == groups[0];
        assert (groups[0] + rest)[NumJoints..] == rest;
      }
    }
  }

  lemma {:induction false} FlattenReversedLength(groups: seq<seq<real>>)
    ensures |Flatten(Reversed(groups))| == |Flatten(groups)|
    decreases |groups|
  {
    if groups != [] {
      assert Reversed(groups) == Reversed(groups[1..]) + [groups[0]];
      FlattenConcat(Reversed(groups[1..]), [groups[0]]);
      assert Flatten([groups[0]]) == groups[0] + Flatten([groups[0]][1..]);
      FlattenReversedLength(groups[1..]);
    }
  }

  /** The reversal neither loses nor adds joint values. */
  lemma ReverseGroupsLength(path: Path)
    ensures |ReverseGroups(path)| == |path|
  {
    FlattenReversedLength(Chunks(path));
  }

  /**
   * On a path made of whole groups, the reversal keeps every group intact and
   * reverses their order: cutting the result gives the original groups backwards.
   */
  lemma ReverseGroupsReversesGroups(path: Path)
    requires |path| % NumJoints == 0
    ensures Chunks(ReverseGroups(path)) == Reversed(Chunks(path))
  {
    var rev := Reversed(Chunks(path));
    assert forall k :: 0 <= k < |rev| ==> |rev[k]| == NumJoints;
    ChunksOfFlatten(rev);
  }

  /** Retracing a retraced path of whole groups gives the path back. */
  lemma ReverseGroupsInvolution(path: Path)
    requires |path| % NumJoints == 0
    ensures ReverseGroups(ReverseGroups(path)) == path
  {
    ReverseGroupsReversesGroups(path);
    var gs := Chunks(path);
    assert Reversed(Reversed(gs)) == gs;
  }

  /**
   * With a short last group the reversal moves that group to the front, so applying it
   * twice does not restore the path: [1..7] becomes [7,1..6] and then [6,7,1..5].
   */
  lemma ReverseGroupsPartialGroupNotInvolution()
    ensures ReverseGroups(ReverseGroups([1.0, 2.0, 3.0, 4.0, 5.0, 6.0, 7.0]))
         != [1.0, 2.0, 3.0, 4.0, 5.0, 6.0, 7.0]
  {
    var p := [1.0, 2.0, 3.0, 4.0, 5.0, 6.0, 7.0];
    assert Chunks(p[NumJoints..]) == [[7.0]];
    assert Chunks(p) == [p[..NumJoints]] + [[7.0]];
    var once := [7.0, 1.0, 2.0, 3.0, 4.0, 5.0, 6.0];
    assert Reversed(Chunks(p)) == [[7.0], p[..NumJoints]];
    assert Flatten([p[..NumJoints]]) == p[..NumJoints];
    assert ReverseGroups(p) == once;
    assert Chunks(once[NumJoints..]) == [[6.0]];
    assert Chunks(once) == [once[..NumJoints]] + [[6.0]];
    assert Reversed(Chunks(once)) == [[6.0], once[..NumJoints]];
    assert Flatten([once[..NumJoints]]) == once[..NumJoints];
    assert ReverseGroups(once)[0] == 6.0;
  }

  /** The reversal is by groups, not by values: the values inside a group keep their order. */
  lemma ReverseGroupsIsNotValueReversal()
    ensures ReverseGroups([0.0, 1.0, 2.0, 3.0, 4.0, 5.0, 6.0, 7.0, 8.0, 9.0, 10.0, 11.0])
         == [6.0, 7.0, 8.0, 9.0, 10.0, 11.0, 0.0, 1.0, 2.0, 3.0, 4.0, 5.0]
  {
    var p := [0.0, 1.0, 2.0, 3.0, 4.0, 5.0, 6.0, 7.0, 8.0, 9.0, 10.0, 11.0];
    var a, b := p[..NumJoints], p[NumJoints..];
    assert a == [0.0, 1.0, 2.0, 3.0, 4.0, 5.0];
    assert b == [6.0, 7.0, 8.0, 9.0, 10.0, 11.0];
    ChunksStep(p);
    assert Chunks(b) == [b];
    assert Chunks(p) == [a, b];
    assert Reversed([a, b]) == [b, a];
    var none: seq<seq<real>> := [];
    assert [b, a][1..] == [a] && [a][1..] == none;
    assert Flatten([a]) == a + Flatten(none);
    assert Flatten([b, a]) == b + Flatten([a]);
    assert ReverseGroups(p) == b + a;
  }

  // ---------------------------------------------------------------------------
  // The commands of `_set_target_config` and `followPath`.

  /** `zip(joints, config)`: one joint target per pair, as many as the shorter side. */
  function JointTargets(joints: seq<Handle>, config: seq<real>): (events: seq<Event>)
    ensures |events| == if |joints| < |config| then |joints| else |config|
    ensures forall k :: 0 <= k < |events| ==> events[k] == SetJointTarget(joints[k], config[k])
    decreases |config|
  {
    if joints == [] || config == [] then []
    else [SetJointTarget(joints[0], config[0])] + JointTargets(joints[1..], config[1..])
  }

  /** Each group's joint targets followed by the settling pause. */
  function SettleEvents(joints: seq<Handle>, groups: seq<seq<real>>): seq<Event>
  {
    if groups == [] then []
    else JointTargets(joints, groups[0]) + [Sleep(SettleMs)] + SettleEvents(joints, groups[1..])
  }

  /** Everything `followPath(path)` sends, in order. */
  function FollowPathEvents(joints: seq<Handle>, path: Path): seq<Event>
  {
    SettleEvents(joints, Chunks(path)) + [Sleep(StabiliseMs)]
  }

  /** A trace cut at each settling pause: the joint positions commanded between pauses. */
  function Groups(t: seq<Event>): seq<seq<real>>
  {
    GroupsFrom(t, [])
  }

  /** `Groups`, with `cur` the positions commanded since the last settling pause. */
  function GroupsFrom(t: seq<Event>, cur: seq<real>): seq<seq<real>>
    decreases |t|
  {
    if t == [] then (if cur == [] then [] else [cur])
    else if t[0] == Sleep(SettleMs) then [cur] + GroupsFrom(t[1..], [])
    else if t[0].SetJointTarget? then GroupsFrom(t[1..], cur + [t[0].position])
    else GroupsFrom(t[1..], cur)
  }

  /** Joint targets and settling pauses only. */
  predicate Paced(t: seq<Event>)
  {
    forall k :: 0 <= k < |t| ==> t[k].SetJointTarget? || t[k] == Sleep(SettleMs)
  }

  /** The joint positions commanded by a trace, in order. */
  function Commanded(t: seq<Event>): seq<real>
  {
    if t == [] then []
    else (if t[0].SetJointTarget? then [t[0].position] else []) + Commanded(t[1..])
  }

  /** The joints a trace commands, in order. */
  function CommandedJoints(t: seq<Event>): seq<Handle>
  {
    if t == [] then []
    else (if t[0].SetJointTarget? then [t[0].joint] else []) + CommandedJoints(t[1..])
  }

  /** The number of settling pauses in a trace: one per joint group sent. */
  function Settles(t: seq<Event>): nat
  {
    if t == [] then 0 else (if t[0] == Sleep(SettleMs) then 1 else 0) + Settles(t[1..])
  }

  /** Joints addressed when a path of n values is sent six at a time. */
  function JointCycle(joints: seq<Handle>, n: nat): seq<Handle>
    requires |joints| == NumJoints
    decreases n
  {
    if n <= NumJoints then joints[..n] else joints + JointCycle(joints, n - NumJoints)
  }

  lemma {:induction false} CommandedConcat(a: seq<Event>, b: seq<Event>)
    ensures Commanded(a + b) == Commanded(a) + Commanded(b)
    decreases |a|
  {
    if a == [] {
      assert a + b == b;
    } else {
      assert (a + b)[0] == a[0] && (a + b)[1..] == a[1..] + b;
      CommandedConcat(a[1..], b);
    }
  }

  lemma {:induction false} CommandedJointsConcat(a: seq<Event>, b: seq<Event>)
    ensures CommandedJoints(a + b) == CommandedJoints(a) + CommandedJoints(b)
    decreases |a|
  {
    if a == [] {
      assert a + b == b;
    } else {
      assert (a + b)[0] == a[0] && (a + b)[1..] == a[1..] + b;
      CommandedJointsConcat(a[1..], b);
    }
  }

  lemma {:induction false} SettlesConcat(a: seq<Event>, b: seq<Event>)
    ensures Settles(a + b) == Settles(a) + Settles(b)
    decreases |a|
  {
    if a == [] {
      assert a + b == b;
    } else {
      assert (a + b)[0] == a[0] && (a + b)[1..] == a[1..] + b;
      SettlesConcat(a[1..], b);
    }
  }

  lemma ProjectionsConcat(a: seq<Event>, b: seq<Event>)
    ensures Commanded(a + b) == Commanded(a) + Commanded(b)
    ensures CommandedJoints(a + b) == CommandedJoints(a) + CommandedJoints(b)
    ensures Settles(a + b) == Settles(a) + Settles(b)
  {
    CommandedConcat(a, b);
    CommandedJointsConcat(a, b);
    SettlesConcat(a, b);
  }

  lemma JointTargetsProjections(joints: seq<Handle>, config: seq<real>)
    requires |config| <= |joints|
    ensures Commanded(JointTargets(joints, config)) == config
    ensures CommandedJoints(JointTargets(joints, config)) == joints[..|config|]
    ensures Settles(JointTargets(joints, config)) == 0
  {
    JointTargetsCommanded(joints, config);
    JointTargetsJoints(joints, config);
    JointTargetsSettles(joints, config);
  }

  lemma {:induction false} JointTargetsCommanded(joints: seq<Handle>, config: seq<real>)
    requires |config| <= |joints|
    ensures Commanded(JointTargets(joints, config)) == config
    decreases |config|
  {
    if config != [] {
      var e := SetJointTarget(joints[0], config[0]);
      var rest := JointTargets(joints[1..], config[1..]);
      assert JointTargets(joints, config) == [e] + rest;
      JointTargetsCommanded(joints[1..], config[1..]);
      CommandedConcat([e], rest);
      assert [e][1..] == [];
    }
  }

  lemma {:induction false} JointTargetsJoints(joints: seq<Handle>, config: seq<real>)
    requires |config| <= |joints|
    ensures CommandedJoints(JointTargets(joints, config)) == joints[..|config|]
    decreases |config|
  {
    if config != [] {
      var e := SetJointTarget(joints[0], config[0]);
      var rest := JointTargets(joints[1..], config[1..]);
      assert JointTargets(joints, config) == [e] + rest;
      JointTargetsJoints(joints[1..], config[1..]);
      CommandedJointsConcat([e], rest);
      assert [e][1..] == [];
      assert joints[..|config|] == [joints[0]] + joints[1..][..|config| - 1];
    }
  }

  lemma {:induction false} JointTargetsSettles(joints: seq<Handle>, config: seq<real>)
    ensures Settles(JointTargets(joints, config)) == 0
    decreases |config|
  {
    if joints != [] && config != [] {
      var e := SetJointTarget(joints[0], config[0]);
      var rest := JointTargets(joints[1..], config[1..]);
      assert JointTargets(joints, config) == [e] + rest;
      JointTargetsSettles(joints[1..], config[1..]);
      SettlesConcat([e], rest);
      assert [e][1..] == [];
    }
  }


  lemma {:induction false} SettleGroupProjections(joints: seq<Handle>, group: seq<real>, rest: seq<seq<real>>)
    requires |group| <= |joints|
    ensures var t := SettleEvents(joints, [group] + rest);
      && Commanded(t) == group + Commanded(SettleEvents(joints, rest))
      && CommandedJoints(t) == joints[..|group|] + CommandedJoints(SettleEvents(joints, rest))
      && Settles(t) == 1 + Settles(SettleEvents(joints, rest))
  {
    var gs := [group] + rest;
    assert gs[1..] == rest;
    var head := JointTargets(joints, group);
    assert SettleEvents(joints, gs) == head + [Sleep(SettleMs)] + SettleEvents(joints, rest);
    ProjectionsConcat(head + [Sleep(SettleMs)], SettleEvents(joints, rest));
    ProjectionsConcat(head, [Sleep(SettleMs)]);
    JointTargetsProjections(joints, group);
    assert Commanded([Sleep(SettleMs)]) == [];
    assert CommandedJoints([Sleep(SettleMs)]) == [];
    assert Settles([Sleep(SettleMs)]) == 1;
  }

  /** Splitting off the first group of a path longer than one group. */
  lemma ChunksStep(path: Path)
    requires |path| > NumJoints
    ensures Chunks(path) == [path[..NumJoints]] + Chunks(path[NumJoints..])
    ensures path[..NumJoints] + path[NumJoints..] == path
  {
  }

  lemma {:induction false} SettlePathCommanded(joints: seq<Handle>, path: Path)
    requires |joints| == NumJoints
    ensures Commanded(SettleEvents(joints, Chunks(path))) == path
    decreases |path|
  {
    if path == [] {
    } else if |path| <= NumJoints {
      assert Chunks(path) == [path] + [];
      SettleGroupProjections(joints, path, []);
    } else {
      ChunksStep(path);
      SettleGroupProjections(joints, path[..NumJoints], Chunks(path[NumJoints..]));
      SettlePathCommanded(joints, path[NumJoints..]);
    }
  }

  lemma {:induction false} SettlePathJoints(joints: seq<Handle>, path: Path)
    requires |joints| == NumJoints
    ensures CommandedJoints(SettleEvents(joints, Chunks(path))) == JointCycle(joints, |path|)
    decreases |path|
  {
    if path == [] {
    } else if |path| <= NumJoints {
      assert Chunks(path) == [path] + [];
      SettleGroupProjections(joints, path, []);
    } else {
      ChunksStep(path);
      SettleGroupProjections(joints, path[..NumJoints], Chunks(path[NumJoints..]));
      SettlePathJoints(joints, path[NumJoints..]);
      assert joints[..NumJoints] == joints;
    }
  }

  lemma {:induction false} SettlePathSettles(joints: seq<Handle>, path: Path)
    requires |joints| == NumJoints
    ensures Settles(SettleEvents(joints, Chunks(path))) == |Chunks(path)|
    decreases |path|
  {
    if path == [] {
    } else if |path| <= NumJoints {
      assert Chunks(path) == [path] + [];
      SettleGroupProjections(joints, path, []);
    } else {
      ChunksStep(path);
      SettleGroupProjections(joints, path[..NumJoints], Chunks(path[NumJoints..]));
      SettlePathSettles(joints, path[NumJoints..]);
    }
  }

  lemma SettlePathProjections(joints: seq<Handle>, path: Path)
    requires |joints| == NumJoints
    ensures Commanded(SettleEvents(joints, Chunks(path))) == path
    ensures CommandedJoints(SettleEvents(joints, Chunks(path))) == JointCycle(joints, |path|)
    ensures Settles(SettleEvents(joints, Chunks(path))) == |Chunks(path)|
  {
    SettlePathCommanded(joints, path);
    SettlePathJoints(joints, path);
    SettlePathSettles(joints, path);
  }

  lemma {:induction false} GroupsTargets(joints: seq<Handle>, config: seq<real>, rest: seq<Event>, cur: seq<real>)
    requires |config| <= |joints|
    ensures GroupsFrom(JointTargets(joints, config) + rest, cur) == GroupsFrom(rest, cur + config)
    decreases |config|
  {
    if config == [] {
      assert JointTargets(joints, config) + rest == rest;
      assert cur + config == cur;
    } else {
      var jt := JointTargets(joints[1..], config[1..]);
      TargetsCons(joints, config, rest);
      GroupsFromTarget(SetJointTarget(joints[0], config[0]), jt + rest, cur);
      GroupsTargets(joints[1..], config[1..], rest, cur + [config[0]]);
      ConsAppend(cur, config);
    }
  }

  lemma TargetsCons(joints: seq<Handle>, config: seq<real>, rest: seq<Event>)
    requires 0 < |config| <= |joints|
    ensures JointTargets(joints, config) + rest
         == [SetJointTarget(joints[0], config[0])] + (JointTargets(joints[1..], config[1..]) + rest)
  {
  }

  lemma ConsAppend(cur: seq<real>, config: seq<real>)
    requires config != []
    ensures cur + [config[0]] + config[1..] == cur + config
  {
  }

  lemma GroupsFromTarget(e: Event, tail: seq<Event>, cur: seq<real>)
    requires e.SetJointTarget?
    ensures GroupsFrom([e] + tail, cur) == GroupsFrom(tail, cur + [e.position])
  {
    assert ([e] + tail)[1..] == tail;
  }

  lemma {:induction false} GroupsSettle(joints: seq<Handle>, groups: seq<seq<real>>)
    requires forall k :: 0 <= k < |groups| ==> |groups[k]| <= |joints|
    ensures GroupsFrom(SettleEvents(joints, groups) + [Sleep(StabiliseMs)], []) == groups
    decreases |groups|
  {
    if groups == [] {
      assert SettleEvents(joints, groups) + [Sleep(StabiliseMs)] == [Sleep(StabiliseMs)];
    } else {
      var rest := SettleEvents(joints, groups[1..]) + [Sleep(StabiliseMs)];
      SettleCons(joints, groups);
      GroupsTargets(joints, groups[0], [Sleep(SettleMs)] + rest, []);
      GroupsFromPause(groups[0], rest);
      GroupsSettle(joints, groups[1..]);
      assert groups == [groups[0]] + groups[1..];
    }
  }

  lemma SettleCons(joints: seq<Handle>, groups: seq<seq<real>>)
    requires groups != []
    ensures SettleEvents(joints, groups) + [Sleep(StabiliseMs)]
         == JointTargets(joints, groups[0]) + ([Sleep(SettleMs)] + (SettleEvents(joints, groups[1..]) + [Sleep(StabiliseMs)]))
  {
  }

  lemma GroupsFromPause(cur: seq<real>, rest: seq<Event>)
    ensures GroupsFrom([Sleep(SettleMs)] + rest, [] + cur) == [cur] + GroupsFrom(rest, [])
  {
    assert [] + cur == cur;
    assert ([Sleep(SettleMs)] + rest)[1..] == rest;
  }

  lemma {:induction false} SettleEventsPaced(joints: seq<Handle>, groups: seq<seq<real>>)
    ensures Paced(SettleEvents(joints, groups))
    decreases |groups|
  {
    if groups != [] {
      SettleEventsPaced(joints, groups[1..]);
      var head := JointTargets(joints, groups[0]) + [Sleep(SettleMs)];
      assert Paced(head);
      assert SettleEvents(joints, groups) == head + SettleEvents(joints, groups[1..]);
    }
  }

  /**
   * `followPath` sends the path's values in order, six joints at a time (a short last
   * group addresses only as many joints as it has values), with one settling pause per
   * group (exactly |path| / 6 when the path is made of whole groups) and one final
   * pause of 1.0 s. The settling pauses fall exactly after each group: cut at them the
   * trace gives back the groups, and before the final pause it holds nothing but joint
   * targets and settling pauses.
   */
  lemma FollowPathReplaysPath(joints: seq<Handle>, path: Path)
    requires |joints| == NumJoints
    ensures Commanded(FollowPathEvents(joints, path)) == path
    ensures CommandedJoints(FollowPathEvents(joints, path)) == JointCycle(joints, |path|)
    ensures Settles(FollowPathEvents(joints, path)) == (|path| + NumJoints - 1) / NumJoints
    ensures |path| % NumJoints == 0 ==> Settles(FollowPathEvents(joints, path)) == |path| / NumJoints
    ensures Groups(FollowPathEvents(joints, path)) == Chunks(path)
    ensures var t := FollowPathEvents(joints, path);
      |t| > 0 && Paced(t[..|t| - 1]) && t[|t| - 1] == Sleep(StabiliseMs)
  {
    SettlePathProjections(joints, path);
    ProjectionsConcat(SettleEvents(joints, Chunks(path)), [Sleep(StabiliseMs)]);
    assert Settles([Sleep(StabiliseMs)]) == 0;
    GroupsSettle(joints, Chunks(path));
    SettleEventsPaced(joints, Chunks(path));
    var t := FollowPathEvents(joints, path);
    assert t[..|t| - 1] == SettleEvents(joints, Chunks(path));
  }

  /** Joint targets and pauses only: following a path never plans, grasps or releases. */
  predicate MotionOnly(t: seq<Event>)
  {
    forall k :: 0 <= k < |t| ==> t[k].SetJointTarget? || t[k].Sleep?
  }

  lemma {:induction false} SettleEventsMotionOnly(joints: seq<Handle>, groups: seq<seq<real>>)
    ensures MotionOnly(SettleEvents(joints, groups))
    decreases |groups|
  {
    if groups != [] {
      SettleEventsMotionOnly(joints, groups[1..]);
    }
  }

  lemma FollowPathMotionOnly(joints: seq<Handle>, path: Path)
    ensures MotionOnly(FollowPathEvents(joints, path))
  {
    SettleEventsMotionOnly(joints, Chunks(path));
  }
}
