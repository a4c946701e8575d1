/**
 * What `main` (src/main.py) promises, proved about `MainLoop.Startup`,
 * `MainLoop.RunIntents` and `MainLoop.Session`.
 */
module MainLoopProperties {
  import opened Wrappers
  import opened Simulator
  import opened ArmSpec
  import ArmProperties
  import opened Llm
  import opened Utils
  import opened MainLoop

  // ---------------------------------------------------------------------------
  // The tables.

  /**
   * Every item the language model may name has an `IS_TALL` entry, and the locations it
   * may name are exactly the ones calibration stores.
   */
  lemma TablesAgree()
    ensures ItemsInScene <= IsTall.Keys
    ensures NamedLocations(Locations)
    ensures Names(Locations) == LocationKeys
  {
    assert Locations[0].0 == "redBin" && Locations[1].0 == "yellowBin" && Locations[2].0 == "blueBin";
    assert forall n :: n in Names(Locations) ==> n in LocationKeys;
  }

  // ---------------------------------------------------------------------------
  // Start-up.

  /**
   * The cache is used exactly when it is asked for and the file exists, and then the
   * collision box is switched off and nothing is written. Otherwise the arm calibrates
   * every location, and the result is written exactly when caching was asked for.
   */
  lemma StartupChoice(o: Oracles, p: Params, s: SimState, useCached: bool, cache: Option<Targets>)
    ensures var (tp, s1, written) := Startup(o, p, s, useCached, cache);
      && (useCached && cache.Some? ==>
            tp == cache.value && s1.trace == s.trace + [ToggleCollisionBox(false)] && written == None)
      && (!(useCached && cache.Some?) ==>
            tp.Keys == LocationKeys
            && (tp, s1) == Calibrate(o, p, map[], s, Locations)
            && written == (if useCached then Some(tp) else None))
  {
    if !(useCached && cache.Some?) {
      CalibratedKeys(o, p, s);
    }
  }

  /** Calibrating the `LOCATIONS` table from nothing stores a trajectory for each of its keys. */
  lemma CalibratedKeys(o: Oracles, p: Params, s: SimState)
    ensures Calibrate(o, p, map[], s, Locations).0.Keys == LocationKeys
  {
    TablesAgree();
    ArmProperties.CalibrateContract(o, p, map[], s, Locations);
  }

  // ---------------------------------------------------------------------------
  // What one request's tasks write to the log.

  /**
   * The log of a request's tasks, pair by pair: the detection of the item, and when it
   * found the item the pick-and-place result; a failed pick or a `KeyError` ends it.
   */
  predicate TaskLog(steps: seq<Step>, pairs: seq<(string, string)>, flow: Flow)
    decreases |pairs|
  {
    if pairs == [] then steps == [] && flow == Completed
    else
      && |steps| >= 1 && steps[0].Looked? && (steps[0].item, steps[0].location) == pairs[0]
      && if !steps[0].detection.Located? then TaskLog(steps[1..], pairs[1..], flow)
         else
           && |steps| >= 2 && steps[1].Picked? && (steps[1].item, steps[1].location) == pairs[0]
           && match steps[1].result
              case KeyError(k) => |steps| == 2 && flow == Raised(k)
              case Normal(ok) => if ok then TaskLog(steps[2..], pairs[1..], flow) else |steps| == 2 && flow == Stopped
  }

  lemma ValidTail(pairs: seq<(string, string)>)
    requires pairs != [] && ValidIntents(pairs)
    ensures ValidIntents(pairs[1..])
  {
    forall k | 0 <= k < |pairs[1..]|
      ensures pairs[1..][k].0 in ItemsInScene && pairs[1..][k].1 in LocationKeys
    {
      assert pairs[1..][k] == pairs[k + 1];
    }
  }

  /** `RunIntents` only appends to the log, and what it appends is a task log. */
  lemma {:induction false} RunIntentsLog(o: Oracles, p: Params, tp: Targets, fuel: nat, per: Perception,
                                         s: SimState, log: seq<Step>, pairs: seq<(string, string)>)
    requires ValidIntents(pairs)
    ensures var (flow, s', log') := RunIntents(o, p, tp, fuel, per, s, log, pairs);
      log <= log' && TaskLog(log'[|log|..], pairs, flow)
    decreases |pairs|
  {
    if pairs != [] {
      var (item, location) := pairs[0];
      ValidTail(pairs);
      var d := Look(per, s.trace, Some(item), IsTall[item]);
      var looked := [Looked(item, location, d)];
      if !d.Located? {
        RunIntentsLog(o, p, tp, fuel, per, s, log + looked, pairs[1..]);
        var (flow, _, log') := RunIntents(o, p, tp, fuel, per, s, log + looked, pairs[1..]);
        Extend(log, looked, log');
        TaskLogSkip(pairs, d, log'[|log + looked|..], flow);
      } else {
        var (r, s1) := PickAndPlace(o, p, tp, s, d.coords, location, fuel);
        var done := looked + [Picked(item, location, r)];
        assert log + looked + [Picked(item, location, r)] == log + done;
        if r == Normal(true) {
          RunIntentsLog(o, p, tp, fuel, per, s1, log + done, pairs[1..]);
          var (flow, _, log') := RunIntents(o, p, tp, fuel, per, s1, log + done, pairs[1..]);
          Extend(log, done, log');
          TaskLogPick(pairs, d, r, log'[|log + done|..], flow);
        } else {
          var flow := if r.KeyError? then Raised(r.key) else Stopped;
          Extend(log, done, log + done);
          TaskLogPick(pairs, d, r, [], flow);
        }
      }
    }
  }

  lemma Extend(log: seq<Step>, added: seq<Step>, log': seq<Step>)
    requires log + added <= log'
    ensures log <= log' && log'[|log|..] == added + log'[|log + added|..]
  {
  }

  /** A pair whose item was not found adds its detection, then the rest follows. */
  lemma TaskLogSkip(pairs: seq<(string, string)>, d: Detection, rest: seq<Step>, flow: Flow)
    requires pairs != [] && !d.Located? && TaskLog(rest, pairs[1..], flow)
    ensures TaskLog([Looked(pairs[0].0, pairs[0].1, d)] + rest, pairs, flow)
  {
    assert ([Looked(pairs[0].0, pairs[0].1, d)] + rest)[1..] == rest;
  }

  /** A pair whose item was found adds its detection and its pick result. */
  lemma TaskLogPick(pairs: seq<(string, string)>, d: Detection, r: Outcome<bool>, rest: seq<Step>, flow: Flow)
    requires pairs != [] && d.Located?
    requires r == Normal(true) ==> TaskLog(rest, pairs[1..], flow)
    requires r != Normal(true) ==> rest == [] && flow == (if r.KeyError? then Raised(r.key) else Stopped)
    ensures TaskLog([Looked(pairs[0].0, pairs[0].1, d), Picked(pairs[0].0, pairs[0].1, r)] + rest, pairs, flow)
  {
    var steps := [Looked(pairs[0].0, pairs[0].1, d), Picked(pairs[0].0, pairs[0].1, r)] + rest;
    assert steps[2..] == rest;
  }

  /** The (item, location) pair of every detection in a log. */
  function Intents(steps: seq<Step>): seq<(string, string)>
    decreases |steps|
  {
    if steps == [] then []
    else (if steps[0].Looked? then [(steps[0].item, steps[0].location)] else []) + Intents(steps[1..])
  }

  /**
   * Intents are tried strictly in the order returned, each at most once: the detections
   * follow a prefix of the pairs, and all of them when no pick failed.
   */
  lemma {:induction false} TaskLogInOrder(steps: seq<Step>, pairs: seq<(string, string)>, flow: Flow)
    requires TaskLog(steps, pairs, flow)
    ensures Intents(steps) <= pairs
    ensures flow == Completed ==> Intents(steps) == pairs
    decreases |pairs|
  {
    if pairs != [] {
      if !steps[0].detection.Located? {
        TaskLogInOrder(steps[1..], pairs[1..], flow);
        assert Intents(steps) == [pairs[0]] + Intents(steps[1..]);
      } else {
        assert Intents(steps) == [pairs[0]] + Intents(steps[1..]);
        assert steps[1..][1..] == steps[2..];
        assert Intents(steps[1..]) == Intents(steps[2..]);
        if steps[1].result == Normal(true) {
          TaskLogInOrder(steps[2..], pairs[1..], flow);
        } else {
          assert steps[2..] == [];
        }
      }
      assert pairs == [pairs[0]] + pairs[1..];
    }
  }

  /** A task log holds detections and pick results only. */
  lemma {:induction false} TaskLogOnlyTasks(steps: seq<Step>, pairs: seq<(string, string)>, flow: Flow)
    requires TaskLog(steps, pairs, flow)
    ensures forall j :: 0 <= j < |steps| ==> steps[j].Looked? || steps[j].Picked?
    decreases |pairs|
  {
    if pairs != [] {
      var skip := if steps[0].detection.Located? then 2 else 1;
      if skip == 1 || steps[1].result == Normal(true) {
        TaskLogOnlyTasks(steps[skip..], pairs[1..], flow);
        forall j | skip <= j < |steps| ensures steps[j].Looked? || steps[j].Picked? {
          assert steps[j] == steps[skip..][j - skip];
        }
      }
    }
  }

  /**
   * An item is picked only right after it was detected with exactly one box, and the
   * pick is for that detection's item and location.
   */
  lemma {:induction false} TaskLogPickAfterDetection(steps: seq<Step>, pairs: seq<(string, string)>, flow: Flow)
    requires TaskLog(steps, pairs, flow)
    ensures forall j :: 0 <= j < |steps| && steps[j].Picked? ==>
              0 < j && steps[j - 1].Looked? && steps[j - 1].detection.Located?
              && steps[j - 1].item == steps[j].item && steps[j - 1].location == steps[j].location
    decreases |pairs|
  {
    if pairs != [] {
      var skip := if steps[0].detection.Located? then 2 else 1;
      if skip == 1 || steps[1].result == Normal(true) {
        var rest := steps[skip..];
        TaskLogPickAfterDetection(rest, pairs[1..], flow);
        if skip == 2 && |rest| > 0 {
          TaskLogStartsWithDetection(rest, pairs[1..], flow);
        }
        forall j | skip <= j < |steps| && steps[j].Picked?
          ensures 0 < j && steps[j - 1].Looked? && steps[j - 1].detection.Located?
                  && steps[j - 1].item == steps[j].item && steps[j - 1].location == steps[j].location
        {
          assert steps[j] == rest[j - skip];
          if j > skip {
            assert steps[j - 1] == rest[j - 1 - skip];
          }
        }
      }
    }
  }

  lemma TaskLogStartsWithDetection(steps: seq<Step>, pairs: seq<(string, string)>, flow: Flow)
    requires TaskLog(steps, pairs, flow) && steps != []
    ensures steps[0].Looked?
  {
  }

  /**
   * A failed pick (false or `KeyError`) is the last entry, and it is what ended the
   * request's tasks; when all pairs were tried every pick succeeded.
   */
  lemma {:induction false} TaskLogFailureLast(steps: seq<Step>, pairs: seq<(string, string)>, flow: Flow)
    requires TaskLog(steps, pairs, flow)
    ensures forall j :: 0 <= j < |steps| && steps[j].Picked? && steps[j].result != Normal(true) ==> j == |steps| - 1
    ensures flow == Stopped ==> steps != [] && steps[|steps| - 1].Picked? && steps[|steps| - 1].result == Normal(false)
    ensures flow.Raised? ==> steps != [] && steps[|steps| - 1].Picked? && steps[|steps| - 1].result == KeyError(flow.key)
    ensures flow == Completed ==> forall j :: 0 <= j < |steps| && steps[j].Picked? ==> steps[j].result == Normal(true)
    decreases |pairs|
  {
    if pairs != [] {
      var skip := if steps[0].detection.Located? then 2 else 1;
      if skip == 1 || steps[1].result == Normal(true) {
        var rest := steps[skip..];
        TaskLogFailureLast(rest, pairs[1..], flow);
        forall j | skip <= j < |steps| ensures steps[j] == rest[j - skip] {
        }
        if flow != Completed {
          assert steps[|steps| - 1] == rest[|rest| - 1];
        }
      }
    }
  }

  // ---------------------------------------------------------------------------
  // No KeyError after calibration.

  /** When every location has a trajectory, no pick raises `KeyError`. */
  lemma {:induction false} RunIntentsNoKeyError(o: Oracles, p: Params, tp: Targets, fuel: nat, per: Perception,
                                                s: SimState, log: seq<Step>, pairs: seq<(string, string)>)
    requires ValidIntents(pairs) && LocationKeys <= tp.Keys
    ensures !RunIntents(o, p, tp, fuel, per, s, log, pairs).0.Raised?
    decreases |pairs|
  {
    if pairs != [] {
      var (item, location) := pairs[0];
      ValidTail(pairs);
      var d := Look(per, s.trace, Some(item), IsTall[item]);
      var log1 := log + [Looked(item, location, d)];
      if !d.Located? {
        RunIntentsNoKeyError(o, p, tp, fuel, per, s, log1, pairs[1..]);
      } else {
        ArmProperties.PickAndPlaceKeyError(o, p, tp, s, d.coords, location, fuel);
        var (r, s1) := PickAndPlace(o, p, tp, s, d.coords, location, fuel);
        RunIntentsNoKeyError(o, p, tp, fuel, per, s1, log1 + [Picked(item, location, r)], pairs[1..]);
      }
    }
  }

  /** A session over trajectories for every location never ends in `KeyError`. */
  lemma {:induction false} SessionNoKeyError(o: Oracles, p: Params, tp: Targets, fuel: nat, per: Perception,
                                             s: SimState, log: seq<Step>, requests: seq<string>)
    requires LocationKeys <= tp.Keys
    ensures !Session(o, p, tp, fuel, per, s, log, requests).0.KeyErrorRaised?
    decreases |requests|
  {
    if requests != [] {
      var req := requests[0];
      if req == "detect" {
        SessionNoKeyError(o, p, tp, fuel, per, s, log + [Showed(Look(per, s.trace, None, false))], requests[1..]);
      } else if req != "exit" {
        var outcome := per.respond(log, req);
        var res := Answer(outcome, ItemsInScene, LocationKeys);
        var log1 := log + [Answered(req, res)];
        if res.Message? {
          SessionNoKeyError(o, p, tp, fuel, per, s, log1, requests[1..]);
        } else if res.Accepted? {
          LlmProperties.AcceptedIff(outcome, ItemsInScene, LocationKeys);
          RunIntentsNoKeyError(o, p, tp, fuel, per, s, log1, res.pairs);
          var (flow, s1, log2) := RunIntents(o, p, tp, fuel, per, s, log1, res.pairs);
          SessionNoKeyError(o, p, tp, fuel, per, Emit(s1, Sleep(RequestPauseMs)), log2, requests[1..]);
        }
      }
    }
  }

  /** Without the cache, the session after start-up never ends in `KeyError`. */
  lemma CalibratedSessionNoKeyError(o: Oracles, p: Params, s: SimState, fuel: nat, useCached: bool,
                                    cache: Option<Targets>, per: Perception, requests: seq<string>)
    requires !(useCached && cache.Some?)
    ensures var (tp, s1, _) := Startup(o, p, s, useCached, cache);
            !Session(o, p, tp, fuel, per, s1, [], requests).0.KeyErrorRaised?
  {
    StartupChoice(o, p, s, useCached, cache);
    var (tp, s1, _) := Startup(o, p, s, useCached, cache);
    SessionNoKeyError(o, p, tp, fuel, per, s1, [], requests);
  }

  // ---------------------------------------------------------------------------
  // The request loop.

  /** `exit` ends the loop: nothing typed after it has any effect. */
  lemma {:induction false} SessionStopsAtExit(o: Oracles, p: Params, tp: Targets, fuel: nat, per: Perception,
                                              s: SimState, log: seq<Step>, requests: seq<string>, later: seq<string>)
    requires "exit" in requests
    ensures Session(o, p, tp, fuel, per, s, log, requests + later) == Session(o, p, tp, fuel, per, s, log, requests)
    decreases |requests|
  {
    var req := requests[0];
    assert (requests + later)[0] == req && (requests + later)[1..] == requests[1..] + later;
    if req != "exit" {
      assert "exit" in requests[1..] by {
        var k :| 0 <= k < |requests| && requests[k] == "exit";
        assert requests[1..][k - 1] == "exit";
      }
      if req == "detect" {
        SessionStopsAtExit(o, p, tp, fuel, per, s, log + [Showed(Look(per, s.trace, None, false))], requests[1..], later);
      } else {
        var outcome := per.respond(log, req);
        var res := Answer(outcome, ItemsInScene, LocationKeys);
        var log1 := log + [Answered(req, res)];
        if res.Message? {
          SessionStopsAtExit(o, p, tp, fuel, per, s, log1, requests[1..], later);
        } else if res.Accepted? {
          LlmProperties.AcceptedIff(outcome, ItemsInScene, LocationKeys);
          var (flow, s1, log2) := RunIntents(o, p, tp, fuel, per, s, log1, res.pairs);
          SessionStopsAtExit(o, p, tp, fuel, per, Emit(s1, Sleep(RequestPauseMs)), log2, requests[1..], later);
        }
      }
    }
  }

  /**
   * A request whose answer is not a list runs no task: if the language model never
   * yields an accepted list, the session sends nothing to the simulator.
   */
  lemma {:induction false} NoTaskWithoutAcceptedList(o: Oracles, p: Params, tp: Targets, fuel: nat, per: Perception,
                                                     s: SimState, log: seq<Step>, requests: seq<string>)
    requires forall l, r :: !Answer(per.respond(l, r), ItemsInScene, LocationKeys).Accepted?
    ensures Session(o, p, tp, fuel, per, s, log, requests).1 == s
    decreases |requests|
  {
    if requests != [] && requests[0] != "exit" {
      var req := requests[0];
      if req == "detect" {
        NoTaskWithoutAcceptedList(o, p, tp, fuel, per, s, log + [Showed(Look(per, s.trace, None, false))], requests[1..]);
      } else {
        var res := Answer(per.respond(log, req), ItemsInScene, LocationKeys);
        assert !res.Accepted?;
        NoTaskWithoutAcceptedList(o, p, tp, fuel, per, s, log + [Answered(req, res)], requests[1..]);
      }
    }
  }

  /**
   * One free-text request the language model's answer rejects: a message is logged
   * and the loop goes on with the next request in the same simulator state, and a
   * `TypeError` ends the session there. Either way nothing is sent to the simulator.
   */
  lemma RejectedRequestSkips(o: Oracles, p: Params, tp: Targets, fuel: nat, per: Perception,
                             s: SimState, log: seq<Step>, requests: seq<string>)
    requires requests != [] && requests[0] != "detect" && requests[0] != "exit"
    requires !Answer(per.respond(log, requests[0]), ItemsInScene, LocationKeys).Accepted?
    ensures var res := Answer(per.respond(log, requests[0]), ItemsInScene, LocationKeys);
            var log1 := log + [Answered(requests[0], res)];
            if res.Message? then
              Session(o, p, tp, fuel, per, s, log, requests) == Session(o, p, tp, fuel, per, s, log1, requests[1..])
            else
              Session(o, p, tp, fuel, per, s, log, requests) == (TypeErrorRaised, s, log1)
  {
  }

  /** The requests the language model was asked about, in order. */
  function Asked(steps: seq<Step>): seq<string>
    decreases |steps|
  {
    if steps == [] then []
    else (if steps[0].Answered? then [steps[0].request] else []) + Asked(steps[1..])
  }

  /** The typed requests before the first `exit` that are neither `detect` nor `exit`. */
  function FreeText(requests: seq<string>): seq<string>
    decreases |requests|
  {
    if requests == [] || requests[0] == "exit" then []
    else if requests[0] == "detect" then FreeText(requests[1..])
    else [requests[0]] + FreeText(requests[1..])
  }

  lemma {:induction false} AskedConcat(a: seq<Step>, b: seq<Step>)
    ensures Asked(a + b) == Asked(a) + Asked(b)
    decreases |a|
  {
    if a == [] {
      assert a + b == b;
    } else {
      assert (a + b)[1..] == a[1..] + b;
      AskedConcat(a[1..], b);
    }
  }

  lemma {:induction false} AskedOfTasks(steps: seq<Step>)
    requires forall j :: 0 <= j < |steps| ==> steps[j].Looked? || steps[j].Picked?
    ensures Asked(steps) == []
    decreases |steps|
  {
    if steps != [] {
      AskedOfTasks(steps[1..]);
    }
  }

  /**
   * What the session's log says about the language model: the requests asked about are
   * the free-text ones, in order, all of them before `exit` unless an exception ended
   * the session early.
   */
  predicate AsksAsTyped(log: seq<Step>, r: (Ending, SimState, seq<Step>), requests: seq<string>)
  {
    && log <= r.2
    && Asked(r.2[|log|..]) <= FreeText(requests)
    && (r.0 == Exited || r.0 == InputExhausted ==> Asked(r.2[|log|..]) == FreeText(requests))
  }

  /** One request's entries in front of a session's log that asks as typed. */
  lemma AsksStep(log: seq<Step>, log1: seq<Step>, r: (Ending, SimState, seq<Step>), requests: seq<string>)
    requires requests != [] && requests[0] != "exit" && log <= log1
    requires Asked(log1[|log|..]) == (if requests[0] == "detect" then [] else [requests[0]])
    requires AsksAsTyped(log1, r, requests[1..])
    ensures AsksAsTyped(log, r, requests)
  {
    AskedSplit(log, log1, r.2);
  }

  /**
   * The language model is asked about each free-text request in turn, never about
   * `detect` or `exit`; when the session ends by `exit` or at the end of the input it
   * was asked about every typed request before the `exit` that is neither.
   */
  lemma {:induction false} SessionAsks(o: Oracles, p: Params, tp: Targets, fuel: nat, per: Perception,
                                       s: SimState, log: seq<Step>, requests: seq<string>)
    ensures AsksAsTyped(log, Session(o, p, tp, fuel, per, s, log, requests), requests)
    decreases |requests|
  {
    if requests != [] && requests[0] != "exit" {
      var req := requests[0];
      if req == "detect" {
        var log1 := log + [Showed(Look(per, s.trace, None, false))];
        SessionAsks(o, p, tp, fuel, per, s, log1, requests[1..]);
        assert Asked(log1[|log|..]) == [] by {
          assert log1[|log|..] == [Showed(Look(per, s.trace, None, false))];
        }
        AsksStep(log, log1, Session(o, p, tp, fuel, per, s, log1, requests[1..]), requests);
      } else {
        var outcome := per.respond(log, req);
        var res := Answer(outcome, ItemsInScene, LocationKeys);
        var log1 := log + [Answered(req, res)];
        assert Asked(log1[|log|..]) == [req] by {
          assert log1[|log|..] == [Answered(req, res)];
        }
        if res.TypeError? {
          assert Asked(log1[|log|..]) <= FreeText(requests);
        } else if res.Message? {
          SessionAsks(o, p, tp, fuel, per, s, log1, requests[1..]);
          AsksStep(log, log1, Session(o, p, tp, fuel, per, s, log1, requests[1..]), requests);
        } else {
          AcceptedAsks(o, p, tp, fuel, per, s, log, log1, requests, outcome);
        }
      }
    }
  }

  /** The accepted case of `SessionAsks`: the tasks add nothing asked about. */
  lemma {:induction false} AcceptedAsks(o: Oracles, p: Params, tp: Targets, fuel: nat, per: Perception,
                                        s: SimState, log: seq<Step>, log1: seq<Step>, requests: seq<string>,
                                        outcome: ParseOutcome)
    requires requests != [] && requests[0] != "exit" && requests[0] != "detect"
    requires outcome == per.respond(log, requests[0])
    requires Answer(outcome, ItemsInScene, LocationKeys).Accepted?
    requires log1 == log + [Answered(requests[0], Answer(outcome, ItemsInScene, LocationKeys))]
    requires Asked(log1[|log|..]) == [requests[0]]
    ensures AsksAsTyped(log, Session(o, p, tp, fuel, per, s, log, requests), requests)
    decreases |requests|, 0
  {
    var res := Answer(outcome, ItemsInScene, LocationKeys);
    LlmProperties.AcceptedIff(outcome, ItemsInScene, LocationKeys);
    var (flow, s1, log2) := RunIntents(o, p, tp, fuel, per, s, log1, res.pairs);
    RunIntentsLog(o, p, tp, fuel, per, s, log1, res.pairs);
    TaskLogOnlyTasks(log2[|log1|..], res.pairs, flow);
    AskedOfTasks(log2[|log1|..]);
    AskedSplit(log, log1, log2);
    if flow.Raised? {
      assert Session(o, p, tp, fuel, per, s, log, requests) == (KeyErrorRaised(flow.key), s1, log2);
    } else {
      var s2 := Emit(s1, Sleep(RequestPauseMs));
      assert Session(o, p, tp, fuel, per, s, log, requests) == Session(o, p, tp, fuel, per, s2, log2, requests[1..]);
      SessionAsks(o, p, tp, fuel, per, s2, log2, requests[1..]);
      AsksStep(log, log2, Session(o, p, tp, fuel, per, s2, log2, requests[1..]), requests);
    }
  }

  /** What a later part of the log adds to the requests asked about. */
  lemma AskedSplit(a: seq<Step>, b: seq<Step>, c: seq<Step>)
    requires a <= b <= c
    ensures Asked(c[|a|..]) == Asked(b[|a|..]) + Asked(c[|b|..])
  {
    assert c[|a|..] == b[|a|..] + c[|b|..];
    AskedConcat(b[|a|..], c[|b|..]);
  }
}
