# Text2Arm in Dafny

Text2Arm drives a simulated UR5 arm from typed requests. The user types a request. A fine-tuned language model turns it into (item, location) pairs, and `process_prompt` validates the pairs. YOLO finds each item in the camera image, and `get_ip` picks a grasp pixel. `RobotArm.pick_and_place` then moves the item to its bin. It uses paths from the planner and home-to-bin trajectories calibrated at start-up. A separate script generates the fine-tuning data: random single, double and triple commands, de-duplicated by `add_to_dataset`.

This project models that core and proves what it promises. The modules are:

- `Simulator` (simulator.dfy): the boundary to the simulator and the arm's Lua script. Each command and each planner, sensor or script query appends one `Event` to a trace. Every answer comes from an `Oracles` record of functions of the trace so far, covering the planner, inverse kinematics, the suction sensor and the script's shape and trajectory bookkeeping. Two calls append nothing. `getObjectPose` reads the robot-target pose, the only simulator state kept. The script's `getParams` (src/arm.py:14) is read once and becomes the `Params` value the arm is built from.
- `ArmPaths` (arm_paths.dfy): the pure parts of `src/arm.py`:
  - `_create_pose`;
  - cutting a path into six-joint groups;
  - the group-wise reversal of line 102;
  - the commands `followPath` sends.
- `ArmSpec` (arm_spec.dfy): each `RobotArm` operation as a function from the simulator state before the call to its answer and the state after it. A `KeyError` from `self.target_params[location]` is an `Outcome`.
- `ArmProperties` (arm_properties.dfy): what the controller promises, proved about those functions. This covers:
  - planner failures cause no motion;
  - suction is engaged only right after contact and released only after a successful move to the place;
  - the descent is bounded;
  - calibration stores a trajectory for every location, inside one `initialParams` bracket.
- `Arm` (arm.dfy): the `RobotArm` class. Its fields are `sim` and `targetParams`. Each method updates them in place and is proved to compute exactly what the matching `ArmSpec` function says.
- `Llm` and `LlmProperties` (llm.dfy): `process_prompt`, from the outcome of `ast.literal_eval` (or, when that raises, the regular expression's matches) to the accepted list, an error string, or a `TypeError`. This includes the validation loop and the exact messages.
- `Utils` and `UtilsProperties` (utils.dfy): the pixel arithmetic of `get_ip`, with Python's `int()` truncation written out, and the three-way result of `detect_objects`.
- `MainLoop` and `MainLoopProperties` (main.dfy, main_properties.dfy): the scene tables, the start-up choice between cached trajectories and calibration, and the request loop. The loop is a method over the typed lines, proved equal to the `Session` function, and the loop's policy is proved about `Session`.
- `Dataset` (dataset.dfy): `generate_command`, and the `Corpus` class holding the `dataset` list, the `used_inputs` set and the `counts` map. `add_to_dataset` is a method of `Corpus`, and its invariant is `Corpus.Valid`. The module also has the sample split and the three generation loops, with `random.choice` as an oracle (`Rng`).

Cited line numbers refer to the repository's files. Behaviour of the code worth noting:

- A failed detection skips only that pair; the loop goes on with the next pair (src/main.py:153-154). Only a failed pick stops the rest of the request.
- A location missing from the cached trajectories raises `KeyError`. This ends the session through the `finally` of `main`; it does not stop only the current request.
- Calibration is bracketed by `initialParams(True)` / `initialParams(False)`. `toggleCollisionBox(False)` is called only when the cache is used.
- The group reversal restores the path when applied twice only when the path is made of whole six-value groups. A short last group moves to the front.

## Model

| member | source | states |
|---|---|---|
| ArmPaths.CreatePose | src/arm.py:18-20 | the pose's length is the position's plus the quaternion's; the pose is the position values followed by the quaternion values, order kept |
| ArmPaths.Chunks | src/arm.py:29 | re-flattening the groups gives back the path; there are ceil(n/6) groups; every group but the last has six values; for a multiple of six, all of them do |
| ArmPaths.Reversed | src/arm.py:102 | `[::-1]`: same length, element k is element n-1-k |
| ArmPaths.ChunksOfFlatten | src/arm.py:102 | cutting a concatenation of full groups gives back those groups |
| ArmPaths.ReverseGroupsLength | src/arm.py:102 | the reversal keeps the number of values |
| ArmPaths.ReverseGroupsReversesGroups | src/arm.py:102 | for whole groups, cutting the reversed path gives the original groups in reverse order, each group intact |
| ArmPaths.ReverseGroupsInvolution | src/arm.py:102 | for whole groups, reversing twice gives the path back |
| ArmPaths.ReverseGroupsPartialGroupNotInvolution | src/arm.py:102 | a seven-value path is not restored when reversed twice |
| ArmPaths.ReverseGroupsIsNotValueReversal | src/arm.py:102 | groups are reversed, not values: on twelve values the values inside each group keep their order |
| ArmPaths.JointTargets | src/arm.py:22-25 | `zip`: one target per (joint, value) pair, as many as the shorter side, in order |
| ArmPaths.SettlePathProjections | src/arm.py:29-33 | the groups' commands replay the path's values in order, joints cycling through the six, with one settling pause per group |
| ArmPaths.FollowPathReplaysPath | src/arm.py:27-34 | `followPath` commands exactly the path's values in order; each group's values go to six joints in turn, so a short last group sets only as many joints as it has values; there is one 0.075 s pause per group (`len/6` for whole groups) and the last event is the 1.0 s pause; cut at its 0.075 s pauses the trace gives back exactly the six-value groups, and before the last event it holds only joint targets and those pauses |
| ArmPaths.FollowPathMotionOnly | src/arm.py:27-34 | following a path sends only joint targets and pauses |
| ArmProperties.MoveWithPoseContract | src/arm.py:49-80 | with a pose: if the planner has no path, the answer is `False` and the only event is the request; otherwise the path is followed, the shape removed, 0.15 s waited, and the path returned |
| ArmProperties.TargetParamsContract | src/arm.py:36-47 | `KeyError` exactly for an unknown location, carrying that location and changing nothing; otherwise the cached path and a passive shape built from the override config when it is truthy, else from the cached config |
| ArmProperties.MoveHomeFromLocation | src/arm.py:87-89 | `moveHome(location)` builds the shape from `homeConfig` and replays the cached path group-reversed, answering `True` |
| ArmProperties.MoveHomeRetraces | src/arm.py:82-107 | the joint values commanded on the way home are the outbound path's groups, last group first |
| ArmProperties.MoveWithPathQuiet | src/arm.py:49-80 | a move never toggles suction or moves by inverse kinematics; it raises exactly for an unknown location and never without one |
| ArmProperties.MoveHomeQuiet | src/arm.py:82-107 | the same for going home; it answers `True` whenever it does not raise |
| ArmProperties.DescendBounded | src/arm.py:123-139 | at most `fuel` inverse-kinematics steps; running out means all were taken; the target ends 0.001 m lower per step with its other coordinates kept; no suction toggle; a contact is the last event |
| ArmProperties.DescendSetsTargetFirst | src/arm.py:126-131 | every inverse-kinematics move goes to the pose just given to the robot target |
| ArmProperties.DescendWithoutContactStops | src/arm.py:125-139 | with a sensor that never fires and inverse kinematics that always succeeds, the bounded descent stops after exactly `fuel` steps |
| ArmProperties.DescendNeverContacts | src/arm.py:125-139 | under that sensor no fuel bound ever yields a contact, so the unbounded source loop would never end |
| ArmProperties.PickAndPlaceApproachFails | src/arm.py:116-121 | no path, or an empty one, answers `False` before any descent move or suction toggle |
| ArmProperties.GraspAborts | src/arm.py:123-147 | a descent without contact ends the transaction right after it; a failed lift ends it right after the engage and the lift attempt |
| ArmProperties.DeliverToggles | src/arm.py:154-167 | from home with the object held: after a successful move to the place, the only suction toggle is the release; it raises only for an unknown place |
| ArmProperties.GraspedToggles | src/arm.py:144-167 | from the lift on, the only toggle is the release, exactly when the transaction succeeds |
| ArmProperties.DeliverEmptyPlace | src/arm.py:155-157 | for a place whose cached trajectory is empty, the move there is falsy and delivering returns `False` right after it without releasing; the move adds only the passive shape, the 1.0 s pause, the shape's removal and the 0.15 s wait |
| ArmProperties.GraspedEmptyPlace | src/arm.py:144-157 | once the lift succeeds and the arm is back home, such a place ends the held-object part in `False` right after the move there, with no suction toggle |
| ArmProperties.GraspPhases | src/arm.py:123-167 | a grasp attempt is a descent without toggles, then (only on contact) the engage of the object the sensor just reported, then the rest |
| ArmProperties.PickAndPlacePhases | src/arm.py:109-167 | the same shape for the whole transaction, approach included |
| ArmProperties.PickAndPlaceToggles | src/arm.py:109-167 | suction discipline: at most one engage, right after the sensor reported that object, and its release only on success; a `KeyError` leaves the object held |
| ArmProperties.PickAndPlaceKeyError | src/arm.py:155-163 | `pick_and_place` raises only for a place with no trajectory, and then for that place |
| ArmProperties.GraspedSuccess | src/arm.py:141-167 | after the engage, success means: lift, item path retraced home, cached path out, release, cached path retraced home, for a place with a non-empty trajectory |
| ArmProperties.SuccessfulPickAndPlace | src/arm.py:109-167 | a successful transaction is exactly: approach, descent ending in contact, engage, lift, item path retraced home, cached path out, release, cached path retraced home |
| ArmProperties.CalibrationStep | src/arm.py:180-195 | one location: the trajectory planned to its pose (position and `downOriQuat`) is stored under its name, and the loop goes on with the rest; the step adds exactly the planning call, the outbound path, a 2.0 s pause, the home shape (home configuration, else the cached one), the group-reversed way back with the shape's removal and 0.15 s wait, and a 2.0 s pause; it plans only that location's pose, toggles no suction and calls neither `initialParams` nor inverse kinematics |
| ArmProperties.CalibrateLocationsCovers | src/arm.py:180-195 | the loop stores a trajectory for every location name and keeps every other entry |
| ArmProperties.CalibrateLocationsInOrder | src/arm.py:180-186 | the loop asks the planner for exactly one home-to-location trajectory per location, to that location's pose, in the order of `locations` |
| ArmProperties.CalibrateContract | src/arm.py:169-197 | calibration calls `initialParams(True)` first and `initialParams(False)` last, exactly once each; it toggles no suction and covers every location |
| ArmProperties.CalibrateInOrder | src/arm.py:169-197 | the whole calibration plans the locations' poses in order and nothing else |
| Arm.RobotArm.constructor | src/arm.py:6-16 | the parameters are kept and the trajectory cache starts empty |
| Arm.RobotArm.SetTargetConfig | src/arm.py:22-25 | appends one joint target per (joint, value) pair and changes nothing else |
| Arm.RobotArm.FollowPath | src/arm.py:27-34 | the loop over the groups leaves exactly the state `ArmSpec.FollowPath` describes |
| Arm.RobotArm.GetTargetParams | src/arm.py:36-47 | answer and new state as `ArmSpec.GetTargetParams`; the cache is unchanged |
| Arm.RobotArm.MoveWithPath | src/arm.py:49-80 | answer and new state as `ArmSpec.MoveWithPath`; the cache is unchanged |
| Arm.RobotArm.MoveHome | src/arm.py:82-107 | answer and new state as `ArmSpec.MoveHome`; the cache is unchanged |
| Arm.RobotArm.DescendUntilContact | src/arm.py:123-139 | the descent loop leaves exactly the result and state of `ArmSpec.Descend` with the arm's step bound |
| Arm.RobotArm.PickAndPlace | src/arm.py:109-167 | the caller's `pick[2]` is raised by `heightDiff` in place; answer and state as `ArmSpec.PickAndPlace`; the cache is unchanged |
| Arm.RobotArm.CalculateHomeTargetTrajectories | src/arm.py:169-197 | the loop fills `target_params` and the trace exactly as `ArmSpec.Calibrate` |
| Llm.Validate | src/nlp/llm.py:71-77 | the loop's messages are `AllErrors` of the pairs, in order; it gives `None` (the `TypeError`) exactly when some item or location is unhashable |
| Llm.ProcessPrompt | src/nlp/llm.py:52-82 | `process_prompt` on a parse outcome answers `Llm.Answer` |
| LlmProperties.ErrorsInPairOrder | src/nlp/llm.py:72-77 | pair k's messages sit between the earlier pairs' and the later pairs' messages: "Invalid item: X" for an unknown item first, then "Invalid location: Y" |
| LlmProperties.NoErrorsIffValid | src/nlp/llm.py:72-79 | no message exactly when every item and every location is known |
| LlmProperties.InvalidFormatIff | src/nlp/llm.py:58-62 | an evaluated literal gets exactly the format message if and only if it is not a list of 2-tuples |
| LlmProperties.NoPairsIff | src/nlp/llm.py:63-68 | an unparsable answer gets exactly the no-pairs message if and only if the regex found nothing |
| LlmProperties.ErrorsFoundDiffers | src/nlp/llm.py:62-80 | an "Errors found" string never equals either format message |
| LlmProperties.AcceptedIff | src/nlp/llm.py:71-82 | accepted exactly when the format check passes and every pair is valid; then the list is returned unchanged (same length, order and strings, all known) |
| LlmProperties.RegexPairsReturned | src/nlp/llm.py:63-69 | known regex matches come back as matched, in match order |
| LlmProperties.EmptyListAccepted | src/nlp/llm.py:59-82 | an evaluated empty list passes the format check and is returned empty |
| LlmProperties.TypeErrorIff | src/nlp/llm.py:72-77 | `TypeError` exactly when the format check passes and some item or location is unhashable |
| LlmProperties.ErrorsFoundIff | src/nlp/llm.py:79-80 | with hashable pairs, the answer starts with "Errors found: " exactly when some pair is invalid, and it is then the prefix followed by all messages joined with ", " |
| Utils.FlippedRows | src/utils.py:74-77 | after flipping and `min`/`max`, the rows are ordered and are the two flipped rows |
| UtilsProperties.TruncTowardZero | src/utils.py:72 | `int()` keeps the sign and drops less than one unit |
| UtilsProperties.TruncOfInt | src/utils.py:72 | `int()` of a whole number is that number |
| UtilsProperties.HalfTruncDivision | src/utils.py:81 | `int(n / 2)` is `n // 2` for n >= 0 and `-((-n) // 2)` below zero (rounding toward zero, not floor) |
| UtilsProperties.FlipInvolution | src/utils.py:75-76 | flipping twice gives the row back |
| UtilsProperties.FlipInRange | src/utils.py:75-76 | the flip maps rows 0..resY-1 onto themselves, both directions |
| UtilsProperties.FlippedRowsByOrder | src/utils.py:75-77 | the low row is the flipped larger input and the high row the flipped smaller one |
| UtilsProperties.ColumnInsideBox | src/utils.py:80-83 | for non-negative corners with x1 <= x2 the column lies between them |
| UtilsProperties.TallRowFromTopEdge | src/utils.py:82-83 | a tall item's row is `resY - 1 - min(y1, y2) - 3` |
| UtilsProperties.CentreRowInsideBox | src/utils.py:80-81 | a non-tall item's row lies between the flipped edges plus 5 |
| UtilsProperties.DetectionByCount | src/utils.py:52-66 | `False` exactly for no box, `None` exactly for several, and the converted interest point exactly for one |
| MainLoop.Start | src/main.py:100-117 | creates the arm; its cache, simulator state and what is written to the cache file are as `Startup` |
| MainLoop.Serve | src/main.py:128-162 | the `while True` loop leaves exactly the ending, state and log of `Session`; the trajectories are unchanged |
| MainLoop.RunTasks | src/main.py:148-160 | the `for` loop over the pairs gives exactly `RunIntents` |
| MainLoop.Run | src/main.py:98-162 | `main` from the arm's creation to the end of the session is start-up followed by the session |
| MainLoopProperties.TablesAgree | src/main.py:46-64 | every item has an `IS_TALL` entry; the location names are non-empty and are exactly the keys validated against |
| MainLoopProperties.StartupChoice | src/main.py:103-117 | the cache is used exactly when requested and present, and then the collision box is switched off and nothing is written; otherwise calibration covers every location and is written exactly when caching was requested |
| MainLoopProperties.CalibratedKeys | src/main.py:111 | calibrating `LOCATIONS` stores exactly its keys |
| MainLoopProperties.RunIntentsLog | src/main.py:148-160 | a request's tasks only append to the log, and what they append follows the task grammar |
| MainLoopProperties.TaskLogInOrder | src/main.py:148 | pairs are tried in the order returned: a prefix of them, and all of them when no pick failed |
| MainLoopProperties.TaskLogOnlyTasks | src/main.py:148-160 | a task log holds detections and pick results only |
| MainLoopProperties.TaskLogPickAfterDetection | src/main.py:151-156 | a pick happens only right after a one-box detection of the same item for the same location |
| MainLoopProperties.TaskLogFailureLast | src/main.py:156-160 | a failed pick is the last entry and is what stopped the request; when all pairs were tried every pick succeeded |
| MainLoopProperties.RunIntentsNoKeyError | src/main.py:148-160 | with a trajectory for every bin no pick raises `KeyError` |
| MainLoopProperties.SessionNoKeyError | src/main.py:128-162 | the same for a whole session |
| MainLoopProperties.CalibratedSessionNoKeyError | src/main.py:109-162 | after calibration the session never ends in `KeyError` |
| MainLoopProperties.SessionStopsAtExit | src/main.py:137-138 | nothing typed after `exit` has any effect |
| MainLoopProperties.NoTaskWithoutAcceptedList | src/main.py:141-145 | if the language model's answer is never an accepted list, no task runs and nothing is sent to the simulator |
| MainLoopProperties.RejectedRequestSkips | src/main.py:141-145 | one free-text request whose answer is not an accepted list: a message is logged and the loop continues with the next request in the same simulator state; a `TypeError` ends the session there |
| MainLoopProperties.SessionAsks | src/main.py:131-141 | the language model is asked about the free-text requests only, in order; all of those before `exit` unless an exception ended the session |
| MainLoopProperties.AcceptedAsks | src/main.py:141-162 | a session whose first request is accepted still asks as typed: that request's tasks ask the language model nothing |
| Dataset.Pick | llm_finetuning/dataset_creation.py:29-33 | `random.choice` gives one of the options |
| Dataset.SceneKeys | llm_finetuning/dataset_creation.py:37-38 | the sorted key lists hold exactly the keys of the synonym tables |
| Dataset.SynonymsGiven | llm_finetuning/dataset_creation.py:7-18 | every item and bin has a synonym to draw |
| Dataset.GeneratedWellFormed | llm_finetuning/dataset_creation.py:28-35 | a generated command uses a verb, a synonym of its item, an adverb and a synonym of its bin, and its pair is an item key and a bin key |
| Dataset.GenerateCommand | llm_finetuning/dataset_creation.py:28-35 | six draws give the text "{verb} the {item} {adverb} the {bin}" and its pair, a command for that pair |
| Dataset.BumpCounts | llm_finetuning/dataset_creation.py:48-49 | the counter of each pair goes up by its number of occurrences in the outputs |
| Dataset.AddKeepsConsistent | llm_finetuning/dataset_creation.py:44-50 | adding an unseen input keeps inputs distinct, `used_inputs` their set and each counter the pair's occurrences |
| Dataset.DistinctInputsCount | llm_finetuning/dataset_creation.py:44-47 | distinct inputs make the set of inputs as large as the list |
| Dataset.ValidSize | llm_finetuning/dataset_creation.py:44-47 | under the invariant, `len(used_inputs) == len(dataset)` |
| Dataset.Corpus.constructor | llm_finetuning/dataset_creation.py:40-42 | the three collections start empty and valid |
| Dataset.Corpus.AddToDataset | llm_finetuning/dataset_creation.py:44-51 | `True` exactly for an unseen input; then one record appended, the input marked used and each output pair counted once more; otherwise `False` and nothing changes; the invariant is kept |
| Dataset.DoubleRecord | llm_finetuning/dataset_creation.py:69-70 | a double record has two distinct pairs and its input is the two commands joined by a connector, in order |
| Dataset.TripleRecord | llm_finetuning/dataset_creation.py:81-82 | the same for three commands |
| Dataset.DrawDouble | llm_finetuning/dataset_creation.py:64-69 | the rejection loop ends with two distinct pairs, or with the draws exhausted |
| Dataset.DrawTriple | llm_finetuning/dataset_creation.py:74-81 | the rejection loop ends with three pairwise distinct pairs, or with the draws exhausted |
| Dataset.GenerateSingles | llm_finetuning/dataset_creation.py:57-60 | only one-pair records are added; unless the draws ran out there are at least `single_samples`, never more when starting at or below |
| Dataset.GenerateDoubles | llm_finetuning/dataset_creation.py:62-70 | the same for two-pair records and `double_samples` |
| Dataset.GenerateTriples | llm_finetuning/dataset_creation.py:72-82 | the same for three-pair records and `triple_samples` |
| Dataset.SplitSizes | llm_finetuning/dataset_creation.py:53-55 | the split is 300, 150 and 50, which sum to 500 |
| Dataset.OtherSizesUnchanged | llm_finetuning/dataset_creation.py:57-82 | a loop adding n-pair records leaves the number of other records unchanged |
| Dataset.SizesAddUp | llm_finetuning/dataset_creation.py:102-104 | with one to three pairs per record, the three kinds add up to the dataset's size |
| Dataset.CompleteSizes | llm_finetuning/dataset_creation.py:53-82 | the three loops from an empty dataset, each reaching its target, give exactly 300, 150 and 50 records, 500 in all |
| Dataset.CreateDataset | llm_finetuning/dataset_creation.py:40-82 | the script keeps the invariant and adds only well-made records; when the draws do not run out it ends with exactly 300/150/50 records and 500 distinct inputs |

## Left out

- `vis_path`, `vis_yolo` and all visualisation (`visualizePath`, matplotlib): optional side effects that change no state the core reads.
- Real time: each `time.sleep` is recorded as a `Sleep(ms)` event. Nothing waits.
- `print` and console output: messages that are only printed are not modelled. The loop's log records what each request led to.
- The simulator, the arm's Lua script, the path planner and inverse kinematics, and the suction sensor: their answers are oracle functions of the trace so far. `call_lua_function` is the trace boundary.
- Only `setObjectPose` changes the robot-target pose that the descent reads back with `getObjectPose`. `moveToPose`, `followPath`, `getPath`, `createPassiveShape` and the other script calls are taken to leave it alone, because the Lua side is not visible.
- Arm.RobotArm.DescendUntilContact: bounded by `maxDescentSteps`. The source loop at src/arm.py:125 has no bound and would not end if the sensor never fired; `DescendNeverContacts` states this.
- Arm.RobotArm.PickAndPlace: requires a non-empty place. An empty (falsy) place makes `moveWithPath` plan with `pose=None` and `moveHome` retrace `item_path=None`, which are Python errors outside the modelled behaviour.
- Arm.RobotArm.CalculateHomeTargetTrajectories: requires non-empty location names, for the same reason (`moveHome(location="")`).
- Coordinates, poses and box corners are real numbers, not IEEE floats. `int()` on a float is modelled as truncation toward zero on reals.
- The camera: `get_rgb_img`, `get_depth_map` and `pixel_to_world`. The first result's boxes and the image height are inputs. `pixel_to_world` on the current depth map is a function parameter returning three coordinates.
- YOLO, the language model's inference (`_setup_model`, `_generate_response`) and `evaluate_model`: neural models and metrics.
- `ast.literal_eval` and `re.findall` internals: `process_prompt` starts from their outcome, either the evaluated literal or the list of regex matches. A value other than a string is given by its `str()` and whether it is hashable.
- argparse, `RemoteAPIClient`, `sim.startSimulation`/`stopSimulation` and cv2 clean-up: connection and process set-up.
- The JSON cache file: it is "absent" or "present with these trajectories", and writing it yields the trajectories written. Serialisation is not modelled.
- `input()`: the typed lines are a finite sequence, and their end ends the session (`InputExhausted`).
- Dataset.GenerateSingles: `random.choice` is an oracle (the k-th draw takes option `choices(k) % n`), and each generation loop has a draw budget. The source loops have none. A run that exhausts the budget is reported incomplete, and the stated counts hold only for a complete run.
- Dataset.GenerateDoubles: same draw budget.
- Dataset.GenerateTriples: same draw budget.
- `int(sample_num * 0.6)` and `int(sample_num * 0.3)` are computed in integers as `sample_num * 6 / 10` and `sample_num * 3 / 10`. For 500 this equals the float computation.
- `random.shuffle`, the CSV file and the printed distribution statistics, which are float percentages.
- `np.random.seed`/`random.seed`: the draws are an arbitrary oracle, so the model holds for every seed.
