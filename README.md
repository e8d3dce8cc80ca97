# StarCraft II bot harness: translation layer and policies, in Dafny

This project models the deterministic core of a coursework harness that drives
a StarCraft II bot through PySC2:

- **Observation translator** (`parse_unit`, `parse_obs`). There are two copies:
  one builds simplified `Unit`/`Observation` values (`LocalUtils`), the other
  builds the wire messages (`RpcUtils`). Both copy each raw unit record field by
  field. Both split the units into friendly, enemy and neutral lists by
  comparing the alliance with SELF, ENEMY and NEUTRAL, and keep the engine's
  order in each list.
- **Action encoder** (`action_cmd`), also in two variants:
  - The local variant turns an action string, a unit selection, a target and a
    timing string into a raw engine command. Movement actions pick the
    unit-targeted or point-targeted function from a lookup table. HARVEST
    always queues.
  - The remote variant decodes a wire `Action` message.
- **Policies** (`Ostrich`, `Demo` and their `get_action`). `Demo` is a
  fixed-priority rule: train a marine, otherwise harvest, build barracks or
  attack, as picked at random. The random pick is an input here.
- **Roster builder** (`build_players`). It validates each player declaration
  and builds the agent list and the engine's player list.

The engine's raw functions (`RAW_FUNCTIONS.*`) are the constructors of
`Engine.RawFunction`. A native command is `Engine.FunctionCall`. The Python
exceptions are `Engine.Error`, and every operation that can raise returns
`Engine.Result`.

Modules: `Seqs` covers list comprehensions (filter and map) and their lemmas.
`Engine` holds the opaque engine side. `LocalUtils`, `RpcUtils`,
`LocalController` and `Run` each follow one source file.

## Model

| member | source | states |
|---|---|---|
| `Seqs.Filter` | local_controller/local_utils.py:101-103 | a filtering comprehension keeps every element that passes the test, and only those |
| `Seqs.FilterAppend` | local_controller/local_utils.py:101-103 | filtering never reorders: the filter of a concatenation is the concatenation of the filters |
| `Seqs.FilterHeadIsFirst` | local_controller/local_controller.py:47-55 | element `[0]` of a non-empty filtered list is the first element of the source list that passes the test |
| `LocalUtils.ParseUnit` | local_controller/local_utils.py:78-90 | the unit is a verbatim copy of the record (the record is recovered from it): `player` comes from `alliance`, `shields` from `shield`, `progress` from `build_progress` |
| `LocalUtils.ParseObs` | local_controller/local_utils.py:93-104 | the counters are copied; friendly, enemy and neutral lists hold exactly the parsed units whose player is SELF, ENEMY and NEUTRAL respectively |
| `LocalUtils.PartitionsAreFilteredRecords` | local_controller/local_utils.py:95-103 | each list is the parse of exactly the raw records with that alliance, in engine order |
| `LocalUtils.PartitionsDisjointAndBounded` | local_controller/local_utils.py:101-103 | no unit is in two lists; the three lengths add up to at most the number of raw records |
| `LocalUtils.PartitionPlacement` | local_controller/local_utils.py:101-103 | a record with alliance SELF, ENEMY or NEUTRAL is in the matching list and no other; any other alliance puts it in none |
| `LocalUtils.ParseObsKeepsOrder` | local_controller/local_utils.py:95-103 | parsing two batches of records one after the other gives concatenated lists, so the engine's order is kept |
| `LocalUtils.ParseActionType` | local_controller/local_utils.py:27-34 | `ActionType(action)` finds the member whose value is the string; it fails exactly when no member has that value |
| `LocalUtils.ActionCmd` | local_controller/local_utils.py:107-155 | fails exactly on an unknown action (with `UnknownActionType` naming it), on a target that is neither Unit, pair nor None, or on a movement without a target; otherwise gives a well-formed call to a function that performs exactly the requested action, so the final `raise` is unreachable |
| `LocalUtils.MovementDispatch` | local_controller/local_utils.py:130-145 | MOVE, PATROL and ATTACK: a Unit target gives the unit-targeted function of that kind with `target.tag`; a pair gives the point-targeted one; no target raises |
| `LocalUtils.HarvestAlwaysQueued` | local_controller/local_utils.py:117-148 | HARVEST gives `Harvest_Gather_unit` with timing "queued", `units` unchanged and the argument the target check infers from any accepted target; the result does not depend on the timing argument |
| `LocalUtils.BuildBarracksForwardsTarget` | local_controller/local_utils.py:117-150 | BUILD_BARRACKS builds `Build_Barracks_pt` with the requested timing and `units` unchanged, on the argument the target check infers from any accepted target |
| `LocalUtils.TimingAndUnitsForwarded` | local_controller/local_utils.py:115-154 | every action except HARVEST passes the timing through; movement actions alone wrap the selection into a list, the others forward `units` as given |
| `LocalUtils.QuickActionsIgnoreTarget` | local_controller/local_utils.py:151-154 | TRAIN_MARINE and CANCEL give the same command for any target that passes the target check |
| `LocalUtils.TargetCheckedBeforeDispatch` | local_controller/local_utils.py:117-128 | for every action, an invalid target or a tuple that is not a pair is refused before dispatch |
| `LocalUtils.ActionCmdTimingValid` | local_controller/local_utils.py:138-154 | a timing that names a `Timing` member yields a command whose timing names one too |
| `RpcUtils.ParseUnit` | rpc_utils.py:12-24 | the wire unit is a verbatim copy of the record, with `unit_tag` from `tag` and `player` from `alliance` |
| `RpcUtils.ParseObs` | rpc_utils.py:27-38 | the counters are copied; each list holds exactly the parsed units with the matching alliance |
| `RpcUtils.ParseObsAgreesWithLocal` | rpc_utils.py:29-37 | the wire lists match the local ones position by position (same units, same order, same counters) |
| `RpcUtils.DecodeTiming` | rpc_utils.py:47 | the timing is "queued" if and only if the field equals QUEUED, otherwise "now"; both name `Timing` members |
| `RpcUtils.Dispatch` | rpc_utils.py:41-67 | fails exactly on an unlisted action type (ValueError) or on a point-reading type without a point (unbound `target_pt`); the selection is always `[unit_tag]`; no unit-targeted movement is produced; `no_op` comes only from NO_OP; the timing is decoded, except that HARVEST gets "queued" |
| `RpcUtils.ActionCmdAsWritten` | rpc_utils.py:41-67 | as written: fails exactly on an unlisted action type or a point-reading type without a point; every command performs the message's action type, except that PATROL and ATTACK become moves (`Move_pt`) |
| `RpcUtils.ActionCmd` | rpc_utils.py:41-67 | corrected (PATROL sent as `Patrol_pt`, ATTACK as `Attack_pt`): same failures as written; every command it builds performs exactly the action type of the message, and `no_op` comes only from NO_OP |
| `RpcUtils.AsWrittenMovementIsMove` | rpc_utils.py:51-56 | as written, MOVE, PATROL and ATTACK all give `Move_pt` on the decoded point, so PATROL and ATTACK give a different action than intended |
| `RpcUtils.AsWrittenDiffersOnlyOnPatrolAttack` | rpc_utils.py:53-56 | the written and the corrected decoder differ exactly on PATROL and ATTACK messages that carry a point |
| `RpcUtils.HarvestQueuedOnTargetTag` | rpc_utils.py:57-58 | HARVEST is always `Harvest_Gather_unit` with timing "queued" on `target_tag` |
| `RpcUtils.ActionCmdAgreesWithLocal` | rpc_utils.py:51-64 | the corrected decoder builds exactly the command the local encoder builds for the same action, unit, target and timing |
| `LocalController.GetActionAsWritten` | local_controller/local_controller.py:45-88 | as written: fails only with IndexError; when a marine can be trained it orders it with timing "queue"; otherwise it decides exactly as the corrected rule does |
| `LocalController.GetAction` | local_controller/local_controller.py:33-34 | `Ostrich.get_action` always returns `no_op` |
| `LocalController.Decide` | local_controller/local_controller.py:45-88 | `Demo.get_action` fails only with IndexError on an empty selection; every command it builds is well formed |
| `LocalController.DemoIgnoresFlags` | local_controller/local_controller.py:40-45 | `Demo` decides the same whatever `_built_barracks` and `_trained_marine` hold |
| `LocalController.Selections` | local_controller/local_controller.py:47-59 | the barracks, SCV and mineral-field selections are non-empty exactly when such a unit exists (for barracks, together with 50 minerals, the marine guard); the `[0]` of the SCV and mineral-field lists is the first such unit, and when a marine can be trained `barracks[0]` is the tag of the first barracks |
| `LocalController.TrainWhenPossible` | local_controller/local_controller.py:49-60 | with a friendly barracks and at least 50 minerals, the first barracks trains a marine, whatever the random pick |
| `LocalController.HarvestBranch` | local_controller/local_controller.py:64-70 | harvest: the first SCV gathers, queued, from the first mineral field; it succeeds exactly when both exist |
| `LocalController.BuildBarracksBranch` | local_controller/local_controller.py:72-78 | build: below 150 minerals the result is `no_op`; from 150 on the first SCV builds at (12.5, 15.5), and the branch fails without an SCV |
| `LocalController.AttackBranch` | local_controller/local_controller.py:80-88 | attack: with no enemy the result is `no_op`; otherwise the first SCV attacks `enemy_units[0]`, and the branch fails without an SCV |
| `LocalController.NoOpExactlyOnFallThrough` | local_controller/local_controller.py:59-88 | `no_op` comes out exactly when no marine can be trained and the pick is build below 150 minerals or attack with no enemy |
| `LocalController.AsWrittenTrainTimingInvalid` | local_controller/local_controller.py:59-60 | as written, the marine order carries timing "queue", which names no `Timing` member |
| `LocalController.GetActionTimingValid` | local_controller/local_controller.py:59-88 | with the marine order's timing corrected, every command either policy builds has a valid timing |
| `LocalController.ScenarioTrain` | local_controller/local_controller.py:59-60 | 200 minerals and barracks 7, with the marine timing corrected to "queued" (see "## Findings"): a queued marine order on 7 |
| `LocalController.ScenarioTrainAsWritten` | local_controller/local_controller.py:59-60 | the same observation under the rule as written: a marine order on 7 with timing "queue" |
| `LocalController.ScenarioAttack` | local_controller/local_controller.py:80-87 | SCV 3, enemy 9 and attack picked: the unit-targeted attack by [3] on 9 |
| `Run.RosterStep` | run.py:37-51 | each declaration adds exactly one player; a BOT adds no agent, every other kind adds exactly one; anything not LOCAL, including a `type` that is no `PlayerType` member, becomes a remote agent |
| `Run.RosterCounts` | run.py:37-53 | there are as many players as declarations, and as many agents as non-BOT declarations; every local agent has its policy |
| `Run.BuildPlayers` | run.py:33-53 | fails (ValueError) exactly when some LOCAL declaration has no policy; otherwise the players follow the declarations in order, and the agents follow the non-BOT declarations in order |

## Findings

| source | as written | input that shows it | evidently intended | confidence | as-written member | corrected member |
|---|---|---|---|---|---|---|
| rpc_utils.py:53-56 | PATROL and ATTACK are sent as `Move_pt` | an `Action` with `action_type` ATTACK and a target point: the unit is ordered to move, not attack | `Patrol_pt` and `Attack_pt`, as the local encoder's table does (local_controller/local_utils.py:130-134) | medium; not executed | `RpcUtils.AsWrittenMovementIsMove` | `RpcUtils.ActionCmdAgreesWithLocal` |
| local_controller/local_controller.py:60 | the marine is ordered with `timing="queue"` | an `Observation` with a friendly barracks and `mineral_count` ≥ 50 | "queued", the value of `Timing.QUEUED` (local_controller/local_utils.py:42-44) | medium: what the engine does with an unknown timing string is outside the model; not executed | `LocalController.AsWrittenTrainTimingInvalid` | `LocalController.GetActionTimingValid` |

Each finding has two halves in the model:

- The as-written behaviour is `RpcUtils.ActionCmdAsWritten` and
  `LocalController.GetActionAsWritten`, with the scenario
  `LocalController.ScenarioTrainAsWritten`.
- The corrected behaviour is `RpcUtils.ActionCmd` and
  `LocalController.GetAction`. The rest of the model uses these. The two
  versions share one definition (`RpcUtils.Dispatch`,
  `LocalController.Decide`) and differ only in the functions for PATROL and
  ATTACK, or in the marine order's timing.

## Left out

- `LocalController.GetAction`: its contract states only the `Ostrich` case. The
  `Demo` case is stated by the lemmas about `LocalController.Decide` (the
  branch lemmas, `NoOpExactlyOnFallThrough`, `DemoIgnoresFlags`).
- `Demo` with an empty SCV or mineral-field selection raises IndexError:
  `scv_units[0]` and `mineral_fields[0]`
  (local_controller/local_controller.py:68-69, 76, 85) are unguarded. The
  model returns `Err(IndexError)` there, not `no_op`.
- `marines` (local_controller/local_controller.py:51) is computed and never
  read, so it is not modelled.
- `random.choice` is the input `Choice`. Nothing about its distribution is
  modelled.
- Enum numbers: the wire schema (`exercise3_pb2`) is not part of this model.
  ActionType is assumed to number NO_OP to CANCEL as 0 to 7, and Timing as
  NOW = 0, QUEUED = 1. The proofs rely only on these numbers being distinct.
- Alliance values are pysc2's `PlayerRelative` values: SELF 1, NEUTRAL 3,
  ENEMY 4. The proofs rely only on their being distinct.
- `if pb_action.target_point` is taken as an input: `targetPoint` is `None`
  exactly when that test fails. How the protobuf runtime makes a
  sub-message true or false is outside the model.
- Numbers are unbounded integers and `real` coordinates. The protobuf field
  widths (integer and float narrowing when the messages are built) are not
  modelled. Coordinates are only copied, never computed on.
- `units` is either a scalar tag or a list of tags. Detecting `numpy.integer`
  and failing on values that are not iterable are not modelled.
- A tuple target holds `real` items. Its arity is checked, because
  `Coordinate(*target)` raises TypeError unless it has two items.
- The `timing="now"` default of `action_cmd` is written out at each call.
- Engine-side validation of the calls that are built (for example, the scalar
  `units` passed to `Harvest_Gather_unit`) belongs to pysc2, not this model.
- `Run.BuildPlayers` records the arguments it passes to `LocalAgent` and
  `RemoteAgent`. What those constructors do (policy instantiation, name
  lookup, the RPC client) lives in env/agent.py, which is not part of this
  model.
- `run.py` `main`, the environment and run loop, score printing and replays
  are I/O against the game engine.
- The agent adapters' `setup` check for `raw_units` and `step` are not
  modelled. Neither are the RPC service skeleton (a constant NO_OP) or the
  map registration.
