/** The remote translation layer: raw observation to the wire `Observation`
    message, and wire `Action` message to native command. */
module RpcUtils {
  import opened Seqs
  import opened Engine
  import LocalUtils

  // Numbers of the wire enums `ActionType` and `Timing`.
  const NoOpCode: int := 0
  const MoveCode: int := 1
  const PatrolCode: int := 2
  const AttackCode: int := 3
  const HarvestCode: int := 4
  const BuildBarracksCode: int := 5
  const TrainMarineCode: int := 6
  const CancelCode: int := 7

  const NowCode: int := 0
  const QueuedCode: int := 1

  /** Wire `Unit` message. */
  datatype PbUnit = PbUnit(
    unitTag: int,
    unitType: int,
    player: int,
    health: int,
    shields: int,
    x: real,
    y: real,
    progress: real)

  /** Wire `Observation` message. */
  datatype PbObservation = PbObservation(
    mineralCount: int,
    foodCap: int,
    foodUsed: int,
    friendlyUnits: seq<PbUnit>,
    enemyUnits: seq<PbUnit>,
    neutralUnits: seq<PbUnit>)

  datatype PbPoint = PbPoint(x: real, y: real)

  /** Wire `Action` message. `targetPoint` is `None` exactly when the test
      `if pb_action.target_point` fails. Enum fields are plain numbers, so
      values outside the enumeration can arrive. */
  datatype PbAction = PbAction(
    actionType: int,
    unitTag: int,
    targetPoint: Option<PbPoint>,
    targetTag: int,
    timing: int)

  // ---------------------------------------------------------------- parsing

  /** The raw record a wire unit was copied from. */
  function ToRaw(u: PbUnit): RawUnit
  {
    RawUnit(u.unitTag, u.unitType, u.player, u.health, u.shields, u.x, u.y, u.progress)
  }

  /** `parse_unit`: a verbatim copy with `unit_tag` taken from `tag`. */
  function ParseUnit(raw: RawUnit): (u: PbUnit)
    ensures ToRaw(u) == raw
    ensures u.unitTag == raw.tag && u.player == raw.alliance
  {
    PbUnit(raw.tag, raw.unitType, raw.alliance, raw.health, raw.shield, raw.x, raw.y, raw.buildProgress)
  }

  /** The wire form of a local unit. */
  function FromLocal(u: LocalUtils.Unit): PbUnit
  {
    PbUnit(u.tag, u.unitType, u.player, u.health, u.shields, u.x, u.y, u.progress)
  }

  predicate IsFriendly(u: PbUnit) { u.player == PlayerSelf }
  predicate IsEnemy(u: PbUnit) { u.player == PlayerEnemy }
  predicate IsNeutral(u: PbUnit) { u.player == PlayerNeutral }

  function ParseUnits(raws: seq<RawUnit>): seq<PbUnit>
  {
    Map(ParseUnit, raws)
  }

  /** `parse_obs`: counters copied, units split by alliance. */
  function ParseObs(raw: RawObs): (obs: PbObservation)
    ensures obs.mineralCount == raw.minerals && obs.foodCap == raw.foodCap && obs.foodUsed == raw.foodUsed
    ensures forall u :: u in obs.friendlyUnits <==> u in ParseUnits(raw.rawUnits) && u.player == PlayerSelf
    ensures forall u :: u in obs.enemyUnits <==> u in ParseUnits(raw.rawUnits) && u.player == PlayerEnemy
    ensures forall u :: u in obs.neutralUnits <==> u in ParseUnits(raw.rawUnits) && u.player == PlayerNeutral
  {
    var all := ParseUnits(raw.rawUnits);
    PbObservation(
      raw.minerals, raw.foodCap, raw.foodUsed,
      Filter(all, IsFriendly), Filter(all, IsEnemy), Filter(all, IsNeutral))
  }

  /** The two length-and-position-wise corresponding unit lists. */
  predicate Corresponds(pb: seq<PbUnit>, local: seq<LocalUtils.Unit>)
  {
    |pb| == |local| && forall i :: 0 <= i < |pb| ==> pb[i] == FromLocal(local[i])
  }

  /** Parsing the same records both ways gives corresponding lists. */
  lemma ParsedCorrespond(raws: seq<RawUnit>)
    ensures Corresponds(Map(ParseUnit, raws), Map(LocalUtils.ParseUnit, raws))
  {
  }

  /** The wire observation partitions the units exactly as the local one:
      same units, same order, in each of the three lists. */
  lemma ParseObsAgreesWithLocal(raw: RawObs)
    ensures var pb, local := ParseObs(raw), LocalUtils.ParseObs(raw);
      && pb.mineralCount == local.mineralCount && pb.foodCap == local.foodCap && pb.foodUsed == local.foodUsed
      && Corresponds(pb.friendlyUnits, local.friendlyUnits)
      && Corresponds(pb.enemyUnits, local.enemyUnits)
      && Corresponds(pb.neutralUnits, local.neutralUnits)
  {
    LocalUtils.PartitionsAreFilteredRecords(raw);
    var self := Filter(raw.rawUnits, LocalUtils.RawIsSelf);
    FilterMap(raw.rawUnits, ParseUnit, IsFriendly, LocalUtils.RawIsSelf);
    ParsedCorrespond(self);
    var enemy := Filter(raw.rawUnits, LocalUtils.RawIsEnemy);
    FilterMap(raw.rawUnits, ParseUnit, IsEnemy, LocalUtils.RawIsEnemy);
    ParsedCorrespond(enemy);
    var neutral := Filter(raw.rawUnits, LocalUtils.RawIsNeutral);
    FilterMap(raw.rawUnits, ParseUnit, IsNeutral, LocalUtils.RawIsNeutral);
    ParsedCorrespond(neutral);
  }

  // ---------------------------------------------------------------- actions

  /** The timing string for a wire timing value. */
  function DecodeTiming(t: int): (s: string)
    ensures s == "queued" <==> t == QueuedCode
    ensures LocalUtils.IsTiming(s)
  {
    if t == QueuedCode then "queued" else "now"
  }

  /** Action types the decoder handles. */
  predicate IsListed(code: int)
  {
    code in {NoOpCode, MoveCode, PatrolCode, AttackCode, HarvestCode, BuildBarracksCode, TrainMarineCode, CancelCode}
  }

  /** Action types whose command reads `target_pt`. */
  predicate NeedsPoint(code: int)
  {
    code == MoveCode || code == PatrolCode || code == AttackCode || code == BuildBarracksCode
  }

  /** `target_pt` as the point-targeted command receives it. */
  function PointCall(fn: RawFunction, timing: string, unit: seq<int>, tp: Option<PbPoint>): Result<FunctionCall>
  {
    match tp
    case None => Err(UnboundTargetPoint)
    case Some(p) => Ok(Targeted(fn, timing, Many(unit), PointArg(Point(p.x, p.y))))
  }

  /** The if-chain of `action_cmd`, with the functions PATROL and ATTACK are
      sent to as parameters. Errors arise exactly from an unlisted type or a
      missing point; every command selects the one unit of the message; no
      unit-targeted movement is ever produced; only NO_OP gives `no_op`. */
  function Dispatch(pb: PbAction, patrolFn: RawFunction, attackFn: RawFunction): (r: Result<FunctionCall>)
    requires patrolFn == MovePt || patrolFn == PatrolPt
    requires attackFn == MovePt || attackFn == AttackPt
    ensures r.Err? <==> !IsListed(pb.actionType) || (NeedsPoint(pb.actionType) && pb.targetPoint.None?)
    ensures r.Err? ==> r.error == if IsListed(pb.actionType) then UnboundTargetPoint else UnsupportedActionType(pb.actionType)
    ensures r.Ok? ==> (r.value.NoOp? <==> pb.actionType == NoOpCode)
    ensures r.Ok? && !r.value.NoOp? ==>
      && r.value.WellFormed()
      && r.value.units == Many([pb.unitTag])
      && r.value.fn != MoveUnit && r.value.fn != PatrolUnit && r.value.fn != AttackUnit
      && r.value.timing == if pb.actionType == HarvestCode then "queued" else DecodeTiming(pb.timing)
  {
    var unit := [pb.unitTag];
    var timing := DecodeTiming(pb.timing);
    if pb.actionType == MoveCode then PointCall(MovePt, timing, unit, pb.targetPoint)
    else if pb.actionType == PatrolCode then PointCall(patrolFn, timing, unit, pb.targetPoint)
    else if pb.actionType == AttackCode then PointCall(attackFn, timing, unit, pb.targetPoint)
    else if pb.actionType == HarvestCode then Ok(Targeted(HarvestGatherUnit, "queued", Many(unit), TagArg(pb.targetTag)))
    else if pb.actionType == BuildBarracksCode then PointCall(BuildBarracksPt, timing, unit, pb.targetPoint)
    else if pb.actionType == TrainMarineCode then Ok(Quick(TrainMarineQuick, timing, Many(unit)))
    else if pb.actionType == CancelCode then Ok(Quick(StopQuick, timing, Many(unit)))
    else if pb.actionType == NoOpCode then Ok(NoOp)
    else Err(UnsupportedActionType(pb.actionType))
  }

  /** `action_cmd` as written: PATROL and ATTACK are also sent as `Move_pt`,
      so every movement command it builds is a move. */
  function ActionCmdAsWritten(pb: PbAction): (r: Result<FunctionCall>)
    ensures r.Err? <==> !IsListed(pb.actionType) || (NeedsPoint(pb.actionType) && pb.targetPoint.None?)
    ensures r.Ok? ==> (r.value.NoOp? <==> pb.actionType == NoOpCode)
    ensures r.Ok? && !r.value.NoOp? ==>
      LocalUtils.ActionOf(r.value.fn) ==
        if pb.actionType == PatrolCode || pb.actionType == AttackCode then LocalUtils.Move else LocalAction(pb.actionType)
  {
    Dispatch(pb, MovePt, MovePt)
  }

  /** `action_cmd` with PATROL sent as `Patrol_pt` and ATTACK as `Attack_pt`:
      every command it builds performs the action type of the message. */
  function ActionCmd(pb: PbAction): (r: Result<FunctionCall>)
    ensures r.Err? <==> !IsListed(pb.actionType) || (NeedsPoint(pb.actionType) && pb.targetPoint.None?)
    ensures r.Ok? ==> (r.value.NoOp? <==> pb.actionType == NoOpCode)
    ensures r.Ok? && !r.value.NoOp? ==> LocalUtils.ActionOf(r.value.fn) == LocalAction(pb.actionType)
  {
    Dispatch(pb, PatrolPt, AttackPt)
  }

  /** As written, MOVE, PATROL and ATTACK all become `Move_pt` on the decoded
      point, so an ATTACK order reaches the engine as a plain move. */
  lemma AsWrittenMovementIsMove(pb: PbAction)
    requires pb.actionType == MoveCode || pb.actionType == PatrolCode || pb.actionType == AttackCode
    requires pb.targetPoint.Some?
    ensures ActionCmdAsWritten(pb) ==
      Ok(Targeted(MovePt, DecodeTiming(pb.timing), Many([pb.unitTag]), PointArg(Point(pb.targetPoint.value.x, pb.targetPoint.value.y))))
    ensures pb.actionType != MoveCode ==>
      LocalUtils.ActionOf(ActionCmdAsWritten(pb).value.fn) != LocalUtils.ActionOf(ActionCmd(pb).value.fn)
  {
  }

  /** The written and the corrected decoder differ on exactly the PATROL and
      ATTACK messages that carry a point. */
  lemma AsWrittenDiffersOnlyOnPatrolAttack(pb: PbAction)
    ensures ActionCmdAsWritten(pb) != ActionCmd(pb) <==>
      (pb.actionType == PatrolCode || pb.actionType == AttackCode) && pb.targetPoint.Some?
  {
  }

  /** HARVEST always queues and gathers from `target_tag`, whatever the timing field says. */
  lemma HarvestQueuedOnTargetTag(pb: PbAction)
    requires pb.actionType == HarvestCode
    ensures ActionCmd(pb) == Ok(Targeted(HarvestGatherUnit, "queued", Many([pb.unitTag]), TagArg(pb.targetTag)))
    ensures ActionCmdAsWritten(pb) == ActionCmd(pb)
  {
  }

  /** The local action string for a listed wire action type other than NO_OP. */
  function LocalAction(code: int): LocalUtils.ActionType
    requires IsListed(code) && code != NoOpCode
  {
    if code == MoveCode then LocalUtils.Move
    else if code == PatrolCode then LocalUtils.Patrol
    else if code == AttackCode then LocalUtils.Attack
    else if code == HarvestCode then LocalUtils.Harvest
    else if code == BuildBarracksCode then LocalUtils.BuildBarracks
    else if code == TrainMarineCode then LocalUtils.TrainMarine
    else LocalUtils.Cancel
  }

  /** The local target that carries what the wire message carries: the unit
      to gather from, the point to go to, or nothing. */
  predicate SameTarget(pb: PbAction, target: LocalUtils.Target)
  {
    if pb.actionType == HarvestCode then target.UnitTarget? && target.unit.tag == pb.targetTag
    else if NeedsPoint(pb.actionType) then
      pb.targetPoint.Some? && target == LocalUtils.TupleTarget([pb.targetPoint.value.x, pb.targetPoint.value.y])
    else target == LocalUtils.NoTarget
  }

  /** The corrected decoder builds the very command the local encoder builds
      for the same action, unit, target and timing. */
  lemma ActionCmdAgreesWithLocal(pb: PbAction, target: LocalUtils.Target)
    requires IsListed(pb.actionType) && pb.actionType != NoOpCode
    requires SameTarget(pb, target)
    ensures ActionCmd(pb) ==
      LocalUtils.ActionCmd(LocalAction(pb.actionType).Value(), Many([pb.unitTag]), target, DecodeTiming(pb.timing))
  {
  }
}
