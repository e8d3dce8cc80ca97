/** The local translation layer: raw observation to `Observation`
    (`parse_unit`, `parse_obs`) and intent to native command (`action_cmd`). */
module LocalUtils {
  import opened Seqs
  import opened Engine

  // Unit type ids the policies look for.
  const CommandCenterType: int := 19
  const BarracksType: int := 21
  const PylonType: int := 58
  const MineralFieldType: int := 341
  const ScvType: int := 45
  const MarineType: int := 48

  /** The action kinds; `Value` is the string the enum is built from. */
  datatype ActionType = Move | Patrol | Attack | Harvest | BuildBarracks | TrainMarine | Cancel
  {
    function Value(): string
    {
      match this
      case Move => "move"
      case Patrol => "patrol"
      case Attack => "attack"
      case Harvest => "harvest"
      case BuildBarracks => "build_barracks"
      case TrainMarine => "train_marine"
      case Cancel => "cancel"
    }
  }

  datatype TargetType = UnitKind | PointKind

  datatype Timing = Now | Queued
  {
    function Value(): string
    {
      match this
      case Now => "now"
      case Queued => "queued"
    }
  }

  /** A string that names a member of the `Timing` enum. */
  predicate IsTiming(s: string)
  {
    s == Now.Value() || s == Queued.Value()
  }

  /** Simplified, immutable unit. */
  datatype Unit = Unit(
    tag: int,
    unitType: int,
    player: int,
    health: int,
    shields: int,
    x: real,
    y: real,
    progress: real)

  /** Simplified observation: counters and three ordered unit lists. */
  datatype Observation = Observation(
    mineralCount: int,
    foodCap: int,
    foodUsed: int,
    friendlyUnits: seq<Unit>,
    enemyUnits: seq<Unit>,
    neutralUnits: seq<Unit>)

  /** The target argument of `action_cmd`: a `Unit`, a tuple of
      coordinates, `None`, or a value of any other type. */
  datatype Target = UnitTarget(unit: Unit) | TupleTarget(items: seq<real>) | NoTarget | OtherTarget

  // ---------------------------------------------------------------- parsing

  /** The raw record a unit was copied from, field by field. */
  function ToRaw(u: Unit): RawUnit
  {
    RawUnit(u.tag, u.unitType, u.player, u.health, u.shields, u.x, u.y, u.progress)
  }

  /** `parse_unit`: a verbatim copy, so the record can be recovered from the unit. */
  function ParseUnit(raw: RawUnit): (u: Unit)
    ensures ToRaw(u) == raw
    ensures u.player == raw.alliance && u.shields == raw.shield && u.progress == raw.buildProgress
  {
    Unit(raw.tag, raw.unitType, raw.alliance, raw.health, raw.shield, raw.x, raw.y, raw.buildProgress)
  }

  predicate IsFriendly(u: Unit) { u.player == PlayerSelf }
  predicate IsEnemy(u: Unit) { u.player == PlayerEnemy }
  predicate IsNeutral(u: Unit) { u.player == PlayerNeutral }

  predicate RawIsSelf(r: RawUnit) { r.alliance == PlayerSelf }
  predicate RawIsEnemy(r: RawUnit) { r.alliance == PlayerEnemy }
  predicate RawIsNeutral(r: RawUnit) { r.alliance == PlayerNeutral }

  /** `all_units`, in the engine's order. */
  function ParseUnits(raws: seq<RawUnit>): seq<Unit>
  {
    Map(ParseUnit, raws)
  }

  /** `parse_obs`: counters copied, units split by alliance. */
  function ParseObs(raw: RawObs): (obs: Observation)
    ensures obs.mineralCount == raw.minerals && obs.foodCap == raw.foodCap && obs.foodUsed == raw.foodUsed
    ensures forall u :: u in obs.friendlyUnits <==> u in ParseUnits(raw.rawUnits) && u.player == PlayerSelf
    ensures forall u :: u in obs.enemyUnits <==> u in ParseUnits(raw.rawUnits) && u.player == PlayerEnemy
    ensures forall u :: u in obs.neutralUnits <==> u in ParseUnits(raw.rawUnits) && u.player == PlayerNeutral
  {
    var all := ParseUnits(raw.rawUnits);
    Observation(
      raw.minerals, raw.foodCap, raw.foodUsed,
      Filter(all, IsFriendly), Filter(all, IsEnemy), Filter(all, IsNeutral))
  }

  /** Each partition is the parse of exactly the raw records with that
      alliance, in the engine's order. */
  lemma PartitionsAreFilteredRecords(raw: RawObs)
    ensures ParseObs(raw).friendlyUnits == Map(ParseUnit, Filter(raw.rawUnits, RawIsSelf))
    ensures ParseObs(raw).enemyUnits == Map(ParseUnit, Filter(raw.rawUnits, RawIsEnemy))
    ensures ParseObs(raw).neutralUnits == Map(ParseUnit, Filter(raw.rawUnits, RawIsNeutral))
  {
    FilterMap(raw.rawUnits, ParseUnit, IsFriendly, RawIsSelf);
    FilterMap(raw.rawUnits, ParseUnit, IsEnemy, RawIsEnemy);
    FilterMap(raw.rawUnits, ParseUnit, IsNeutral, RawIsNeutral);
  }

  /** No unit is in two partitions, and together they hold at most as many
      units as the engine reported. */
  lemma PartitionsDisjointAndBounded(raw: RawObs)
    ensures var obs := ParseObs(raw);
      && (forall u :: !(u in obs.friendlyUnits && u in obs.enemyUnits))
      && (forall u :: !(u in obs.friendlyUnits && u in obs.neutralUnits))
      && (forall u :: !(u in obs.enemyUnits && u in obs.neutralUnits))
      && |obs.friendlyUnits| + |obs.enemyUnits| + |obs.neutralUnits| <= |raw.rawUnits|
  {
    FilterExclusiveCount(ParseUnits(raw.rawUnits), IsFriendly, IsEnemy, IsNeutral);
  }

  /** A record with SELF, ENEMY or NEUTRAL alliance lands in the matching
      partition and no other; a record with any other alliance lands in none. */
  lemma PartitionPlacement(raw: RawObs, i: nat)
    requires i < |raw.rawUnits|
    ensures var obs, u := ParseObs(raw), ParseUnit(raw.rawUnits[i]);
      && (u in obs.friendlyUnits <==> raw.rawUnits[i].alliance == PlayerSelf)
      && (u in obs.enemyUnits <==> raw.rawUnits[i].alliance == PlayerEnemy)
      && (u in obs.neutralUnits <==> raw.rawUnits[i].alliance == PlayerNeutral)
  {
    assert ParseUnits(raw.rawUnits)[i] == ParseUnit(raw.rawUnits[i]);
  }

  /** Parsing two batches of records one after the other gives the
      concatenated partitions: the engine's order is kept. */
  lemma ParseObsKeepsOrder(m: int, cap: int, used: int, a: seq<RawUnit>, b: seq<RawUnit>)
    ensures var whole, first, second := ParseObs(RawObs(m, cap, used, a + b)), ParseObs(RawObs(m, cap, used, a)), ParseObs(RawObs(m, cap, used, b));
      && whole.friendlyUnits == first.friendlyUnits + second.friendlyUnits
      && whole.enemyUnits == first.enemyUnits + second.enemyUnits
      && whole.neutralUnits == first.neutralUnits + second.neutralUnits
  {
    MapAppend(ParseUnit, a, b);
    FilterAppend(ParseUnits(a), ParseUnits(b), IsFriendly);
    FilterAppend(ParseUnits(a), ParseUnits(b), IsEnemy);
    FilterAppend(ParseUnits(a), ParseUnits(b), IsNeutral);
  }

  // ---------------------------------------------------------------- actions

  /** `ActionType(action)`: the member whose value is `action`, if any. */
  function ParseActionType(action: string): (r: Option<ActionType>)
    ensures r.Some? ==> r.value.Value() == action
    ensures r.None? ==> forall k: ActionType :: k.Value() != action
  {
    if action == "move" then Some(Move)
    else if action == "patrol" then Some(Patrol)
    else if action == "attack" then Some(Attack)
    else if action == "harvest" then Some(Harvest)
    else if action == "build_barracks" then Some(BuildBarracks)
    else if action == "train_marine" then Some(TrainMarine)
    else if action == "cancel" then Some(Cancel)
    else None
  }

  /** `u`: a scalar tag becomes a one-element list, a list is copied. */
  function Listed(units: Units): (r: seq<int>)
    ensures units.Scalar? ==> r == [units.tag]
    ensures units.Many? ==> r == units.tags
  {
    match units
    case Scalar(t) => [t]
    case Many(ts) => ts
  }

  /** The target kind and the value forwarded to the engine. */
  function InferTarget(target: Target): Result<(Option<TargetType>, Arg)>
  {
    match target
    case UnitTarget(u) => Ok((Some(UnitKind), TagArg(u.tag)))
    case TupleTarget(items) =>
      if |items| == 2 then Ok((Some(PointKind), PointArg(Point(items[0], items[1]))))
      else Err(TargetArity(|items|))
    case NoTarget => Ok((None, NoneArg))
    case OtherTarget => Err(InvalidTargetType)
  }

  /** `move_actions`: movement kind to its (unit-targeted, point-targeted) functions. */
  const MoveActions: map<ActionType, (RawFunction, RawFunction)> :=
    map[Move := (MoveUnit, MovePt), Patrol := (PatrolUnit, PatrolPt), Attack := (AttackUnit, AttackPt)]

  predicate IsMovement(k: ActionType) { k == Move || k == Patrol || k == Attack }

  /** The action kind a raw function carries out. */
  function ActionOf(fn: RawFunction): ActionType
  {
    match fn
    case MoveUnit | MovePt => Move
    case PatrolUnit | PatrolPt => Patrol
    case AttackUnit | AttackPt => Attack
    case HarvestGatherUnit => Harvest
    case BuildBarracksPt => BuildBarracks
    case TrainMarineQuick => TrainMarine
    case StopQuick => Cancel
  }

  /** The inputs `action_cmd` rejects: an unknown action string, a target that
      is neither a Unit, a pair nor None, or a movement without a target. */
  predicate Rejects(action: string, target: Target)
  {
    || ParseActionType(action).None?
    || target.OtherTarget?
    || (target.TupleTarget? && |target.items| != 2)
    || (ParseActionType(action).Some? && IsMovement(ParseActionType(action).value) && target.NoTarget?)
  }

  /** `action_cmd`: a successful result is a well-formed call to a function
      that performs exactly the requested action. */
  function ActionCmd(action: string, units: Units, target: Target, timing: string): (r: Result<FunctionCall>)
    ensures r.Err? <==> Rejects(action, target)
    ensures ParseActionType(action).None? ==> r == Err(UnknownActionType(action))
    ensures r.Ok? ==> r.value.WellFormed() && !r.value.NoOp? && ActionOf(r.value.fn).Value() == action
  {
    match ParseActionType(action)
    case None => Err(UnknownActionType(action))
    case Some(kind) =>
      var u := Listed(units);
      match InferTarget(target)
      case Err(e) => Err(e)
      case Ok((targetType, targetVal)) =>
        if kind in MoveActions then
          var (fnUnit, fnPoint) := MoveActions[kind];
          if targetType == Some(UnitKind) then Ok(Targeted(fnUnit, timing, Many(u), targetVal))
          else if targetType == Some(PointKind) then Ok(Targeted(fnPoint, timing, Many(u), targetVal))
          else Err(TargetRequired(action))
        else if kind == Harvest then Ok(Targeted(HarvestGatherUnit, Queued.Value(), units, targetVal))
        else if kind == BuildBarracks then Ok(Targeted(BuildBarracksPt, timing, units, targetVal))
        else if kind == TrainMarine then Ok(Quick(TrainMarineQuick, timing, units))
        else Ok(Quick(StopQuick, timing, units))
  }

  /** Movement actions choose the unit-targeted function for a Unit target,
      the point-targeted one for a pair, and fail without a target. */
  lemma MovementDispatch(kind: ActionType, units: Units, target: Target, timing: string)
    requires IsMovement(kind)
    ensures var r := ActionCmd(kind.Value(), units, target, timing);
      && (target.UnitTarget? ==>
            r.Ok? && r.value.fn.IsUnitTargeted() && ActionOf(r.value.fn) == kind
            && r.value == Targeted(r.value.fn, timing, Many(Listed(units)), TagArg(target.unit.tag)))
      && (target.TupleTarget? && |target.items| == 2 ==>
            r.Ok? && !r.value.fn.IsUnitTargeted() && ActionOf(r.value.fn) == kind
            && r.value == Targeted(r.value.fn, timing, Many(Listed(units)), PointArg(Point(target.items[0], target.items[1]))))
      && (target.NoTarget? ==> r == Err(TargetRequired(kind.Value())))
  {
  }

  /** The argument an accepted target stands for: a unit's tag, a pair's
      point, or none. */
  function TargetArg(target: Target): Arg
    requires !target.OtherTarget? && !(target.TupleTarget? && |target.items| != 2)
  {
    match target
    case UnitTarget(u) => TagArg(u.tag)
    case TupleTarget(items) => PointArg(Point(items[0], items[1]))
    case NoTarget => NoneArg
  }

  /** HARVEST always queues, whatever timing was asked for, forwards the
      unit selection unchanged and gathers from whatever target it is given. */
  lemma HarvestAlwaysQueued(units: Units, target: Target, timing: string, otherTiming: string)
    ensures ActionCmd("harvest", units, target, timing) == ActionCmd("harvest", units, target, otherTiming)
    ensures var r := ActionCmd("harvest", units, target, timing);
      r.Ok? ==> r.value.fn == HarvestGatherUnit && r.value.timing == "queued" && r.value.units == units
    ensures !Rejects("harvest", target) ==>
      ActionCmd("harvest", units, target, timing) == Ok(Targeted(HarvestGatherUnit, "queued", units, TargetArg(target)))
  {
  }

  /** BUILD_BARRACKS keeps the requested timing and the unit selection, and
      builds at whatever target it is given, a missing one included. */
  lemma BuildBarracksForwardsTarget(units: Units, target: Target, timing: string)
    ensures !Rejects("build_barracks", target) ==>
      ActionCmd("build_barracks", units, target, timing) == Ok(Targeted(BuildBarracksPt, timing, units, TargetArg(target)))
  {
  }

  /** Every other action passes the requested timing through, and the
      movement actions alone wrap the unit selection into a list. */
  lemma TimingAndUnitsForwarded(action: string, units: Units, target: Target, timing: string)
    ensures var r := ActionCmd(action, units, target, timing);
      r.Ok? ==>
        && (action != "harvest" ==> r.value.timing == timing)
        && (r.value.units == if action in {"move", "patrol", "attack"} then Many(Listed(units)) else units)
  {
  }

  /** TRAIN_MARINE and CANCEL ignore any target that passes the target check. */
  lemma QuickActionsIgnoreTarget(action: string, units: Units, t1: Target, t2: Target, timing: string)
    requires action == "train_marine" || action == "cancel"
    requires !Rejects(action, t1) && !Rejects(action, t2)
    ensures ActionCmd(action, units, t1, timing) == ActionCmd(action, units, t2, timing)
  {
  }

  /** A bad target is refused before the action is dispatched, whatever the action. */
  lemma TargetCheckedBeforeDispatch(action: string, units: Units, target: Target, timing: string)
    requires ParseActionType(action).Some?
    ensures target.OtherTarget? ==> ActionCmd(action, units, target, timing) == Err(InvalidTargetType)
    ensures target.TupleTarget? && |target.items| != 2 ==>
      ActionCmd(action, units, target, timing) == Err(TargetArity(|target.items|))
  {
  }

  /** With a valid timing, every command `action_cmd` builds carries a valid timing. */
  lemma ActionCmdTimingValid(action: string, units: Units, target: Target, timing: string)
    requires IsTiming(timing)
    ensures var r := ActionCmd(action, units, target, timing);
      r.Ok? ==> IsTiming(r.value.timing)
  {
  }
}
