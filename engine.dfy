/** The game engine's side of the translation layer, kept opaque: the raw
    records the engine hands out, the raw command functions it accepts, and the
    Python exceptions the core raises. Nothing here computes. */
module Engine {

  /** `features.PlayerRelative` values the core compares alliances against
      (SELF, NEUTRAL and ENEMY of the engine's enumeration; ALLY = 2 and
      NONE = 0 are the values no partition takes). */
  const PlayerSelf: int := 1
  const PlayerNeutral: int := 3
  const PlayerEnemy: int := 4

  /** One record of `raw_obs.observation.raw_units`, as far as the core reads it. */
  datatype RawUnit = RawUnit(
    tag: int,
    unitType: int,
    alliance: int,
    health: int,
    shield: int,
    x: real,
    y: real,
    buildProgress: real)

  /** The parts of a raw observation the core reads: the player counters and the unit records. */
  datatype RawObs = RawObs(minerals: int, foodCap: int, foodUsed: int, rawUnits: seq<RawUnit>)

  /** A point built by `Point.build`, or the two-element list the remote path passes. */
  datatype Point = Point(x: real, y: real)

  /** The `RAW_FUNCTIONS` entries the core can produce (besides `no_op`). */
  datatype RawFunction =
    | MoveUnit | MovePt
    | PatrolUnit | PatrolPt
    | AttackUnit | AttackPt
    | HarvestGatherUnit
    | BuildBarracksPt
    | TrainMarineQuick
    | StopQuick
  {
    /** `*_quick` functions take no target argument. */
    predicate IsQuick() { this == TrainMarineQuick || this == StopQuick }

    /** The unit-targeted variants. */
    predicate IsUnitTargeted() { this == MoveUnit || this == PatrolUnit || this == AttackUnit || this == HarvestGatherUnit }
  }

  /** The value handed to a raw function as its target argument. */
  datatype Arg = TagArg(tag: int) | PointArg(pt: Point) | NoneArg

  /** The unit-selection argument: a scalar tag or a list of tags, passed as given. */
  datatype Units = Scalar(tag: int) | Many(tags: seq<int>)

  /** A native command (`FunctionCall`). The timing argument is the string the
      caller passed; the engine, not the core, interprets it. */
  datatype FunctionCall =
    | NoOp
    | Targeted(fn: RawFunction, timing: string, units: Units, target: Arg)
    | Quick(fn: RawFunction, timing: string, units: Units)
  {
    /** Quick functions are called without a target, all others with one. */
    predicate WellFormed()
    {
      match this
      case NoOp => true
      case Targeted(fn, _, _, _) => !fn.IsQuick()
      case Quick(fn, _, _) => fn.IsQuick()
    }
  }

  /** The exceptions the core raises, one constructor per raise site kind. */
  datatype Error =
    | UnknownActionType(action: string)   // ValueError from `ActionType(action)`
    | InvalidTargetType                   // ValueError: target neither Unit, tuple nor None
    | TargetArity(size: nat)              // TypeError from `Coordinate(*target)`
    | TargetRequired(action: string)      // ValueError: a movement action without a target
    | UnboundTargetPoint                  // UnboundLocalError: `target_pt` read but never bound
    | UnsupportedActionType(code: int)    // ValueError: unlisted protobuf action type
    | IndexError                          // `[0]` on an empty selection
    | PolicyRequired                      // ValueError: a local player without a policy

  datatype Option<T> = None | Some(value: T)

  datatype Result<T> = Ok(value: T) | Err(error: Error)
}
