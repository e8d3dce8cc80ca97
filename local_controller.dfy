/** The local policies: `Ostrich`, which never acts, and `Demo`, a fixed
    priority rule over an `Observation`. The random pick of `Demo` is an input. */
module LocalController {
  import opened Seqs
  import opened Engine
  import opened LocalUtils

  /** The outcome of `random.choice(["harvest", "build_barracks", "attack"])`. */
  datatype Choice = HarvestChoice | BuildBarracksChoice | AttackChoice

  /** A policy object with the fields its `__init__` sets. */
  datatype Policy = Ostrich | Demo(builtBarracks: bool, trainedMarine: bool)

  /** A freshly built `Demo`: both flags start out false. */
  const NewDemo: Policy := Demo(false, false)

  predicate IsScv(u: Unit) { u.unitType == ScvType }
  predicate IsBarracks(u: Unit) { u.unitType == BarracksType }
  predicate IsMineralField(u: Unit) { u.unitType == MineralFieldType }

  function TagOf(u: Unit): int { u.tag }

  /** The marine-training guard: some friendly barracks and at least 50 minerals. */
  predicate CanTrain(obs: Observation)
  {
    (exists i :: 0 <= i < |obs.friendlyUnits| && IsBarracks(obs.friendlyUnits[i]))
    && obs.mineralCount >= 50
  }

  predicate HasScv(obs: Observation)
  {
    exists i :: 0 <= i < |obs.friendlyUnits| && IsScv(obs.friendlyUnits[i])
  }

  predicate HasMineralField(obs: Observation)
  {
    exists i :: 0 <= i < |obs.neutralUnits| && IsMineralField(obs.neutralUnits[i])
  }

  /** The timing `Demo` passes with its marine order. */
  const TrainTimingAsWritten: string := "queue"

  /** `Demo.get_action` with the marine order's timing as a parameter. It only
      fails on an empty selection, and every command it builds is well formed. */
  function Decide(obs: Observation, choice: Choice, trainTiming: string): (r: Result<FunctionCall>)
    ensures r.Err? ==> r.error == IndexError
    ensures r.Ok? ==> r.value.WellFormed()
  {
    var scvUnits := Filter(obs.friendlyUnits, IsScv);
    var barracks := Map(TagOf, Filter(obs.friendlyUnits, IsBarracks));
    var mineralFields := Filter(obs.neutralUnits, IsMineralField);
    var minerals := obs.mineralCount;
    if |barracks| > 0 && minerals >= 50 then
      ActionCmd("train_marine", Scalar(barracks[0]), NoTarget, trainTiming)
    else if choice == HarvestChoice then
      if |scvUnits| == 0 || |mineralFields| == 0 then Err(IndexError)
      else ActionCmd("harvest", Scalar(scvUnits[0].tag), UnitTarget(mineralFields[0]), "now")
    else if choice == BuildBarracksChoice && minerals >= 150 then
      if |scvUnits| == 0 then Err(IndexError)
      else ActionCmd("build_barracks", Scalar(scvUnits[0].tag), TupleTarget([12.5, 15.5]), "now")
    else if choice == AttackChoice && |obs.enemyUnits| > 0 then
      if |scvUnits| == 0 then Err(IndexError)
      else ActionCmd("attack", Scalar(scvUnits[0].tag), UnitTarget(obs.enemyUnits[0]), "now")
    else Ok(NoOp)
  }

  /** `Demo.get_action` as written, ordering the marine with timing "queue".
      It fails only with IndexError, and it differs from the corrected rule
      only in the marine order's timing. */
  function GetActionAsWritten(obs: Observation, choice: Choice): (r: Result<FunctionCall>)
    ensures r.Err? ==> r.error == IndexError
    ensures CanTrain(obs) ==> r.Ok? && r.value.Quick? && r.value.fn == TrainMarineQuick && r.value.timing == TrainTimingAsWritten
    ensures CanTrain(obs) ==> r == Ok(Quick(TrainMarineQuick, TrainTimingAsWritten, Decide(obs, choice, Queued.Value()).value.units))
    ensures !CanTrain(obs) ==> r == Decide(obs, choice, Queued.Value())
  {
    Selections(obs);
    if CanTrain(obs) then
      TrainWhenPossible(obs, choice, TrainTimingAsWritten);
      TrainWhenPossible(obs, choice, Queued.Value());
      Decide(obs, choice, TrainTimingAsWritten)
    else
      Decide(obs, choice, TrainTimingAsWritten)
  }

  /** `get_action` of either policy; `Demo` orders the marine with timing
      "queued". `Ostrich` always returns `no_op`, and `Demo` never consults
      its flags. */
  function GetAction(p: Policy, obs: Observation, choice: Choice): (r: Result<FunctionCall>)
    ensures p.Ostrich? ==> r == Ok(NoOp)
  {
    match p
    case Ostrich => Ok(NoOp)
    case Demo(_, _) => Decide(obs, choice, Queued.Value())
  }

  /** `Demo` decides the same whatever its flags hold. */
  lemma DemoIgnoresFlags(p: Policy, obs: Observation, choice: Choice)
    requires p.Demo?
    ensures GetAction(p, obs, choice) == GetAction(NewDemo, obs, choice)
  {
  }

  // The four commands `Demo` asks `action_cmd` for.

  lemma TrainCmd(units: Units, timing: string)
    ensures ActionCmd("train_marine", units, NoTarget, timing) == Ok(Quick(TrainMarineQuick, timing, units))
  {
    assert ParseActionType("train_marine") == Some(TrainMarine);
  }

  lemma HarvestCmd(units: Units, u: Unit, timing: string)
    ensures ActionCmd("harvest", units, UnitTarget(u), timing) == Ok(Targeted(HarvestGatherUnit, "queued", units, TagArg(u.tag)))
  {
    assert ParseActionType("harvest") == Some(Harvest);
  }

  lemma BuildCmd(units: Units, timing: string)
    ensures ActionCmd("build_barracks", units, TupleTarget([12.5, 15.5]), timing) ==
      Ok(Targeted(BuildBarracksPt, timing, units, PointArg(Point(12.5, 15.5))))
  {
    assert ParseActionType("build_barracks") == Some(BuildBarracks);
  }

  lemma AttackCmd(units: Units, u: Unit, timing: string)
    ensures ActionCmd("attack", units, UnitTarget(u), timing) == Ok(Targeted(AttackUnit, timing, Many(Listed(units)), TagArg(u.tag)))
  {
    assert ParseActionType("attack") == Some(Attack);
  }

  /** Which guard of the rule holds, in terms of the selections it builds. */
  lemma Selections(obs: Observation)
    ensures CanTrain(obs) <==> |Map(TagOf, Filter(obs.friendlyUnits, IsBarracks))| > 0 && obs.mineralCount >= 50
    ensures HasScv(obs) <==> Filter(obs.friendlyUnits, IsScv) != []
    ensures HasMineralField(obs) <==> Filter(obs.neutralUnits, IsMineralField) != []
    ensures CanTrain(obs) ==>
      && IsFirst(obs.friendlyUnits, IsBarracks, Filter(obs.friendlyUnits, IsBarracks)[0])
      && Map(TagOf, Filter(obs.friendlyUnits, IsBarracks))[0] == Filter(obs.friendlyUnits, IsBarracks)[0].tag
    ensures Filter(obs.friendlyUnits, IsScv) != [] ==> IsFirst(obs.friendlyUnits, IsScv, Filter(obs.friendlyUnits, IsScv)[0])
    ensures Filter(obs.neutralUnits, IsMineralField) != [] ==>
      IsFirst(obs.neutralUnits, IsMineralField, Filter(obs.neutralUnits, IsMineralField)[0])
  {
    FilterNonEmpty(obs.friendlyUnits, IsBarracks);
    FilterNonEmpty(obs.friendlyUnits, IsScv);
    FilterNonEmpty(obs.neutralUnits, IsMineralField);
    if CanTrain(obs) {
      FilterHeadIsFirst(obs.friendlyUnits, IsBarracks);
    }
    if Filter(obs.friendlyUnits, IsScv) != [] {
      FilterHeadIsFirst(obs.friendlyUnits, IsScv);
    }
    if Filter(obs.neutralUnits, IsMineralField) != [] {
      FilterHeadIsFirst(obs.neutralUnits, IsMineralField);
    }
  }

  /** With a barracks and 50 minerals, the first barracks trains a marine,
      whatever the random pick. */
  lemma TrainWhenPossible(obs: Observation, choice: Choice, trainTiming: string)
    requires CanTrain(obs)
    ensures exists b :: (IsFirst(obs.friendlyUnits, IsBarracks, b) &&
      Decide(obs, choice, trainTiming) == Ok(Quick(TrainMarineQuick, trainTiming, Scalar(b.tag))))
  {
    Selections(obs);
    FilterHeadIsFirst(obs.friendlyUnits, IsBarracks);
    var b := Filter(obs.friendlyUnits, IsBarracks)[0];
    assert Map(TagOf, Filter(obs.friendlyUnits, IsBarracks))[0] == b.tag;
    TrainCmd(Scalar(b.tag), trainTiming);
    assert Decide(obs, choice, trainTiming) == Ok(Quick(TrainMarineQuick, trainTiming, Scalar(b.tag)));
  }

  /** Harvest: the first SCV gathers, queued, from the first mineral field;
      without an SCV or a mineral field the rule fails. */
  lemma HarvestBranch(obs: Observation, trainTiming: string)
    requires !CanTrain(obs)
    ensures var r := Decide(obs, HarvestChoice, trainTiming);
      && (r.Ok? <==> HasScv(obs) && HasMineralField(obs))
      && (r.Ok? ==> exists s, m :: (IsFirst(obs.friendlyUnits, IsScv, s) && IsFirst(obs.neutralUnits, IsMineralField, m) &&
            r.value == Targeted(HarvestGatherUnit, "queued", Scalar(s.tag), TagArg(m.tag))))
  {
    Selections(obs);
    var scvs, fields := Filter(obs.friendlyUnits, IsScv), Filter(obs.neutralUnits, IsMineralField);
    if scvs != [] && fields != [] {
      HarvestCmd(Scalar(scvs[0].tag), fields[0], "now");
      assert Decide(obs, HarvestChoice, trainTiming) == Ok(Targeted(HarvestGatherUnit, "queued", Scalar(scvs[0].tag), TagArg(fields[0].tag)));
    }
  }

  /** Build: only with 150 minerals, by the first SCV at the fixed point
      (12.5, 15.5); below 150 the rule falls through to `no_op`. */
  lemma BuildBarracksBranch(obs: Observation, trainTiming: string)
    requires !CanTrain(obs)
    ensures var r := Decide(obs, BuildBarracksChoice, trainTiming);
      && (obs.mineralCount < 150 ==> r == Ok(NoOp))
      && (obs.mineralCount >= 150 ==> (r.Ok? <==> HasScv(obs)))
      && (obs.mineralCount >= 150 && r.Ok? ==> exists s :: (IsFirst(obs.friendlyUnits, IsScv, s) &&
            r.value == Targeted(BuildBarracksPt, "now", Scalar(s.tag), PointArg(Point(12.5, 15.5)))))
  {
    Selections(obs);
    var scvs := Filter(obs.friendlyUnits, IsScv);
    if scvs != [] && obs.mineralCount >= 150 {
      BuildCmd(Scalar(scvs[0].tag), "now");
      assert Decide(obs, BuildBarracksChoice, trainTiming) == Ok(Targeted(BuildBarracksPt, "now", Scalar(scvs[0].tag), PointArg(Point(12.5, 15.5))));
    }
  }

  /** Attack: only when some enemy is visible, the first SCV attacks the
      first enemy; with no enemy the rule falls through to `no_op`. */
  lemma AttackBranch(obs: Observation, trainTiming: string)
    requires !CanTrain(obs)
    ensures var r := Decide(obs, AttackChoice, trainTiming);
      && (obs.enemyUnits == [] ==> r == Ok(NoOp))
      && (obs.enemyUnits != [] ==> (r.Ok? <==> HasScv(obs)))
      && (obs.enemyUnits != [] && r.Ok? ==> exists s :: (IsFirst(obs.friendlyUnits, IsScv, s) &&
            r.value == Targeted(AttackUnit, "now", Many([s.tag]), TagArg(obs.enemyUnits[0].tag))))
  {
    Selections(obs);
    var scvs := Filter(obs.friendlyUnits, IsScv);
    if scvs != [] && obs.enemyUnits != [] {
      AttackCmd(Scalar(scvs[0].tag), obs.enemyUnits[0], "now");
      assert Decide(obs, AttackChoice, trainTiming) == Ok(Targeted(AttackUnit, "now", Many([scvs[0].tag]), TagArg(obs.enemyUnits[0].tag)));
    }
  }

  /** `no_op` comes out exactly when no branch fires: no marine to train and
      either a build pick below 150 minerals or an attack pick with no enemy. */
  lemma NoOpExactlyOnFallThrough(obs: Observation, choice: Choice, trainTiming: string)
    ensures Decide(obs, choice, trainTiming) == Ok(NoOp) <==>
      !CanTrain(obs) &&
      ((choice == BuildBarracksChoice && obs.mineralCount < 150) || (choice == AttackChoice && obs.enemyUnits == []))
  {
    if CanTrain(obs) {
      TrainWhenPossible(obs, choice, trainTiming);
    } else if choice == HarvestChoice {
      HarvestBranch(obs, trainTiming);
    } else if choice == BuildBarracksChoice {
      BuildBarracksBranch(obs, trainTiming);
    } else {
      AttackBranch(obs, trainTiming);
    }
  }

  /** As written, the marine order carries "queue", which names no member of
      `Timing`. */
  lemma AsWrittenTrainTimingInvalid(obs: Observation, choice: Choice)
    requires CanTrain(obs)
    ensures var r := GetActionAsWritten(obs, choice);
      r.Ok? && r.value.Quick? && r.value.fn == TrainMarineQuick && !IsTiming(r.value.timing)
  {
    TrainWhenPossible(obs, choice, TrainTimingAsWritten);
  }

  /** Every command either policy builds carries a valid timing. */
  lemma GetActionTimingValid(p: Policy, obs: Observation, choice: Choice)
    ensures var r := GetAction(p, obs, choice);
      r.Ok? && !r.value.NoOp? ==> IsTiming(r.value.timing)
  {
    if p.Demo? {
      if CanTrain(obs) {
        TrainWhenPossible(obs, choice, Queued.Value());
      } else if choice == HarvestChoice {
        HarvestBranch(obs, Queued.Value());
      } else if choice == BuildBarracksChoice {
        BuildBarracksBranch(obs, Queued.Value());
      } else {
        AttackBranch(obs, Queued.Value());
      }
    }
  }

  /** 200 minerals and one barracks (tag 7): the marine is ordered on 7, queued. */
  lemma ScenarioTrain(choice: Choice)
    ensures var barracks := Unit(7, BarracksType, PlayerSelf, 1000, 0, 0.0, 0.0, 1.0);
      GetAction(NewDemo, Observation(200, 15, 1, [barracks], [], []), choice) ==
        Ok(Quick(TrainMarineQuick, "queued", Scalar(7)))
  {
    var barracks := Unit(7, BarracksType, PlayerSelf, 1000, 0, 0.0, 0.0, 1.0);
    TrainCmd(Scalar(7), "queued");
    assert Filter([barracks], IsBarracks) == [barracks];
  }

  /** The same observation under the rule as written: the marine is ordered
      on 7 with timing "queue". */
  lemma ScenarioTrainAsWritten(choice: Choice)
    ensures var barracks := Unit(7, BarracksType, PlayerSelf, 1000, 0, 0.0, 0.0, 1.0);
      GetActionAsWritten(Observation(200, 15, 1, [barracks], [], []), choice) ==
        Ok(Quick(TrainMarineQuick, "queue", Scalar(7)))
  {
    var barracks := Unit(7, BarracksType, PlayerSelf, 1000, 0, 0.0, 0.0, 1.0);
    TrainCmd(Scalar(7), "queue");
    assert Filter([barracks], IsBarracks) == [barracks];
  }

  /** 10 minerals, an SCV (tag 3), an enemy (tag 9) and a mineral field (tag 5),
      attack picked: the SCV attacks unit 9 with the unit-targeted command. */
  lemma ScenarioAttack()
    ensures var scv := Unit(3, ScvType, PlayerSelf, 45, 0, 0.0, 0.0, 1.0);
      var enemy := Unit(9, MarineType, PlayerEnemy, 45, 0, 0.0, 0.0, 1.0);
      var field := Unit(5, MineralFieldType, PlayerNeutral, 0, 0, 0.0, 0.0, 1.0);
      GetAction(NewDemo, Observation(10, 15, 1, [scv], [enemy], [field]), AttackChoice) ==
        Ok(Targeted(AttackUnit, "now", Many([3]), TagArg(9)))
  {
    var scv := Unit(3, ScvType, PlayerSelf, 45, 0, 0.0, 0.0, 1.0);
    var enemy := Unit(9, MarineType, PlayerEnemy, 45, 0, 0.0, 0.0, 1.0);
    AttackCmd(Scalar(3), enemy, "now");
    assert Filter([scv], IsScv) == [scv];
    assert Filter([scv], IsBarracks) == [];
  }
}
