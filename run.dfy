/** `build_players`: turns the player declarations into the agent list and
    the engine's player list. */
module Run {
  import opened Seqs
  import opened Engine

  /** The `type` of a declaration. `Unlisted` is a value that is none of the
      three members: the dataclass does not enforce its annotation. */
  datatype PlayerType = Local | Remote | Bot | Unlisted

  /** A policy class that a local player names. */
  datatype PolicyClass = OstrichClass | DemoClass

  datatype Race = Terran | Zerg | Protoss | RandomRace
  datatype Difficulty = VeryEasy | Easy | Medium | MediumHard | Hard | Harder | VeryHard

  /** `race` and `difficulty` are class attributes of `PlayerConfig`, not
      fields: every configuration has these two. */
  const ConfigRace: Race := Terran
  const ConfigDifficulty: Difficulty := Easy

  datatype PlayerConfig = PlayerConfig(kind: PlayerType, name: string, policy: Option<PolicyClass>)

  /** An agent as `build_players` constructs it, with the arguments it passes. */
  datatype Agent = LocalAgent(policy: Option<PolicyClass>, name: string) | RemoteAgent(name: string)

  /** An entry of the engine's player list: `sc2_env.Bot` or `sc2_env.Agent`. */
  datatype Player = BotPlayer(race: Race, difficulty: Difficulty) | AgentPlayer(race: Race, name: string)

  datatype Roster = Roster(agents: seq<Agent>, players: seq<Player>)

  /** The declaration `build_players` refuses: a local player without a policy. */
  predicate MissingPolicy(cfg: PlayerConfig)
  {
    cfg.kind == Local && cfg.policy.None?
  }

  predicate NeedsAgent(cfg: PlayerConfig) { cfg.kind != Bot }
  predicate IsBot(cfg: PlayerConfig) { cfg.kind == Bot }

  /** The player entry a declaration contributes. */
  function PlayerFor(cfg: PlayerConfig): Player
  {
    if cfg.kind == Bot then BotPlayer(ConfigRace, ConfigDifficulty) else AgentPlayer(ConfigRace, cfg.name)
  }

  /** The agent a non-bot declaration contributes; anything not local is remote. */
  function AgentFor(cfg: PlayerConfig): Agent
  {
    if cfg.kind == Local then LocalAgent(cfg.policy, cfg.name) else RemoteAgent(cfg.name)
  }

  /** The player list: one entry per declaration, in declaration order. */
  function Players(configs: seq<PlayerConfig>): (ps: seq<Player>)
    ensures |ps| == |configs|
    ensures forall i :: 0 <= i < |configs| ==> ps[i] == PlayerFor(configs[i])
  {
    Map(PlayerFor, configs)
  }

  /** The agent list: one entry per non-bot declaration, in declaration order. */
  function Agents(configs: seq<PlayerConfig>): seq<Agent>
  {
    Map(AgentFor, Filter(configs, NeedsAgent))
  }

  /** One more declaration adds exactly one player, and one agent unless it is a bot. */
  lemma RosterStep(configs: seq<PlayerConfig>, cfg: PlayerConfig)
    ensures Players(configs + [cfg]) == Players(configs) + [PlayerFor(cfg)]
    ensures Agents(configs + [cfg]) == Agents(configs) + (if cfg.kind == Bot then [] else [AgentFor(cfg)])
  {
    MapAppend(PlayerFor, configs, [cfg]);
    FilterAppend(configs, [cfg], NeedsAgent);
    MapAppend(AgentFor, Filter(configs, NeedsAgent), Filter([cfg], NeedsAgent));
  }

  /** `RosterStep` at position `i` of the declarations. */
  lemma RosterStepAt(configs: seq<PlayerConfig>, i: nat)
    requires i < |configs|
    ensures Players(configs[..i + 1]) == Players(configs[..i]) + [PlayerFor(configs[i])]
    ensures Agents(configs[..i + 1]) == Agents(configs[..i]) + (if configs[i].kind == Bot then [] else [AgentFor(configs[i])])
  {
    assert configs[..i + 1] == configs[..i] + [configs[i]];
    RosterStep(configs[..i], configs[i]);
  }

  /** Lengths: as many players as declarations, as many agents as non-bot
      declarations, and every agent of a valid roster has its policy. */
  lemma RosterCounts(configs: seq<PlayerConfig>)
    requires forall i :: 0 <= i < |configs| ==> !MissingPolicy(configs[i])
    ensures |Players(configs)| == |configs|
    ensures |Agents(configs)| + |Filter(configs, IsBot)| == |configs|
    ensures forall a :: a in Agents(configs) && a.LocalAgent? ==> a.policy.Some?
  {
    FilterComplementCount(configs, NeedsAgent, IsBot);
    var kept := Filter(configs, NeedsAgent);
    forall a | a in Agents(configs) && a.LocalAgent? ensures a.policy.Some? {
      var k :| 0 <= k < |kept| && Agents(configs)[k] == a;
      assert kept[k] in configs;
    }
  }

  /** `build_players`: fails exactly when some local player lacks a policy;
      otherwise returns the player list and the agent list. */
  method BuildPlayers(configs: seq<PlayerConfig>) returns (r: Result<Roster>)
    ensures r.Err? <==> exists i :: 0 <= i < |configs| && MissingPolicy(configs[i])
    ensures r.Err? ==> r.error == PolicyRequired
    ensures r.Ok? ==> r.value.players == Players(configs) && r.value.agents == Agents(configs)
  {
    var agents: seq<Agent> := [];
    var players: seq<Player> := [];
    for i := 0 to |configs|
      invariant forall j :: 0 <= j < i ==> !MissingPolicy(configs[j])
      invariant players == Players(configs[..i])
      invariant agents == Agents(configs[..i])
    {
      var cfg := configs[i];
      RosterStepAt(configs, i);
      if cfg.kind == Bot {
        players := players + [BotPlayer(ConfigRace, ConfigDifficulty)];
      } else {
        var agent: Agent;
        if cfg.kind == Local {
          if cfg.policy.None? {
            assert MissingPolicy(configs[i]);
            return Err(PolicyRequired);
          }
          agent := LocalAgent(cfg.policy, cfg.name);
        } else {
          agent := RemoteAgent(cfg.name);
        }
        agents := agents + [agent];
        players := players + [AgentPlayer(ConfigRace, cfg.name)];
      }
    }
    assert configs[..|configs|] == configs;
    return Ok(Roster(agents, players));
  }
}
