/**
 * The event handlers of the community game server: the player record the
 * handlers update in place, the round set-up, the tick enforcement loop,
 * join/spawn overrides, kill/death accounting and chat-command dispatch.
 * Every call on the runtime is appended to the server's request trace.
 */
module GameServer {
  import opened Wrappers
  import opened Runtime
  import opened Counters
  import Chat
  import Commands

  /** The one identity that is granted the Admin role and the admin flag. */
  const PrivilegedSteamId: ulong := 76561198395073327

  const PromotionalRank := 200
  const PromotionalPrestige := 10
  const FullHealth := 100

  const StartMap := "Azagor"
  const StartGamemode := "TDM"

  /** The modifier tuple the tick handler re-asserts: 1.5f, 1.25f, 0f, no spectating, 1.25f, respawn time 1. */
  const TickModifications := Modifications(
    Float32(0x3FC0_0000),
    Float32(0x3FA0_0000),
    Float32(0x0000_0000),
    false,
    Float32(0x3FA0_0000),
    1)

  /** A connected player as this server sees it: the runtime's player plus the server's own fields. */
  class MyPlayer {
    const steamID: ulong
    var isAdmin: bool
    var kills: int32
    var deaths: int32
    var spawnLoadout: PlayerLoadout
    /** Owned by the runtime's player object; the tick handler writes it. */
    var modifications: Modifications

    constructor (steamID: ulong, modifications: Modifications)
      ensures this.steamID == steamID && this.modifications == modifications
      ensures !isAdmin && kills == 0 && deaths == 0 && spawnLoadout == PlayerLoadout([])
    {
      this.steamID := steamID;
      this.modifications := modifications;
      isAdmin := false;
      kills := 0;
      deaths := 0;
      spawnLoadout := PlayerLoadout([]);
    }
  }

  /** The progression a joining player presents, which the join handler overrides in place. */
  class PlayerStats {
    var rank: int
    var prestige: int
    var roles: Roles

    constructor (rank: int, prestige: int, roles: Roles)
      ensures this.rank == rank && this.prestige == prestige && this.roles == roles
    {
      this.rank := rank;
      this.prestige := prestige;
      this.roles := roles;
    }
  }

  class MyGameServer {
    /** The static command table, in registration order. */
    const apiCommands: seq<Commands.ApiCommand>

    var playerCollision: bool
    var mapRotation: seq<string>
    var gamemodeRotation: seq<string>
    var state: GameState
    var secondsLeft: int
    /** The players the runtime reports as connected; the runtime maintains this list. */
    var allPlayers: seq<MyPlayer>
    /** Every call made on the runtime or the command layer, oldest first. */
    var requests: seq<Request>

    /** A server over the runtime's current settings, with a command table registered in the order Help, Stats, Kill, Start. */
    constructor (apiCommands: seq<Commands.ApiCommand>, playerCollision: bool,
                 mapRotation: seq<string>, gamemodeRotation: seq<string>,
                 state: GameState, secondsLeft: int, allPlayers: seq<MyPlayer>)
      requires |apiCommands| == |Commands.RegistrationOrder|
      requires forall i :: 0 <= i < |apiCommands| ==> apiCommands[i].kind == Commands.RegistrationOrder[i]
      ensures this.apiCommands == apiCommands && this.playerCollision == playerCollision
      ensures this.mapRotation == mapRotation && this.gamemodeRotation == gamemodeRotation
      ensures this.state == state && this.secondsLeft == secondsLeft
      ensures this.allPlayers == allPlayers && requests == []
    {
      this.apiCommands := apiCommands;
      this.playerCollision := playerCollision;
      this.mapRotation := mapRotation;
      this.gamemodeRotation := gamemodeRotation;
      this.state := state;
      this.secondsLeft := secondsLeft;
      this.allPlayers := allPlayers;
      requests := [];
    }

    /**
     * Round set-up: collision on, both rotations replaced by a single entry,
     * a force-start requested while waiting for players, and the countdown
     * cut to one second while counting down. The force-start is a request to
     * the runtime: it does not change the state read by the second test.
     */
    method SetupServer()
      modifies this`playerCollision, this`mapRotation, this`gamemodeRotation, this`requests, this`secondsLeft
      ensures playerCollision
      ensures mapRotation == [StartMap] && gamemodeRotation == [StartGamemode]
      ensures requests == old(requests) + (if state == WaitingForPlayers then [ForceStartGame] else [])
      ensures secondsLeft == if state == CountingDown then 1 else old(secondsLeft)
    {
      playerCollision := true;
      mapRotation := [];
      mapRotation := mapRotation + [StartMap];
      gamemodeRotation := [];
      gamemodeRotation := gamemodeRotation + [StartGamemode];

      if state == WaitingForPlayers {
        requests := requests + [ForceStartGame];
      }

      if state == CountingDown {
        secondsLeft := 1;
      }
    }

    /** The modifier tuples of the connected players, in list order. */
    ghost function PlayerModifications(): (ms: seq<Modifications>)
      reads this, allPlayers
      ensures |ms| == |allPlayers|
    {
      seq(|allPlayers|, i reads this, allPlayers requires 0 <= i < |allPlayers| => allPlayers[i].modifications)
    }

    /**
     * The tick handler: collision on, and the fixed modifier tuple written
     * into every connected player. The outcome does not depend on the
     * modifiers before the call, so a second tick changes nothing.
     */
    method OnTick()
      modifies this`playerCollision, allPlayers
      ensures playerCollision
      ensures forall p :: p in allPlayers ==> p.modifications == TickModifications
      ensures forall p :: p in allPlayers ==>
        p.isAdmin == old(p.isAdmin) && p.kills == old(p.kills) && p.deaths == old(p.deaths) &&
        p.spawnLoadout == old(p.spawnLoadout)
      ensures PlayerModifications() == seq(|allPlayers|, _ => TickModifications)
    {
      playerCollision := true;
      for i := 0 to |allPlayers|
        invariant playerCollision
        invariant forall k :: 0 <= k < i ==> allPlayers[k].modifications == TickModifications
        invariant forall p :: p in allPlayers ==>
          p.isAdmin == old(p.isAdmin) && p.kills == old(p.kills) && p.deaths == old(p.deaths) &&
          p.spawnLoadout == old(p.spawnLoadout)
      {
        var player := allPlayers[i];
        player.modifications := player.modifications.(jumpHeightMultiplier := Float32(0x3FC0_0000));
        player.modifications := player.modifications.(runningSpeedMultiplier := Float32(0x3FA0_0000));
        player.modifications := player.modifications.(fallDamageMultiplier := Float32(0x0000_0000));
        player.modifications := player.modifications.(canSpectate := false);
        player.modifications := player.modifications.(reloadSpeedMultiplier := Float32(0x3FA0_0000));
        player.modifications := player.modifications.(respawnTime := 1);
      }
    }

    /**
     * The joining handler: the presented rank and prestige are overwritten,
     * the privileged identity gets exactly the Admin role, and a force-start
     * is requested while the round waits for players.
     */
    method OnPlayerJoiningToServer(steamID: ulong, stats: PlayerStats)
      modifies stats, this`requests
      ensures stats.rank == PromotionalRank && stats.prestige == PromotionalPrestige
      ensures stats.roles == if steamID == PrivilegedSteamId then AdminRoles else old(stats.roles)
      ensures requests == old(requests) + (if state == WaitingForPlayers then [ForceStartGame] else [])
    {
      stats.rank := PromotionalRank;
      stats.prestige := PromotionalPrestige;

      if steamID == PrivilegedSteamId {
        stats.roles := AdminRoles;
      }

      if state == WaitingForPlayers {
        requests := requests + [ForceStartGame];
      }
    }

    /** The connected handler: set-up after the console line. */
    method OnConnected()
      modifies this`playerCollision, this`mapRotation, this`gamemodeRotation, this`requests, this`secondsLeft
      ensures playerCollision
      ensures mapRotation == [StartMap] && gamemodeRotation == [StartGamemode]
      ensures requests == old(requests) + (if state == WaitingForPlayers then [ForceStartGame] else [])
      ensures secondsLeft == if state == CountingDown then 1 else old(secondsLeft)
    {
      SetupServer();
    }

    /** The reconnected handler: the same set-up again. */
    method OnReconnected()
      modifies this`playerCollision, this`mapRotation, this`gamemodeRotation, this`requests, this`secondsLeft
      ensures playerCollision
      ensures mapRotation == [StartMap] && gamemodeRotation == [StartGamemode]
      ensures requests == old(requests) + (if state == WaitingForPlayers then [ForceStartGame] else [])
      ensures secondsLeft == if state == CountingDown then 1 else old(secondsLeft)
    {
      SetupServer();
    }

    /** A player connected: one broadcast. */
    method OnPlayerConnected(player: MyPlayer)
      modifies this`requests
      ensures requests == old(requests) + [SayToChat(PlayerJoinedNotice(player.steamID))]
    {
      requests := requests + [SayToChat(PlayerJoinedNotice(player.steamID))];
    }

    /** A player disconnected: one broadcast. */
    method OnPlayerDisconnected(player: MyPlayer)
      modifies this`requests
      ensures requests == old(requests) + [SayToChat(PlayerLeftNotice(player.steamID))]
    {
      requests := requests + [SayToChat(PlayerLeftNotice(player.steamID))];
    }

    /**
     * Kill/death accounting. Killer and victim are compared as objects. A
     * self-kill credits one death and heals no one; otherwise the killer is
     * credited a kill and healed to full, and the victim a death. Only these
     * two counters of these two players change.
     */
    method OnAPlayerDownedAnotherPlayer(killer: MyPlayer, victim: MyPlayer)
      modifies killer`kills, victim`deaths, this`requests
      ensures killer == victim ==>
        victim.deaths == Increment(old(victim.deaths)) && victim.kills == old(victim.kills) &&
        requests == old(requests) + [SayToChat(SelfKillNotice(killer.steamID)), KillPlayer(victim.steamID)]
      ensures killer != victim ==>
        killer.kills == Increment(old(killer.kills)) && killer.deaths == old(killer.deaths) &&
        victim.deaths == Increment(old(victim.deaths)) && victim.kills == old(victim.kills) &&
        requests == old(requests) + [SayToChat(KillNotice(killer.steamID, victim.steamID)),
                                     KillPlayer(victim.steamID), SetHP(killer.steamID, FullHealth)]
      ensures forall p :: p in allPlayers && p != killer && p != victim ==>
        p.kills == old(p.kills) && p.deaths == old(p.deaths)
    {
      if killer == victim {
        requests := requests + [SayToChat(SelfKillNotice(killer.steamID))];
        requests := requests + [KillPlayer(victim.steamID)];
        victim.deaths := Increment(victim.deaths);
      } else {
        requests := requests + [SayToChat(KillNotice(killer.steamID, victim.steamID))];
        requests := requests + [KillPlayer(victim.steamID)];
        requests := requests + [SetHP(killer.steamID, FullHealth)];
        killer.kills := Increment(killer.kills);
        victim.deaths := Increment(victim.deaths);
      }
    }

    /** The spawning handler: the requested loadout is recorded and the request returned unchanged. */
    method OnPlayerSpawning(player: MyPlayer, request: SpawnRequest) returns (r: SpawnRequest)
      modifies player`spawnLoadout
      ensures player.spawnLoadout == request.loadout
      ensures r == request
    {
      player.spawnLoadout := request.loadout;
      return request;
    }

    /**
     * The chat handler. The privileged identity's admin flag is set (and
     * never cleared); then the decision of Commands.Dispatch is carried out:
     * the result is false exactly when a command ran, and the trace gains the
     * command object built for a matched entry and, when it runs, one handler
     * call.
     */
    method OnPlayerTypedMessage(player: MyPlayer, channel: ChatChannel, msg: string) returns (allow: bool)
      modifies player`isAdmin, this`requests
      ensures player.isAdmin == (old(player.isAdmin) || player.steamID == PrivilegedSteamId)
      ensures allow == Commands.Dispatch(apiCommands, player.isAdmin, msg).AllowMessage()
      ensures requests == old(requests) +
        Commands.Calls(Commands.Dispatch(apiCommands, player.isAdmin, msg), player.steamID, channel, msg)
    {
      if player.steamID == PrivilegedSteamId {
        player.isAdmin := true;
      }

      var cmd := Chat.CommandToken(msg);
      if !Chat.IsCommandToken(cmd) {
        return true;
      }

      var found := Commands.Resolve(apiCommands, cmd);
      if found.Some? {
        var i := found.value;
        requests := requests + [BuildChatCommand(i, player.steamID, channel, msg)];
        if apiCommands[i].adminOnly && !player.isAdmin {
          return true;
        }
        requests := requests + [HandleCommand(i, player.steamID)];
        return false;
      }

      return true;
    }
  }

  /**
   * Two ticks leave the same state as one: the collision flag and the
   * modifier tuples after the second tick are those after the first.
   */
  method TickTwiceIsTickOnce(server: MyGameServer) returns (ghost afterOnce: seq<Modifications>)
    modifies server`playerCollision, server.allPlayers
    ensures server.playerCollision
    ensures server.PlayerModifications() == afterOnce
    ensures afterOnce == seq(|server.allPlayers|, _ => TickModifications)
  {
    server.OnTick();
    afterOnce := server.PlayerModifications();
    server.OnTick();
  }

  /**
   * Below int.MaxValue, one downed-player event keeps the counters of the two
   * players non-negative and never lowers them: the kill credited goes up by
   * one and every other counter stays.
   */
  method DownedKeepsCountersNonNegative(server: MyGameServer, killer: MyPlayer, victim: MyPlayer)
    requires 0 <= killer.kills < MaxInt32 && 0 <= killer.deaths < MaxInt32
    requires 0 <= victim.kills < MaxInt32 && 0 <= victim.deaths < MaxInt32
    modifies killer`kills, victim`deaths, server`requests
    ensures 0 <= killer.kills && 0 <= killer.deaths && 0 <= victim.kills && 0 <= victim.deaths
    ensures old(killer.kills) <= killer.kills && old(killer.deaths) <= killer.deaths
    ensures old(victim.kills) <= victim.kills && old(victim.deaths) <= victim.deaths
    ensures victim.deaths as int == old(victim.deaths) as int + 1
    ensures killer != victim ==> killer.kills as int == old(killer.kills) as int + 1
    ensures killer == victim ==> killer.kills == old(killer.kills)
  {
    IncrementBelowMax(victim.deaths);
    IncrementBelowMax(killer.kills);
    server.OnAPlayerDownedAnotherPlayer(killer, victim);
  }
}
