/**
 * Values exchanged with the external game-server runtime. Their behaviour
 * lives in the runtime; here they are plain values, and every call this
 * module makes on the runtime is recorded as a Request.
 */
module Runtime {

  /** A 64-bit Steam identity (`ulong`). */
  type ulong = x: int | 0 <= x < 0x1_0000_0000_0000_0000

  /** The round state the runtime reports. */
  datatype GameState = WaitingForPlayers | CountingDown | Playing

  /** A 32-bit float, kept as its IEEE-754 bit pattern; no arithmetic is done on it. */
  datatype Float32 = Float32(bits: bv32)

  /** The per-player modifier fields that the tick handler writes. */
  datatype Modifications = Modifications(
    jumpHeightMultiplier: Float32,
    runningSpeedMultiplier: Float32,
    fallDamageMultiplier: Float32,
    canSpectate: bool,
    reloadSpeedMultiplier: Float32,
    respawnTime: int)

  /** One role flag of the runtime: Admin, or another flag the runtime defines. */
  datatype Role = Admin | OtherRole(flag: nat)

  /** The role flags a player's stats carry; assigning `Roles.Admin` makes it exactly {Admin}. */
  type Roles = set<Role>

  const AdminRoles: Roles := {Admin}

  /** A player's loadout; its contents belong to the runtime and are opaque here. */
  datatype PlayerLoadout = PlayerLoadout(contents: seq<nat>)

  /** The arguments of a spawn request: the loadout, and the rest of the request, opaque here. */
  datatype SpawnRequest = SpawnRequest(loadout: PlayerLoadout, details: seq<nat>)

  /** The chat channel a message was typed in; opaque here. */
  datatype ChatChannel = ChatChannel(code: nat)

  /** The broadcasts the server sends; their formatted text is not modelled. */
  datatype Notice =
    | PlayerJoinedNotice(player: ulong)
    | PlayerLeftNotice(player: ulong)
    | SelfKillNotice(player: ulong)
    | KillNotice(killer: ulong, victim: ulong)

  /** One outbound call on the runtime or on the command layer, in the order it is made. */
  datatype Request =
    | SayToChat(notice: Notice)
    | ForceStartGame
    | KillPlayer(target: ulong)
    | SetHP(target: ulong, hp: int)
    | BuildChatCommand(command: nat, sender: ulong, channel: ChatChannel, msg: string)
    | HandleCommand(command: nat, sender: ulong)
}
