# BattleBit community server: event handlers, in Dafny

This project models the game-server side of a BattleBit community server
(`MyGameServer` in `Program.cs`). It reacts to events from the game runtime
and sends requests back. Five pieces are modelled:

- **Chat command dispatch.** The first `" "`-separated token of a message is
  lowercased and tested for the `/` prefix. It is then looked up in the
  static `ApiCommands` table, where the first entry whose primary string or
  aliases contain the token wins. An admin gate follows, and then the
  command handler is called.
- **Kill/death accounting.** The `Kills`/`Deaths` counters of `MyPlayer`
  records are updated in place, and the outbound `Kill()`/`SetHP(100)`
  requests are recorded.
- **Round set-up.** This covers `SetupServer` and the connected and
  reconnected events that call it. It sets collision, replaces both rotation
  lists, force-starts while waiting for players, and shortens the countdown.
- **Tick enforcement.** Every tick turns collision on and writes one fixed
  modifier tuple into every connected player. The result does not depend on
  the state before, so a second tick changes nothing.
- **Join and spawn overrides.** Joining overwrites rank and prestige and
  grants Admin to one identity. Spawning records the requested loadout.

Modules:

- `Wrappers` holds `Option`.
- `Runtime` holds the values exchanged with the runtime. Every call made on
  the runtime is recorded as a `Request` in the server's `requests` trace.
  This covers `SayToChat`, `ForceStartGame`, `Kill`, `SetHP`,
  `ApiCommand.ChatCommand` and `CommandHandler.handleCommand`.
- `Counters` holds the C# `int` counters as `int32`, with two's-complement
  `++`.
- `Chat` holds token extraction.
- `Commands` holds the command table, the lookup loop and the dispatch
  decision with its lemmas.
- `GameServer` holds the classes `MyPlayer`, `PlayerStats` and
  `MyGameServer`, whose methods update fields in place.

The model follows the code in these details:

- The message is split on a single space, not on a run of whitespace. A
  leading space therefore gives an empty token, and the message is ordinary
  chat.
- Only the token is lowercased. `CommandString` and the aliases are compared
  as stored, so the match is case-insensitive only for strings that are
  stored in lower case. `Commands.UpperCaseCommandStringNeverMatches` and
  `Commands.AnyCasingSelects` state both sides of this for the primary
  string; `Commands.UpperCaseAliasNeverMatches` and
  `Commands.AnyCasingSelectsAlias` state them for the aliases.
- An admin-only command typed by a non-admin makes the handler return
  `true`. The runtime therefore shows the message as chat; it is not
  suppressed. The command object is built before the admin check, which
  `Commands.Calls` records.
- `Kills` and `Deaths` are C# `int` fields incremented with `++`, so they
  wrap from int.MaxValue to int.MinValue. They stay non-negative and
  non-decreasing only while below int.MaxValue:
  `GameServer.DownedKeepsCountersNonNegative` proves this for one event,
  and `Counters.IncrementWrapsAtMax` shows the wrap.
- `ForceStartGame` is a request. The state that `SetupServer` reads at its
  second test is the state read at its first test.

## Model

| member | source | states |
|---|---|---|
| `Counters.Increment` | Program.cs:135-143 | `Kills++`/`Deaths++` on a 32-bit int: the result is the old value plus one, modulo 2^32 |
| `Counters.IncrementBelowMax` | Program.cs:135-143 | below int.MaxValue an increment adds exactly one, so a non-negative counter stays non-negative and strictly grows |
| `Counters.IncrementWrapsAtMax` | Program.cs:37-38 | at int.MaxValue an increment wraps to int.MinValue (negative) |
| `Chat.FirstToken` | Program.cs:158 | `msg.Split(" ")[0]`: a prefix of the message with no space in it, that either is the whole message or is followed by a space |
| `Chat.FirstTokenUnique` | Program.cs:158 | those three properties determine the first token uniquely |
| `Chat.FirstTokenOfWord` | Program.cs:158 | a space-free word followed by nothing or by a space is the message's first token |
| `Chat.LowerChar` | Program.cs:159 | one character lowercased: never an upper-case letter; a letter moves by 32, anything else is kept |
| `Chat.ToLower` | Program.cs:159 | `ToLower()` keeps the length and lowercases each character in place |
| `Chat.ToLowerHasNoUpper` | Program.cs:159 | a lowercased text has no upper-case letter |
| `Chat.ToLowerIdempotent` | Program.cs:159 | lowercasing twice equals lowercasing once |
| `Chat.IsCommandToken` | Program.cs:160 | `cmd.StartsWith("/")`: the token is non-empty and its first character is '/' |
| `Chat.CommandToken` | Program.cs:158-159 | the lowercased first token has no space and is no longer than the message |
| `Chat.CommandIffSlashFirst` | Program.cs:158-160 | the token starts with '/' exactly when the message's first character is '/' (so the empty message and a leading space are plain chat) |
| `Commands.Matches` | Program.cs:164 | an entry matches a token when its `CommandString` equals it or its aliases contain it, both compared as stored |
| `Commands.FirstMatch` | Program.cs:162-164 | the chosen entry matches the token by `CommandString` or alias and no earlier entry does; none is chosen exactly when no entry matches |
| `Commands.FirstMatchUnique` | Program.cs:162-164 | the earliest matching entry is the only possible answer |
| `Commands.LaterEntriesIgnored` | Program.cs:162-173 | once an entry matches, entries registered after it do not affect the outcome |
| `Commands.ShadowedEntryNeverChosen` | Program.cs:44-50 | of two entries that share a string or alias, the one registered later is never chosen for it |
| `Commands.Resolve` | Program.cs:162-173 | the `foreach` lookup with early return finds exactly the first matching entry, or none |
| `Commands.Dispatch` | Program.cs:155-175 | the decision: not a command iff the first character is not '/'; unknown iff the '/' token matches no entry; otherwise the first matching entry is denied exactly when it is admin-only and the sender is not admin, and runs otherwise |
| `Commands.Decision.AllowMessage` | Program.cs:160-175 | the value returned to the runtime: true (show as chat) for a non-command, an unknown command and a denied command; false only for a command that ran |
| `Commands.Calls` | Program.cs:166-171 | the command-layer calls of a decision, in order: one `ChatCommand` build for a matched entry, then one `handleCommand` only when it runs |
| `Commands.PlainChatPassesThrough` | Program.cs:158-160 | a message not starting with '/' (the empty one too) returns true and builds or handles no command |
| `Commands.HandledExactlyWhenRun` | Program.cs:166-171 | the handler is called exactly once when the command is authorised and never otherwise; the result is false exactly then |
| `Commands.BuiltOnceWhenMatched` | Program.cs:164-166 | a matched command builds exactly one command object, before and regardless of the admin check |
| `Commands.DeniedCommandShownAsChat` | Program.cs:167-168 | an admin-only first match typed by a non-admin is denied: the result is true and the handler is not called |
| `Commands.AdminNeverDenied` | Program.cs:167-168 | an admin is never denied |
| `Commands.UpperCaseCommandStringNeverMatches` | Program.cs:159-164 | a `CommandString` stored with an upper-case letter never equals the lowercased token |
| `Commands.AnyCasingSelects` | Program.cs:158-171 | any casing of a lower-case primary string, typed as the first word, selects that entry when no earlier entry claims it; it runs iff it is not admin-only or the sender is admin |
| `Commands.UpperCaseAliasNeverMatches` | Program.cs:159-164 | an alias stored with an upper-case letter never equals the lowercased token |
| `Commands.AnyCasingSelectsAlias` | Program.cs:158-171 | any casing of a lower-case alias, typed as the first word, selects that entry when no earlier entry claims it; it runs iff it is not admin-only or the sender is admin |
| `GameServer.MyPlayer.constructor` | Program.cs:34-40 | a new player is not admin and has zero kills and deaths |
| `GameServer.PlayerStats.constructor` | Program.cs:85-91 | the joining stats carry the rank, prestige and roles the runtime supplies |
| `GameServer.MyGameServer.constructor` | Program.cs:42-52 | the server starts over the runtime's settings with the table in the order Help, Stats, Kill, Start and an empty request trace |
| `GameServer.MyGameServer.SetupServer` | Program.cs:54-67 | collision is on; rotations are exactly ["Azagor"] and ["TDM"] whatever they were; force-start is requested only while waiting; the countdown becomes 1 only while counting down |
| `GameServer.MyGameServer.OnTick` | Program.cs:69-81 | collision is on and every connected player carries the fixed modifier tuple; no other player field changes |
| `GameServer.TickTwiceIsTickOnce` | Program.cs:69-81 | the modifier tuples and collision flag after a second tick equal those after the first |
| `GameServer.MyGameServer.OnPlayerJoiningToServer` | Program.cs:83-95 | rank becomes 200 and prestige 10; the privileged identity gets exactly the Admin role, others keep theirs; force-start is requested only while waiting |
| `GameServer.MyGameServer.OnConnected` | Program.cs:97-102 | the same post-state as set-up |
| `GameServer.MyGameServer.OnReconnected` | Program.cs:109-114 | the same post-state as set-up |
| `GameServer.MyGameServer.OnPlayerConnected` | Program.cs:116-120 | exactly one join broadcast is sent |
| `GameServer.MyGameServer.OnPlayerDisconnected` | Program.cs:123-127 | exactly one leave broadcast is sent |
| `GameServer.MyGameServer.OnAPlayerDownedAnotherPlayer` | Program.cs:129-145 | self-kill: deaths +1, kills unchanged, the victim is killed, no `SetHP`; distinct pair: killer's kills +1, victim's deaths +1, the victim is killed and the killer is set to 100 HP; no other player's counters change |
| `GameServer.DownedKeepsCountersNonNegative` | Program.cs:129-145 | with all four counters below int.MaxValue, one downed event keeps them non-negative and never lowers them; the victim's deaths rise by one, the killer's kills by one unless it is a self-kill |
| `GameServer.MyGameServer.OnPlayerSpawning` | Program.cs:147-151 | the requested loadout is recorded and the request is returned unchanged |
| `GameServer.MyGameServer.OnPlayerTypedMessage` | Program.cs:153-176 | the privileged identity's admin flag becomes true and is never cleared; the result and the calls made are those of `Commands.Dispatch` on the flag after that grant |

## Left out

- Process bootstrap (`Program.Main`, starting the listener, the endless sleep) is left out because it is start-up and I/O.
- The token check (`sentToken == "123"`) and the unconditional accept of a connecting server are left out as connection glue.
- `OnDisconnected` only writes a console line, so it is left out. All console output is left out for the same reason.
- The chat broadcasts are recorded as `Notice` values. Their HTML-formatted text and the player names in them are not modelled.
- The runtime is outside the model: how `ForceStartGame`, `Kill`, `SetHP` and the `SecondsLeft` setter act on the game, how `RoundSettings.State` changes, and who adds players to `AllPlayers` and removes them. Calls are recorded as requests; `SecondsLeft` and the rotation lists are plain fields.
- The bodies of `HelpCommand`, `StatsCommand`, `KillCommand`, `StartCommand`, `ApiCommand.ChatCommand` and `CommandHandler.handleCommand` are not part of this model. Command strings, aliases and admin flags are therefore parameters of the table. The runtime's `Roles`, `ChatChannel`, `PlayerLoadout` and spawn-request contents are opaque values.
- GameServer.MyGameServer.OnPlayerTypedMessage: a command handler may change player or round state, but the model records the handler call only.
- Floating-point semantics are left out. The modifier values 1.5f, 1.25f and 0f are kept as their IEEE-754 bit patterns, with no arithmetic. The type of `RespawnTime` is not shown, so it is modelled as an integer.
- Chat.LowerChar and Chat.ToLower: only the ASCII letters A–Z are lowercased. Culture-dependent mappings of other characters (for example Turkish dotted I, or accented letters) are not modelled.
- Chat.IsCommandToken: an ordinal test of the first character. Culture-sensitive comparison effects of `StartsWith(string)` (ignorable characters) are not modelled.
- `async`/`await` and any concurrency between event categories are left out. Events are one sequential stream, and `await` is an ordinary call.
- The round state is the three-value enum `WaitingForPlayers` / `CountingDown` / `Playing`. Any further runtime states are not modelled.
