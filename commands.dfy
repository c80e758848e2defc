/**
 * The static command table and the dispatch rule of a typed chat message:
 * which entry a token selects, whether the sender may run it, and what the
 * handler reports back to the runtime.
 */
module Commands {
  import opened Wrappers
  import opened Runtime
  import Chat

  /** The four command classes, in the order the table registers them. */
  datatype CommandKind = Help | Stats | Kill | Start

  const RegistrationOrder: seq<CommandKind> := [Help, Stats, Kill, Start]

  /** One registered command: its class, its primary string, its aliases and its admin requirement. */
  datatype ApiCommand = ApiCommand(kind: CommandKind, commandString: string, aliases: seq<string>, adminOnly: bool)

  /** The entry test of the lookup loop: `CommandString == cmd || Aliases.Contains(cmd)`, both ordinal. */
  predicate Matches(c: ApiCommand, cmd: string) {
    c.commandString == cmd || cmd in c.aliases
  }

  /** Entry i matches cmd and no earlier entry does. */
  predicate IsFirstMatch(table: seq<ApiCommand>, cmd: string, i: nat) {
    i < |table| && Matches(table[i], cmd) && forall j :: 0 <= j < i ==> !Matches(table[j], cmd)
  }

  /** The entry a token selects: the first one, in table order, that matches it. */
  function FirstMatch(table: seq<ApiCommand>, cmd: string): (r: Option<nat>)
    ensures r.Some? ==> IsFirstMatch(table, cmd, r.value)
    ensures r.None? <==> forall j :: 0 <= j < |table| ==> !Matches(table[j], cmd)
  {
    if table == [] then None
    else if Matches(table[0], cmd) then Some(0)
    else match FirstMatch(table[1..], cmd)
      case None => None
      case Some(i) => Some(i + 1)
  }

  /** At most one index is the first match, so FirstMatch is the only answer. */
  lemma FirstMatchUnique(table: seq<ApiCommand>, cmd: string, i: nat)
    requires IsFirstMatch(table, cmd, i)
    ensures FirstMatch(table, cmd) == Some(i)
  {
  }

  /** Entries registered after the first match are never consulted. */
  lemma {:induction false} LaterEntriesIgnored(table: seq<ApiCommand>, later: seq<ApiCommand>, cmd: string)
    requires FirstMatch(table, cmd).Some?
    ensures FirstMatch(table + later, cmd) == FirstMatch(table, cmd)
  {
    var i := FirstMatch(table, cmd).value;
    assert forall j :: 0 <= j <= i ==> (table + later)[j] == table[j];
    FirstMatchUnique(table + later, cmd, i);
  }

  /** Two entries sharing a string or alias: the one registered later is shadowed for that token. */
  lemma ShadowedEntryNeverChosen(table: seq<ApiCommand>, cmd: string, i: nat, j: nat)
    requires i < j < |table|
    requires Matches(table[i], cmd) && Matches(table[j], cmd)
    ensures FirstMatch(table, cmd) != Some(j)
  {
  }

  /** The lookup loop over the table, with its early return on the first matching entry. */
  method Resolve(table: seq<ApiCommand>, cmd: string) returns (found: Option<nat>)
    ensures found == FirstMatch(table, cmd)
  {
    var i := 0;
    while i < |table|
      invariant 0 <= i <= |table|
      invariant forall j :: 0 <= j < i ==> !Matches(table[j], cmd)
    {
      if Matches(table[i], cmd) {
        FirstMatchUnique(table, cmd, i);
        return Some(i);
      }
      i := i + 1;
    }
    return None;
  }

  /** What the message handler decides for one typed message. */
  datatype Decision =
    | NotACommand       // the token lacks the '/' prefix
    | Unknown           // a '/' token that no entry matches
    | Denied(index: nat) // entry `index` matched, but it is admin-only and the sender is not admin
    | Run(index: nat)    // entry `index` matched and the sender may run it
  {
    /** The value returned to the runtime: true lets the message through as chat. */
    function AllowMessage(): bool { !Run? }
  }

  /**
   * The decision for msg from a sender whose admin flag is isAdmin (read
   * after the privileged-identity grant).
   */
  function Dispatch(table: seq<ApiCommand>, isAdmin: bool, msg: string): (d: Decision)
    ensures d.NotACommand? <==> !(|msg| > 0 && msg[0] == Chat.CommandPrefix)
    ensures d.Unknown? <==>
      Chat.IsCommandToken(Chat.CommandToken(msg)) &&
      forall j :: 0 <= j < |table| ==> !Matches(table[j], Chat.CommandToken(msg))
    ensures d.Denied? || d.Run? ==>
      Chat.IsCommandToken(Chat.CommandToken(msg)) && IsFirstMatch(table, Chat.CommandToken(msg), d.index)
    ensures d.Denied? ==> table[d.index].adminOnly && !isAdmin
    ensures d.Run? ==> !table[d.index].adminOnly || isAdmin
  {
    Chat.CommandIffSlashFirst(msg);
    var cmd := Chat.CommandToken(msg);
    if !Chat.IsCommandToken(cmd) then NotACommand
    else match FirstMatch(table, cmd)
      case None => Unknown
      case Some(i) => if table[i].adminOnly && !isAdmin then Denied(i) else Run(i)
  }

  /** The calls made on the command layer for a decision: the command object is built before the admin check. */
  function Calls(d: Decision, sender: ulong, channel: ChatChannel, msg: string): (rs: seq<Request>)
  {
    match d
    case NotACommand => []
    case Unknown => []
    case Denied(i) => [BuildChatCommand(i, sender, channel, msg)]
    case Run(i) => [BuildChatCommand(i, sender, channel, msg), HandleCommand(i, sender)]
  }

  /** The number of handler invocations in a request trace. */
  function HandleCount(rs: seq<Request>): (n: nat)
    ensures n <= |rs|
  {
    if rs == [] then 0 else (if rs[0].HandleCommand? then 1 else 0) + HandleCount(rs[1..])
  }

  /** The number of command objects built in a request trace. */
  function BuildCount(rs: seq<Request>): (n: nat)
    ensures n <= |rs|
  {
    if rs == [] then 0 else (if rs[0].BuildChatCommand? then 1 else 0) + BuildCount(rs[1..])
  }

  /**
   * A message whose first character is not '/' (the empty one included)
   * passes through as chat, and nothing is built or handled.
   */
  lemma PlainChatPassesThrough(table: seq<ApiCommand>, isAdmin: bool, msg: string,
                               sender: ulong, channel: ChatChannel)
    requires !(|msg| > 0 && msg[0] == Chat.CommandPrefix)
    ensures Dispatch(table, isAdmin, msg).AllowMessage()
    ensures Calls(Dispatch(table, isAdmin, msg), sender, channel, msg) == []
  {
  }

  /** The handler runs exactly once when the decision is Run, and never otherwise; the message is suppressed exactly then. */
  lemma HandledExactlyWhenRun(table: seq<ApiCommand>, isAdmin: bool, msg: string,
                              sender: ulong, channel: ChatChannel)
    ensures var d := Dispatch(table, isAdmin, msg);
      HandleCount(Calls(d, sender, channel, msg)) == (if d.Run? then 1 else 0) &&
      (d.AllowMessage() <==> !d.Run?)
  {
  }

  /** A matched command builds exactly one command object, whatever the admin check says. */
  lemma BuiltOnceWhenMatched(table: seq<ApiCommand>, isAdmin: bool, msg: string,
                             sender: ulong, channel: ChatChannel)
    ensures var d := Dispatch(table, isAdmin, msg);
      BuildCount(Calls(d, sender, channel, msg)) == (if d.Denied? || d.Run? then 1 else 0)
  {
  }

  /**
   * An admin-only command typed by a non-admin: the message is let through
   * as chat (the handler returns true) and the handler is not called.
   */
  lemma DeniedCommandShownAsChat(table: seq<ApiCommand>, msg: string, i: nat,
                                 sender: ulong, channel: ChatChannel)
    requires Chat.IsCommandToken(Chat.CommandToken(msg))
    requires IsFirstMatch(table, Chat.CommandToken(msg), i)
    requires table[i].adminOnly
    ensures Dispatch(table, false, msg) == Denied(i)
    ensures Dispatch(table, false, msg).AllowMessage()
    ensures HandleCount(Calls(Dispatch(table, false, msg), sender, channel, msg)) == 0
  {
  }

  /** An admin is never denied. */
  lemma AdminNeverDenied(table: seq<ApiCommand>, msg: string)
    ensures !Dispatch(table, true, msg).Denied?
  {
  }

  /**
   * Only the token is lowercased: a primary string stored with an upper-case
   * letter can never be selected through that string.
   */
  lemma UpperCaseCommandStringNeverMatches(c: ApiCommand, msg: string, k: nat)
    requires k < |c.commandString| && Chat.IsUpper(c.commandString[k])
    ensures c.commandString != Chat.CommandToken(msg)
  {
  }

  /**
   * A command whose primary string is stored in lower case is selected by any
   * casing of that string typed as the first word of a message, provided no
   * earlier entry claims the lowercased word.
   */
  lemma AnyCasingSelects(table: seq<ApiCommand>, isAdmin: bool, i: nat, word: string, rest: string)
    requires i < |table|
    requires Chat.ToLower(table[i].commandString) == table[i].commandString
    requires Chat.IsCommandToken(table[i].commandString)
    requires forall j :: 0 <= j < i ==> !Matches(table[j], table[i].commandString)
    requires ' ' !in word && Chat.ToLower(word) == table[i].commandString
    requires rest == [] || rest[0] == ' '
    ensures Dispatch(table, isAdmin, word + rest) in {Denied(i), Run(i)}
    ensures Dispatch(table, isAdmin, word + rest) == Run(i) <==> !table[i].adminOnly || isAdmin
  {
    Chat.FirstTokenOfWord(word, rest);
    assert Chat.CommandToken(word + rest) == table[i].commandString;
    FirstMatchUnique(table, table[i].commandString, i);
  }

  /** Aliases are compared as stored too: an alias holding an upper-case letter never equals the lowercased token. */
  lemma UpperCaseAliasNeverMatches(alias: string, msg: string, k: nat)
    requires k < |alias| && Chat.IsUpper(alias[k])
    ensures alias != Chat.CommandToken(msg)
  {
  }

  /**
   * An alias stored in lower case is selected by any casing of it typed as
   * the first word of a message, provided no earlier entry claims the
   * lowercased word.
   */
  lemma AnyCasingSelectsAlias(table: seq<ApiCommand>, isAdmin: bool, i: nat, alias: string,
                              word: string, rest: string)
    requires i < |table| && alias in table[i].aliases
    requires Chat.ToLower(alias) == alias && Chat.IsCommandToken(alias)
    requires forall j :: 0 <= j < i ==> !Matches(table[j], alias)
    requires ' ' !in word && Chat.ToLower(word) == alias
    requires rest == [] || rest[0] == ' '
    ensures Dispatch(table, isAdmin, word + rest) in {Denied(i), Run(i)}
    ensures Dispatch(table, isAdmin, word + rest) == Run(i) <==> !table[i].adminOnly || isAdmin
  {
    Chat.FirstTokenOfWord(word, rest);
    assert Chat.CommandToken(word + rest) == alias;
    FirstMatchUnique(table, alias, i);
  }
}
