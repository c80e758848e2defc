/**
 * Token extraction for typed chat messages: the first piece of
 * `msg.Split(" ")`, lowercased, and the `/` prefix test.
 */
module Chat {

  const CommandPrefix: char := '/'

  /** The text before the first single space of msg (all of msg if it has no space). */
  function FirstToken(msg: string): (t: string)
    ensures |t| <= |msg| && t == msg[..|t|]
    ensures ' ' !in t
    ensures |t| < |msg| ==> msg[|t|] == ' '
  {
    if msg == [] || msg[0] == ' ' then [] else [msg[0]] + FirstToken(msg[1..])
  }

  /** The three properties of FirstToken determine it: a prefix with no space that ends the text or stops at a space. */
  lemma FirstTokenUnique(msg: string, t: string)
    requires |t| <= |msg| && t == msg[..|t|]
    requires ' ' !in t
    requires |t| < |msg| ==> msg[|t|] == ' '
    ensures FirstToken(msg) == t
  {
  }

  /** A message made of a space-free word followed by nothing or by a space has that word as its first token. */
  lemma FirstTokenOfWord(word: string, rest: string)
    requires ' ' !in word
    requires rest == [] || rest[0] == ' '
    ensures FirstToken(word + rest) == word
  {
    var msg := word + rest;
    assert msg[..|word|] == word;
    FirstTokenUnique(msg, word);
  }

  predicate IsUpper(c: char) { 'A' <= c <= 'Z' }

  /** Lower-casing of one character, restricted to the ASCII letters. */
  function LowerChar(c: char): (l: char)
    ensures !IsUpper(l)
    ensures IsUpper(c) ==> l as int == c as int + 32
    ensures !IsUpper(c) ==> l == c
  {
    if IsUpper(c) then (c as int + 32) as char else c
  }

  /** `string.ToLower()`, restricted to the ASCII letters. */
  function ToLower(s: string): (r: string)
    ensures |r| == |s|
    ensures forall i :: 0 <= i < |s| ==> r[i] == LowerChar(s[i])
  {
    if s == [] then [] else [LowerChar(s[0])] + ToLower(s[1..])
  }

  /** A lowercased text holds no upper-case letter. */
  lemma ToLowerHasNoUpper(s: string)
    ensures forall i :: 0 <= i < |s| ==> !IsUpper(ToLower(s)[i])
  {
  }

  /** Lowercasing twice is lowercasing once. */
  lemma ToLowerIdempotent(s: string)
    ensures ToLower(ToLower(s)) == ToLower(s)
  {
  }

  /** `cmd.StartsWith("/")`, as an ordinal prefix test. */
  predicate IsCommandToken(cmd: string) {
    |cmd| > 0 && cmd[0] == CommandPrefix
  }

  /** The lowercased first token of a message: `msg.Split(" ")[0].ToLower()`. */
  function CommandToken(msg: string): (cmd: string)
    ensures ' ' !in cmd
    ensures |cmd| <= |msg|
  {
    var t := FirstToken(msg);
    var cmd := ToLower(t);
    assert forall i :: 0 <= i < |cmd| ==> cmd[i] != ' ' by {
      forall i | 0 <= i < |cmd| ensures cmd[i] != ' ' {
        assert t[i] in t;
      }
    }
    cmd
  }

  /**
   * A message is taken for a command exactly when its very first character
   * is '/': a leading space, and the empty message, make ordinary chat.
   */
  lemma CommandIffSlashFirst(msg: string)
    ensures IsCommandToken(CommandToken(msg)) <==> |msg| > 0 && msg[0] == CommandPrefix
  {
  }
}
