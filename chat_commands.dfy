// Slash commands of the dashboard's chat: parsing `/name args`, looking a
// command up by name or alias, the registry of the five commands, the text
// of `help` and `status`, and what each command does to the chat.
//
// The server request behind `summarize` is an oracle (`SummaryResponse`);
// the callbacks the chat hands to a command are modelled by the
// `CommandContext` class, which records what was asked of it.

module ChatCommands {
  import opened Text

  // ---------------------------------------------------------------------------
  // Parsing

  /** A parsed slash command: the lower-cased name and the trimmed rest. */
  datatype Invocation = Invocation(command: string, args: string)

  /** `parseCommand`: none unless the trimmed text starts with `/`. */
  function ParseCommand(text: string): Option<Invocation> {
    var t := Trim(text);
    if StartsWith(t, "/") then Some(SplitCommand(t)) else None
  }

  /** The name runs from after the slash to the first space and is
      lower-cased; the arguments are what follows that space, trimmed. */
  function SplitCommand(t: string): Invocation
    requires t != [] && t[0] == '/'
  {
    match IndexOf(t, ' ')
    case None => Invocation(Lower(t[1..]), "")
    case Some(k) => Invocation(Lower(t[1..k]), Trim(t[k + 1..]))
  }

  lemma LowerKeepsNoSpace(s: string)
    requires ' ' !in s
    ensures IsLowerCase(Lower(s)) && ' ' !in Lower(s)
  {
    assert forall i :: 0 <= i < |s| ==> s[i] != ' ';
  }

  lemma SplitCommandShape(t: string)
    requires t != [] && t[0] == '/'
    ensures IsLowerCase(SplitCommand(t).command) && ' ' !in SplitCommand(t).command
    ensures IsTrimmed(SplitCommand(t).args)
  {
    match IndexOf(t, ' ')
    case None =>
      LowerKeepsNoSpace(t[1..]);
    case Some(k) =>
      assert t[1..k] == t[..k][1..];
      LowerKeepsNoSpace(t[1..k]);
  }

  /** What `parseCommand` returns and when. */
  lemma ParseCommandShape(text: string)
    ensures ParseCommand(text).None? <==> !StartsWith(Trim(text), "/")
    ensures ParseCommand(text).Some? ==>
      var v := ParseCommand(text).value;
      IsLowerCase(v.command) && ' ' !in v.command && IsTrimmed(v.args)
  {
    var t := Trim(text);
    if StartsWith(t, "/") {
      assert t[0] == '/';
      SplitCommandShape(t);
    }
  }

  /** A slash and a name (in any case) parse as the lower-cased name with no
      arguments; so does the same text with a trailing space. */
  lemma ParseBareCommand(name: string)
    requires IsTrimmed(name) && ' ' !in name
    ensures ParseCommand("/" + name) == Some(Invocation(Lower(name), ""))
    ensures ParseCommand("/" + name + " ") == Some(Invocation(Lower(name), ""))
  {
    var word := "/" + name;
    SlashWord(name);
    assert IsTrimmed(word);
    ParseTrimmed(word);
    BareSplit(word);
    assert word[1..] == name;
    TrimTrailingSpace(word);
  }

  lemma BareSplit(word: string)
    requires word != [] && word[0] == '/' && ' ' !in word
    ensures SplitCommand(word) == Invocation(Lower(word[1..]), "")
  {
  }

  /** A slash, a name, a space and non-empty trimmed arguments parse as the
      lower-cased name and the arguments. */
  lemma ParseCommandWithArgs(name: string, args: string)
    requires IsTrimmed(name) && ' ' !in name
    requires IsTrimmed(args) && args != []
    ensures ParseCommand("/" + name + " " + args) == Some(Invocation(Lower(name), args))
  {
    var word := "/" + name;
    var text := word + " " + args;
    assert IsTrimmed(text) by {
      SlashWord(name);
      TrimmedJoin(word, args);
    }
    assert IndexOf(text, ' ') == Some(|word|) by {
      SlashWord(name);
      IndexOfFirstSpace(word, args);
    }
    assert text[0] == '/';
    ParseTrimmed(text);
    SplitAt(text, |word|);
    CommandParts(name, args);
    TrimOfTrimmed(args);
  }

  lemma CommandParts(name: string, args: string)
    ensures var text := "/" + name + " " + args;
      text[1..|name| + 1] == name && text[|name| + 2..] == args
  {
  }

  lemma ParseTrimmed(text: string)
    requires IsTrimmed(text) && text != [] && text[0] == '/'
    ensures ParseCommand(text) == Some(SplitCommand(text))
  {
    TrimOfTrimmed(text);
  }

  lemma SplitAt(text: string, k: nat)
    requires text != [] && text[0] == '/'
    requires IndexOf(text, ' ') == Some(k)
    ensures SplitCommand(text) == Invocation(Lower(text[1..k]), Trim(text[k + 1..]))
  {
  }

  lemma SlashWord(name: string)
    requires ' ' !in name
    ensures ("/" + name)[0] == '/' && ' ' !in "/" + name
  {
    assert forall i :: 0 <= i < |name| ==> name[i] != ' ';
  }

  lemma TrimmedJoin(word: string, args: string)
    requires word != [] && !IsJsSpace(word[0])
    requires IsTrimmed(args) && args != []
    ensures IsTrimmed(word + " " + args)
  {
    var text := word + " " + args;
    assert text[0] == word[0] && text[|text| - 1] == args[|args| - 1];
  }

  lemma IndexOfFirstSpace(word: string, rest: string)
    requires ' ' !in word
    ensures IndexOf(word + " " + rest, ' ') == Some(|word|)
  {
    var text := word + " " + rest;
    assert text[|word|] == ' ';
    assert text[..|word|] == word;
  }

  // ---------------------------------------------------------------------------
  // The registry and lookup

  datatype Kind = Help | Status | Clear | New | Summarize

  /** A registered command; a command without aliases has an empty list. */
  datatype Command = Command(name: string, aliases: seq<string>, description: string, kind: Kind)

  const Registry: seq<Command> := [
    Command("help", ["h", "?"], "Show available commands", Help),
    Command("status", [], "Show current conversation and pack info", Status),
    Command("clear", ["cls"], "Clear chat display (messages stay in DB)", Clear),
    Command("new", [], "Create a new conversation linked to the current pack", New),
    Command("summarize", ["sum"], "Force context summarization", Summarize)
  ]

  predicate Matches(cmd: Command, name: string) {
    cmd.name == name || name in cmd.aliases
  }

  /** The first command of `reg` whose name or one of whose aliases is
      exactly `name`. */
  function FindIn(reg: seq<Command>, name: string): (r: Option<Command>)
    ensures r.None? <==> forall k :: 0 <= k < |reg| ==> !Matches(reg[k], name)
    ensures r.Some? ==> exists k :: 0 <= k < |reg| && reg[k] == r.value && Matches(reg[k], name)
                                    && forall j :: 0 <= j < k ==> !Matches(reg[j], name)
  {
    if reg == [] then None
    else if Matches(reg[0], name) then Some(reg[0])
    else
      var r := FindIn(reg[1..], name);
      if r.Some? then
        ghost var k :| 0 <= k < |reg[1..]| && reg[1..][k] == r.value && Matches(reg[1..][k], name)
          && forall j :: 0 <= j < k ==> !Matches(reg[1..][j], name);
        assert reg[k + 1] == r.value && forall j :: 0 <= j < k + 1 ==> !Matches(reg[j], name);
        r
      else r
  }

  /** `findCommand`. */
  function FindCommand(name: string): Option<Command> {
    FindIn(Registry, name)
  }

  /** The names and aliases a command answers to. */
  function Keys(cmd: Command): seq<string> {
    [cmd.name] + cmd.aliases
  }

  lemma RegistryKeys()
    ensures Keys(Registry[0]) == ["help", "h", "?"]
    ensures Keys(Registry[1]) == ["status"]
    ensures Keys(Registry[2]) == ["clear", "cls"]
    ensures Keys(Registry[3]) == ["new"]
    ensures Keys(Registry[4]) == ["summarize", "sum"]
  {
  }

  /** No name or alias belongs to two commands, so the order of the
      registry does not decide any lookup. */
  lemma RegistryUnambiguous()
    ensures forall i, j, n :: 0 <= i < j < |Registry| && n in Keys(Registry[i]) ==> n !in Keys(Registry[j])
  {
    RegistryKeys();
  }

  /** `help` answers to its name and its aliases `h` and `?`. */
  lemma FindHelp()
    ensures FindCommand("help") == Some(Registry[0])
    ensures FindCommand("h") == Some(Registry[0])
    ensures FindCommand("?") == Some(Registry[0])
  {
  }

  /** `status` and `clear` (alias `cls`) find their own entries. */
  lemma FindStatusAndClear()
    ensures FindCommand("status") == Some(Registry[1])
    ensures FindCommand("clear") == Some(Registry[2])
    ensures FindCommand("cls") == Some(Registry[2])
  {
    assert !Matches(Registry[0], "status") && !Matches(Registry[0], "clear") && !Matches(Registry[0], "cls");
    assert !Matches(Registry[1], "clear") && !Matches(Registry[1], "cls");
  }

  /** `new` and `summarize` (alias `sum`) find their own entries. */
  lemma FindNewAndSummarize()
    ensures FindCommand("new") == Some(Registry[3])
    ensures FindCommand("summarize") == Some(Registry[4])
    ensures FindCommand("sum") == Some(Registry[4])
  {
    assert !Matches(Registry[0], "new") && !Matches(Registry[1], "new") && !Matches(Registry[2], "new");
    assert !Matches(Registry[0], "summarize") && !Matches(Registry[1], "summarize");
    assert !Matches(Registry[2], "summarize") && !Matches(Registry[3], "summarize");
    assert !Matches(Registry[0], "sum") && !Matches(Registry[1], "sum");
    assert !Matches(Registry[2], "sum") && !Matches(Registry[3], "sum");
  }

  /** Matching is exact: another spelling finds nothing. */
  lemma LookupIsCaseSensitive()
    ensures FindCommand("HELP").None?
  {
    assert forall k :: 0 <= k < |Registry| ==> !Matches(Registry[k], "HELP");
  }

  // ---------------------------------------------------------------------------
  // Help and status text

  function Slashed(names: seq<string>): (r: seq<string>)
    ensures |r| == |names| && forall k :: 0 <= k < |names| ==> r[k] == "/" + names[k]
  {
    seq(|names|, k requires 0 <= k < |names| => "/" + names[k])
  }

  /** ` (/a, /b)` after a command with aliases, nothing otherwise. */
  function AliasSuffix(aliases: seq<string>): string {
    if |aliases| > 0 then " (" + Join(Slashed(aliases), ", ") + ")" else ""
  }

  function HelpLine(cmd: Command): string {
    "**/" + cmd.name + "**" + AliasSuffix(cmd.aliases) + " - " + cmd.description
  }

  function HelpLines(reg: seq<Command>): (r: seq<string>)
    ensures |r| == |reg| && forall k :: 0 <= k < |reg| ==> r[k] == HelpLine(reg[k])
  {
    seq(|reg|, k requires 0 <= k < |reg| => HelpLine(reg[k]))
  }

  const HelpHeading := "Available commands:"

  function HelpText(reg: seq<Command>): string {
    HelpHeading + "\n\n" + Join(HelpLines(reg), "\n")
  }

  /** The alias suffix appears exactly when there are aliases. */
  lemma AliasSuffixEmpty(aliases: seq<string>)
    ensures AliasSuffix(aliases) == "" <==> aliases == []
    ensures aliases != [] ==> AliasSuffix(aliases)[..2] == " ("
  {
  }

  predicate NoNewline(s: string) {
    '\n' !in s
  }

  predicate PlainCommand(cmd: Command) {
    NoNewline(cmd.name) && NoNewline(cmd.description) && forall a :: a in cmd.aliases ==> NoNewline(a)
  }

  lemma {:induction false} JoinNoNewline(xs: seq<string>, sep: string)
    requires NoNewline(sep) && forall k :: 0 <= k < |xs| ==> NoNewline(xs[k])
    ensures NoNewline(Join(xs, sep))
  {
    if |xs| > 1 {
      JoinNoNewline(xs[1..], sep);
    }
  }

  lemma HelpLinePlain(cmd: Command)
    requires PlainCommand(cmd)
    ensures NoNewline(HelpLine(cmd))
  {
    if cmd.aliases != [] {
      var slashed := Slashed(cmd.aliases);
      forall k | 0 <= k < |slashed|
        ensures NoNewline(slashed[k])
      {
        assert cmd.aliases[k] in cmd.aliases;
      }
      JoinNoNewline(slashed, ", ");
    }
  }

  /** The help text is the heading, an empty line and then one line per
      command, in registry order. */
  lemma HelpTextLines(reg: seq<Command>)
    requires |reg| >= 1 && forall k :: 0 <= k < |reg| ==> PlainCommand(reg[k])
    ensures SplitOn(HelpText(reg), '\n') == [HelpHeading, ""] + HelpLines(reg)
  {
    var lines := HelpLines(reg);
    forall k | 0 <= k < |lines|
      ensures '\n' !in lines[k]
    {
      HelpLinePlain(reg[k]);
    }
    var all := [HelpHeading, ""] + lines;
    HeadedJoin(HelpHeading, lines, "\n");
    assert HelpHeading + "\n\n" == HelpHeading + "\n" + "\n";
    HeadingPlain();
    forall k | 0 <= k < |all|
      ensures '\n' !in all[k]
    {
      if k >= 2 {
        assert all[k] == lines[k - 2];
      }
    }
    JoinSplitRoundTrip(all, '\n');
  }

  lemma HeadingPlain()
    ensures NoNewline(HelpHeading)
  {
  }

  lemma HeadedJoin(head: string, lines: seq<string>, sep: string)
    requires |lines| >= 1
    ensures Join([head, ""] + lines, sep) == head + sep + sep + Join(lines, sep)
  {
    var j := Join(lines, sep);
    JoinCons("", lines, sep);
    JoinCons(head, [""] + lines, sep);
    assert [head, ""] + lines == [head] + ([""] + lines);
    assert head + sep + ("" + sep + j) == head + sep + sep + j;
  }

  lemma JoinCons(x: string, xs: seq<string>, sep: string)
    requires xs != []
    ensures Join([x] + xs, sep) == x + sep + Join(xs, sep)
  {
    assert ([x] + xs)[1..] == xs;
  }

  datatype Conversation = Conversation(id: string, title: string, packId: Option<string>, status: string)

  /** A pack id counts only when present and non-empty. */
  predicate HasPack(packId: Option<string>) {
    packId.Some? && packId.value != ""
  }

  /** A missing or empty pack id reads `(none)`. */
  function PackLabel(packId: Option<string>): string {
    if HasPack(packId) then packId.value else "(none)"
  }

  function StatusLines(c: Conversation, messageCount: nat): seq<string> {
    [ "**Conversation:** " + c.title,
      "**ID:** `" + c.id + "`",
      "**Status:** " + c.status,
      "**Pack:** " + PackLabel(c.packId),
      "**Messages:** " + NatToString(messageCount) ]
  }

  function StatusText(conversation: Option<Conversation>, messageCount: nat): string {
    if conversation.None? then "No conversation selected."
    else Join(StatusLines(conversation.value, messageCount), "\n")
  }

  /** With a conversation, the status has five lines ending with the
      message count. */
  lemma StatusTextLines(c: Conversation, messageCount: nat)
    requires NoNewline(c.id) && NoNewline(c.title) && NoNewline(c.status)
    requires c.packId.Some? ==> NoNewline(c.packId.value)
    ensures var lines := SplitOn(StatusText(Some(c), messageCount), '\n');
      |lines| == 5 && lines[4] == "**Messages:** " + NatToString(messageCount)
      && lines[3] == "**Pack:** " + PackLabel(c.packId)
  {
    var lines := StatusLines(c, messageCount);
    var count := NatToString(messageCount);
    assert NoNewline(count) by {
      assert forall i :: 0 <= i < |count| ==> IsDigit(count[i]);
    }
    forall k | 0 <= k < 5
      ensures '\n' !in lines[k]
    {
    }
    JoinSplitRoundTrip(lines, '\n');
  }

  // ---------------------------------------------------------------------------
  // What a command does

  /** What the summarize endpoint answers: an HTTP error (with the body's
      `error` field when it is a non-empty string; a body that is not JSON
      reads as `Unknown error`), a summary, a no-op, or a failure of the
      request itself. */
  datatype SummaryResponse =
    | HttpError(status: nat, error: Option<string>)
    | Summarized(tokensBefore: nat, tokensAfter: nat)
    | AlreadyCompact(tokensBefore: nat)
    | RequestFailed(message: string)

  /** A command's side effect on the chat. */
  datatype Effect =
    | NoEffect
    | ClearDisplay
    | CreateConversation(packId: string)
    | RequestSummary(conversationId: string)

  datatype Outcome = Outcome(reply: Option<string>, effect: Effect)

  const MinMessagesToSummarize := 5

  function SummaryReply(response: SummaryResponse): string {
    match response
    case HttpError(status, error) =>
      "Summarization failed: " + (if error.Some? && error.value != "" then error.value else NatToString(status))
    case Summarized(before, after) =>
      "Context summarized: " + NatToString(before) + " -> " + NatToString(after) + " tokens"
    case AlreadyCompact(before) =>
      "Context is already compact (" + NatToString(before) + " tokens). No summarization needed."
    case RequestFailed(message) => "Summarization failed: " + message
  }

  /** The reply and effect of a command, given the conversation, the number
      of messages shown and what the summarize endpoint would answer. */
  function Run(kind: Kind, conversation: Option<Conversation>, messageCount: nat, response: SummaryResponse): Outcome {
    match kind
    case Help => Outcome(Some(HelpText(Registry)), NoEffect)
    case Status => Outcome(Some(StatusText(conversation, messageCount)), NoEffect)
    case Clear => Outcome(None, ClearDisplay)
    case New =>
      if conversation.None? then Outcome(Some("No active conversation. Start one first."), NoEffect)
      else if !HasPack(conversation.value.packId) then
        Outcome(Some("No pack linked to this conversation. Use /new only after a pack is created."), NoEffect)
      else Outcome(None, CreateConversation(conversation.value.packId.value))
    case Summarize =>
      if conversation.None? then Outcome(Some("No active conversation."), NoEffect)
      else if messageCount < MinMessagesToSummarize then
        Outcome(Some("Too few messages to summarize (need at least 5)."), NoEffect)
      else Outcome(Some(SummaryReply(response)), RequestSummary(conversation.value.id))
  }

  /** `new` creates a conversation for the current pack, and only when
      there is a conversation with a pack; it never replies on success. */
  lemma NewGuards(conversation: Option<Conversation>, messageCount: nat, response: SummaryResponse)
    ensures var o := Run(New, conversation, messageCount, response);
      && (o.effect.CreateConversation? <==> conversation.Some? && HasPack(conversation.value.packId))
      && (o.effect.CreateConversation? ==> o.effect.packId == conversation.value.packId.value && o.reply.None?)
      && (o.effect.NoEffect? ==> o.reply.Some?)
  {
  }

  /** `summarize` sends no request without a conversation or with fewer than
      five messages, and otherwise asks for the current conversation. */
  lemma SummarizeGuards(conversation: Option<Conversation>, messageCount: nat, response: SummaryResponse)
    ensures var o := Run(Summarize, conversation, messageCount, response);
      && (o.effect.RequestSummary? <==> conversation.Some? && messageCount >= 5)
      && (o.effect.RequestSummary? ==> o.effect.conversationId == conversation.value.id)
      && (conversation.Some? && messageCount < 5 ==>
            o.reply == Some("Too few messages to summarize (need at least 5)."))
      && o.reply.Some?
  {
  }

  /** A summary reply reports a failure exactly when the endpoint answered
      with an error or could not be reached. */
  lemma SummaryReplyFailure(response: SummaryResponse)
    ensures StartsWith(SummaryReply(response), "Summarization failed: ")
            <==> response.HttpError? || response.RequestFailed?
  {
    var r := SummaryReply(response);
    if response.Summarized? || response.AlreadyCompact? {
      assert r[0] == 'C';
    }
  }

  // ---------------------------------------------------------------------------
  // The chat as a command sees it

  datatype Message = Message(role: string, content: string)

  /** The chat handed to a command: the conversation and the messages shown,
      with the callbacks as recorded requests. */
  class CommandContext {
    const conversation: Option<Conversation>
    var messages: seq<Message>
    var created: seq<string>
    var summaryRequests: seq<string>

    constructor (conversation: Option<Conversation>, messages: seq<Message>)
      ensures this.conversation == conversation && this.messages == messages
      ensures created == [] && summaryRequests == []
    {
      this.conversation := conversation;
      this.messages := messages;
      created := [];
      summaryRequests := [];
    }

    /** `ctx.setMessages([])`. */
    method ClearMessages()
      modifies this`messages
      ensures messages == []
    {
      messages := [];
    }

    /** `ctx.onCreateConversation(packId)`. */
    method CreateConversation(packId: string)
      modifies this`created
      ensures created == old(created) + [packId]
    {
      created := created + [packId];
    }

    /** The POST to the summarize endpoint for a conversation. */
    method RequestSummary(conversationId: string)
      modifies this`summaryRequests
      ensures summaryRequests == old(summaryRequests) + [conversationId]
    {
      summaryRequests := summaryRequests + [conversationId];
    }
  }

  /** The chat after an outcome's effect: the display cleared, or one
      conversation created, or one summary requested, or nothing. */
  predicate Applied(effect: Effect, messages0: seq<Message>, created0: seq<string>, requests0: seq<string>,
                    messages: seq<Message>, created: seq<string>, requests: seq<string>)
  {
    && messages == (if effect.ClearDisplay? then [] else messages0)
    && created == created0 + (if effect.CreateConversation? then [effect.packId] else [])
    && requests == requests0 + (if effect.RequestSummary? then [effect.conversationId] else [])
  }

  /** Running a command against the chat: the reply and the one callback it
      makes, as `Run` says. */
  method Execute(cmd: Command, args: string, ctx: CommandContext, response: SummaryResponse)
    returns (reply: Option<string>)
    modifies ctx
    ensures var o := Run(cmd.kind, ctx.conversation, |old(ctx.messages)|, response);
      && reply == o.reply
      && Applied(o.effect, old(ctx.messages), old(ctx.created), old(ctx.summaryRequests),
                 ctx.messages, ctx.created, ctx.summaryRequests)
  {
    match cmd.kind {
      case Help =>
        reply := Some(HelpText(Registry));
      case Status =>
        reply := Some(StatusText(ctx.conversation, |ctx.messages|));
      case Clear =>
        ctx.ClearMessages();
        reply := None;
      case New =>
        reply := ExecuteNew(ctx);
      case Summarize =>
        reply := ExecuteSummarize(ctx, response);
    }
  }

  method ExecuteNew(ctx: CommandContext) returns (reply: Option<string>)
    modifies ctx
    ensures var o := Run(New, ctx.conversation, |old(ctx.messages)|, RequestFailed(""));
      && reply == o.reply
      && Applied(o.effect, old(ctx.messages), old(ctx.created), old(ctx.summaryRequests),
                 ctx.messages, ctx.created, ctx.summaryRequests)
  {
    if ctx.conversation.None? {
      return Some("No active conversation. Start one first.");
    }
    var packId := ctx.conversation.value.packId;
    if packId.None? || packId.value == "" {
      return Some("No pack linked to this conversation. Use /new only after a pack is created.");
    }
    ctx.CreateConversation(packId.value);
    reply := None;
  }

  method ExecuteSummarize(ctx: CommandContext, response: SummaryResponse) returns (reply: Option<string>)
    modifies ctx
    ensures var o := Run(Summarize, ctx.conversation, |old(ctx.messages)|, response);
      && reply == o.reply
      && Applied(o.effect, old(ctx.messages), old(ctx.created), old(ctx.summaryRequests),
                 ctx.messages, ctx.created, ctx.summaryRequests)
  {
    if ctx.conversation.None? {
      return Some("No active conversation.");
    }
    if |ctx.messages| < MinMessagesToSummarize {
      return Some("Too few messages to summarize (need at least 5).");
    }
    ctx.RequestSummary(ctx.conversation.value.id);
    reply := Some(SummaryReply(response));
  }
}
