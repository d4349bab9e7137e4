// The agent conversation's context manager: the token estimate of a
// conversation, the plan store (an in-memory cache in front of the
// conversation database), the summarisation that shortens a long
// conversation, and the two plan tools offered to the agent.
//
// The language model that writes a summary is an oracle (`Result`), the
// conversation database is a map whose reads and writes may fail (a flag per
// call), and the length of the JSON text of a message's tool calls is a
// function parameter.

module ContextManager {
  import opened Text

  // ---------------------------------------------------------------------------
  // Messages

  datatype Role = User | Assistant | Tool

  datatype ToolCall = ToolCall(id: string, name: string, arguments: string)

  datatype Part = TextPart(text: string) | ImagePart(url: string)

  /** A message's content: a string, a list of parts, or null. */
  datatype Content = Str(s: string) | Parts(parts: seq<Part>) | Null

  /** `toolCalls` is present on assistant messages that call tools,
      `toolCallId` on tool results. */
  datatype Message = Message(role: Role, content: Content, toolCalls: Option<seq<ToolCall>>, toolCallId: Option<string>)

  // ---------------------------------------------------------------------------
  // Token estimate
  //
  // A message is counted in characters, four characters to a token. An
  // inline (`data:`) image counts a twenty-fifth of its URL's length, so the
  // count is kept in 25ths of a character to stay in integers: a character
  // is `Scale` units and a token is `4 * Scale` units.

  const CharsPerToken := 4
  const Scale := 25
  /** An image referenced by URL counts as 1000 tokens, 4000 characters. */
  const ImageReferenceUnits := 4000 * Scale
  /** An inline image counts at most 8000 characters. */
  const InlineImageCapUnits := 8000 * Scale
  /** The structure of a tool result counts 50 characters. */
  const ToolResultUnits := 50 * Scale

  function Min(a: int, b: int): int {
    if a < b then a else b
  }

  /** `Math.ceil(a / b)`. */
  function CeilDiv(a: nat, b: nat): nat
    requires b > 0
  {
    (a + b - 1) / b
  }

  /** `CeilDiv` is the least multiple count that covers `a`. */
  lemma CeilDivIsCeiling(a: nat, b: nat)
    requires b > 0
    ensures CeilDiv(a, b) * b >= a
    ensures CeilDiv(a, b) > 0 ==> (CeilDiv(a, b) - 1) * b < a
  {
  }

  function PartUnits(p: Part): nat {
    match p
    case TextPart(text) => Scale * |text|
    case ImagePart(url) =>
      if StartsWith(url, "data:") then Min(|url|, InlineImageCapUnits) else ImageReferenceUnits
  }

  function PartsUnits(parts: seq<Part>): nat {
    if parts == [] then 0 else PartsUnits(parts[..|parts| - 1]) + PartUnits(parts[|parts| - 1])
  }

  function ContentUnits(c: Content): nat {
    match c
    case Str(s) => Scale * |s|
    case Parts(parts) => PartsUnits(parts)
    case Null => 0
  }

  /** The characters of a message, in units: its content, the JSON text of
      its tool calls, and the tool-result overhead. */
  function MessageUnits(m: Message, jsonLength: seq<ToolCall> -> nat): nat {
    ContentUnits(m.content)
    + (if m.toolCalls.Some? then Scale * jsonLength(m.toolCalls.value) else 0)
    + (if m.toolCallId.Some? then ToolResultUnits else 0)
  }

  /** `estimateMessageTokens`. */
  function MessageTokens(m: Message, jsonLength: seq<ToolCall> -> nat): nat {
    CeilDiv(MessageUnits(m, jsonLength), CharsPerToken * Scale)
  }

  function SumTokens(messages: seq<Message>, jsonLength: seq<ToolCall> -> nat): nat {
    if messages == [] then 0
    else SumTokens(messages[..|messages| - 1], jsonLength) + MessageTokens(messages[|messages| - 1], jsonLength)
  }

  /** `estimateTotalTokens`: the system prompt and then every message. */
  function TotalTokens(systemPrompt: string, messages: seq<Message>, jsonLength: seq<ToolCall> -> nat): nat {
    CeilDiv(|systemPrompt|, CharsPerToken) + SumTokens(messages, jsonLength)
  }

  /** The estimate of one message, accumulated part by part. */
  method EstimateMessageTokens(m: Message, jsonLength: seq<ToolCall> -> nat) returns (tokens: nat)
    ensures tokens == MessageTokens(m, jsonLength)
  {
    var units := 0;
    match m.content {
      case Str(s) =>
        units := units + Scale * |s|;
      case Parts(parts) =>
        var i := 0;
        while i < |parts|
          invariant 0 <= i <= |parts|
          invariant units == PartsUnits(parts[..i])
        {
          assert parts[..i + 1][..i] == parts[..i];
          var p := parts[i];
          if p.TextPart? {
            units := units + Scale * |p.text|;
          } else if StartsWith(p.url, "data:") {
            units := units + Min(|p.url|, InlineImageCapUnits);
          } else {
            units := units + ImageReferenceUnits;
          }
          i := i + 1;
        }
        assert parts[..|parts|] == parts;
      case Null =>
    }
    if m.toolCalls.Some? {
      units := units + Scale * jsonLength(m.toolCalls.value);
    }
    if m.toolCallId.Some? {
      units := units + ToolResultUnits;
    }
    tokens := (units + CharsPerToken * Scale - 1) / (CharsPerToken * Scale);
  }

  /** The estimate of a conversation, accumulated message by message. */
  method EstimateTotalTokens(systemPrompt: string, messages: seq<Message>, jsonLength: seq<ToolCall> -> nat)
    returns (total: nat)
    ensures total == TotalTokens(systemPrompt, messages, jsonLength)
  {
    total := (|systemPrompt| + CharsPerToken - 1) / CharsPerToken;
    var i := 0;
    while i < |messages|
      invariant 0 <= i <= |messages|
      invariant total == CeilDiv(|systemPrompt|, CharsPerToken) + SumTokens(messages[..i], jsonLength)
    {
      assert messages[..i + 1][..i] == messages[..i];
      var t := EstimateMessageTokens(messages[i], jsonLength);
      total := total + t;
      i := i + 1;
    }
    assert messages[..|messages|] == messages;
  }

  /** Appending a message adds its own estimate, so the total never
      decreases. */
  lemma TotalTokensAppend(systemPrompt: string, messages: seq<Message>, m: Message, jsonLength: seq<ToolCall> -> nat)
    ensures TotalTokens(systemPrompt, messages + [m], jsonLength)
            == TotalTokens(systemPrompt, messages, jsonLength) + MessageTokens(m, jsonLength)
    ensures TotalTokens(systemPrompt, messages + [m], jsonLength) >= TotalTokens(systemPrompt, messages, jsonLength)
  {
    assert (messages + [m])[..|messages|] == messages;
  }

  lemma {:induction false} SumTokensConcat(a: seq<Message>, b: seq<Message>, jsonLength: seq<ToolCall> -> nat)
    ensures SumTokens(a + b, jsonLength) == SumTokens(a, jsonLength) + SumTokens(b, jsonLength)
    decreases |b|
  {
    if b == [] {
      assert a + b == a;
    } else {
      var b' := b[..|b| - 1];
      SumTokensConcat(a, b', jsonLength);
      assert (a + b)[..|a + b| - 1] == a + b';
    }
  }

  /** Dropping older messages never raises the estimate. */
  lemma SuffixTokens(systemPrompt: string, messages: seq<Message>, k: nat, jsonLength: seq<ToolCall> -> nat)
    requires k <= |messages|
    ensures TotalTokens(systemPrompt, messages[k..], jsonLength) <= TotalTokens(systemPrompt, messages, jsonLength)
  {
    SumTokensConcat(messages[..k], messages[k..], jsonLength);
    assert messages[..k] + messages[k..] == messages;
  }

  /** The per-part charges: text by its length, an image referenced by URL
      as 1000 tokens, an inline image by a twenty-fifth of its URL's length
      but never more than 2000 tokens. */
  lemma ImageCharges(url: string, jsonLength: seq<ToolCall> -> nat)
    ensures var m := Message(User, Parts([ImagePart(url)]), None, None);
      && (!StartsWith(url, "data:") ==> MessageTokens(m, jsonLength) == 1000)
      && (StartsWith(url, "data:") ==> MessageTokens(m, jsonLength) == CeilDiv(Min(|url|, 200000), 100))
      && MessageTokens(m, jsonLength) <= 2000
  {
    var parts := [ImagePart(url)];
    assert parts[..0] == [];
    assert PartsUnits(parts) == PartUnits(ImagePart(url));
  }

  /** A tool result costs 50 characters more than the same message without
      its call id. */
  lemma ToolResultOverhead(m: Message, id: string, jsonLength: seq<ToolCall> -> nat)
    ensures MessageUnits(m.(toolCallId := Some(id)), jsonLength)
            == MessageUnits(m.(toolCallId := None), jsonLength) + 50 * Scale
  {
  }

  // ---------------------------------------------------------------------------
  // Conversation ids

  predicate IsHexDigit(c: char) {
    ('0' <= c <= '9') || ('a' <= c <= 'f') || ('A' <= c <= 'F')
  }

  predicate AllHex(s: string) {
    forall i :: 0 <= i < |s| ==> IsHexDigit(s[i])
  }

  predicate IsDashPosition(i: int) {
    i == 8 || i == 13 || i == 18 || i == 23
  }

  /** `isConversationId`: the 8-4-4-4-12 UUID shape, hex digits in either
      case. */
  predicate IsConversationId(key: string) {
    |key| == 36 && forall i :: 0 <= i < 36 ==> if IsDashPosition(i) then key[i] == '-' else IsHexDigit(key[i])
  }

  predicate UuidGroups(g: seq<string>) {
    |g| == 5 && |g[0]| == 8 && |g[1]| == 4 && |g[2]| == 4 && |g[3]| == 4 && |g[4]| == 12
    && forall k :: 0 <= k < 5 ==> AllHex(g[k])
  }

  lemma HexHasNoDash(s: string)
    requires AllHex(s)
    ensures '-' !in s
  {
    assert forall i :: 0 <= i < |s| ==> s[i] != '-';
  }

  /** An id splits at its dashes into five hex groups of 8, 4, 4, 4 and 12
      digits. */
  lemma IdGroups(key: string)
    requires IsConversationId(key)
    ensures UuidGroups(SplitOn(key, '-'))
    ensures Join(SplitOn(key, '-'), "-") == key
  {
    var g := [key[..8], key[9..13], key[14..18], key[19..23], key[24..]];
    assert AllHex(g[0]) && AllHex(g[1]) && AllHex(g[2]) && AllHex(g[3]) && AllHex(g[4]);
    assert key == Join(g, "-") by {
      JoinFive(g, "-");
    }
    GroupsSplit(g);
    SplitJoinRoundTrip(key, '-');
  }

  /** Five hex groups of the right lengths, joined by dashes, make an id. */
  lemma GroupsId(g: seq<string>)
    requires UuidGroups(g)
    ensures IsConversationId(Join(g, "-"))
    ensures SplitOn(Join(g, "-"), '-') == g
  {
    var key := Join(g, "-");
    JoinFive(g, "-");
    forall i | 0 <= i < 36
      ensures if IsDashPosition(i) then key[i] == '-' else IsHexDigit(key[i])
    {
      if i < 8 { assert key[i] == g[0][i]; }
      else if 8 < i < 13 { assert key[i] == g[1][i - 9]; }
      else if 13 < i < 18 { assert key[i] == g[2][i - 14]; }
      else if 18 < i < 23 { assert key[i] == g[3][i - 19]; }
      else if 23 < i { assert key[i] == g[4][i - 24]; }
    }
    GroupsSplit(g);
  }

  lemma JoinFive(g: seq<string>, sep: string)
    requires |g| == 5
    ensures Join(g, sep) == g[0] + sep + g[1] + sep + g[2] + sep + g[3] + sep + g[4]
  {
    assert g[1..][1..] == g[2..] && g[2..][1..] == g[3..] && g[3..][1..] == g[4..];
    assert Join(g[4..], sep) == g[4];
    var j3 := Join(g[3..], sep);
    assert j3 == g[3] + sep + g[4];
    var j2 := Join(g[2..], sep);
    assert j2 == g[2] + sep + j3;
    var j1 := Join(g[1..], sep);
    assert j1 == g[1] + sep + j2;
    assert Join(g, sep) == g[0] + sep + j1;
  }

  lemma GroupsSplit(g: seq<string>)
    requires |g| == 5 && forall k :: 0 <= k < 5 ==> AllHex(g[k])
    ensures SplitOn(Join(g, "-"), '-') == g
  {
    forall k | 0 <= k < 5
      ensures '-' !in g[k]
    {
      HexHasNoDash(g[k]);
    }
    JoinSplitRoundTrip(g, '-');
  }

  // ---------------------------------------------------------------------------
  // The plan store

  /** The in-memory cache and the conversation database's plans. */
  datatype PlanState = PlanState(cache: map<string, string>, db: map<string, string>)

  datatype PlanRead = PlanRead(plan: Option<string>, state: PlanState)

  /** `savePlan`: always into the cache; into the database too when the key
      is a conversation id and the write does not fail. */
  function SavePlan(st: PlanState, key: string, plan: string, dbFails: bool): PlanState {
    PlanState(st.cache[key := plan],
              if IsConversationId(key) && !dbFails then st.db[key := plan] else st.db)
  }

  /** `getPlan`: a non-empty cached plan; otherwise, for a conversation id, a
      non-empty plan from the database, which is then cached. */
  function GetPlan(st: PlanState, key: string, dbFails: bool): PlanRead {
    if key in st.cache && st.cache[key] != "" then PlanRead(Some(st.cache[key]), st)
    else if IsConversationId(key) && !dbFails && key in st.db && st.db[key] != "" then
      PlanRead(Some(st.db[key]), st.(cache := st.cache[key := st.db[key]]))
    else PlanRead(None, st)
  }

  /** `clearPlan`: out of the cache; emptied in the database for a
      conversation id when the write does not fail. */
  function ClearPlan(st: PlanState, key: string, dbFails: bool): PlanState {
    PlanState(st.cache - {key},
              if IsConversationId(key) && !dbFails then st.db[key := ""] else st.db)
  }

  /** A saved non-empty plan is read back, whatever the database does. */
  lemma SaveThenGet(st: PlanState, key: string, plan: string, saveFails: bool, getFails: bool)
    requires plan != ""
    ensures var st' := SavePlan(st, key, plan, saveFails);
      GetPlan(st', key, getFails) == PlanRead(Some(plan), st')
  {
  }

  /** After a clear that reached the database (or did not need to), there
      is no plan. */
  lemma ClearThenGet(st: PlanState, key: string, clearFails: bool, getFails: bool)
    requires !IsConversationId(key) || !clearFails
    ensures GetPlan(ClearPlan(st, key, clearFails), key, getFails).plan.None?
  {
  }

  /** A clear whose database write failed leaves the old plan to be loaded
      again from the database. */
  lemma FailedClearReloads(st: PlanState, key: string)
    requires IsConversationId(key) && key in st.db && st.db[key] != ""
    ensures GetPlan(ClearPlan(st, key, true), key, false).plan == Some(st.db[key])
  {
  }

  /** Only conversation ids reach the database, and a plan loaded from it is
      served from the cache afterwards even when the database fails. */
  lemma DatabaseOnlyForIds(st: PlanState, key: string, plan: string, dbFails: bool)
    ensures !IsConversationId(key) ==>
      && SavePlan(st, key, plan, dbFails).db == st.db
      && ClearPlan(st, key, dbFails).db == st.db
      && (GetPlan(st, key, dbFails).plan.Some? ==> key in st.cache)
    ensures var r := GetPlan(st, key, dbFails);
      r.plan.Some? ==> GetPlan(r.state, key, true) == PlanRead(r.plan, r.state)
  {
  }

  /** No operation touches another key. */
  lemma OtherKeysUntouched(st: PlanState, key: string, other: string, plan: string, dbFails: bool)
    requires other != key
    ensures var s := SavePlan(st, key, plan, dbFails);
      (other in s.cache <==> other in st.cache) && (other in st.cache ==> s.cache[other] == st.cache[other])
      && (other in s.db <==> other in st.db) && (other in st.db ==> s.db[other] == st.db[other])
    ensures var c := ClearPlan(st, key, dbFails);
      (other in c.cache <==> other in st.cache) && (other in st.cache ==> c.cache[other] == st.cache[other])
      && (other in c.db <==> other in st.db) && (other in st.db ==> c.db[other] == st.db[other])
  {
  }

  // ---------------------------------------------------------------------------
  // The plan tools

  const SavePlanTool := "agent_save_plan"
  const GetPlanTool := "agent_get_plan"

  /** What a plan tool answers; `Render` gives its JSON text. */
  datatype ToolReply = MissingPlan | PlanSaved | PlanFound(plan: string) | NoPlanYet | UnknownTool(name: string)

  datatype ToolOutcome = ToolOutcome(reply: ToolReply, state: PlanState)

  /** `executePlanTool`, with the `plan` argument given when it is a string. */
  function ExecuteTool(st: PlanState, toolName: string, plan: Option<string>, key: string, dbFails: bool): ToolOutcome {
    if toolName == SavePlanTool then
      if plan.None? || plan.value == "" then ToolOutcome(MissingPlan, st)
      else ToolOutcome(PlanSaved, SavePlan(st, key, plan.value, dbFails))
    else if toolName == GetPlanTool then
      var r := GetPlan(st, key, dbFails);
      if r.plan.Some? then ToolOutcome(PlanFound(r.plan.value), r.state) else ToolOutcome(NoPlanYet, r.state)
    else ToolOutcome(UnknownTool(toolName), st)
  }

  /** The JSON text of a reply; `quote` is `JSON.stringify` on a string. */
  function Render(reply: ToolReply, quote: string -> string): string {
    match reply
    case MissingPlan => "{\"error\":\"plan parameter is required\"}"
    case PlanSaved => "{\"success\":true,\"message\":\"Plan saved successfully\"}"
    case PlanFound(plan) => "{\"success\":true,\"plan\":" + quote(plan) + "}"
    case NoPlanYet => "{\"success\":true,\"plan\":null,\"message\":\"No plan saved yet\"}"
    case UnknownTool(name) => "{\"error\":" + quote("Unknown plan tool: " + name) + "}"
  }

  /** A missing or empty plan and an unknown tool are refused and change
      nothing. */
  lemma ToolRejects(st: PlanState, toolName: string, plan: Option<string>, key: string, dbFails: bool)
    ensures toolName == SavePlanTool && (plan.None? || plan == Some("")) ==>
      ExecuteTool(st, toolName, plan, key, dbFails) == ToolOutcome(MissingPlan, st)
    ensures toolName != SavePlanTool && toolName != GetPlanTool ==>
      ExecuteTool(st, toolName, plan, key, dbFails) == ToolOutcome(UnknownTool(toolName), st)
  {
  }

  /** Saving a plan with the tool and then asking for it returns it. */
  lemma ToolSaveThenGet(st: PlanState, plan: string, key: string, saveFails: bool, getFails: bool, other: Option<string>)
    requires plan != ""
    ensures var saved := ExecuteTool(st, SavePlanTool, Some(plan), key, saveFails);
      && saved.reply == PlanSaved
      && ExecuteTool(saved.state, GetPlanTool, other, key, getFails).reply == PlanFound(plan)
  {
    SaveThenGet(st, key, plan, saveFails, getFails);
  }

  /** The module-level plan cache, with the conversation database beside it. */
  class PlanStore {
    var cache: map<string, string>
    var db: map<string, string>

    function State(): PlanState
      reads this
    {
      PlanState(cache, db)
    }

    constructor (db: map<string, string>)
      ensures State() == PlanState(map[], db)
    {
      cache := map[];
      this.db := db;
    }

    method Save(key: string, plan: string, dbFails: bool)
      modifies this
      ensures State() == SavePlan(old(State()), key, plan, dbFails)
    {
      cache := cache[key := plan];
      if IsConversationId(key) && !dbFails {
        db := db[key := plan];
      }
    }

    method Get(key: string, dbFails: bool) returns (plan: Option<string>)
      modifies this
      ensures PlanRead(plan, State()) == GetPlan(old(State()), key, dbFails)
    {
      if key in cache && cache[key] != "" {
        return Some(cache[key]);
      }
      if IsConversationId(key) && !dbFails && key in db && db[key] != "" {
        var loaded := db[key];
        cache := cache[key := loaded];
        return Some(loaded);
      }
      return None;
    }

    method Clear(key: string, dbFails: bool)
      modifies this
      ensures State() == ClearPlan(old(State()), key, dbFails)
    {
      cache := cache - {key};
      if IsConversationId(key) && !dbFails {
        db := db[key := ""];
      }
    }

    method ExecutePlanTool(toolName: string, plan: Option<string>, key: string, dbFails: bool)
      returns (reply: ToolReply)
      modifies this
      ensures ToolOutcome(reply, State()) == ExecuteTool(old(State()), toolName, plan, key, dbFails)
    {
      if toolName == SavePlanTool {
        if plan.None? || plan.value == "" {
          return MissingPlan;
        }
        Save(key, plan.value, dbFails);
        return PlanSaved;
      }
      if toolName == GetPlanTool {
        var found := Get(key, dbFails);
        if found.Some? {
          return PlanFound(found.value);
        }
        return NoPlanYet;
      }
      return UnknownTool(toolName);
    }
  }

  // ---------------------------------------------------------------------------
  // Summarisation

  const SoftLimit := 100000
  const HardLimit := 180000
  const RecentToKeep := 10
  const KeptWhenOverHardLimit := 3

  datatype Summarized = Summarized(messages: seq<Message>, wasSummarized: bool, tokensBefore: nat, tokensAfter: nat)

  /** The user message that stands for the summarised older messages. */
  function SummaryMessage(summary: string): Message {
    Message(User,
      Str("[CONVERSATION SUMMARY - Earlier messages have been summarized to save context]\n\n" + summary
          + "\n\n[END SUMMARY - Recent messages follow]"),
      None, None)
  }

  /** The last `n` messages (all of them when there are fewer). */
  function Last(messages: seq<Message>, n: nat): seq<Message> {
    messages[|messages| - Min(n, |messages|)..]
  }

  /** `summarizeIfNeeded`, given what the language model answers. */
  function SummarizeIfNeeded(systemPrompt: string, messages: seq<Message>, force: bool,
                             llm: Result<string, string>, jsonLength: seq<ToolCall> -> nat): Summarized
  {
    var before := TotalTokens(systemPrompt, messages, jsonLength);
    var recentCount := Min(RecentToKeep, |messages|);
    if !force && before < SoftLimit then Summarized(messages, false, before, before)
    else if |messages| - recentCount == 0 then Summarized(messages, false, before, before)
    else match llm
      case Ok(summary) => Condensed(systemPrompt, messages[|messages| - recentCount..], summary, before, jsonLength)
      case Err(_) => Truncated(systemPrompt, Last(messages, RecentToKeep), before, jsonLength)
  }

  /** The summary followed by the recent messages, or by the last three of
      them when that is still over the hard limit. */
  function Condensed(systemPrompt: string, recent: seq<Message>, summary: string, before: nat,
                     jsonLength: seq<ToolCall> -> nat): Summarized
  {
    var summarized := [SummaryMessage(summary)] + recent;
    var after := TotalTokens(systemPrompt, summarized, jsonLength);
    if after > HardLimit then
      Truncated(systemPrompt, [SummaryMessage(summary)] + Last(recent, KeptWhenOverHardLimit), before, jsonLength)
    else Summarized(summarized, true, before, after)
  }

  function Truncated(systemPrompt: string, kept: seq<Message>, before: nat, jsonLength: seq<ToolCall> -> nat): Summarized {
    Summarized(kept, true, before, TotalTokens(systemPrompt, kept, jsonLength))
  }

  /** `forceSummarize`. */
  function ForceSummarize(systemPrompt: string, messages: seq<Message>,
                          llm: Result<string, string>, jsonLength: seq<ToolCall> -> nat): Summarized
  {
    SummarizeIfNeeded(systemPrompt, messages, true, llm, jsonLength)
  }

  /** The two counts are always the estimates of the input and of the
      output. */
  lemma SummaryCounts(systemPrompt: string, messages: seq<Message>, force: bool,
                      llm: Result<string, string>, jsonLength: seq<ToolCall> -> nat)
    ensures var r := SummarizeIfNeeded(systemPrompt, messages, force, llm, jsonLength);
      && r.tokensBefore == TotalTokens(systemPrompt, messages, jsonLength)
      && r.tokensAfter == TotalTokens(systemPrompt, r.messages, jsonLength)
  {
    if llm.Ok? {
      var recent := messages[|messages| - Min(RecentToKeep, |messages|)..];
      CondensedCounts(systemPrompt, recent, llm.value, TotalTokens(systemPrompt, messages, jsonLength), jsonLength);
    }
  }

  /** The counts of `Condensed` are those of its input and of its output. */
  lemma CondensedCounts(systemPrompt: string, recent: seq<Message>, summary: string, before: nat,
                        jsonLength: seq<ToolCall> -> nat)
    ensures var r := Condensed(systemPrompt, recent, summary, before, jsonLength);
      && r.tokensBefore == before
      && r.tokensAfter == TotalTokens(systemPrompt, r.messages, jsonLength)
  {
  }

  /** Below the soft limit, or with no more than ten messages, nothing is
      summarised and the messages come back as they were. */
  lemma NothingToSummarize(systemPrompt: string, messages: seq<Message>, force: bool,
                           llm: Result<string, string>, jsonLength: seq<ToolCall> -> nat)
    requires (!force && TotalTokens(systemPrompt, messages, jsonLength) < SoftLimit) || |messages| <= RecentToKeep
    ensures var r := SummarizeIfNeeded(systemPrompt, messages, force, llm, jsonLength);
      r.messages == messages && !r.wasSummarized && r.tokensAfter == r.tokensBefore
  {
  }

  /** When the model answers, the summary comes first, followed by the last
      ten messages, or by the last three of them when those ten still
      exceed the hard limit. */
  lemma SummarySucceeds(systemPrompt: string, messages: seq<Message>, force: bool,
                        summary: string, jsonLength: seq<ToolCall> -> nat)
    requires force || TotalTokens(systemPrompt, messages, jsonLength) >= SoftLimit
    requires |messages| > RecentToKeep
    ensures var r := SummarizeIfNeeded(systemPrompt, messages, force, Ok(summary), jsonLength);
      var full := [SummaryMessage(summary)] + messages[|messages| - 10..];
      && r.wasSummarized
      && (TotalTokens(systemPrompt, full, jsonLength) <= HardLimit ==> r.messages == full)
      && (TotalTokens(systemPrompt, full, jsonLength) > HardLimit ==>
            r.messages == [SummaryMessage(summary)] + messages[|messages| - 3..])
  {
    var recent := messages[|messages| - 10..];
    assert SummarizeIfNeeded(systemPrompt, messages, force, Ok(summary), jsonLength)
        == Condensed(systemPrompt, recent, summary, TotalTokens(systemPrompt, messages, jsonLength), jsonLength);
    assert Last(recent, 3) == messages[|messages| - 3..];
  }

  /** When the model fails, the last ten messages are kept and the
      conversation counts as summarised. */
  lemma SummaryFails(systemPrompt: string, messages: seq<Message>, force: bool,
                     error: string, jsonLength: seq<ToolCall> -> nat)
    requires force || TotalTokens(systemPrompt, messages, jsonLength) >= SoftLimit
    requires |messages| > RecentToKeep
    ensures var r := SummarizeIfNeeded(systemPrompt, messages, force, Err(error), jsonLength);
      && r.wasSummarized && r.messages == messages[|messages| - 10..]
      && r.tokensAfter <= r.tokensBefore
  {
    SuffixTokens(systemPrompt, messages, |messages| - 10, jsonLength);
  }

  /** Apart from the summary, what is kept is a suffix of the input, and at
      most eleven messages come out of a summarisation. */
  lemma SummaryKeepsSuffix(systemPrompt: string, messages: seq<Message>, force: bool,
                           llm: Result<string, string>, jsonLength: seq<ToolCall> -> nat)
    ensures var r := SummarizeIfNeeded(systemPrompt, messages, force, llm, jsonLength);
      r.wasSummarized ==>
        && |r.messages| <= RecentToKeep + 1
        && var kept := if llm.Ok? then r.messages[1..] else r.messages;
           && |kept| <= |messages|
           && kept == messages[|messages| - |kept|..]
  {
    var r := SummarizeIfNeeded(systemPrompt, messages, force, llm, jsonLength);
    if r.wasSummarized {
      assert |messages| > RecentToKeep;
      if llm.Ok? {
        SummarySucceeds(systemPrompt, messages, force, llm.value, jsonLength);
      } else {
        SummaryFails(systemPrompt, messages, force, llm.error, jsonLength);
      }
    }
  }
}
