# showrun core, modelled in Dafny

showrun runs "task packs": small browser-automation programs that carry a
declarative flow or a `run` function. They are run from a command line, from
an MCP server, or from a dashboard with an AI chat. This project models eight
self-contained pieces of that system and proves what each one promises.

| file | module | models |
|---|---|---|
| `text.dfy` | `Text` | the JavaScript string helpers the rest relies on: `trim`, ASCII `toLowerCase`/`toUpperCase`, decimal rendering and reading, `split`/`join`, `indexOf`, `filter(Boolean)` |
| `pack_names.dfy` | `PackNames` | `packIdToToolName`, which turns a pack id into an MCP tool name |
| `url_encoding.dfy` | `UrlEncoding` | `encodeURIComponent` (UTF-8 percent-encoding) and its inverse, used by the `urlencode` filter |
| `templating.dfy` | `Templating` | `resolveTemplate` / `resolveTemplates` over the marker grammar `{{ src.path [\| filter]* }}`, with `src` one of `inputs`, `vars` and `secret`, and the filters `upper` and `urlencode` |
| `runner.dfy` | `Runner` | `runTaskPack`: the headless decision, the run paths, the event log, the result on success and failure, best-effort error artifacts and guaranteed teardown. The browser, the validator and the flow are oracles. |
| `cli.dfy` | `Cli` | `parseArgs` of the MCP server: defaults, last-wins flags, validation of `--concurrency` and `--port`, and the pack list |
| `chat_commands.dfy` | `ChatCommands` | the slash commands of the chat: `parseCommand`, `findCommand`, the registry, the help and status texts, and the effects of `clear`, `new` and `summarize` |
| `chat_input.dfy` | `ChatInput` | the chat input box: the suggestion list, cyclic selection, and the Tab, Escape, Enter and click rules |
| `context_manager.dfy` | `ContextManager` | the conversation context manager: token estimates, conversation-id recognition, the plan store (a cache in front of the database), `summarizeIfNeeded` and `executePlanTool` |
| `version_panel.dfy` | `VersionPanel` | `timeAgo` and the newest-first order of a flow's version history |

Some source code works by changing things step by step. That code is modelled
imperatively, and each method is proved against a specification function:

- `parseArgs` is the method `Cli.ParseArgs`. Its loop over the arguments is the method `Cli.ScanArgs`, which keeps the loop's nine branches and holds the parser's seven variables in one `Settings` record.
- The character-counting loops of the token estimate are
  `ContextManager.EstimateMessageTokens` and `ContextManager.EstimateTotalTokens`.
- The copy-and-reverse of the version list is `VersionPanel.SortedVersions`, an in-place reversal of an array.
- The module-level plan cache is the class `ContextManager.PlanStore`.
- The React state of the input box is the class `ChatInput.InputBox`.
- The command context is the class `ChatCommands.CommandContext`.
- The run itself is `Runner.RunTaskPack`. It works over an `EventLog` class and a `Playwright` class, which records what was launched, opened and closed.

Everything else is datatypes, functions and lemmas.

Notes on the model:

- **Tab completion.** After Tab completes a command, the suggestion list is
  not empty. Suggestions are computed on the trimmed value
  (`ChatInput.tsx:37-38`). The trailing space of `'/' + name + ' '` is trimmed
  away, so the completed command is still offered; see
  `ChatInput.CompletionSuggestsItself`.
- **The templating library.** The template engine itself is not part of this
  model. Its behaviour is taken from its tests, restricted to the grammar those
  tests use. A marker outside that grammar is modelled as an error, which the
  library does not always agree with (see "Left out").

## Model

| member | source | states |
|---|---|---|
| `Text.Trim` | packages/mcp-server/src/cli.ts:78 | the result is a contiguous slice of the input with only JavaScript white space removed at both ends, and has no white space at either end |
| `Text.TrimIdempotent` | packages/dashboard/src/ui/chatCommands.ts:29 | trimming twice is trimming once |
| `Text.NatToStringRoundTrip` | packages/dashboard/src/ui/VersionPanel.tsx:21-25 | the decimal rendering of a number reads back as that number |
| `Text.SplitJoinRoundTrip` | packages/mcp-server/src/cli.ts:78 | joining the pieces of `split(c)` with `c` gives back the string |
| `Text.JoinSplitRoundTrip` | packages/mcp-server/src/cli.ts:78 | splitting a join of separator-free pieces gives back the pieces |
| `Text.NonEmpty` | packages/mcp-server/src/cli.ts:78 | `filter(Boolean)` keeps every non-empty entry and only those, each taken from the input |
| `Text.NonEmptyAppend` | packages/mcp-server/src/cli.ts:78 | the kept entries of a concatenation are those of the first part followed by those of the second, so filtering keeps the order |
| `PackNames.PackIdToToolName` | packages/mcp-server/src/__tests__/packDiscovery.test.ts:33-35 | the tool name has the length of the id, maps each character on its own, and uses only letters, digits, `-` and `_` |
| `PackNames.DotsBecomeDashes` | packages/mcp-server/src/__tests__/packDiscovery.test.ts:5-7 | every `.` becomes `-` |
| `PackNames.ValidCharsKept` | packages/mcp-server/src/__tests__/packDiscovery.test.ts:9-15 | letters, digits, `-` and `_` are kept |
| `PackNames.OtherCharsBecomeUnderscores` | packages/mcp-server/src/__tests__/packDiscovery.test.ts:17-27 | any other character becomes `_` |
| `PackNames.ToolNameFixedPoint` | packages/mcp-server/src/__tests__/packDiscovery.test.ts:41-47 | a valid tool name is its own tool name |
| `PackNames.SanitizeIdempotent` | packages/mcp-server/src/__tests__/packDiscovery.test.ts:5-55 | applying the map twice equals applying it once |
| `PackNames.DistinctIdsMayCollide` | packages/mcp-server/src/__tests__/packDiscovery.test.ts:49-51 | the map is not injective: `a.b` and `a-b` share a tool name |
| `PackNames.ExampleDotsReplaced` | packages/mcp-server/src/__tests__/packDiscovery.test.ts:5-7 | `example.site.collector` gives `example-site-collector` |
| `PackNames.ExampleDashUnderscoreDigitKept` | packages/mcp-server/src/__tests__/packDiscovery.test.ts:9-11 | `my-pack_v1` is unchanged |
| `PackNames.ExampleAlphanumericKept` | packages/mcp-server/src/__tests__/packDiscovery.test.ts:13-15 | `pack123ABC` is unchanged |
| `PackNames.ExampleAtReplaced` | packages/mcp-server/src/__tests__/packDiscovery.test.ts:17-19 | `pack@v1` gives `pack_v1` |
| `PackNames.ExampleSpecialCharsReplaced` | packages/mcp-server/src/__tests__/packDiscovery.test.ts:21-23 | `pack@v1!test` gives `pack_v1_test` |
| `PackNames.ExampleManySpecialCharsReplaced` | packages/mcp-server/src/__tests__/packDiscovery.test.ts:25-27 | `a@b#c$d%e` gives `a_b_c_d_e` |
| `PackNames.ExampleEmptyId` | packages/mcp-server/src/__tests__/packDiscovery.test.ts:29-31 | the empty id gives the empty name |
| `PackNames.ExampleOnlySpecialChars` | packages/mcp-server/src/__tests__/packDiscovery.test.ts:33-35 | `!@#$%` gives five underscores |
| `PackNames.ExampleSpacesReplaced` | packages/mcp-server/src/__tests__/packDiscovery.test.ts:37-39 | spaces become `_` |
| `PackNames.ExampleHyphensKept` | packages/mcp-server/src/__tests__/packDiscovery.test.ts:41-43 | `my-task-pack` is unchanged |
| `PackNames.ExampleUnderscoresKept` | packages/mcp-server/src/__tests__/packDiscovery.test.ts:45-47 | `my_task_pack` is unchanged |
| `PackNames.ExampleDottedIdConverted` | packages/mcp-server/src/__tests__/packDiscovery.test.ts:49-51 | `com.example.pack` gives `com-example-pack` |
| `PackNames.ExampleMixedCharsConverted` | packages/mcp-server/src/__tests__/packDiscovery.test.ts:53-55 | `my-pack.v1@beta!test` gives `my-pack-v1_beta_test` |
| `UrlEncoding.UrlRoundTrip` | packages/core/src/__tests__/templating.test.ts:172-180 | percent-decoding undoes `encodeURIComponent` for every string |
| `UrlEncoding.UnreservedKept` | packages/core/src/__tests__/templating.test.ts:172-180 | a string of unreserved characters is encoded as itself |
| `UrlEncoding.UrlEncodeAppend` | packages/core/src/__tests__/templating.test.ts:172-180 | encoding works character by character: the encoding of a concatenation is the concatenation of the encodings |
| `UrlEncoding.SpaceEncoding` | packages/core/src/__tests__/templating.test.ts:179 | a space is encoded as `%20` |
| `UrlEncoding.Utf8Decodes` | packages/core/src/__tests__/templating.test.ts:172-180 | the UTF-8 bytes of a character decode back to that character |
| `Templating.ResolveTemplate` | packages/core/src/__tests__/templating.test.ts:6-50 | `resolveTemplate`: parse the markers, then render each one; `ResolveComposed`, `ResolveOneKey`, `NoMarkerUnchanged` and `MissingPathIsEmpty` state what it gives |
| `Templating.NoMarkerUnchanged` | packages/core/src/__tests__/templating.test.ts:120-128 | a string without `{{` is returned unchanged |
| `Templating.ExampleNoTemplate` | packages/core/src/__tests__/templating.test.ts:120-128 | `Just a regular string` is returned unchanged |
| `Templating.ExampleEmptyTemplate` | packages/core/src/__tests__/templating.test.ts:130-138 | the empty template gives the empty string |
| `Templating.ResolveComposed` | packages/core/src/__tests__/templating.test.ts:27-38 | a template of literal text and markers resolves to the text with each marker replaced by its value, in order |
| `Templating.ResolveOneKey` | packages/core/src/__tests__/templating.test.ts:7-25 | a single `{{src.key}}` marker is replaced by the decimal or string rendering of the value at that key, and the text around it is kept |
| `Templating.ExampleInputVariable` | packages/core/src/__tests__/templating.test.ts:7-15 | `Hello {{inputs.username}}!` gives `Hello john!` |
| `Templating.ExampleVarsVariable` | packages/core/src/__tests__/templating.test.ts:17-25 | `Count: {{vars.counter}}` with counter 42 gives `Count: 42` |
| `Templating.ExampleTwoMarkers` | packages/core/src/__tests__/templating.test.ts:27-38 | the test's two-marker template, written as its pieces, gives `Name: John Doe` |
| `Templating.ExampleSecret` | packages/core/src/__tests__/templating.test.ts:40-49 | `{{secret.API_KEY}}` reads the secrets |
| `Templating.MissingPathIsEmpty` | packages/core/src/__tests__/templating.test.ts:109-118 | a path that finds nothing renders as the empty string, before any filters |
| `Templating.MissingSources` | packages/core/src/__tests__/templating.test.ts:109-118 | an absent input or var key, or absent secrets, finds nothing |
| `Templating.ExampleMissingVariable` | packages/core/src/__tests__/templating.test.ts:109-118 | `Hello {{inputs.missing}}!` gives `Hello !` rather than an error |
| `Templating.ResolveTemplates` | packages/core/src/__tests__/templating.test.ts:52-105 | resolving a value keeps its shape: the same keys in the same order, the same array length and the same non-string leaves; a value without markers is returned as is |
| `Templating.ResolveFields` | packages/core/src/__tests__/templating.test.ts:53-93 | an object resolves field by field, keeping its keys and their order |
| `Templating.ResolveItems` | packages/core/src/__tests__/templating.test.ts:95-105 | an array resolves element by element, in order |
| `Templating.ResolveWholeMarker` | packages/core/src/__tests__/templating.test.ts:53-71 | a string that is one marker resolves to the value's text |
| `Templating.ExamplePrimitives` | packages/core/src/__tests__/templating.test.ts:140-168 | a number, a boolean and null are returned unchanged |
| `Templating.ExampleUrlencodeFilter` | packages/core/src/__tests__/templating.test.ts:172-180 | `{{inputs.query \| urlencode}}` percent-encodes `hello world` as `hello%20world` |
| `Templating.ExampleUpperFilter` | packages/core/src/__tests__/templating.test.ts:182-190 | `{{inputs.text \| upper}}` gives `HELLO` |
| `Templating.ParseFilteredPath` | packages/core/src/__tests__/templating.test.ts:172-190 | `src.key \| upper` and `src.key \| urlencode` parse to a marker with that one filter |
| `Templating.ResolveNestedPath` | packages/core/src/__tests__/templating.test.ts:194-203 | a two-step dotted path is replaced by the nested field's value |
| `Templating.ExampleNestedPath` | packages/core/src/__tests__/templating.test.ts:194-203 | `{{vars.user.name}}` reaches the nested name |
| `Templating.ExampleCombinedSources` | packages/core/src/__tests__/templating.test.ts:205-217 | the test's template over inputs, vars and secrets, written as its pieces, gives `Mr. Smith Jr.` |
| `Runner.HeadlessChoice` | packages/core/src/runner.ts:65 | headless unless headful was requested and a display exists; a warning exactly when headful was requested without a display |
| `Runner.ResultPaths` | packages/core/src/runner.ts:66-67 | on every path the result carries the run directory, `runDir/events.jsonl` and `runDir/artifacts` |
| `Runner.ValidationFailure` | packages/core/src/runner.ts:92-105 | an input rejected by validation logs only `error` then `run_finished(false)`, launches no browser and returns empty collectibles with notes `Error: <message>` |
| `Runner.EventShape` | packages/core/src/runner.ts:95-102 | two or three events; the last is `run_finished` with success exactly when nothing failed; `run_started` comes first exactly when validation passed; an `error` event exactly when something failed |
| `Runner.SuccessfulRun` | packages/core/src/runner.ts:150-166 | with no failure the events are `run_started` then `run_finished(true)`, and the result carries the program's collectibles and meta |
| `Runner.FailedRun` | packages/core/src/runner.ts:210-219 | any failure gives empty collectibles and notes `Error: <message>`, and the log ends with `error` then `run_finished(false)` |
| `Runner.FlowTakesPrecedence` | packages/core/src/runner.ts:123-143 | a pack with a flow runs the flow whatever its `run` and the run oracle do |
| `Runner.NeitherFlowNorRun` | packages/core/src/runner.ts:144-148 | a pack with neither a flow nor `run` fails with the fixed message |
| `Runner.FlowSucceeds` | packages/core/src/runner.ts:138 | a successful flow's notes read `Executed k/n steps` |
| `Runner.StepsNoteInjective` | packages/core/src/runner.ts:138 | the steps note determines both step counts |
| `Runner.ArtifactsBestEffort` | packages/core/src/runner.ts:180-198 | error artifacts are attempted only after a failure with a page open, at most three are saved, and how many of them succeed changes neither the events nor the result |
| `Runner.BrowserLifecycle` | packages/core/src/runner.ts:105-107 | a browser is launched exactly when validation passed and the launch succeeded; a page is open exactly when the context and the page also opened |
| `Runner.SetupStagesPassed` | packages/core/src/runner.ts:92-119 | the stages before execution pass or fail as the setup alone decides |
| `Runner.RunTaskPack` | packages/core/src/runner.ts:60-229 | appends the lifecycle's events to the log, returns its result and warning, and leaves the browser launched, the page opened and the artifacts saved as the lifecycle says; the page is closed exactly when it was opened and the browser exactly when it was launched |
| `Runner.ExecutePack` | packages/core/src/runner.ts:123-148 | runs the flow or `run`; a flow's notes are the steps note; a pack with neither fails with the fixed message |
| `Runner.SaveErrorArtifacts` | packages/core/src/runner.ts:180-198 | the saved artifacts are the steps up to the first one that fails |
| `Runner.EventLog.Log` | packages/core/src/runner.ts:95 | appends one event |
| `Runner.Playwright.Launch` | packages/core/src/runner.ts:105 | records the headless mode on success and reports the oracle's error otherwise |
| `Runner.Playwright.Perform` | packages/core/src/runner.ts:183-192 | records an artifact step only while saving still succeeds |
| `Cli.ParseArgs` | packages/mcp-server/src/cli.ts:18-94 | the result is the fold of the arguments followed by the pack-list checks; on success concurrency is at least 1, the port is in 1..65535 and there is at least one pack |
| `Cli.Scan` | packages/mcp-server/src/cli.ts:29-60 | the loop as a fold over the arguments: a switch sets its option, a value flag with a following argument applies its value or fails validation, anything else is skipped; its properties are the lemmas below |
| `Cli.ScanArgs` | packages/mcp-server/src/cli.ts:20-60 | the loop ends with the settings of the fold over the arguments, or stops with the fold's validation error |
| `Cli.ScanStep` | packages/mcp-server/src/cli.ts:30-59 | one turn of the loop: the fold's step in each of the loop's nine branches, in the loop's own order |
| `Cli.Conclude` | packages/mcp-server/src/cli.ts:62-93 | after the loop: fails as missing without a non-empty `--packs` value, fails when no directory is left, and otherwise returns at least one resolved directory with the scanned concurrency and port |
| `Cli.ParseInt` | packages/mcp-server/src/cli.ts:38 | `parseInt(v, 10)`; `ParseIntOfNat` and `ParseIntNoDigits` state what it reads |
| `Cli.DefaultOptions` | packages/mcp-server/src/cli.ts:22-27 | with only `--packs` the options are headful iff a display exists, concurrency 1, base run dir `./runs` resolved, http off, port 3000 and host `127.0.0.1` |
| `Cli.UnknownIgnored` | packages/mcp-server/src/cli.ts:29-60 | an unknown argument changes nothing |
| `Cli.TrailingValueFlagIgnored` | packages/mcp-server/src/cli.ts:29-60 | a value flag in last position, with no value after it, is ignored |
| `Cli.SwitchLastWins` | packages/mcp-server/src/cli.ts:33-36 | of two adjacent `--headful`/`--headless` switches, the later one decides, whether or not the parse succeeds |
| `Cli.ValueLastWins` | packages/mcp-server/src/cli.ts:30-58 | a value flag repeated right after its accepted value keeps the later value, whether or not the parse succeeds |
| `Cli.HeadfulLastWins` | packages/mcp-server/src/cli.ts:33-36 | after a successful scan, headful is the choice of the last `--headful` or `--headless` read as a flag, whatever lies between the repeats, or the earlier setting when there is none |
| `Cli.HttpOnceGiven` | packages/mcp-server/src/cli.ts:46-47 | after a successful scan, `http` is on exactly when it was on before or `--http` appears as a flag |
| `Cli.TextLastWins` | packages/mcp-server/src/cli.ts:30-58 | after a successful scan, `--packs`, `--baseRunDir` and `--host` each hold the value of their last occurrence, whatever lies between, or their earlier setting |
| `Cli.NumberLastWins` | packages/mcp-server/src/cli.ts:37-55 | after a successful scan, `--concurrency` and `--port` each hold the number read from their last value, or their earlier setting |
| `Cli.ParseLastWins` | packages/mcp-server/src/cli.ts:18-94 | a successful parse holds the last choice of every option and the defaults for options never given, with the pack list taken from the last `--packs` |
| `Cli.ExampleSwitchAcrossPort` | packages/mcp-server/src/cli.ts:33-36 | in `--headful --port 80 --headless` the last switch is `--headless` |
| `Cli.ExampleHostAcrossHttp` | packages/mcp-server/src/cli.ts:56-58 | in `--host a --http --host b` the last host is `b` |
| `Cli.ConcurrencyValidated` | packages/mcp-server/src/cli.ts:37-43 | `--concurrency` fails unless its value parses to an integer of at least 1 |
| `Cli.PortValidated` | packages/mcp-server/src/cli.ts:49-55 | `--port` fails unless its value parses to an integer in 1..65535 |
| `Cli.ParseIntOfNat` | packages/mcp-server/src/cli.ts:38 | `parseInt` reads the leading decimal digits and ignores what follows |
| `Cli.ParseIntNoDigits` | packages/mcp-server/src/cli.ts:38-39 | after leading white space, a value that does not start with a sign or a digit is NaN |
| `Cli.MissingPacksFails` | packages/mcp-server/src/cli.ts:62-76 | without `--packs` the parse fails |
| `Cli.PackListRoundTrip` | packages/mcp-server/src/cli.ts:78 | a comma-joined list of trimmed, non-empty directories splits back into that list, in order |
| `Cli.PackDirsOfJoin` | packages/mcp-server/src/cli.ts:78 | a comma-joined list of comma-free entries parses to its trimmed entries with the empty ones dropped |
| `Cli.EmptyEntryDropped` | packages/mcp-server/src/cli.ts:78 | `a,,b` lists exactly `a` then `b` |
| `Cli.PackDirsShape` | packages/mcp-server/src/cli.ts:78 | every pack directory is trimmed, non-empty and free of commas |
| `Cli.EmptyPackList` | packages/mcp-server/src/cli.ts:80-83 | a `--packs` value of only commas and white space fails, as a missing list when empty |
| `Cli.ParseBounds` | packages/mcp-server/src/cli.ts:37-55 | every successful parse has concurrency at least 1 and a port in 1..65535 |
| `ChatCommands.ParseCommandShape` | packages/dashboard/src/ui/chatCommands.ts:28-40 | no command exactly when the trimmed text does not start with `/`; a command name is lower case without spaces and its arguments are trimmed |
| `ChatCommands.ParseCommand` | packages/dashboard/src/ui/chatCommands.ts:28-40 | `parseCommand`; `ParseCommandShape`, `ParseBareCommand` and `ParseCommandWithArgs` state its cases |
| `ChatCommands.ParseBareCommand` | packages/dashboard/src/ui/chatCommands.ts:32-35 | `/name` gives the lower-cased name and empty arguments |
| `ChatCommands.ParseCommandWithArgs` | packages/dashboard/src/ui/chatCommands.ts:36-39 | `/name args` splits at the first space into the lower-cased name and the trimmed arguments |
| `ChatCommands.FindIn` | packages/dashboard/src/ui/chatCommands.ts:45-49 | finds the first entry whose name or alias matches, and nothing exactly when no entry matches |
| `ChatCommands.FindCommand` | packages/dashboard/src/ui/chatCommands.ts:45-49 | `findCommand` over the registry; `FindHelp`, `FindStatusAndClear`, `FindNewAndSummarize` and `LookupIsCaseSensitive` state its answers |
| `ChatCommands.RegistryUnambiguous` | packages/dashboard/src/ui/chatCommands.ts:150-156 | no name or alias belongs to two commands |
| `ChatCommands.FindHelp` | packages/dashboard/src/ui/chatCommands.ts:53-56 | `help`, `h` and `?` find help |
| `ChatCommands.FindStatusAndClear` | packages/dashboard/src/ui/chatCommands.ts:68-95 | `status`, `clear` and `cls` find their commands |
| `ChatCommands.FindNewAndSummarize` | packages/dashboard/src/ui/chatCommands.ts:97-145 | `new`, `summarize` and `sum` find their commands |
| `ChatCommands.LookupIsCaseSensitive` | packages/dashboard/src/ui/chatCommands.ts:45-49 | `HELP` finds nothing |
| `ChatCommands.AliasSuffixEmpty` | packages/dashboard/src/ui/chatCommands.ts:60 | the alias suffix is empty exactly when there are no aliases |
| `ChatCommands.HelpTextLines` | packages/dashboard/src/ui/chatCommands.ts:57-65 | the help text is the heading, an empty line, and one line per registry entry in registry order |
| `ChatCommands.StatusTextLines` | packages/dashboard/src/ui/chatCommands.ts:71-84 | the status of a conversation is five lines, the fourth naming the pack and the fifth giving the message count |
| `ChatCommands.NewGuards` | packages/dashboard/src/ui/chatCommands.ts:100-109 | `new` creates a conversation, for the current pack and with no reply, exactly when a conversation with a pack is selected, and replies otherwise |
| `ChatCommands.SummarizeGuards` | packages/dashboard/src/ui/chatCommands.ts:116-122 | `summarize` requests a summary exactly when a conversation is selected and has at least 5 messages, and refuses with a fixed message below 5 |
| `ChatCommands.SummaryReplyFailure` | packages/dashboard/src/ui/chatCommands.ts:132-143 | the reply starts with `Summarization failed: ` exactly when the request failed or the server answered with an error |
| `ChatCommands.SummaryReply` | packages/dashboard/src/ui/chatCommands.ts:132-143 | the reply to a summary request; `SummaryReplyFailure` states when it reports a failure |
| `ChatCommands.Run` | packages/dashboard/src/ui/chatCommands.ts:53-145 | the reply and effect of each command; `HelpTextLines`, `StatusTextLines`, `NewGuards` and `SummarizeGuards` state them |
| `ChatCommands.Execute` | packages/dashboard/src/ui/chatCommands.ts:87-145 | returns the command's reply and applies its effect (clearing messages, creating a conversation, requesting a summary) to the context |
| `ChatInput.Filter` | packages/dashboard/src/ui/ChatInput.tsx:39-44 | keeps exactly the registry entries whose name or an alias starts with the typed partial name; `FilterAppend` states their order |
| `ChatInput.FilterAppend` | packages/dashboard/src/ui/ChatInput.tsx:39-44 | the filter keeps registry order: the commands offered from a concatenation are those of the first part, then those of the second |
| `ChatInput.SuggestionsAre` | packages/dashboard/src/ui/ChatInput.tsx:36-45 | suggestions are empty unless the trimmed value starts with `/` and has no space, and then are the commands offered for the text after `/` |
| `ChatInput.SuggestionsInOrder` | packages/dashboard/src/ui/ChatInput.tsx:36-45 | the suggestions keep registry order across any split of the registry |
| `ChatInput.Suggestions` | packages/dashboard/src/ui/ChatInput.tsx:36-45 | `suggestions`: the filtered registry for a slash and a word, otherwise none; `SuggestionsAre` and `SuggestionsInOrder` state its contents and order |
| `ChatInput.Press` | packages/dashboard/src/ui/ChatInput.tsx:52-87 | `handleKeyDown` as a transition of the box's state; `PressKeepsValid`, `TabCompletes`, `EscapeClears`, `EnterSends` and `NoSuggestionsOnlyEnter` state what each key does |
| `ChatInput.Click` | packages/dashboard/src/ui/ChatInput.tsx:89-92 | `handleSuggestionClick`: the value becomes `/name ` and the selection is reset as for any new value; `CompletionSuggestsItself` states what is then suggested |
| `ChatInput.BareSlashSuggestsAll` | packages/dashboard/src/ui/ChatInput.tsx:39-44 | a bare `/` suggests every command, in registry order |
| `ChatInput.CompletionSuggestsItself` | packages/dashboard/src/ui/ChatInput.tsx:37-38 | the completed value `/name ` still suggests the completed command |
| `ChatInput.UpDownCycle` | packages/dashboard/src/ui/ChatInput.tsx:55-63 | Up and Down stay within the suggestions, wrap around at the ends and undo each other |
| `ChatInput.DownTimesCycle` | packages/dashboard/src/ui/ChatInput.tsx:60-63 | pressing Down once per suggestion comes back to the start |
| `ChatInput.PressKeepsValid` | packages/dashboard/src/ui/ChatInput.tsx:52-87 | every key keeps the selection within the suggestions |
| `ChatInput.Changed` | packages/dashboard/src/ui/ChatInput.tsx:48-50 | a new value keeps the selection within the suggestions, resetting it when their number changes |
| `ChatInput.TabCompletes` | packages/dashboard/src/ui/ChatInput.tsx:65-71 | Tab sets the value to `/name ` for the selected suggestion and sends nothing |
| `ChatInput.EscapeClears` | packages/dashboard/src/ui/ChatInput.tsx:73-77 | Escape with suggestions shown clears the value |
| `ChatInput.EnterSends` | packages/dashboard/src/ui/ChatInput.tsx:81-86 | Enter sends exactly when Shift is up, nothing is loading, the input is enabled and the trimmed value is not empty; the value is kept |
| `ChatInput.NoSuggestionsOnlyEnter` | packages/dashboard/src/ui/ChatInput.tsx:52-87 | without suggestions only Enter has any effect |
| `ChatInput.InputBox.KeyDown` | packages/dashboard/src/ui/ChatInput.tsx:52-87 | the box's new state is the key's transition of its old state |
| `ChatInput.InputBox.SuggestionClick` | packages/dashboard/src/ui/ChatInput.tsx:89-92 | the box's new state is the click's transition of its old state |
| `ContextManager.EstimateMessageTokens` | packages/dashboard/src/contextManager.ts:33-65 | the loop's count is the per-message estimate |
| `ContextManager.EstimateTotalTokens` | packages/dashboard/src/contextManager.ts:70-79 | the loop's sum is the system prompt's estimate plus each message's |
| `ContextManager.MessageTokens` | packages/dashboard/src/contextManager.ts:33-65 | the per-message estimate; `ImageCharges`, `ToolResultOverhead` and `CeilDivIsCeiling` state its parts |
| `ContextManager.TotalTokens` | packages/dashboard/src/contextManager.ts:70-79 | the whole estimate; `TotalTokensAppend` and `SuffixTokens` state how it grows |
| `ContextManager.TotalTokensAppend` | packages/dashboard/src/contextManager.ts:70-79 | appending a message adds its estimate and never lowers the total |
| `ContextManager.SuffixTokens` | packages/dashboard/src/contextManager.ts:70-79 | a suffix of the messages never has a larger estimate |
| `ContextManager.ImageCharges` | packages/dashboard/src/contextManager.ts:45-51 | an image by URL costs 1000 tokens; a data URL costs a 25th of its length, capped at 8000 characters, rounded up to tokens |
| `ContextManager.ToolResultOverhead` | packages/dashboard/src/contextManager.ts:60-62 | a tool-result message adds 50 characters |
| `ContextManager.CeilDivIsCeiling` | packages/dashboard/src/contextManager.ts:64 | the estimate is the least whole number of tokens covering the characters |
| `ContextManager.IdGroups` | packages/dashboard/src/contextManager.ts:90-93 | a conversation id is five hex groups of 8, 4, 4, 4 and 12 digits joined by dashes |
| `ContextManager.IsConversationId` | packages/dashboard/src/contextManager.ts:90-93 | the id test; `IdGroups` and `GroupsId` state it both ways |
| `ContextManager.GroupsId` | packages/dashboard/src/contextManager.ts:90-93 | five such groups joined by dashes form a conversation id |
| `ContextManager.SaveThenGet` | packages/dashboard/src/contextManager.ts:99-143 | after saving a non-empty plan, reading it gives that plan, whether or not the database fails |
| `ContextManager.SavePlan` | packages/dashboard/src/contextManager.ts:99-114 | `savePlan`; `SaveThenGet`, `DatabaseOnlyForIds` and `OtherKeysUntouched` state its effect |
| `ContextManager.GetPlan` | packages/dashboard/src/contextManager.ts:120-143 | `getPlan`; `SaveThenGet`, `ClearThenGet` and `FailedClearReloads` state what it reads |
| `ContextManager.ClearPlan` | packages/dashboard/src/contextManager.ts:148-159 | `clearPlan`; `ClearThenGet` and `FailedClearReloads` state its effect |
| `ContextManager.PlanStore.Save` | packages/dashboard/src/contextManager.ts:99-114 | the store's new state is `SavePlan` of its old state |
| `ContextManager.PlanStore.Clear` | packages/dashboard/src/contextManager.ts:148-159 | the store's new state is `ClearPlan` of its old state |
| `ContextManager.ClearThenGet` | packages/dashboard/src/contextManager.ts:148-159 | after a clear that reaches the database, or of a key that never uses it, reading gives no plan |
| `ContextManager.FailedClearReloads` | packages/dashboard/src/contextManager.ts:148-159 | a clear whose database write fails leaves the stored plan to be reloaded |
| `ContextManager.DatabaseOnlyForIds` | packages/dashboard/src/contextManager.ts:104-113 | keys that are not conversation ids never touch the database; a plan once read is cached |
| `ContextManager.OtherKeysUntouched` | packages/dashboard/src/contextManager.ts:99-159 | saving or clearing one key leaves every other key in the cache and the database as it was |
| `ContextManager.ToolRejects` | packages/dashboard/src/contextManager.ts:326-349 | a save without a plan and an unknown tool are refused without changing storage |
| `ContextManager.ExecuteTool` | packages/dashboard/src/contextManager.ts:326-349 | `executePlanTool` as a reply and a new plan state; `ToolRejects` and `ToolSaveThenGet` state its cases |
| `ContextManager.Render` | packages/dashboard/src/contextManager.ts:326-349 | the JSON text of each tool reply |
| `ContextManager.ToolSaveThenGet` | packages/dashboard/src/contextManager.ts:326-349 | saving a plan through the tool and then reading it through the tool gives that plan |
| `ContextManager.PlanStore.ExecutePlanTool` | packages/dashboard/src/contextManager.ts:326-349 | the store's reply and new state are those of the tool dispatch |
| `ContextManager.PlanStore.Get` | packages/dashboard/src/contextManager.ts:120-143 | the plan read and the new cache are those of `getPlan` |
| `ContextManager.NothingToSummarize` | packages/dashboard/src/contextManager.ts:174-192 | below the soft limit without force, or with at most 10 messages, the messages come back unchanged and unsummarised |
| `ContextManager.SummarizeIfNeeded` | packages/dashboard/src/contextManager.ts:167-271 | `summarizeIfNeeded` with the language model's answer as a parameter; `NothingToSummarize`, `SummarySucceeds`, `SummaryFails`, `SummaryKeepsSuffix` and `SummaryCounts` state its cases |
| `ContextManager.ForceSummarize` | packages/dashboard/src/contextManager.ts:314-321 | `forceSummarize` is `summarizeIfNeeded` with `force` set |
| `ContextManager.SummarySucceeds` | packages/dashboard/src/contextManager.ts:244-263 | a summary gives the summary message and the last 10 messages, or the last 3 when that still exceeds the hard limit |
| `ContextManager.SummaryFails` | packages/dashboard/src/contextManager.ts:264-270 | a failed summary keeps exactly the last 10 messages, marked summarised |
| `ContextManager.SummaryKeepsSuffix` | packages/dashboard/src/contextManager.ts:167-271 | what is kept after summarising is a suffix of at most 10 of the original messages |
| `ContextManager.SummaryCounts` | packages/dashboard/src/contextManager.ts:174-263 | the counts reported before and after are the estimates of the input and of the output |
| `VersionPanel.TimeAgo` | packages/dashboard/src/ui/VersionPanel.tsx:17-26 | `timeAgo` of a millisecond difference; `AgeBuckets`, `TimeAgoText` and `TimeAgoReadsBack` state its texts |
| `VersionPanel.AgeBuckets` | packages/dashboard/src/ui/VersionPanel.tsx:17-26 | under a minute, including negative differences, is `just now`; otherwise whole minutes in 1..59, whole hours in 1..23, or whole days of at least 1 |
| `VersionPanel.TimeAgoText` | packages/dashboard/src/ui/VersionPanel.tsx:21-25 | the text is `<minutes>m ago`, `<hours>h ago` or `<days>d ago` |
| `VersionPanel.TimeAgoReadsBack` | packages/dashboard/src/ui/VersionPanel.tsx:17-26 | the text names exactly one bucket and its number; it is `just now` exactly for differences under a minute |
| `VersionPanel.ReadRender` | packages/dashboard/src/ui/VersionPanel.tsx:17-26 | no two buckets share a text |
| `VersionPanel.SortedVersions` | packages/dashboard/src/ui/VersionPanel.tsx:103 | the reversal of a copy of the list, made in place, is the reverse of the list |
| `VersionPanel.ReversePermutes` | packages/dashboard/src/ui/VersionPanel.tsx:103 | the reversed list holds the same versions |
| `VersionPanel.ReverseInvolution` | packages/dashboard/src/ui/VersionPanel.tsx:103 | reversing twice gives the list back |
| `VersionPanel.NewestFirst` | packages/dashboard/src/ui/VersionPanel.tsx:103 | a history in ascending version order is shown in descending order, newest first |

## Left out

- The browser (launch, context, page, screenshot, content, close) is an oracle script of successes and failures. The input validator, the flow runtime, `run`, network capture and the run-context factory are oracles too; their sources are not part of this model.
- Timing (`Date.now`, `durationMs`) is given as start and end times. Creating the run and artifact directories with `mkdirSync` (`runner.ts:70-71`) is not modelled, and neither is its failure, which would reject `runTaskPack` before any event is logged. The `writeFileSync` of `error.html` (`runner.ts:192`) is the `SaveHtml` artifact step. Console output is not modelled.
- `path.join` and `path.resolve` are function parameters. The presence of `DISPLAY` is a boolean parameter.
- `process.exit(1)` in `parseArgs` is an error result. The usage text it prints is not modelled.
- `Cli.ParseArgs`: `parseInt` is modelled on unbounded integers. Its loss of precision beyond 2^53 is not modelled.
- `cli.ts` `main()` is not part of this model: pack discovery, server start-up and signal handlers are I/O.
- `Templating`: only the marker grammar the tests exercise is modelled. The rest of the template library (autoescaping, other filters, control tags, whitespace control) is not part of this model.
- `Templating.ResolveTemplate`: out-of-grammar markers, tags and comments behave differently in the library. The model rejects every other marker with an error. The library, which a test comment names as Nunjucks (`templating.test.ts:200`), is not part of this model; a general-purpose template engine may well accept further filters, bracket access and literal expressions. The model treats `{% %}` tags and `{# #}` comments as plain text, which the library instead executes or drops.
- `Templating.Evaluate`: the `upper` and `urlencode` filters act on the rendered text of any value. So a number gives its decimal digits, a boolean gives `TRUE` or `FALSE`, an array gives its elements joined with `,`, an object gives `[object Object]`, and null or a missing path gives `""`. The tests apply filters only to strings (`templating.test.ts:172-190`), so this behaviour for other values is an assumption no test supports.
- `Templating`: numbers are integers. Fractional numbers and their JavaScript rendering are left out, since the tests use none.
- `Text.Lower`, `Text.Upper`: only ASCII letters change case. Unicode case mapping is left out. (`Text.Trim` removes every character JavaScript counts as white space.)
- Strings are sequences of Unicode characters. JavaScript's UTF-16 code units are not modelled, so lengths count characters and not surrogate halves.
- `JSON.stringify` of tool calls is a length function given as a parameter. The text of the summary prompt built for the language model (`contextManager.ts:195-234`) is not modelled, and neither is the `getPlan` call it makes.
- The language model is an oracle that returns a summary or fails. The database is a map that may fail on each call. A failed read is modelled; a failed write leaves the database unchanged.
- `ContextManager.ExecuteTool`: a `plan` argument that is not a string is treated as missing.
- `ChatCommands.SummaryReply`: `toLocaleString` thousands grouping of the token counts is not modelled; the counts are written in plain decimal.
- `fetch` in the chat commands is a summary response given as a parameter. Creating the conversation is recorded as a request on the context.
- React rendering, focus, styling and auto-resize of the input box are left out. The input box keeps its value, selection and a count of sends.
- `timeAgo` takes the millisecond difference as a parameter. Parsing the ISO date, and the `NaN` an invalid date gives, are left out.
- `FlowVersion.label` is named `versionLabel`, because `label` is a Dafny keyword.
- The restore and fetch handlers of the version panel are I/O and are not modelled.
- The once-cache, the concurrency gate, the pack registry, `config.ts`, `context.test.ts`, `ShowRunLogo.tsx` and `bin/showrun.js` are not part of this model. They are I/O, static markup, or have no source to compare against.
