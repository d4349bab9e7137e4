// The run lifecycle of a task pack (`runTaskPack`): decide the browser mode,
// derive the run's paths, validate the inputs, launch a browser and open a
// page, execute the pack's flow or run function, log the outcome, save error
// artifacts on a best-effort basis and always tear the browser down.
//
// The browser, the input validator, the flow runtime, the pack's own `run`
// function and the clock are outside this model. They appear as oracles: a
// `BrowserScript` says which browser operation fails and with what message,
// an `Environment` says what validation, execution and the clock report, and
// `join` stands for `path.join`.

module Runner {
  import opened Text
  import Templating

  type Inputs = seq<(string, Templating.Value)>
  type Collectibles = seq<(string, Templating.Value)>

  /** What the runner reads of a task pack: its identity and which of the two
      program forms it declares. */
  datatype TaskPack = TaskPack(id: string, version: string, hasFlow: bool, hasRun: bool)

  /** The caller's options; `headless` is absent when the caller left it out. */
  datatype Options = Options(runDir: string, headless: Option<bool>)

  datatype Meta = Meta(url: Option<string>, durationMs: int, notes: Option<string>)

  /** What a pack's program returns. */
  datatype RunResult = RunResult(collectibles: Collectibles, meta: Meta)

  /** What the flow runtime reports after running a declarative flow. */
  datatype FlowResult = FlowResult(
    collectibles: Collectibles,
    url: Option<string>,
    durationMs: int,
    stepsExecuted: nat,
    stepsTotal: nat)

  /** A run's result together with the paths of its run. */
  datatype RunTaskPackResult = RunTaskPackResult(
    collectibles: Collectibles,
    meta: Meta,
    runDir: string,
    eventsPath: string,
    artifactsDir: string)

  /** The structured events handed to the run's logger. */
  datatype Event =
    | RunStarted(packId: string, packVersion: string, inputs: Inputs)
    | ErrorEvent(message: string)
    | RunFinished(success: bool, durationMs: int)

  /** The oracles that are not the browser. `validation` is the validator's
      complaint about the inputs, if any; `flow` and `run` are what the flow
      runtime and the pack's run function produce (or the message they fail
      with); the clock reads `startTime` before the run and `endTime` when
      the run succeeds or fails. */
  datatype Environment = Environment(
    hasDisplay: bool,
    validation: Option<string>,
    flow: Result<FlowResult, string>,
    run: Result<RunResult, string>,
    startTime: int,
    endTime: int)

  /** How the browser behaves: the message each set-up step fails with, if
      it fails (`prepare` covers attaching network capture and creating the
      run context), and how many error-artifact steps succeed before one
      fails. */
  datatype BrowserScript = BrowserScript(
    launch: Option<string>,
    newContext: Option<string>,
    newPage: Option<string>,
    prepare: Option<string>,
    artifactStepsThatSucceed: nat)

  /** One step of saving error artifacts. */
  datatype ArtifactStep =
    | Screenshot(target: string)
    | ReadHtml
    | SaveHtml(target: string)

  // ---------------------------------------------------------------------------
  // Browser mode and paths

  /** The requested mode; an absent option means headless. */
  function RequestedHeadless(options: Options): bool {
    if options.headless.Some? then options.headless.value else true
  }

  /** The mode the browser is launched in: headful needs a display. */
  function Headless(options: Options, hasDisplay: bool): bool {
    RequestedHeadless(options) || !hasDisplay
  }

  /** Whether the fallback to headless is reported on the console. */
  predicate WarnsNoDisplay(options: Options, hasDisplay: bool) {
    !RequestedHeadless(options) && !hasDisplay
  }

  lemma HeadlessChoice(options: Options, hasDisplay: bool)
    ensures options.headless.None? ==> Headless(options, hasDisplay)
    ensures !Headless(options, hasDisplay) <==> options.headless == Some(false) && hasDisplay
    ensures WarnsNoDisplay(options, hasDisplay) <==> options.headless == Some(false) && !hasDisplay
    ensures WarnsNoDisplay(options, hasDisplay) ==> Headless(options, hasDisplay)
  {
  }

  const ArtifactsName := "artifacts"
  const EventsName := "events.jsonl"
  const NoProgramMessage := "Task pack must have either a \"flow\" array or a \"run\" function"

  /** The text of the notes a successful flow leaves. */
  function StepsNote(executed: nat, total: nat): string {
    "Executed " + NatToString(executed) + "/" + NatToString(total) + " steps"
  }

  // ---------------------------------------------------------------------------
  // The specification of a run

  /** The stages of the guarded part of a run, in order. */
  datatype Stage = Validating | Launching | OpeningContext | OpeningPage | Preparing | Executing

  function Rank(s: Stage): nat {
    match s
    case Validating => 0
    case Launching => 1
    case OpeningContext => 2
    case OpeningPage => 3
    case Preparing => 4
    case Executing => 5
  }

  datatype Failure = Failure(stage: Stage, message: string)

  /** What executing the pack produces once the page is ready: a flow wins
      over a run function, and a pack with neither fails. */
  function Execute(pack: TaskPack, env: Environment): Result<RunResult, string> {
    if pack.hasFlow then
      match env.flow
      case Ok(f) =>
        Ok(RunResult(f.collectibles, Meta(f.url, f.durationMs, Some(StepsNote(f.stepsExecuted, f.stepsTotal)))))
      case Err(m) => Err(m)
    else if pack.hasRun then env.run
    else Err(NoProgramMessage)
  }

  /** The first set-up stage that fails, if any. */
  function SetupFailure(env: Environment, script: BrowserScript): Option<Failure> {
    if env.validation.Some? then Some(Failure(Validating, env.validation.value))
    else if script.launch.Some? then Some(Failure(Launching, script.launch.value))
    else if script.newContext.Some? then Some(Failure(OpeningContext, script.newContext.value))
    else if script.newPage.Some? then Some(Failure(OpeningPage, script.newPage.value))
    else if script.prepare.Some? then Some(Failure(Preparing, script.prepare.value))
    else None
  }

  /** The first stage that fails, if any. */
  function FirstFailure(pack: TaskPack, env: Environment, script: BrowserScript): Option<Failure> {
    var setup := SetupFailure(env, script);
    if setup.Some? then setup
    else if Execute(pack, env).Err? then Some(Failure(Executing, Execute(pack, env).error))
    else None
  }

  /** Whether stage `s` completed. */
  predicate Passed(f: Option<Failure>, s: Stage) {
    f.None? || Rank(s) < Rank(f.value.stage)
  }

  /** An execution failure comes after every set-up stage. */
  lemma SetupStagesPassed(pack: TaskPack, env: Environment, script: BrowserScript)
    ensures var f, g := FirstFailure(pack, env, script), SetupFailure(env, script);
      && Passed(f, Validating) == Passed(g, Validating)
      && Passed(f, Launching) == Passed(g, Launching)
      && Passed(f, OpeningContext) == Passed(g, OpeningContext)
      && Passed(f, OpeningPage) == Passed(g, OpeningPage)
      && Passed(f, Preparing) == Passed(g, Preparing)
  {
  }

  /** The error artifacts, in the order they are attempted: through the run
      context when it exists, otherwise straight into the artifacts
      directory. */
  function ArtifactPlan(viaRunContext: bool, artifactsDir: string, join: (string, string) -> string): seq<ArtifactStep> {
    if viaRunContext then [Screenshot("error"), ReadHtml, SaveHtml("error")]
    else [Screenshot(join(artifactsDir, "error.png")), ReadHtml, SaveHtml(join(artifactsDir, "error.html"))]
  }

  /** The first `k` steps of a plan, or all of them. */
  function Prefix(plan: seq<ArtifactStep>, k: nat): seq<ArtifactStep> {
    if k < |plan| then plan[..k] else plan
  }

  /** Everything a run leaves behind. */
  datatype Trace = Trace(
    events: seq<Event>,
    result: RunTaskPackResult,
    launchedHeadless: Option<bool>,
    pageOpened: bool,
    artifacts: seq<ArtifactStep>,
    warned: bool)

  /** The events of a run that fails at `f` (or succeeds when `f` is None). */
  function Events(pack: TaskPack, inputs: Inputs, f: Option<Failure>, durationMs: int): seq<Event> {
    StartEvents(pack, inputs, f) + EndEvents(f, durationMs)
  }

  /** `run_started`, once validation has passed. */
  function StartEvents(pack: TaskPack, inputs: Inputs, f: Option<Failure>): seq<Event> {
    if Passed(f, Validating) then [RunStarted(pack.id, pack.version, inputs)] else []
  }

  /** `run_finished`, preceded by `error` when the run failed. */
  function EndEvents(f: Option<Failure>, durationMs: int): seq<Event> {
    if f.None? then [RunFinished(true, durationMs)]
    else [ErrorEvent(f.value.message), RunFinished(false, durationMs)]
  }

  /** The result of a run that fails at `f`: the program's own result with the
      paths added, or empty collectibles and the error as notes. */
  function Outcome(
    pack: TaskPack, env: Environment, f: Option<Failure>,
    runDir: string, eventsPath: string, artifactsDir: string): RunTaskPackResult
    requires f.None? ==> Execute(pack, env).Ok?
  {
    if f.None? then
      var out := Execute(pack, env).value;
      RunTaskPackResult(out.collectibles, out.meta, runDir, eventsPath, artifactsDir)
    else
      RunTaskPackResult([], Meta(None, env.endTime - env.startTime, Some("Error: " + f.value.message)),
        runDir, eventsPath, artifactsDir)
  }

  /** The error-artifact steps carried out: none unless a failure happened
      after the page was opened. */
  function Artifacts(f: Option<Failure>, script: BrowserScript, artifactsDir: string, join: (string, string) -> string): seq<ArtifactStep> {
    if f.Some? && Passed(f, OpeningPage) then
      Prefix(ArtifactPlan(Passed(f, Preparing), artifactsDir, join), script.artifactStepsThatSucceed)
    else []
  }

  function Expected(
    pack: TaskPack, inputs: Inputs, options: Options, env: Environment,
    script: BrowserScript, join: (string, string) -> string): Trace
  {
    var runDir := options.runDir;
    var artifactsDir := join(runDir, ArtifactsName);
    var f := FirstFailure(pack, env, script);
    Trace(
      events := Events(pack, inputs, f, env.endTime - env.startTime),
      result := Outcome(pack, env, f, runDir, join(runDir, EventsName), artifactsDir),
      launchedHeadless := if Passed(f, Launching) then Some(Headless(options, env.hasDisplay)) else None,
      pageOpened := Passed(f, OpeningPage),
      artifacts := Artifacts(f, script, artifactsDir, join),
      warned := WarnsNoDisplay(options, env.hasDisplay))
  }

  // ---------------------------------------------------------------------------
  // Properties of a run

  /** A run whose inputs are rejected logs the error and the failed finish,
      never `run_started`, and never touches the browser. */
  lemma ValidationFailure(
    pack: TaskPack, inputs: Inputs, options: Options, env: Environment,
    script: BrowserScript, join: (string, string) -> string)
    requires env.validation.Some?
    ensures var t := Expected(pack, inputs, options, env, script, join);
      && t.events == [ErrorEvent(env.validation.value), RunFinished(false, env.endTime - env.startTime)]
      && t.launchedHeadless.None? && !t.pageOpened && t.artifacts == []
      && t.result.collectibles == [] && t.result.meta.notes == Some("Error: " + env.validation.value)
  {
  }

  /** Every run logs two or three events: `run_started` exactly when the
      inputs were valid, `error` exactly when the run failed, and one
      `run_finished` at the end whose `success` says whether nothing failed. */
  lemma EventShape(
    pack: TaskPack, inputs: Inputs, options: Options, env: Environment,
    script: BrowserScript, join: (string, string) -> string)
    ensures var t := Expected(pack, inputs, options, env, script, join);
      var f := FirstFailure(pack, env, script);
      && 2 <= |t.events| <= 3
      && t.events[|t.events| - 1] == RunFinished(f.None?, env.endTime - env.startTime)
      && (forall k :: 0 <= k < |t.events| - 1 ==> !t.events[k].RunFinished?)
      && (t.events[0] == RunStarted(pack.id, pack.version, inputs) <==> env.validation.None?)
      && (ErrorEvent(env.validation.value) in t.events <== env.validation.Some?)
      && ((exists k :: 0 <= k < |t.events| && t.events[k].ErrorEvent?) <==> f.Some?)
  {
    var t := Expected(pack, inputs, options, env, script, join);
    var f := FirstFailure(pack, env, script);
    if f.Some? {
      assert t.events[|t.events| - 2].ErrorEvent?;
    } else {
      assert t.events == [RunStarted(pack.id, pack.version, inputs), RunFinished(true, env.endTime - env.startTime)];
    }
  }

  /** A run that passes every stage logs `run_started` then a successful
      `run_finished`, and returns the program's own result with the paths. */
  lemma SuccessfulRun(
    pack: TaskPack, inputs: Inputs, options: Options, env: Environment,
    script: BrowserScript, join: (string, string) -> string)
    requires FirstFailure(pack, env, script).None?
    ensures Execute(pack, env).Ok?
    ensures var t := Expected(pack, inputs, options, env, script, join);
      && t.events == [RunStarted(pack.id, pack.version, inputs), RunFinished(true, env.endTime - env.startTime)]
      && t.result.collectibles == Execute(pack, env).value.collectibles
      && t.result.meta == Execute(pack, env).value.meta
      && t.launchedHeadless == Some(Headless(options, env.hasDisplay))
      && t.pageOpened && t.artifacts == []
  {
  }

  /** Any failure gives empty collectibles, no URL, the runner's own
      duration and the notes `Error: <message>`. */
  lemma FailedRun(
    pack: TaskPack, inputs: Inputs, options: Options, env: Environment,
    script: BrowserScript, join: (string, string) -> string)
    requires FirstFailure(pack, env, script).Some?
    ensures var t := Expected(pack, inputs, options, env, script, join);
      var m := FirstFailure(pack, env, script).value.message;
      && t.result.collectibles == []
      && t.result.meta == Meta(None, env.endTime - env.startTime, Some("Error: " + m))
      && t.events[|t.events| - 2..] == [ErrorEvent(m), RunFinished(false, env.endTime - env.startTime)]
  {
  }

  /** Success or failure, the result carries the run directory and the two
      paths derived from it. */
  lemma ResultPaths(
    pack: TaskPack, inputs: Inputs, options: Options, env: Environment,
    script: BrowserScript, join: (string, string) -> string)
    ensures var t := Expected(pack, inputs, options, env, script, join);
      && t.result.runDir == options.runDir
      && t.result.eventsPath == join(options.runDir, "events.jsonl")
      && t.result.artifactsDir == join(options.runDir, "artifacts")
  {
  }

  /** A declared flow wins: what the pack's run function would do, and
      whether it has one at all, make no difference. */
  lemma FlowTakesPrecedence(
    pack: TaskPack, inputs: Inputs, options: Options, env: Environment,
    script: BrowserScript, join: (string, string) -> string,
    hasRun: bool, run: Result<RunResult, string>)
    requires pack.hasFlow
    ensures Expected(pack, inputs, options, env, script, join)
         == Expected(pack.(hasRun := hasRun), inputs, options, env.(run := run), script, join)
  {
  }

  /** A pack with neither a flow nor a run function fails with the fixed
      message once the page is ready. */
  lemma NeitherFlowNorRun(
    pack: TaskPack, inputs: Inputs, options: Options, env: Environment,
    script: BrowserScript, join: (string, string) -> string)
    requires !pack.hasFlow && !pack.hasRun && SetupFailure(env, script).None?
    ensures var t := Expected(pack, inputs, options, env, script, join);
      && t.events == [RunStarted(pack.id, pack.version, inputs), ErrorEvent(NoProgramMessage),
                      RunFinished(false, env.endTime - env.startTime)]
      && t.result.meta.notes == Some("Error: " + NoProgramMessage)
  {
  }

  /** A successful flow reports `Executed k/n steps` and its own collectibles,
      URL and duration. */
  lemma FlowSucceeds(
    pack: TaskPack, inputs: Inputs, options: Options, env: Environment,
    script: BrowserScript, join: (string, string) -> string)
    requires pack.hasFlow && env.flow.Ok? && SetupFailure(env, script).None?
    ensures var t := Expected(pack, inputs, options, env, script, join);
      var f := env.flow.value;
      && t.result.collectibles == f.collectibles
      && t.result.meta == Meta(f.url, f.durationMs, Some(StepsNote(f.stepsExecuted, f.stepsTotal)))
      && t.events[|t.events| - 1] == RunFinished(true, env.endTime - env.startTime)
  {
  }

  /** Error artifacts are attempted only after a failure with a page open,
      through the run context when it exists, and they never change the
      events or the result. */
  lemma ArtifactsBestEffort(
    pack: TaskPack, inputs: Inputs, options: Options, env: Environment,
    script: BrowserScript, join: (string, string) -> string, k: nat)
    ensures var t := Expected(pack, inputs, options, env, script, join);
      var f := FirstFailure(pack, env, script);
      && (t.artifacts != [] ==> f.Some? && t.pageOpened)
      && (t.artifacts != [] && f.value.stage == Executing ==> t.artifacts[0] == Screenshot("error"))
      && (t.artifacts != [] && f.value.stage == Preparing ==>
            t.artifacts[0] == Screenshot(join(join(options.runDir, "artifacts"), "error.png")))
      && |t.artifacts| <= 3
    ensures var t := Expected(pack, inputs, options, env, script, join);
      var u := Expected(pack, inputs, options, env, script.(artifactStepsThatSucceed := k), join);
      t.events == u.events && t.result == u.result && t.pageOpened == u.pageOpened
      && t.launchedHeadless == u.launchedHeadless
  {
    var t := Expected(pack, inputs, options, env, script, join);
    var f := FirstFailure(pack, env, script);
    if t.artifacts != [] {
      assert f.Some? && Passed(f, OpeningPage);
      assert f.value.stage == Preparing || f.value.stage == Executing;
    }
    assert FirstFailure(pack, env, script.(artifactStepsThatSucceed := k)) == f;
  }

  /** The browser is launched exactly when the inputs are valid and the
      launch succeeds, in the mode `Headless` chooses, and a page is only
      ever opened in a launched browser. */
  lemma BrowserLifecycle(
    pack: TaskPack, inputs: Inputs, options: Options, env: Environment,
    script: BrowserScript, join: (string, string) -> string)
    ensures var t := Expected(pack, inputs, options, env, script, join);
      && (t.launchedHeadless.Some? <==> env.validation.None? && script.launch.None?)
      && (t.launchedHeadless.Some? ==> t.launchedHeadless.value == Headless(options, env.hasDisplay))
      && (t.pageOpened ==> t.launchedHeadless.Some?)
      && (t.pageOpened <==> t.launchedHeadless.Some? && script.newContext.None? && script.newPage.None?)
  {
  }

  /** The steps note is unambiguous: the two counts can be read back. */
  lemma StepsNoteInjective(a: nat, b: nat, c: nat, d: nat)
    requires StepsNote(a, b) == StepsNote(c, d)
    ensures a == c && b == d
  {
    NoteParts("Executed ", NatToString(a), NatToString(b), " steps");
    NoteParts("Executed ", NatToString(c), NatToString(d), " steps");
    var tb, td := NatToString(b) + " steps", NatToString(d) + " steps";
    DropPrefix("Executed ", NatToString(a) + ("/" + tb), NatToString(c) + ("/" + td));
    DigitsThenSlash(NatToString(a), "/" + tb, NatToString(c), "/" + td);
    NatToStringInjective(a, c);
    DropPrefix("/", tb, td);
    DropSuffix(NatToString(b), NatToString(d), " steps");
    NatToStringInjective(b, d);
  }

  lemma NoteParts(p: string, x: string, y: string, q: string)
    ensures p + x + "/" + y + q == p + (x + ("/" + (y + q)))
  {
  }

  lemma DropPrefix(p: string, u: string, v: string)
    requires p + u == p + v
    ensures u == v
  {
    assert u == (p + u)[|p|..];
    assert v == (p + v)[|p|..];
  }

  lemma DropSuffix(u: string, v: string, q: string)
    requires u + q == v + q
    ensures u == v
  {
    assert u == (u + q)[..|u|];
    assert v == (v + q)[..|v|];
  }

  /** Two digit strings each followed by text starting with '/' split the
      same way. */
  lemma DigitsThenSlash(x: string, r: string, y: string, s: string)
    requires AllDigits(x) && AllDigits(y) && r != [] && s != [] && r[0] == '/' && s[0] == '/'
    requires x + r == y + s
    ensures x == y && r == s
  {
    assert x == (x + r)[..|x|];
    assert y == (y + s)[..|y|];
    assert r == (x + r)[|x|..];
    assert s == (y + s)[|y|..];
  }

  // ---------------------------------------------------------------------------
  // The logger and the browser

  /** The run's logger: an append-only list of events. */
  class EventLog {
    var events: seq<Event>

    constructor ()
      ensures events == []
    {
      events := [];
    }

    method Log(e: Event)
      modifies this
      ensures events == old(events) + [e]
    {
      events := events + [e];
    }
  }

  /** The browser as the runner sees it: what was launched and opened, which
      artifact steps were carried out, and what was closed. */
  class Playwright {
    const script: BrowserScript
    var launchedHeadless: Option<bool>
    var contextOpened: bool
    var pageOpened: bool
    var prepared: bool
    var artifacts: seq<ArtifactStep>
    var pageClosed: bool
    var browserClosed: bool

    predicate Untouched()
      reads this
    {
      launchedHeadless.None? && !contextOpened && !pageOpened && !prepared
      && artifacts == [] && !pageClosed && !browserClosed
    }

    constructor (script: BrowserScript)
      ensures this.script == script && Untouched()
    {
      this.script := script;
      launchedHeadless := None;
      contextOpened := false;
      pageOpened := false;
      prepared := false;
      artifacts := [];
      pageClosed := false;
      browserClosed := false;
    }

    method Launch(headless: bool) returns (err: Option<string>)
      modifies this`launchedHeadless
      ensures err == script.launch
      ensures launchedHeadless == if err.None? then Some(headless) else old(launchedHeadless)
    {
      err := script.launch;
      if err.None? {
        launchedHeadless := Some(headless);
      }
    }

    method NewContext() returns (err: Option<string>)
      modifies this`contextOpened
      ensures err == script.newContext
      ensures contextOpened == (old(contextOpened) || err.None?)
    {
      err := script.newContext;
      if err.None? {
        contextOpened := true;
      }
    }

    method NewPage() returns (err: Option<string>)
      modifies this`pageOpened
      ensures err == script.newPage
      ensures pageOpened == (old(pageOpened) || err.None?)
    {
      err := script.newPage;
      if err.None? {
        pageOpened := true;
      }
    }

    /** Attaching network capture and creating the run context. */
    method Prepare() returns (err: Option<string>)
      modifies this`prepared
      ensures err == script.prepare
      ensures prepared == (old(prepared) || err.None?)
    {
      err := script.prepare;
      if err.None? {
        prepared := true;
      }
    }

    /** One artifact step; it succeeds while fewer than
        `artifactStepsThatSucceed` steps have been carried out. */
    method Perform(step: ArtifactStep) returns (ok: bool)
      modifies this`artifacts
      ensures ok == (|old(artifacts)| < script.artifactStepsThatSucceed)
      ensures artifacts == if ok then old(artifacts) + [step] else old(artifacts)
    {
      ok := |artifacts| < script.artifactStepsThatSucceed;
      if ok {
        artifacts := artifacts + [step];
      }
    }

    /** Closing; a failure to close is swallowed by the caller, so it is not
        reported at all. */
    method ClosePage()
      modifies this`pageClosed
      ensures pageClosed
    {
      pageClosed := true;
    }

    method CloseBrowser()
      modifies this`browserClosed
      ensures browserClosed
    {
      browserClosed := true;
    }
  }

  // ---------------------------------------------------------------------------
  // The run itself

  /** The three error-artifact steps, stopping at the first that fails; the
      failure itself is swallowed. */
  method SaveErrorArtifacts(browser: Playwright, plan: seq<ArtifactStep>)
    requires |plan| == 3 && browser.artifacts == []
    modifies browser`artifacts
    ensures browser.artifacts == Prefix(plan, browser.script.artifactStepsThatSucceed)
  {
    var ok := browser.Perform(plan[0]);
    if ok {
      ok := browser.Perform(plan[1]);
      if ok {
        ok := browser.Perform(plan[2]);
        assert plan == plan[..2] + [plan[2]];
      }
    }
  }

  /** The guarded set-up: validation, then the browser, context, page and
      run context, each only while nothing has failed. */
  method SetUp(
    pack: TaskPack, inputs: Inputs, headless: bool, env: Environment,
    logger: EventLog, browser: Playwright)
    returns (failure: Option<Failure>)
    requires browser.Untouched()
    modifies logger, browser
    ensures failure == SetupFailure(env, browser.script)
    ensures logger.events == old(logger.events) + StartEvents(pack, inputs, failure)
    ensures browser.launchedHeadless == if Passed(failure, Launching) then Some(headless) else None
    ensures browser.pageOpened == Passed(failure, OpeningPage)
    ensures browser.artifacts == [] && !browser.pageClosed && !browser.browserClosed
  {
    failure := None;
    if env.validation.Some? {
      failure := Some(Failure(Validating, env.validation.value));
      return;
    }
    logger.Log(RunStarted(pack.id, pack.version, inputs));
    var err := browser.Launch(headless);
    if err.Some? {
      failure := Some(Failure(Launching, err.value));
      return;
    }
    err := browser.NewContext();
    if err.Some? {
      failure := Some(Failure(OpeningContext, err.value));
      return;
    }
    err := browser.NewPage();
    if err.Some? {
      failure := Some(Failure(OpeningPage, err.value));
      return;
    }
    err := browser.Prepare();
    if err.Some? {
      failure := Some(Failure(Preparing, err.value));
    }
  }

  /** Executing the pack once the page is ready. The function `Execute` is
      its specification. */
  method ExecutePack(pack: TaskPack, env: Environment) returns (outcome: Result<RunResult, string>)
    ensures outcome == Execute(pack, env)
    ensures pack.hasFlow && env.flow.Ok? ==>
      outcome.Ok? && outcome.value.meta.notes == Some(StepsNote(env.flow.value.stepsExecuted, env.flow.value.stepsTotal))
    ensures !pack.hasFlow && !pack.hasRun ==> outcome == Err(NoProgramMessage)
  {
    if pack.hasFlow {
      match env.flow {
        case Ok(f) =>
          outcome := Ok(RunResult(f.collectibles, Meta(f.url, f.durationMs, Some(StepsNote(f.stepsExecuted, f.stepsTotal)))));
        case Err(m) =>
          outcome := Err(m);
      }
    } else if pack.hasRun {
      outcome := env.run;
    } else {
      outcome := Err(NoProgramMessage);
    }
  }

  /** The end of a run: log how it ended, save error artifacts when a page is
      open, build the result and tear down what was opened. */
  method Finish(
    pack: TaskPack, env: Environment, failure: Option<Failure>,
    runDir: string, eventsPath: string, artifactsDir: string,
    join: (string, string) -> string, logger: EventLog, browser: Playwright)
    returns (r: RunTaskPackResult)
    requires failure.None? ==> Execute(pack, env).Ok?
    requires browser.pageOpened == Passed(failure, OpeningPage)
    requires browser.launchedHeadless.Some? == Passed(failure, Launching)
    requires browser.artifacts == [] && !browser.pageClosed && !browser.browserClosed
    modifies logger, browser`artifacts, browser`pageClosed, browser`browserClosed
    ensures logger.events == old(logger.events) + EndEvents(failure, env.endTime - env.startTime)
    ensures r == Outcome(pack, env, failure, runDir, eventsPath, artifactsDir)
    ensures browser.artifacts == Artifacts(failure, browser.script, artifactsDir, join)
    ensures browser.pageClosed == browser.pageOpened
    ensures browser.browserClosed == browser.launchedHeadless.Some?
  {
    var durationMs := env.endTime - env.startTime;
    if failure.None? {
      logger.Log(RunFinished(true, durationMs));
      var out := Execute(pack, env).value;
      r := RunTaskPackResult(out.collectibles, out.meta, runDir, eventsPath, artifactsDir);
    } else {
      var message := failure.value.message;
      logger.Log(ErrorEvent(message));
      if browser.pageOpened {
        SaveErrorArtifacts(browser, ArtifactPlan(Passed(failure, Preparing), artifactsDir, join));
      }
      logger.Log(RunFinished(false, durationMs));
      r := RunTaskPackResult([], Meta(None, durationMs, Some("Error: " + message)), runDir, eventsPath, artifactsDir);
    }

    // Teardown, on every path.
    if browser.pageOpened {
      browser.ClosePage();
    }
    if browser.launchedHeadless.Some? {
      browser.CloseBrowser();
    }
  }

  /** The guarded part of a run: set-up, then execution, stopping at the
      first failure. */
  method Attempt(
    pack: TaskPack, inputs: Inputs, headless: bool, env: Environment,
    logger: EventLog, browser: Playwright)
    returns (failure: Option<Failure>)
    requires browser.Untouched()
    modifies logger, browser
    ensures failure == FirstFailure(pack, env, browser.script)
    ensures failure.None? ==> Execute(pack, env).Ok?
    ensures logger.events == old(logger.events) + StartEvents(pack, inputs, failure)
    ensures browser.launchedHeadless == if Passed(failure, Launching) then Some(headless) else None
    ensures browser.pageOpened == Passed(failure, OpeningPage)
    ensures browser.artifacts == [] && !browser.pageClosed && !browser.browserClosed
  {
    failure := SetUp(pack, inputs, headless, env, logger, browser);
    if failure.None? {
      var outcome := ExecutePack(pack, env);
      if outcome.Err? {
        failure := Some(Failure(Executing, outcome.error));
      }
    }
    SetupStagesPassed(pack, env, browser.script);
  }

  method RunTaskPack(
    pack: TaskPack, inputs: Inputs, options: Options, env: Environment,
    join: (string, string) -> string, logger: EventLog, browser: Playwright)
    returns (r: RunTaskPackResult, warned: bool)
    requires browser.Untouched()
    modifies logger, browser
    ensures var t := Expected(pack, inputs, options, env, browser.script, join);
      && logger.events == old(logger.events) + t.events
      && r == t.result
      && warned == t.warned
      && browser.launchedHeadless == t.launchedHeadless
      && browser.pageOpened == t.pageOpened
      && browser.artifacts == t.artifacts
    // Teardown on every path: what was opened is closed, and nothing else.
    ensures browser.pageClosed == browser.pageOpened
    ensures browser.browserClosed == browser.launchedHeadless.Some?
  {
    var runDir := options.runDir;
    var artifactsDir := join(runDir, ArtifactsName);
    var eventsPath := join(runDir, EventsName);
    var requested := if options.headless.Some? then options.headless.value else true;
    var headless := requested || !env.hasDisplay;
    warned := !requested && !env.hasDisplay;

    var failure := Attempt(pack, inputs, headless, env, logger, browser);
    ghost var started := StartEvents(pack, inputs, failure);
    r := Finish(pack, env, failure, runDir, eventsPath, artifactsDir, join, logger, browser);
    ghost var ended := EndEvents(failure, env.endTime - env.startTime);
    assert logger.events == old(logger.events) + started + ended;
    assert logger.events == old(logger.events) + (started + ended);
  }
}
