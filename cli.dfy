// The MCP server's command-line parser (`parseArgs`): a scan over the
// arguments after the program name with defaults, last-wins flags and
// validation, then the split of the pack list.
//
// Exiting the process with status 1 is modelled as an error result; the
// environment's DISPLAY is a parameter, and `path.resolve`, which depends on
// the working directory, is a function parameter.

module Cli {
  import opened Text

  /** The parsed options. */
  datatype CliOptions = CliOptions(
    packs: seq<string>,
    headful: bool,
    concurrency: int,
    baseRunDir: string,
    http: bool,
    port: int,
    host: string)

  /** The reasons the parser exits with status 1. */
  datatype CliError = BadConcurrency | BadPort | MissingPacks | NoPackDirs

  /** The first line written to the error stream before exiting. */
  function Message(e: CliError): string {
    match e
    case BadConcurrency => "Error: --concurrency must be a positive integer"
    case BadPort => "Error: --port must be a valid port number (1-65535)"
    case MissingPacks => "Error: --packs <dir1,dir2,...> is required"
    case NoPackDirs => "Error: At least one pack directory is required"
  }

  /** The parser's variables while it scans: the raw `--packs` value, if any,
      and the other options as they stand. */
  datatype Settings = Settings(
    packs: Option<string>,
    headful: bool,
    concurrency: int,
    baseRunDir: string,
    http: bool,
    port: int,
    host: string)

  /** Before any argument: headful exactly when a display is available. */
  function Defaults(hasDisplay: bool): Settings {
    Settings(None, hasDisplay, 1, "./runs", false, 3000, "127.0.0.1")
  }

  // ---------------------------------------------------------------------------
  // `parseInt(s, 10)`: optional white space, an optional sign, then the
  // longest run of decimal digits; no digits gives NaN (here `None`).

  /** The longest prefix of `s` made of digits. */
  function LeadingDigits(s: string): (r: string)
    ensures AllDigits(r) && |r| <= |s| && r == s[..|r|]
    ensures |r| < |s| ==> !IsDigit(s[|r|])
  {
    if s != [] && IsDigit(s[0]) then [s[0]] + LeadingDigits(s[1..]) else []
  }

  function ParseInt(s: string): Option<int> {
    var t := TrimStart(s);
    var signed := t != [] && (t[0] == '-' || t[0] == '+');
    var digits := LeadingDigits(if signed then t[1..] else t);
    if digits == [] then None
    else
      var v: int := DigitsValue(digits);
      if signed && t[0] == '-' then Some(-v) else Some(v)
  }

  /** The digits of a number followed by anything that is not a digit read
      back as that number, with or without a minus sign in front. */
  lemma ParseIntOfNat(n: nat, rest: string)
    requires rest == [] || !IsDigit(rest[0])
    ensures ParseInt(NatToString(n) + rest) == Some(n)
  {
    var x := NatToString(n);
    var s := x + rest;
    LeadingDigitsOf(x, rest);
    NatToStringRoundTrip(n);
    NoLeadingSpace(s);
    assert s[0] == x[0] && IsDigit(s[0]);
    assert LeadingDigits(s) == x;
  }

  lemma ParseIntOfNegated(n: nat, rest: string)
    requires rest == [] || !IsDigit(rest[0])
    ensures ParseInt("-" + NatToString(n) + rest) == Some(-(n as int))
  {
    var x := NatToString(n);
    LeadingDigitsOf(x, rest);
    NatToStringRoundTrip(n);
    var s := "-" + x + rest;
    NoLeadingSpace(s);
    assert s[1..] == x + rest;
  }

  lemma NoLeadingSpace(s: string)
    requires s != [] && (IsDigit(s[0]) || s[0] == '-')
    ensures TrimStart(s) == s
  {
  }

  lemma {:induction false} LeadingDigitsOf(x: string, rest: string)
    requires AllDigits(x)
    requires rest == [] || !IsDigit(rest[0])
    ensures LeadingDigits(x + rest) == x
    decreases |x|
  {
    if x != [] {
      LeadingDigitsOf(x[1..], rest);
      assert (x + rest)[1..] == x[1..] + rest;
    }
  }

  /** Text without a digit where the number should start is NaN. */
  lemma ParseIntNoDigits(s: string)
    requires var t := TrimStart(s);
      t == [] || (!IsDigit(t[0]) && t[0] != '-' && t[0] != '+')
    ensures ParseInt(s).None?
  {
  }

  // ---------------------------------------------------------------------------
  // The scan

  /** Flags that take the next argument as their value. */
  predicate IsValueFlag(a: string) {
    a == "--packs" || a == "--concurrency" || a == "--baseRunDir" || a == "--port" || a == "--host"
  }

  /** Flags that stand alone. */
  predicate IsSwitch(a: string) {
    a == "--headful" || a == "--headless" || a == "--http"
  }

  function Switch(a: string, s: Settings): Settings
    requires IsSwitch(a)
  {
    if a == "--headful" then s.(headful := true)
    else if a == "--headless" then s.(headful := false)
    else s.(http := true)
  }

  /** A value flag with its value: the new settings, or the validation error
      that ends the parse. */
  function Apply(a: string, v: string, s: Settings): Result<Settings, CliError>
    requires IsValueFlag(a)
  {
    if a == "--packs" then Ok(s.(packs := Some(v)))
    else if a == "--baseRunDir" then Ok(s.(baseRunDir := v))
    else if a == "--host" then Ok(s.(host := v))
    else if a == "--concurrency" then
      var n := ParseInt(v);
      if n.None? || n.value < 1 then Err(BadConcurrency) else Ok(s.(concurrency := n.value))
    else
      var n := ParseInt(v);
      if n.None? || n.value < 1 || n.value > 65535 then Err(BadPort) else Ok(s.(port := n.value))
  }

  /** The scan from position `i`: a value flag with a following argument
      consumes it, a switch sets its option, and anything else (including a
      value flag in the last position) is skipped. */
  function Scan(args: seq<string>, i: nat, s: Settings): Result<Settings, CliError>
    decreases |args| - i
  {
    if i >= |args| then Ok(s)
    else if IsSwitch(args[i]) then Scan(args, i + 1, Switch(args[i], s))
    else if IsValueFlag(args[i]) && i + 1 < |args| then
      match Apply(args[i], args[i + 1], s)
      case Err(e) => Err(e)
      case Ok(t) => Scan(args, i + 2, t)
    else Scan(args, i + 1, s)
  }

  /** `packsStr.split(',').map(trim).filter(Boolean)`. */
  function PackDirs(v: string): seq<string> {
    NonEmpty(TrimAll(SplitOn(v, ',')))
  }

  function TrimAll(xs: seq<string>): (r: seq<string>)
    ensures |r| == |xs| && forall k :: 0 <= k < |xs| ==> r[k] == Trim(xs[k])
  {
    seq(|xs|, k requires 0 <= k < |xs| => Trim(xs[k]))
  }

  function ResolveAll(dirs: seq<string>, resolve: string -> string): (r: seq<string>)
    ensures |r| == |dirs| && forall k :: 0 <= k < |dirs| ==> r[k] == resolve(dirs[k])
  {
    seq(|dirs|, k requires 0 <= k < |dirs| => resolve(dirs[k]))
  }

  /** After the scan: the pack list is required and must not be empty. An
      empty `--packs` value counts as missing. */
  function Finish(s: Settings, resolve: string -> string): Result<CliOptions, CliError> {
    if s.packs.None? || s.packs.value == "" then Err(MissingPacks)
    else
      var dirs := PackDirs(s.packs.value);
      if dirs == [] then Err(NoPackDirs)
      else Ok(CliOptions(ResolveAll(dirs, resolve), s.headful, s.concurrency, resolve(s.baseRunDir), s.http, s.port, s.host))
  }

  /** The whole parse of the arguments after the program name. */
  function Parse(args: seq<string>, hasDisplay: bool, resolve: string -> string): Result<CliOptions, CliError> {
    match Scan(args, 0, Defaults(hasDisplay))
    case Err(e) => Err(e)
    case Ok(s) => Finish(s, resolve)
  }

  // One step of the scan for each flag.

  lemma ScanPacks(args: seq<string>, i: nat, s: Settings)
    requires i + 1 < |args| && args[i] == "--packs"
    ensures Scan(args, i, s) == Scan(args, i + 2, s.(packs := Some(args[i + 1])))
  {
  }

  lemma ScanBaseRunDir(args: seq<string>, i: nat, s: Settings)
    requires i + 1 < |args| && args[i] == "--baseRunDir"
    ensures Scan(args, i, s) == Scan(args, i + 2, s.(baseRunDir := args[i + 1]))
  {
  }

  lemma ScanHost(args: seq<string>, i: nat, s: Settings)
    requires i + 1 < |args| && args[i] == "--host"
    ensures Scan(args, i, s) == Scan(args, i + 2, s.(host := args[i + 1]))
  {
  }

  lemma ScanConcurrency(args: seq<string>, i: nat, s: Settings)
    requires i + 1 < |args| && args[i] == "--concurrency"
    ensures var n := ParseInt(args[i + 1]);
      Scan(args, i, s) ==
        if n.None? || n.value < 1 then Err(BadConcurrency) else Scan(args, i + 2, s.(concurrency := n.value))
  {
  }

  lemma ScanPort(args: seq<string>, i: nat, s: Settings)
    requires i + 1 < |args| && args[i] == "--port"
    ensures var n := ParseInt(args[i + 1]);
      Scan(args, i, s) ==
        if n.None? || n.value < 1 || n.value > 65535 then Err(BadPort) else Scan(args, i + 2, s.(port := n.value))
  {
  }

  lemma ScanHeadful(args: seq<string>, i: nat, s: Settings)
    requires i < |args| && args[i] == "--headful"
    ensures Scan(args, i, s) == Scan(args, i + 1, s.(headful := true))
  {
  }

  lemma ScanHeadless(args: seq<string>, i: nat, s: Settings)
    requires i < |args| && args[i] == "--headless"
    ensures Scan(args, i, s) == Scan(args, i + 1, s.(headful := false))
  {
  }

  lemma ScanHttp(args: seq<string>, i: nat, s: Settings)
    requires i < |args| && args[i] == "--http"
    ensures Scan(args, i, s) == Scan(args, i + 1, s.(http := true))
  {
  }

  lemma ScanSkip(args: seq<string>, i: nat, s: Settings)
    requires i < |args| && !IsSwitch(args[i]) && !(IsValueFlag(args[i]) && i + 1 < |args|)
    ensures Scan(args, i, s) == Scan(args, i + 1, s)
  {
  }

  /** One step of the scan, branch by branch as the parser's loop tests
      the argument. */
  lemma ScanStep(args: seq<string>, i: nat, s: Settings)
    requires i < |args|
    ensures Scan(args, i, s) ==
      if args[i] == "--packs" && i + 1 < |args| then Scan(args, i + 2, s.(packs := Some(args[i + 1])))
      else if args[i] == "--headful" then Scan(args, i + 1, s.(headful := true))
      else if args[i] == "--headless" then Scan(args, i + 1, s.(headful := false))
      else if args[i] == "--concurrency" && i + 1 < |args| then
        var n := ParseInt(args[i + 1]);
        if n.None? || n.value < 1 then Err(BadConcurrency) else Scan(args, i + 2, s.(concurrency := n.value))
      else if args[i] == "--baseRunDir" && i + 1 < |args| then Scan(args, i + 2, s.(baseRunDir := args[i + 1]))
      else if args[i] == "--http" then Scan(args, i + 1, s.(http := true))
      else if args[i] == "--port" && i + 1 < |args| then
        var n := ParseInt(args[i + 1]);
        if n.None? || n.value < 1 || n.value > 65535 then Err(BadPort) else Scan(args, i + 2, s.(port := n.value))
      else if args[i] == "--host" && i + 1 < |args| then Scan(args, i + 2, s.(host := args[i + 1]))
      else Scan(args, i + 1, s)
  {
    if args[i] == "--packs" && i + 1 < |args| {
      ScanPacks(args, i, s);
    } else if args[i] == "--headful" {
      ScanHeadful(args, i, s);
    } else if args[i] == "--headless" {
      ScanHeadless(args, i, s);
    } else if args[i] == "--concurrency" && i + 1 < |args| {
      ScanConcurrency(args, i, s);
    } else if args[i] == "--baseRunDir" && i + 1 < |args| {
      ScanBaseRunDir(args, i, s);
    } else if args[i] == "--http" {
      ScanHttp(args, i, s);
    } else if args[i] == "--port" && i + 1 < |args| {
      ScanPort(args, i, s);
    } else if args[i] == "--host" && i + 1 < |args| {
      ScanHost(args, i, s);
    } else {
      ScanSkip(args, i, s);
    }
  }

  method ParseArgs(args: seq<string>, hasDisplay: bool, resolve: string -> string)
    returns (r: Result<CliOptions, CliError>)
    ensures r == Parse(args, hasDisplay, resolve)
    ensures r.Ok? ==> r.value.concurrency >= 1 && 1 <= r.value.port <= 65535 && |r.value.packs| >= 1
  {
    var scanned := ScanArgs(args, hasDisplay);
    if scanned.Err? {
      return Err(scanned.error);
    }
    r := Conclude(scanned.value, resolve);
    ParseBounds(args, hasDisplay, resolve);
  }

  /** The eight flags are different texts. */
  lemma FlagsDistinct()
    ensures "--packs" != "--headful" && "--packs" != "--headless" && "--packs" != "--concurrency"
    ensures "--packs" != "--baseRunDir" && "--packs" != "--http" && "--packs" != "--port"
    ensures "--packs" != "--host" && "--headful" != "--headless" && "--headful" != "--concurrency"
    ensures "--headful" != "--baseRunDir" && "--headful" != "--http" && "--headful" != "--port"
    ensures "--headful" != "--host" && "--headless" != "--concurrency" && "--headless" != "--baseRunDir"
    ensures "--headless" != "--http" && "--headless" != "--port" && "--headless" != "--host"
    ensures "--concurrency" != "--baseRunDir" && "--concurrency" != "--http" && "--concurrency" != "--port"
    ensures "--concurrency" != "--host" && "--baseRunDir" != "--http" && "--baseRunDir" != "--port"
    ensures "--baseRunDir" != "--host" && "--http" != "--port" && "--http" != "--host"
    ensures "--port" != "--host"
  {
  }

  /** The loop over the arguments: the parser's variables when it ends, or
      the validation error that stops it. */
  method ScanArgs(args: seq<string>, hasDisplay: bool) returns (res: Result<Settings, CliError>)
    ensures res == Scan(args, 0, Defaults(hasDisplay))
  {
    // The parser's seven variables, held together.
    var st := Settings(None, hasDisplay, 1, "./runs", false, 3000, "127.0.0.1");
    ghost var goal := Scan(args, 0, st);
    FlagsDistinct();
    var i := 0;
    while i < |args|
      invariant 0 <= i <= |args|
      invariant goal == Scan(args, i, st)
    {
      ScanStep(args, i, st);
      if args[i] == "--packs" && i + 1 < |args| {
        st := st.(packs := Some(args[i + 1]));
        i := i + 1;
      } else if args[i] == "--headful" {
        st := st.(headful := true);
      } else if args[i] == "--headless" {
        st := st.(headful := false);
      } else if args[i] == "--concurrency" && i + 1 < |args| {
        var n := ParseInt(args[i + 1]);
        if n.None? || n.value < 1 {
          return Err(BadConcurrency);
        }
        st := st.(concurrency := n.value);
        i := i + 1;
      } else if args[i] == "--baseRunDir" && i + 1 < |args| {
        st := st.(baseRunDir := args[i + 1]);
        i := i + 1;
      } else if args[i] == "--http" {
        st := st.(http := true);
      } else if args[i] == "--port" && i + 1 < |args| {
        var n := ParseInt(args[i + 1]);
        if n.None? || n.value < 1 || n.value > 65535 {
          return Err(BadPort);
        }
        st := st.(port := n.value);
        i := i + 1;
      } else if args[i] == "--host" && i + 1 < |args| {
        st := st.(host := args[i + 1]);
        i := i + 1;
      } else {
      }
      i := i + 1;
    }

    res := Ok(st);
  }

  /** What the parser does once every argument is read: it requires a
      non-empty pack list and resolves the directories. The function `Finish`
      is its specification. */
  method Conclude(s: Settings, resolve: string -> string) returns (r: Result<CliOptions, CliError>)
    ensures r == Finish(s, resolve)
    ensures r.Ok? ==> |r.value.packs| >= 1 && r.value.concurrency == s.concurrency && r.value.port == s.port
  {
    if s.packs.None? || s.packs.value == "" {
      return Err(MissingPacks);
    }
    var packs := PackDirs(s.packs.value);
    if |packs| == 0 {
      return Err(NoPackDirs);
    }
    r := Ok(CliOptions(ResolveAll(packs, resolve), s.headful, s.concurrency, resolve(s.baseRunDir), s.http, s.port, s.host));
  }

  // ---------------------------------------------------------------------------
  // Properties of the parse

  predicate Bounded(s: Settings) {
    s.concurrency >= 1 && 1 <= s.port <= 65535
  }

  /** The scan only ever stores a concurrency of at least 1 and a port in
      1..65535. */
  lemma {:induction false} ScanKeepsBounds(args: seq<string>, i: nat, s: Settings)
    requires Bounded(s)
    ensures Scan(args, i, s).Ok? ==> Bounded(Scan(args, i, s).value)
    decreases |args| - i
  {
    if i < |args| {
      if IsSwitch(args[i]) {
        ScanKeepsBounds(args, i + 1, Switch(args[i], s));
      } else if IsValueFlag(args[i]) && i + 1 < |args| {
        match Apply(args[i], args[i + 1], s)
        case Err(_) =>
        case Ok(t) => ScanKeepsBounds(args, i + 2, t);
      } else {
        ScanKeepsBounds(args, i + 1, s);
      }
    }
  }

  /** A successful parse has a valid concurrency and port and at least one
      pack directory. */
  lemma ParseBounds(args: seq<string>, hasDisplay: bool, resolve: string -> string)
    ensures var r := Parse(args, hasDisplay, resolve);
      r.Ok? ==>
        r.value.concurrency >= 1 && 1 <= r.value.port <= 65535 && |r.value.packs| >= 1
  {
    ScanKeepsBounds(args, 0, Defaults(hasDisplay));
  }

  /** Arguments before position `i` do not matter to the scan from `i` on. */
  lemma {:induction false} ScanShift(x: seq<string>, args: seq<string>, i: nat, s: Settings)
    ensures Scan(x + args, |x| + i, s) == Scan(args, i, s)
    decreases |args| - i, 1
  {
    if i < |args| {
      if IsSwitch(args[i]) {
        ShiftSwitch(x, args, i, s);
      } else if IsValueFlag(args[i]) && i + 1 < |args| {
        ShiftValue(x, args, i, s);
      } else {
        ShiftSkip(x, args, i, s);
      }
    }
  }

  lemma {:induction false} ShiftSwitch(x: seq<string>, args: seq<string>, i: nat, s: Settings)
    requires i < |args| && IsSwitch(args[i])
    ensures Scan(x + args, |x| + i, s) == Scan(args, i, s)
    decreases |args| - i, 0
  {
    ScanShift(x, args, i + 1, Switch(args[i], s));
    assert (x + args)[|x| + i] == args[i];
    ScanSwitch(x + args, |x| + i, s);
    ScanSwitch(args, i, s);
  }

  lemma {:induction false} ShiftValue(x: seq<string>, args: seq<string>, i: nat, s: Settings)
    requires i + 1 < |args| && IsValueFlag(args[i])
    ensures Scan(x + args, |x| + i, s) == Scan(args, i, s)
    decreases |args| - i, 0
  {
    var r := Apply(args[i], args[i + 1], s);
    if r.Ok? {
      ScanShift(x, args, i + 2, r.value);
    }
    assert (x + args)[|x| + i] == args[i] && (x + args)[|x| + i + 1] == args[i + 1];
    ScanValue(x + args, |x| + i, s);
    ScanValue(args, i, s);
  }

  lemma {:induction false} ShiftSkip(x: seq<string>, args: seq<string>, i: nat, s: Settings)
    requires i < |args| && !IsSwitch(args[i]) && !(IsValueFlag(args[i]) && i + 1 < |args|)
    ensures Scan(x + args, |x| + i, s) == Scan(args, i, s)
    decreases |args| - i, 0
  {
    ScanShift(x, args, i + 1, s);
    assert (x + args)[|x| + i] == args[i];
    ScanSkip(x + args, |x| + i, s);
    ScanSkip(args, i, s);
  }

  /** An argument that is not a flag is skipped. */
  lemma UnknownIgnored(a: string, args: seq<string>, hasDisplay: bool, resolve: string -> string)
    requires !IsSwitch(a) && !IsValueFlag(a)
    ensures Parse([a] + args, hasDisplay, resolve) == Parse(args, hasDisplay, resolve)
  {
    ScanSkip([a] + args, 0, Defaults(hasDisplay));
    ScanShift([a], args, 0, Defaults(hasDisplay));
  }

  /** A value flag with nothing after it is skipped. */
  lemma TrailingValueFlagIgnored(args: seq<string>, s: Settings)
    requires |args| >= 1 && IsValueFlag(args[|args| - 1])
    ensures Scan(args, |args| - 1, s) == Ok(s)
  {
  }

  /** Of two headful/headless switches, the later decides. */
  lemma SwitchLastWins(a: string, b: string, rest: seq<string>, s: Settings)
    requires a == "--headful" || a == "--headless"
    requires b == "--headful" || b == "--headless"
    ensures Scan([a, b] + rest, 0, s) == Scan([b] + rest, 0, s)
  {
    var args := [a, b] + rest;
    ScanSwitch(args, 0, s);
    ScanShift([a], [b] + rest, 0, Switch(a, s));
    assert args == [a] + ([b] + rest);
    ScanSwitch([b] + rest, 0, Switch(a, s));
    ScanSwitch([b] + rest, 0, s);
  }

  lemma ScanSwitch(args: seq<string>, i: nat, s: Settings)
    requires i < |args| && IsSwitch(args[i])
    ensures Scan(args, i, s) == Scan(args, i + 1, Switch(args[i], s))
  {
  }

  /** A repeated value flag keeps the later value, once the earlier one was
      accepted (a rejected `--concurrency` or `--port` value ends the parse). */
  lemma ValueLastWins(f: string, v: string, w: string, rest: seq<string>, s: Settings)
    requires IsValueFlag(f) && Apply(f, v, s).Ok?
    ensures Scan([f, v, f, w] + rest, 0, s) == Scan([f, w] + rest, 0, s)
  {
    var args := [f, v, f, w] + rest;
    var t := Apply(f, v, s).value;
    ScanValue(args, 0, s);
    assert args == [f, v] + ([f, w] + rest);
    ScanShift([f, v], [f, w] + rest, 0, t);
    ScanValue([f, w] + rest, 0, t);
    ScanValue([f, w] + rest, 0, s);
    assert Apply(f, w, t) == Apply(f, w, s);
  }

  lemma ScanValue(args: seq<string>, i: nat, s: Settings)
    requires i + 1 < |args| && IsValueFlag(args[i])
    ensures Scan(args, i, s) == match Apply(args[i], args[i + 1], s)
      case Err(e) => Err(e)
      case Ok(t) => Scan(args, i + 2, t)
  {
  }

  /** The headful choice of the last `--headful` or `--headless` that the
      scan from `i` reads as a flag (an argument consumed as a flag's value
      does not count), or none. */
  function LastHeadful(args: seq<string>, i: nat): Option<bool>
    decreases |args| - i
  {
    if i >= |args| then None
    else if IsValueFlag(args[i]) && i + 1 < |args| then LastHeadful(args, i + 2)
    else
      var later := LastHeadful(args, i + 1);
      if later.None? && (args[i] == "--headful" || args[i] == "--headless") then Some(args[i] == "--headful")
      else later
  }

  /** The value given to the last occurrence of the value flag `f` that the
      scan from `i` reads as a flag, or none. */
  function LastValue(args: seq<string>, i: nat, f: string): Option<string>
    decreases |args| - i
  {
    if i >= |args| then None
    else if IsValueFlag(args[i]) && i + 1 < |args| then
      var later := LastValue(args, i + 2, f);
      if later.None? && args[i] == f then Some(args[i + 1]) else later
    else LastValue(args, i + 1, f)
  }

  /** Whether `--http` appears as a flag from `i` on. */
  function HttpGiven(args: seq<string>, i: nat): bool
    decreases |args| - i
  {
    if i >= |args| then false
    else if IsValueFlag(args[i]) && i + 1 < |args| then HttpGiven(args, i + 2)
    else args[i] == "--http" || HttpGiven(args, i + 1)
  }

  function OrElse<T>(o: Option<T>, d: T): T {
    if o.Some? then o.value else d
  }

  /** The option a string flag sets, as the scan stores it. */
  function TextOption(f: string, s: Settings): Option<string>
    requires IsTextFlag(f)
  {
    if f == "--packs" then s.packs else if f == "--baseRunDir" then Some(s.baseRunDir) else Some(s.host)
  }

  predicate IsTextFlag(f: string) {
    f == "--packs" || f == "--baseRunDir" || f == "--host"
  }

  /** The option a numeric flag sets. */
  function NumberOption(f: string, s: Settings): int
    requires f == "--concurrency" || f == "--port"
  {
    if f == "--concurrency" then s.concurrency else s.port
  }

  /** Last wins for the headful/headless switches, whatever lies between
      the repeats: a scan that succeeds holds the choice of the last one,
      or the earlier setting when there is none. */
  lemma {:induction false} HeadfulLastWins(args: seq<string>, i: nat, s: Settings)
    ensures Scan(args, i, s).Ok? ==> Scan(args, i, s).value.headful == OrElse(LastHeadful(args, i), s.headful)
    decreases |args| - i
  {
    if i < |args| {
      if IsSwitch(args[i]) {
        ScanSwitch(args, i, s);
        HeadfulLastWins(args, i + 1, Switch(args[i], s));
      } else if IsValueFlag(args[i]) && i + 1 < |args| {
        ScanValue(args, i, s);
        var r := Apply(args[i], args[i + 1], s);
        if r.Ok? {
          HeadfulLastWins(args, i + 2, r.value);
        }
      } else {
        ScanSkip(args, i, s);
        HeadfulLastWins(args, i + 1, s);
      }
    }
  }

  /** `--http` is turned on by any occurrence and never turned off. */
  lemma {:induction false} HttpOnceGiven(args: seq<string>, i: nat, s: Settings)
    ensures Scan(args, i, s).Ok? ==> Scan(args, i, s).value.http == (s.http || HttpGiven(args, i))
    decreases |args| - i
  {
    if i < |args| {
      if IsSwitch(args[i]) {
        ScanSwitch(args, i, s);
        HttpOnceGiven(args, i + 1, Switch(args[i], s));
      } else if IsValueFlag(args[i]) && i + 1 < |args| {
        ScanValue(args, i, s);
        var r := Apply(args[i], args[i + 1], s);
        if r.Ok? {
          HttpOnceGiven(args, i + 2, r.value);
        }
      } else {
        ScanSkip(args, i, s);
        HttpOnceGiven(args, i + 1, s);
      }
    }
  }

  /** Last wins for `--packs`, `--baseRunDir` and `--host`, whatever lies
      between the repeats. */
  lemma {:induction false} TextLastWins(args: seq<string>, i: nat, s: Settings, f: string)
    requires IsTextFlag(f)
    ensures Scan(args, i, s).Ok? ==>
      TextOption(f, Scan(args, i, s).value) ==
        if LastValue(args, i, f).Some? then LastValue(args, i, f) else TextOption(f, s)
    decreases |args| - i
  {
    if i < |args| {
      if IsSwitch(args[i]) {
        ScanSwitch(args, i, s);
        TextLastWins(args, i + 1, Switch(args[i], s), f);
      } else if IsValueFlag(args[i]) && i + 1 < |args| {
        ScanValue(args, i, s);
        var r := Apply(args[i], args[i + 1], s);
        if r.Ok? {
          TextLastWins(args, i + 2, r.value, f);
        }
      } else {
        ScanSkip(args, i, s);
        TextLastWins(args, i + 1, s, f);
      }
    }
  }

  /** Last wins for `--concurrency` and `--port`, whatever lies between the
      repeats: the stored number is the one read from the last value. */
  lemma {:induction false} NumberLastWins(args: seq<string>, i: nat, s: Settings, f: string)
    requires f == "--concurrency" || f == "--port"
    ensures Scan(args, i, s).Ok? ==>
      if LastValue(args, i, f).Some? then ParseInt(LastValue(args, i, f).value) == Some(NumberOption(f, Scan(args, i, s).value))
      else NumberOption(f, Scan(args, i, s).value) == NumberOption(f, s)
    decreases |args| - i
  {
    if i < |args| {
      if IsSwitch(args[i]) {
        ScanSwitch(args, i, s);
        NumberLastWins(args, i + 1, Switch(args[i], s), f);
      } else if IsValueFlag(args[i]) && i + 1 < |args| {
        ScanValue(args, i, s);
        var r := Apply(args[i], args[i + 1], s);
        if r.Ok? {
          NumberLastWins(args, i + 2, r.value, f);
        }
      } else {
        ScanSkip(args, i, s);
        NumberLastWins(args, i + 1, s, f);
      }
    }
  }

  /** `--headful --port 80 --headless` ends headless: the switch after the
      port still decides. */
  lemma ExampleSwitchAcrossPort()
    ensures LastHeadful(["--headful", "--port", "80", "--headless"], 0) == Some(false)
  {
  }

  /** `--host a --http --host b` ends with host `b`. */
  lemma ExampleHostAcrossHttp()
    ensures LastValue(["--host", "a", "--http", "--host", "b"], 0, "--host") == Some("b")
  {
  }

  /** For a whole command line: a successful parse holds the last choice of
      each option, and the defaults for options never given. */
  lemma ParseLastWins(args: seq<string>, hasDisplay: bool, resolve: string -> string)
    ensures var r := Parse(args, hasDisplay, resolve);
      r.Ok? ==>
        && r.value.headful == OrElse(LastHeadful(args, 0), hasDisplay)
        && r.value.http == HttpGiven(args, 0)
        && r.value.host == OrElse(LastValue(args, 0, "--host"), "127.0.0.1")
        && r.value.baseRunDir == resolve(OrElse(LastValue(args, 0, "--baseRunDir"), "./runs"))
        && LastValue(args, 0, "--packs").Some?
        && r.value.packs == ResolveAll(PackDirs(LastValue(args, 0, "--packs").value), resolve)
        && (LastValue(args, 0, "--concurrency").Some? ==>
              ParseInt(LastValue(args, 0, "--concurrency").value) == Some(r.value.concurrency))
        && (LastValue(args, 0, "--concurrency").None? ==> r.value.concurrency == 1)
        && (LastValue(args, 0, "--port").Some? ==> ParseInt(LastValue(args, 0, "--port").value) == Some(r.value.port))
        && (LastValue(args, 0, "--port").None? ==> r.value.port == 3000)
  {
    var d := Defaults(hasDisplay);
    HeadfulLastWins(args, 0, d);
    HttpOnceGiven(args, 0, d);
    TextLastWins(args, 0, d, "--packs");
    TextLastWins(args, 0, d, "--baseRunDir");
    TextLastWins(args, 0, d, "--host");
    NumberLastWins(args, 0, d, "--concurrency");
    NumberLastWins(args, 0, d, "--port");
  }

  /** `--concurrency` must read as an integer of at least 1; otherwise the
      parse stops with the matching error. */
  lemma ConcurrencyValidated(v: string, rest: seq<string>, s: Settings)
    ensures var n := ParseInt(v);
      Scan(["--concurrency", v] + rest, 0, s) ==
        if n.None? || n.value < 1 then Err(BadConcurrency)
        else Scan(rest, 0, s.(concurrency := n.value))
  {
    var args := ["--concurrency", v] + rest;
    ScanConcurrency(args, 0, s);
    var n := ParseInt(v);
    if n.Some? && n.value >= 1 {
      ScanShift(["--concurrency", v], rest, 0, s.(concurrency := n.value));
    }
  }

  /** `--port` must read as an integer in 1..65535. */
  lemma PortValidated(v: string, rest: seq<string>, s: Settings)
    ensures var n := ParseInt(v);
      Scan(["--port", v] + rest, 0, s) ==
        if n.None? || n.value < 1 || n.value > 65535 then Err(BadPort)
        else Scan(rest, 0, s.(port := n.value))
  {
    var args := ["--port", v] + rest;
    ScanPort(args, 0, s);
    var n := ParseInt(v);
    if n.Some? && 1 <= n.value <= 65535 {
      ScanShift(["--port", v], rest, 0, s.(port := n.value));
    }
  }

  /** Without a `--packs` argument the parse fails: with `MissingPacks`
      unless a number was rejected first. */
  lemma MissingPacksFails(args: seq<string>, hasDisplay: bool, resolve: string -> string)
    requires "--packs" !in args
    ensures Parse(args, hasDisplay, resolve) in {Err(MissingPacks), Err(BadConcurrency), Err(BadPort)}
  {
    ScanKeepsPacks(args, 0, Defaults(hasDisplay));
    assert args[0..] == args;
  }

  lemma {:induction false} ScanKeepsPacks(args: seq<string>, i: nat, s: Settings)
    requires i <= |args| && "--packs" !in args[i..]
    ensures Scan(args, i, s).Ok? ==> Scan(args, i, s).value.packs == s.packs
    ensures Scan(args, i, s).Err? ==> Scan(args, i, s).error in {BadConcurrency, BadPort}
    decreases |args| - i
  {
    if i < |args| {
      assert args[i] == args[i..][0];
      if IsSwitch(args[i]) {
        ScanKeepsPacks(args, i + 1, Switch(args[i], s));
      } else if IsValueFlag(args[i]) && i + 1 < |args| {
        assert args[i + 2..] == args[i..][2..];
        match Apply(args[i], args[i + 1], s)
        case Err(_) =>
        case Ok(t) => ScanKeepsPacks(args, i + 2, t);
      } else {
        assert args[i + 1..] == args[i..][1..];
        ScanKeepsPacks(args, i + 1, s);
      }
    }
  }

  /** `--packs` alone: one directory and every other option at its default. */
  lemma DefaultOptions(p: string, hasDisplay: bool, resolve: string -> string)
    requires p != "" && ',' !in p && IsTrimmed(p)
    ensures Parse(["--packs", p], hasDisplay, resolve)
         == Ok(CliOptions([resolve(p)], hasDisplay, 1, resolve("./runs"), false, 3000, "127.0.0.1"))
  {
    var s := Defaults(hasDisplay).(packs := Some(p));
    ScanPacks(["--packs", p], 0, Defaults(hasDisplay));
    assert Scan(["--packs", p], 2, s) == Ok(s);
    SplitOnAbsent(p, ',');
    TrimOfTrimmed(p);
    assert TrimAll([p]) == [p];
    assert NonEmpty([p]) == [p] + NonEmpty([]);
    assert PackDirs(p) == [p];
    assert Parse(["--packs", p], hasDisplay, resolve) == Finish(s, resolve);
    assert ResolveAll([p], resolve) == [resolve(p)];
  }

  /** Joining directory names with commas and parsing the list gives them
      back, in order. */
  lemma PackListRoundTrip(xs: seq<string>)
    requires |xs| >= 1
    requires forall k :: 0 <= k < |xs| ==> xs[k] != "" && IsTrimmed(xs[k]) && ',' !in xs[k]
    ensures PackDirs(Join(xs, ",")) == xs
  {
    JoinSplitRoundTrip(xs, ',');
    TrimAllTrimmed(xs);
    NonEmptyKeeps(xs);
  }

  /** A comma-joined list parses to its trimmed entries with the empty
      ones dropped, the rest kept in order. */
  lemma PackDirsOfJoin(xs: seq<string>)
    requires |xs| >= 1
    requires forall k :: 0 <= k < |xs| ==> ',' !in xs[k]
    ensures PackDirs(Join(xs, ",")) == NonEmpty(TrimAll(xs))
  {
    JoinSplitRoundTrip(xs, ',');
  }

  /** `a,,b` lists `a` and `b`: the empty entry between the two commas is
      dropped and the others are kept in order. */
  lemma EmptyEntryDropped(a: string, b: string)
    requires a != "" && IsTrimmed(a) && ',' !in a
    requires b != "" && IsTrimmed(b) && ',' !in b
    ensures PackDirs(a + ",," + b) == [a, b]
  {
    JoinAroundEmpty(a, b);
    PackDirsOfJoin([a, "", b]);
    TrimAllAroundEmpty(a, b);
    NonEmptyAroundEmpty(a, b);
  }

  lemma JoinAroundEmpty(a: string, b: string)
    ensures Join([a, "", b], ",") == a + ",," + b
  {
    var xs := [a, "", b];
    assert xs[1..] == ["", b] && xs[1..][1..] == [b];
    assert Join(xs[1..], ",") == "," + b;
    AppendAssoc(a + ",", ",", b);
    AppendAssoc(a, ",", ",");
  }

  lemma TrimAllAroundEmpty(a: string, b: string)
    requires IsTrimmed(a) && IsTrimmed(b)
    ensures TrimAll([a, "", b]) == [a, "", b]
  {
    var xs := [a, "", b];
    assert forall k :: 0 <= k < |xs| ==> IsTrimmed(xs[k]);
    TrimAllTrimmed(xs);
  }

  lemma TrimAllTrimmed(xs: seq<string>)
    requires forall k :: 0 <= k < |xs| ==> IsTrimmed(xs[k])
    ensures TrimAll(xs) == xs
  {
    forall k | 0 <= k < |xs|
      ensures Trim(xs[k]) == xs[k]
    {
      TrimOfTrimmed(xs[k]);
    }
  }

  lemma NonEmptyAroundEmpty(a: string, b: string)
    requires a != "" && b != ""
    ensures NonEmpty([a, "", b]) == [a, b]
  {
    NonEmptyCons(a, ["", b]);
    NonEmptyCons("", [b]);
    NonEmptyCons(b, []);
    assert [a] + ["", b] == [a, "", b] && [""] + [b] == ["", b] && [b] + [] == [b];
  }

  lemma {:induction false} NonEmptyKeeps(xs: seq<string>)
    requires forall k :: 0 <= k < |xs| ==> xs[k] != ""
    ensures NonEmpty(xs) == xs
  {
    if xs != [] {
      NonEmptyKeeps(xs[1..]);
    }
  }

  /** Every listed directory is non-empty, trimmed and free of commas. */
  lemma PackDirsShape(v: string)
    ensures forall k :: 0 <= k < |PackDirs(v)| ==>
      PackDirs(v)[k] != "" && IsTrimmed(PackDirs(v)[k]) && ',' !in PackDirs(v)[k]
  {
    var pieces := SplitOn(v, ',');
    var trimmed := TrimAll(pieces);
    forall k | 0 <= k < |trimmed|
      ensures IsTrimmed(trimmed[k]) && ',' !in trimmed[k]
    {
      TrimKeepsAbsent(pieces[k], ',');
    }
    forall d | d in trimmed
      ensures IsTrimmed(d) && ',' !in d
    {
      var k :| 0 <= k < |trimmed| && trimmed[k] == d;
    }
  }

  lemma TrimKeepsAbsent(x: string, c: char)
    requires c !in x
    ensures c !in Trim(x)
  {
    var n := |x| - |TrimStart(x)|;
    assert Trim(x) == x[n..n + |Trim(x)|];
  }

  /** A list of only commas and white space leaves no directory. */
  lemma NoDirectories(v: string)
    requires forall j :: 0 <= j < |v| ==> v[j] == ',' || IsJsSpace(v[j])
    ensures PackDirs(v) == []
  {
    var pieces := SplitOn(v, ',');
    SplitOnPieces(v, ',');
    forall k | 0 <= k < |pieces|
      ensures Trim(pieces[k]) == ""
    {
      AllSpaceTrims(pieces[k]);
    }
    NonEmptyDrops(TrimAll(pieces));
  }

  lemma AllSpaceTrims(x: string)
    requires forall j :: 0 <= j < |x| ==> IsJsSpace(x[j])
    ensures Trim(x) == ""
  {
  }

  lemma {:induction false} NonEmptyDrops(xs: seq<string>)
    requires forall k :: 0 <= k < |xs| ==> xs[k] == ""
    ensures NonEmpty(xs) == []
  {
    if xs != [] {
      NonEmptyDrops(xs[1..]);
    }
  }

  /** The pieces of a split are made of characters of the input other than
      the separator. */
  lemma {:induction false} SplitOnPieces(v: string, c: char)
    requires forall j :: 0 <= j < |v| ==> v[j] == c || IsJsSpace(v[j])
    ensures forall k, j :: 0 <= k < |SplitOn(v, c)| && 0 <= j < |SplitOn(v, c)[k]| ==> IsJsSpace(SplitOn(v, c)[k][j])
    decreases |v|
  {
    match IndexOf(v, c)
    case None =>
    case Some(i) =>
      SplitOnPieces(v[i + 1..], c);
      assert SplitOn(v, c) == [v[..i]] + SplitOn(v[i + 1..], c);
  }

  /** An empty `--packs` value is reported as missing; one with only commas
      and spaces as leaving no directory. */
  lemma EmptyPackList(v: string, hasDisplay: bool, resolve: string -> string)
    requires forall j :: 0 <= j < |v| ==> v[j] == ',' || IsJsSpace(v[j])
    ensures Parse(["--packs", v], hasDisplay, resolve) == Err(if v == "" then MissingPacks else NoPackDirs)
  {
    ScanPacks(["--packs", v], 0, Defaults(hasDisplay));
    NoDirectories(v);
  }
}
