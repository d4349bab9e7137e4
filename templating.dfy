/** Template resolution of task-pack parameters (`resolveTemplate` and
    `resolveTemplates`), restricted to the grammar the template library is
    exercised with:

      marker   ::= "{{" path ("|" filter)* "}}"
      path     ::= identifier ("." identifier)*      -- no spaces inside
      filter   ::= "upper" | "urlencode"             -- spaces around allowed

    The first identifier names the source: `inputs`, `vars` or `secret`. A
    path that reaches nothing renders as the empty string. Text outside
    markers is copied. Anything else between `{{` and `}}`, and a `{{` with
    no `}}` after it, is a template error. */
module Templating {
  import opened Text
  import UrlEncoding

  /** JSON-like values as they occur in parameters, inputs and variables.
      Object fields keep their insertion order. */
  datatype Value =
    | Null
    | Bool(b: bool)
    | Num(n: int)
    | Str(s: string)
    | Arr(items: seq<Value>)
    | Obj(fields: seq<(string, Value)>)

  /** The variables visible to a template during one run. */
  datatype VariableContext = VariableContext(
    inputs: seq<(string, Value)>,
    vars: seq<(string, Value)>,
    secrets: Option<seq<(string, Value)>>)

  datatype Filter = Upper | UrlEncode

  datatype Marker = Marker(root: string, path: seq<string>, filters: seq<Filter>)

  datatype Segment = Lit(text: string) | Expr(marker: Marker)

  datatype TemplateError =
    | UnclosedMarker
    | BadExpression(expression: string)
    | UnknownFilter(name: string)

  // ---------------------------------------------------------------------------
  // Finding `{{` and `}}`

  predicate HasPair(s: string, a: char, b: char) {
    exists k :: 0 <= k < |s| - 1 && s[k] == a && s[k + 1] == b
  }

  /** The first position where `a` is directly followed by `b`. */
  function FindPair(s: string, a: char, b: char): (r: Option<nat>)
    ensures r.Some? ==> r.value + 1 < |s| && s[r.value] == a && s[r.value + 1] == b
  {
    if |s| < 2 then None
    else if s[0] == a && s[1] == b then Some(0)
    else
      match FindPair(s[1..], a, b)
      case None => None
      case Some(k) => Some(k + 1)
  }

  lemma {:induction false} FindPairNone(s: string, a: char, b: char)
    requires !HasPair(s, a, b)
    ensures FindPair(s, a, b) == None
  {
    if |s| >= 2 {
      forall k | 0 <= k < |s| - 2 ensures !(s[1..][k] == a && s[1..][k + 1] == b) {
        assert s[1..][k] == s[k + 1] && s[1..][k + 1] == s[k + 2];
      }
      FindPairNone(s[1..], a, b);
    }
  }

  /** The first pair is found where it is. */
  lemma {:induction false} FindPairAt(s: string, a: char, b: char, i: nat)
    requires i + 1 < |s| && s[i] == a && s[i + 1] == b
    requires forall k :: 0 <= k < i ==> !(s[k] == a && s[k + 1] == b)
    ensures FindPair(s, a, b) == Some(i)
  {
    if i > 0 {
      assert !(s[0] == a && s[1] == b);
      FindPairAt(s[1..], a, b, i - 1);
    }
  }

  // ---------------------------------------------------------------------------
  // Parsing

  predicate IsIdentifierChar(c: char) {
    ('a' <= c <= 'z') || ('A' <= c <= 'Z') || ('0' <= c <= '9') || c == '_' || c == '$'
  }

  predicate IsIdentifier(s: string) {
    s != [] && !IsDigit(s[0]) && forall i :: 0 <= i < |s| ==> IsIdentifierChar(s[i])
  }

  function ParseFilters(names: seq<string>): (r: Result<seq<Filter>, TemplateError>)
    ensures r.Ok? ==> |r.value| == |names|
  {
    if names == [] then Ok([])
    else
      var name := Trim(names[0]);
      var f :=
        if name == "upper" then Some(Upper)
        else if name == "urlencode" then Some(UrlEncode)
        else None;
      match f
      case None => Err(UnknownFilter(name))
      case Some(filter) =>
        match ParseFilters(names[1..])
        case Err(e) => Err(e)
        case Ok(rest) => Ok([filter] + rest)
  }

  /** The expression between `{{` and `}}`. */
  function ParseExpression(e: string): (r: Result<Marker, TemplateError>)
    ensures r.Ok? ==> IsIdentifier(r.value.root)
    ensures r.Ok? ==> forall k :: 0 <= k < |r.value.path| ==> IsIdentifier(r.value.path[k])
  {
    var parts := SplitOn(e, '|');
    var names := SplitOn(Trim(parts[0]), '.');
    if !(forall k :: 0 <= k < |names| ==> IsIdentifier(names[k])) then Err(BadExpression(e))
    else
      match ParseFilters(parts[1..])
      case Err(err) => Err(err)
      case Ok(filters) => Ok(Marker(names[0], names[1..], filters))
  }

  /** Where the next marker is: the text before its `{{`, the text between
      `{{` and the next `}}`, and the text after that `}}`. */
  datatype Split =
    | NoMarker
    | Unclosed
    | Marked(before: string, expression: string, after: string)

  function NextMarker(s: string): (r: Split)
    ensures r.Marked? ==> r.before + "{{" + r.expression + "}}" + r.after == s
  {
    match FindPair(s, '{', '{')
    case None => NoMarker
    case Some(i) =>
      var rest := s[i + 2..];
      match FindPair(rest, '}', '}')
      case None => Unclosed
      case Some(j) =>
        assert s == s[..i] + "{{" + rest[..j] + "}}" + rest[j + 2..];
        Marked(s[..i], rest[..j], rest[j + 2..])
  }

  /** Literal text as segments: none for the empty string. */
  function LitSegments(s: string): seq<Segment> {
    if s == [] then [] else [Lit(s)]
  }

  /** Splits a template into literal text and markers. */
  function Parse(s: string): (r: Result<seq<Segment>, TemplateError>)
    decreases |s|
  {
    match NextMarker(s)
    case NoMarker => Ok(LitSegments(s))
    case Unclosed => Err(UnclosedMarker)
    case Marked(before, e, after) =>
      assert |after| < |s| by {
        assert |before + "{{" + e + "}}" + after| == |before| + |e| + 4 + |after|;
      }
      match ParseExpression(e)
      case Err(err) => Err(err)
      case Ok(m) =>
        match Parse(after)
        case Err(err) => Err(err)
        case Ok(tail) => Ok(LitSegments(before) + [Expr(m)] + tail)
  }

  // ---------------------------------------------------------------------------
  // Evaluation

  /** The first field named `key`. */
  function Field(fields: seq<(string, Value)>, key: string): (r: Option<Value>)
    ensures r.Some? ==> exists k :: 0 <= k < |fields| && fields[k] == (key, r.value)
    ensures r.None? ==> forall k :: 0 <= k < |fields| ==> fields[k].0 != key
  {
    if fields == [] then None
    else if fields[0].0 == key then Some(fields[0].1)
    else
      var r := Field(fields[1..], key);
      assert r.Some? ==> exists k :: 0 <= k < |fields| - 1 && fields[1..][k] == (key, r.value);
      r
  }

  /** Dotted member access; a missing member or a member of a non-object
      gives nothing. */
  function LookupPath(v: Value, path: seq<string>): Option<Value>
    decreases |path|
  {
    if path == [] then Some(v)
    else
      match v
      case Obj(fields) =>
        (match Field(fields, path[0])
         case None => None
         case Some(child) => LookupPath(child, path[1..]))
      case _ => None
  }

  function Root(ctx: VariableContext, name: string): Option<Value> {
    if name == "inputs" then Some(Obj(ctx.inputs))
    else if name == "vars" then Some(Obj(ctx.vars))
    else if name == "secret" then
      (match ctx.secrets
       case None => None
       case Some(s) => Some(Obj(s)))
    else None
  }

  function Lookup(m: Marker, ctx: VariableContext): Option<Value> {
    match Root(ctx, m.root)
    case None => None
    case Some(v) => LookupPath(v, m.path)
  }

  /** How a value is written into the output: `null` as nothing, numbers in
      decimal, arrays as their elements joined with `,`, objects as
      `[object Object]`. */
  function Render(v: Value): string {
    match v
    case Null => ""
    case Bool(b) => if b then "true" else "false"
    case Num(n) => IntToString(n)
    case Str(s) => s
    case Arr(items) => Join(seq(|items|, i requires 0 <= i < |items| => Render(items[i])), ",")
    case Obj(_) => "[object Object]"
  }

  function ApplyFilters(filters: seq<Filter>, s: string): string {
    if filters == [] then s
    else
      var t := match filters[0]
        case Upper => Text.Upper(s)
        case UrlEncode => UrlEncoding.UrlEncode(s);
      ApplyFilters(filters[1..], t)
  }

  /** The text a marker is replaced by: the rendered value, or the empty
      string when the path reaches nothing, passed through the filters from
      left to right. */
  function Evaluate(m: Marker, ctx: VariableContext): string {
    var base := match Lookup(m, ctx) case None => "" case Some(v) => Render(v);
    ApplyFilters(m.filters, base)
  }

  function RenderSegments(segs: seq<Segment>, ctx: VariableContext): string {
    if segs == [] then ""
    else
      var head := match segs[0] case Lit(t) => t case Expr(m) => Evaluate(m, ctx);
      head + RenderSegments(segs[1..], ctx)
  }

  /** `resolveTemplate(template, context)`. */
  function ResolveTemplate(s: string, ctx: VariableContext): Result<string, TemplateError> {
    match Parse(s)
    case Err(e) => Err(e)
    case Ok(segs) => Ok(RenderSegments(segs, ctx))
  }

  /** A string without `{{` is returned unchanged. */
  lemma NoMarkerUnchanged(s: string, ctx: VariableContext)
    ensures !HasPair(s, '{', '{') ==> ResolveTemplate(s, ctx) == Ok(s)
  {
    if s == [] {
      FindPairNone(s, '{', '{');
    }
    if !HasPair(s, '{', '{') && s != [] {
      FindPairNone(s, '{', '{');
      assert NextMarker(s) == NoMarker;
      assert Parse(s) == Ok([Lit(s)]);
      assert [Lit(s)][1..] == [];
      assert RenderSegments([Lit(s)], ctx) == s + RenderSegments([], ctx) == s + "";
      assert s + "" == s;
    }
  }

  // ---------------------------------------------------------------------------
  // Resolution over nested values

  /** Some string anywhere inside `v` contains `{{`. */
  predicate HasMarker(v: Value) {
    match v
    case Str(s) => HasPair(s, '{', '{')
    case Arr(items) => exists i :: 0 <= i < |items| && HasMarker(items[i])
    case Obj(fields) => exists i :: 0 <= i < |fields| && HasMarker(fields[i].1)
    case _ => false
  }

  /** `a` and `b` have the same structure: the same keys in the same order,
      the same array lengths, the same non-string leaves; only strings may
      differ. */
  predicate SameShape(a: Value, b: Value) {
    match (a, b)
    case (Str(_), Str(_)) => true
    case (Arr(xs), Arr(ys)) =>
      |xs| == |ys| && forall i :: 0 <= i < |xs| ==> SameShape(xs[i], ys[i])
    case (Obj(fs), Obj(gs)) =>
      |fs| == |gs| && forall i :: 0 <= i < |fs| ==> fs[i].0 == gs[i].0 && SameShape(fs[i].1, gs[i].1)
    case _ => a == b
  }

  /** The first error among the results, or all the values. */
  function Collect(rs: seq<Result<Value, TemplateError>>): (r: Result<seq<Value>, TemplateError>)
    ensures r.Ok? <==> forall i :: 0 <= i < |rs| ==> rs[i].Ok?
    ensures r.Ok? ==> |r.value| == |rs| && forall i :: 0 <= i < |rs| ==> r.value[i] == rs[i].value
  {
    if rs == [] then Ok([])
    else
      match rs[0]
      case Err(e) => Err(e)
      case Ok(v) =>
        match Collect(rs[1..])
        case Err(e) => Err(e)
        case Ok(vs) => Ok([v] + vs)
  }

  /** `resolveTemplates(value, context)`: strings are resolved, arrays and
      objects element by element, every other value is returned as it is. */
  function ResolveTemplates(v: Value, ctx: VariableContext): (r: Result<Value, TemplateError>)
    ensures r.Ok? ==> SameShape(v, r.value)
    ensures !HasMarker(v) ==> r == Ok(v)
  {
    match v
    case Str(s) =>
      NoMarkerUnchanged(s, ctx);
      (match ResolveTemplate(s, ctx)
       case Err(e) => Err(e)
       case Ok(t) => Ok(Str(t)))
    case Arr(items) =>
      var rs := seq(|items|, i requires 0 <= i < |items| => ResolveTemplates(items[i], ctx));
      (match Collect(rs)
       case Err(e) => Err(e)
       case Ok(vs) =>
         assert !HasMarker(v) ==> vs == items;
         Ok(Arr(vs)))
    case Obj(fields) =>
      var rs := seq(|fields|, i requires 0 <= i < |fields| => ResolveTemplates(fields[i].1, ctx));
      (match Collect(rs)
       case Err(e) => Err(e)
       case Ok(vs) =>
         var fields' := seq(|fields|, i requires 0 <= i < |fields| => (fields[i].0, vs[i]));
         assert !HasMarker(v) ==> fields' == fields;
         Ok(Obj(fields')))
    case _ => Ok(v)
  }

  // ---------------------------------------------------------------------------
  // Properties of resolution

  lemma {:induction false} RenderSegmentsAppend(a: seq<Segment>, b: seq<Segment>, ctx: VariableContext)
    ensures RenderSegments(a + b, ctx) == RenderSegments(a, ctx) + RenderSegments(b, ctx)
  {
    if a != [] {
      RenderSegmentsAppend(a[1..], b, ctx);
      assert (a + b)[1..] == a[1..] + b;
    } else {
      assert a + b == b;
    }
  }

  /** How `Parse` splits literal text, one marker and the rest. */
  lemma NextMarkerOf(lit: string, e: string, rest: string)
    requires !HasPair(lit + "{", '{', '{')
    requires !HasPair(e + "}", '}', '}')
    ensures NextMarker(lit + "{{" + e + "}}" + rest) == Marked(lit, e, rest)
  {
    var s := lit + "{{" + e + "}}" + rest;
    var after := s[|lit| + 2..];
    assert FindPair(s, '{', '{') == Some(|lit|) by {
      forall k | 0 <= k < |lit| ensures !(s[k] == '{' && s[k + 1] == '{') {
        assert s[k] == (lit + "{")[k] && s[k + 1] == (lit + "{")[k + 1];
      }
      FindPairAt(s, '{', '{', |lit|);
    }
    assert after == e + "}}" + rest;
    assert FindPair(after, '}', '}') == Some(|e|) by {
      forall k | 0 <= k < |e| ensures !(after[k] == '}' && after[k + 1] == '}') {
        assert after[k] == (e + "}")[k] && after[k + 1] == (e + "}")[k + 1];
      }
      FindPairAt(after, '}', '}', |e|);
    }
    assert after[..|e|] == e;
    assert after[|e| + 2..] == rest;
    assert s[..|lit|] == lit;
  }

  lemma ParseMarkerThenRest(lit: string, e: string, rest: string, m: Marker)
    requires !HasPair(lit + "{", '{', '{')
    requires !HasPair(e + "}", '}', '}')
    requires ParseExpression(e) == Ok(m)
    ensures Parse(rest).Err? ==> Parse(lit + "{{" + e + "}}" + rest) == Parse(rest)
    ensures Parse(rest).Ok? ==>
      Parse(lit + "{{" + e + "}}" + rest) == Ok(LitSegments(lit) + [Expr(m)] + Parse(rest).value)
  {
    NextMarkerOf(lit, e, rest);
  }

  lemma RenderLitMarker(lit: string, m: Marker, tail: seq<Segment>, ctx: VariableContext)
    ensures RenderSegments(LitSegments(lit) + [Expr(m)] + tail, ctx)
      == lit + Evaluate(m, ctx) + RenderSegments(tail, ctx)
  {
    var head := LitSegments(lit);
    RenderSegmentsAppend(head + [Expr(m)], tail, ctx);
    RenderSegmentsAppend(head, [Expr(m)], ctx);
    assert RenderSegments([Expr(m)], ctx) == Evaluate(m, ctx) + RenderSegments([], ctx);
    if lit != [] {
      assert RenderSegments(head, ctx) == lit + RenderSegments([], ctx);
    }
  }

  /** A marker preceded by literal text: the text is kept, the marker is
      replaced by its value and the rest of the template is resolved on its
      own. Applied repeatedly this covers any number of markers. */
  lemma ResolveMarkerThenRest(lit: string, e: string, rest: string, m: Marker, ctx: VariableContext)
    requires !HasPair(lit + "{", '{', '{')
    requires !HasPair(e + "}", '}', '}')
    requires ParseExpression(e) == Ok(m)
    ensures ResolveTemplate(lit + "{{" + e + "}}" + rest, ctx) ==
      match ResolveTemplate(rest, ctx)
      case Err(x) => Err(x)
      case Ok(r) => Ok(lit + Evaluate(m, ctx) + r)
  {
    ParseMarkerThenRest(lit, e, rest, m);
    if Parse(rest).Ok? {
      RenderLitMarker(lit, m, Parse(rest).value, ctx);
    }
  }

  /** A path that reaches nothing renders as the empty string, passed
      through the filters. */
  lemma MissingPathIsEmpty(m: Marker, ctx: VariableContext)
    requires Lookup(m, ctx).None?
    ensures Evaluate(m, ctx) == ApplyFilters(m.filters, "")
    ensures m.filters == [] ==> Evaluate(m, ctx) == ""
  {
  }

  lemma NoPairWithout(x: string, c: char)
    requires c !in x
    ensures !HasPair(x + [c], c, c)
  {
    forall k | 0 <= k < |x| ensures (x + [c])[k] != c {
      assert (x + [c])[k] == x[k];
    }
  }

  lemma IdentifierHasNo(s: string, c: char)
    requires IsIdentifier(s) && !IsIdentifierChar(c)
    ensures c !in s
  {
  }

  lemma DottedPathPieces(root: string, key: string)
    requires IsIdentifier(root) && IsIdentifier(key)
    ensures SplitOn(root + "." + key, '|') == [root + "." + key]
    ensures Trim(root + "." + key) == root + "." + key
    ensures SplitOn(root + "." + key, '.') == [root, key]
  {
    var e := root + "." + key;
    assert e == root + ['.'] + key;
    IdentifierHasNo(root, '|');
    IdentifierHasNo(key, '|');
    IdentifierHasNo(root, '.');
    IdentifierHasNo(key, '.');
    SplitOnAbsent(e, '|');
    assert e[0] == root[0] && e[|e| - 1] == key[|key| - 1];
    TrimOfTrimmed(e);
    SplitOnFirst(root, '.', key);
    SplitOnAbsent(key, '.');
  }

  /** `root.key` is read as the path `key` under source `root`, without
      filters. */
  lemma ParseDottedPath(root: string, key: string)
    requires IsIdentifier(root) && IsIdentifier(key)
    ensures ParseExpression(root + "." + key) == Ok(Marker(root, [key], []))
    ensures !HasPair(root + "." + key + "}", '}', '}')
  {
    DottedPathParses(root, key);
    DottedPathUnclosed(root, key);
  }

  /** How `ParseExpression` reads an expression once its pieces are known. */
  lemma ParseExpressionShape(e: string, parts: seq<string>, names: seq<string>, fs: seq<Filter>)
    requires parts == SplitOn(e, '|') && names == SplitOn(Trim(parts[0]), '.')
    requires forall k :: 0 <= k < |names| ==> IsIdentifier(names[k])
    requires ParseFilters(parts[1..]) == Ok(fs)
    ensures ParseExpression(e) == Ok(Marker(names[0], names[1..], fs))
  {
  }

  lemma BothIdentifiers(a: string, b: string)
    requires IsIdentifier(a) && IsIdentifier(b)
    ensures forall k :: 0 <= k < |[a, b]| ==> IsIdentifier([a, b][k])
  {
    forall k | 0 <= k < 2 ensures IsIdentifier([a, b][k]) {
      if k == 0 { assert [a, b][k] == a; } else { assert [a, b][k] == b; }
    }
  }

  lemma DottedPathParses(root: string, key: string)
    requires IsIdentifier(root) && IsIdentifier(key)
    ensures ParseExpression(root + "." + key) == Ok(Marker(root, [key], []))
    ensures '}' !in root + "." + key
  {
    var e := root + "." + key;
    DottedPathPieces(root, key);
    var names := [root, key];
    assert [e][0] == e && [e][1..] == [];
    BothIdentifiers(root, key);
    assert names[1..] == [key];
    ParseExpressionShape(e, [e], names, []);
    DottedPathNoBrace(root, key);
  }

  lemma DottedPathNoBrace(root: string, key: string)
    requires IsIdentifier(root) && IsIdentifier(key)
    ensures '}' !in root + "." + key
  {
    IdentifierHasNo(root, '}');
    IdentifierHasNo(key, '}');
    assert root + "." + key == root + ['.'] + key;
  }

  lemma DottedPathUnclosed(root: string, key: string)
    requires IsIdentifier(root) && IsIdentifier(key)
    ensures !HasPair(root + "." + key + "}", '}', '}')
  {
    var e := root + "." + key;
    IdentifierHasNo(root, '}');
    IdentifierHasNo(key, '}');
    assert '}' !in e by {
      assert e == root + ['.'] + key;
    }
    NoPairWithout(e, '}');
  }

  /** `{{<root>.<key>}}` whose path reaches nothing resolves to the empty
      string, the text around it being kept. */
  lemma MissingPathResolvesEmpty(lit: string, root: string, key: string, rest: string, ctx: VariableContext)
    requires IsIdentifier(root) && IsIdentifier(key)
    requires Lookup(Marker(root, [key], []), ctx).None?
    requires !HasPair(lit + "{", '{', '{')
    ensures ResolveTemplate(lit + "{{" + (root + "." + key) + "}}" + rest, ctx) ==
      match ResolveTemplate(rest, ctx)
      case Err(x) => Err(x)
      case Ok(r) => Ok(lit + r)
  {
    var e := root + "." + key;
    var m := Marker(root, [key], []);
    ParseDottedPath(root, key);
    ResolveMarkerThenRest(lit, e, rest, m, ctx);
    assert Evaluate(m, ctx) == "" by {
      MissingPathIsEmpty(m, ctx);
    }
    match ResolveTemplate(rest, ctx)
    case Err(_) =>
    case Ok(r) =>
      EmptyInfix(lit, Evaluate(m, ctx), r);
  }

  /** An input key that is not there, a variable that is not there, and a
      secret asked for when no secrets are supplied all reach nothing. */
  lemma MissingSources(key: string, ctx: VariableContext)
    ensures Field(ctx.inputs, key).None? ==> Lookup(Marker("inputs", [key], []), ctx).None?
    ensures Field(ctx.vars, key).None? ==> Lookup(Marker("vars", [key], []), ctx).None?
    ensures ctx.secrets.None? ==> Lookup(Marker("secret", [key], []), ctx).None?
  {
  }

  lemma EmptyInfix(a: string, b: string, c: string)
    requires b == ""
    ensures a + b + c == a + c
  {
  }

  lemma NoCharNoPair(s: string, c: char)
    requires c !in s
    ensures !HasPair(s, c, c)
  {
  }

  /** A marker after literal text without `{`, where the expression has no
      `}`: the text is kept and the marker is replaced by its value. */
  lemma ResolveExpression(lit: string, e: string, rest: string, m: Marker, ctx: VariableContext)
    requires '{' !in lit && '}' !in e && ParseExpression(e) == Ok(m)
    ensures ResolveTemplate(lit + "{{" + e + "}}" + rest, ctx) ==
      match ResolveTemplate(rest, ctx)
      case Err(x) => Err(x)
      case Ok(r) => Ok(lit + Evaluate(m, ctx) + r)
  {
    NoPairWithout(lit, '{');
    NoPairWithout(e, '}');
    ResolveMarkerThenRest(lit, e, rest, m, ctx);
  }

  /** `{{<root>.<key>}}` after literal text without `{`: the text is kept and
      the marker is replaced by the value the path reaches. */
  lemma ResolvePath(lit: string, root: string, key: string, rest: string, ctx: VariableContext)
    requires IsIdentifier(root) && IsIdentifier(key) && '{' !in lit
    ensures ResolveTemplate(lit + "{{" + (root + "." + key) + "}}" + rest, ctx) ==
      match ResolveTemplate(rest, ctx)
      case Err(x) => Err(x)
      case Ok(r) => Ok(lit + Evaluate(Marker(root, [key], []), ctx) + r)
  {
    ParseDottedPath(root, key);
    NoPairWithout(lit, '{');
    ResolveMarkerThenRest(lit, root + "." + key, rest, Marker(root, [key], []), ctx);
  }

  /** Arrays are resolved element by element. */
  lemma ResolveItems(items: seq<Value>, outs: seq<Value>, ctx: VariableContext)
    requires |items| == |outs|
    requires forall i :: 0 <= i < |items| ==> ResolveTemplates(items[i], ctx) == Ok(outs[i])
    ensures ResolveTemplates(Arr(items), ctx) == Ok(Arr(outs))
  {
    var rs := seq(|items|, i requires 0 <= i < |items| => ResolveTemplates(items[i], ctx));
    assert Collect(rs).Ok? && Collect(rs).value == outs;
  }

  /** Objects are resolved field by field; the keys and their order stay. */
  lemma ResolveFields(fields: seq<(string, Value)>, outs: seq<Value>, ctx: VariableContext)
    requires |fields| == |outs|
    requires forall i :: 0 <= i < |fields| ==> ResolveTemplates(fields[i].1, ctx) == Ok(outs[i])
    ensures ResolveTemplates(Obj(fields), ctx) ==
      Ok(Obj(seq(|fields|, i requires 0 <= i < |fields| => (fields[i].0, outs[i]))))
  {
    var rs := seq(|fields|, i requires 0 <= i < |fields| => ResolveTemplates(fields[i].1, ctx));
    assert Collect(rs).Ok? && Collect(rs).value == outs;
  }

  /** The first failing element makes the whole array fail. */
  lemma ResolveItemsError(items: seq<Value>, k: nat, ctx: VariableContext)
    requires k < |items| && ResolveTemplates(items[k], ctx).Err?
    ensures ResolveTemplates(Arr(items), ctx).Err?
  {
    var rs := seq(|items|, i requires 0 <= i < |items| => ResolveTemplates(items[i], ctx));
    assert rs[k].Err?;
  }

  /** A one-key path renders the value the key holds, passed through the
      filters. */
  lemma EvaluateKey(root: string, key: string, fs: seq<Filter>, ctx: VariableContext, fields: seq<(string, Value)>, v: Value)
    requires Root(ctx, root) == Some(Obj(fields)) && Field(fields, key) == Some(v)
    ensures Evaluate(Marker(root, [key], fs), ctx) == ApplyFilters(fs, Render(v))
    ensures fs == [] ==> Evaluate(Marker(root, [key], fs), ctx) == Render(v)
  {
    assert [key][0] == key && [key][1..] == [];
    assert LookupPath(Obj(fields), [key]) == LookupPath(v, []);
    assert Lookup(Marker(root, [key], fs), ctx) == Some(v);
  }

  lemma ApplyOneFilter(f: Filter, s: string)
    ensures ApplyFilters([f], s) == (match f case Upper => Text.Upper(s) case UrlEncode => UrlEncoding.UrlEncode(s))
  {
    assert [f][0] == f && [f][1..] == [];
  }

  /** `{{<root>.<key>}}` after literal text without `{`, followed by text
      that resolves to `r`, resolves to the literal text, the rendered value
      of the key and `r`. */
  lemma ResolveKey(lit: string, root: string, key: string, rest: string, r: string,
                   ctx: VariableContext, fields: seq<(string, Value)>, v: Value)
    requires IsIdentifier(root) && IsIdentifier(key) && '{' !in lit
    requires Root(ctx, root) == Some(Obj(fields)) && Field(fields, key) == Some(v)
    requires ResolveTemplate(rest, ctx) == Ok(r)
    ensures ResolveTemplate(lit + "{{" + (root + "." + key) + "}}" + rest, ctx) == Ok(lit + Render(v) + r)
  {
    EvaluateKey(root, key, [], ctx, fields, v);
    ResolvePath(lit, root, key, rest, ctx);
  }

  /** A template written as literal text and `{{<root>.<key>}}` markers. */
  datatype Piece = Text(text: string) | Key(root: string, key: string)

  function Compose(ps: seq<Piece>): string {
    if ps == [] then ""
    else
      var head := match ps[0]
        case Text(t) => t
        case Key(root, key) => "{{" + (root + "." + key) + "}}";
      head + Compose(ps[1..])
  }

  /** What the pieces should resolve to: the text as it is, each marker
      replaced by its value. */
  function Expected(ps: seq<Piece>, ctx: VariableContext): string {
    if ps == [] then ""
    else
      var head := match ps[0]
        case Text(t) => t
        case Key(root, key) => Evaluate(Marker(root, [key], []), ctx);
      head + Expected(ps[1..], ctx)
  }

  predicate WellFormedPiece(p: Piece) {
    match p
    case Text(t) => '{' !in t
    case Key(root, key) => IsIdentifier(root) && IsIdentifier(key)
  }

  lemma ComposeText(lit: string, t: string, ps: seq<Piece>, ctx: VariableContext)
    requires ps != [] && ps[0] == Text(t)
    ensures lit + Compose(ps) == (lit + t) + Compose(ps[1..])
    ensures lit + Expected(ps, ctx) == (lit + t) + Expected(ps[1..], ctx)
  {
  }

  lemma ComposeKeyShape(lit: string, root: string, key: string, ps: seq<Piece>, ctx: VariableContext)
    requires ps != [] && ps[0] == Key(root, key)
    ensures lit + Compose(ps) == lit + "{{" + (root + "." + key) + "}}" + Compose(ps[1..])
    ensures lit + Expected(ps, ctx) == lit + Evaluate(Marker(root, [key], []), ctx) + Expected(ps[1..], ctx)
  {
  }

  /** `{{<root>.<key>}}` after literal text without `{`, followed by text
      that resolves to `r`: the marker is replaced by its value. */
  lemma ResolvePathThen(lit: string, root: string, key: string, rest: string, r: string, ctx: VariableContext)
    requires IsIdentifier(root) && IsIdentifier(key) && '{' !in lit
    requires ResolveTemplate(rest, ctx) == Ok(r)
    ensures ResolveTemplate(lit + "{{" + (root + "." + key) + "}}" + rest, ctx)
      == Ok(lit + Evaluate(Marker(root, [key], []), ctx) + r)
  {
    ResolvePath(lit, root, key, rest, ctx);
  }

  /** Any number of markers in one string are each replaced by their
      values, and the text around and between them is kept. */
  lemma {:induction false} ResolveComposed(lit: string, ps: seq<Piece>, ctx: VariableContext)
    requires '{' !in lit
    requires forall i :: 0 <= i < |ps| ==> WellFormedPiece(ps[i])
    ensures ResolveTemplate(lit + Compose(ps), ctx) == Ok(lit + Expected(ps, ctx))
    decreases |ps|
  {
    if ps == [] {
      assert lit + "" == lit;
      NoCharNoPair(lit, '{');
      NoMarkerUnchanged(lit, ctx);
    } else {
      assert WellFormedPiece(ps[0]);
      match ps[0]
      case Text(t) =>
        assert '{' !in lit + t;
        ResolveComposed(lit + t, ps[1..], ctx);
        ComposeText(lit, t, ps, ctx);
      case Key(root, key) =>
        ResolveComposed("", ps[1..], ctx);
        assert "" + Compose(ps[1..]) == Compose(ps[1..]);
        assert "" + Expected(ps[1..], ctx) == Expected(ps[1..], ctx);
        ComposeKeyShape(lit, root, key, ps, ctx);
        ResolvePathThen(lit, root, key, Compose(ps[1..]), Expected(ps[1..], ctx), ctx);
    }
  }

  /** A template with one `{{<root>.<key>}}` marker between two literal
      texts without `{` resolves to the texts around the key's value. */
  lemma ResolveOneKey(t: string, lit: string, root: string, key: string, tail: string,
                      ctx: VariableContext, fields: seq<(string, Value)>, v: Value)
    requires IsIdentifier(root) && IsIdentifier(key) && '{' !in lit && '{' !in tail
    requires t == lit + "{{" + (root + "." + key) + "}}" + tail
    requires Root(ctx, root) == Some(Obj(fields)) && Field(fields, key) == Some(v)
    ensures ResolveTemplate(t, ctx) == Ok(lit + Render(v) + tail)
  {
    NoCharNoPair(tail, '{');
    NoMarkerUnchanged(tail, ctx);
    ResolveKey(lit, root, key, tail, tail, ctx, fields, v);
  }

  /** The same for any expression the parser accepts. */
  lemma ResolveOneExpression(t: string, lit: string, e: string, tail: string, m: Marker, ctx: VariableContext)
    requires '{' !in lit && '}' !in e && '{' !in tail && ParseExpression(e) == Ok(m)
    requires t == lit + "{{" + e + "}}" + tail
    ensures ResolveTemplate(t, ctx) == Ok(lit + Evaluate(m, ctx) + tail)
  {
    NoCharNoPair(tail, '{');
    NoMarkerUnchanged(tail, ctx);
    ResolveExpression(lit, e, tail, m, ctx);
  }

  // The cases of templating.test.ts, one lemma each; the `...Text` lemmas
  // cut each template into its literal text and its markers.

  lemma InputVariableText(t: string)
    requires t == "Hello {{inputs.username}}!"
    ensures t == "Hello " + "{{" + ("inputs" + "." + "username") + "}}" + "!"
    ensures "Hello " + "john" + "!" == "Hello john!"
    ensures IsIdentifier("inputs") && IsIdentifier("username") && '{' !in "Hello " && '{' !in "!"
  {
  }

  lemma ExampleInputVariable(t: string, ctx: VariableContext)
    requires t == "Hello {{inputs.username}}!"
    requires ctx == VariableContext([("username", Str("john")), ("age", Num(30))], [], None)
    ensures ResolveTemplate(t, ctx) == Ok("Hello john!")
  {
    InputVariableText(t);
    ResolveOneKey(t, "Hello ", "inputs", "username", "!", ctx, ctx.inputs, Str("john"));
  }

  lemma VarsVariableText(t: string)
    requires t == "Count: {{vars.counter}}"
    ensures t == "Count: " + "{{" + ("vars" + "." + "counter") + "}}" + ""
    ensures "Count: " + "42" + "" == "Count: 42"
    ensures IsIdentifier("vars") && IsIdentifier("counter") && '{' !in "Count: "
    ensures NatToString(42) == "42"
  {
  }

  lemma ExampleVarsVariable(t: string, ctx: VariableContext)
    requires t == "Count: {{vars.counter}}"
    requires ctx == VariableContext([], [("counter", Num(42)), ("message", Str("success"))], None)
    ensures ResolveTemplate(t, ctx) == Ok("Count: 42")
  {
    VarsVariableText(t);
    ResolveOneKey(t, "Count: ", "vars", "counter", "", ctx, ctx.vars, Num(42));
  }

  /** A template made of pieces resolves to the pieces' expected text. */
  lemma ResolvePieces(t: string, ps: seq<Piece>, ctx: VariableContext)
    requires t == Compose(ps)
    requires forall i :: 0 <= i < |ps| ==> WellFormedPiece(ps[i])
    ensures ResolveTemplate(t, ctx) == Ok(Expected(ps, ctx))
  {
    assert "" + t == t && "" + Expected(ps, ctx) == Expected(ps, ctx);
    ResolveComposed("", ps, ctx);
  }

  lemma TwoMarkersValues(ctx: VariableContext)
    requires ctx == VariableContext([("first", Str("John")), ("last", Str("Doe"))], [], None)
    ensures Evaluate(Marker("inputs", ["first"], []), ctx) == "John"
    ensures Evaluate(Marker("inputs", ["last"], []), ctx) == "Doe"
  {
    EvaluateKey("inputs", "first", [], ctx, ctx.inputs, Str("John"));
    EvaluateKey("inputs", "last", [], ctx, ctx.inputs, Str("Doe"));
  }

  lemma TwoMarkersExpected(ps: seq<Piece>, ctx: VariableContext)
    requires ps == [Text("Name: "), Key("inputs", "first"), Text(" "), Key("inputs", "last")]
    requires Evaluate(Marker("inputs", ["first"], []), ctx) == "John"
    requires Evaluate(Marker("inputs", ["last"], []), ctx) == "Doe"
    ensures Expected(ps, ctx) == "Name: John Doe"
  {
    assert ps[1..] == [Key("inputs", "first"), Text(" "), Key("inputs", "last")];
    assert ps[2..] == [Text(" "), Key("inputs", "last")];
    assert ps[3..] == [Key("inputs", "last")] && ps[4..] == [];
    assert Expected(ps[3..], ctx) == "Doe" + "";
    assert Expected(ps[2..], ctx) == " " + ("Doe" + "");
    assert Expected(ps[1..], ctx) == "John" + (" " + ("Doe" + ""));
    assert Expected(ps, ctx) == "Name: " + ("John" + (" " + ("Doe" + "")));
  }

  lemma TwoMarkersPieces(ps: seq<Piece>)
    requires ps == [Text("Name: "), Key("inputs", "first"), Text(" "), Key("inputs", "last")]
    ensures forall i :: 0 <= i < |ps| ==> WellFormedPiece(ps[i])
  {
    assert IsIdentifier("inputs") && IsIdentifier("first") && IsIdentifier("last");
  }

  /** `Name: {{inputs.first}} {{inputs.last}}`, written as its pieces. */
  lemma ExampleTwoMarkers(ps: seq<Piece>, ctx: VariableContext)
    requires ps == [Text("Name: "), Key("inputs", "first"), Text(" "), Key("inputs", "last")]
    requires ctx == VariableContext([("first", Str("John")), ("last", Str("Doe"))], [], None)
    ensures ResolveTemplate(Compose(ps), ctx) == Ok("Name: John Doe")
  {
    TwoMarkersPieces(ps);
    TwoMarkersValues(ctx);
    TwoMarkersExpected(ps, ctx);
    ResolvePieces(Compose(ps), ps, ctx);
  }

  lemma SecretText(t: string)
    requires t == "Key: {{secret.API_KEY}}"
    ensures t == "Key: " + "{{" + ("secret" + "." + "API_KEY") + "}}" + ""
    ensures "Key: " + "secret123" + "" == "Key: secret123"
    ensures IsIdentifier("secret") && IsIdentifier("API_KEY") && '{' !in "Key: "
  {
  }

  lemma ExampleSecret(t: string, ctx: VariableContext)
    requires t == "Key: {{secret.API_KEY}}"
    requires ctx == VariableContext([], [], Some([("API_KEY", Str("secret123"))]))
    ensures ResolveTemplate(t, ctx) == Ok("Key: secret123")
  {
    SecretText(t);
    ResolveOneKey(t, "Key: ", "secret", "API_KEY", "", ctx, ctx.secrets.value, Str("secret123"));
  }

  lemma MissingVariableText(t: string)
    requires t == "Hello {{inputs.missing}}!"
    ensures t == "Hello " + "{{" + ("inputs" + "." + "missing") + "}}" + "!"
    ensures "Hello " + "!" == "Hello !"
    ensures IsIdentifier("inputs") && IsIdentifier("missing") && '{' !in "Hello " && '{' !in "!"
  {
  }

  /** A template with one `{{<root>.<key>}}` marker that reaches nothing
      resolves to the texts around it. */
  lemma ResolveOneMissing(t: string, lit: string, root: string, key: string, tail: string, ctx: VariableContext)
    requires IsIdentifier(root) && IsIdentifier(key) && '{' !in lit && '{' !in tail
    requires t == lit + "{{" + (root + "." + key) + "}}" + tail
    requires Lookup(Marker(root, [key], []), ctx).None?
    ensures ResolveTemplate(t, ctx) == Ok(lit + tail)
  {
    var m := Marker(root, [key], []);
    DottedPathParses(root, key);
    ResolveOneExpression(t, lit, root + "." + key, tail, m, ctx);
    MissingPathIsEmpty(m, ctx);
    EmptyInfix(lit, Evaluate(m, ctx), tail);
  }

  lemma ExampleMissingVariable(t: string, ctx: VariableContext)
    requires t == "Hello {{inputs.missing}}!"
    requires ctx == VariableContext([], [], None)
    ensures ResolveTemplate(t, ctx) == Ok("Hello !")
  {
    MissingVariableText(t);
    MissingSources("missing", ctx);
    ResolveOneMissing(t, "Hello ", "inputs", "missing", "!", ctx);
  }

  lemma ExampleNoTemplate(t: string, ctx: VariableContext)
    requires t == "Just a regular string" && ctx == VariableContext([], [], None)
    ensures ResolveTemplate(t, ctx) == Ok("Just a regular string")
  {
    assert '{' !in t;
    NoCharNoPair(t, '{');
    NoMarkerUnchanged(t, ctx);
  }

  lemma ExampleEmptyTemplate()
    ensures ResolveTemplate("", VariableContext([], [], None)) == Ok("")
  {
    NoMarkerUnchanged("", VariableContext([], [], None));
  }

  lemma ExamplePrimitives()
    ensures ResolveTemplates(Num(42), VariableContext([("count", Num(10))], [], None)) == Ok(Num(42))
    ensures ResolveTemplates(Bool(true), VariableContext([], [], None)) == Ok(Bool(true))
    ensures ResolveTemplates(Null, VariableContext([], [], None)) == Ok(Null)
  {
  }

  /** `hello world` under `urlencode` is `hello%20world`. */
  lemma UrlencodeHelloWorld()
    ensures UrlEncoding.UrlEncode("hello world") == "hello%20world"
  {
    assert "hello world" == "hello" + " " + "world";
    assert "hello" + "%20" + "world" == "hello%20world";
    UrlEncoding.UnreservedKept("hello");
    UrlEncoding.UnreservedKept("world");
    UrlEncoding.SpaceEncoding();
    UrlEncoding.UrlEncodeAppend("hello" + " ", "world");
    UrlEncoding.UrlEncodeAppend("hello", " ");
    assert UrlEncoding.UrlEncode(" ") == "%20";
  }

  /** A filter name, with spaces around it, names its filter. */
  lemma ParseOneFilter(part: string, f: Filter)
    requires (Trim(part) == "upper" && f == Upper) || (Trim(part) == "urlencode" && f == UrlEncode)
    ensures ParseFilters([part]) == Ok([f])
  {
    assert [part][0] == part && [part][1..] == [];
    assert ParseFilters([]) == Ok([]);
    assert [f] + [] == [f];
  }

  lemma FilterPartParses(name: string, f: Filter)
    requires (name == "upper" && f == Upper) || (name == "urlencode" && f == UrlEncode)
    ensures ParseFilters([" " + name]) == Ok([f])
  {
    assert IsTrimmed(name);
    TrimLeadingSpace(name);
    ParseOneFilter(" " + name, f);
  }

  /** `<root>.<key> | <filter>`, with the spaces the tests write, is read as
      the path `key` under `root` with that one filter. */
  lemma ParseFilteredPath(root: string, key: string, name: string, f: Filter)
    requires IsIdentifier(root) && IsIdentifier(key)
    requires (name == "upper" && f == Upper) || (name == "urlencode" && f == UrlEncode)
    ensures ParseExpression(root + "." + key + " | " + name) == Ok(Marker(root, [key], [f]))
    ensures '}' !in root + "." + key + " | " + name
  {
    var path := root + "." + key;
    var pathPart := path + " ";
    var filterPart := " " + name;
    var e := root + "." + key + " | " + name;
    assert e == pathPart + ['|'] + filterPart;
    FilteredPathChars(root, key, name);
    SplitOnFirst(pathPart, '|', filterPart);
    SplitOnAbsent(filterPart, '|');
    var parts := [pathPart, filterPart];
    assert SplitOn(e, '|') == parts;
    DottedPathPieces(root, key);
    TrimTrailingSpace(path);
    BothIdentifiers(root, key);
    FilterPartParses(name, f);
    assert parts[0] == pathPart && parts[1..] == [filterPart];
    assert [root, key][1..] == [key];
    ParseExpressionShape(e, parts, [root, key], [f]);
  }

  lemma FilteredPathChars(root: string, key: string, name: string)
    requires IsIdentifier(root) && IsIdentifier(key)
    requires name == "upper" || name == "urlencode"
    ensures '|' !in root + "." + key + " " && '|' !in " " + name
    ensures '}' !in root + "." + key + " | " + name
  {
    IdentifierHasNo(root, '|');
    IdentifierHasNo(key, '|');
    IdentifierHasNo(root, '}');
    IdentifierHasNo(key, '}');
    assert root + "." + key + " " == root + ['.'] + key + [' '];
    assert root + "." + key + " | " + name == root + ['.'] + key + [' ', '|', ' '] + name;
  }

  /** A filter applied to a one-key path acts on the string the key holds. */
  lemma EvaluateFiltered(root: string, key: string, f: Filter, ctx: VariableContext,
                         fields: seq<(string, Value)>, s: string)
    requires Root(ctx, root) == Some(Obj(fields)) && Field(fields, key) == Some(Str(s))
    ensures Evaluate(Marker(root, [key], [f]), ctx)
      == (match f case Upper => Text.Upper(s) case UrlEncode => UrlEncoding.UrlEncode(s))
  {
    EvaluateKey(root, key, [f], ctx, fields, Str(s));
    ApplyOneFilter(f, s);
  }

  lemma UrlencodedQuery(ctx: VariableContext)
    requires ctx == VariableContext([("query", Str("hello world"))], [], None)
    ensures Evaluate(Marker("inputs", ["query"], [UrlEncode]), ctx) == "hello%20world"
  {
    UrlencodeHelloWorld();
    EvaluateFiltered("inputs", "query", UrlEncode, ctx, ctx.inputs, "hello world");
  }

  lemma UrlencodeFilterText(t: string)
    requires t == "?q={{inputs.query | urlencode}}"
    ensures t == "?q=" + "{{" + ("inputs" + "." + "query" + " | " + "urlencode") + "}}" + ""
  {
    UrlencodeExpressionText();
  }

  lemma UrlencodeExpressionText()
    ensures "inputs.query | urlencode" == "inputs" + "." + "query" + " | " + "urlencode"
  {
  }

  lemma UrlencodeFilterFacts()
    ensures "?q=" + "hello%20world" + "" == "?q=hello%20world"
    ensures IsIdentifier("inputs") && IsIdentifier("query") && '{' !in "?q="
  {
  }

  lemma ExampleUrlencodeFilter(t: string, ctx: VariableContext)
    requires t == "?q={{inputs.query | urlencode}}"
    requires ctx == VariableContext([("query", Str("hello world"))], [], None)
    ensures ResolveTemplate(t, ctx) == Ok("?q=hello%20world")
  {
    UrlencodeFilterText(t);
    UrlencodeFilterFacts();
    UrlencodedQuery(ctx);
    ParseFilteredPath("inputs", "query", "urlencode", UrlEncode);
    ResolveOneExpression(t, "?q=", "inputs" + "." + "query" + " | " + "urlencode", "",
      Marker("inputs", ["query"], [UrlEncode]), ctx);
  }

  lemma UpperHello(ctx: VariableContext)
    requires ctx == VariableContext([("text", Str("hello"))], [], None)
    ensures Evaluate(Marker("inputs", ["text"], [Upper]), ctx) == "HELLO"
  {
    assert Text.Upper("hello") == "HELLO";
    EvaluateFiltered("inputs", "text", Upper, ctx, ctx.inputs, "hello");
  }

  lemma UpperFilterText(t: string)
    requires t == "{{inputs.text | upper}}"
    ensures t == "" + "{{" + ("inputs" + "." + "text" + " | " + "upper") + "}}" + ""
    ensures "" + "HELLO" + "" == "HELLO"
    ensures IsIdentifier("inputs") && IsIdentifier("text") && '{' !in ""
  {
  }

  lemma ExampleUpperFilter(t: string, ctx: VariableContext)
    requires t == "{{inputs.text | upper}}"
    requires ctx == VariableContext([("text", Str("hello"))], [], None)
    ensures ResolveTemplate(t, ctx) == Ok("HELLO")
  {
    UpperFilterText(t);
    UpperHello(ctx);
    ParseFilteredPath("inputs", "text", "upper", Upper);
    ResolveOneExpression(t, "", "inputs" + "." + "text" + " | " + "upper", "",
      Marker("inputs", ["text"], [Upper]), ctx);
  }

  lemma NestedPathChars(root: string, a: string, b: string)
    requires IsIdentifier(root) && IsIdentifier(a) && IsIdentifier(b)
    ensures '|' !in root + "." + a + "." + b && '}' !in root + "." + a + "." + b
    ensures Trim(root + "." + a + "." + b) == root + "." + a + "." + b
  {
    var e := root + "." + a + "." + b;
    assert e == root + ['.'] + a + ['.'] + b;
    IdentifierHasNo(root, '|');
    IdentifierHasNo(a, '|');
    IdentifierHasNo(b, '|');
    IdentifierHasNo(root, '}');
    IdentifierHasNo(a, '}');
    IdentifierHasNo(b, '}');
    AbsentFromPath(root, a, b, '|');
    AbsentFromPath(root, a, b, '}');
    assert e[0] == root[0] && e[|e| - 1] == b[|b| - 1];
    TrimOfTrimmed(e);
  }

  lemma AbsentFromPath(root: string, a: string, b: string, c: char)
    requires c !in root && c !in a && c !in b && c != '.'
    ensures c !in root + "." + a + "." + b
  {
  }

  lemma NestedPathSplits(root: string, a: string, b: string)
    requires IsIdentifier(root) && IsIdentifier(a) && IsIdentifier(b)
    ensures SplitOn(root + "." + a + "." + b, '.') == [root, a, b]
  {
    var tail := a + "." + b;
    assert root + "." + a + "." + b == root + ['.'] + tail;
    assert tail == a + ['.'] + b;
    IdentifierHasNo(root, '.');
    IdentifierHasNo(a, '.');
    IdentifierHasNo(b, '.');
    SplitOnFirst(root, '.', tail);
    SplitOnFirst(a, '.', b);
    SplitOnAbsent(b, '.');
  }

  /** `root.a.b` is read as the path `a`, `b` under source `root`. */
  lemma NestedPathParses(root: string, a: string, b: string)
    requires IsIdentifier(root) && IsIdentifier(a) && IsIdentifier(b)
    ensures ParseExpression(root + "." + a + "." + b) == Ok(Marker(root, [a, b], []))
    ensures '}' !in root + "." + a + "." + b
  {
    var e := root + "." + a + "." + b;
    NestedPathChars(root, a, b);
    NestedPathSplits(root, a, b);
    SplitOnAbsent(e, '|');
    var names := [root, a, b];
    forall k | 0 <= k < 3 ensures IsIdentifier(names[k]) {
      if k == 0 {} else if k == 1 {} else {}
    }
    assert [e][0] == e && [e][1..] == [];
    assert names[1..] == [a, b];
    ParseExpressionShape(e, [e], names, []);
  }

  /** `{{<root>.<a>.<b>}}` after literal text without `{`, followed by text
      that resolves to `r`: the marker is replaced by the nested value. */
  lemma ResolveNestedPath(lit: string, root: string, a: string, b: string, rest: string, r: string,
                          ctx: VariableContext, v: Value)
    requires IsIdentifier(root) && IsIdentifier(a) && IsIdentifier(b) && '{' !in lit
    requires Lookup(Marker(root, [a, b], []), ctx) == Some(v)
    requires ResolveTemplate(rest, ctx) == Ok(r)
    ensures ResolveTemplate(lit + "{{" + (root + "." + a + "." + b) + "}}" + rest, ctx) == Ok(lit + Render(v) + r)
  {
    NestedPathParses(root, a, b);
    ResolveExpression(lit, root + "." + a + "." + b, rest, Marker(root, [a, b], []), ctx);
  }

  lemma NestedValue(ctx: VariableContext)
    requires ctx == VariableContext([], [("user", Obj([("name", Str("John")), ("age", Num(30))]))], None)
    ensures Lookup(Marker("vars", ["user", "name"], []), ctx) == Some(Str("John"))
  {
    assert Field(ctx.vars, "user") == Some(Obj([("name", Str("John")), ("age", Num(30))]));
    assert ["user", "name"][1..] == ["name"];
  }

  lemma NestedText(t: string)
    requires t == "Name: {{vars.user.name}}"
    ensures t == "Name: " + "{{" + ("vars" + "." + "user" + "." + "name") + "}}" + ""
    ensures "Name: " + "John" + "" == "Name: John"
    ensures '{' !in "Name: "
    ensures IsIdentifier("vars") && IsIdentifier("user") && IsIdentifier("name")
  {
  }

  lemma ExampleNestedPath(t: string, ctx: VariableContext)
    requires t == "Name: {{vars.user.name}}"
    requires ctx == VariableContext([], [("user", Obj([("name", Str("John")), ("age", Num(30))]))], None)
    ensures ResolveTemplate(t, ctx) == Ok("Name: John")
  {
    NestedText(t);
    NestedValue(ctx);
    NoMarkerUnchanged("", ctx);
    ResolveNestedPath("Name: ", "vars", "user", "name", "", "", ctx, Str("John"));
  }

  lemma CombinedValues(ctx: VariableContext)
    requires ctx == VariableContext([("prefix", Str("Mr."))], [("name", Str("Smith"))], Some([("suffix", Str("Jr."))]))
    ensures Evaluate(Marker("inputs", ["prefix"], []), ctx) == "Mr."
    ensures Evaluate(Marker("vars", ["name"], []), ctx) == "Smith"
    ensures Evaluate(Marker("secret", ["suffix"], []), ctx) == "Jr."
  {
    EvaluateKey("inputs", "prefix", [], ctx, ctx.inputs, Str("Mr."));
    EvaluateKey("vars", "name", [], ctx, ctx.vars, Str("Smith"));
    EvaluateKey("secret", "suffix", [], ctx, ctx.secrets.value, Str("Jr."));
  }

  lemma CombinedExpected(ps: seq<Piece>, ctx: VariableContext)
    requires ps == [Key("inputs", "prefix"), Text(" "), Key("vars", "name"), Text(" "), Key("secret", "suffix")]
    requires Evaluate(Marker("inputs", ["prefix"], []), ctx) == "Mr."
    requires Evaluate(Marker("vars", ["name"], []), ctx) == "Smith"
    requires Evaluate(Marker("secret", ["suffix"], []), ctx) == "Jr."
    ensures Expected(ps, ctx) == "Mr. Smith Jr."
  {
    assert ps[1..] == [Text(" "), Key("vars", "name"), Text(" "), Key("secret", "suffix")];
    assert ps[2..] == [Key("vars", "name"), Text(" "), Key("secret", "suffix")];
    assert ps[3..] == [Text(" "), Key("secret", "suffix")];
    assert ps[4..] == [Key("secret", "suffix")] && ps[5..] == [];
    assert Expected(ps[4..], ctx) == "Jr." + "";
    assert Expected(ps[3..], ctx) == " " + ("Jr." + "");
    assert Expected(ps[2..], ctx) == "Smith" + (" " + ("Jr." + ""));
    assert Expected(ps[1..], ctx) == " " + ("Smith" + (" " + ("Jr." + "")));
    assert Expected(ps, ctx) == "Mr." + (" " + ("Smith" + (" " + ("Jr." + ""))));
  }

  /** `{{inputs.prefix}} {{vars.name}} {{secret.suffix}}`, written as its
      pieces: each source is read from its own place. */
  lemma ExampleCombinedSources(ps: seq<Piece>, ctx: VariableContext)
    requires ps == [Key("inputs", "prefix"), Text(" "), Key("vars", "name"), Text(" "), Key("secret", "suffix")]
    requires ctx == VariableContext([("prefix", Str("Mr."))], [("name", Str("Smith"))], Some([("suffix", Str("Jr."))]))
    ensures ResolveTemplate(Compose(ps), ctx) == Ok("Mr. Smith Jr.")
  {
    assert IsIdentifier("inputs") && IsIdentifier("vars") && IsIdentifier("secret");
    assert IsIdentifier("prefix") && IsIdentifier("name") && IsIdentifier("suffix");
    assert forall i :: 0 <= i < |ps| ==> WellFormedPiece(ps[i]);
    CombinedValues(ctx);
    CombinedExpected(ps, ctx);
    ResolvePieces(Compose(ps), ps, ctx);
  }

  /** A string that is exactly `{{<root>.<key>}}` resolves to the rendered
      value of that key. */
  lemma ResolveWholeMarker(root: string, key: string, ctx: VariableContext, fields: seq<(string, Value)>, v: Value)
    requires IsIdentifier(root) && IsIdentifier(key)
    requires Root(ctx, root) == Some(Obj(fields)) && Field(fields, key) == Some(v)
    ensures ResolveTemplates(Str("{{" + (root + "." + key) + "}}"), ctx) == Ok(Str(Render(v)))
  {
    var s := "{{" + (root + "." + key) + "}}";
    assert s == "" + "{{" + (root + "." + key) + "}}" + "";
    assert "" + Render(v) + "" == Render(v);
    NoMarkerUnchanged("", ctx);
    ResolveKey("", root, key, "", "", ctx, fields, v);
  }
}
