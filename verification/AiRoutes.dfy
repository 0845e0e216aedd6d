/** Model routes of the security agents: printing, parsing, canonical form and identity. */
module AiRoutes {
  import opened Prelude
  import opened Values

  datatype Role = SocAnalyst | IncidentResponder | SiemEngineer | CyberThreatIntel | ThreatHunter

  const ROLES: seq<Role> := [SocAnalyst, IncidentResponder, SiemEngineer, CyberThreatIntel, ThreatHunter]

  /** The members read from settings and requests; every other member is Other. */
  datatype Key =
    | Mode | OllamaModel | EnabledOllamaModels | OllamaUrl | CloudProvider | CloudModel | CloudCommand
    | CodexCliPath | CodexCliModel | CodexCliReasoningEffort | CodexCliModels | GptCliEnabled
    | HermesAgentEnabled | HermesAgentPath | HermesAgentModel | HermesAgentReasoningEffort
    | OpenclawEnabled | OpenclawPath | OpenclawModel | OpenclawReasoningEffort
    | AnalysisMinSeverity | PcapMinSeverity | CaptureLossThreshold | IncidentMinSeverity
    | AgentModels | AgentSecondOpinionModels | AgentAdjudicatorModels
    | GeoipAsnPath | GeoipCityPath | GeoipCountryPath | GeoipDbPath
    | Model | ReasoningEffort | Enabled | RoleMember(role: Role)
    | RoleField | ModelRoute | SecondOpinionModelRoute | SecondOpinionModel | AdjudicatorModelRoute | AdjudicatorModel
    | Other(name: string)

  type Value = Json<Key>
  type Fields = map<Key, Value>

  predicate FourDecimals(r: real) { (r * 10000.0).Floor as real == r * 10000.0 }

  /** How Python prints values, reads numbers and paths, and lower-cases outside ASCII; and the two
      environment defaults. */
  datatype Env = Env(
    render: Value -> string,
    lowerOther: char -> string,
    parseFloat: string -> Option<real>,
    pathName: string -> string,
    mmdbSuffix: string -> bool,
    defaultModel: string,
    defaultUrl: string)
  {
    /** A number of at most four decimals prints as plain text that reads back as the number. */
    ghost predicate Lawful() {
      forall r: real :: r != 0.0 && FourDecimals(r) ==>
        parseFloat(render(Float(r))) == Some(r) && render(Float(r)) != "" && Tight(render(Float(r)))
    }

    function LowerCase(s: string): string { Lower(lowerOther, s) }

    function TextOf(v: Value): string { TextOr(render, v) }
  }

  const EFFORTS := {"low", "medium", "high", "xhigh"}

  const CATALOG: seq<string> := ["gpt-5.5", "gpt-5.6-sol", "gpt-5.6-terra", "gpt-5.6-luna"]

  // ----- text -----

  /** `s.startswith(prefix)` */
  predicate StartsWith(s: string, prefix: string) { prefix <= s }

  /** `s.rsplit(":", 1)` when it gives two parts. */
  function RSplit(s: string): (r: Option<(string, string)>)
    ensures r.Some? ==> s == r.value.0 + ":" + r.value.1 && ':' !in r.value.1
    ensures r.None? <==> ':' !in s
  {
    if s == "" then None
    else
      var n := |s| - 1;
      assert s == s[..n] + [s[n]];
      if s[n] == ':' then Some((s[..n], ""))
      else match RSplit(s[..n])
        case None => None
        case Some(parts) =>
          assert parts.0 + ":" + parts.1 + [s[n]] == parts.0 + ":" + (parts.1 + [s[n]]);
          Some((parts.0, parts.1 + [s[n]]))
  }

  lemma {:induction false} RSplitJoined(a: string, b: string)
    requires ':' !in b
    ensures RSplit(a + ":" + b) == Some((a, b))
  {
    var s := a + ":" + b;
    if b == "" {
      assert s[..|s| - 1] == a;
    } else {
      var front := b[..|b| - 1];
      assert b == front + [b[|b| - 1]];
      assert s[..|s| - 1] == a + ":" + front;
      RSplitJoined(a, front);
    }
  }

  /** `s.split("/", 1)`: the text before the first slash and the text after it. */
  function SplitSlash(s: string): (r: (string, string))
    requires '/' in s
    ensures s == r.0 + "/" + r.1 && '/' !in r.0
  {
    if s[0] == '/' then ("", s[1..])
    else
      var (a, b) := SplitSlash(s[1..]);
      assert s == [s[0]] + (a + "/" + b);
      ([s[0]] + a, b)
  }

  lemma {:induction false} SplitSlashJoined(a: string, b: string)
    requires '/' !in a
    ensures '/' in a + "/" + b && SplitSlash(a + "/" + b) == (a, b)
  {
    var s := a + "/" + b;
    assert s[|a|] == '/';
    if a == "" {
      assert s[1..] == b;
    } else {
      assert a == [a[0]] + a[1..];
      assert s[1..] == a[1..] + "/" + b;
      SplitSlashJoined(a[1..], b);
    }
  }

  // ----- routes -----

  datatype Harness = CodexCli | HermesAgent | OpenClaw

  datatype Route = OllamaRoute(model: string) | CliRoute(harness: Harness, model: string, effort: string)

  function Prefix(h: Harness): string {
    match h case CodexCli => "codex-cli:" case HermesAgent => "hermes-agent:" case OpenClaw => "openclaw:"
  }

  function Print(r: Route): string {
    match r
    case OllamaRoute(model) => "ollama:" + model
    case CliRoute(harness, model, effort) => Prefix(harness) + (model + ":" + effort)
  }

  /** The harness whose prefix the text carries. */
  function HarnessOf(s: string): (r: Option<Harness>)
    ensures r.Some? ==> StartsWith(s, Prefix(r.value))
    ensures r.None? ==> forall h :: !StartsWith(s, Prefix(h))
  {
    if StartsWith(s, Prefix(CodexCli)) then Some(CodexCli)
    else if StartsWith(s, Prefix(HermesAgent)) then Some(HermesAgent)
    else if StartsWith(s, Prefix(OpenClaw)) then Some(OpenClaw)
    else None
  }

  lemma PrefixDecides(h: Harness, rest: string)
    ensures HarnessOf(Prefix(h) + rest) == Some(h)
    ensures (Prefix(h) + rest)[|Prefix(h)|..] == rest
  {
    var s := Prefix(h) + rest;
    assert s[0] == Prefix(h)[0];
    assert Prefix(CodexCli)[0] == 'c' && Prefix(HermesAgent)[0] == 'h' && Prefix(OpenClaw)[0] == 'o';
    assert Prefix(h) <= s;
  }

  /** The parts of a harness route with a model and a known effort. */
  function ParseCli(s: string): Option<Route> {
    match HarnessOf(s)
    case None => None
    case Some(h) =>
      match RSplit(s[|Prefix(h)|..]) {
        case None => None
        case Some((model, effort)) =>
          if model != "" && effort in EFFORTS then Some(CliRoute(h, model, effort)) else None
      }
  }

  predicate Printable(r: Route) {
    r.CliRoute? ==> r.model != "" && r.effort in EFFORTS
  }

  lemma EffortsHaveNoColon(effort: string)
    requires effort in EFFORTS
    ensures ':' !in effort && IsLowerText(effort) && effort != "" && !IsSpace(effort[|effort| - 1]) && |effort| <= 6
  {
  }

  /** Printing a harness route and parsing it again are inverse. */
  lemma ParsePrint(r: Route)
    requires r.CliRoute? && Printable(r)
    ensures ParseCli(Print(r)) == Some(r)
  {
    hide HarnessOf, Prefix, RSplit;
    EffortsHaveNoColon(r.effort);
    PrefixDecides(r.harness, r.model + ":" + r.effort);
    RSplitJoined(r.model, r.effort);
  }

  lemma PrintParse(s: string)
    requires ParseCli(s).Some?
    ensures Print(ParseCli(s).value) == s && Printable(ParseCli(s).value)
  {
    hide Prefix;
    var h := HarnessOf(s).value;
    assert s == Prefix(h) + s[|Prefix(h)|..];
  }

  // ----- identity -----

  /** A harness prefix followed by text without a colon: the source indexes past its one part. */
  predicate Malformed(s: string) {
    HarnessOf(s).Some? && s[|Prefix(HarnessOf(s).value)|..] != "" && ':' !in s[|Prefix(HarnessOf(s).value)|..]
  }

  function CliIdentity(r: Route): string
    requires r.CliRoute?
  {
    match r.harness
    case OpenClaw =>
      if '/' in r.model then var (provider, name) := SplitSlash(r.model); provider + (":" + name)
      else "openclaw:" + r.model
    case _ => "openai-codex:" + r.model
  }

  /** _model_route_identity; None where it raises IndexError. */
  function Identity(env: Env, route: string, codexModel: string): Option<string> {
    var s := env.LowerCase(Strip(route));
    if Malformed(s) then None
    else if s in {"gpt-cli", "codex-cli"} then
      Some("openai-codex:" + env.LowerCase(Strip(if codexModel == "" then "configured-default" else codexModel)))
    else match ParseCli(s)
      case Some(r) => Some(CliIdentity(r))
      case None => Some(s)
  }

  /** `[A-Za-z0-9][A-Za-z0-9._:/+-]{0,239}` with the provider "ollama/" and a name. */
  predicate ValidOpenclawModel(env: Env, s: string) {
    && Matches(s, IsAlphanumeric, IsModelChar, 1, 240)
    && StartsWith(env.LowerCase(s), "ollama/")
    && |s| > 7
  }

  predicate IsAlphanumeric(c: char) { IsLowerLetter(c) || IsUpperLetter(c) || IsDigit(c) }

  predicate IsModelChar(c: char) { IsAlphanumeric(c) || c in "._:/+-" }

  /** Text from which nothing can be stripped at the start. */
  predicate StartsTight(s: string) { s != "" && !IsSpace(s[0]) }

  /** The routes the settings can enable. */
  predicate Enableable(env: Env, r: Route) {
    match r
    case OllamaRoute(model) => StartsTight(model) && |model| <= 240
    case CliRoute(OpenClaw, model, effort) => ValidOpenclawModel(env, model) && effort in EFFORTS
    case CliRoute(_, model, effort) => model in CATALOG && effort in EFFORTS
  }

  /** The model a route runs, whatever harness runs it: a hosted Codex model or a local Ollama model. */
  datatype ProviderModel = Hosted(name: string) | Local(name: string)

  function Runs(env: Env, r: Route): ProviderModel {
    match r
    case OllamaRoute(model) => Local(env.LowerCase(TrimEnd(model)))
    case CliRoute(OpenClaw, model, _) => var s := env.LowerCase(model); Local(if |s| >= 7 then s[7..] else "")
    case CliRoute(_, model, _) => Hosted(model)
  }

  function ProviderName(p: ProviderModel): string {
    match p case Hosted(name) => "openai-codex:" + name case Local(name) => "ollama:" + name
  }

  lemma ProviderNameIsInjective(a: ProviderModel, b: ProviderModel)
    requires ProviderName(a) == ProviderName(b)
    ensures a == b
  {
    assert ProviderName(a)[1] == ProviderName(b)[1];
    assert a.Hosted? <==> ProviderName(a)[1] == 'p';
    assert b.Hosted? <==> ProviderName(b)[1] == 'p';
    assert ProviderName(a)[if a.Hosted? then 13 else 7..] == a.name;
    assert ProviderName(b)[if b.Hosted? then 13 else 7..] == b.name;
  }

  lemma {:induction false} TrimEndAppend(a: string, b: string)
    requires a != "" && !IsSpace(a[|a| - 1])
    ensures TrimEnd(a + b) == a + TrimEnd(b)
  {
    if b == "" {
      assert a + b == a;
    } else {
      var s := a + b;
      assert s[|s| - 1] == b[|b| - 1];
      assert s[..|s| - 1] == a + b[..|b| - 1];
      TrimEndAppend(a, b[..|b| - 1]);
    }
  }

  lemma StripKeepsStart(s: string)
    requires StartsTight(s)
    ensures Strip(s) == TrimEnd(s)
  {
    assert TrimStart(s) == s;
  }

  lemma LowerPrefix(env: Env, prefix: string, s: string)
    requires IsLowerText(prefix)
    ensures env.LowerCase(prefix + s) == prefix + env.LowerCase(s)
  {
    LowerAppend(env.lowerOther, prefix, s);
    LowerFixesLowerText(env.lowerOther, prefix);
  }

  lemma PrefixesAreLowerText(h: Harness)
    ensures IsLowerText(Prefix(h)) && Prefix(h) != "" && !IsSpace(Prefix(h)[0]) && |Prefix(h)| <= 13
    ensures IsLowerText("ollama:") && IsLowerText(":")
  {
  }

  /** Lower-casing and stripping a printed harness route only touches the model. */
  lemma PrintedCliText(env: Env, r: Route)
    requires r.CliRoute? && r.effort in EFFORTS
    ensures env.LowerCase(Strip(Print(r))) == Print(CliRoute(r.harness, env.LowerCase(r.model), r.effort))
  {
    hide Prefix, Strip, Lower;
    PrefixesAreLowerText(r.harness);
    EffortsHaveNoColon(r.effort);
    var s := Print(r);
    assert s[0] == Prefix(r.harness)[0] && s[|s| - 1] == r.effort[|r.effort| - 1];
    assert Strip(s) == s;
    LowerPrefix(env, Prefix(r.harness), r.model + ":" + r.effort);
    assert r.model + ":" + r.effort == r.model + (":" + r.effort);
    LowerAppend(env.lowerOther, r.model, ":" + r.effort);
    LowerFixesLowerText(env.lowerOther, ":" + r.effort);
    assert env.LowerCase(r.model) + ":" + r.effort == env.LowerCase(r.model) + (":" + r.effort);
  }

  lemma CatalogIsLowerText(model: string)
    requires model in CATALOG
    ensures IsLowerText(model) && model != "" && |model| <= 13
  {
  }

  lemma {:induction false} LowerKeepsAscii(env: Env, s: string)
    requires AllAscii(s)
    ensures |env.LowerCase(s)| == |s|
    ensures forall i :: 0 <= i < |s| ==> env.LowerCase(s)[i] == AsciiLower(s[i])
  {
    if s != "" { LowerKeepsAscii(env, s[1..]); }
  }

  lemma OpenclawModelText(env: Env, model: string)
    requires ValidOpenclawModel(env, model)
    ensures var s := env.LowerCase(model);
      |s| == |model| && s == "ollama" + "/" + s[7..]
  {
    assert AllAscii(model) by {
      forall i | 0 <= i < |model| ensures IsAscii(model[i]) {
        assert i == 0 || IsModelChar(model[i]);
      }
    }
    LowerKeepsAscii(env, model);
    var s := env.LowerCase(model);
    assert s[..7] == "ollama/";
    assert s == s[..7] + s[7..];
  }

  lemma ParsedIsNotMalformed(s: string)
    requires ParseCli(s).Some?
    ensures !Malformed(s) && s !in {"gpt-cli", "codex-cli"}
  {
    hide RSplit;
    var rest := s[|Prefix(HarnessOf(s).value)|..];
    assert ':' in rest;
  }

  /** A harness route has the identity of the model it runs, whatever the effort and the harness. */
  lemma CliRouteIdentity(env: Env, r: Route, codexModel: string)
    requires r.CliRoute? && Enableable(env, r)
    ensures Identity(env, Print(r), codexModel) == Some(ProviderName(Runs(env, r)))
  {
    hide Print, ParseCli, Malformed, Strip, Env.LowerCase, SplitSlash, ValidOpenclawModel;
    PrintedCliText(env, r);
    var lowered := CliRoute(r.harness, env.LowerCase(r.model), r.effort);
    if r.harness == OpenClaw {
      OpenclawModelText(env, r.model);
      var s := env.LowerCase(r.model);
      SplitSlashJoined("ollama", s[7..]);
      assert CliIdentity(lowered) == "ollama" + (":" + s[7..]);
      assert "ollama" + (":" + s[7..]) == "ollama:" + s[7..];
    } else {
      CatalogIsLowerText(r.model);
      LowerTextIsLower(env, r.model);
    }
    assert lowered.model != "";
    ParsePrint(lowered);
    ParsedIsNotMalformed(Print(lowered));
  }

  lemma LowerTextIsLower(env: Env, s: string)
    requires IsLowerText(s)
    ensures env.LowerCase(s) == s
  {
    LowerFixesLowerText(env.lowerOther, s);
  }

  lemma OllamaTextIsPlain(rest: string)
    ensures HarnessOf("ollama:" + rest) == None
    ensures "ollama:" + rest !in {"gpt-cli", "codex-cli"}
  {
    var s := "ollama:" + rest;
    assert s[0] == 'o' && s[1] == 'l';
  }

  lemma OllamaRouteIdentity(env: Env, r: Route, codexModel: string)
    requires r.OllamaRoute? && Enableable(env, r)
    ensures Identity(env, Print(r), codexModel) == Some(ProviderName(Runs(env, r)))
  {
    hide HarnessOf, TrimEnd, TrimStart, Env.LowerCase;
    var s := Print(r);
    assert StartsTight(s);
    StripKeepsStart(s);
    TrimEndAppend("ollama:", r.model);
    PrefixesAreLowerText(CodexCli);
    LowerPrefix(env, "ollama:", TrimEnd(r.model));
    OllamaTextIsPlain(env.LowerCase(TrimEnd(r.model)));
  }

  /** Identity tells enabled routes apart exactly by the model they run: never by effort, and not by
      harness either, so Codex and Hermes, and OpenClaw and Ollama, share it. */
  lemma IdentityIsWhatRuns(env: Env, a: Route, b: Route, codexModel: string)
    requires Enableable(env, a) && Enableable(env, b)
    ensures Identity(env, Print(a), codexModel) == Some(ProviderName(Runs(env, a)))
    ensures Identity(env, Print(a), codexModel) == Identity(env, Print(b), codexModel) <==> Runs(env, a) == Runs(env, b)
  {
    hide Identity, Runs, ProviderName, Print, Enableable;
    if a.CliRoute? { CliRouteIdentity(env, a, codexModel); } else { OllamaRouteIdentity(env, a, codexModel); }
    if b.CliRoute? { CliRouteIdentity(env, b, codexModel); } else { OllamaRouteIdentity(env, b, codexModel); }
    if ProviderName(Runs(env, a)) == ProviderName(Runs(env, b)) { ProviderNameIsInjective(Runs(env, a), Runs(env, b)); }
  }

  // ----- canonical routes -----

  /** The first route with a prefix, or the fallback. */
  function FirstRoute(routes: seq<string>, prefix: string, fallback: string): (r: string)
    ensures r == fallback || (r in routes && StartsWith(r, prefix))
    ensures (exists route <- routes :: StartsWith(route, prefix)) ==> r in routes && StartsWith(r, prefix)
  {
    if routes == [] then fallback
    else if StartsWith(routes[0], prefix) then routes[0]
    else FirstRoute(routes[1..], prefix, fallback)
  }

  /** The route at `n` has the prefix and none before it has. */
  predicate IsFirstWith(routes: seq<string>, prefix: string, n: nat) {
    && n < |routes|
    && StartsWith(routes[n], prefix)
    && forall i :: 0 <= i < n ==> !StartsWith(routes[i], prefix)
  }

  /** No route has the prefix and the fallback stands, or it is the first route that has it. */
  lemma {:induction false} FirstRouteIsFirst(routes: seq<string>, prefix: string, fallback: string)
    ensures var r := FirstRoute(routes, prefix, fallback);
            || (r == fallback && forall route <- routes :: !StartsWith(route, prefix))
            || (exists n: nat :: IsFirstWith(routes, prefix, n) && r == routes[n])
  {
    hide StartsWith;
    if routes != [] {
      var rest := routes[1..];
      if StartsWith(routes[0], prefix) {
        assert IsFirstWith(routes, prefix, 0);
      } else {
        FirstRouteIsFirst(rest, prefix, fallback);
        assert routes == [routes[0]] + rest;
        if n: nat :| IsFirstWith(rest, prefix, n) && FirstRoute(rest, prefix, fallback) == rest[n] {
          assert IsFirstWith(routes, prefix, n + 1);
        }
      }
    }
  }

  function MigrateCodexRoute(s: string, routes: seq<string>): string {
    if s in {"gpt-cli", "codex-cli"} then FirstRoute(routes, Prefix(CodexCli), s)
    else if !StartsWith(s, Prefix(CodexCli)) || s in routes then s
    else match RSplit(s[|Prefix(CodexCli)|..])
      case None => s
      case Some((model, _)) => FirstRoute(routes, Prefix(CodexCli) + (model + ":"), s)
  }

  /** _canonical_agent_route */
  function Canonical(env: Env, v: Value, routes: seq<string>): string {
    var s := MigrateCodexRoute(Truncate(Strip(env.TextOf(v)), 260), routes);
    if s in routes then s
    else if StartsWith(s, Prefix(HermesAgent)) then FirstRoute(routes, Prefix(HermesAgent), s)
    else if StartsWith(s, Prefix(OpenClaw)) then FirstRoute(routes, Prefix(OpenClaw), s)
    else s
  }

  /** An enabled route without blanks at its ends is canonical. */
  lemma EnabledIsCanonical(env: Env, route: string, routes: seq<string>)
    requires route in routes && Tight(route) && |route| <= 260 && route !in {"gpt-cli", "codex-cli"}
    ensures Canonical(env, Str(route), routes) == route
  {
    hide FirstRoute, RSplit, Strip;
    assert env.TextOf(Str(route)) == route;
  }

  lemma NothingIsCanonical(env: Env, routes: seq<string>)
    requires "" !in routes
    ensures Canonical(env, Str(""), routes) == ""
  {
    assert env.TextOf(Str("")) == "";
    assert !StartsWith("", Prefix(CodexCli)) && !StartsWith("", Prefix(HermesAgent))
      && !StartsWith("", Prefix(OpenClaw));
  }

  // ----- an environment with these laws -----

  function Marks(n: nat): (s: string)
    ensures |s| == n && forall i :: 0 <= i < n ==> s[i] == '1'
  {
    seq(n, i => '1')
  }

  /** Numbers printed as a sign and as many marks as they have ten-thousandths. */
  function PrintMarks(v: Value): string {
    if !v.Float? then ""
    else
      var n := (v.r * 10000.0).Floor;
      if n >= 0 then "+" + Marks(n) else "-" + Marks(-n)
  }

  function ReadMarks(s: string): Option<real> {
    if s == "" then None
    else Some((if s[0] == '+' then |s| - 1 else 1 - |s|) as real / 10000.0)
  }

  lemma MarksReadBack(r: real)
    requires r != 0.0 && FourDecimals(r)
    ensures var s := PrintMarks(Float(r)); ReadMarks(s) == Some(r) && s != "" && Tight(s)
  {
    var n := (r * 10000.0).Floor;
    var s := PrintMarks(Float(r));
    assert n as real / 10000.0 == r;
    assert n != 0;
    assert if n >= 0 then s[0] == '+' && |s| == n + 1 else s[0] == '-' && |s| == 1 - n;
    assert s[|s| - 1] == '1';
  }

  const MARKS_ENV := Env(PrintMarks, c => [c], ReadMarks, s => s, s => true, "m", "http://h")

  /** The laws the theorems suppose can hold together. */
  lemma LawfulEnvExists()
    ensures MARKS_ENV.Lawful()
  {
    hide PrintMarks, ReadMarks, FourDecimals, Tight;
    forall r: real | r != 0.0 && FourDecimals(r)
      ensures MARKS_ENV.parseFloat(MARKS_ENV.render(Float(r))) == Some(r)
      ensures MARKS_ENV.render(Float(r)) != "" && Tight(MARKS_ENV.render(Float(r)))
    {
      MarksReadBack(r);
    }
  }
}
