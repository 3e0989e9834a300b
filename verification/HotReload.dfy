/** Hot reload of the configuration (config/live_config.go) and its use by `Service.resolve`
    (internal/service/modelhub/service.go). Any number of reloads may interleave: each one
    parses, loads the current configuration and checks against it, and stores later. */
module HotReload {
  import opened Options
  import opened GoStrings
  import opened Config
  import opened Routing
  import opened Factory

  /** What follows the first YAML document: nothing, a document that decodes into an empty
      struct (such as `{}` or null), or anything else. */
  datatype Tail = EndOfInput | EmptyDocument | OtherDocument

  /** A YAML text: its first document, when it decodes strictly, and its tail. */
  datatype Content = Content(first: Option<Config>, tail: Tail)

  /** Listen addresses are not part of the YAML. */
  function WithoutAddresses(c: Config): Config { c.(server := EMPTY.server) }

  ghost function ParseAndValidate(content: Content): Option<Config> {
    if content.first == None || content.tail == OtherDocument then None
    else if content.tail == EmptyDocument then Some(EMPTY)
    else if Valid(WithoutAddresses(content.first.value)) then Some(WithoutAddresses(content.first.value))
    else None
  }

  /** The second decode must report the end of input; when it reports no error at all, the
      code returns the zero configuration together with that absent error. */
  method ParseAndValidateYAML(content: Content) returns (r: Option<Config>)
    ensures r == ParseAndValidate(content)
  {
    if content.first == None { return None; }
    match content.tail {
      case OtherDocument => return None;
      case EmptyDocument => return Some(EMPTY);
      case EndOfInput =>
    }
    var c := WithoutAddresses(content.first.value);
    var ok := Validate(c);
    return if ok then Some(c) else None;
  }

  predicate SameResource(a: Provider, b: Provider) {
    a.(models := []) == b.(models := [])
  }

  /** `providerResourcesEqual`. */
  predicate ResourcesEqual(previous: map<string, Provider>, next: map<string, Provider>) {
    |previous| == |next| && forall name :: name in previous ==> name in next && SameResource(previous[name], next[name])
  }

  /** `RestartRequiredFields` returns at least one field. */
  predicate RestartRequired(previous: Config, next: Config) {
    previous.dsn != next.dsn || previous.logfire != next.logfire || !ResourcesEqual(previous.providers, next.providers)
  }

  function Merged(previous: Config, next: Config): Config { next.(server := previous.server) }

  /** What is published after a reload without others in between: replaced as a whole, or left
      alone as a whole. */
  ghost function Reloaded(previous: Config, content: Content): Config {
    var next := ParseAndValidate(content);
    if next.Some? && !RestartRequired(previous, next.value) then Merged(previous, next.value) else previous
  }

  /** The live configuration of one process. */
  class LiveConfig {
    var current: Config

    constructor (initial: Config)
      ensures current == initial
    {
      current := initial;
    }

    method Store(c: Config)
      modifies this
      ensures current == c
    {
      current := c;
    }

    method Load() returns (c: Config)
      ensures c == current
    {
      c := current;
    }

    method ApplyYAML(content: Content)
      modifies this
      ensures current == Reloaded(old(current), content)
    {
      var next := ParseAndValidateYAML(content);
      if next == None { return; }
      var previous := Load();
      if RestartRequired(previous, next.value) { return; }
      Store(Merged(previous, next.value));
    }
  }

  // Interleaved reloads

  datatype Reload = Parsed(next: Config) | Checked(previous: Config, next: Config) | Over

  datatype Live = Live(current: Config, reloads: map<nat, Reload>)

  datatype Step = Arrives(r: nat, content: Content) | LoadsAndChecks(r: nat) | Stores(r: nat)

  predicate Enabled(s: Live, step: Step) {
    match step
    case Arrives(r, _) => r !in s.reloads
    case LoadsAndChecks(r) => r in s.reloads && s.reloads[r].Parsed?
    case Stores(r) => r in s.reloads && s.reloads[r].Checked?
  }

  ghost function Next(s: Live, step: Step): Live
    requires Enabled(s, step)
  {
    match step
    case Arrives(r, content) =>
      var next := ParseAndValidate(content);
      s.(reloads := s.reloads[r := if next.Some? then Parsed(next.value) else Over])
    case LoadsAndChecks(r) =>
      var next := s.reloads[r].next;
      s.(reloads := s.reloads[r := if RestartRequired(s.current, next) then Over else Checked(s.current, next)])
    case Stores(r) =>
      s.(current := Merged(s.reloads[r].previous, s.reloads[r].next), reloads := s.reloads[r := Over])
  }

  ghost predicate CanRun(s: Live, steps: seq<Step>)
    decreases |steps|
  {
    steps == [] || (Enabled(s, steps[0]) && CanRun(Next(s, steps[0]), steps[1..]))
  }

  ghost function Run(s: Live, steps: seq<Step>): Live
    requires CanRun(s, steps)
    decreases |steps|
  {
    if steps == [] then s else Run(Next(s, steps[0]), steps[1..])
  }

  function Started(startup: Config): Live { Live(startup, map[]) }

  /** Everything that was bound at start-up is still as it was. */
  ghost predicate SameBindings(startup: Config, c: Config) {
    && c.dsn == startup.dsn && c.logfire == startup.logfire && c.server == startup.server
    && c.providers.Keys == startup.providers.Keys
    && forall name :: name in startup.providers ==> SameResource(startup.providers[name], c.providers[name])
  }

  ghost predicate Sound(startup: Config, c: Config) {
    SameBindings(startup, c) && (Valid(startup) ==> Valid(c))
  }

  ghost predicate ReloadFits(startup: Config, reload: Reload) {
    match reload
    case Parsed(next) => Valid(next) || next == EMPTY
    case Checked(previous, next) => (Valid(next) || next == EMPTY) && Sound(startup, previous) &&
        !RestartRequired(previous, next)
    case Over => true
  }

  ghost predicate Inv(startup: Config, s: Live) {
    Sound(startup, s.current) && forall r :: r in s.reloads ==> ReloadFits(startup, s.reloads[r])
  }

  lemma {:induction false} SameSizeSubset<T>(a: set<T>, b: set<T>)
    requires a <= b && |a| == |b|
    ensures a == b
  {
    if a != b {
      var x :| x in b && x !in a;
      assert a <= b - {x};
      SubsetIsSmaller(a, b - {x});
    }
  }

  lemma {:induction false} SubsetIsSmaller<T>(a: set<T>, b: set<T>)
    requires a <= b
    ensures |a| <= |b|
  {
    if a != {} {
      var x :| x in a;
      SubsetIsSmaller(a - {x}, b - {x});
    }
  }

  /** What the check accepts differs from the previous configuration only in model lists,
      overrides and addresses. */
  lemma AcceptedKeepsBindings(startup: Config, previous: Config, next: Config)
    requires SameBindings(startup, previous) && !RestartRequired(previous, next)
    ensures SameBindings(startup, Merged(previous, next))
  {
    assert previous.providers.Keys <= next.providers.Keys;
    assert |previous.providers.Keys| == |next.providers.Keys|;
    SameSizeSubset(previous.providers.Keys, next.providers.Keys);
  }

  /** The addresses play no part in validity. */
  lemma AddressesDoNotMatter(c: Config, server: Server)
    requires Valid(c)
    ensures Valid(c.(server := server))
  {
    var d := c.(server := server);
    forall model, name
      ensures DeclaredBy(d, model, name) == DeclaredBy(c, model, name) &&
              (OverrideTo(d, model, name) <==> OverrideTo(c, model, name)) { }
    forall key | key in d.overrides ensures GoodOverride(d, key) { assert GoodOverride(c, key); }
    forall model, a, b | DeclaredBy(d, model, a) && DeclaredBy(d, model, b) && a != b ensures Overridden(d, model) {
      assert DeclaredBy(c, model, a) && DeclaredBy(c, model, b);
      var name :| OverrideTo(c, model, name);
      assert OverrideTo(d, model, name);
    }
  }

  lemma EmptyIsInvalid(server: Server)
    ensures !Valid(EMPTY.(server := server))
  {
  }

  lemma StoreKeepsSound(startup: Config, previous: Config, next: Config)
    requires Sound(startup, previous) && (Valid(next) || next == EMPTY) && !RestartRequired(previous, next)
    ensures Sound(startup, Merged(previous, next))
  {
    AcceptedKeepsBindings(startup, previous, next);
    if Valid(startup) {
      assert next != EMPTY;
      AddressesDoNotMatter(next, previous.server);
    }
  }

  lemma ArrivalKeepsInv(startup: Config, s: Live, r: nat, content: Content)
    requires Inv(startup, s) && r !in s.reloads
    ensures Inv(startup, Next(s, Arrives(r, content)))
  {
    ParsedIsSound(content);
  }

  /** What a text parses to is valid, or the zero configuration. */
  lemma ParsedIsSound(content: Content)
    ensures var next := ParseAndValidate(content); next.Some? ==> Valid(next.value) || next.value == EMPTY
  {
  }

  lemma CheckKeepsInv(startup: Config, s: Live, r: nat)
    requires Inv(startup, s) && Enabled(s, LoadsAndChecks(r))
    ensures Inv(startup, Next(s, LoadsAndChecks(r)))
  {
    assert ReloadFits(startup, s.reloads[r]);
  }

  lemma StoreKeepsInv(startup: Config, s: Live, r: nat)
    requires Inv(startup, s) && Enabled(s, Stores(r))
    ensures Inv(startup, Next(s, Stores(r)))
  {
    assert ReloadFits(startup, s.reloads[r]);
    StoreKeepsSound(startup, s.reloads[r].previous, s.reloads[r].next);
  }

  lemma StepKeepsInv(startup: Config, s: Live, step: Step)
    requires Inv(startup, s) && Enabled(s, step)
    ensures Inv(startup, Next(s, step))
  {
    match step
    case Arrives(r, content) => ArrivalKeepsInv(startup, s, r, content);
    case LoadsAndChecks(r) => CheckKeepsInv(startup, s, r);
    case Stores(r) => StoreKeepsInv(startup, s, r);
  }

  lemma {:induction false} RunKeepsInv(startup: Config, s: Live, steps: seq<Step>)
    requires Inv(startup, s) && CanRun(s, steps)
    ensures Inv(startup, Run(s, steps))
    decreases |steps|
  {
    if steps != [] {
      StepKeepsInv(startup, s, steps[0]);
      RunKeepsInv(startup, Next(s, steps[0]), steps[1..]);
    }
  }

  /** However reloads interleave, every published configuration is bound to the resources of
      start-up, and it is valid when the start-up configuration was. */
  lemma PublishedIsSound(startup: Config, steps: seq<Step>)
    requires CanRun(Started(startup), steps)
    ensures SameBindings(startup, Run(Started(startup), steps).current)
    ensures Valid(startup) ==> Valid(Run(Started(startup), steps).current)
  {
    RunKeepsInv(startup, Started(startup), steps);
  }

  ghost predicate AlwaysValid(startup: Config) {
    forall steps :: CanRun(Started(startup), steps) ==> Valid(Run(Started(startup), steps).current)
  }

  /** A start-up text that the parser accepts gives only valid configurations, in every run,
      exactly when no empty document follows the first one; with such a second document the
      zero configuration is published. */
  lemma AlwaysValidExactlyWhen(content: Content, server: Server)
    requires ParseAndValidate(content).Some?
    ensures AlwaysValid(ParseAndValidate(content).value.(server := server)) <==> content.tail != EmptyDocument
  {
    var startup := ParseAndValidate(content).value.(server := server);
    if content.tail == EmptyDocument {
      EmptyIsInvalid(server);
      assert CanRun(Started(startup), []) && Run(Started(startup), []).current == startup;
    } else {
      AddressesDoNotMatter(ParseAndValidate(content).value, server);
      forall steps | CanRun(Started(startup), steps) ensures Valid(Run(Started(startup), steps).current) {
        PublishedIsSound(startup, steps);
      }
    }
  }

  /** Where the zero configuration was published first, no reload ever adds a provider or a route,
      whatever texts arrive. */
  lemma EmptyStartIsStuck(server: Server, steps: seq<Step>, model: string)
    requires CanRun(Started(EMPTY.(server := server)), steps)
    ensures Run(Started(EMPTY.(server := server)), steps).current.providers == map[]
    ensures !Declared(Run(Started(EMPTY.(server := server)), steps).current, model)
  {
    PublishedIsSound(EMPTY.(server := server), steps);
  }

  // When a reload is applied

  /** The settings of two providers agree, whatever models they list. */
  ghost predicate SameSections(a: Provider, b: Provider) {
    && a.gemini == b.gemini && a.vertexAI == b.vertexAI && a.ark == b.ark && a.openAI == b.openAI
    && a.ltx == b.ltx && a.dashScopeVideo == b.dashScopeVideo && a.ominilinkVideo == b.ominilinkVideo
    && a.geminiVideo == b.geminiVideo && a.arkVideo == b.arkVideo && a.minimaxTts == b.minimaxTts
  }

  /** Two configurations name the same database, telemetry and providers, with the same settings. */
  ghost predicate SameResources(a: Config, b: Config) {
    && a.dsn == b.dsn
    && a.logfire.token == b.logfire.token && a.logfire.env == b.logfire.env
    && a.logfire.service == b.logfire.service && a.logfire.version == b.logfire.version
    && a.logfire.otelLogLevel == b.logfire.otelLogLevel
    && (forall name :: name in a.providers <==> name in b.providers)
    && forall name :: name in a.providers && name in b.providers ==> SameSections(a.providers[name], b.providers[name])
  }

  lemma SameSectionsSuffice(a: Provider, b: Provider)
    ensures SameSections(a, b) <==> SameResource(a, b)
  {
    assert SameSections(a, b) ==> a.(models := []) == b.(models := []);
    var c, d := a.(models := []), b.(models := []);
    assert c == d ==> c.gemini == d.gemini && c.vertexAI == d.vertexAI && c.ark == d.ark && c.openAI == d.openAI;
  }

  lemma RestartExactlyWhen(previous: Config, next: Config)
    ensures RestartRequired(previous, next) <==> !SameResources(previous, next)
  {
    forall a, b ensures SameSections(a, b) <==> SameResource(a, b) { SameSectionsSuffice(a, b); }
    var p, n := previous.providers.Keys, next.providers.Keys;
    if p <= n && |p| == |n| { SameSizeSubset(p, n); }
    if p == n { assert |previous.providers| == |p| && |next.providers| == |n|; }
    assert previous.logfire == next.logfire <==>
        && previous.logfire.token == next.logfire.token && previous.logfire.env == next.logfire.env
        && previous.logfire.service == next.logfire.service && previous.logfire.version == next.logfire.version
        && previous.logfire.otelLogLevel == next.logfire.otelLogLevel;
  }

  lemma ValidTextParses(text: Config)
    requires Valid(text)
    ensures ParseAndValidate(Content(Some(text), EndOfInput)) == Some(WithoutAddresses(text))
  {
    AddressesDoNotMatter(text, EMPTY.server);
  }

  lemma ReloadOfParsed(previous: Config, content: Content, next: Config)
    requires ParseAndValidate(content) == Some(next)
    ensures Reloaded(previous, content) == if SameResources(previous, next) then Merged(previous, next) else previous
  {
    RestartExactlyWhen(previous, next);
  }

  lemma AddressesAreNoResources(previous: Config, text: Config)
    ensures SameResources(previous, WithoutAddresses(text)) <==> SameResources(previous, text)
  {
  }

  /** A valid text is applied exactly when it agrees with the published configuration on all
      resources; then providers with their models, overrides and everything else are those of
      the text, and the addresses stay. Otherwise nothing changes. */
  lemma ReloadExactlyWhen(previous: Config, text: Config)
    requires Valid(text)
    ensures var now := Reloaded(previous, Content(Some(text), EndOfInput));
      if SameResources(previous, text) then
        && now.providers == text.providers && now.overrides == text.overrides
        && now.dsn == text.dsn && now.logfire == text.logfire && now.server == previous.server
      else now == previous
  {
    ValidTextParses(text);
    ReloadOfParsed(previous, Content(Some(text), EndOfInput), WithoutAddresses(text));
    AddressesAreNoResources(previous, text);
  }

  /** Any other text changes nothing. */
  lemma OtherTextsChangeNothing(previous: Config, content: Content)
    requires previous.providers != map[]
    requires content.first == None || content.tail != EndOfInput || !Valid(content.first.value)
    ensures Reloaded(previous, content) == previous
  {
    if content.tail == EmptyDocument {
      var name :| name in previous.providers;
      assert name !in EMPTY.providers;
    } else if content.first.Some? && Valid(WithoutAddresses(content.first.value)) {
      AddressesDoNotMatter(WithoutAddresses(content.first.value), content.first.value.server);
      assert WithoutAddresses(content.first.value).(server := content.first.value.server) == content.first.value;
    }
  }

  /** From every state of interleaved reloads a text that agrees on resources can be reloaded:
      it arrives, is checked and is stored. */
  lemma {:induction false} ReloadCanRun(s: Live, r: nat, text: Config)
    requires Valid(text) && SameResources(s.current, text) && r !in s.reloads
    ensures var steps := [Arrives(r, Content(Some(text), EndOfInput)), LoadsAndChecks(r), Stores(r)];
      CanRun(s, steps) && Run(s, steps).current == Reloaded(s.current, Content(Some(text), EndOfInput))
  {
    ValidTextParses(text);
    var next := WithoutAddresses(text);
    RestartExactlyWhen(s.current, next);
    AddressesAreNoResources(s.current, text);
    var arrives := Arrives(r, Content(Some(text), EndOfInput));
    var s1 := Next(s, arrives);
    var s2 := Next(s1, LoadsAndChecks(r));
    var s3 := Next(s2, Stores(r));
    ThreeSteps(s, arrives, LoadsAndChecks(r), Stores(r));
  }

  lemma {:induction false} ThreeSteps(s: Live, a: Step, b: Step, c: Step)
    requires Enabled(s, a) && Enabled(Next(s, a), b) && Enabled(Next(Next(s, a), b), c)
    ensures CanRun(s, [a, b, c]) && Run(s, [a, b, c]) == Next(Next(Next(s, a), b), c)
  {
    var s1, s2, s3 := Next(s, a), Next(Next(s, a), b), Next(Next(Next(s, a), b), c);
    assert CanRun(s3, []) && Run(s3, []) == s3;
    assert [c][1..] == [] && CanRun(s2, [c]) && Run(s2, [c]) == s3;
    assert [b, c][1..] == [c] && CanRun(s1, [b, c]) && Run(s1, [b, c]) == s3;
    assert [a, b, c][1..] == [b, c];
  }

  lemma RoutesWithoutAddresses(c: Config, server: Server, routes: Routes)
    requires RoutesFit(c.(server := server), routes)
    ensures RoutesFit(c, routes)
  {
    var d := c.(server := server);
    forall model, name
      ensures DeclaredBy(d, model, name) == DeclaredBy(c, model, name) &&
              (OverrideTo(d, model, name) <==> OverrideTo(c, model, name)) { }
    forall model | model in routes ensures RouteFits(c, model, routes[model]) {
      assert RouteFits(d, model, routes[model]);
      if name :| OverrideTo(c, model, name) { assert OverrideTo(d, model, name); }
    }
    forall model ensures Declared(c, model) <==> Declared(d, model) {
      if name :| DeclaredBy(c, model, name) { assert DeclaredBy(d, model, name); }
    }
  }

  /** After the reload requests are routed by the text. A model that it adds to a provider was
      unknown before and is routed to a provider that declares it now. */
  lemma {:induction false} ReloadIsRouted(previous: Config, text: Config, before: Routes, after: Routes)
    requires Valid(text) && SameResources(previous, text) && RoutesFit(previous, before)
    requires RoutesFit(Reloaded(previous, Content(Some(text), EndOfInput)), after)
    ensures RoutesFit(text, after)
    ensures forall model :: Declared(text, model) && !Declared(previous, model) ==>
              model !in before && model in after && DeclaredBy(text, model, after[model])
  {
    ReloadExactlyWhen(previous, text);
    var now := Reloaded(previous, Content(Some(text), EndOfInput));
    assert now == text.(server := previous.server);
    RoutesWithoutAddresses(text, previous.server, after);
    forall model | model in after ensures DeclaredBy(text, model, after[model]) {
      assert RouteFits(text, model, after[model]);
    }
  }

  /** A server with one model, and the text that adds another one. */
  function Listing(models: seq<string>): Config {
    Config(Server("", "", ""), map["a" := EITHER.(models := models)], map[], "dsn", Logfire("token", "", "", "", ""))
  }

  lemma ListingIsValid(models: seq<string>)
    requires models == ["m"] || models == ["m", "n"]
    ensures Valid(Listing(models)) && forall model :: Declared(Listing(models), model) <==> model in models
  {
    TrimmedNames();
    TrimmedIsKept("n");
    var c := Listing(models);
    var p := c.providers["a"];
    assert ModelIds(p) == models;
    assert "m" != "n" by { assert "m"[0] != "n"[0]; }
    assert OneConcrete(p) by { assert Has(p, KGemini) && forall other :: Has(p, other) ==> other == KGemini; }
    forall model ensures Declared(c, model) <==> model in models {
      if model in models { assert DeclaredBy(c, model, "a"); }
    }
    forall model, a, b | DeclaredBy(c, model, a) && DeclaredBy(c, model, b) ensures a == b { }
  }

  /** Such a text exists: it adds a model to the list of a provider. */
  lemma {:induction false} ModelCanBeAdded() returns (one: Config, two: Config)
    ensures Valid(one) && Valid(two) && SameResources(one, two)
    ensures !Declared(one, "n") && Declared(two, "n")
  {
    one, two := Listing(["m"]), Listing(["m", "n"]);
    ListingIsValid(["m"]);
    ListingIsValid(["m", "n"]);
    ListingsAgree(["m"], ["m", "n"]);
    assert "n" !in ["m"] by { assert "m"[0] != "n"[0]; }
    assert "n" in ["m", "n"] by { assert ["m", "n"][1] == "n"; }
  }

  lemma ListingsAgree(a: seq<string>, b: seq<string>)
    ensures SameResources(Listing(a), Listing(b))
  {
  }

  // Resolving a model

  datatype Resolved = UnknownModel | UnknownProvider | Unsupported | Bound(slots: ProviderSet, provider: string)

  /** `Service.resolve`: live routes, provider sections frozen when the service was made, and
      clients built at start-up. */
  function Resolve(routes: Routes, frozen: map<string, Provider>, sets: map<string, ProviderSet>, model: string,
      capability: Capability): Resolved {
    if model !in routes then UnknownModel
    else
      var name := routes[model];
      if name !in frozen then UnknownProvider
      else if !ProviderSupports(frozen[name], capability) then Unsupported
      else if name !in sets then UnknownProvider
      else Bound(sets[name], name)
  }

  lemma SameResourceSupports(a: Provider, b: Provider, capability: Capability)
    requires SameResource(a, b)
    ensures ProviderSupports(a, capability) == ProviderSupports(b, capability)
  {
    var empty := a.(models := []);
    assert ProviderSupports(a, capability) == ProviderSupports(empty, capability);
    assert ProviderSupports(b, capability) == ProviderSupports(b.(models := []), capability);
  }

  /** What a request may rely on: no unknown provider; an unknown model exactly when no provider
      of the live configuration declares it; the live answer to the capability question; and,
      when a client comes back, the client of a provider that declares the model, with the slot
      that was asked for. */
  ghost predicate RightlyResolved(r: Resolved, live: Config, sets: map<string, ProviderSet>, routes: Routes,
      model: string, capability: Capability) {
    && !r.UnknownProvider?
    && (r.UnknownModel? <==> !Declared(live, model))
    && (model in routes ==> routes[model] in live.providers)
    && (model in routes ==> (r.Unsupported? <==> !ProviderSupports(live.providers[routes[model]], capability)))
    && (r.Bound? ==> DeclaredBy(live, model, r.provider) && r.provider in sets)
    && (r.Bound? ==> r.slots == sets[r.provider] && Filled(r.slots, capability))
  }

  /** A server that started with `startup`, made its service when `made` was published, and
      now publishes `live`; reloads may have run in between, in any order. */
  ghost predicate Serving(startup: Config, made: Config, live: Config) {
    exists before, after :: CanRun(Started(startup), before) && CanRun(Run(Started(startup), before), after)
      && Run(Started(startup), before).current == made && Run(Run(Started(startup), before), after).current == live
  }

  /** Over all runs of interleaved reloads every request is rightly resolved. */
  lemma ResolveIsSafe(startup: Config, made: Config, live: Config, sets: map<string, ProviderSet>,
        routes: Routes, model: string, capability: Capability)
    requires Valid(startup) && BuiltFrom(sets, startup) && Serving(startup, made, live) && RoutesFit(live, routes)
    ensures RightlyResolved(Resolve(routes, made.providers, sets, model, capability), live, sets, routes, model,
            capability)
  {
    var before, after :| CanRun(Started(startup), before) && CanRun(Run(Started(startup), before), after)
      && Run(Started(startup), before).current == made && Run(Run(Started(startup), before), after).current == live;
    RunKeepsInv(startup, Started(startup), before);
    RunKeepsInv(startup, Run(Started(startup), before), after);
    ResolveAgainst(startup, made, live, sets, routes, model, capability);
  }

  lemma ResolveAgainst(startup: Config, made: Config, live: Config, sets: map<string, ProviderSet>,
        routes: Routes, model: string, capability: Capability)
    requires Valid(startup) && BuiltFrom(sets, startup) && SameBindings(startup, made) &&
             SameBindings(startup, live) && RoutesFit(live, routes)
    ensures RightlyResolved(Resolve(routes, made.providers, sets, model, capability), live, sets, routes, model,
            capability)
  {
    if model in routes {
      var name := routes[model];
      assert RouteFits(live, model, name);
      SameResourceSupports(startup.providers[name], made.providers[name], capability);
      SameResourceSupports(startup.providers[name], live.providers[name], capability);
      assert GoodProvider(startup.providers[name]);
      ValidatedSlotsAgree(startup.providers[name]);
    }
  }
}
