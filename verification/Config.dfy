/** Provider configuration and model routing (config/config.go). */
module Config {
  import opened Options
  import opened GoStrings

  datatype Gemini = Gemini(apiKey: string, baseUrl: string, proxyUrl: string)
  datatype VertexAI = VertexAI(project: string, location: string)
  datatype Ark = Ark(apiKey: string, baseUrl: string, endpointId: string)
  datatype OpenAI = OpenAI(apiKey: string, baseUrl: string)
  datatype Ltx = Ltx(baseUrl: string, token: string, duration: real, fps: int, seed: int, pollInterval: real,
      maxPollTime: real)
  datatype PolledVideo = PolledVideo(apiKey: string, baseUrl: string, pollInterval: real, maxPollTime: real)
  datatype GeminiVideo = GeminiVideo(apiKey: string, baseUrl: string, authHeader: string, pollInterval: real)
  datatype MinimaxTts = MinimaxTts(apiKey: string, endpoint: string, languageBoost: string, voiceId: string,
      speed: real, volume: real, pitch: int)

  /** One provider instance: its models, and one optional section per provider type. */
  datatype Provider = Provider(
    models: seq<string>,
    gemini: Option<Gemini>,
    vertexAI: Option<VertexAI>,
    ark: Option<Ark>,
    openAI: Option<OpenAI>,
    ltx: Option<Ltx>,
    dashScopeVideo: Option<PolledVideo>,
    ominilinkVideo: Option<PolledVideo>,
    geminiVideo: Option<GeminiVideo>,
    arkVideo: Option<PolledVideo>,
    minimaxTts: Option<MinimaxTts>)

  datatype Logfire = Logfire(token: string, env: string, service: string, version: string, otelLogLevel: string)

  datatype Server = Server(listen: string, publicListen: string, httpListen: string)

  datatype Config = Config(
    server: Server,
    providers: map<string, Provider>,
    overrides: map<string, string>,
    dsn: string,
    logfire: Logfire)

  /** The zero value `Config{}`. */
  const EMPTY := Config(Server("", "", ""), map[], map[], "", Logfire("", "", "", "", ""))

  datatype Capability = TextOutput | ImageOutput | VideoOutput | SpeechOutput

  datatype Kind =
    | KGemini | KVertexAI | KArk | KOpenAI | KLtx | KDashScopeVideo
    | KOminilinkVideo | KGeminiVideo | KArkVideo | KMinimaxTts

  predicate Has(p: Provider, kind: Kind) {
    match kind
    case KGemini => p.gemini.Some?
    case KVertexAI => p.vertexAI.Some?
    case KArk => p.ark.Some?
    case KOpenAI => p.openAI.Some?
    case KLtx => p.ltx.Some?
    case KDashScopeVideo => p.dashScopeVideo.Some?
    case KOminilinkVideo => p.ominilinkVideo.Some?
    case KGeminiVideo => p.geminiVideo.Some?
    case KArkVideo => p.arkVideo.Some?
    case KMinimaxTts => p.minimaxTts.Some?
  }

  /** `ProviderSupports`. */
  predicate ProviderSupports(p: Provider, capability: Capability) {
    if p.gemini.Some? || p.openAI.Some? then capability == TextOutput || capability == ImageOutput
    else if p.vertexAI.Some? || p.ark.Some? then capability == TextOutput
    else if p.ltx.Some? then capability == VideoOutput
    else if p.dashScopeVideo.Some? || p.ominilinkVideo.Some? || p.geminiVideo.Some? || p.arkVideo.Some? then
        capability == VideoOutput
    else p.minimaxTts.Some? && capability == SpeechOutput
  }

  // What a valid configuration is

  /** Exactly one provider type is configured. */
  ghost predicate OneConcrete(p: Provider) {
    exists kind :: Has(p, kind) && forall other :: Has(p, other) ==> other == kind
  }

  predicate LtxComplete(ltx: Ltx) {
    && !Blank(ltx.baseUrl) && ltx.duration > 0.0 && ltx.fps > 0
    && ltx.pollInterval > 0.0 && ltx.maxPollTime > 0.0
  }

  /** The section that is present is complete. */
  predicate Complete(p: Provider) {
    && (p.gemini.Some? ==> !Blank(p.gemini.value.apiKey))
    && (p.vertexAI.Some? ==> !Blank(p.vertexAI.value.project) && !Blank(p.vertexAI.value.location))
    && (p.ark.Some? ==> !Blank(p.ark.value.apiKey) && (!Blank(p.ark.value.endpointId) ==> |p.models| == 1))
    && (p.openAI.Some? ==> !Blank(p.openAI.value.apiKey))
    && (p.ltx.Some? ==> LtxComplete(p.ltx.value))
    && (p.dashScopeVideo.Some? ==> !Blank(p.dashScopeVideo.value.apiKey))
    && (p.ominilinkVideo.Some? ==> !Blank(p.ominilinkVideo.value.apiKey))
    && (p.geminiVideo.Some? ==> !Blank(p.geminiVideo.value.apiKey))
    && (p.arkVideo.Some? ==> !Blank(p.arkVideo.value.apiKey))
    && (p.minimaxTts.Some? ==> !Blank(p.minimaxTts.value.apiKey))
  }

  /** The declared model ids, trimmed. */
  function ModelIds(p: Provider): (r: seq<string>)
    ensures |r| == |p.models|
  {
    seq(|p.models|, i requires 0 <= i < |p.models| => TrimSpace(p.models[i]))
  }

  predicate Declares(p: Provider, model: string) {
    model in ModelIds(p) && model != ""
  }

  ghost predicate Distinct(ids: seq<string>) {
    forall i, j :: 0 <= i < j < |ids| ==> ids[i] != ids[j]
  }

  /** The provider lists at least one model, none blank, none twice. */
  ghost predicate GoodModels(p: Provider) {
    ModelIds(p) != [] && "" !in ModelIds(p) && Distinct(ModelIds(p))
  }

  ghost predicate GoodProvider(p: Provider) {
    OneConcrete(p) && Complete(p) && GoodModels(p)
  }

  predicate DeclaredBy(c: Config, model: string, name: string) {
    name in c.providers && Declares(c.providers[name], model)
  }

  ghost predicate Declared(c: Config, model: string) {
    exists name :: DeclaredBy(c, model, name)
  }

  /** Some override entry sends `model` to `name`; keys and values are trimmed. */
  ghost predicate OverrideTo(c: Config, model: string, name: string) {
    exists key :: key in c.overrides && TrimSpace(key) == model && TrimSpace(c.overrides[key]) == name
  }

  ghost predicate Overridden(c: Config, model: string) {
    exists name :: OverrideTo(c, model, name)
  }

  ghost predicate GoodOverride(c: Config, key: string)
    requires key in c.overrides
  {
    !Blank(key) && !Blank(c.overrides[key]) && DeclaredBy(c, TrimSpace(key), TrimSpace(c.overrides[key]))
  }

  /** Every override names a provider that declares its model. */
  ghost predicate GoodOverrides(c: Config) {
    forall key :: key in c.overrides ==> GoodOverride(c, key)
  }

  /** A model with several providers has an override. */
  ghost predicate Decided(c: Config) {
    forall model, a, b :: DeclaredBy(c, model, a) && DeclaredBy(c, model, b) && a != b ==> Overridden(c, model)
  }

  ghost predicate Valid(c: Config) {
    && !Blank(c.logfire.token) && !Blank(c.dsn)
    && c.providers != map[]
    && (forall name :: name in c.providers ==> GoodProvider(c.providers[name]))
    && GoodOverrides(c) && Decided(c)
  }

  // Validation as the code does it

  function One(present: bool): nat { if present then 1 else 0 }

  /** `countConcreteProviders`. */
  function CountConcreteProviders(p: Provider): nat {
    One(Has(p, KGemini)) + One(Has(p, KVertexAI)) + One(Has(p, KArk)) + One(Has(p, KOpenAI)) + One(Has(p, KLtx)) +
    One(Has(p, KDashScopeVideo)) + One(Has(p, KOminilinkVideo)) + One(Has(p, KGeminiVideo)) + One(Has(p, KArkVideo)) +
        One(Has(p, KMinimaxTts))
  }

  lemma CountOneMeansOneConcrete(p: Provider)
    ensures CountConcreteProviders(p) == 1 <==> OneConcrete(p)
  {
    if kind :| Has(p, kind) {
      if CountConcreteProviders(p) == 1 {
        assert forall other :: Has(p, other) ==> other == kind;
      }
      assert OneConcrete(p) ==> forall other :: Has(p, other) ==> other == kind;
    }
  }

  /** `validateProvider`: the section that is present decides. */
  method ValidateProvider(p: Provider) returns (ok: bool)
    ensures ok <==> OneConcrete(p) && Complete(p)
  {
    CountOneMeansOneConcrete(p);
    if CountConcreteProviders(p) != 1 { return false; }
    ok := true;
    if p.gemini.Some? {
      if Blank(p.gemini.value.apiKey) { return false; }
    } else if p.vertexAI.Some? {
      if Blank(p.vertexAI.value.project) || Blank(p.vertexAI.value.location) { return false; }
    } else if p.ark.Some? {
      if Blank(p.ark.value.apiKey) { return false; }
      if !Blank(p.ark.value.endpointId) && |p.models| != 1 { return false; }
    } else if p.openAI.Some? {
      if Blank(p.openAI.value.apiKey) { return false; }
    } else if p.ltx.Some? {
      var ltx := p.ltx.value;
      if Blank(ltx.baseUrl) || ltx.duration <= 0.0 || ltx.fps <= 0 ||
        ltx.pollInterval <= 0.0 || ltx.maxPollTime <= 0.0
      {
        return false;
      }
    } else if p.dashScopeVideo.Some? {
      if Blank(p.dashScopeVideo.value.apiKey) { return false; }
    } else if p.ominilinkVideo.Some? {
      if Blank(p.ominilinkVideo.value.apiKey) { return false; }
    } else if p.geminiVideo.Some? {
      if Blank(p.geminiVideo.value.apiKey) { return false; }
    } else if p.arkVideo.Some? {
      if Blank(p.arkVideo.value.apiKey) { return false; }
    } else if p.minimaxTts.Some? {
      if Blank(p.minimaxTts.value.apiKey) { return false; }
    }
  }

  /** The inner loop of `Validate`: the models of one provider, trimmed. */
  method ValidateModels(p: Provider) returns (ok: bool, models: seq<string>)
    ensures ok <==> GoodModels(p)
    ensures ok ==> models == ModelIds(p)
  {
    models := [];
    ghost var ids := ModelIds(p);
    if p.models == [] { return false, []; }
    for i := 0 to |p.models|
      invariant models == ids[..i] && "" !in models && Distinct(models)
    {
      var model := TrimSpace(p.models[i]);
      assert model == ids[i];
      if model == "" { return false, []; }
      if model in models {
        var j :| 0 <= j < |models| && models[j] == model;
        assert ids[j] == ids[i];
        return false, [];
      }
      models := models + [model];
    }
    ok := true;
  }

  function Providers(declaredBy: map<string, seq<string>>, model: string): seq<string> {
    if model in declaredBy then declaredBy[model] else []
  }

  /** `declaredBy` lists the providers in `done` that declare a model, each once. */
  ghost predicate CollectedAt(c: Config, done: set<string>, declaredBy: map<string, seq<string>>, model: string) {
    var names := Providers(declaredBy, model);
    && (model in declaredBy ==> names != [])
    && Distinct(names)
    && (forall name :: name in names <==> name in done && DeclaredBy(c, model, name))
  }

  ghost predicate Collected(c: Config, done: set<string>, declaredBy: map<string, seq<string>>) {
    forall model :: CollectedAt(c, done, declaredBy, model)
  }

  /** `declaredBy` with one more provider for each of the models. */
  function Extended(declaredBy: map<string, seq<string>>, models: set<string>, name: string): map<string, seq<string>> {
    map model | model in declaredBy.Keys + models :: Providers(declaredBy, model) +
        (if model in models then [name] else [])
  }

  function SetOf(models: seq<string>): set<string> { set m | m in models }

  /** Records the models of one provider. */
  method CollectProvider(name: string, models: seq<string>, before: map<string, seq<string>>)
    returns (declaredBy: map<string, seq<string>>)
    requires Distinct(models)
    ensures declaredBy == Extended(before, SetOf(models), name)
  {
    declaredBy := before;
    ghost var seen: set<string> := {};
    assert forall m :: m in before ==> Providers(before, m) + [] == before[m];
    for i := 0 to |models|
      invariant declaredBy == Extended(before, seen, name)
      invariant forall m :: m in seen <==> m in models[..i]
    {
      var model := models[i];
      assert model !in seen;
      declaredBy := declaredBy[model := Providers(declaredBy, model) + [name]];
      seen := seen + {model};
    }
    assert models[..|models|] == models;
    assert seen == SetOf(models);
  }

  lemma ExtendedAt(declaredBy: map<string, seq<string>>, models: set<string>, name: string, model: string)
    ensures model in Extended(declaredBy, models, name) <==> model in declaredBy || model in models
    ensures Providers(Extended(declaredBy, models, name), model) == Providers(declaredBy, model) +
            (if model in models then [name] else [])
  {
  }

  lemma ExtendedIsCollected(c: Config, done: set<string>, before: map<string, seq<string>>, name: string,
      models: set<string>)
    requires Collected(c, done, before) && name in c.providers && name !in done
    requires forall m :: m in models <==> Declares(c.providers[name], m)
    ensures Collected(c, done + {name}, Extended(before, models, name))
  {
    forall model ensures CollectedAt(c, done + {name}, Extended(before, models, name), model) {
      ExtendedAt(before, models, name, model);
      assert CollectedAt(c, done, before, model);
    }
  }

  /** The first loop of `Validate`: every provider, in any order. */
  method ValidateProviders(c: Config) returns (ok: bool, declaredBy: map<string, seq<string>>)
    ensures ok <==> forall name :: name in c.providers ==> GoodProvider(c.providers[name])
    ensures ok ==> Collected(c, c.providers.Keys, declaredBy)
  {
    declaredBy := map[];
    var left := c.providers.Keys;
    while left != {}
      invariant left <= c.providers.Keys
      invariant forall name :: name in c.providers.Keys - left ==> GoodProvider(c.providers[name])
      invariant Collected(c, c.providers.Keys - left, declaredBy)
      decreases |left|
    {
      var name :| name in left;
      var p := c.providers[name];
      var good := ValidateProvider(p);
      if !good { return false, map[]; }
      var fine, models := ValidateModels(p);
      if !fine { return false, map[]; }
      ghost var done := c.providers.Keys - left;
      ExtendedIsCollected(c, done, declaredBy, name, SetOf(models));
      declaredBy := CollectProvider(name, models, declaredBy);
      left := left - {name};
      assert c.providers.Keys - left == done + {name};
    }
    assert c.providers.Keys - left == c.providers.Keys;
    ok := true;
  }

  /** The second loop: every override entry, in any order. */
  method ValidateOverrides(c: Config, declaredBy: map<string, seq<string>>) returns (ok: bool, explicit: set<string>)
    requires Collected(c, c.providers.Keys, declaredBy)
    ensures ok <==> GoodOverrides(c)
    ensures ok ==> forall model :: model in explicit <==> Overridden(c, model)
  {
    explicit := {};
    var left := c.overrides.Keys;
    while left != {}
      invariant left <= c.overrides.Keys
      invariant forall key :: key in c.overrides.Keys - left ==> GoodOverride(c, key)
      invariant forall model :: model in explicit <==>
                exists key :: key in c.overrides.Keys - left && TrimSpace(key) == model
      decreases |left|
    {
      var key :| key in left;
      var model, name := TrimSpace(key), TrimSpace(c.overrides[key]);
      assert CollectedAt(c, c.providers.Keys, declaredBy, model);
      if model == "" || name == "" || model !in declaredBy || name !in c.providers || name !in declaredBy[model] {
        assert !GoodOverride(c, key);
        return false, {};
      }
      explicit := explicit + {model};
      left := left - {key};
    }
    OverriddenMeansKey(c);
    ok := true;
  }

  lemma OverriddenMeansKey(c: Config)
    ensures forall model :: Overridden(c, model) <==> exists key :: key in c.overrides.Keys && TrimSpace(key) == model
  {
    forall model ensures Overridden(c, model) <==> exists key :: key in c.overrides.Keys && TrimSpace(key) == model {
      if key :| key in c.overrides.Keys && TrimSpace(key) == model {
        assert OverrideTo(c, model, TrimSpace(c.overrides[key]));
      }
    }
  }

  /** `Config.Validate`: it accepts exactly the valid configurations. */
  method Validate(c: Config) returns (ok: bool)
    ensures ok <==> Valid(c)
  {
    if Blank(c.logfire.token) || Blank(c.dsn) || c.providers == map[] { return false; }
    var good, declaredBy := ValidateProviders(c);
    if !good { return false; }
    var fine, explicit := ValidateOverrides(c, declaredBy);
    if !fine { return false; }
    var left := declaredBy.Keys;
    while left != {}
      invariant left <= declaredBy.Keys
      invariant forall model :: model in declaredBy.Keys - left ==> |declaredBy[model]| == 1 || Overridden(c, model)
      decreases |left|
    {
      var model :| model in left;
      if |declaredBy[model]| != 1 && model !in explicit {
        UndecidedModel(c, declaredBy, model);
        return false;
      }
      left := left - {model};
    }
    AllDecided(c, declaredBy);
    ok := true;
  }

  lemma UndecidedModel(c: Config, declaredBy: map<string, seq<string>>, model: string)
    requires Collected(c, c.providers.Keys, declaredBy) && model in declaredBy && |declaredBy[model]| != 1
    requires !Overridden(c, model)
    ensures !Decided(c)
  {
    assert CollectedAt(c, c.providers.Keys, declaredBy, model);
    var a, b := declaredBy[model][0], declaredBy[model][1];
    assert DeclaredBy(c, model, a) && DeclaredBy(c, model, b) && a != b;
  }

  lemma AllDecided(c: Config, declaredBy: map<string, seq<string>>)
    requires Collected(c, c.providers.Keys, declaredBy)
    requires forall model :: model in declaredBy ==> |declaredBy[model]| == 1 || Overridden(c, model)
    ensures Decided(c)
  {
    forall model, a, b | DeclaredBy(c, model, a) && DeclaredBy(c, model, b) && a != b ensures Overridden(c, model) {
      assert CollectedAt(c, c.providers.Keys, declaredBy, model);
      assert a in declaredBy[model] && b in declaredBy[model];
    }
  }
}
