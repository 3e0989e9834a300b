/** Building provider clients (internal/infra/factory/factory.go) and its agreement with
    `ProviderSupports`, a switch written separately. */
module Factory {
  import opened Options
  import opened Config

  /** Which capability slots of a provider set hold a client. */
  datatype ProviderSet = ProviderSet(text: bool, image: bool, video: bool, speech: bool)

  predicate Filled(slots: ProviderSet, capability: Capability) {
    match capability
    case TextOutput => slots.text
    case ImageOutput => slots.image
    case VideoOutput => slots.video
    case SpeechOutput => slots.speech
  }

  /** `buildProvider`; `constructed` says whether the client's constructor succeeded. */
  function BuildProvider(p: Provider, constructed: bool): Option<ProviderSet> {
    if !constructed then None
    else if p.gemini.Some? then Some(ProviderSet(true, true, false, false))
    else if p.vertexAI.Some? then Some(ProviderSet(true, false, false, false))
    else if p.ark.Some? then Some(ProviderSet(true, false, false, false))
    else if p.openAI.Some? then Some(ProviderSet(true, true, false, false))
    else if p.ltx.Some? then Some(ProviderSet(false, false, true, false))
    else if p.dashScopeVideo.Some? then Some(ProviderSet(false, false, true, false))
    else if p.ominilinkVideo.Some? then Some(ProviderSet(false, false, true, false))
    else if p.geminiVideo.Some? then Some(ProviderSet(false, false, true, false))
    else if p.arkVideo.Some? then Some(ProviderSet(false, false, true, false))
    else if p.minimaxTts.Some? then Some(ProviderSet(false, false, false, true))
    else None
  }

  ghost predicate Agree(slots: ProviderSet, p: Provider) {
    forall capability :: Filled(slots, capability) <==> ProviderSupports(p, capability)
  }

  /** For any configuration, validated or not, the built slots are those that
      `ProviderSupports` announces, except when an OpenAI section stands beside a VertexAI or
      Ark section and no Gemini one: then image output is announced but not built. */
  lemma SlotsAgreeExactlyWhen(p: Provider)
    requires BuildProvider(p, true).Some?
    ensures Agree(BuildProvider(p, true).value, p) <==>
              !(p.gemini == None && p.openAI.Some? && (p.vertexAI.Some? || p.ark.Some?))
  {
    if p.gemini == None && p.openAI.Some? && (p.vertexAI.Some? || p.ark.Some?) {
      assert ProviderSupports(p, ImageOutput) && !Filled(BuildProvider(p, true).value, ImageOutput);
    }
  }

  /** A provider that passed validation has exactly the slots it announces. */
  lemma ValidatedSlotsAgree(p: Provider)
    requires OneConcrete(p)
    ensures BuildProvider(p, true).Some? && Agree(BuildProvider(p, true).value, p)
  {
    var kind :| Has(p, kind) && forall other :: Has(p, other) ==> other == kind;
    if p.openAI.Some? {
      assert Has(p, KOpenAI);
      assert Has(p, KVertexAI) ==> KVertexAI == kind;
      assert Has(p, KArk) ==> KArk == kind;
    }
    SlotsAgreeExactlyWhen(p);
  }

  ghost predicate BuiltFrom(sets: map<string, ProviderSet>, c: Config) {
    sets.Keys == c.providers.Keys && forall name :: name in sets ==>
        BuildProvider(c.providers[name], true) == Some(sets[name])
  }

  /** `factory.Build`: all clients or none; `broken` are the providers whose constructor fails. */
  method Build(c: Config, broken: set<string>) returns (sets: Option<map<string, ProviderSet>>)
    ensures sets.Some? <==> forall name :: name in c.providers ==>
            BuildProvider(c.providers[name], name !in broken).Some?
    ensures sets.Some? ==> BuiltFrom(sets.value, c)
  {
    var built: map<string, ProviderSet> := map[];
    var left := c.providers.Keys;
    while left != {}
      invariant left <= c.providers.Keys && built.Keys == c.providers.Keys - left
      invariant forall name :: name in built ==>
                  name !in broken && BuildProvider(c.providers[name], true) == Some(built[name])
      decreases |left|
    {
      var name :| name in left;
      var one := BuildProvider(c.providers[name], name !in broken);
      if one == None { return None; }
      built := built[name := one.value];
      left := left - {name};
    }
    return Some(built);
  }
}
