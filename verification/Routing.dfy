/** `Config.ModelRoutes` (config/config.go): which provider instance serves a model. */
module Routing {
  import opened Options
  import opened GoStrings
  import opened Config

  type Routes = map<string, string>

  /** The routing relation of a valid configuration: exactly the declared models are routed,
      each to a provider that declares it, and an override is obeyed where there is one. */
  ghost predicate RoutesFit(c: Config, routes: Routes) {
    && (forall model :: model in routes <==> Declared(c, model))
    && (forall model :: model in routes ==> RouteFits(c, model, routes[model]))
  }

  ghost predicate RouteFits(c: Config, model: string, name: string) {
    DeclaredBy(c, model, name) && (Overridden(c, model) ==> OverrideTo(c, model, name))
  }

  // What the code computes, for given orders of iteration

  /** An order in which a loop over a map may meet its keys. */
  ghost predicate Order(order: seq<string>, keys: set<string>) {
    Distinct(order) && SetOf(order) == keys
  }

  /** `overrides`: trimmed keys and values; when two keys trim to the same id, the entry that the
      iteration meets last wins. */
  function TrimmedIn(c: Config, order: seq<string>): map<string, string>
    requires forall i :: 0 <= i < |order| ==> order[i] in c.overrides
  {
    if order == [] then map[] else
      var key := order[|order| - 1];
      TrimmedIn(c, order[..|order| - 1])[TrimSpace(key) := TrimSpace(c.overrides[key])]
  }

  /** `declaredBy` after the listed ids of one provider; blank ids are skipped and an id that is
      listed twice is recorded twice. */
  function Recorded(before: map<string, seq<string>>, ids: seq<string>, name: string): map<string, seq<string>> {
    if ids == [] then before else
      var r := Recorded(before, ids[..|ids| - 1], name);
      var model := ids[|ids| - 1];
      if model == "" then r else r[model := Providers(r, model) + [name]]
  }

  /** `declaredBy` after all providers. */
  function DeclaredIn(c: Config, order: seq<string>): map<string, seq<string>>
    requires forall i :: 0 <= i < |order| ==> order[i] in c.providers
  {
    if order == [] then map[] else
      var name := order[|order| - 1];
      Recorded(DeclaredIn(c, order[..|order| - 1]), ModelIds(c.providers[name]), name)
  }

  predicate Chosen(overrides: map<string, string>, model: string) {
    model in overrides && overrides[model] != ""
  }

  /** An override if there is one, else the only provider. */
  function Select(overrides: map<string, string>, declaredBy: map<string, seq<string>>): Routes {
    map model | model in declaredBy && (Chosen(overrides, model) || |declaredBy[model]| == 1) ::
      if Chosen(overrides, model) then overrides[model] else declaredBy[model][0]
  }

  /** The result when the overrides are met in order `keys` and the providers in order `names`. */
  function RoutesIn(c: Config, keys: seq<string>, names: seq<string>): Routes
    requires forall i :: 0 <= i < |keys| ==> keys[i] in c.overrides
    requires forall i :: 0 <= i < |names| ==> names[i] in c.providers
  {
    Select(TrimmedIn(c, keys), DeclaredIn(c, names))
  }

  // The code

  lemma LongerOrder(order: seq<string>, key: string)
    requires Distinct(order) && key !in order
    ensures Order(order + [key], SetOf(order) + {key}) && (order + [key])[..|order|] == order
  {
  }

  method TrimEntries(c: Config) returns (overrides: map<string, string>, ghost order: seq<string>)
    ensures Order(order, c.overrides.Keys) && overrides == TrimmedIn(c, order)
  {
    overrides, order := map[], [];
    var left := c.overrides.Keys;
    while left != {}
      invariant left <= c.overrides.Keys && Order(order, c.overrides.Keys - left)
      invariant forall i :: 0 <= i < |order| ==> order[i] in c.overrides
      invariant overrides == TrimmedIn(c, order)
      decreases |left|
    {
      var key :| key in left;
      overrides := overrides[TrimSpace(key) := TrimSpace(c.overrides[key])];
      left := left - {key};
      LongerOrder(order, key);
      order := order + [key];
    }
  }

  method TrimOverrides(c: Config) returns (overrides: map<string, string>, ghost order: seq<string>)
    ensures Order(order, c.overrides.Keys) && overrides == TrimmedIn(c, order)
    ensures forall model :: model in overrides <==> Overridden(c, model)
    ensures forall model :: model in overrides ==> OverrideTo(c, model, overrides[model])
  {
    overrides, order := TrimEntries(c);
    TrimmedOverrides(c, order);
  }

  method RecordModels(name: string, p: Provider, before: map<string, seq<string>>)
    returns (declaredBy: map<string, seq<string>>)
    ensures declaredBy == Recorded(before, ModelIds(p), name)
  {
    declaredBy := before;
    ghost var ids := ModelIds(p);
    for i := 0 to |p.models|
      invariant declaredBy == Recorded(before, ids[..i], name)
    {
      var model := TrimSpace(p.models[i]);
      assert ids[..i + 1][..i] == ids[..i] && ids[i] == model;
      if model == "" { continue; }
      declaredBy := declaredBy[model := Providers(declaredBy, model) + [name]];
    }
    assert ids[..|ids|] == ids;
  }

  method RecordProviders(c: Config) returns (declaredBy: map<string, seq<string>>, ghost order: seq<string>)
    ensures Order(order, c.providers.Keys) && declaredBy == DeclaredIn(c, order)
  {
    declaredBy, order := map[], [];
    var left := c.providers.Keys;
    while left != {}
      invariant left <= c.providers.Keys && Order(order, c.providers.Keys - left)
      invariant forall i :: 0 <= i < |order| ==> order[i] in c.providers
      invariant declaredBy == DeclaredIn(c, order)
      decreases |left|
    {
      var name :| name in left;
      declaredBy := RecordModels(name, c.providers[name], declaredBy);
      left := left - {name};
      LongerOrder(order, name);
      order := order + [name];
    }
  }

  method CollectDeclarations(c: Config) returns (declaredBy: map<string, seq<string>>, ghost order: seq<string>)
    ensures Order(order, c.providers.Keys) && declaredBy == DeclaredIn(c, order)
    ensures forall model :: model in declaredBy ==> Declared(c, model)
    ensures Valid(c) ==> Collected(c, c.providers.Keys, declaredBy)
  {
    declaredBy, order := RecordProviders(c);
    forall model | model in declaredBy ensures Declared(c, model) { DeclaredInIsDeclared(c, order, model); }
    if Valid(c) { DeclaredInIsCollected(c, order); }
  }

  method SelectRoutes(overrides: map<string, string>, declaredBy: map<string, seq<string>>) returns (routes: Routes)
    ensures routes == Select(overrides, declaredBy)
  {
    routes := map[];
    var left := declaredBy.Keys;
    ghost var all := Select(overrides, declaredBy);
    while left != {}
      invariant left <= declaredBy.Keys
      invariant routes.Keys == all.Keys - left
      invariant forall model :: model in routes ==> routes[model] == all[model]
      decreases |left|
    {
      var model :| model in left;
      left := left - {model};
      if model in overrides && overrides[model] != "" {
        routes := routes[model := overrides[model]];
        continue;
      }
      if |declaredBy[model]| == 1 { routes := routes[model := declaredBy[model][0]]; }
    }
  }

  /** The result is that of some order of iteration; for a valid configuration it is a routing. */
  method ModelRoutes(c: Config) returns (routes: Routes, ghost keys: seq<string>, ghost names: seq<string>)
    ensures Order(keys, c.overrides.Keys) && Order(names, c.providers.Keys) && routes == RoutesIn(c, keys, names)
    ensures forall model :: model in routes ==> Declared(c, model)
    ensures Valid(c) ==> RoutesFit(c, routes)
  {
    var overrides, declaredBy;
    overrides, keys := TrimOverrides(c);
    declaredBy, names := CollectDeclarations(c);
    routes := SelectRoutes(overrides, declaredBy);
    OnlyDeclaredIsRouted(c, keys, names);
    if Valid(c) { RoutesInFit(c, keys, names); }
  }

  // What it means

  /** Whatever the order, exactly the overridden models are trimmed keys, and each has the value
      of one of its entries. */
  lemma {:induction false} TrimmedMeaning(c: Config, order: seq<string>)
    requires forall i :: 0 <= i < |order| ==> order[i] in c.overrides
    ensures forall i :: 0 <= i < |order| ==> TrimSpace(order[i]) in TrimmedIn(c, order)
    ensures forall model :: model in TrimmedIn(c, order) ==> OverrideTo(c, model, TrimmedIn(c, order)[model])
  {
    if order != [] {
      var front, key := order[..|order| - 1], order[|order| - 1];
      TrimmedMeaning(c, front);
      assert forall i :: 0 <= i < |front| ==> order[i] == front[i];
      assert OverrideTo(c, TrimSpace(key), TrimSpace(c.overrides[key]));
    }
  }

  lemma TrimmedOverrides(c: Config, order: seq<string>)
    requires Order(order, c.overrides.Keys)
    ensures forall model :: Overridden(c, model) <==> model in TrimmedIn(c, order)
    ensures forall model :: model in TrimmedIn(c, order) ==> OverrideTo(c, model, TrimmedIn(c, order)[model])
  {
    TrimmedMeaning(c, order);
    forall model | Overridden(c, model) ensures model in TrimmedIn(c, order) {
      OverriddenMeansKey(c);
      var key :| key in c.overrides.Keys && TrimSpace(key) == model;
      assert key in SetOf(order);
    }
  }

  /** For a provider that lists no id twice and no blank id this is the record of Validate. */
  lemma {:induction false} RecordedIsExtended(before: map<string, seq<string>>, ids: seq<string>, name: string)
    requires Distinct(ids) && "" !in ids
    ensures Recorded(before, ids, name) == Extended(before, SetOf(ids), name)
  {
    if ids == [] {
      assert forall m :: m in before ==> Providers(before, m) + [] == before[m];
    } else {
      var front, model := ids[..|ids| - 1], ids[|ids| - 1];
      RecordedIsExtended(before, front, name);
      assert ids == front + [model];
      assert model !in SetOf(front) && SetOf(ids) == SetOf(front) + {model};
      ExtendedByOne(before, SetOf(front), name, model);
    }
  }

  lemma ExtendedByOne(before: map<string, seq<string>>, models: set<string>, name: string, model: string)
    requires model !in models
    ensures var r := Extended(before, models, name);
            Extended(before, models + {model}, name) == r[model := Providers(r, model) + [name]]
  {
    ExtendedAt(before, models, name, model);
    assert Providers(before, model) + [] == Providers(before, model);
  }

  /** Whatever a provider lists, only ids it declares are recorded for it. */
  lemma {:induction false} RecordedOnlyDeclared(before: map<string, seq<string>>, ids: seq<string>, name: string,
      model: string)
    requires model in Recorded(before, ids, name)
    ensures model in before || (model in ids && model != "")
  {
    if ids != [] && model !in before {
      var front := ids[..|ids| - 1];
      if model in Recorded(before, front, name) { RecordedOnlyDeclared(before, front, name, model); }
    }
  }

  lemma {:induction false} DeclaredInIsDeclared(c: Config, order: seq<string>, model: string)
    requires forall i :: 0 <= i < |order| ==> order[i] in c.providers
    requires model in DeclaredIn(c, order)
    ensures Declared(c, model)
  {
    if order != [] {
      var front, name := order[..|order| - 1], order[|order| - 1];
      RecordedOnlyDeclared(DeclaredIn(c, front), ModelIds(c.providers[name]), name, model);
      if model in DeclaredIn(c, front) {
        DeclaredInIsDeclared(c, front, model);
      } else {
        assert DeclaredBy(c, model, name);
      }
    }
  }

  lemma OnlyDeclaredIsRouted(c: Config, keys: seq<string>, names: seq<string>)
    requires Order(keys, c.overrides.Keys) && Order(names, c.providers.Keys)
    ensures forall model :: model in RoutesIn(c, keys, names) ==> Declared(c, model)
  {
    forall model | model in RoutesIn(c, keys, names) ensures Declared(c, model) {
      DeclaredInIsDeclared(c, names, model);
    }
  }

  lemma RecordedIsCollected(c: Config, done: set<string>, before: map<string, seq<string>>, name: string)
    requires Collected(c, done, before) && name in c.providers && name !in done && GoodModels(c.providers[name])
    ensures Collected(c, done + {name}, Recorded(before, ModelIds(c.providers[name]), name))
  {
    var ids := ModelIds(c.providers[name]);
    RecordedIsExtended(before, ids, name);
    ExtendedIsCollected(c, done, before, name, SetOf(ids));
  }

  /** For a valid configuration, in any order: every declarer of every model, once. */
  lemma {:induction false} DeclaredInIsCollected(c: Config, order: seq<string>)
    requires Valid(c) && Distinct(order) && forall i :: 0 <= i < |order| ==> order[i] in c.providers
    ensures Collected(c, SetOf(order), DeclaredIn(c, order))
  {
    if order != [] {
      var front, name := order[..|order| - 1], order[|order| - 1];
      DeclaredInIsCollected(c, front);
      assert GoodProvider(c.providers[name]);
      assert order == front + [name] && name !in SetOf(front) && SetOf(order) == SetOf(front) + {name};
      RecordedIsCollected(c, SetOf(front), DeclaredIn(c, front), name);
    }
  }

  lemma OverrideRouteFits(c: Config, model: string, name: string)
    requires GoodOverrides(c) && OverrideTo(c, model, name)
    ensures name != "" && RouteFits(c, model, name)
  {
    var key :| key in c.overrides && TrimSpace(key) == model && TrimSpace(c.overrides[key]) == name;
    assert GoodOverride(c, key);
  }

  lemma ImplicitRouteFits(c: Config, declaredBy: map<string, seq<string>>, model: string)
    requires Decided(c) && Collected(c, c.providers.Keys, declaredBy) && model in declaredBy && !Overridden(c, model)
    ensures |declaredBy[model]| == 1 && RouteFits(c, model, declaredBy[model][0])
  {
    assert CollectedAt(c, c.providers.Keys, declaredBy, model);
    if |declaredBy[model]| > 1 { UndecidedModel(c, declaredBy, model); }
    assert declaredBy[model][0] in declaredBy[model];
  }

  lemma AllDeclaredRouted(c: Config, declaredBy: map<string, seq<string>>)
    requires Collected(c, c.providers.Keys, declaredBy)
    ensures forall model :: Declared(c, model) ==> model in declaredBy
  {
    forall model | Declared(c, model) ensures model in declaredBy {
      var name :| DeclaredBy(c, model, name);
      assert CollectedAt(c, c.providers.Keys, declaredBy, model);
    }
  }

  lemma SelectedFits(c: Config, overrides: map<string, string>, declaredBy: map<string, seq<string>>, model: string)
    requires GoodOverrides(c) && Decided(c) && Collected(c, c.providers.Keys, declaredBy) && model in declaredBy
    requires Overridden(c, model) <==> model in overrides
    requires model in overrides ==> OverrideTo(c, model, overrides[model])
    ensures model in Select(overrides, declaredBy) && RouteFits(c, model, Select(overrides, declaredBy)[model])
  {
    if model in overrides {
      OverrideRouteFits(c, model, overrides[model]);
    } else {
      ImplicitRouteFits(c, declaredBy, model);
    }
  }

  /** In every order of iteration the result for a valid configuration is a routing. */
  lemma RoutesInFit(c: Config, keys: seq<string>, names: seq<string>)
    requires Valid(c) && Order(keys, c.overrides.Keys) && Order(names, c.providers.Keys)
    ensures RoutesFit(c, RoutesIn(c, keys, names))
  {
    var overrides, declaredBy := TrimmedIn(c, keys), DeclaredIn(c, names);
    TrimmedOverrides(c, keys);
    DeclaredInIsCollected(c, names);
    AllDeclaredRouted(c, declaredBy);
    OnlyDeclaredIsRouted(c, keys, names);
    forall model | Declared(c, model)
      ensures model in RoutesIn(c, keys, names) && RouteFits(c, model, RoutesIn(c, keys, names)[model])
    {
      SelectedFits(c, overrides, declaredBy, model);
    }
  }

  // Does the result depend on the order?

  /** No two override keys that trim to the same id name different providers. */
  ghost predicate OverridesAgree(c: Config) {
    forall model, a, b :: OverrideTo(c, model, a) && OverrideTo(c, model, b) ==> a == b
  }

  ghost predicate SameInAllOrders(c: Config) {
    forall k1, n1, k2, n2 ::
      Order(k1, c.overrides.Keys) && Order(n1, c.providers.Keys) && Order(k2, c.overrides.Keys) &&
          Order(n2, c.providers.Keys) ==>
        RoutesIn(c, k1, n1) == RoutesIn(c, k2, n2)
  }

  lemma AgreeingOverridesDecide(c: Config, model: string, a: string, b: string)
    requires Decided(c) && OverridesAgree(c) && RouteFits(c, model, a) && RouteFits(c, model, b)
    ensures a == b
  {
  }

  lemma AgreeingOverridesDetermineRoutes(c: Config, r1: Routes, r2: Routes)
    requires Valid(c) && OverridesAgree(c) && RoutesFit(c, r1) && RoutesFit(c, r2)
    ensures r1 == r2
  {
    forall model | model in r1 ensures model in r2 && r1[model] == r2[model] {
      assert RouteFits(c, model, r1[model]);
      AgreeingOverridesDecide(c, model, r1[model], r2[model]);
    }
  }

  lemma {:induction false} SomeOrder(keys: set<string>) returns (order: seq<string>)
    ensures Order(order, keys)
  {
    order := [];
    if keys != {} {
      var key :| key in keys;
      order := OrderEndingWith(keys, key);
    }
  }

  lemma {:induction false} OrderEndingWith(keys: set<string>, last: string) returns (order: seq<string>)
    requires last in keys
    ensures Order(order, keys) && order != [] && order[|order| - 1] == last
    decreases keys, 0
  {
    var rest := keys - {last};
    var front: seq<string> := [];
    if rest != {} {
      var key :| key in rest;
      front := OrderEndingWith(rest, key);
    }
    LongerOrder(front, last);
    order := front + [last];
  }

  lemma LastEntryIsKept(c: Config, keys: seq<string>)
    requires keys != [] && forall i :: 0 <= i < |keys| ==> keys[i] in c.overrides
    ensures var key := keys[|keys| - 1]; var trimmed := TrimmedIn(c, keys);
            TrimSpace(key) in trimmed && trimmed[TrimSpace(key)] == TrimSpace(c.overrides[key])
  {
  }

  lemma EntryIsDeclared(c: Config, key: string, names: seq<string>)
    requires Valid(c) && key in c.overrides && Order(names, c.providers.Keys)
    ensures TrimSpace(c.overrides[key]) != "" && TrimSpace(key) in DeclaredIn(c, names)
  {
    assert GoodOverride(c, key);
    DeclaredInIsCollected(c, names);
    AllDeclaredRouted(c, DeclaredIn(c, names));
    assert Declared(c, TrimSpace(key));
  }

  /** An iteration that meets an entry last routes its model by that entry. */
  lemma LastEntryWins(c: Config, keys: seq<string>, names: seq<string>)
    requires Valid(c) && Order(keys, c.overrides.Keys) && Order(names, c.providers.Keys) && keys != []
    ensures var key := keys[|keys| - 1]; var routes := RoutesIn(c, keys, names);
            TrimSpace(key) in routes && routes[TrimSpace(key)] == TrimSpace(c.overrides[key])
  {
    LastEntryIsKept(c, keys);
    EntryIsDeclared(c, keys[|keys| - 1], names);
  }

  lemma OnlyRoute(c: Config, keys: seq<string>, names: seq<string>, model: string)
    requires Valid(c) && Order(keys, c.overrides.Keys) && Order(names, c.providers.Keys)
    requires keys != [] && TrimSpace(keys[|keys| - 1]) == model && forall m :: Declared(c, m) ==> m == model
    ensures RoutesIn(c, keys, names) == map[model := TrimSpace(c.overrides[keys[|keys| - 1]])]
  {
    LastEntryWins(c, keys, names);
    OnlyDeclaredIsRouted(c, keys, names);
  }

  /** `ModelRoutes` of a valid configuration gives the same in every order of iteration exactly
      when override keys that become equal by trimming name the same provider. */
  lemma RoutesAreDeterminedExactlyWhen(c: Config)
    requires Valid(c)
    ensures SameInAllOrders(c) <==> OverridesAgree(c)
  {
    if OverridesAgree(c) {
      forall k1, n1, k2, n2 |
        Order(k1, c.overrides.Keys) && Order(n1, c.providers.Keys) && Order(k2, c.overrides.Keys) &&
            Order(n2, c.providers.Keys)
        ensures RoutesIn(c, k1, n1) == RoutesIn(c, k2, n2)
      {
        RoutesInFit(c, k1, n1);
        RoutesInFit(c, k2, n2);
        AgreeingOverridesDetermineRoutes(c, RoutesIn(c, k1, n1), RoutesIn(c, k2, n2));
      }
    } else {
      var k1, k2, names := TwoOrdersDiffer(c);
    }
  }

  lemma TwoOrdersDiffer(c: Config) returns (k1: seq<string>, k2: seq<string>, names: seq<string>)
    requires Valid(c) && !OverridesAgree(c)
    ensures Order(k1, c.overrides.Keys) && Order(k2, c.overrides.Keys) && Order(names, c.providers.Keys)
    ensures RoutesIn(c, k1, names) != RoutesIn(c, k2, names)
  {
    var model, a, b :| OverrideTo(c, model, a) && OverrideTo(c, model, b) && a != b;
    var key1 :| key1 in c.overrides && TrimSpace(key1) == model && TrimSpace(c.overrides[key1]) == a;
    var key2 :| key2 in c.overrides && TrimSpace(key2) == model && TrimSpace(c.overrides[key2]) == b;
    k1 := OrderEndingWith(c.overrides.Keys, key1);
    k2 := OrderEndingWith(c.overrides.Keys, key2);
    names := SomeOrder(c.providers.Keys);
    LastEntryWins(c, k1, names);
    LastEntryWins(c, k2, names);
  }

  /** Keys that stay distinct after trimming are enough. */
  lemma DistinctKeysDetermineRoutes(c: Config)
    requires Valid(c)
    requires forall k1, k2 :: k1 in c.overrides && k2 in c.overrides && k1 != k2 ==> TrimSpace(k1) != TrimSpace(k2)
    ensures SameInAllOrders(c)
  {
    RoutesAreDeterminedExactlyWhen(c);
  }

  // A valid configuration whose routing depends on the order: one model, two providers, and two
  // override keys that differ by a space.
  const EITHER := Provider(["m"], Some(Gemini("key", "", "")), None, None, None, None, None, None, None, None, None)
  const AMBIGUOUS := Config(Server("", "", ""), map["a" := EITHER, "b" := EITHER], map["m" := "a", " m" := "b"],
                            "dsn", Logfire("token", "", "", "", ""))

  lemma TrimmedNames()
    ensures TrimSpace("m") == "m" && TrimSpace(" m") == "m" && TrimSpace("a") == "a" && TrimSpace("b") == "b"
    ensures !Blank("key") && !Blank("dsn") && !Blank("token")
  {
    TrimmedIsKept("m");
    TrimmedIsKept("a");
    TrimmedIsKept("b");
    TrimmedIsKept("key");
    TrimmedIsKept("dsn");
    TrimmedIsKept("token");
    TrimPast(" ", "m", "");
    assert " " + "m" + "" == " m";
  }

  lemma EitherIsGood()
    ensures GoodProvider(EITHER) && forall model :: Declares(EITHER, model) <==> model == "m"
  {
    TrimmedNames();
    assert ModelIds(EITHER) == ["m"];
    assert Has(EITHER, KGemini) && forall other :: Has(EITHER, other) ==> other == KGemini;
  }

  lemma AmbiguousOverridesAreGood()
    ensures GoodOverrides(AMBIGUOUS) && Overridden(AMBIGUOUS, "m")
  {
    var c := AMBIGUOUS;
    TrimmedNames();
    EitherIsGood();
    forall key | key in c.overrides ensures GoodOverride(c, key) { assert key == "m" || key == " m"; }
    assert OverrideTo(c, "m", "a") by { assert "m" in c.overrides; }
  }

  lemma AmbiguousDeclaresOne(model: string)
    requires Declared(AMBIGUOUS, model)
    ensures model == "m"
  {
    EitherIsGood();
    var name :| DeclaredBy(AMBIGUOUS, model, name);
    assert name in {"a", "b"};
  }

  lemma AmbiguousIsValid()
    ensures Valid(AMBIGUOUS)
  {
    TrimmedNames();
    EitherIsGood();
    AmbiguousOverridesAreGood();
    forall model | Declared(AMBIGUOUS, model) ensures model == "m" { AmbiguousDeclaresOne(model); }
  }

  lemma OrdersOfAmbiguous()
    ensures Order(["m", " m"], AMBIGUOUS.overrides.Keys) && Order([" m", "m"], AMBIGUOUS.overrides.Keys)
    ensures Order(["a", "b"], AMBIGUOUS.providers.Keys)
  {
    assert AMBIGUOUS.overrides.Keys == {"m", " m"} && AMBIGUOUS.providers.Keys == {"a", "b"};
    assert "m" != " m" by { assert |"m"| != |" m"|; }
  }

  lemma AmbiguousRoute(keys: seq<string>)
    requires Order(keys, AMBIGUOUS.overrides.Keys) && |keys| == 2 && keys[1] in {"m", " m"}
    ensures RoutesIn(AMBIGUOUS, keys, ["a", "b"]) == map["m" := TrimSpace(AMBIGUOUS.overrides[keys[1]])]
  {
    TrimmedNames();
    AmbiguousIsValid();
    OrdersOfAmbiguous();
    forall m | Declared(AMBIGUOUS, m) ensures m == "m" { AmbiguousDeclaresOne(m); }
    OnlyRoute(AMBIGUOUS, keys, ["a", "b"], "m");
  }

  lemma AmbiguousHasTwoRoutings()
    ensures Valid(AMBIGUOUS)
    ensures Order(["m", " m"], AMBIGUOUS.overrides.Keys) && Order([" m", "m"], AMBIGUOUS.overrides.Keys)
    ensures Order(["a", "b"], AMBIGUOUS.providers.Keys)
    ensures RoutesIn(AMBIGUOUS, ["m", " m"], ["a", "b"]) == map["m" := "b"]
    ensures RoutesIn(AMBIGUOUS, [" m", "m"], ["a", "b"]) == map["m" := "a"]
  {
    TrimmedNames();
    AmbiguousIsValid();
    OrdersOfAmbiguous();
    AmbiguousRoute(["m", " m"]);
    AmbiguousRoute([" m", "m"]);
  }
}
