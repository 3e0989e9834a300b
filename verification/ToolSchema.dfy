/** The tool schema sanitizer for Gemini (internal/infra/genai/schema.go): it removes the keyword
    `additionalProperties` from a JSON Schema and must change nothing else. */
module ToolSchema {
  import opened Options

  datatype Json =
      Null | Bool(b: bool) | Num(n: real) | Str(s: string) | Arr(items: seq<Json>) | Obj(fields: map<string, Json>)

  const ADDITIONAL := "additionalProperties"

  function Sanitize(node: Json): Json
    decreases node, 0
  {
    match node
    case Obj(fields) => Obj(map key | key in fields && key != ADDITIONAL :: SanitizeField(key, fields[key]))
    case Arr(items) => Arr(seq(|items|, i requires 0 <= i < |items| => Sanitize(items[i])))
    case _ => node
  }

  /** Below `properties` the names are not keywords, so all of them are kept. */
  function SanitizeField(key: string, child: Json): Json
    decreases child, 1
  {
    if key == "properties" && child.Obj?
    then Obj(map name | name in child.fields :: Sanitize(child.fields[name]))
    else Sanitize(child)
  }

  /** `sanitizeSchemaNode`; the order in which a map is walked is any order. */
  method SanitizeNode(node: Json) returns (out: Json)
    ensures out == Sanitize(node)
    decreases node, 0
  {
    match node {
      case Obj(fields) =>
        var copied: map<string, Json> := map[];
        var keys := fields.Keys;
        while keys != {}
          invariant keys <= fields.Keys
          invariant copied.Keys == fields.Keys - keys - {ADDITIONAL}
          invariant forall key :: key in copied ==> copied[key] == SanitizeField(key, fields[key])
        {
          var key :| key in keys;
          keys := keys - {key};
          if key == ADDITIONAL { continue; }
          var child := fields[key];
          if key == "properties" {
            if child.Obj? {
              var table := SanitizeTable(child);
              copied := copied[key := Obj(table)];
              continue;
            }
          }
          var clean := SanitizeNode(child);
          copied := copied[key := clean];
        }
        out := Obj(copied);
      case Arr(items) =>
        var copied: seq<Json> := [];
        for i := 0 to |items|
          invariant |copied| == i
          invariant forall j :: 0 <= j < i ==> copied[j] == Sanitize(items[j])
        {
          var clean := SanitizeNode(items[i]);
          copied := copied + [clean];
        }
        out := Arr(copied);
      case _ => out := node;
    }
  }

  method SanitizeTable(properties: Json) returns (table: map<string, Json>)
    requires properties.Obj?
    ensures table == map name | name in properties.fields :: Sanitize(properties.fields[name])
    decreases properties, 1
  {
    table := map[];
    var names := properties.fields.Keys;
    while names != {}
      invariant names <= properties.fields.Keys
      invariant table.Keys == properties.fields.Keys - names
      invariant forall name :: name in table ==> table[name] == Sanitize(properties.fields[name])
    {
      var name :| name in names;
      names := names - {name};
      var clean := SanitizeNode(properties.fields[name]);
      table := table[name := clean];
    }
  }

  // What is removed and what is kept

  /** One step down a schema: to a property of the `properties` table, to the value of a
      keyword, or to an element of a list. */
  datatype Step = Property(name: string) | Keyword(key: string) | Element(i: nat)

  function Child(node: Json, step: Step): Option<Json> {
    match step
    case Property(name) =>
      if node.Obj? && "properties" in node.fields && node.fields["properties"].Obj? &&
          name in node.fields["properties"].fields
      then Some(node.fields["properties"].fields[name]) else None
    case Keyword(key) =>
      if node.Obj? && key in node.fields && !(key == "properties" && node.fields[key].Obj?) then Some(node.fields[key])
          else None
    case Element(i) => if node.Arr? && i < |node.items| then Some(node.items[i]) else None
  }

  function At(node: Json, path: seq<Step>): Option<Json>
    decreases |path|
  {
    if path == [] then Some(node)
    else
      var child := Child(node, path[0]);
      if child == None then None else At(child.value, path[1..])
  }

  lemma FieldOfSanitized(fields: map<string, Json>, key: string)
    ensures var clean := Sanitize(Obj(fields)).fields; key in clean <==> key in fields && key != ADDITIONAL
    ensures var clean := Sanitize(Obj(fields)).fields; key in clean ==> clean[key] == SanitizeField(key, fields[key])
    ensures key in fields && fields[key].Obj? ==> SanitizeField(key, fields[key]).Obj?
    ensures key in fields && !(key == "properties" && fields[key].Obj?) ==>
            SanitizeField(key, fields[key]) == Sanitize(fields[key])
    ensures key in fields && !fields[key].Obj? ==> !Sanitize(fields[key]).Obj?
  {
  }

  lemma ChildOfSanitized(node: Json, step: Step)
    ensures Child(Sanitize(node), step) ==
            if step == Keyword(ADDITIONAL) || Child(node, step) == None then None
                else Some(Sanitize(Child(node, step).value))
  {
    match step
    case Property(name) => if node.Obj? { FieldOfSanitized(node.fields, "properties"); }
    case Keyword(key) => if node.Obj? { FieldOfSanitized(node.fields, key); }
    case Element(_) =>
  }

  /** A place of the sanitized schema is a place of the original that is not below the keyword,
      and holds the sanitized node; places below a property of that name are places like any
      other. */
  lemma {:induction false} KeptExactlyOutsideTheKeyword(node: Json, path: seq<Step>)
    ensures At(Sanitize(node), path) ==
            if Keyword(ADDITIONAL) in path || At(node, path) == None then None else Some(Sanitize(At(node, path).value))
    decreases |path|
  {
    if path != [] {
      ChildOfSanitized(node, path[0]);
      if path[0] != Keyword(ADDITIONAL) && Child(node, path[0]).Some? {
        KeptExactlyOutsideTheKeyword(Child(node, path[0]).value, path[1..]);
      }
    }
  }

  /** The keyword occurs nowhere. */
  predicate Clean(node: Json)
    decreases node
  {
    match node
    case Obj(fields) =>
      && ADDITIONAL !in fields
      && forall key :: key in fields ==>
           if key == "properties" && fields[key].Obj?
           then forall name :: name in fields[key].fields ==> Clean(fields[key].fields[name])
           else Clean(fields[key])
    case Arr(items) => forall i :: 0 <= i < |items| ==> Clean(items[i])
    case _ => true
  }

  lemma {:induction false} SanitizedIsClean(node: Json)
    ensures Clean(Sanitize(node))
    decreases node
  {
    match node
    case Obj(fields) =>
      forall key | key in fields ensures Clean(Sanitize(fields[key])) { SanitizedIsClean(fields[key]); }
      if "properties" in fields && fields["properties"].Obj? {
        var properties := fields["properties"].fields;
        forall name | name in properties ensures Clean(Sanitize(properties[name])) {
          SanitizedIsClean(properties[name]);
        }
      }
    case Arr(items) =>
      forall i | 0 <= i < |items| ensures Clean(Sanitize(items[i])) { SanitizedIsClean(items[i]); }
    case _ =>
  }

  /** Exactly the schemas without the keyword are left as they are. */
  lemma {:induction false} KeptExactlyWhenClean(node: Json)
    ensures Clean(node) <==> Sanitize(node) == node
    decreases node
  {
    if Sanitize(node) == node { SanitizedIsClean(node); }
    if Clean(node) { CleanIsKept(node); }
  }

  lemma {:induction false} CleanIsKept(node: Json)
    requires Clean(node)
    ensures Sanitize(node) == node
    decreases node
  {
    match node
    case Obj(fields) =>
      forall key | key in fields ensures SanitizeField(key, fields[key]) == fields[key] {
        if key == "properties" && fields[key].Obj? {
          var properties := fields[key].fields;
          forall name | name in properties ensures Sanitize(properties[name]) == properties[name] {
            CleanIsKept(properties[name]);
          }
        } else {
          CleanIsKept(fields[key]);
        }
      }
    case Arr(items) =>
      forall i | 0 <= i < |items| ensures Sanitize(items[i]) == items[i] { CleanIsKept(items[i]); }
    case _ =>
  }

  lemma SanitizeIsIdempotent(node: Json)
    ensures Sanitize(Sanitize(node)) == Sanitize(node)
  {
    SanitizedIsClean(node);
    CleanIsKept(Sanitize(node));
  }

  // Meaning

  predicate HasType(v: Json, name: string) {
    match v
    case Null => name == "null"
    case Bool(_) => name == "boolean"
    case Num(n) => name == "number" || (name == "integer" && n.Floor as real == n)
    case Str(_) => name == "string"
    case Arr(_) => name == "array"
    case Obj(_) => name == "object"
  }

  predicate TypeFits(fields: map<string, Json>, v: Json) {
    "type" in fields ==>
      match fields["type"]
      case Str(name) => HasType(v, name)
      case Arr(names) => exists i :: 0 <= i < |names| && names[i].Str? && HasType(v, names[i].s)
      case _ => true
  }

  predicate RequiredFits(fields: map<string, Json>, v: Json) {
    "required" in fields && fields["required"].Arr? && v.Obj? ==>
      var names := fields["required"].items;
      forall i :: 0 <= i < |names| && names[i].Str? ==> names[i].s in v.fields
  }

  predicate LengthFits(fields: map<string, Json>, v: Json) {
    && ("minLength" in fields && fields["minLength"].Num? && v.Str? ==> fields["minLength"].n <= |v.s| as real)
    && ("maxLength" in fields && fields["maxLength"].Num? && v.Str? ==> |v.s| as real <= fields["maxLength"].n)
  }

  predicate ValueFits(fields: map<string, Json>, v: Json) {
    && ("enum" in fields && fields["enum"].Arr? ==> v in fields["enum"].items)
    && ("const" in fields ==> v == fields["const"])
  }

  predicate Names(fields: map<string, Json>, name: string) {
    "properties" in fields && fields["properties"].Obj? && name in fields["properties"].fields
  }

  /** Whether a value is valid under a schema, for these keywords of JSON Schema draft 2020-12.
      With `closed` false, `additionalProperties` is not looked at, anywhere. */
  ghost predicate Accepts(schema: Json, v: Json, closed: bool)
    decreases schema, 1
  {
    match schema
    case Bool(b) => b
    case Obj(fields) =>
      && TypeFits(fields, v) && RequiredFits(fields, v) && LengthFits(fields, v) && ValueFits(fields, v)
      && PropertiesFit(schema, v, closed) && (closed ==> AdditionalFit(schema, v)) && ItemsFit(schema, v, closed)
      && AllFit(schema, v, closed) && AnyFits(schema, v, closed) && NotFits(schema, v, closed)
    case _ => true
  }

  ghost predicate PropertiesFit(schema: Json, v: Json, closed: bool)
    requires schema.Obj?
    decreases schema, 0
  {
    v.Obj? ==> forall name :: name in v.fields && Names(schema.fields, name) ==>
      Accepts(schema.fields["properties"].fields[name], v.fields[name], closed)
  }

  /** Section 10.3.2.3 of JSON Schema Core: the keyword speaks of the names that `properties`
      does not list. */
  ghost predicate AdditionalFit(schema: Json, v: Json)
    requires schema.Obj?
    decreases schema, 0
  {
    v.Obj? && ADDITIONAL in schema.fields ==> forall name :: name in v.fields && !Names(schema.fields, name) ==>
      Accepts(schema.fields[ADDITIONAL], v.fields[name], true)
  }

  ghost predicate ItemsFit(schema: Json, v: Json, closed: bool)
    requires schema.Obj?
    decreases schema, 0
  {
    v.Arr? && "items" in schema.fields ==> forall i :: 0 <= i < |v.items| ==>
        Accepts(schema.fields["items"], v.items[i], closed)
  }

  predicate Lists(schema: Json, key: string, i: int) {
    schema.Obj? && key in schema.fields && schema.fields[key].Arr? && 0 <= i < |schema.fields[key].items|
  }

  ghost predicate AllFit(schema: Json, v: Json, closed: bool)
    requires schema.Obj?
    decreases schema, 0
  {
    forall i :: Lists(schema, "allOf", i) ==> Accepts(schema.fields["allOf"].items[i], v, closed)
  }

  ghost predicate AnyFits(schema: Json, v: Json, closed: bool)
    requires schema.Obj?
    decreases schema, 0
  {
    "anyOf" in schema.fields && schema.fields["anyOf"].Arr? ==>
      exists i :: Lists(schema, "anyOf", i) && Accepts(schema.fields["anyOf"].items[i], v, closed)
  }

  ghost predicate NotFits(schema: Json, v: Json, closed: bool)
    requires schema.Obj?
    decreases schema, 0
  {
    "not" in schema.fields ==> !Accepts(schema.fields["not"], v, closed)
  }

  /** The values that `enum` and `const` list do not contain the keyword. They are data, not
      schemas, but the sanitizer walks into them. */
  predicate ListsCleanValues(schema: Json)
    decreases schema
  {
    schema.Obj? ==>
      var fields := schema.fields;
      && ("enum" in fields ==> Clean(fields["enum"]))
      && ("const" in fields ==> Clean(fields["const"]))
      && ("items" in fields ==> ListsCleanValues(fields["items"]))
      && ("not" in fields ==> ListsCleanValues(fields["not"]))
      && ("allOf" in fields && fields["allOf"].Arr? ==> forall i :: 0 <= i < |fields["allOf"].items| ==>
          ListsCleanValues(fields["allOf"].items[i]))
      && ("anyOf" in fields && fields["anyOf"].Arr? ==> forall i :: 0 <= i < |fields["anyOf"].items| ==>
          ListsCleanValues(fields["anyOf"].items[i]))
      && ("properties" in fields && fields["properties"].Obj? ==>
            forall name :: name in fields["properties"].fields ==> ListsCleanValues(fields["properties"].fields[name]))
  }

  lemma TypeAgrees(fields: map<string, Json>, v: Json)
    ensures TypeFits(Sanitize(Obj(fields)).fields, v) <==> TypeFits(fields, v)
  {
    FieldOfSanitized(fields, "type");
    if "type" in fields && fields["type"].Arr? {
      var names := fields["type"].items;
      assert forall i :: 0 <= i < |names| ==> Sanitize(fields["type"]).items[i] == Sanitize(names[i]);
    }
  }

  lemma RequiredAgrees(fields: map<string, Json>, v: Json)
    ensures RequiredFits(Sanitize(Obj(fields)).fields, v) <==> RequiredFits(fields, v)
  {
    FieldOfSanitized(fields, "required");
    if "required" in fields && fields["required"].Arr? {
      var names := fields["required"].items;
      assert forall i :: 0 <= i < |names| ==> Sanitize(fields["required"]).items[i] == Sanitize(names[i]);
    }
  }

  lemma LengthAgrees(fields: map<string, Json>, v: Json)
    ensures LengthFits(Sanitize(Obj(fields)).fields, v) <==> LengthFits(fields, v)
  {
    FieldOfSanitized(fields, "minLength");
    FieldOfSanitized(fields, "maxLength");
  }

  lemma ValueAgrees(fields: map<string, Json>, v: Json)
    requires ListsCleanValues(Obj(fields))
    ensures ValueFits(Sanitize(Obj(fields)).fields, v) <==> ValueFits(fields, v)
  {
    FieldOfSanitized(fields, "enum");
    FieldOfSanitized(fields, "const");
    if "enum" in fields { CleanIsKept(fields["enum"]); }
    if "const" in fields { CleanIsKept(fields["const"]); }
  }

  lemma {:induction false} PropertiesAgree(schema: Json, v: Json, closed: bool)
    requires schema.Obj? && ListsCleanValues(schema)
    ensures PropertiesFit(Sanitize(schema), v, closed) <==> PropertiesFit(schema, v, false)
    decreases schema, 0
  {
    if v.Obj? {
      FieldOfSanitized(schema.fields, "properties");
      forall name | name in v.fields && Names(schema.fields, name)
        ensures Sanitize(schema).fields["properties"].fields[name] == Sanitize(schema.fields["properties"].fields[name])
        ensures Accepts(Sanitize(schema.fields["properties"].fields[name]), v.fields[name], closed) <==>
                Accepts(schema.fields["properties"].fields[name], v.fields[name], false)
      {
        OnlyTheKeywordIsLost(schema.fields["properties"].fields[name], v.fields[name], closed);
      }
    }
  }

  lemma {:induction false} ItemsAgree(schema: Json, v: Json, closed: bool)
    requires schema.Obj? && ListsCleanValues(schema)
    ensures ItemsFit(Sanitize(schema), v, closed) <==> ItemsFit(schema, v, false)
    decreases schema, 0
  {
    if v.Arr? && "items" in schema.fields {
      FieldOfSanitized(schema.fields, "items");
      forall i | 0 <= i < |v.items|
        ensures Accepts(Sanitize(schema.fields["items"]), v.items[i], closed) <==>
                Accepts(schema.fields["items"], v.items[i], false)
      {
        OnlyTheKeywordIsLost(schema.fields["items"], v.items[i], closed);
      }
    }
  }

  lemma {:induction false} ListedAgree(schema: Json, key: string, v: Json, closed: bool)
    requires schema.Obj? && ListsCleanValues(schema) && key in {"allOf", "anyOf"}
    ensures key in Sanitize(schema).fields && Sanitize(schema).fields[key].Arr? <==>
            key in schema.fields && schema.fields[key].Arr?
    ensures forall i :: Lists(Sanitize(schema), key, i) <==> Lists(schema, key, i)
    ensures forall i :: Lists(schema, key, i) && Lists(Sanitize(schema), key, i) ==>
              (Accepts(Sanitize(schema).fields[key].items[i], v, closed) <==>
                  Accepts(schema.fields[key].items[i], v, false))
    decreases schema, 0
  {
    FieldOfSanitized(schema.fields, key);
    forall i | Lists(schema, key, i)
      ensures Accepts(Sanitize(schema).fields[key].items[i], v, closed) <==>
              Accepts(schema.fields[key].items[i], v, false)
    {
      OnlyTheKeywordIsLost(schema.fields[key].items[i], v, closed);
    }
  }

  lemma {:induction false} CombinationsAgree(schema: Json, v: Json, closed: bool)
    requires schema.Obj? && ListsCleanValues(schema)
    ensures AllFit(Sanitize(schema), v, closed) <==> AllFit(schema, v, false)
    ensures AnyFits(Sanitize(schema), v, closed) <==> AnyFits(schema, v, false)
    decreases schema, 1
  {
    ListedAgree(schema, "allOf", v, closed);
    ListedAgree(schema, "anyOf", v, closed);
  }

  lemma {:induction false} NegationsAgree(schema: Json, v: Json, closed: bool)
    requires schema.Obj? && ListsCleanValues(schema)
    ensures NotFits(Sanitize(schema), v, closed) <==> NotFits(schema, v, false)
    decreases schema, 0
  {
    FieldOfSanitized(schema.fields, "not");
    if "not" in schema.fields { OnlyTheKeywordIsLost(schema.fields["not"], v, closed); }
  }

  /** The sanitized schema means the original one without its `additionalProperties`, no more
      and no less. */
  lemma {:induction false} OnlyTheKeywordIsLost(schema: Json, v: Json, closed: bool)
    requires ListsCleanValues(schema)
    ensures Accepts(Sanitize(schema), v, closed) <==> Accepts(schema, v, false)
    decreases schema, 2
  {
    if schema.Obj? {
      TypeAgrees(schema.fields, v);
      RequiredAgrees(schema.fields, v);
      LengthAgrees(schema.fields, v);
      ValueAgrees(schema.fields, v);
      PropertiesAgree(schema, v, closed);
      ItemsAgree(schema, v, closed);
      CombinationsAgree(schema, v, closed);
      NegationsAgree(schema, v, closed);
      FieldOfSanitized(schema.fields, ADDITIONAL);
      assert AdditionalFit(Sanitize(schema), v);
    }
  }

  /** No schema under a `not` contains the keyword. */
  predicate NegatesOnlyClean(schema: Json)
    decreases schema
  {
    schema.Obj? ==>
      var fields := schema.fields;
      && ("not" in fields ==> Clean(fields["not"]))
      && ("items" in fields ==> NegatesOnlyClean(fields["items"]))
      && ("allOf" in fields && fields["allOf"].Arr? ==> forall i :: 0 <= i < |fields["allOf"].items| ==>
          NegatesOnlyClean(fields["allOf"].items[i]))
      && ("anyOf" in fields && fields["anyOf"].Arr? ==> forall i :: 0 <= i < |fields["anyOf"].items| ==>
          NegatesOnlyClean(fields["anyOf"].items[i]))
      && ("properties" in fields && fields["properties"].Obj? ==>
            forall name :: name in fields["properties"].fields ==> NegatesOnlyClean(fields["properties"].fields[name]))
  }

  lemma {:induction false} CleanListsCleanValues(schema: Json)
    requires Clean(schema)
    ensures ListsCleanValues(schema)
    decreases schema
  {
    if schema.Obj? {
      forall key | key in schema.fields && key in {"items", "not"} ensures ListsCleanValues(schema.fields[key]) {
        CleanListsCleanValues(schema.fields[key]);
      }
      forall key, i | key in {"allOf", "anyOf"} && Lists(schema, key, i)
        ensures ListsCleanValues(schema.fields[key].items[i]) {
        assert Clean(schema.fields[key]);
        CleanListsCleanValues(schema.fields[key].items[i]);
      }
      forall name | Names(schema.fields, name) ensures ListsCleanValues(schema.fields["properties"].fields[name]) {
        CleanListsCleanValues(schema.fields["properties"].fields[name]);
      }
    }
  }

  lemma CleanMeansTheSameOpen(schema: Json, v: Json)
    requires Clean(schema)
    ensures Accepts(schema, v, true) <==> Accepts(schema, v, false)
  {
    CleanListsCleanValues(schema);
    CleanIsKept(schema);
    OnlyTheKeywordIsLost(schema, v, true);
  }

  lemma {:induction false} OpeningLoosensBelow(schema: Json, v: Json)
    requires schema.Obj? && ListsCleanValues(schema) && NegatesOnlyClean(schema)
    ensures PropertiesFit(schema, v, true) ==> PropertiesFit(schema, v, false)
    ensures ItemsFit(schema, v, true) ==> ItemsFit(schema, v, false)
    decreases schema, 0
  {
    var fields := schema.fields;
    if v.Obj? && PropertiesFit(schema, v, true) {
      forall name | name in v.fields && Names(fields, name)
        ensures Accepts(fields["properties"].fields[name], v.fields[name], false) {
        OpeningLoosens(fields["properties"].fields[name], v.fields[name]);
      }
    }
    if v.Arr? && "items" in fields && ItemsFit(schema, v, true) {
      forall i | 0 <= i < |v.items| ensures Accepts(fields["items"], v.items[i], false) {
        OpeningLoosens(fields["items"], v.items[i]);
      }
    }
  }

  lemma {:induction false} OpeningLoosens(schema: Json, v: Json)
    requires ListsCleanValues(schema) && NegatesOnlyClean(schema) && Accepts(schema, v, true)
    ensures Accepts(schema, v, false)
    decreases schema, 1
  {
    if schema.Obj? {
      var fields := schema.fields;
      OpeningLoosensBelow(schema, v);
      forall i | Lists(schema, "allOf", i) ensures Accepts(fields["allOf"].items[i], v, false) {
        OpeningLoosens(fields["allOf"].items[i], v);
      }
      if "anyOf" in fields && fields["anyOf"].Arr? {
        var i :| Lists(schema, "anyOf", i) && Accepts(fields["anyOf"].items[i], v, true);
        OpeningLoosens(fields["anyOf"].items[i], v);
      }
      if "not" in fields { CleanMeansTheSameOpen(fields["not"], v); }
    }
  }

  /** Whatever was valid stays valid. */
  ghost predicate Loosens(schema: Json) {
    forall v :: Accepts(schema, v, true) ==> Accepts(Sanitize(schema), v, true)
  }

  lemma SanitizingLoosens(schema: Json)
    requires ListsCleanValues(schema) && NegatesOnlyClean(schema)
    ensures Loosens(schema)
  {
    forall v | Accepts(schema, v, true) ensures Accepts(Sanitize(schema), v, true) {
      OpeningLoosens(schema, v);
      OnlyTheKeywordIsLost(schema, v, true);
    }
  }

  // Both conditions are needed

  lemma EnumMeans(values: seq<Json>, v: Json)
    ensures Accepts(Obj(map["enum" := Arr(values)]), v, true) <==> v in values
  {
    var schema := Obj(map["enum" := Arr(values)]);
    assert "type" !in schema.fields && "required" !in schema.fields && "minLength" !in schema.fields &&
        "maxLength" !in schema.fields;
    assert "const" !in schema.fields && "items" !in schema.fields && "not" !in schema.fields &&
        ADDITIONAL !in schema.fields;
    assert "properties" !in schema.fields && "allOf" !in schema.fields && "anyOf" !in schema.fields;
    assert ValueFits(schema.fields, v) <==> v in values;
  }

  /** A list of allowed values is loosened exactly when no value contains the keyword: a value
      that does contain it is itself no longer allowed. */
  lemma EnumLoosensExactlyWhen(values: seq<Json>)
    ensures Loosens(Obj(map["enum" := Arr(values)])) <==> Clean(Arr(values))
  {
    var schema := Obj(map["enum" := Arr(values)]);
    var clean := Sanitize(Arr(values)).items;
    FieldOfSanitized(schema.fields, "enum");
    assert Sanitize(schema) == Obj(map["enum" := Arr(clean)]);
    if Clean(Arr(values)) {
      CleanIsKept(Arr(values));
    } else {
      var i :| 0 <= i < |values| && !Clean(values[i]);
      forall j | 0 <= j < |clean| ensures clean[j] != values[i] { SanitizedIsClean(values[j]); }
      EnumMeans(values, values[i]);
      EnumMeans(clean, values[i]);
    }
  }

  lemma {:induction false} Unlisted(names: set<string>) returns (extra: string)
    ensures forall name :: name in names ==> |name| < |extra|
  {
    extra := "x";
    if names != {} {
      var name :| name in names;
      var other := Unlisted(names - {name});
      extra := seq(|other| + |name| + 1, _ => 'x');
      assert forall n :: n in names ==> n == name || n in names - {name};
    }
  }

  function Shut(properties: map<string, Json>, others: bool): Json {
    Obj(map["properties" := Obj(properties), ADDITIONAL := Bool(others)])
  }

  lemma SameWhenOthersAreAllowed(properties: map<string, Json>, v: Json)
    requires forall name :: name in properties ==> Clean(properties[name])
    ensures Accepts(Shut(properties, true), v, true) <==> Accepts(Shut(properties, true), v, false)
  {
    var inner := Shut(properties, true);
    if v.Obj? {
      forall name | name in v.fields && name in properties
        ensures Accepts(properties[name], v.fields[name], true) <==> Accepts(properties[name], v.fields[name], false)
      {
        CleanMeansTheSameOpen(properties[name], v.fields[name]);
      }
    }
    assert AdditionalFit(inner, v);
    assert PropertiesFit(inner, v, true) <==> PropertiesFit(inner, v, false);
  }

  lemma ShutRejectsOthers(properties: map<string, Json>, extra: string)
    requires extra !in properties
    ensures !Accepts(Shut(properties, false), Obj(map[extra := Null]), true)
    ensures Accepts(Shut(properties, false), Obj(map[extra := Null]), false)
  {
    var inner := Shut(properties, false);
    assert !Names(inner.fields, extra);
    assert !Accepts(Bool(false), Null, true);
    assert !AdditionalFit(inner, Obj(map[extra := Null]));
  }

  function Negated(inner: Json): Json { Obj(map["not" := inner]) }

  lemma NegationMeans(inner: Json)
    ensures forall v, closed :: Accepts(Negated(inner), v, closed) <==> !Accepts(inner, v, closed)
  {
    var schema := Negated(inner);
    forall v, closed ensures Accepts(schema, v, closed) <==> !Accepts(inner, v, closed) {
      assert NotFits(schema, v, closed) <==> !Accepts(inner, v, closed);
      assert AllFit(schema, v, closed) && AnyFits(schema, v, closed);
    }
  }

  lemma NegationKept(properties: map<string, Json>, v: Json)
    requires forall name :: name in properties ==> Clean(properties[name])
    requires Accepts(Negated(Shut(properties, true)), v, true)
    ensures Accepts(Sanitize(Negated(Shut(properties, true))), v, true)
  {
    var inner := Shut(properties, true);
    NegationMeans(inner);
    SameWhenOthersAreAllowed(properties, v);
    forall name | name in properties ensures ListsCleanValues(properties[name]) {
      CleanListsCleanValues(properties[name]);
    }
    OnlyTheKeywordIsLost(Negated(inner), v, true);
  }

  lemma NegationTightened(properties: map<string, Json>)
    requires forall name :: name in properties ==> Clean(properties[name])
    ensures !Loosens(Negated(Shut(properties, false)))
  {
    var inner := Shut(properties, false);
    var extra := Unlisted(properties.Keys);
    NegationMeans(inner);
    ShutRejectsOthers(properties, extra);
    forall name | name in properties ensures ListsCleanValues(properties[name]) {
      CleanListsCleanValues(properties[name]);
    }
    OnlyTheKeywordIsLost(Negated(inner), Obj(map[extra := Null]), true);
  }

  /** The negation of an object schema that admits no other properties is tightened: an object
      with one more property was valid and is rejected afterwards. */
  lemma NegationLoosensExactlyWhen(properties: map<string, Json>, others: bool)
    requires forall name :: name in properties ==> Clean(properties[name])
    ensures Loosens(Negated(Shut(properties, others))) <==> others
  {
    if others {
      forall v | Accepts(Negated(Shut(properties, others)), v, true)
        ensures Accepts(Sanitize(Negated(Shut(properties, others))), v, true) {
        NegationKept(properties, v);
      }
    } else {
      NegationTightened(properties);
    }
  }
}
