/** The RAML side of the reflector: typeToYaml, buildTypes and
    MergeWithTypes. YAML parsing and rendering are parameters (`parse`,
    `render`); a `None` from either is the error the source turns into a
    panic. */
module Raml {
  import opened Panics
  import opened GoTypes
  import opened Schema
  import opened TypeWalk
  import opened Registry

  /** What typeToYaml produces: `{type: <name>}` for a lone nameless property,
      otherwise `{type: object, properties: <map by name>}`. */
  datatype RamlType = Alias(typeName: string) | Object(properties: map<string, Property>)

  /** A parsed YAML value; `Declared` is a generated type placed into the
      document. */
  datatype Node =
    | Null
    | Scalar(text: string)
    | Sequence(items: seq<Node>)
    | Mapping(entries: map<string, Node>)
    | Declared(decl: RamlType)

  /** The top-level mapping of a RAML document. */
  type Doc = map<string, Node>

  const Header: string := "#%RAML 1.0\n"

  /** No later property of `props` has the name of property `i`. */
  predicate LastNamed(props: seq<Property>, i: int)
    requires 0 <= i < |props|
  {
    forall j | i < j < |props| :: props[j].name != props[i].name
  }

  /** The map typeToYaml's loop builds, one property at a time. */
  function PropertyMap(props: seq<Property>): map<string, Property>
    decreases |props|
  {
    if props == [] then map[]
    else PropertyMap(props[..|props| - 1])[props[|props| - 1].name := props[|props| - 1]]
  }

  /** The property map has one key per distinct property name, and holds under
      it the LAST property with that name. */
  lemma {:induction false} PropertyMapLastWins(props: seq<Property>)
    ensures forall p | p in props :: p.name in PropertyMap(props)
    ensures forall k | k in PropertyMap(props) :: PropertyMap(props)[k] in props && PropertyMap(props)[k].name == k
    ensures forall i | 0 <= i < |props| && LastNamed(props, i) :: PropertyMap(props)[props[i].name] == props[i]
    decreases |props|
  {
    if props != [] {
      var init := props[..|props| - 1];
      var last := props[|props| - 1];
      PropertyMapLastWins(init);
      assert props == init + [last];
      var m := PropertyMap(props);
      assert m == PropertyMap(init)[last.name := last];
      forall i | 0 <= i < |props| && LastNamed(props, i)
        ensures m[props[i].name] == props[i]
      {
        if i < |init| {
          assert props[i] == init[i];
          assert LastNamed(init, i);
        }
      }
    }
  }

  /** typeToYaml as a value. */
  function YamlType(props: seq<Property>): RamlType {
    if |props| == 1 && props[0].name == "" then Alias(props[0].typeName)
    else Object(PropertyMap(props))
  }

  /** typeToYaml, with its loop filling the property map. */
  method TypeToYaml(properties: seq<Property>) returns (r: RamlType)
    ensures r == YamlType(properties)
  {
    if |properties| == 1 && properties[0].name == "" {
      return Alias(properties[0].typeName);
    }
    var pm: map<string, Property> := map[];
    for k := 0 to |properties|
      invariant pm == PropertyMap(properties[..k])
    {
      assert properties[..k + 1][..k] == properties[..k];
      pm := pm[properties[k].name := properties[k]];
    }
    assert properties[..|properties|] == properties;
    return Object(pm);
  }

  /** The registry after structTypeName has been called on every value in
      order; the first panic ends the walk. */
  function Registered(env: Env, values: seq<Ty>): (r: Result<Reg>)
    requires EnvOk(env) && forall i | 0 <= i < |values| :: TyIn(env, values[i])
    ensures r.Ok? ==> forall i | 0 <= i < |values| ::
      values[i].StructTy? && values[i].id in env && env[values[i].id].name in r.value
    ensures r.Ok? ==> r.value.Keys <= Names(env)
    ensures r.Ok? ==> forall n | n in r.value :: BuiltAs(env, n, r.value[n])
    decreases |values|
  {
    if values == [] then Ok(map[])
    else
      var init := values[..|values| - 1];
      assert forall i | 0 <= i < |init| :: init[i] == values[i];
      match Registered(env, init)
      case Panic(c) => Panic(c)
      case Ok(reg) =>
        var (name, after) := StructName(env, reg, values[|values| - 1]);
        if name.Panic? then Panic(name.cause) else Ok(after)
  }

  /** A value that is not a struct (a pointer to one included) makes buildTypes
      panic. */
  lemma {:induction false} NonStructValuePanics(env: Env, values: seq<Ty>, i: nat)
    requires EnvOk(env) && forall j | 0 <= j < |values| :: TyIn(env, values[j])
    requires i < |values| && !values[i].StructTy?
    ensures Registered(env, values).Panic?
  {
    // the postcondition of Registered already rules out an Ok result
  }

  /** buildTypes' walk succeeds when every value is a struct and the
      reference describes every declared struct. */
  lemma {:induction false} RegisteredSucceeds(env: Env, values: seq<Ty>)
    requires EnvOk(env) && forall i | 0 <= i < |values| :: TyIn(env, values[i])
    requires AllShaped(env) && forall i | 0 <= i < |values| :: values[i].StructTy?
    ensures Registered(env, values).Ok?
    decreases |values|
  {
    if values != [] {
      var init := values[..|values| - 1];
      RegisteredSucceeds(env, init);
      StructNameSucceeds(env, Registered(env, init).value, values[|values| - 1]);
    }
  }

  /** Once the walk has panicked, the later values change nothing. */
  lemma {:induction false} PanicPersists(env: Env, values: seq<Ty>, k: nat)
    requires EnvOk(env) && forall j | 0 <= j < |values| :: TyIn(env, values[j])
    requires k <= |values| && Registered(env, values[..k]).Panic?
    ensures Registered(env, values) == Registered(env, values[..k])
    decreases |values|
  {
    if k < |values| {
      var init := values[..|values| - 1];
      assert init[..k] == values[..k];
      PanicPersists(env, init, k);
    } else {
      assert values[..k] == values;
    }
  }

  /** buildTypes as a value: every registered name with its typeToYaml. */
  function InferredTypes(env: Env, values: seq<Ty>): (r: Result<map<string, RamlType>>)
    requires EnvOk(env) && forall i | 0 <= i < |values| :: TyIn(env, values[i])
    ensures r.Ok? <==> Registered(env, values).Ok?
    ensures r.Ok? ==> r.value.Keys == Registered(env, values).value.Keys
    ensures r.Ok? ==> forall n | n in r.value :: r.value[n] == YamlType(Registered(env, values).value[n].Items())
    ensures r.Ok? ==> forall n | n in r.value :: exists id | id in env && env[id].name == n ::
      ShapeRef(env, StructTy(id)).Some? && r.value[n] == YamlType(ShapeRef(env, StructTy(id)).value)
  {
    match Registered(env, values)
    case Panic(c) => Panic(c)
    case Ok(reg) => Ok(map n | n in reg :: YamlType(reg[n].Items()))
  }

  /** buildTypes: a fresh registry, one structTypeName per value, then one
      typeToYaml per registry entry. */
  method BuildTypes(env: Env, values: seq<Ty>) returns (r: Result<map<string, RamlType>>)
    requires EnvOk(env) && forall i | 0 <= i < |values| :: TyIn(env, values[i])
    ensures r == InferredTypes(env, values)
  {
    var registered := RegisterAll(env, values);
    if registered.Panic? {
      return Panic(registered.cause);
    }
    var ramlTypes := YamlTypes(registered.value);
    assert ramlTypes == map n | n in registered.value :: YamlType(registered.value[n].Items());
    return Ok(ramlTypes);
  }

  /** The first loop of buildTypes. */
  method RegisterAll(env: Env, values: seq<Ty>) returns (r: Result<Reg>)
    requires EnvOk(env) && forall i | 0 <= i < |values| :: TyIn(env, values[i])
    ensures r == Registered(env, values)
  {
    var registry := new TypeRegistry();
    for k := 0 to |values|
      invariant Registered(env, values[..k]) == Ok(registry.types)
    {
      assert values[..k + 1][..k] == values[..k];
      var name := registry.StructTypeName(env, values[k]);
      if name.Panic? {
        PanicPersists(env, values, k + 1);
        return Panic(name.cause);
      }
    }
    assert values[..|values|] == values;
    return Ok(registry.types);
  }

  /** The second loop of buildTypes: typeToYaml on every entry. */
  method YamlTypes(types: Reg) returns (ramlTypes: map<string, RamlType>)
    ensures ramlTypes.Keys == types.Keys
    ensures forall n | n in types :: ramlTypes[n] == YamlType(types[n].Items())
  {
    ramlTypes := map[];
    var remaining := types.Keys;
    while remaining != {}
      invariant remaining <= types.Keys
      invariant ramlTypes.Keys == types.Keys - remaining
      invariant forall n | n in ramlTypes :: ramlTypes[n] == YamlType(types[n].Items())
      decreases remaining
    {
      var name :| name in remaining;
      var t := TypeToYaml(types[name].Items());
      ramlTypes := ramlTypes[name := t];
      remaining := remaining - {name};
    }
  }

  /** strings.Replace(s, "\t", " ", -1). */
  function ReplaceTabs(s: string): (r: string)
    ensures |r| == |s|
    ensures forall i | 0 <= i < |s| :: r[i] == (if s[i] == '\t' then ' ' else s[i])
  {
    if s == [] then []
    else [if s[0] == '\t' then ' ' else s[0]] + ReplaceTabs(s[1..])
  }

  /** The merge loop over the template's `types` mapping: a generated type is
      stored only where the template has no entry, or a null one. */
  function InsertMissing(existing: map<string, Node>, inferred: map<string, RamlType>): (m: map<string, Node>)
    ensures m.Keys == existing.Keys + inferred.Keys
    ensures forall n | n in existing && !existing[n].Null? :: m[n] == existing[n]
    ensures forall n | n in existing && n !in inferred :: m[n] == existing[n]
    ensures forall n | n in inferred && (n !in existing || existing[n].Null?) :: m[n] == Declared(inferred[n])
  {
    map n | n in existing.Keys + inferred.Keys ::
      if n in inferred && (n !in existing || existing[n].Null?) then Declared(inferred[n]) else existing[n]
  }

  /** The merge loop itself: every generated type is visited once, in no
      particular order, and stored where the entry is missing or null. */
  method InsertTypes(entries: map<string, Node>, inferred: map<string, RamlType>) returns (ramlTypes: map<string, Node>)
    ensures ramlTypes == InsertMissing(entries, inferred)
  {
    ramlTypes := entries;
    var pending := inferred.Keys;
    while pending != {}
      invariant pending <= inferred.Keys
      invariant ramlTypes.Keys == entries.Keys + (inferred.Keys - pending)
      invariant forall n | n in inferred && n !in pending && (n !in entries || entries[n].Null?) ::
        ramlTypes[n] == Declared(inferred[n])
      invariant forall n | n in entries && !(n in inferred && n !in pending && entries[n].Null?) ::
        ramlTypes[n] == entries[n]
      decreases pending
    {
      var name :| name in pending;
      if name !in ramlTypes || ramlTypes[name].Null? {
        ramlTypes := ramlTypes[name := Declared(inferred[name])];
      }
      pending := pending - {name};
    }
    assert ramlTypes == InsertMissing(entries, inferred);
  }

  /** The template with the generated types merged in: nothing happens when
      it has no `types` entry or a null one; a `types` entry that is not a
      mapping makes the type assertion panic. */
  function MergedDoc(doc: Doc, inferred: map<string, RamlType>): (r: Result<Doc>)
    ensures r.Panic? <==> "types" in doc && !doc["types"].Null? && !doc["types"].Mapping?
    ensures r.Panic? ==> r.cause == TypesNotMapping
    ensures ("types" !in doc || doc["types"].Null?) ==> r == Ok(doc)
    ensures r.Ok? ==> r.value.Keys == doc.Keys && forall k | k in doc && k != "types" :: r.value[k] == doc[k]
    ensures r.Ok? && "types" in doc && doc["types"].Mapping? ==>
      r.value["types"] == Mapping(InsertMissing(doc["types"].entries, inferred))
  {
    if "types" !in doc || doc["types"].Null? then Ok(doc)
    else match doc["types"]
      case Mapping(entries) => Ok(doc["types" := Mapping(InsertMissing(entries, inferred))])
      case _ => Panic(TypesNotMapping)
  }

  /** The document MergeWithTypes renders: types are built before the template
      is parsed, so a build panic wins over a bad template. */
  function MergedTemplate(env: Env, template: string, values: seq<Ty>, parse: string -> Option<Doc>): (r: Result<Doc>)
    requires EnvOk(env) && forall i | 0 <= i < |values| :: TyIn(env, values[i])
    ensures InferredTypes(env, values).Panic? ==> r == Panic(InferredTypes(env, values).cause)
    ensures InferredTypes(env, values).Ok? && parse(ReplaceTabs(template)).None? ==> r == Panic(TemplateUnparsable)
    ensures r.Ok? ==> (parse(ReplaceTabs(template)).Some?
      && MergedDoc(parse(ReplaceTabs(template)).value, InferredTypes(env, values).value) == r)
    ensures InferredTypes(env, values).Ok? && parse(ReplaceTabs(template)).Some? ==>
      r == MergedDoc(parse(ReplaceTabs(template)).value, InferredTypes(env, values).value)
  {
    match InferredTypes(env, values)
    case Panic(c) => Panic(c)
    case Ok(inferred) =>
      match parse(ReplaceTabs(template))
      case None => Panic(TemplateUnparsable)
      case Some(doc) => MergedDoc(doc, inferred)
  }

  /** MergeWithTypes as a value: the merged document rendered after the RAML
      header line. */
  function Merge(env: Env, template: string, values: seq<Ty>, parse: string -> Option<Doc>, render: Doc -> Option<string>): (r: Result<string>)
    requires EnvOk(env) && forall i | 0 <= i < |values| :: TyIn(env, values[i])
    ensures r.Ok? ==> Header <= r.value
    ensures r.Ok? ==> (MergedTemplate(env, template, values, parse).Ok?
      && render(MergedTemplate(env, template, values, parse).value) == Some(r.value[|Header|..]))
    ensures MergedTemplate(env, template, values, parse).Panic? ==> r == Panic(MergedTemplate(env, template, values, parse).cause)
    ensures MergedTemplate(env, template, values, parse).Ok? ==>
      && (render(MergedTemplate(env, template, values, parse).value).None? ==> r == Panic(RenderFailed))
      && (render(MergedTemplate(env, template, values, parse).value).Some? ==>
            r == Ok(Header + render(MergedTemplate(env, template, values, parse).value).value))
  {
    match MergedTemplate(env, template, values, parse)
    case Panic(c) => Panic(c)
    case Ok(doc) =>
      match render(doc)
      case None => Panic(RenderFailed)
      case Some(text) => Ok(Header + text)
  }

  /** MergeWithTypes. */
  method MergeWithTypes(env: Env, template: string, values: seq<Ty>, parse: string -> Option<Doc>, render: Doc -> Option<string>)
    returns (r: Result<string>)
    requires EnvOk(env) && forall i | 0 <= i < |values| :: TyIn(env, values[i])
    ensures r == Merge(env, template, values, parse, render)
  {
    var types := BuildTypes(env, values);
    if types.Panic? {
      return Panic(types.cause);
    }
    var raml := parse(ReplaceTabs(template));
    if raml.None? {
      return Panic(TemplateUnparsable);
    }
    var doc := raml.value;
    if "types" in doc && !doc["types"].Null? {
      if !doc["types"].Mapping? {
        return Panic(TypesNotMapping);
      }
      var ramlTypes := InsertTypes(doc["types"].entries, types.value);
      doc := doc["types" := Mapping(ramlTypes)];
    }
    var bytes := render(doc);
    if bytes.None? {
      return Panic(RenderFailed);
    }
    return Ok(Header + bytes.value);
  }

  /** MergeWithTypes returns a document when nothing it calls fails: every
      value is a struct the reference describes, the template parses, its
      `types` is missing, null or a mapping, and the result renders. */
  lemma MergeSucceeds(env: Env, template: string, values: seq<Ty>, parse: string -> Option<Doc>, render: Doc -> Option<string>)
    requires EnvOk(env) && forall i | 0 <= i < |values| :: TyIn(env, values[i])
    requires AllShaped(env) && forall i | 0 <= i < |values| :: values[i].StructTy?
    requires parse(ReplaceTabs(template)).Some?
    requires var doc := parse(ReplaceTabs(template)).value;
      "types" in doc ==> doc["types"].Null? || doc["types"].Mapping?
    requires MergedTemplate(env, template, values, parse).Ok? ==> render(MergedTemplate(env, template, values, parse).value).Some?
    ensures MergedTemplate(env, template, values, parse).Ok?
    ensures Merge(env, template, values, parse, render).Ok?
  {
    RegisteredSucceeds(env, values);
  }

  // ---------------------------------------------------------------------------
  // Properties of the merge.

  /** Merging the same types a second time changes nothing. */
  lemma InsertMissingIdempotent(existing: map<string, Node>, inferred: map<string, RamlType>)
    ensures InsertMissing(InsertMissing(existing, inferred), inferred) == InsertMissing(existing, inferred)
  {
  }

  lemma MergedDocIdempotent(doc: Doc, inferred: map<string, RamlType>)
    requires MergedDoc(doc, inferred).Ok?
    ensures MergedDoc(MergedDoc(doc, inferred).value, inferred) == MergedDoc(doc, inferred)
  {
    if "types" in doc && doc["types"].Mapping? {
      var entries := InsertMissing(doc["types"].entries, inferred);
      var merged := doc["types" := Mapping(entries)];
      assert MergedDoc(doc, inferred) == Ok(merged);
      InsertMissingIdempotent(doc["types"].entries, inferred);
      assert merged["types" := Mapping(InsertMissing(entries, inferred))] == merged;
    }
  }

  /** What re-reading a rendered document with the YAML library is assumed to
      give: a document that renders to the same text, whose `types` entry is
      present and not null exactly when it was, and, when it was a mapping, is
      one with the same keys in which no entry that was not null reads back
      as null. A generated type may read back as any non-null node. */
  predicate ReadsBack(reread: Doc, doc: Doc, render: Doc -> Option<string>) {
    && render(reread) == render(doc)
    && (("types" in reread && !reread["types"].Null?) <==> ("types" in doc && !doc["types"].Null?))
    && ("types" in doc && doc["types"].Mapping? ==>
      && "types" in reread && reread["types"].Mapping?
      && reread["types"].entries.Keys == doc["types"].entries.Keys
      && forall n | n in doc["types"].entries && !doc["types"].entries[n].Null? :: !reread["types"].entries[n].Null?)
  }

  /** A re-read merged document merges to itself. */
  lemma ReadBackIsMerged(doc: Doc, reread: Doc, inferred: map<string, RamlType>, render: Doc -> Option<string>)
    requires MergedDoc(doc, inferred).Ok?
    requires ReadsBack(reread, MergedDoc(doc, inferred).value, render)
    ensures MergedDoc(reread, inferred) == Ok(reread)
  {
    var merged := MergedDoc(doc, inferred).value;
    if "types" in reread && !reread["types"].Null? {
      var entries := doc["types"].entries;
      var back := reread["types"].entries;
      assert merged["types"] == Mapping(InsertMissing(entries, inferred));
      assert InsertMissing(back, inferred) == back;
      assert reread["types" := Mapping(back)] == reread;
    }
  }

  /** Feeding MergeWithTypes its own output gives the same output again, when
      the YAML library reads the output back as ReadsBack describes. yaml.v2
      does not: a generated type is written in struct field order and read
      back as a map, which it writes with sorted keys, so the same-rendering
      clause fails for an object type with properties. ReadBackIsMerged is
      the part that holds whatever the rendering. */
  lemma MergeIsIdempotent(env: Env, template: string, values: seq<Ty>, parse: string -> Option<Doc>, render: Doc -> Option<string>)
    requires EnvOk(env) && forall i | 0 <= i < |values| :: TyIn(env, values[i])
    requires Merge(env, template, values, parse, render).Ok?
    requires parse(ReplaceTabs(Merge(env, template, values, parse, render).value)).Some?
    requires ReadsBack(parse(ReplaceTabs(Merge(env, template, values, parse, render).value)).value,
                       MergedTemplate(env, template, values, parse).value, render)
    ensures Merge(env, Merge(env, template, values, parse, render).value, values, parse, render)
      == Merge(env, template, values, parse, render)
  {
    var out := Merge(env, template, values, parse, render).value;
    var reread := parse(ReplaceTabs(out)).value;
    ReadBackIsMerged(parse(ReplaceTabs(template)).value, reread, InferredTypes(env, values).value, render);
  }

  /** A type the template already declares is never replaced by a generated one. */
  lemma TemplateTypesWin(env: Env, template: string, values: seq<Ty>, parse: string -> Option<Doc>, name: string)
    requires EnvOk(env) && forall i | 0 <= i < |values| :: TyIn(env, values[i])
    requires MergedTemplate(env, template, values, parse).Ok?
    requires parse(ReplaceTabs(template)).Some?
    requires "types" in parse(ReplaceTabs(template)).value
    requires parse(ReplaceTabs(template)).value["types"].Mapping?
    requires name in parse(ReplaceTabs(template)).value["types"].entries
    requires !parse(ReplaceTabs(template)).value["types"].entries[name].Null?
    ensures MergedTemplate(env, template, values, parse).value["types"].entries[name]
      == parse(ReplaceTabs(template)).value["types"].entries[name]
  {
  }

  /** Every struct value passed in is declared in a merged `types` mapping. */
  lemma EveryValueDeclared(env: Env, template: string, values: seq<Ty>, parse: string -> Option<Doc>, i: nat)
    requires EnvOk(env) && forall j | 0 <= j < |values| :: TyIn(env, values[j])
    requires MergedTemplate(env, template, values, parse).Ok?
    requires "types" in parse(ReplaceTabs(template)).value
    requires parse(ReplaceTabs(template)).value["types"].Mapping?
    requires i < |values|
    ensures values[i].StructTy?
    ensures env[values[i].id].name in MergedTemplate(env, template, values, parse).value["types"].entries
  {
  }
}
