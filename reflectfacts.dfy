/** Facts about the reflector on concrete Go programs. */
module ReflectFacts {
  import opened Panics
  import opened GoTypes
  import opened Naming
  import opened Schema
  import opened Specimen
  import opened TypeWalk
  import opened Raml

  function StringF(name: string): Field { Field(name, Leaf(String), "", "", false) }

  // ---------------------------------------------------------------------------
  // The loop of buildStructType, one field at a time.

  lemma LoopEnd(env: Env, reg: Reg, id: nat, acc: Props)
    requires EnvOk(env) && id in env
    ensures FieldProps(env, reg, id, |env[id].fields|, acc) == (Ok(acc), reg)
  {
  }

  lemma SkipStep(env: Env, reg: Reg, id: nat, i: nat, acc: Props)
    requires EnvOk(env) && id in env && i < |env[id].fields|
    requires SerializedFieldName(env[id].fields[i]) == ""
    ensures FieldProps(env, reg, id, i, acc) == FieldProps(env, reg, id, i + 1, acc)
  {
  }

  /** A named field whose type name is known and leaves the registry alone. */
  lemma NamedStep(env: Env, reg: Reg, id: nat, i: nat, acc: Props, tn: string)
    requires EnvOk(env) && id in env && i < |env[id].fields|
    requires SerializedFieldName(env[id].fields[i]) != "" && !env[id].fields[i].anonymous
    requires NameOf(env, reg, env[id].fields[i].ty) == (Ok(tn), reg)
    ensures FieldProps(env, reg, id, i, acc) == FieldProps(env, reg, id, i + 1,
      Append(acc, Property(SerializedFieldName(env[id].fields[i]), tn, env[id].fields[i].descTag)))
  {
  }

  /** An embedded field whose struct's properties are known and leave the
      registry alone. */
  lemma EmbedStep(env: Env, reg: Reg, id: nat, i: nat, acc: Props, p: Props)
    requires EnvOk(env) && id in env && i < |env[id].fields|
    requires SerializedFieldName(env[id].fields[i]) != "" && env[id].fields[i].anonymous
    requires StructProps(env, reg, env[id].fields[i].ty) == (Ok(p), reg)
    ensures FieldProps(env, reg, id, i, acc) == FieldProps(env, reg, id, i + 1, AppendAll(acc, p))
  {
  }

  /** buildTypes on a single value. */
  lemma RegisteredOne(env: Env, t: Ty)
    requires EnvOk(env) && TyIn(env, t)
    ensures Registered(env, [t]) ==
      (var (n, after) := StructName(env, map[], t); if n.Panic? then Panic(n.cause) else Ok(after))
  {
    assert [t][..0] == [];
  }

  /** `type Node struct { Next *Node; Children []Node }` */
  function NodeEnv(): Env {
    map[0 := StructDecl("Node", [
      Field("Next", PtrTo(StructTy(0)), "", "", false),
      Field("Children", SliceOf(StructTy(0)), "", "", false)], false, None)]
  }

  const NodeHeld: Reg := map["Node" := NonNil([])]
  const NextP := Property("Next?", "Node", "")
  const ChildrenP := Property("Children", "Node[]", "")

  lemma NodeEnvOk()
    ensures EnvOk(NodeEnv())
  {
  }

  /** With the placeholder in place, both fields name the struct itself. */
  lemma NodeFieldTypes()
    requires EnvOk(NodeEnv())
    ensures NameOf(NodeEnv(), NodeHeld, PtrTo(StructTy(0))) == (Ok("Node"), NodeHeld)
    ensures NameOf(NodeEnv(), NodeHeld, SliceOf(StructTy(0))) == (Ok("Node[]"), NodeHeld)
  {
    assert StructName(NodeEnv(), NodeHeld, StructTy(0)) == (Ok("Node"), NodeHeld);
    assert "Node" + "[]" == "Node[]";
  }

  lemma NodeFieldLoop()
    requires EnvOk(NodeEnv())
    ensures FieldProps(NodeEnv(), NodeHeld, 0, 0, NilSlice) == (Ok(NonNil([NextP, ChildrenP])), NodeHeld)
  {
    var env := NodeEnv();
    assert SerializedFieldName(env[0].fields[0]) == "Next?";
    assert SerializedFieldName(env[0].fields[1]) == "Children";
    NodeFieldTypes();
    assert FieldProps(env, NodeHeld, 0, 2, NonNil([NextP, ChildrenP])) == (Ok(NonNil([NextP, ChildrenP])), NodeHeld);
    assert Append(NonNil([NextP]), ChildrenP) == NonNil([NextP, ChildrenP]);
    assert FieldProps(env, NodeHeld, 0, 1, NonNil([NextP])) == (Ok(NonNil([NextP, ChildrenP])), NodeHeld);
    assert Append(NilSlice, NextP) == NonNil([NextP]);
  }

  /** A self-referential struct is walked once: the placeholder answers the
      inner references, and the registry ends with the one entry. */
  lemma SelfReferenceTerminates()
    ensures EnvOk(NodeEnv())
    ensures StructName(NodeEnv(), map[], StructTy(0))
      == (Ok("Node"), map["Node" := NonNil([Property("Next?", "Node", ""), Property("Children", "Node[]", "")])])
  {
    NodeEnvOk();
    NodeFieldLoop();
    assert StructProps(NodeEnv(), NodeHeld, StructTy(0)) == (Ok(NonNil([NextP, ChildrenP])), NodeHeld);
    assert map[]["Node" := NonNil([])] == NodeHeld;
    assert NodeEnv()[0].name == "Node" && IsNil(map[], "Node");
    assert NodeHeld["Node" := NonNil([NextP, ChildrenP])] == map["Node" := NonNil([NextP, ChildrenP])];
  }

  // ---------------------------------------------------------------------------
  // Structs without serialized fields.

  /** Fields that all serialize to "" add nothing and leave the registry alone. */
  lemma {:induction false} SkippedFieldsAddNothing(env: Env, reg: Reg, id: nat, i: nat, acc: Props)
    requires EnvOk(env) && id in env && i <= |env[id].fields|
    requires forall j | i <= j < |env[id].fields| :: SerializedFieldName(env[id].fields[j]) == ""
    ensures FieldProps(env, reg, id, i, acc) == (Ok(acc), reg)
    decreases |env[id].fields| - i
  {
    if i < |env[id].fields| {
      SkippedFieldsAddNothing(env, reg, id, i + 1, acc);
    }
  }

  /** A struct with no serialized field builds to a nil slice, which leaves its
      registry entry nil; it is declared as an object without properties. */
  lemma NoVisibleFieldsBuildNil(env: Env, reg: Reg, id: nat)
    requires EnvOk(env) && id in env && !env[id].marshaler
    requires forall j | 0 <= j < |env[id].fields| :: SerializedFieldName(env[id].fields[j]) == ""
    ensures StructProps(env, reg, StructTy(id)) == (Ok(NilSlice), reg)
    ensures IsNil(reg, env[id].name) ==>
      StructName(env, reg, StructTy(id)) == (Ok(env[id].name), reg[env[id].name := NilSlice])
    ensures YamlType(NilSlice.Items()) == Object(map[])
  {
    var name := env[id].name;
    SkippedFieldsAddNothing(env, reg, id, 0, NilSlice);
    var held := reg[name := NonNil([])];
    SkippedFieldsAddNothing(env, held, id, 0, NilSlice);
    assert held[name := NilSlice] == reg[name := NilSlice];
  }

  /** Since its entry stays nil, such a struct is built again every time it
      is met. */
  lemma FieldlessStructIsRebuilt(env: Env, reg: Reg, id: nat)
    requires EnvOk(env) && id in env && !env[id].marshaler
    requires forall j | 0 <= j < |env[id].fields| :: SerializedFieldName(env[id].fields[j]) == ""
    requires IsNil(reg, env[id].name)
    ensures var once := StructName(env, reg, StructTy(id)).1;
      IsNil(once, env[id].name) && StructName(env, once, StructTy(id)) == (Ok(env[id].name), once)
  {
    var name := env[id].name;
    NoVisibleFieldsBuildNil(env, reg, id);
    var once := reg[name := NilSlice];
    NoVisibleFieldsBuildNil(env, once, id);
    assert once[name := NilSlice] == once;
  }

  /** Two struct types under one name share one registry entry: once the
      first has been built with properties, asking for the second finds that
      entry and neither builds the second nor changes the registry. */
  lemma FirstDefinitionWins(env: Env, reg: Reg, first: nat, second: nat)
    requires EnvOk(env) && first in env && second in env
    requires env[first].name == env[second].name
    requires StructName(env, reg, StructTy(first)).0.Ok?
    requires StructName(env, reg, StructTy(first)).1[env[first].name].NonNil?
    ensures var built := StructName(env, reg, StructTy(first)).1;
      StructName(env, built, StructTy(second)) == (Ok(env[first].name), built)
  {
  }

  /** `BuildInfo`: three string fields, each tagged `json:",omitempty"`. */
  function BuildInfoEnv(): Env {
    map[0 := StructDecl("BuildInfo", [
      Field("Version", Leaf(String), ",omitempty", "", false),
      Field("GitHash", Leaf(String), ",omitempty", "", false),
      Field("BuildTime", Leaf(String), ",omitempty", "", false)], false, None)]
  }

  /** buildTypes over a single struct that registers under one name. */
  lemma OneEntryTypes(env: Env, values: seq<Ty>, name: string, p: Props)
    requires EnvOk(env) && forall i | 0 <= i < |values| :: TyIn(env, values[i])
    requires Registered(env, values) == Ok(map[name := p])
    ensures InferredTypes(env, values) == Ok(map[name := YamlType(p.Items())])
  {
    var r := InferredTypes(env, values);
    assert r.value.Keys == {name};
    assert r.value == map[name := YamlType(p.Items())];
  }

  lemma BuildInfoRegistered()
    ensures EnvOk(BuildInfoEnv())
    ensures Registered(BuildInfoEnv(), [StructTy(0)]) == Ok(map["BuildInfo" := NilSlice])
  {
    var env := BuildInfoEnv();
    forall j | 0 <= j < |env[0].fields|
      ensures SerializedFieldName(env[0].fields[j]) == ""
    {
      OmitEmptyTagSkips(env[0].fields[j]);
    }
    NoVisibleFieldsBuildNil(env, map[], 0);
    RegisteredOne(env, StructTy(0));
    assert map[][env[0].name := NilSlice] == map["BuildInfo" := NilSlice];
  }

  /** Every BuildInfo field names no JSON member, so the type has no properties. */
  lemma BuildInfoHasNoProperties()
    ensures EnvOk(BuildInfoEnv())
    ensures InferredTypes(BuildInfoEnv(), [StructTy(0)]) == Ok(map["BuildInfo" := Object(map[])])
  {
    BuildInfoRegistered();
    OneEntryTypes(BuildInfoEnv(), [StructTy(0)], "BuildInfo", NilSlice);
    assert YamlType(NilSlice.Items()) == Object(map[]);
  }

  // ---------------------------------------------------------------------------
  // Embedded structs and json.Marshaler types.

  /** `type Inner struct { X string }` and
      `type Outer struct { Inner; Y int64 `desc:"the y"` }` */
  function EmbedEnv(): Env {
    map[
      0 := StructDecl("Inner", [StringF("X")], false, None),
      1 := StructDecl("Outer", [
        Field("Inner", StructTy(0), "", "", true),
        Field("Y", Leaf(Int64), "", "the y", false)], false, None)]
  }

  const XP := Property("X", "string", "")
  const YP := Property("Y", "integer", "the y")

  lemma EmbedEnvOk()
    ensures EnvOk(EmbedEnv())
  {
  }

  lemma InnerFields(reg: Reg)
    requires EnvOk(EmbedEnv())
    ensures StructProps(EmbedEnv(), reg, StructTy(0)) == (Ok(NonNil([XP])), reg)
  {
    var env := EmbedEnv();
    assert SerializedFieldName(env[0].fields[0]) == "X";
    assert NameOf(env, reg, Leaf(String)) == (Ok("string"), reg);
    NamedStep(env, reg, 0, 0, NilSlice, "string");
    assert Append(NilSlice, XP) == NonNil([XP]);
    LoopEnd(env, reg, 0, NonNil([XP]));
    assert FieldProps(env, reg, 0, 0, NilSlice) == (Ok(NonNil([XP])), reg);
  }

  lemma OuterFields(reg: Reg)
    requires EnvOk(EmbedEnv())
    ensures StructProps(EmbedEnv(), reg, StructTy(1)) == (Ok(NonNil([XP, YP])), reg)
  {
    var env := EmbedEnv();
    assert SerializedFieldName(env[1].fields[0]) == "Inner";
    assert SerializedFieldName(env[1].fields[1]) == "Y";
    InnerFields(reg);
    EmbedStep(env, reg, 1, 0, NilSlice, NonNil([XP]));
    assert AppendAll(NilSlice, NonNil([XP])) == NonNil([XP]);
    assert NameOf(env, reg, Leaf(Int64)) == (Ok("integer"), reg);
    NamedStep(env, reg, 1, 1, NonNil([XP]), "integer");
    assert Append(NonNil([XP]), YP) == NonNil([XP, YP]);
    LoopEnd(env, reg, 1, NonNil([XP, YP]));
    assert FieldProps(env, reg, 1, 0, NilSlice) == (Ok(NonNil([XP, YP])), reg);
  }

  /** The embedded struct's fields are flattened into the embedding one, and
      the embedded struct gets no registry entry of its own. */
  lemma EmbeddedFieldsAreFlattened()
    ensures EnvOk(EmbedEnv())
    ensures StructName(EmbedEnv(), map[], StructTy(1))
      == (Ok("Outer"), map["Outer" := NonNil([Property("X", "string", ""), Property("Y", "integer", "the y")])])
  {
    EmbedEnvOk();
    var held: Reg := map["Outer" := NonNil([])];
    OuterFields(held);
    assert map[]["Outer" := NonNil([])] == held;
    assert EmbedEnv()[1].name == "Outer" && IsNil(map[], "Outer");
    assert held["Outer" := NonNil([XP, YP])] == map["Outer" := NonNil([XP, YP])];
  }

  /** A json.Marshaler whose output is a scalar (as time.Time's is) is declared
      as an alias of that scalar, whatever fields it has. */
  lemma ScalarMarshalerIsAlias(d: StructDecl)
    requires d.marshaler && d.specimen.Some?
    requires d.specimen.value.JBool? || d.specimen.value.JNumber? || d.specimen.value.JString?
    ensures MarshalerProps(d).Ok?
    ensures YamlType(MarshalerProps(d).value.Items()) == Alias(ExampleType(d.specimen.value).value.0)
    ensures ExampleType(d.specimen.value).value.0 in RamlScalars
    ensures d.specimen.value.JBool? ==> YamlType(MarshalerProps(d).value.Items()) == Alias("boolean")
    ensures d.specimen.value.JNumber? ==> YamlType(MarshalerProps(d).value.Items()) == Alias("number")
    ensures d.specimen.value.JString? ==> YamlType(MarshalerProps(d).value.Items()) == Alias("string")
  {
  }

  // ---------------------------------------------------------------------------
  // End to end.

  /** `type Person struct { Name string `json:"name"`;
      Age int `json:"age,omitempty" desc:"years"`; secret string }` */
  const NameF := Field("Name", Leaf(String), "name", "", false)
  const AgeF := Field("Age", Leaf(Int), "age,omitempty", "years", false)
  const SecretF := Field("secret", Leaf(String), "", "", false)

  function PersonEnv(): Env {
    map[0 := StructDecl("Person", [NameF, AgeF, SecretF], false, None)]
  }

  const NameP := Property("name", "string", "")
  const AgeP := Property("age", "integer", "years")

  lemma PersonEnvOk()
    ensures EnvOk(PersonEnv())
  {
  }

  lemma NameFieldName()
    ensures SerializedFieldName(NameF) == "name"
  {
    assert BeforeComma("name") == "name";
  }

  lemma AgeFieldName()
    ensures SerializedFieldName(AgeF) == "age"
  {
    assert BeforeComma("age,omitempty") == "age";
  }

  lemma SecretFieldName()
    ensures SerializedFieldName(SecretF) == ""
  {
    assert StartsLower(SecretF.name);
  }

  lemma PersonFieldNames()
    ensures SerializedFieldName(PersonEnv()[0].fields[0]) == "name"
    ensures SerializedFieldName(PersonEnv()[0].fields[1]) == "age"
    ensures SerializedFieldName(PersonEnv()[0].fields[2]) == ""
  {
    NameFieldName();
    AgeFieldName();
    SecretFieldName();
  }

  lemma PersonFields(reg: Reg)
    requires EnvOk(PersonEnv())
    ensures StructProps(PersonEnv(), reg, StructTy(0)) == (Ok(NonNil([NameP, AgeP])), reg)
  {
    var env := PersonEnv();
    PersonFieldNames();
    assert NameOf(env, reg, Leaf(String)) == (Ok("string"), reg);
    assert NameOf(env, reg, Leaf(Int)) == (Ok("integer"), reg);
    NamedStep(env, reg, 0, 0, NilSlice, "string");
    assert Append(NilSlice, NameP) == NonNil([NameP]);
    NamedStep(env, reg, 0, 1, NonNil([NameP]), "integer");
    assert Append(NonNil([NameP]), AgeP) == NonNil([NameP, AgeP]);
    SkipStep(env, reg, 0, 2, NonNil([NameP, AgeP]));
    LoopEnd(env, reg, 0, NonNil([NameP, AgeP]));
    assert FieldProps(env, reg, 0, 0, NilSlice) == (Ok(NonNil([NameP, AgeP])), reg);
  }

  lemma PersonRegistered()
    requires EnvOk(PersonEnv())
    ensures Registered(PersonEnv(), [StructTy(0)]) == Ok(map["Person" := NonNil([NameP, AgeP])])
  {
    var env := PersonEnv();
    var held: Reg := map["Person" := NonNil([])];
    PersonFields(held);
    assert map[][env[0].name := NonNil([])] == held;
    assert held["Person" := NonNil([NameP, AgeP])] == map["Person" := NonNil([NameP, AgeP])];
    RegisteredOne(env, StructTy(0));
  }

  lemma PersonPropertyMap()
    ensures PropertyMap([NameP, AgeP]) == map["name" := NameP, "age" := AgeP]
  {
    assert [NameP][..0] == [];
    assert PropertyMap([NameP]) == map[]["name" := NameP];
    assert [NameP, AgeP][..1] == [NameP];
    assert PropertyMap([NameP, AgeP]) == PropertyMap([NameP])["age" := AgeP];
  }

  /** The tags rename the fields, the unexported field is dropped, and the
      `desc` tag becomes the description. */
  lemma PersonTypes()
    ensures EnvOk(PersonEnv())
    ensures InferredTypes(PersonEnv(), [StructTy(0)]) == Ok(map["Person" := Object(map[
      "name" := Property("name", "string", ""),
      "age" := Property("age", "integer", "years")])])
  {
    PersonEnvOk();
    PersonRegistered();
    OneEntryTypes(PersonEnv(), [StructTy(0)], "Person", NonNil([NameP, AgeP]));
    PersonPropertyMap();
    assert YamlType(NonNil([NameP, AgeP]).Items()) == Object(map["name" := NameP, "age" := AgeP]);
  }
}
