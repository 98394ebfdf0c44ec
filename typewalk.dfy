/** The structural introspector and its type registry, as functions that pass
    the registry along: `StructName` is structTypeName, `NameOf` is typeNameOf,
    `StructProps` is buildStructType, `FieldProps` is its loop over the fields
    and `MarshalerProps` is buildStructTypeForJsonMarshaller. Each returns the
    registry as the Go code leaves it. The class in module Registry runs the
    same steps in place and is proved equal to these functions.

    Termination rests on the placeholder: a name is given a non-nil empty entry
    before its fields are walked, and a non-nil entry is never rebuilt, so the
    set of names whose entry is still nil shrinks on every nested build. */
module TypeWalk {
  import opened Panics
  import opened GoTypes
  import opened Naming
  import opened Schema
  import opened Specimen

  /** The registry `map[string][]Property`. */
  type Reg = map<string, Props>

  /** `types[name] == nil`: no entry, or a nil slice. */
  predicate IsNil(reg: Reg, name: string) {
    name !in reg || reg[name].NilSlice?
  }

  function Names(env: Env): set<string> {
    set id | id in env :: env[id].name
  }

  /** The struct names that would still be built if met. */
  function Unbuilt(env: Env, reg: Reg): set<string> {
    set n | n in Names(env) && IsNil(reg, n)
  }

  /** No entry of `older` is removed, and every non-nil one is unchanged. */
  ghost predicate Keeps(older: Reg, newer: Reg) {
    forall n | n in older :: n in newer && (older[n].NonNil? ==> newer[n] == older[n])
  }

  lemma {:induction false} SubsetCard<T>(a: set<T>, b: set<T>)
    requires a <= b
    ensures |a| <= |b|
    decreases a
  {
    if a != {} {
      var x :| x in a;
      SubsetCard(a - {x}, b - {x});
    }
  }

  lemma KeepsShrinks(env: Env, older: Reg, newer: Reg)
    requires Keeps(older, newer)
    ensures Unbuilt(env, newer) <= Unbuilt(env, older)
    ensures |Unbuilt(env, newer)| <= |Unbuilt(env, older)|
  {
    SubsetCard(Unbuilt(env, newer), Unbuilt(env, older));
  }

  lemma PlaceholderShrinks(env: Env, reg: Reg, id: nat)
    requires id in env && IsNil(reg, env[id].name)
    ensures |Unbuilt(env, reg[env[id].name := NonNil([])])| < |Unbuilt(env, reg)|
  {
    var name := env[id].name;
    assert name in Names(env);
    assert Unbuilt(env, reg[name := NonNil([])]) == Unbuilt(env, reg) - {name};
  }

  lemma KeepsTransitive(a: Reg, b: Reg, c: Reg)
    requires Keeps(a, b) && Keeps(b, c)
    ensures Keeps(a, c)
  {
  }

  function Rank(t: Ty): nat {
    if t.StructTy? then t.id else 0
  }

  function Width(env: Env, t: Ty): nat {
    if t.StructTy? && t.id in env then |env[t.id].fields| + 1 else 0
  }

  // ---------------------------------------------------------------------------
  // A registry-free reference: the names and property lists the walk returns,
  // stated without any memoization.

  /** The name typeNameOf returns for `t`, when it returns one. */
  function TypeNameRef(env: Env, t: Ty): Option<string>
    requires TyIn(env, t)
  {
    if IsPrimitiveType(t) then Some(PrimitiveTypeName(t).value)
    else match t
      case StructTy(id) => Some(env[id].name)
      case PtrTo(e) => assert TyIn(env, e); if e.StructTy? then Some(env[e.id].name) else None
      case SliceOf(e) => assert TyIn(env, e); if e.StructTy? then Some(env[e.id].name + "[]") else None
      case MapOf(_, _) => Some("object")
      case Leaf(_) => None
  }

  /** The properties buildStructType lists for `t`: in field order, skipping
      fields whose serialized name is empty, splicing in an embedded struct's
      own properties in place of the field, and for a json.Marshaler the
      properties of its specimen instead of its fields. */
  function ShapeRef(env: Env, t: Ty): Option<seq<Property>>
    requires EnvOk(env) && TyIn(env, t)
    decreases Rank(t), Width(env, t)
  {
    if !t.StructTy? then None
    else if env[t.id].marshaler then
      match MarshalerProps(env[t.id])
      case Ok(p) => Some(p.Items())
      case Panic(_) => None
    else FieldsRef(env, t.id, 0)
  }

  function FieldsRef(env: Env, id: nat, i: nat): Option<seq<Property>>
    requires EnvOk(env) && id in env && i <= |env[id].fields|
    decreases id, |env[id].fields| - i
  {
    var fields := env[id].fields;
    if i == |fields| then Some([])
    else
      var f := fields[i];
      var name := SerializedFieldName(f);
      var rest := FieldsRef(env, id, i + 1);
      if name == "" then rest
      else if f.anonymous then
        match ShapeRef(env, f.ty)
        case Some(p) => if rest.Some? then Some(p + rest.value) else None
        case None => None
      else
        match TypeNameRef(env, f.ty)
        case Some(tn) => if rest.Some? then Some([Property(name, tn, f.descTag)] + rest.value) else None
        case None => None
  }

  lemma EmbeddedStep(env: Env, id: nat, i: nat, acc: seq<Property>, p: seq<Property>)
    requires EnvOk(env) && id in env && i < |env[id].fields|
    requires SerializedFieldName(env[id].fields[i]) != "" && env[id].fields[i].anonymous
    requires ShapeRef(env, env[id].fields[i].ty) == Some(p) && FieldsRef(env, id, i + 1).Some?
    ensures FieldsRef(env, id, i).Some?
    ensures acc + p + FieldsRef(env, id, i + 1).value == acc + FieldsRef(env, id, i).value
  {
  }

  lemma NamedStep(env: Env, id: nat, i: nat, acc: seq<Property>, tn: string)
    requires EnvOk(env) && id in env && i < |env[id].fields|
    requires SerializedFieldName(env[id].fields[i]) != "" && !env[id].fields[i].anonymous
    requires TypeNameRef(env, env[id].fields[i].ty) == Some(tn) && FieldsRef(env, id, i + 1).Some?
    ensures FieldsRef(env, id, i).Some?
    ensures acc + [Property(SerializedFieldName(env[id].fields[i]), tn, env[id].fields[i].descTag)] + FieldsRef(env, id, i + 1).value
            == acc + FieldsRef(env, id, i).value
  {
  }

  /** `p` is the reference property list of a declared struct named `n`. */
  ghost predicate BuiltAs(env: Env, n: string, p: Props)
    requires EnvOk(env)
  {
    exists id | id in env && env[id].name == n :: ShapeRef(env, StructTy(id)) == Some(p.Items())
  }

  /** Every entry of `newer` is the entry `older` had, or the reference
      properties of a declared struct of that name. */
  ghost predicate Grounded(env: Env, older: Reg, newer: Reg)
    requires EnvOk(env)
  {
    forall n | n in newer :: (n in older && newer[n] == older[n]) || BuiltAs(env, n, newer[n])
  }

  lemma GroundedTransitive(env: Env, a: Reg, b: Reg, c: Reg)
    requires EnvOk(env) && Grounded(env, a, b) && Grounded(env, b, c)
    ensures Grounded(env, a, c)
  {
  }

  /** Storing a fresh build over the placeholder keeps the registry grounded. */
  lemma GroundedStore(env: Env, reg: Reg, after: Reg, id: nat, props: Props)
    requires EnvOk(env) && id in env
    requires Grounded(env, reg[env[id].name := NonNil([])], after)
    requires ShapeRef(env, StructTy(id)) == Some(props.Items())
    ensures Grounded(env, reg, after[env[id].name := props])
  {
    var name := env[id].name;
    assert BuiltAs(env, name, props);
  }

  // ---------------------------------------------------------------------------
  // The walk itself.

  /** buildStructTypeForJsonMarshaller: the properties of the decoded specimen;
      the declared fields are not looked at. */
  function MarshalerProps(d: StructDecl): (r: Result<Props>)
    ensures d.specimen.None? ==> r == Panic(MarshalFailed)
    ensures d.specimen.Some? ==> r.Ok? == ExampleType(d.specimen.value).Ok?
    ensures r.Ok? ==> r.value == ExampleType(d.specimen.value).value.1 && r.value.NonNil?
  {
    match d.specimen
    case None => Panic(MarshalFailed)
    case Some(decoded) =>
      match ExampleType(decoded)
      case Ok((_, properties)) => Ok(properties)
      case Panic(c) => Panic(c)
  }

  /** structTypeName: panics on a non-struct; otherwise returns the struct's
      name, building its entry first when the entry is nil, with a non-nil empty
      placeholder stored while its fields are walked. A non-nil entry is
      returned as is and never rebuilt, so the first definition under a name
      wins. */
  function StructName(env: Env, reg: Reg, t: Ty): (res: (Result<string>, Reg))
    requires EnvOk(env) && TyIn(env, t)
    ensures Keeps(reg, res.1)
    ensures res.1.Keys <= reg.Keys + Names(env)
    ensures res.0.Ok? ==> Grounded(env, reg, res.1)
    ensures !t.StructTy? ==> res == (Panic(NotStruct), reg)
    ensures res.0.Ok? ==> t.StructTy? && res.0.value == env[t.id].name && env[t.id].name in res.1
    ensures t.StructTy? && !IsNil(reg, env[t.id].name) ==> res == (Ok(env[t.id].name), reg)
    ensures res.0.Ok? && IsNil(reg, env[t.id].name) ==> ShapeRef(env, t) == Some(res.1[env[t.id].name].Items())
    decreases |Unbuilt(env, reg)|, 0, 0, 0, 0
  {
    if !t.StructTy? then (Panic(NotStruct), reg)
    else
      var name := env[t.id].name;
      if !IsNil(reg, name) then (Ok(name), reg)
      else
        var placeheld := reg[name := NonNil([])];
        PlaceholderShrinks(env, reg, t.id);
        var (built, after) := StructProps(env, placeheld, t);
        match built
        case Panic(c) => (Panic(c), after)
        case Ok(props) =>
          GroundedStore(env, reg, after, t.id, props);
          (Ok(name), after[name := props])
  }

  /** typeNameOf: a primitive's RAML name; a struct, or a pointer to one, by
      name through structTypeName; a slice of structs as "<name>[]"; any map as
      "object"; everything else panics, including a pointer to or a slice of a
      non-struct (`*string`, `[]string`). */
  function NameOf(env: Env, reg: Reg, t: Ty): (res: (Result<string>, Reg))
    requires EnvOk(env) && TyIn(env, t)
    ensures Keeps(reg, res.1)
    ensures res.1.Keys <= reg.Keys + Names(env)
    ensures res.0.Ok? ==> Grounded(env, reg, res.1)
    ensures res.0.Ok? ==> TypeNameRef(env, t) == Some(res.0.value)
    ensures IsPrimitiveType(t) ==> res == (PrimitiveTypeName(t), reg)
    ensures t.MapOf? ==> res == (Ok("object"), reg)
    ensures t.Leaf? && !IsPrimitiveType(t) ==> res == (Panic(NoTypeName), reg)
    ensures t.PtrTo? || t.SliceOf? ==> (res.0.Ok? <==> StructName(env, reg, t.elem).0.Ok?)
    ensures (t.PtrTo? || t.SliceOf?) && !t.elem.StructTy? ==> res == (Panic(NotStruct), reg)
    decreases |Unbuilt(env, reg)|, 1, 0, 0, 0
  {
    if IsPrimitiveType(t) then (PrimitiveTypeName(t), reg)
    else match t
      case StructTy(_) => StructName(env, reg, t)
      case PtrTo(e) => StructName(env, reg, e)
      case SliceOf(e) =>
        var (r, after) := StructName(env, reg, e);
        (match r
         case Ok(n) => Ok(n + "[]")
         case Panic(c) => Panic(c), after)
      case MapOf(_, _) => (Ok("object"), reg)
      case Leaf(_) => (Panic(NoTypeName), reg)
  }

  /** buildStructType: a json.Marshaler uses its specimen and leaves the registry
      alone; a non-struct panics; otherwise the fields are walked in order. */
  function StructProps(env: Env, reg: Reg, t: Ty): (res: (Result<Props>, Reg))
    requires EnvOk(env) && TyIn(env, t)
    ensures Keeps(reg, res.1)
    ensures res.1.Keys <= reg.Keys + Names(env)
    ensures res.0.Ok? ==> Grounded(env, reg, res.1)
    ensures res.0.Ok? ==> ShapeRef(env, t) == Some(res.0.value.Items())
    ensures !t.StructTy? ==> res == (Panic(NotStructFields), reg)
    ensures t.StructTy? && env[t.id].marshaler ==> res == (MarshalerProps(env[t.id]), reg)
    decreases |Unbuilt(env, reg)|, 2, Rank(t), Width(env, t), 0
  {
    if !t.StructTy? then (Panic(NotStructFields), reg)
    else if env[t.id].marshaler then (MarshalerProps(env[t.id]), reg)
    else
      assert ShapeRef(env, t) == FieldsRef(env, t.id, 0);
      var res := FieldProps(env, reg, t.id, 0, NilSlice);
      assert res.0.Ok? ==> FieldsRef(env, t.id, 0).Some?;
      assert res.0.Ok? ==> res.0.value.Items() == [] + FieldsRef(env, t.id, 0).value;
      assert res.0.Ok? ==> res.0.value.Items() == FieldsRef(env, t.id, 0).value;
      res
  }

  /** The loop of buildStructType from field `i` on, `acc` holding the
      properties collected so far. */
  function FieldProps(env: Env, reg: Reg, id: nat, i: nat, acc: Props): (res: (Result<Props>, Reg))
    requires EnvOk(env) && id in env && i <= |env[id].fields|
    ensures Keeps(reg, res.1)
    ensures res.1.Keys <= reg.Keys + Names(env)
    ensures res.0.Ok? ==> Grounded(env, reg, res.1)
    ensures res.0.Ok? ==> FieldsRef(env, id, i).Some? && res.0.value.Items() == acc.Items() + FieldsRef(env, id, i).value
    decreases |Unbuilt(env, reg)|, 2, id, |env[id].fields| - i, 1
  {
    if i == |env[id].fields| then (Ok(acc), reg)
    else if SerializedFieldName(env[id].fields[i]) == "" then FieldProps(env, reg, id, i + 1, acc)
    else if env[id].fields[i].anonymous then EmbeddedFieldProps(env, reg, id, i, acc)
    else NamedFieldProps(env, reg, id, i, acc)
  }

  /** One step of that loop for an embedded field: its struct's own properties
      are appended in place of the field. */
  function EmbeddedFieldProps(env: Env, reg: Reg, id: nat, i: nat, acc: Props): (res: (Result<Props>, Reg))
    requires EnvOk(env) && id in env && i < |env[id].fields|
    requires SerializedFieldName(env[id].fields[i]) != "" && env[id].fields[i].anonymous
    ensures Keeps(reg, res.1)
    ensures res.1.Keys <= reg.Keys + Names(env)
    ensures res.0.Ok? ==> Grounded(env, reg, res.1)
    ensures res.0.Ok? ==> FieldsRef(env, id, i).Some? && res.0.value.Items() == acc.Items() + FieldsRef(env, id, i).value
    decreases |Unbuilt(env, reg)|, 2, id, |env[id].fields| - i, 0
  {
    var f := env[id].fields[i];
    var (r, after) := StructProps(env, reg, f.ty);
    match r
    case Panic(c) => (Panic(c), after)
    case Ok(p) =>
      KeepsShrinks(env, reg, after);
      var rest := FieldProps(env, after, id, i + 1, AppendAll(acc, p));
      KeepsTransitive(reg, after, rest.1);
      if rest.0.Ok? then
        GroundedTransitive(env, reg, after, rest.1);
        EmbeddedStep(env, id, i, acc.Items(), p.Items());
        rest
      else rest
  }

  /** One step of that loop for a named field: one property, typed by typeNameOf
      and described by the `desc` tag. */
  function NamedFieldProps(env: Env, reg: Reg, id: nat, i: nat, acc: Props): (res: (Result<Props>, Reg))
    requires EnvOk(env) && id in env && i < |env[id].fields|
    requires SerializedFieldName(env[id].fields[i]) != "" && !env[id].fields[i].anonymous
    ensures Keeps(reg, res.1)
    ensures res.1.Keys <= reg.Keys + Names(env)
    ensures res.0.Ok? ==> Grounded(env, reg, res.1)
    ensures res.0.Ok? ==> FieldsRef(env, id, i).Some? && res.0.value.Items() == acc.Items() + FieldsRef(env, id, i).value
    decreases |Unbuilt(env, reg)|, 2, id, |env[id].fields| - i, 0
  {
    var f := env[id].fields[i];
    var (r, after) := NameOf(env, reg, f.ty);
    match r
    case Panic(c) => (Panic(c), after)
    case Ok(tn) =>
      KeepsShrinks(env, reg, after);
      var rest := FieldProps(env, after, id, i + 1, Append(acc, Property(SerializedFieldName(f), tn, f.descTag)));
      KeepsTransitive(reg, after, rest.1);
      if rest.0.Ok? then
        GroundedTransitive(env, reg, after, rest.1);
        NamedStep(env, id, i, acc.Items(), tn);
        rest
      else rest
  }

  // ---------------------------------------------------------------------------
  // When the walk succeeds: whenever the reference describes every declared
  // struct, none of the walk's panics can fire.

  /** The reference gives a property list for every declared struct. */
  ghost predicate AllShaped(env: Env)
    requires EnvOk(env)
  {
    forall id | id in env :: ShapeRef(env, StructTy(id)).Some?
  }

  /** structTypeName succeeds on every struct, whatever the registry holds. */
  lemma StructNameSucceeds(env: Env, reg: Reg, t: Ty)
    requires EnvOk(env) && TyIn(env, t) && AllShaped(env) && t.StructTy?
    ensures StructName(env, reg, t).0.Ok?
    decreases |Unbuilt(env, reg)|, 0, 0, 0, 0
  {
    var name := env[t.id].name;
    if IsNil(reg, name) {
      PlaceholderShrinks(env, reg, t.id);
      StructPropsSucceeds(env, reg[name := NonNil([])], t);
    }
  }

  /** typeNameOf succeeds on every type the reference names. */
  lemma NameOfSucceeds(env: Env, reg: Reg, t: Ty)
    requires EnvOk(env) && TyIn(env, t) && AllShaped(env) && TypeNameRef(env, t).Some?
    ensures NameOf(env, reg, t).0.Ok?
    decreases |Unbuilt(env, reg)|, 1, 0, 0, 0
  {
    if !IsPrimitiveType(t) {
      match t
      case StructTy(_) => StructNameSucceeds(env, reg, t);
      case PtrTo(e) => StructNameSucceeds(env, reg, e);
      case SliceOf(e) => StructNameSucceeds(env, reg, e);
      case MapOf(_, _) =>
      case Leaf(_) =>
    }
  }

  /** buildStructType succeeds on every struct the reference describes. */
  lemma StructPropsSucceeds(env: Env, reg: Reg, t: Ty)
    requires EnvOk(env) && TyIn(env, t) && AllShaped(env) && ShapeRef(env, t).Some?
    ensures StructProps(env, reg, t).0.Ok?
    decreases |Unbuilt(env, reg)|, 2, Rank(t), Width(env, t), 0
  {
    if !env[t.id].marshaler {
      assert ShapeRef(env, t) == FieldsRef(env, t.id, 0);
      FieldPropsSucceeds(env, reg, t.id, 0, NilSlice);
    }
  }

  lemma FieldPropsSucceeds(env: Env, reg: Reg, id: nat, i: nat, acc: Props)
    requires EnvOk(env) && id in env && i <= |env[id].fields| && AllShaped(env)
    requires FieldsRef(env, id, i).Some?
    ensures FieldProps(env, reg, id, i, acc).0.Ok?
    decreases |Unbuilt(env, reg)|, 2, id, |env[id].fields| - i, 1
  {
    if i < |env[id].fields| {
      var f := env[id].fields[i];
      if SerializedFieldName(f) == "" {
        FieldPropsSucceeds(env, reg, id, i + 1, acc);
      } else if f.anonymous {
        EmbeddedFieldPropsSucceeds(env, reg, id, i, acc);
      } else {
        NamedFieldPropsSucceeds(env, reg, id, i, acc);
      }
    }
  }

  lemma EmbeddedFieldPropsSucceeds(env: Env, reg: Reg, id: nat, i: nat, acc: Props)
    requires EnvOk(env) && id in env && i < |env[id].fields| && AllShaped(env)
    requires SerializedFieldName(env[id].fields[i]) != "" && env[id].fields[i].anonymous
    requires FieldsRef(env, id, i).Some?
    ensures EmbeddedFieldProps(env, reg, id, i, acc).0.Ok?
    decreases |Unbuilt(env, reg)|, 2, id, |env[id].fields| - i, 0
  {
    var f := env[id].fields[i];
    StructPropsSucceeds(env, reg, f.ty);
    var (r, after) := StructProps(env, reg, f.ty);
    KeepsShrinks(env, reg, after);
    FieldPropsSucceeds(env, after, id, i + 1, AppendAll(acc, r.value));
  }

  lemma NamedFieldPropsSucceeds(env: Env, reg: Reg, id: nat, i: nat, acc: Props)
    requires EnvOk(env) && id in env && i < |env[id].fields| && AllShaped(env)
    requires SerializedFieldName(env[id].fields[i]) != "" && !env[id].fields[i].anonymous
    requires FieldsRef(env, id, i).Some?
    ensures NamedFieldProps(env, reg, id, i, acc).0.Ok?
    decreases |Unbuilt(env, reg)|, 2, id, |env[id].fields| - i, 0
  {
    var f := env[id].fields[i];
    NameOfSucceeds(env, reg, f.ty);
    var (r, after) := NameOf(env, reg, f.ty);
    KeepsShrinks(env, reg, after);
    FieldPropsSucceeds(env, after, id, i + 1, Append(acc, Property(SerializedFieldName(f), r.value, f.descTag)));
  }
}
