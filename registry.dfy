/** The type registry updated in place, as reflection-magic.go does it: the
    methods of `TypeRegistry` are structTypeName, typeNameOf and buildStructType
    over the shared `types` map, each proved to leave the map, and return the
    value, that the functions of module TypeWalk describe. */
module Registry {
  import opened Panics
  import opened GoTypes
  import opened Naming
  import opened Schema
  import opened Specimen
  import opened TypeWalk

  /** buildStructTypeForJsonMarshaller: decode the specimen and infer from it. */
  method BuildStructTypeForJsonMarshaller(d: StructDecl) returns (r: Result<Props>)
    ensures r == MarshalerProps(d)
  {
    if d.specimen.None? {
      return Panic(MarshalFailed);
    }
    var example := BuildTypeFromExample(d.specimen.value);
    if example.Panic? {
      return Panic(example.cause);
    }
    return Ok(example.value.1);
  }

  class TypeRegistry {
    /** `map[string][]Property`, shared by every call of one walk. */
    var types: Reg

    constructor ()
      ensures types == map[]
    {
      types := map[];
    }

    /** structTypeName. */
    method StructTypeName(env: Env, t: Ty) returns (r: Result<string>)
      requires EnvOk(env) && TyIn(env, t)
      modifies this
      ensures (r, types) == StructName(env, old(types), t)
      decreases |Unbuilt(env, types)|, 0, 0, 0, 0
    {
      if !t.StructTy? {
        return Panic(NotStruct);
      }
      var typeName := env[t.id].name;
      if IsNil(types, typeName) {
        // the placeholder that lets a recursive type refer to itself
        PlaceholderShrinks(env, types, t.id);
        types := types[typeName := NonNil([])];
        var built := BuildStructType(env, t);
        if built.Panic? {
          return Panic(built.cause);
        }
        types := types[typeName := built.value];
      }
      return Ok(typeName);
    }

    /** typeNameOf. */
    method TypeNameOf(env: Env, t: Ty) returns (r: Result<string>)
      requires EnvOk(env) && TyIn(env, t)
      modifies this
      ensures (r, types) == NameOf(env, old(types), t)
      decreases |Unbuilt(env, types)|, 1, 0, 0, 0
    {
      if IsPrimitiveType(t) {
        return PrimitiveTypeName(t);
      }
      match t {
        case StructTy(_) =>
          r := StructTypeName(env, t);
        case PtrTo(e) =>
          r := StructTypeName(env, e);
        case SliceOf(e) =>
          var n := StructTypeName(env, e);
          if n.Panic? {
            return Panic(n.cause);
          }
          return Ok(n.value + "[]");
        case MapOf(_, _) =>
          return Ok("object");
        case Leaf(_) =>
          return Panic(NoTypeName);
      }
    }

    /** buildStructType, with its loop over the fields. */
    method BuildStructType(env: Env, t: Ty) returns (r: Result<Props>)
      requires EnvOk(env) && TyIn(env, t)
      modifies this
      ensures (r, types) == StructProps(env, old(types), t)
      decreases |Unbuilt(env, types)|, 2, Rank(t), Width(env, t), 0
    {
      if t.StructTy? && env[t.id].marshaler {
        r := BuildStructTypeForJsonMarshaller(env[t.id]);
        return;
      }
      if !t.StructTy? {
        return Panic(NotStructFields);
      }
      var fields := env[t.id].fields;
      var props: Props := NilSlice;
      ghost var types0 := types;
      var idx := 0;
      while idx < |fields|
        invariant idx <= |fields|
        invariant Keeps(types0, types)
        invariant FieldProps(env, types, t.id, idx, props) == FieldProps(env, types0, t.id, 0, NilSlice)
      {
        KeepsShrinks(env, types0, types);
        ghost var before := types;
        var step := AddField(env, t.id, idx, props);
        KeepsTransitive(types0, before, types);
        if step.Panic? {
          return step;
        }
        props := step.value;
        idx := idx + 1;
      }
      return Ok(props);
    }

    /** One turn of buildStructType's loop: field `idx` of struct `id` is skipped,
        flattened in (embedded) or added as a property. */
    method AddField(env: Env, id: nat, idx: nat, props: Props) returns (r: Result<Props>)
      requires EnvOk(env) && id in env && idx < |env[id].fields|
      modifies this
      ensures Keeps(old(types), types)
      ensures r.Panic? ==> (r, types) == FieldProps(env, old(types), id, idx, props)
      ensures r.Ok? ==> FieldProps(env, types, id, idx + 1, r.value) == FieldProps(env, old(types), id, idx, props)
      decreases |Unbuilt(env, types)|, 2, id, |env[id].fields| - idx, 0
    {
      var field := env[id].fields[idx];
      var fieldName := SerializedFieldName(field);
      if fieldName == "" {
        return Ok(props);
      }
      if field.anonymous {
        // the fields of an embedded struct are appended directly
        var embedded := BuildStructType(env, field.ty);
        if embedded.Panic? {
          return Panic(embedded.cause);
        }
        return Ok(AppendAll(props, embedded.value));
      }
      var typeName := TypeNameOf(env, field.ty);
      if typeName.Panic? {
        return Panic(typeName.cause);
      }
      return Ok(Append(props, Property(fieldName, typeName.value, field.descTag)));
    }
  }
}
