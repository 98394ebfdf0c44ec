/** The part of Go's type system the schema reflector looks at, as values.

    `reflect.Type` is replaced by `Ty`; a struct type is a reference `StructTy(id)`
    into a finite environment of declarations, so recursive types are finite
    values. A declaration carries everything the reflector reads from a struct
    type: its name (`t.Name()`), its fields with their `json` and `desc` tags
    and anonymous flag, whether the type implements `json.Marshaler`, and the
    document its `MarshalJSON` produces for a fresh instance, already decoded
    (an oracle for the call the reflector makes at run time).
 */
module GoTypes {
  import opened Panics

  /** The kinds of package reflect, in its order. */
  datatype Kind =
    | Invalid | Bool
    | Int | Int8 | Int16 | Int32 | Int64
    | Uint | Uint8 | Uint16 | Uint32 | Uint64 | Uintptr
    | Float32 | Float64 | Complex64 | Complex128
    | Array | Chan | Func | Interface | Map | Ptr | Slice | String | Struct | UnsafePointer

  /** Kinds that `Ty` does not give a constructor of their own. */
  predicate IsLeafKind(k: Kind) {
    !(k.Map? || k.Ptr? || k.Slice? || k.Struct?)
  }

  type LeafKind = k: Kind | IsLeafKind(k) witness Bool

  datatype Ty =
    | Leaf(leaf: LeafKind)
    | StructTy(id: nat)
    | PtrTo(elem: Ty)
    | SliceOf(elem: Ty)
    | MapOf(key: Ty, value: Ty)
  {
    /** reflect.Type.Kind() */
    function Kind(): (k: Kind)
      ensures k.Struct? <==> StructTy?
      ensures k.Ptr? <==> PtrTo?
      ensures k.Slice? <==> SliceOf?
      ensures k.Map? <==> MapOf?
    {
      match this
      case Leaf(k) => k
      case StructTy(_) => Struct
      case PtrTo(_) => Ptr
      case SliceOf(_) => Slice
      case MapOf(_, _) => Map
    }
  }

  /** One entry of reflect.Type.Field(i). An absent tag key reads as "", as with
      reflect.StructTag.Get. */
  datatype Field = Field(name: string, ty: Ty, jsonTag: string, descTag: string, anonymous: bool)

  /** A decoded JSON document as encoding/json produces it into an interface{}:
      null, bool, float64, string, []interface{} and map[string]interface{}. The
      members of an object are listed in the order the map is enumerated. */
  datatype Json =
    | JNull
    | JBool(b: bool)
    | JNumber(n: real)
    | JString(s: string)
    | JArray(items: seq<Json>)
    | JObject(members: seq<(string, Json)>)

  /** A named struct type. `specimen` is what decoding the output of `MarshalJSON`
      on a fresh instance yields (`None` when either step fails); it is only
      read when `marshaler` holds. */
  datatype StructDecl = StructDecl(name: string, fields: seq<Field>, marshaler: bool, specimen: Option<Json>)

  type Env = map<nat, StructDecl>

  /** Every struct type mentioned by `t` is declared in `env`. */
  predicate TyIn(env: Env, t: Ty) {
    match t
    case Leaf(_) => true
    case StructTy(id) => id in env
    case PtrTo(e) => TyIn(env, e)
    case SliceOf(e) => TyIn(env, e)
    case MapOf(k, v) => TyIn(env, k) && TyIn(env, v)
  }

  /** What the Go compiler guarantees of the program's types: field types refer
      to declared structs, and struct embedding is acyclic (a struct cannot
      contain itself by value). Acyclicity is stated by numbering: an embedded
      struct is declared under a smaller id than the struct embedding it. */
  predicate EnvOk(env: Env) {
    forall id, i | id in env && 0 <= i < |env[id].fields| ::
      && TyIn(env, env[id].fields[i].ty)
      && (env[id].fields[i].anonymous && env[id].fields[i].ty.StructTy? ==> env[id].fields[i].ty.id < id)
  }
}
