/** The specimen-based inferrer: buildTypeFromExample, fed with the decoded
    output of a `json.Marshaler`. The inference is one level deep. */
module Specimen {
  import opened Panics
  import opened GoTypes
  import opened Naming
  import opened Schema

  /** reflect.TypeOf of a decoded JSON value; `None` is the nil type of a JSON null. */
  function JsonTy(v: Json): (r: Option<Ty>)
    ensures r.None? <==> v.JNull?
    ensures r.Some? ==> (IsPrimitiveType(r.value) <==> v.JBool? || v.JNumber? || v.JString?)
    ensures r.Some? ==> (r.value.MapOf? <==> v.JObject?)
  {
    match v
    case JNull => None
    case JBool(_) => Some(Leaf(Bool))
    case JNumber(_) => Some(Leaf(Float64))
    case JString(_) => Some(Leaf(String))
    case JArray(_) => Some(SliceOf(Leaf(Interface)))
    case JObject(_) => Some(MapOf(Leaf(String), Leaf(Interface)))
  }

  /** typeNameOf(nil, t): the rules of typeNameOf with no registry to store
      into. A struct reached this way would be stored into the nil map, which
      panics. */
  function NilRegistryTypeName(t: Ty): (r: Result<string>)
    ensures IsPrimitiveType(t) ==> r == PrimitiveTypeName(t)
    ensures t.MapOf? ==> r == Ok("object")
    ensures r.Ok? ==> IsPrimitiveType(t) || t.MapOf?
  {
    if IsPrimitiveType(t) then PrimitiveTypeName(t)
    else match t
      case StructTy(_) => Panic(NilMapWrite)
      case PtrTo(e) => if e.StructTy? then Panic(NilMapWrite) else Panic(NotStruct)
      case SliceOf(e) => if e.StructTy? then Panic(NilMapWrite) else Panic(NotStruct)
      case MapOf(_, _) => Ok("object")
      case Leaf(_) => Panic(NoTypeName)
  }

  /** The type name given to one member value of an example object. */
  function ValueTypeName(v: Json): (r: Result<string>)
    ensures r == Ok("boolean") <==> v.JBool?
    ensures r == Ok("number") <==> v.JNumber?
    ensures r == Ok("string") <==> v.JString?
    ensures r == Ok("object") <==> v.JObject?
    ensures v.JNull? ==> r == Panic(NilExampleType)
    ensures v.JArray? ==> r == Panic(NotStruct)
  {
    match JsonTy(v)
    case None => Panic(NilExampleType)
    case Some(t) => NilRegistryTypeName(t)
  }

  /** The property of member `m` of an example object. */
  function MemberProperty(m: (string, Json)): Property
    requires ValueTypeName(m.1).Ok?
  {
    Property(m.0, ValueTypeName(m.1).value, "")
  }

  /** The loop over the members of an example object, from member `i` on, with
      `acc` the properties collected so far. */
  function MemberProps(members: seq<(string, Json)>, i: nat, acc: seq<Property>): (r: Result<seq<Property>>)
    requires i <= |members|
    ensures r.Ok? <==> forall j | i <= j < |members| :: ValueTypeName(members[j].1).Ok?
    ensures r.Ok? ==> |r.value| == |acc| + |members| - i && r.value[..|acc|] == acc
    ensures r.Ok? ==> forall j | i <= j < |members| :: r.value[|acc| + j - i] == MemberProperty(members[j])
    ensures r.Panic? ==> r.cause in {NilExampleType, NotStruct}
    decreases |members| - i
  {
    if i == |members| then Ok(acc)
    else match ValueTypeName(members[i].1)
      case Panic(c) => Panic(c)
      case Ok(tn) => MemberProps(members, i + 1, acc + [Property(members[i].0, tn, "")])
  }

  /** buildTypeFromExample: a scalar yields its primitive name and one nameless
      property of that type; an object yields "object" and one property per
      member, typed by the member's immediate kind (a nested object is
      "object", a null or array member panics); anything else panics. The
      property list is never a nil slice. */
  function ExampleType(v: Json): (r: Result<(string, Props)>)
    ensures (v.JBool? || v.JNumber? || v.JString?) ==>
      && r.Ok? && r.value.0 in RamlScalars
      && r.value.1 == NonNil([Property("", r.value.0, "")])
    ensures (v.JBool? || v.JNumber? || v.JString?) ==> Ok(r.value.0) == ValueTypeName(v)
    ensures v.JNumber? ==> r.Ok? && r.value.0 == "number"
    ensures v.JObject? ==>
      && (r.Ok? <==> forall j | 0 <= j < |v.members| :: ValueTypeName(v.members[j].1).Ok?)
      && (r.Ok? ==>
        && r.value.0 == "object" && r.value.1.NonNil?
        && |r.value.1.items| == |v.members|
        && forall j | 0 <= j < |v.members| :: r.value.1.items[j] == MemberProperty(v.members[j]))
    ensures v.JNull? ==> r == Panic(NilExampleType)
    ensures v.JArray? ==> r == Panic(NoExampleType)
  {
    match v
    case JBool(_) | JNumber(_) | JString(_) =>
      var n := PrimitiveTypeName(JsonTy(v).value).value;
      Ok((n, NonNil([Property("", n, "")])))
    case JObject(members) =>
      (match MemberProps(members, 0, [])
       case Ok(ps) => Ok(("object", NonNil(ps)))
       case Panic(c) => Panic(c))
    case JNull => Panic(NilExampleType)
    case JArray(_) => Panic(NoExampleType)
  }

  /** buildTypeFromExample as the source runs it, with its loop over the members. */
  method BuildTypeFromExample(example: Json) returns (r: Result<(string, Props)>)
    ensures r == ExampleType(example)
  {
    var t := JsonTy(example);
    if t.None? {
      return Panic(NilExampleType);
    }
    if IsPrimitiveType(t.value) {
      var n := PrimitiveTypeName(t.value).value;
      return Ok((n, NonNil([Property("", n, "")])));
    }
    if !t.value.MapOf? {
      return Panic(NoExampleType);
    }
    var members := example.members;
    var properties: seq<Property> := [];
    var i := 0;
    while i < |members|
      invariant i <= |members|
      invariant MemberProps(members, i, properties) == MemberProps(members, 0, [])
    {
      var typeName := ValueTypeName(members[i].1);
      if typeName.Panic? {
        return Panic(typeName.cause);
      }
      properties := properties + [Property(members[i].0, typeName.value, "")];
      i := i + 1;
    }
    return Ok(("object", NonNil(properties)));
  }
}
