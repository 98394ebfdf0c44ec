/** The primitive classifier and the field-name resolver of the reflector
    (isPrimitiveType, primitiveTypeName, serializedFieldName). */
module Naming {
  import opened Panics
  import opened GoTypes

  /** The RAML 1.0 built-in scalar type names the reflector emits. */
  const RamlScalars: set<string> := {"boolean", "integer", "number", "string"}

  /** The ten signed and unsigned integer kinds (not Uintptr). */
  const IntegerKinds: set<Kind> := {Int, Int8, Int16, Int32, Int64, Uint, Uint8, Uint16, Uint32, Uint64}

  /** isPrimitiveType: the kinds a RAML scalar describes. */
  predicate IsPrimitiveType(t: Ty) {
    match t.Kind()
    case Bool | Int | Int8 | Int16 | Int32 | Int64 | Uint | Uint8 | Uint16 | Uint32 | Uint64 | Float32 | Float64 | String => true
    case _ => false
  }

  /** primitiveTypeName: agrees with isPrimitiveType on which kinds it accepts,
      sends every integer width to "integer" and both float widths to "number",
      and panics on everything else. */
  function PrimitiveTypeName(t: Ty): (r: Result<string>)
    ensures r.Ok? <==> IsPrimitiveType(t)
    ensures r.Ok? ==> r.value in RamlScalars
    ensures r == Ok("boolean") <==> t.Kind() == Bool
    ensures r == Ok("integer") <==> t.Kind() in IntegerKinds
    ensures r == Ok("number") <==> t.Kind() in {Float32, Float64}
    ensures r == Ok("string") <==> t.Kind() == String
    ensures r.Panic? ==> r.cause == NotPrimitive
  {
    match t.Kind()
    case Bool => Ok("boolean")
    case Int | Int8 | Int16 | Int32 | Int64 | Uint | Uint8 | Uint16 | Uint32 | Uint64 => Ok("integer")
    case Float32 | Float64 => Ok("number")
    case String => Ok("string")
    case _ => Panic(NotPrimitive)
  }

  /** The first byte of the UTF-8 encoding of `c`. */
  function LeadingByte(c: char): (b: nat)
    ensures b < 256
    ensures (c as int) < 0x80 ==> b == c as int
  {
    var n := c as int;
    if n < 0x80 then n
    else if n < 0x800 then 0xC0 + n / 0x40
    else if n < 0x10000 then 0xE0 + n / 0x1000
    else 0xF0 + n / 0x40000
  }

  /** unicode.IsLower on a rune below 256: the Latin-1 lower-case letters. */
  predicate IsLowerLatin1(b: nat) {
    ('a' as nat <= b <= 'z' as nat) || b == 0xB5 || (0xDF <= b <= 0xF6) || (0xF8 <= b <= 0xFF)
  }

  /** `name != "" && unicode.IsLower(rune(name[0]))`: the test looks at the first
      BYTE of the name, read as a Latin-1 rune. */
  predicate StartsLower(name: string) {
    name != "" && IsLowerLatin1(LeadingByte(name[0]))
  }

  /** The text of `s` before its first comma (all of `s` when it has none). */
  function BeforeComma(s: string): (r: string)
    ensures ',' !in r
    ensures r <= s
    ensures r == s || s[|r|] == ','
  {
    if s == [] then []
    else if s[0] == ',' then []
    else [s[0]] + BeforeComma(s[1..])
  }

  /** The name a json tag selects: the field's own name when there is no tag,
      otherwise the tag's text up to its first comma, with "-" meaning none. */
  function TagName(fieldName: string, jsonTag: string): string {
    if jsonTag == "" then fieldName
    else var n := BeforeComma(jsonTag); if n == "-" then "" else n
  }

  /** serializedFieldName: "" means the field is left out of the schema; a
      pointer-typed field that is not unexported gets a trailing "?", even when
      its tag names no field. */
  function SerializedFieldName(f: Field): (r: string)
    ensures StartsLower(f.name) ==> r == ""
    ensures !StartsLower(f.name) && f.ty.PtrTo? ==> r == TagName(f.name, f.jsonTag) + "?"
    ensures !StartsLower(f.name) && !f.ty.PtrTo? ==> r == TagName(f.name, f.jsonTag)
    ensures r == "" <==> StartsLower(f.name) || (!f.ty.PtrTo? && TagName(f.name, f.jsonTag) == "")
  {
    if StartsLower(f.name) then ""
    else
      var name := TagName(f.name, f.jsonTag);
      if f.ty.Kind() == Ptr then name + "?" else name
  }

  /** A name starting with an ASCII lower-case letter is unexported; one starting
      with an ASCII capital is not. */
  lemma AsciiCase(name: string)
    requires name != [] && name[0] as int < 0x80
    ensures StartsLower(name) <==> 'a' <= name[0] <= 'z'
  {
  }

  /** The leading byte of any character from U+0800 up reads as a Latin-1
      lower-case letter, so such a field is always excluded. */
  lemma WideFirstCharIsLower(f: Field)
    requires f.name != [] && f.name[0] as int >= 0x800
    ensures SerializedFieldName(f) == ""
  {
    var n := f.name[0] as int;
    if n < 0x10000 {
      assert 0xE0 <= LeadingByte(f.name[0]) <= 0xEF;
    } else {
      assert n <= 0x10FFFF;
      assert 0xF0 <= LeadingByte(f.name[0]) <= 0xF4;
    }
  }

  /** The tag ",omitempty" names no field: such a non-pointer field is skipped. */
  lemma OmitEmptyTagSkips(f: Field)
    requires f.jsonTag == ",omitempty" && !f.ty.PtrTo?
    ensures SerializedFieldName(f) == ""
  {
    assert BeforeComma(f.jsonTag) == "";
  }

  /** An exported pointer field tagged "-" is not skipped: it becomes "?". */
  lemma DashTaggedPointerIsQuestionMark(f: Field)
    requires !StartsLower(f.name) && f.jsonTag == "-" && f.ty.PtrTo?
    ensures SerializedFieldName(f) == "?"
  {
    assert BeforeComma(f.jsonTag) == "-";
  }
}
