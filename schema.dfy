/** The reflector's property record and Go's two kinds of empty slice. */
module Schema {

  /** One property of a RAML type: its serialized name, the RAML type it refers
      to (a primitive name, "object", "<Name>[]" or a struct name) and the text
      of the field's `desc` tag. */
  datatype Property = Property(name: string, typeName: string, description: string)

  /** A Go `[]Property`. A nil slice and a non-nil empty one hold the same
      elements, but the registry tells them apart: a nil entry reads as absent. */
  datatype Props = NilSlice | NonNil(items: seq<Property>)
  {
    function Items(): seq<Property> {
      if NilSlice? then [] else items
    }
  }

  /** `append(p, x)`: always a non-nil slice. */
  function Append(p: Props, x: Property): (r: Props)
    ensures r.NonNil? && r.Items() == p.Items() + [x]
  {
    NonNil(p.Items() + [x])
  }

  /** `append(p, q...)`: Go hands back `p` itself when `q` has no elements, so
      appending nothing to a nil slice leaves it nil. */
  function AppendAll(p: Props, q: Props): (r: Props)
    ensures r.Items() == p.Items() + q.Items()
    ensures r.NilSlice? <==> p.NilSlice? && q.Items() == []
  {
    if q.Items() == [] then p else NonNil(p.Items() + q.Items())
  }
}
