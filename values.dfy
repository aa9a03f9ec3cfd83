/** The run-time values that external.go inspects through the reflect
    package: the fields of a configuration struct and the values a
    template sees. A value of interface type is encoded by its dynamic
    value, which is what reflect.ValueOf and Value.Interface hand over;
    `Ptr` stands only for a Go pointer, and `Nil` for a nil pointer or a
    nil interface. */
module Values {

  datatype Value =
    | Nil
    | Bool(b: bool)
    | Int(i: int)
    | Str(s: string)
    | Slice(elems: seq<Value>)
    | Array(elems: seq<Value>)
    /** A Go map; Go iterates maps in no fixed order, so the order of
        `entries` carries no meaning. */
    | Map(entries: seq<Entry>)
    | Struct(fields: seq<Field>)
    | Ptr(target: Value)

  /** One key/value pair of a map. */
  datatype Entry = Entry(key: Value, val: Value)

  /** One struct field as reflect reports it: its name, whether it is
      exported (an empty PkgPath), the text of its `buildarg` tag ("" when
      the tag is absent or empty) and its value. */
  datatype Field = Field(name: string, exported: bool, tag: string, value: Value)

  /** reflect.Value.Elem applied once to a pointer, as Build and mprintf
      do before looking at the kind. Their branch for an interface kind
      never fires: reflect.ValueOf already gives the dynamic value. */
  function Indirect(v: Value): (r: Value)
    ensures !v.Ptr? ==> r == v
  {
    if v.Ptr? then v.target else v
  }

  /** Strip every level of pointer, as text/template does before printing a
      value or selecting a field. */
  function IndirectAll(v: Value): (r: Value)
    ensures !r.Ptr?
  {
    if v.Ptr? then IndirectAll(v.target) else v
  }
}
