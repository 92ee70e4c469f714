/** The dynamically typed values found in a decoded JSON tree. */
module Values {

  /** A value of static type `any` as produced by a JSON decoder: null, a boolean, a
      number (a float64, modelled as a real), a string, an array or an object
      (`map[string]any`). `Named` is an object whose dynamic type is the package's own
      named map type `Object` rather than `map[string]any`; the decoder never produces
      one below the root, but the zero-key traversal and `Set` can. */
  datatype Any =
    | Null
    | Bool(b: bool)
    | Num(x: real)
    | Str(s: string)
    | Arr(items: seq<Any>)
    | Obj(fields: map<string, Any>)
    | Named(fields: map<string, Any>)

  /** The contents of one JSON object: keys to values. */
  type Tree = map<string, Any>
}
