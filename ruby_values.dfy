/** The few host-language values the label macro handles: the argument of the
    `:as` option (and the option keys), and nil-or-object results. */
module RubyValues {

  /** A Ruby object as it can be passed to the macro: nil, a String, a Symbol
      (carried by its name) or an Array of such objects, nested to any depth. */
  datatype Value = Nil | Str(s: string) | Sym(name: string) | Arr(elems: seq<Value>)

  /** A method result that is either nil or an object. */
  datatype Option<T> = None | Some(value: T)

  /** `Object#to_s` on a value that is not an Array: nil prints as the empty
      string and a Symbol as its bare name. */
  function ToS(v: Value): (s: string)
    requires !v.Arr?
  {
    match v
    case Nil => ""
    case Str(s) => s
    case Sym(name) => name
  }
}
