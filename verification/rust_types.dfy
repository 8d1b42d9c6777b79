/** The fragment of Rust's type syntax that the `Builder` derive inspects.
    Types are compared structurally; nothing is resolved or evaluated. */
module RustTypes {

  /** A field's declared type. Only path types are looked into; every other
      kind of type (references, tuples, arrays, ...) is `Other`. */
  datatype Ty =
    | Path(qself: bool, leadingColon: bool, segments: seq<Segment>)
    | Other

  /** One `ident<args>` component of a path. `qself` above is true when the
      path carries a `<T as Trait>::` qualifier. */
  datatype Segment = Segment(ident: string, args: PathArgs)

  /** The arguments after a segment: none, `<...>`, or `(...) -> ...`. */
  datatype PathArgs = NoArgs | Angle(generics: seq<GenericArg>) | Paren

  /** One argument between angle brackets. */
  datatype GenericArg = TypeArg(ty: Ty) | Lifetime | Const

  /** A path whose first segment is `Option<t, extra...>`, optionally written
      with a leading `::` and followed by further segments. These are exactly
      the shapes the derive treats as optional. */
  function OptionPath(leadingColon: bool, t: Ty, extra: seq<GenericArg>, trailing: seq<Segment>): Ty
  {
    Path(false, leadingColon, [Segment("Option", Angle([TypeArg(t)] + extra))] + trailing)
  }

  /** The plain spelling `Option<t>`. */
  function OptionOf(t: Ty): Ty
  {
    OptionPath(false, t, [], [])
  }

  /** `::std::option::Option<t>`, the slot type the derive writes for a
      required field of type `t`. */
  function StdOptionOf(t: Ty): Ty
  {
    Path(false, true, [Segment("std", NoArgs), Segment("option", NoArgs), Segment("Option", Angle([TypeArg(t)]))])
  }

  /** A one-segment path without arguments, such as `String` or `u32`. */
  function Named(ident: string): Ty
  {
    Path(false, false, [Segment(ident, NoArgs)])
  }

  /** A one-segment generic path `ident<t>`, such as `Vec<t>`. */
  function Generic(ident: string, t: Ty): Ty
  {
    Path(false, false, [Segment(ident, Angle([TypeArg(t)]))])
  }
}
