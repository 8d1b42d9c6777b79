/** Syntactic recognition of optional fields (`get_opt_type` / `is_opt`). */
module Classifier {
  import opened Wrappers
  import opened RustTypes

  /** The payload type of a field declared as an `Option`, or `None` for a
      required field. Only the first segment and its first generic argument
      are looked at; the leading `::`, later segments and extra arguments are
      ignored. The result is `Some(t)` exactly when the type is spelled
      `OptionPath(_, t, _, _)`. */
  function GetOptType(ty: Ty): (r: Option<Ty>)
    ensures r.Some? ==>
      && ty.Path? && |ty.segments| > 0
      && ty.segments[0].args.Angle? && |ty.segments[0].args.generics| > 0
      && ty == OptionPath(ty.leadingColon, r.value, ty.segments[0].args.generics[1..], ty.segments[1..])
    ensures forall lc, t, extra, trailing :: ty == OptionPath(lc, t, extra, trailing) ==> r == Some(t)
  {
    match ty
    case Other => None
    case Path(qself, _, segments) =>
      if qself || |segments| == 0 then None
      else
        var seg := segments[0];
        match seg.args
        case Angle(generics) =>
          if |generics| == 0 then None
          else
            (match generics[0]
             case TypeArg(t) =>
               if seg.ident == "Option" then
                 assert segments == [seg] + segments[1..];
                 assert generics == [generics[0]] + generics[1..];
                 Some(t)
               else None
             case _ => None)
        case _ => None
  }

  /** Whether a field is optional: a path type without qualifier whose first
      segment is named `Option` and carries angle-bracketed arguments, the
      first of which is a type. */
  predicate IsOpt(ty: Ty)
    ensures IsOpt(ty) <==>
      && ty.Path? && !ty.qself && |ty.segments| > 0
      && ty.segments[0].ident == "Option"
      && ty.segments[0].args.Angle?
      && |ty.segments[0].args.generics| > 0
      && ty.segments[0].args.generics[0].TypeArg?
  {
    GetOptType(ty).Some?
  }

  /** How particular spellings are classified. */
  lemma ClassificationExamples(t: Ty, u: Ty)
    ensures GetOptType(OptionOf(t)) == Some(t)
    // `::Option<T>` and `Option<A, B>` count as optional
    ensures GetOptType(OptionPath(true, t, [], [])) == Some(t)
    ensures GetOptType(Path(false, false, [Segment("Option", Angle([TypeArg(t), TypeArg(u)]))])) == Some(t)
    // a fully qualified `std::option::Option<T>` does not, nor does the
    // derive's own slot type `::std::option::Option<T>`
    ensures GetOptType(Path(false, false, StdOptionOf(t).segments)) == None
    ensures GetOptType(StdOptionOf(t)) == None
    // nor `Option` without arguments, `Option<'a>`, `Vec<T>`, `<X as Tr>::Option<T>`
    ensures GetOptType(Named("Option")) == None
    ensures GetOptType(Path(false, false, [Segment("Option", Angle([Lifetime]))])) == None
    ensures GetOptType(Generic("Vec", t)) == None
    ensures GetOptType(Path(true, false, [Segment("Option", Angle([TypeArg(t)]))])) == None
    ensures GetOptType(Other) == None
  {
  }
}
