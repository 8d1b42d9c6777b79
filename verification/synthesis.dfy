/** The field-wise generation step of the derive: from a struct's name and
    its named fields, the description of the builder that gets emitted. */
module Synthesis {
  import opened Wrappers
  import opened RustTypes
  import opened Classifier

  /** A named field of the input struct. */
  datatype Field = Field(name: string, ty: Ty)

  /** A struct with named fields, in declaration order. */
  datatype Struct = Struct(name: string, fields: seq<Field>)

  /** How `build()` reads a field's value out of its slot: an optional field
      passes the slot through as it is, a required field unwraps it. */
  datatype Extract = PassThrough | Unwrap

  /** Everything generated for one field: the builder's slot type, the
      setter's parameter type and the construction mode. */
  datatype FieldPlan = FieldPlan(name: string, storage: Ty, param: Ty, extract: Extract)

  /** One presence check of `build()`: the slot it tests and the field it names. */
  datatype Check = Check(slot: nat, field: string)

  /** The generated builder: its type name, per-field plans in declaration
      order and the presence checks in the order `build()` runs them. */
  datatype BuilderDesc = BuilderDesc(recordName: string, builderName: string, plans: seq<FieldPlan>, checks: seq<Check>)

  /** What the compiler guarantees of a struct with named fields: every
      field has a non-empty name and no two fields share one. */
  predicate WellFormed(s: Struct)
  {
    && (forall i :: 0 <= i < |s.fields| ==> |s.fields[i].name| > 0)
    && (forall i, j :: 0 <= i < j < |s.fields| ==> s.fields[i].name != s.fields[j].name)
  }

  /** `<Name>Builder` */
  function BuilderName(name: string): string
  {
    name + "Builder"
  }

  /** The slot type (`builder_types`): a required field is wrapped in
      `::std::option::Option`, an optional field keeps its declared type. */
  function StorageType(ty: Ty): Ty
  {
    match GetOptType(ty)
    case None => StdOptionOf(ty)
    case Some(_) => ty
  }

  /** The setter's parameter type (`field_method_type`): the declared type of
      a required field, the payload of an optional one. */
  function SetterParamType(ty: Ty): Ty
  {
    match GetOptType(ty)
    case None => ty
    case Some(t) => t
  }

  /** The construction mode (`final_inst`). */
  function FinalInst(ty: Ty): Extract
  {
    if IsOpt(ty) then PassThrough else Unwrap
  }

  function Plan(f: Field): FieldPlan
  {
    FieldPlan(f.name, StorageType(f.ty), SetterParamType(f.ty), FinalInst(f.ty))
  }

  /** `checks` tests exactly the required fields of `fs`, each once, in
      declaration order, naming each by its field name. */
  ghost predicate ChecksRequiredInOrder(fs: seq<Field>, checks: seq<Check>)
  {
    && (forall k :: 0 <= k < |checks| ==>
          && checks[k].slot < |fs|
          && !IsOpt(fs[checks[k].slot].ty)
          && checks[k].field == fs[checks[k].slot].name)
    && (forall k, l :: 0 <= k < l < |checks| ==> checks[k].slot < checks[l].slot)
    && (forall i :: 0 <= i < |fs| && !IsOpt(fs[i].ty) ==>
          exists k :: 0 <= k < |checks| && checks[k].slot == i)
  }

  /** Appending an optional field adds no check. */
  lemma AppendOptionalField(pre: seq<Field>, last: Field, checks: seq<Check>)
    requires ChecksRequiredInOrder(pre, checks) && IsOpt(last.ty)
    ensures ChecksRequiredInOrder(pre + [last], checks)
  {
    var fs := pre + [last];
    assert forall i :: 0 <= i < |pre| ==> fs[i] == pre[i];
  }

  /** Appending a required field adds one check of its slot, at the end. */
  lemma AppendRequiredField(pre: seq<Field>, last: Field, checks: seq<Check>)
    requires ChecksRequiredInOrder(pre, checks) && !IsOpt(last.ty)
    ensures ChecksRequiredInOrder(pre + [last], checks + [Check(|pre|, last.name)])
  {
    var fs := pre + [last];
    var checks' := checks + [Check(|pre|, last.name)];
    assert forall i :: 0 <= i < |pre| ==> fs[i] == pre[i];
    assert forall k :: 0 <= k < |checks| ==> checks'[k] == checks[k];
    assert checks'[|checks|].slot == |pre|;
  }

  /** The presence checks (`empty_checks`): an optional field contributes
      nothing, a required field one check of its own slot. */
  function EmptyChecks(fs: seq<Field>): (checks: seq<Check>)
    ensures ChecksRequiredInOrder(fs, checks)
  {
    if |fs| == 0 then []
    else
      var pre := fs[..|fs| - 1];
      var last := fs[|fs| - 1];
      var init := EmptyChecks(pre);
      assert fs == pre + [last];
      if IsOpt(last.ty) then
        AppendOptionalField(pre, last, init);
        init
      else
        AppendRequiredField(pre, last, init);
        init + [Check(|pre|, last.name)]
  }

  /** A description `build()` can run: every check names an existing slot and
      every slot that is unwrapped is checked first. */
  predicate Coherent(d: BuilderDesc)
  {
    && (forall k :: 0 <= k < |d.checks| ==> d.checks[k].slot < |d.plans|)
    && (forall i :: 0 <= i < |d.plans| && d.plans[i].extract == Unwrap ==>
          exists k :: 0 <= k < |d.checks| && d.checks[k].slot == i)
  }

  /** The whole generation step. */
  function Synthesize(s: Struct): (d: BuilderDesc)
    ensures d.recordName == s.name && d.builderName == s.name + "Builder"
    ensures |d.plans| == |s.fields|
    ensures forall i :: 0 <= i < |s.fields| ==> d.plans[i].name == s.fields[i].name
    // a required field: slot `::std::option::Option<ty>`, setter takes `ty`, value unwrapped
    ensures forall i :: 0 <= i < |s.fields| && !IsOpt(s.fields[i].ty) ==>
      && d.plans[i].param == s.fields[i].ty
      && d.plans[i].storage == StdOptionOf(d.plans[i].param)
      && d.plans[i].extract == Unwrap
    // an optional field: slot keeps the declared type, whose payload the setter takes
    ensures forall i :: 0 <= i < |s.fields| && IsOpt(s.fields[i].ty) ==>
      && d.plans[i].storage == s.fields[i].ty
      && GetOptType(d.plans[i].storage) == Some(d.plans[i].param)
      && d.plans[i].extract == PassThrough
    ensures ChecksRequiredInOrder(s.fields, d.checks)
    ensures Coherent(d)
  {
    var plans := seq(|s.fields|, i requires 0 <= i < |s.fields| => Plan(s.fields[i]));
    var checks := EmptyChecks(s.fields);
    assert forall i :: 0 <= i < |plans| && plans[i].extract == Unwrap ==> !IsOpt(s.fields[i].ty);
    BuilderDesc(s.name, BuilderName(s.name), plans, checks)
  }

  /** For a field declared exactly `Option<t>`, the slot type is the option of
      the setter's parameter type. */
  lemma DeclaredOptionSlot(t: Ty)
    ensures SetterParamType(OptionOf(t)) == t
    ensures StorageType(OptionOf(t)) == OptionOf(SetterParamType(OptionOf(t)))
  {
  }

  /** Fields with the same classifier answer get the same construction mode,
      and when optional the same setter parameter; each slot type is built
      from the field's own declared type. */
  lemma TypesFollowClassification(f: Field, g: Field)
    requires GetOptType(f.ty) == GetOptType(g.ty)
    ensures Plan(f).extract == Plan(g).extract
    ensures GetOptType(f.ty).None? ==>
      && Plan(f).extract == Unwrap
      && Plan(f).param == f.ty && Plan(g).param == g.ty
      && Plan(f).storage == StdOptionOf(f.ty) && Plan(g).storage == StdOptionOf(g.ty)
    ensures GetOptType(f.ty).Some? ==>
      && Plan(f).extract == PassThrough
      && Plan(f).param == Plan(g).param == GetOptType(f.ty).value
      && Plan(f).storage == f.ty && Plan(g).storage == g.ty
  {
  }

  /** A struct with no fields gets no setters and no checks. */
  lemma EmptyStruct(name: string)
    ensures Synthesize(Struct(name, [])).plans == []
    ensures Synthesize(Struct(name, [])).checks == []
  {
  }
}
