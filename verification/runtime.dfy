/** What the generated builder does when it runs: a state machine over one
    `Option` slot per field, in declaration order. It interprets a
    `BuilderDesc`, so its behaviour follows from the generation step. */
module Runtime {
  import opened Wrappers
  import opened Synthesis

  /** The builder's fields: one slot per struct field, `None` while unset. */
  type Slots<V> = seq<Option<V>>

  /** A field of the built struct: a required field holds its value, an
      optional one holds its `Option`. */
  datatype FieldValue<V> = Required(value: V) | Optional(slot: Option<V>)

  /** The struct instance `build()` produces. */
  datatype Record<V> = Record(typeName: string, values: seq<FieldValue<V>>)

  /** The slot a field value was read from. */
  function Payload<V>(fv: FieldValue<V>): Option<V>
  {
    match fv
    case Required(v) => Some(v)
    case Optional(o) => o
  }

  /** The error text of `build()` for a missing required field. */
  function MissingMessage(field: string): (m: string)
    ensures |m| == |field| + 17
    ensures m[..6] == "field " && m[|m| - 11..] == " is missing"
    ensures m[6..6 + |field|] == field
  {
    "field " + field + " is missing"
  }

  /** The message names the field: distinct fields give distinct messages. */
  lemma MissingMessageInjective(a: string, b: string)
    requires MissingMessage(a) == MissingMessage(b)
    ensures a == b
  {
    var m := MissingMessage(a);
    assert a == m[6..6 + |a|];
  }

  /** `T::builder()`: every slot starts out unset, optional or not. */
  function NewBuilder<V>(d: BuilderDesc): (st: Slots<V>)
    ensures |st| == |d.plans|
    ensures forall i :: 0 <= i < |st| ==> st[i].None?
  {
    seq(|d.plans|, _ => None)
  }

  /** The setter of the field in slot `i`: stores `Some(v)` there and
      leaves every other slot as it was. */
  function Set<V>(st: Slots<V>, i: nat, v: V): (r: Slots<V>)
    requires i < |st|
    ensures |r| == |st|
    ensures r[i] == Some(v)
    ensures forall j :: 0 <= j < |st| && j != i ==> r[j] == st[j]
  {
    st[i := Some(v)]
  }

  /** Runs the presence checks in order and stops at the first unset slot:
      its position among the checks, or `None` when every slot is set. */
  function FirstFailing<V>(checks: seq<Check>, st: Slots<V>): (r: Option<nat>)
    requires forall k :: 0 <= k < |checks| ==> checks[k].slot < |st|
    ensures r.Some? ==> r.value < |checks| && st[checks[r.value].slot].None?
    ensures r.Some? ==> forall k :: 0 <= k < r.value ==> st[checks[k].slot].Some?
    ensures r.None? ==> forall k :: 0 <= k < |checks| ==> st[checks[k].slot].Some?
  {
    if |checks| == 0 then None
    else if st[checks[0].slot].None? then Some(0)
    else
      match FirstFailing(checks[1..], st)
      case None => None
      case Some(k) => Some(k + 1)
  }

  /** Reads every field's final value out of the slots. */
  function Construct<V>(plans: seq<FieldPlan>, st: Slots<V>): (vals: seq<FieldValue<V>>)
    requires |plans| == |st|
    requires forall i :: 0 <= i < |st| && plans[i].extract == Unwrap ==> st[i].Some?
    ensures |vals| == |st|
    ensures forall i :: 0 <= i < |st| ==> Payload(vals[i]) == st[i]
    ensures forall i :: 0 <= i < |st| ==> (vals[i].Required? <==> plans[i].extract == Unwrap)
  {
    seq(|st|, i requires 0 <= i < |st| && (plans[i].extract == Unwrap ==> st[i].Some?) =>
      match plans[i].extract
      case PassThrough => Optional(st[i])
      case Unwrap => Required(st[i].value))
  }

  /** `build()`: the presence checks first, fail-fast; on the first unset
      required slot an error naming that field and the slots untouched;
      otherwise the record, with every slot taken (left `None`). Returns the
      outcome and the builder's slots afterwards. */
  function Build<V>(d: BuilderDesc, st: Slots<V>): (r: (Result<Record<V>, string>, Slots<V>))
    requires Coherent(d) && |st| == |d.plans|
    ensures r.0.Err? <==> exists k :: 0 <= k < |d.checks| && st[d.checks[k].slot].None?
    ensures r.0.Err? ==> r.1 == st
    ensures forall k :: 0 <= k < |d.checks| && st[d.checks[k].slot].None?
                     && (forall j :: 0 <= j < k ==> st[d.checks[j].slot].Some?)
                     ==> r.0 == Err(MissingMessage(d.checks[k].field))
    ensures r.0.Ok? ==>
      && r.0.value.typeName == d.recordName
      && |r.0.value.values| == |st|
      && (forall i :: 0 <= i < |st| ==> Payload(r.0.value.values[i]) == st[i])
      && (forall i :: 0 <= i < |st| ==> (r.0.value.values[i].Required? <==> d.plans[i].extract == Unwrap))
    ensures r.0.Ok? ==> |r.1| == |st| && forall i :: 0 <= i < |st| ==> r.1[i].None?
  {
    match FirstFailing(d.checks, st)
    case Some(k) =>
      (Err(MissingMessage(d.checks[k].field)), st)
    case None =>
      (Ok(Record(d.recordName, Construct(d.plans, st))), seq(|st|, _ => None))
  }
}
