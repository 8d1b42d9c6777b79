/** End-to-end behaviour of a derived builder: the runtime of `runtime.dfy`
    running the description `Synthesize` generates for a struct. Everything
    here is stated in terms of the struct's fields and their classification. */
module BuilderProperties {
  import opened Wrappers
  import opened RustTypes
  import opened Classifier
  import opened Synthesis
  import opened Runtime

  /** Field `i` is required and its slot is still unset. */
  ghost predicate Missing<V>(s: Struct, st: Slots<V>, i: int)
  {
    0 <= i < |s.fields| && i < |st| && !IsOpt(s.fields[i].ty) && st[i].None?
  }

  /** Calls the setters of fields `0 .. |vs| - 1` in turn, field `i` with `vs[i]`. */
  function SetEach<V>(st: Slots<V>, vs: seq<V>): (r: Slots<V>)
    requires |vs| <= |st|
    ensures |r| == |st|
    ensures forall i :: 0 <= i < |vs| ==> r[i] == Some(vs[i])
    ensures forall i :: |vs| <= i < |st| ==> r[i] == st[i]
    decreases |vs|
  {
    if |vs| == 0 then st
    else Set(SetEach(st, vs[..|vs| - 1]), |vs| - 1, vs[|vs| - 1])
  }

  /** Over checks that test exactly the required fields in order, the check
      that fails first is that of the first unset required field. */
  lemma FirstFailingCheckIsFirstMissing<V>(s: Struct, checks: seq<Check>, st: Slots<V>)
    requires |st| == |s.fields| && ChecksRequiredInOrder(s.fields, checks)
    requires FirstFailing(checks, st).Some?
    ensures var slot := checks[FirstFailing(checks, st).value].slot;
      && Missing(s, st, slot)
      && checks[FirstFailing(checks, st).value].field == s.fields[slot].name
      && forall j :: 0 <= j < slot ==> !Missing(s, st, j)
  {
  }

  /** Over the same checks, none fails exactly when no required field is unset. */
  lemma NoFailingCheckIffNoneMissing<V>(s: Struct, checks: seq<Check>, st: Slots<V>)
    requires |st| == |s.fields| && ChecksRequiredInOrder(s.fields, checks)
    ensures FirstFailing(checks, st).None? <==> forall i :: 0 <= i < |s.fields| ==> !Missing(s, st, i)
  {
    if FirstFailing(checks, st).None? {
      forall i | 0 <= i < |s.fields|
        ensures !Missing(s, st, i)
      {
        if Missing(s, st, i) {
          assert false;
        }
      }
    } else {
      FirstFailingCheckIsFirstMissing(s, checks, st);
    }
  }

  /** The check `build()` stops at is the first unset required field in
      declaration order; it stops nowhere exactly when none is unset. */
  lemma ChecksFindFirstMissing<V>(s: Struct, st: Slots<V>)
    requires |st| == |s.fields|
    ensures var d := Synthesize(s);
      FirstFailing(d.checks, st).Some? ==>
        var slot := d.checks[FirstFailing(d.checks, st).value].slot;
        && Missing(s, st, slot)
        && d.checks[FirstFailing(d.checks, st).value].field == s.fields[slot].name
        && forall j :: 0 <= j < slot ==> !Missing(s, st, j)
    ensures var d := Synthesize(s);
      FirstFailing(d.checks, st).None? <==> forall i :: 0 <= i < |s.fields| ==> !Missing(s, st, i)
  {
    var checks := Synthesize(s).checks;
    NoFailingCheckIffNoneMissing(s, checks, st);
    if FirstFailing(checks, st).Some? {
      FirstFailingCheckIsFirstMissing(s, checks, st);
    }
  }

  /** `build()` with an unset required field fails with the message naming
      the first such field, and leaves the builder as it was. */
  lemma BuildFailsOnFirstMissing<V>(s: Struct, st: Slots<V>, i: nat)
    requires |st| == |s.fields|
    requires Missing(s, st, i)
    requires forall j :: 0 <= j < i ==> !Missing(s, st, j)
    ensures Build(Synthesize(s), st) == (Err(MissingMessage(s.fields[i].name)), st)
  {
    var d := Synthesize(s);
    ChecksFindFirstMissing(s, st);
    var r := FirstFailing(d.checks, st);
    assert r.Some?;
  }

  /** `build()` with every required field set succeeds whatever the optional
      slots hold: a required field gets its slot's payload, an optional field
      its slot as stored, and every slot is left unset. */
  lemma BuildSucceedsWhenRequiredSet<V>(s: Struct, st: Slots<V>)
    requires |st| == |s.fields|
    requires forall i :: 0 <= i < |s.fields| && !IsOpt(s.fields[i].ty) ==> st[i].Some?
    ensures var r := Build(Synthesize(s), st);
      && r.0.Ok?
      && r.0.value.typeName == s.name
      && |r.0.value.values| == |s.fields|
      && (forall i :: 0 <= i < |s.fields| && !IsOpt(s.fields[i].ty) ==> r.0.value.values[i] == Required(st[i].value))
      && (forall i :: 0 <= i < |s.fields| && IsOpt(s.fields[i].ty) ==> r.0.value.values[i] == Optional(st[i]))
      && r.1 == NewBuilder(Synthesize(s))
  {
    var d := Synthesize(s);
    ChecksFindFirstMissing(s, st);
    var r := Build(d, st);
    assert r.0.Ok?;
    var vals := r.0.value.values;
    forall i | 0 <= i < |s.fields|
      ensures !IsOpt(s.fields[i].ty) ==> vals[i] == Required(st[i].value)
      ensures IsOpt(s.fields[i].ty) ==> vals[i] == Optional(st[i])
    {
      assert Payload(vals[i]) == st[i];
    }
  }

  /** `build()` fails exactly when some required field is unset; optional
      fields never make it fail. */
  lemma BuildFailsIffRequiredUnset<V>(s: Struct, st: Slots<V>)
    requires |st| == |s.fields|
    ensures Build(Synthesize(s), st).0.Err? <==> exists i :: 0 <= i < |s.fields| && Missing(s, st, i)
  {
    ChecksFindFirstMissing(s, st);
  }

  /** Fail-fast: with two unset required fields `a` declared before `b`,
      `build()` never reports `b`. */
  lemma FailFast<V>(s: Struct, st: Slots<V>, a: nat, b: nat)
    requires WellFormed(s) && |st| == |s.fields|
    requires a < b && Missing(s, st, a) && Missing(s, st, b)
    ensures Build(Synthesize(s), st).0.Err?
    ensures Build(Synthesize(s), st).0 != Err(MissingMessage(s.fields[b].name))
  {
    var d := Synthesize(s);
    ChecksFindFirstMissing(s, st);
    var k := FirstFailing(d.checks, st).value;
    var slot := d.checks[k].slot;
    assert slot <= a;
    if Build(d, st).0 == Err(MissingMessage(s.fields[b].name)) {
      MissingMessageInjective(s.fields[slot].name, s.fields[b].name);
    }
  }

  /** Setting an optional field never changes whether `build()` fails or
      which field it reports. */
  lemma OptionalSlotsDoNotAffectValidation<V>(s: Struct, st: Slots<V>, i: nat, v: V)
    requires |st| == |s.fields| && i < |st| && IsOpt(s.fields[i].ty)
    ensures Build(Synthesize(s), Set(st, i, v)).0.Err? == Build(Synthesize(s), st).0.Err?
    ensures Build(Synthesize(s), st).0.Err? ==>
      Build(Synthesize(s), Set(st, i, v)).0 == Build(Synthesize(s), st).0
  {
    var st' := Set(st, i, v);
    assert forall j :: 0 <= j < |s.fields| ==> (Missing(s, st, j) <==> Missing(s, st', j));
    BuildFailsIffRequiredUnset(s, st);
    BuildFailsIffRequiredUnset(s, st');
    if Build(Synthesize(s), st).0.Err? {
      var j := FirstMissingIndex(s, st);
      BuildFailsOnFirstMissing(s, st, j);
      BuildFailsOnFirstMissing(s, st', j);
    }
  }

  /** The first unset required field, when there is one. */
  lemma FirstMissingIndex<V>(s: Struct, st: Slots<V>) returns (i: nat)
    requires exists j :: 0 <= j < |s.fields| && Missing(s, st, j)
    ensures Missing(s, st, i)
    ensures forall j :: 0 <= j < i ==> !Missing(s, st, j)
  {
    var j :| 0 <= j < |s.fields| && Missing(s, st, j);
    i := 0;
    while !Missing(s, st, i)
      invariant i <= j
      invariant forall l :: 0 <= l < i ==> !Missing(s, st, l)
      decreases j - i
    {
      i := i + 1;
    }
  }

  /** A struct without required fields always builds. */
  lemma NoRequiredFieldsAlwaysBuild<V>(s: Struct, st: Slots<V>)
    requires |st| == |s.fields|
    requires forall i :: 0 <= i < |s.fields| ==> IsOpt(s.fields[i].ty)
    ensures Build(Synthesize(s), st).0.Ok?
  {
    BuildSucceedsWhenRequiredSet(s, st);
  }

  /** `build()` on a builder whose slots are all unset (fresh from
      `builder()`, or emptied by a successful `build()`): it reports the
      first required field, or, when there is none, yields a record whose
      optional fields are all `None`. */
  lemma BuildAllUnset<V>(s: Struct, st: Slots<V>)
    requires |st| == |s.fields|
    requires forall i :: 0 <= i < |st| ==> st[i].None?
    ensures forall i :: 0 <= i < |s.fields| && !IsOpt(s.fields[i].ty)
                     && (forall j :: 0 <= j < i ==> IsOpt(s.fields[j].ty))
                     ==> Build(Synthesize(s), st) == (Err(MissingMessage(s.fields[i].name)), st)
    ensures (forall i :: 0 <= i < |s.fields| ==> IsOpt(s.fields[i].ty)) ==>
      Build(Synthesize(s), st).0 == Ok(Record(s.name, seq(|s.fields|, _ => Optional(None))))
  {
    forall i | 0 <= i < |s.fields| && !IsOpt(s.fields[i].ty) && (forall j :: 0 <= j < i ==> IsOpt(s.fields[j].ty))
      ensures Build(Synthesize(s), st) == (Err(MissingMessage(s.fields[i].name)), st)
    {
      BuildFailsOnFirstMissing(s, st, i);
    }
    if forall i :: 0 <= i < |s.fields| ==> IsOpt(s.fields[i].ty) {
      BuildSucceedsWhenRequiredSet(s, st);
      assert Build(Synthesize(s), st).0.value.values == seq(|s.fields|, _ => Optional(None));
    }
  }

  /** A second `build()` after a successful one runs the checks again on the
      emptied slots: it fails on the first required field, or, when there is
      none, yields all-`None` optionals. */
  lemma SecondBuild<V>(s: Struct, st: Slots<V>)
    requires |st| == |s.fields|
    requires Build(Synthesize(s), st).0.Ok?
    ensures var st2 := Build(Synthesize(s), st).1;
      forall i :: 0 <= i < |s.fields| && !IsOpt(s.fields[i].ty)
               && (forall j :: 0 <= j < i ==> IsOpt(s.fields[j].ty))
               ==> Build(Synthesize(s), st2) == (Err(MissingMessage(s.fields[i].name)), st2)
    ensures var st2 := Build(Synthesize(s), st).1;
      (forall i :: 0 <= i < |s.fields| ==> IsOpt(s.fields[i].ty)) ==>
        Build(Synthesize(s), st2).0 == Ok(Record(s.name, seq(|s.fields|, _ => Optional(None))))
  {
    BuildAllUnset(s, Build(Synthesize(s), st).1);
  }

  /** Round trip: setting every field once on a fresh builder and building
      gives back each value, as itself for a required field and wrapped in
      `Some` for an optional one. */
  lemma RoundTrip<V>(s: Struct, vs: seq<V>)
    requires |vs| == |s.fields|
    ensures var d := Synthesize(s);
      var r := Build(d, SetEach(NewBuilder(d), vs));
      && r.0.Ok?
      && r.0.value.typeName == s.name
      && |r.0.value.values| == |vs|
      && (forall i :: 0 <= i < |vs| && !IsOpt(s.fields[i].ty) ==> r.0.value.values[i] == Required(vs[i]))
      && (forall i :: 0 <= i < |vs| && IsOpt(s.fields[i].ty) ==> r.0.value.values[i] == Optional(Some(vs[i])))
  {
    var d := Synthesize(s);
    BuildSucceedsWhenRequiredSet(s, SetEach(NewBuilder(d), vs));
  }

  /** Omitting only the setter of required field `i` makes `build()` name
      exactly that field. */
  lemma OmittedRequiredSetterReported<V>(s: Struct, vs: seq<V>, i: nat)
    requires |vs| == |s.fields| && i < |vs| && !IsOpt(s.fields[i].ty)
    ensures var d := Synthesize(s);
      var st := SetEach(NewBuilder(d), vs)[i := None];
      Build(d, st) == (Err(MissingMessage(s.fields[i].name)), st)
  {
    var d := Synthesize(s);
    var full := SetEach(NewBuilder(d), vs);
    var st := full[i := None];
    assert forall j :: 0 <= j < i ==> st[j] == full[j] == Some(vs[j]);
    assert Missing(s, st, i);
    BuildFailsOnFirstMissing(s, st, i);
  }

  /** Repeated setter calls on one field: the last write wins. */
  lemma SetLastWriteWins<V>(st: Slots<V>, i: nat, a: V, b: V)
    requires i < |st|
    ensures Set(Set(st, i, a), i, b) == Set(st, i, b)
  {
  }

  /** Setting a field twice to the same value is the same as setting it once. */
  lemma SetIdempotent<V>(st: Slots<V>, i: nat, v: V)
    requires i < |st|
    ensures Set(Set(st, i, v), i, v) == Set(st, i, v)
  {
  }

  /** Setters of different fields may be called in either order. */
  lemma SettersCommute<V>(st: Slots<V>, i: nat, j: nat, a: V, b: V)
    requires i < |st| && j < |st| && i != j
    ensures Set(Set(st, i, a), j, b) == Set(Set(st, j, b), i, a)
  {
  }

  /** A struct with no fields: `build()` on a fresh builder yields the empty record. */
  lemma EmptyStructBuilds<V>(name: string)
    ensures var d := Synthesize(Struct(name, []));
      Build(d, NewBuilder<V>(d)) == (Ok(Record(name, [])), [])
  {
  }
}

/** The `Config { name: String, timeout: Option<u32> }` walk-through. */
module ConfigExample {
  import opened Wrappers
  import opened RustTypes
  import opened Classifier
  import opened Synthesis
  import opened Runtime
  import opened BuilderProperties

  datatype Value = Text(s: string) | Number(n: nat)

  function Config(): Struct
  {
    Struct("Config", [Field("name", Named("String")), Field("timeout", OptionOf(Named("u32")))])
  }

  lemma ConfigClassification()
    ensures !IsOpt(Config().fields[0].ty)
    ensures IsOpt(Config().fields[1].ty)
  {
    ClassificationExamples(Named("u32"), Named("u32"));
  }

  /** The generated `ConfigBuilder`: only `name` is checked and unwrapped,
      `timeout` is passed through. */
  lemma ConfigDescription()
    ensures var d := Synthesize(Config());
      && d.recordName == "Config"
      && d.builderName == "ConfigBuilder"
      && d.checks == [Check(0, "name")]
      && |d.plans| == 2
      && d.plans[0].extract == Unwrap
      && d.plans[1].extract == PassThrough
  {
    var d := Synthesize(Config());
    ConfigClassification();
    assert |d.checks| == 1 by {
      assert d.checks[0].slot == 0;
      if |d.checks| > 1 {
        assert false;
      }
    }
  }

  /** The three runs of the walk-through, on any description of that shape. */
  lemma ConfigRuns(d: BuilderDesc)
    requires Coherent(d) && d.recordName == "Config" && d.checks == [Check(0, "name")]
    requires |d.plans| == 2 && d.plans[0].extract == Unwrap && d.plans[1].extract == PassThrough
    ensures Build(d, NewBuilder<Value>(d)).0 == Err("field name is missing")
    ensures Build(d, Set(NewBuilder<Value>(d), 0, Text("svc"))).0
              == Ok(Record("Config", [Required(Text("svc")), Optional(None)]))
    ensures Build(d, Set(Set(NewBuilder<Value>(d), 0, Text("svc")), 1, Number(30))).0
              == Ok(Record("Config", [Required(Text("svc")), Optional(Some(Number(30)))]))
  {
    var st0 := NewBuilder<Value>(d);
    assert st0[d.checks[0].slot].None?;
    assert MissingMessage(d.checks[0].field) == "field name is missing";
    var st1 := Set(st0, 0, Text("svc"));
    assert Build(d, st1).0.value.values == [Required(Text("svc")), Optional(None)];
    var st2 := Set(st1, 1, Number(30));
    assert Build(d, st2).0.value.values == [Required(Text("svc")), Optional(Some(Number(30)))];
  }

  /** `Config::builder().build()` reports `name`; after `.name("svc")` it
      gives `Config { name: "svc", timeout: None }`; after also
      `.timeout(30)` it gives `Config { name: "svc", timeout: Some(30) }`. */
  lemma ConfigWalkthrough()
    ensures var d := Synthesize(Config());
      && Build(d, NewBuilder<Value>(d)).0 == Err("field name is missing")
      && Build(d, Set(NewBuilder<Value>(d), 0, Text("svc"))).0
           == Ok(Record("Config", [Required(Text("svc")), Optional(None)]))
      && Build(d, Set(Set(NewBuilder<Value>(d), 0, Text("svc")), 1, Number(30))).0
           == Ok(Record("Config", [Required(Text("svc")), Optional(Some(Number(30)))]))
  {
    ConfigDescription();
    ConfigRuns(Synthesize(Config()));
  }
}
