# Builder derive, modelled in Dafny

This project models the `Builder` derive macro of `builder/src/lib.rs` as a pure
transformation, and proves what the generated builder does at run time.

The model has three layers:

- **Classification** (`classifier.dfy`, on the type syntax of `rust_types.dfy`).
  `GetOptType` / `IsOpt` decide from the syntax alone whether a field is optional,
  and if so what its payload type is.
- **Synthesis** (`synthesis.dfy`). It maps a struct with named fields to a
  `BuilderDesc`. The description holds the builder name `<Name>Builder` and, per
  field, the slot type (`builder_types`), the setter parameter type
  (`field_method_type`) and the construction mode (`final_inst`). It also holds
  the ordered presence checks (`empty_checks`).
- **Run time** (`runtime.dfy`). The generated builder is a state of one
  `Option` slot per field. `NewBuilder` is `T::builder()` and `Set` is a setter.
  `Build` is `build()`: it runs the description's checks fail-fast and then
  constructs the record, taking every slot.

`properties.dfy` connects the layers. Its lemmas are about
`Build(Synthesize(s), ...)`, stated in terms of the struct's fields and their
classification. Its `ConfigExample` module walks through
`Config { name: String, timeout: Option<u32> }`.

Two behaviours of the code are easy to misread as stricter than they are. The model follows the code:

- The classifier looks only at the first path segment and its first generic
  argument, and ignores a leading `::`. So `::Option<T>` and `Option<A, B>` are
  optional, while `std::option::Option<T>` is required. The derive's own slot
  type `::std::option::Option<T>` would also be classified as required.
- After a successful `build()`, a second `build()` runs the checks again on the
  emptied slots. It fails on the first required field. If the struct has no
  required field, it yields a record whose optional fields are all `None`. It
  never builds a record from emptied required slots.

## Model

| member | source | states |
|---|---|---|
| Classifier.GetOptType | builder/src/lib.rs:5-42 | `Some(t)` exactly when the type is a qself-free path whose first segment is `Option<t, ...>`. A leading `::`, extra arguments and later segments do not matter. The payload is the first argument. |
| Classifier.IsOpt | builder/src/lib.rs:44-46 | A field is optional iff four things hold: it is a path type without qself, its first segment is named `Option`, that segment has angle-bracketed arguments, and the first argument is a type. |
| Classifier.ClassificationExamples | builder/src/lib.rs:5-42 | `Option<T>`, `::Option<T>` and `Option<A, B>` are optional, with payload `T` and `A`. `std::option::Option<T>`, `::std::option::Option<T>`, bare `Option`, `Option<'a>`, `Vec<T>`, qualified-self paths and non-path types are required. |
| Synthesis.EmptyChecks | builder/src/lib.rs:84-96 | There is one presence check per required field, each field checked once, in declaration order, naming the field. Optional fields get none. |
| Synthesis.Synthesize | builder/src/lib.rs:60-109 | The builder is named `<Name>Builder`, with one plan per field in order, built by `StorageType` (`builder_types`), `SetterParamType` (`field_method_type`) and `FinalInst` (`final_inst`). A required field gets slot `::std::option::Option<ty>`, setter parameter `ty` and is unwrapped. An optional field keeps its declared type as slot, the setter takes its payload, and it passes through. The checks (`EmptyChecks`) are exactly the required fields in order. |
| Synthesis.DeclaredOptionSlot | builder/src/lib.rs:70-83 | For a field declared `Option<t>` the setter takes `t` and the slot type is `Option` of the setter's parameter type. |
| Synthesis.TypesFollowClassification | builder/src/lib.rs:70-83 | Fields with the same classifier answer get the same construction mode, and when optional the same setter parameter (the payload). Each slot type is built from the field's own declared type: `::std::option::Option<ty>` when required, the declared type itself when optional; a required field's setter takes its own declared type. |
| Synthesis.EmptyStruct | builder/src/lib.rs:111-133 | A struct without fields gets no setters and no checks. |
| Runtime.MissingMessage | builder/src/lib.rs:88-92 | The error is `field <n> is missing`, and the field name can be read back from it. |
| Runtime.MissingMessageInjective | builder/src/lib.rs:90-91 | Different fields give different error messages. |
| Runtime.NewBuilder | builder/src/lib.rs:138-143 | `builder()` has one slot per field, and every slot is `None`, optional or required. |
| Runtime.Set | builder/src/lib.rs:118-121 | A setter puts `Some(val)` in its own slot and leaves every other slot unchanged. |
| Runtime.FirstFailing | builder/src/lib.rs:126-128 | The checks run in order and stop at the first unset slot. If none is unset, every checked slot is set. |
| Runtime.Construct | builder/src/lib.rs:97-109 | Every field value reads back its slot. Unwrapped fields hold the payload, pass-through fields the slot as stored. |
| Runtime.Build | builder/src/lib.rs:125-134 | `build()` fails iff some checked slot is unset. It then reports the first such check's field and leaves the slots unchanged. On success the record reads back the slots and every slot ends up `None`. |
| BuilderProperties.SetEach | builder/src/lib.rs:117-123 | Calling the setters of the first fields in turn leaves each of those slots holding its value and the other slots untouched. |
| BuilderProperties.ChecksFindFirstMissing | builder/src/lib.rs:84-96 | The generated checks stop at the first unset required field in declaration order. They stop nowhere iff no required field is unset. |
| BuilderProperties.BuildFailsOnFirstMissing | builder/src/lib.rs:126-128 | With an unset required field, `build()` returns `Err("field <n> is missing")` for the first such field and leaves every slot as it was. |
| BuilderProperties.BuildSucceedsWhenRequiredSet | builder/src/lib.rs:97-109 | With every required field set, `build()` succeeds whatever the optional slots hold. Required fields get the slot's payload, optional fields the slot as stored, and afterwards all slots are `None`. |
| BuilderProperties.BuildFailsIffRequiredUnset | builder/src/lib.rs:84-96 | `build()` fails exactly when some required field is unset. |
| BuilderProperties.FailFast | builder/src/lib.rs:88-93 | With required fields `a` before `b` both unset, `build()` fails and never reports `b`. |
| BuilderProperties.OptionalSlotsDoNotAffectValidation | builder/src/lib.rs:84-87 | Setting an optional field changes neither whether `build()` fails nor the error it reports. |
| BuilderProperties.NoRequiredFieldsAlwaysBuild | builder/src/lib.rs:84-96 | A struct with no required field always builds. |
| BuilderProperties.BuildAllUnset | builder/src/lib.rs:125-143 | On all-`None` slots, `build()` reports the first required field. If there is none, it yields all-`None` optionals. |
| BuilderProperties.SecondBuild | builder/src/lib.rs:97-109 | After a successful `build()`, a second one fails on the first required field. With no required field it yields all-`None` optionals. |
| BuilderProperties.RoundTrip | builder/src/lib.rs:111-144 | Take a fresh builder, set every field once to `v_i`, then build: required field `i` is `v_i` and optional field `i` is `Some(v_i)`. |
| BuilderProperties.OmittedRequiredSetterReported | builder/src/lib.rs:88-93 | Leaving out only the setter of required field `i` makes `build()` fail naming that field. |
| BuilderProperties.SetLastWriteWins | builder/src/lib.rs:118-121 | Of repeated setter calls on one field, the last one wins. |
| BuilderProperties.SetIdempotent | builder/src/lib.rs:118-121 | Setting a field twice to the same value equals setting it once. |
| BuilderProperties.SettersCommute | builder/src/lib.rs:118-121 | Setters of different fields may be called in either order. |
| BuilderProperties.EmptyStructBuilds | builder/src/lib.rs:125-143 | For a struct without fields, `build()` on a fresh builder yields the empty record. |
| ConfigExample.ConfigDescription | builder/src/lib.rs:60-109 | For `Config { name: String, timeout: Option<u32> }` the builder is `ConfigBuilder`. Only `name` is checked and unwrapped; `timeout` is passed through. |
| ConfigExample.ConfigRuns | builder/src/lib.rs:125-134 | A builder with that description fails a fresh `build()` with `field name is missing`. After setting slot 0 to "svc" it builds `name: "svc", timeout: None`, and after also setting slot 1 to 30 it builds `timeout: Some(30)`. |
| ConfigExample.ConfigWalkthrough | builder/src/lib.rs:111-144 | `Config::builder().build()` reports `name`. `.name("svc")` then `build()` gives `Config { name: "svc", timeout: None }`. Adding `.timeout(30)` gives `Config { name: "svc", timeout: Some(30) }`. |

## Left out

- Parsing the input with `syn::parse`, emitting tokens with `quote!` and converting with `.into()` (lines 50, 111-146) are proc-macro plumbing around foreign libraries. The input is the `Struct` datatype and the output is the `BuilderDesc` datatype.
- The panic for non-struct input (`unimplemented!`, line 57) and for unnamed fields (`expect`, line 66) is left out. `Struct` can only hold named fields, so neither case can be expressed.
- The error's `Box<dyn Error>` type and the `format!` / `stringify!` mechanics (lines 90-91) are left out. The error is the message string itself.
- Whether the emitted Rust compiles is not modelled. For example, a field declared `Option<A, B>` is classified optional, but its generated setter would not type-check.
- Type identity and alias resolution are left out: types are an uninterpreted syntax tree compared structurally, as the classifier does.
- Visibility modifiers (`pub`) and other decoration of the emitted items are left out.
- Field values of differing Rust types share one type parameter `V`. Rust's type system keeps each setter's value in its own slot, and here that is the slot index.
- A setter is addressed by its field's slot index rather than by its method name. Rust guarantees one setter per field and unique field names.
- `Build` requires a `Coherent` description, in which every unwrapped slot is checked first. The panic of `take().unwrap()` on an unset required slot is therefore not modelled. `Synthesize` always produces a coherent description.
- `&mut self` chaining is modelled by each setter returning the new slot state.
