# serde_enabled in Dafny

A model of `Enable<T>`, a wrapper for a settings section that is switched on or off by a single
boolean field named `enable`. When the section is on, the inner settings are required and sit
beside `enable` at the same level of the map. When it is off, they are neither required nor
looked at. The model covers:

- the two literal validators `True` and `False` (module `Literals`);
- the public type and its accessors `on`, `off`, `into_inner`, `as_ref` and `is_enabled`
  (module `SerdeEnabled`);
- the wire codec (module `EnableCodec`): the untagged helper `InnerEnable<T>`, the flattened record
  `On<T>`, `Serialize` and `Deserialize` for `Enable<T>`, proofs about which documents are accepted
  and which are refused, and the round trip;
- the settings struct `Inside` used by the library's tests, with each test restated as a lemma
  (module `InsideExample`).

Documents are the abstract `Value` of module `Values`: null, booleans, integers, strings, and maps.
A map is an ordered sequence of `(key, value)` entries that may repeat a key, just as the format
reader hands it over.

The inner type's own codec is a pair of function parameters:
- `encT: T -> Option<seq<Field>>` writes the fields of a `T`, or fails;
- `decT: seq<Field> -> Option<T>` reads a `T` from the entries left once `enable` has been consumed.

Flattening is modelled as map concatenation when encoding. When decoding, it is modelled as handing
the inner decoder every entry except `enable`, in document order (`Values.Without`).

Decoding follows the derived code: first the `On<T>` shape, then the `Off { enable: False }` shape.
Each shape's map visitor is a recursive function (`ScanOn`, `ScanOff`). It walks the entries the way
the derived visitor does:
- a second `enable` is a duplicate;
- the first `enable` goes through the literal validator;
- a missing `enable` is an error at the end.

`DecodeDirect` is a second decoder that reads the `enable` values first and then branches on them.
`DecodeMatchesDirect` proves that it agrees with the two-trial decoder on every document.

Under `enable: true`, one might expect the inner type's own decode error to reach the caller.
The code does not do that, and the model follows the code: it decodes through an untagged enum,
which reports only "no variant matched". So `Decode` fails with the single error `NoVariantMatched`. The reason each shape failed is kept as a
`ShapeError` (for example `BadEnable(InvalidType)` for `enable: "yes"`, or `InnerRejected` when the
fields under `enable: true` do not decode), and lemmas state those per-shape errors.

## Model

| member | source | states |
|---|---|---|
| `Literals.DecodeBool` | src/lib.rs:103 | reading a boolean succeeds exactly on a boolean value and returns that boolean; any other value is an invalid-type error |
| `Literals.EncodeTrue` | src/lib.rs:89-96 | `True` writes a boolean that the `True` validator reads back as `True` |
| `Literals.DecodeTrue` | src/lib.rs:98-110 | `True` accepts exactly `Bool(true)`; `Bool(false)` fails with `ExpectedTrue`; any non-boolean fails with `InvalidType` |
| `Literals.EncodeFalse` | src/lib.rs:115-122 | `False` writes a boolean that the `False` validator reads back as `False` |
| `Literals.DecodeFalse` | src/lib.rs:124-136 | `False` accepts exactly `Bool(false)`; `Bool(true)` fails with `ExpectedFalse`; any non-boolean fails with `InvalidType` |
| `Literals.LiteralsPartitionBooleans` | src/lib.rs:98-136 | no value passes both validators; a value passes one of them exactly when it is a boolean |
| `SerdeEnabled.MakeOff` | src/lib.rs:70-72 | no ensures of its own; `OffAccessors` states that `off()` is not enabled and projects to `None`, and `IntoInner` that only `off()` projects to `None` |
| `SerdeEnabled.MakeOn` | src/lib.rs:74-76 | no ensures of its own; `OnAccessors` states that `on(x)` is enabled and projects to `Some(x)`, and `IntoInner` that only `on(x)` projects to `Some(x)` |
| `SerdeEnabled.IntoInner` | src/lib.rs:52-57 | `into_inner` inverts the constructors: `Some(x)` only for `on(x)`, `None` only for `off()` |
| `SerdeEnabled.AsRef` | src/lib.rs:59-64 | `as_ref` gives the same `Some`/`None` answer as `into_inner` |
| `SerdeEnabled.IsEnabled` | src/lib.rs:66-68 | `is_enabled` holds exactly when `into_inner` returns `Some` |
| `SerdeEnabled.IsEnabledIffOn` | src/lib.rs:66-68 | `is_enabled(e)` holds iff `e == on(x)` for some `x` |
| `SerdeEnabled.OnAccessors` | src/lib.rs:74-76 | `on(x)` is enabled, and both `into_inner` and `as_ref` return `Some(x)` |
| `SerdeEnabled.OffAccessors` | src/lib.rs:70-72 | `off()` is not enabled, and both `into_inner` and `as_ref` return `None` |
| `Values.Without` | src/lib.rs:82-83 | the entries left to the flattened inner value are exactly the map's entries under other keys. There are as many as the entries minus those under the consumed key, and they are the whole map when that key is absent |
| `Values.WithoutAppend` | src/lib.rs:82-83 | dropping the consumed key commutes with concatenation, so the flattened inner value sees the other entries in document order |
| `EnableCodec.ToInner` | src/lib.rs:39-45 | no ensures of its own; `FromToInner` states that decoding's `FromInner` undoes it, and `Encode` states the map it leads to |
| `EnableCodec.EncodeOnRecord` | src/lib.rs:79-84 | no ensures of its own; the `On` case of `Encode` states its output (`enable: true`, then exactly the inner fields), and `RoundTrip` that `DecodeOnRecord` reads it back |
| `EnableCodec.EncodeInner` | src/lib.rs:12-20 | no ensures of its own; `Encode` states its output for both shapes |
| `EnableCodec.Encode` | src/lib.rs:34-49 | `On(t)` fails to encode exactly when `t` does; otherwise it is one map with `enable: true` first, followed by exactly `t`'s fields and no wrapping key. `Off` is exactly `{enable: false}` |
| `EnableCodec.FromToInner` | src/lib.rs:39-45 | converting to the untagged helper for encoding and back, as decoding does, gives the original value |
| `EnableCodec.ScanOn` | src/lib.rs:79-84 | no ensures of its own; `ScanOnStart` and `ScanOnAfter` give its result in closed form on every input |
| `EnableCodec.DecodeOnRecord` | src/lib.rs:79-84 | no ensures of its own; `OnShapeMatches` states iff when it succeeds and what it returns, and `EnabledNeverOff`, `NonBooleanEnable` and `MissingEnableRejected` state its errors |
| `EnableCodec.ScanOnAfter` | src/lib.rs:79-84 | once `enable` has been read, the `On<T>` visitor succeeds with every other remaining entry in order if no further `enable` follows, and otherwise fails with a duplicate |
| `EnableCodec.ScanOnStart` | src/lib.rs:79-84 | the `On<T>` visitor fails when `enable` is missing. It reports the `True` validator's error on the first `enable`, and a duplicate when a second one follows. Otherwise it yields every non-`enable` entry in document order |
| `EnableCodec.OnShapeMatches` | src/lib.rs:79-84 | the `On<T>` shape matches iff the document is a map with exactly one `enable`, that `enable` is `true`, and the other entries decode as `T`; the inner value is what they decode to |
| `EnableCodec.ScanOff` | src/lib.rs:16-19 | no ensures of its own; `ScanOffStart` and `ScanOffAfter` give its result in closed form on every input |
| `EnableCodec.DecodeOffShape` | src/lib.rs:16-19 | no ensures of its own; `OffShapeMatches` states iff when it succeeds, and `EnabledNeverOff`, `NonBooleanEnable` and `MissingEnableRejected` state its errors |
| `EnableCodec.ScanOffAfter` | src/lib.rs:17-19 | once `enable` has been read, the `Off` visitor succeeds if no further `enable` follows, and otherwise fails with a duplicate; other entries are skipped |
| `EnableCodec.ScanOffStart` | src/lib.rs:17-19 | the `Off` visitor fails when `enable` is missing. It reports the `False` validator's error on the first `enable`, and a duplicate when a second one follows. Otherwise it succeeds whatever the other entries are |
| `EnableCodec.OffShapeMatches` | src/lib.rs:16-19 | the `Off` shape matches iff the document is a map with exactly one `enable`, and that `enable` is `false` |
| `EnableCodec.DecodeInner` | src/lib.rs:12-20 | no ensures of its own; `ShapesExclusive` states that at most one shape matches, and `DecodeMatchesDirect` what the trial yields |
| `EnableCodec.FromInner` | src/lib.rs:27-30 | no ensures of its own; `FromToInner` states that it undoes `ToInner` |
| `EnableCodec.Decode` | src/lib.rs:22-31 | no ensures of its own; fully characterised by `DecodeMatchesDirect`, `DecodeOnIff` and `DecodeOffIff` |
| `EnableCodec.DecodeDirect` | src/lib.rs:12-31 | no ensures of its own; the discriminator-first reference decoder, which `DecodeMatchesDirect` proves equal to `Decode` on every document |
| `EnableCodec.ShapesExclusive` | src/lib.rs:12-20 | no document matches both shapes of the untagged helper |
| `EnableCodec.DecodeMatchesDirect` | src/lib.rs:22-31 | the ordered two-shape trial gives the same result as the decoder that reads the discriminator first, on every document |
| `EnableCodec.DecodeOffIff` | src/lib.rs:27-29 | a document decodes as `Off` iff it is a map with exactly one `enable`, that `enable` is `false`, whatever other keys it holds |
| `EnableCodec.DecodeOnIff` | src/lib.rs:27-28 | a document decodes as `On(t)` iff it is a map with exactly one `enable`, that `enable` is `true`, and the other entries decode as `t` |
| `EnableCodec.EnabledNeverOff` | src/lib.rs:12-20 | a map whose only `enable` is `true` never decodes as `Off`. When its other entries do not decode, the `On` shape fails with `InnerRejected`, the `Off` shape with `ExpectedFalse`, and decoding fails |
| `EnableCodec.NonBooleanEnable` | src/lib.rs:12-20 | when the first `enable` is not a boolean, both shapes fail with `BadEnable(InvalidType)` and decoding fails |
| `EnableCodec.MissingEnableRejected` | src/lib.rs:12-20 | a map without `enable`, or a value that is not a map, is refused by both shapes and by decoding |
| `EnableCodec.RoundTrip` | src/lib.rs:22-49 | `Off` always decodes back to itself. `On(t)` decodes back to itself whenever `t` round-trips through its own codec and does not itself write `enable` |
| `EnableCodec.InnerEnableKeyBreaksRoundTrip` | src/lib.rs:39-43 | the no-`enable` condition is needed: if `t` writes its own `enable`, encoding `On(t)` gives a document that fails to decode |
| `InsideExample.DecodeInside` | src/lib.rs:149-153 | the test struct decodes when `thing` appears exactly once as an in-range integer and `other` exactly once as a string, and fails otherwise |
| `InsideExample.EncodeInside` | src/lib.rs:149-153 | the test struct writes fields that decode back to it and never writes `enable` |
| `InsideExample.InsideRoundTrip` | src/lib.rs:149-153 | every `Enable<Inside>` decodes back to itself after encoding |
| `InsideExample.ExtraFieldsNotNeededWhenDisabled` | src/lib.rs:155-165 | `{enable: false}` decodes as a section that is not enabled |
| `InsideExample.ExtraFieldsAllowedWhenDisabled` | src/lib.rs:167-179 | `{enable: false, thing: 1, other: "Great"}` decodes as `Off` |
| `InsideExample.ExtraFieldsNeededWhenEnabled` | src/lib.rs:181-200 | `{enable: true, thing: 1, other: "Great"}` decodes as `On(Inside(1, "Great"))`, whose `into_inner` is `Some` of that value |
| `InsideExample.FieldsRequiredWhenEnabled` | src/lib.rs:82-83 | `{enable: true}` alone fails to decode, because `Inside`'s fields are required when the section is on |
| `InsideExample.NonBooleanDiscriminatorRejected` | src/lib.rs:103 | `{enable: "yes"}` fails in the `On` shape on the discriminator's type, and decoding fails |
| `InsideExample.SerializeAnEnabledFeature` | src/lib.rs:202-219 | `On(Inside(1, "Great"))` is written as `enable: true`, then `thing: 1`, then `other: "Great"`, at one level |
| `InsideExample.SerializeADisabledFeature` | src/lib.rs:221-233 | `Off` is written as `{enable: false}` and nothing else |

## Left out

- The format library's `Serializer`/`Deserializer` machinery, its `Content` buffering for untagged enums, and its internals for flattening. Encoding is modelled as map concatenation, and the flattened decoder is handed the non-`enable` entries.
- YAML text. Parsing and printing by `serde_yaml`, and the test fixtures built with `indoc`, are left out; documents are the abstract `Value`.
- The tests' `Outside` struct. It only nests the section under the key `inside`.
- Error message texts ("Expected a true value", "Expected a false value", the untagged "did not match any variant" text). Errors are data constructors. The inner codec's own error values are reduced to `None`.
- Sequence values and non-string map keys. They are not part of `Value`, so the behaviour of the derived visitors on sequence-shaped documents (for example `[false]`) is not modelled.
- `as_ref` borrowing. Values have no identity here, so `AsRef` returns the value, as `IntoInner` does.
- The `Clone` and `Debug` derives and the `Debug` bound on the `Deserialize` impl. They add no behaviour.
- Integer widths of the format. `Value.Int` is unbounded; only the test struct's `u32` range is modelled.
- `InsideExample.DecodeInside`: states only which documents the derived decoder of the test struct accepts, not which of its errors comes first.
