/**
 * The wire codec of `Enable<T>` over a self-describing map.
 *
 * Encoding goes through the untagged helper `InnerEnable<T>`: a switched-on
 * section becomes the record `On<T>`, written as the field `enable: true`
 * followed by the inner value's own fields at the same level (flattened);
 * a switched-off section is written as `{enable: false}` alone.
 *
 * Decoding tries the helper's two shapes in order, the way an untagged enum
 * does: first the `On<T>` record, then the `Off { enable: False }` record,
 * and fails with one generic error when neither matches.
 *
 * The inner type's own codec is a pair of parameters: `encT` writes the
 * fields of a `T` (or fails, as a Rust `Serialize` impl may), and `decT`
 * reads a `T` from the fields left over once `enable` has been consumed.
 */
module EnableCodec {
  import opened Wrappers
  import opened Values
  import opened Literals
  import opened SerdeEnabled

  /** The one discriminator field name. */
  const EnableKey: string := "enable"

  /** `On<T>`: the `true` discriminator and the inner value, whose fields are flattened beside it. */
  datatype OnRecord<T> = OnRecord(enable: True, inner: T)

  /** `InnerEnable<T>`: the untagged two-shape helper. */
  datatype InnerEnable<T> = OnShape(on: OnRecord<T>) | OffShape(enable: False)

  /** Why one shape of the trial did not match. */
  datatype ShapeError =
    | NotAMap
    | MissingEnable
    | DuplicateEnable
    | BadEnable(cause: LiteralError)
    | InnerRejected

  /** The error an untagged enum reports when no shape matched. */
  datatype DecodeError = NoVariantMatched

  // ---------------------------------------------------------------------
  // Encoding

  /** `Serialize for Enable<T>`: pick the helper shape for the variant. */
  function ToInner<T>(e: Enable<T>): InnerEnable<T>
  {
    match e
    case On(inner) => OnShape(OnRecord(True, inner))
    case Off => OffShape(False)
  }

  /** The derived `Serialize` of `On<T>`: `enable` first, then `T`'s fields with no wrapping key. */
  function EncodeOnRecord<T>(encT: T -> Option<seq<Field>>, r: OnRecord<T>): Option<Value>
  {
    match encT(r.inner)
    case None => None
    case Some(fs) => Some(Map([(EnableKey, EncodeTrue(r.enable))] + fs))
  }

  /** The derived untagged `Serialize` of `InnerEnable<T>`: each shape is written as its own record. */
  function EncodeInner<T>(encT: T -> Option<seq<Field>>, ie: InnerEnable<T>): Option<Value>
  {
    match ie
    case OnShape(r) => EncodeOnRecord(encT, r)
    case OffShape(f) => Some(Map([(EnableKey, EncodeFalse(f))]))
  }

  /**
   * Encoding a switched-on section fails exactly when the inner value fails to
   * encode; otherwise it is one map whose first entry is `enable: true` and
   * whose other entries are exactly the inner value's fields.  A switched-off
   * section is exactly the one-entry map `{enable: false}`.
   */
  function Encode<T>(encT: T -> Option<seq<Field>>, e: Enable<T>): (v: Option<Value>)
    ensures e.On? ==> (v.Some? <==> encT(e.inner).Some?)
    ensures e.On? && v.Some? ==>
      && v.value.Map?
      && |v.value.entries| == 1 + |encT(e.inner).value|
      && v.value.entries[0] == (EnableKey, Bool(true))
      && v.value.entries[1..] == encT(e.inner).value
    ensures e.Off? ==> v == Some(Map([(EnableKey, Bool(false))]))
  {
    EncodeInner(encT, ToInner(e))
  }

  // ---------------------------------------------------------------------
  // Decoding

  /**
   * The derived map visitor of `On<T>`.  It walks the entries in order: an
   * `enable` entry is a duplicate if one was already seen, and otherwise is
   * decoded by the `True` validator; every other entry is kept, in order, for
   * the flattened inner value.  At the end `enable` must have been seen.
   */
  function ScanOn(es: seq<Field>, seen: Option<True>, rest: seq<Field>): Result<(True, seq<Field>), ShapeError>
    decreases |es|
  {
    if es == [] then
      match seen
      case None => Err(MissingEnable)
      case Some(t) => Ok((t, rest))
    else if es[0].0 == EnableKey then
      if seen.Some? then Err(DuplicateEnable)
      else
        match DecodeTrue(es[0].1)
        case Err(e) => Err(BadEnable(e))
        case Ok(t) => ScanOn(es[1..], Some(t), rest)
    else ScanOn(es[1..], seen, rest + [es[0]])
  }

  /** The derived `Deserialize` of `On<T>`: a map whose leftover entries decode as `T`. */
  function DecodeOnRecord<T>(decT: seq<Field> -> Option<T>, v: Value): Result<OnRecord<T>, ShapeError>
  {
    match v
    case Map(es) =>
      (match ScanOn(es, None, [])
       case Err(e) => Err(e)
       case Ok((t, rest)) =>
         match decT(rest)
         case None => Err(InnerRejected)
         case Some(inner) => Ok(OnRecord(t, inner)))
    case _ => Err(NotAMap)
  }

  /**
   * The derived map visitor of `Off { enable: False }`: like `ScanOn`, but
   * `enable` goes to the `False` validator and every other entry is skipped
   * without being looked at.
   */
  function ScanOff(es: seq<Field>, seen: Option<False>): Result<False, ShapeError>
    decreases |es|
  {
    if es == [] then
      match seen
      case None => Err(MissingEnable)
      case Some(f) => Ok(f)
    else if es[0].0 == EnableKey then
      if seen.Some? then Err(DuplicateEnable)
      else
        match DecodeFalse(es[0].1)
        case Err(e) => Err(BadEnable(e))
        case Ok(f) => ScanOff(es[1..], Some(f))
    else ScanOff(es[1..], seen)
  }

  /** The derived `Deserialize` of the `Off { enable: False }` shape. */
  function DecodeOffShape(v: Value): Result<False, ShapeError>
  {
    match v
    case Map(es) => ScanOff(es, None)
    case _ => Err(NotAMap)
  }

  /** The derived untagged `Deserialize` of `InnerEnable<T>`: the `On` shape first, then the `Off` shape. */
  function DecodeInner<T>(decT: seq<Field> -> Option<T>, v: Value): Result<InnerEnable<T>, DecodeError>
  {
    match DecodeOnRecord(decT, v)
    case Ok(r) => Ok(OnShape(r))
    case Err(_) =>
      match DecodeOffShape(v)
      case Ok(f) => Ok(OffShape(f))
      case Err(_) => Err(NoVariantMatched)
  }

  /** `Deserialize for Enable<T>`: forget the helper shape. */
  function FromInner<T>(ie: InnerEnable<T>): Enable<T>
  {
    match ie
    case OnShape(r) => On(r.inner)
    case OffShape(_) => Off
  }

  function Decode<T>(decT: seq<Field> -> Option<T>, v: Value): Result<Enable<T>, DecodeError>
  {
    match DecodeInner(decT, v)
    case Ok(ie) => Ok(FromInner(ie))
    case Err(e) => Err(e)
  }

  // ---------------------------------------------------------------------
  // Reference decoder

  /**
   * A decoder that reads the discriminator first: a map with exactly one
   * `enable` entry, which is `true` and whose other entries decode as `T`,
   * is switched on; one with exactly one `enable` entry, which is `false`, is
   * switched off whatever else it holds; everything else is refused.
   */
  function DecodeDirect<T>(decT: seq<Field> -> Option<T>, v: Value): Result<Enable<T>, DecodeError>
  {
    if !v.Map? then Err(NoVariantMatched)
    else
      var flags := ValuesFor(v.entries, EnableKey);
      if flags == [Bool(true)] then
        match decT(Without(v.entries, EnableKey))
        case Some(t) => Ok(On(t))
        case None => Err(NoVariantMatched)
      else if flags == [Bool(false)] then Ok(Off)
      else Err(NoVariantMatched)
  }

  // ---------------------------------------------------------------------
  // The shape visitors, read off the discriminator values

  lemma {:induction false} ScanOnAfter(es: seq<Field>, t: True, rest: seq<Field>)
    ensures ScanOn(es, Some(t), rest) ==
      if ValuesFor(es, EnableKey) == [] then Ok((t, rest + Without(es, EnableKey)))
      else Err(DuplicateEnable)
    decreases |es|
  {
    if es == [] {
      assert rest + [] == rest;
    } else if es[0].0 != EnableKey {
      ScanOnAfter(es[1..], t, rest + [es[0]]);
      assert rest + [es[0]] + Without(es[1..], EnableKey) == rest + ([es[0]] + Without(es[1..], EnableKey));
    }
  }

  /**
   * The `On<T>` visitor fails on a map without `enable`, reports the `True`
   * validator's error for the first `enable` value, reports a duplicate when
   * the first is `true` and another follows, and otherwise yields every other
   * entry in document order.
   */
  lemma {:induction false} ScanOnStart(es: seq<Field>, rest: seq<Field>)
    ensures ScanOn(es, None, rest) ==
      var flags := ValuesFor(es, EnableKey);
      if flags == [] then Err(MissingEnable)
      else match DecodeTrue(flags[0])
        case Err(e) => Err(BadEnable(e))
        case Ok(t) =>
          if |flags| > 1 then Err(DuplicateEnable)
          else Ok((t, rest + Without(es, EnableKey)))
    decreases |es|
  {
    if es == [] {
    } else if es[0].0 == EnableKey {
      match DecodeTrue(es[0].1)
      case Err(_) =>
      case Ok(t) => ScanOnAfter(es[1..], t, rest);
    } else {
      ScanOnStart(es[1..], rest + [es[0]]);
      assert rest + [es[0]] + Without(es[1..], EnableKey) == rest + ([es[0]] + Without(es[1..], EnableKey));
    }
  }

  lemma {:induction false} ScanOffAfter(es: seq<Field>, f: False)
    ensures ScanOff(es, Some(f)) ==
      if ValuesFor(es, EnableKey) == [] then Ok(f) else Err(DuplicateEnable)
    decreases |es|
  {
    if es != [] && es[0].0 != EnableKey {
      ScanOffAfter(es[1..], f);
    }
  }

  /**
   * The `Off` visitor ignores every entry but `enable`: it fails on a map
   * without `enable`, reports the `False` validator's error for the first
   * `enable` value, reports a duplicate when the first is `false` and another
   * follows, and otherwise succeeds.
   */
  lemma {:induction false} ScanOffStart(es: seq<Field>)
    ensures ScanOff(es, None) ==
      var flags := ValuesFor(es, EnableKey);
      if flags == [] then Err(MissingEnable)
      else match DecodeFalse(flags[0])
        case Err(e) => Err(BadEnable(e))
        case Ok(f) => if |flags| > 1 then Err(DuplicateEnable) else Ok(f)
    decreases |es|
  {
    if es == [] {
    } else if es[0].0 == EnableKey {
      match DecodeFalse(es[0].1)
      case Err(_) =>
      case Ok(f) => ScanOffAfter(es[1..], f);
    } else {
      ScanOffStart(es[1..]);
    }
  }

  /** The `On<T>` shape matches exactly a map with one `enable`, which is `true`, whose other entries decode as `T`. */
  lemma OnShapeMatches<T>(decT: seq<Field> -> Option<T>, v: Value)
    ensures DecodeOnRecord(decT, v).Ok? <==>
      v.Map? && ValuesFor(v.entries, EnableKey) == [Bool(true)] && decT(Without(v.entries, EnableKey)).Some?
    ensures DecodeOnRecord(decT, v).Ok? ==> DecodeOnRecord(decT, v).value.inner == decT(Without(v.entries, EnableKey)).value
  {
    if v.Map? {
      ScanOnStart(v.entries, []);
      assert [] + Without(v.entries, EnableKey) == Without(v.entries, EnableKey);
    }
  }

  /** The `Off` shape matches exactly a map with one `enable`, which is `false`. */
  lemma OffShapeMatches(v: Value)
    ensures DecodeOffShape(v).Ok? <==> v.Map? && ValuesFor(v.entries, EnableKey) == [Bool(false)]
  {
    if v.Map? {
      ScanOffStart(v.entries);
    }
  }

  /** No document matches both shapes, so the order of the trial never decides between two answers. */
  lemma ShapesExclusive<T>(decT: seq<Field> -> Option<T>, v: Value)
    ensures !(DecodeOnRecord(decT, v).Ok? && DecodeOffShape(v).Ok?)
  {
    OnShapeMatches(decT, v);
    OffShapeMatches(v);
  }

  /** The ordered untagged trial accepts and rejects exactly what the discriminator-first decoder does, with the same results. */
  lemma DecodeMatchesDirect<T>(decT: seq<Field> -> Option<T>, v: Value)
    ensures Decode(decT, v) == DecodeDirect(decT, v)
  {
    OnShapeMatches(decT, v);
    OffShapeMatches(v);
  }

  // ---------------------------------------------------------------------
  // What decoding accepts

  /** A document decodes as `Off` exactly when it is a map with one `enable`, which is `false`; its other keys are neither required nor looked at. */
  lemma DecodeOffIff<T>(decT: seq<Field> -> Option<T>, v: Value)
    ensures Decode(decT, v) == Ok(Off) <==> v.Map? && ValuesFor(v.entries, EnableKey) == [Bool(false)]
  {
    DecodeMatchesDirect(decT, v);
  }

  /** A document decodes as `On(t)` exactly when it is a map with one `enable`, which is `true`, and its other entries decode as `t`. */
  lemma DecodeOnIff<T>(decT: seq<Field> -> Option<T>, v: Value, t: T)
    ensures Decode(decT, v) == Ok(On(t)) <==>
      v.Map? && ValuesFor(v.entries, EnableKey) == [Bool(true)] && decT(Without(v.entries, EnableKey)) == Some(t)
  {
    DecodeMatchesDirect(decT, v);
  }

  /**
   * With `enable: true` the inner fields are required: when they do not decode
   * as `T`, decoding fails; it never falls back to `Off`, because the `Off`
   * shape refuses the `true` literal.
   */
  lemma EnabledNeverOff<T>(decT: seq<Field> -> Option<T>, es: seq<Field>)
    requires ValuesFor(es, EnableKey) == [Bool(true)]
    ensures Decode(decT, Map(es)) != Ok(Off)
    ensures decT(Without(es, EnableKey)).None? ==>
      && DecodeOnRecord(decT, Map(es)) == Err(InnerRejected)
      && DecodeOffShape(Map(es)) == Err(BadEnable(ExpectedFalse))
      && Decode(decT, Map(es)) == Err(NoVariantMatched)
  {
    DecodeMatchesDirect(decT, Map(es));
    ScanOnStart(es, []);
    ScanOffStart(es);
    assert [] + Without(es, EnableKey) == Without(es, EnableKey);
  }

  /** A first `enable` that is not a boolean makes both shapes fail on the discriminator's type, never on the inner fields. */
  lemma NonBooleanEnable<T>(decT: seq<Field> -> Option<T>, es: seq<Field>)
    requires HasKey(es, EnableKey) && !ValuesFor(es, EnableKey)[0].Bool?
    ensures DecodeOnRecord(decT, Map(es)) == Err(BadEnable(InvalidType))
    ensures DecodeOffShape(Map(es)) == Err(BadEnable(InvalidType))
    ensures Decode(decT, Map(es)) == Err(NoVariantMatched)
  {
    ScanOnStart(es, []);
    ScanOffStart(es);
  }

  /** A map without `enable`, or a document that is not a map, is refused by both shapes. */
  lemma MissingEnableRejected<T>(decT: seq<Field> -> Option<T>, v: Value)
    requires !v.Map? || !HasKey(v.entries, EnableKey)
    ensures DecodeOnRecord(decT, v) == Err(if v.Map? then MissingEnable else NotAMap)
    ensures DecodeOffShape(v) == Err(if v.Map? then MissingEnable else NotAMap)
    ensures Decode(decT, v) == Err(NoVariantMatched)
  {
    if v.Map? {
      ScanOnStart(v.entries, []);
      ScanOffStart(v.entries);
    }
  }

  // ---------------------------------------------------------------------
  // Round trips

  /** The inner codec writes `t`, reads it back, and does not itself use the `enable` key. */
  ghost predicate InnerRoundTrips<T>(encT: T -> Option<seq<Field>>, decT: seq<Field> -> Option<T>, t: T)
  {
    encT(t).Some? && decT(encT(t).value) == Some(t) && !HasKey(encT(t).value, EnableKey)
  }

  /** Helper conversions between `Enable<T>` and the untagged shape are mutually inverse on the way out. */
  lemma FromToInner<T>(e: Enable<T>)
    ensures FromInner(ToInner(e)) == e
  {
  }

  /**
   * Every switched-off section, and every switched-on section whose inner
   * value round-trips through its own codec, decodes back to itself.
   */
  lemma RoundTrip<T>(encT: T -> Option<seq<Field>>, decT: seq<Field> -> Option<T>, e: Enable<T>)
    requires e.On? ==> InnerRoundTrips(encT, decT, e.inner)
    ensures Encode(encT, e).Some?
    ensures Decode(decT, Encode(encT, e).value) == Ok(e)
  {
    var v := Encode(encT, e).value;
    DecodeMatchesDirect(decT, v);
    if e.On? {
      var fs := encT(e.inner).value;
      assert v.entries == [(EnableKey, Bool(true))] + fs;
      assert v.entries[1..] == fs;
    }
  }

  /**
   * The no-`enable` condition of the round trip is needed: if the inner value
   * writes its own `enable` field, the encoded document has two and is refused.
   */
  lemma InnerEnableKeyBreaksRoundTrip<T>(encT: T -> Option<seq<Field>>, decT: seq<Field> -> Option<T>, t: T)
    requires encT(t).Some? && HasKey(encT(t).value, EnableKey)
    ensures Encode(encT, On(t)).Some?
    ensures Decode(decT, Encode(encT, On(t)).value) == Err(NoVariantMatched)
  {
    var v := Encode(encT, On(t)).value;
    DecodeMatchesDirect(decT, v);
    assert v.entries[1..] == encT(t).value;
  }
}
