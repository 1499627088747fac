/**
 * The settings struct the library's tests wrap, `Inside { thing: u32,
 * other: String }`, with the field codec its derived impls give it, and the
 * tests' documents and expectations restated on `Value`.
 */
module InsideExample {
  import opened Wrappers
  import opened Values
  import opened SerdeEnabled
  import opened EnableCodec

  type U32 = x: int | 0 <= x < 0x1_0000_0000

  datatype Inside = Inside(thing: U32, other: string)

  /**
   * The derived decoder of `Inside` over the fields left to a flattened
   * value: each field exactly once, `thing` an integer in `u32` range,
   * `other` a string; unknown keys are ignored.
   */
  function DecodeInside(fs: seq<Field>): (r: Option<Inside>)
    ensures r.Some? ==> ValuesFor(fs, "thing") == [Int(r.value.thing)] && ValuesFor(fs, "other") == [Str(r.value.other)]
    ensures r.None? ==> !exists i: Inside :: ValuesFor(fs, "thing") == [Int(i.thing)] && ValuesFor(fs, "other") == [Str(i.other)]
  {
    var things := ValuesFor(fs, "thing");
    var others := ValuesFor(fs, "other");
    if |things| == 1 && things[0].Int? && 0 <= things[0].i < 0x1_0000_0000 && |others| == 1 && others[0].Str? then
      Some(Inside(things[0].i, others[0].s))
    else
      None
  }

  /** The derived encoder of `Inside`: its fields in declaration order; it round-trips and never writes `enable`. */
  function EncodeInside(i: Inside): (fs: Option<seq<Field>>)
    ensures fs.Some?
    ensures DecodeInside(fs.value) == Some(i)
    ensures !HasKey(fs.value, EnableKey)
  {
    var fs := [("thing", Int(i.thing)), ("other", Str(i.other))];
    assert fs[1..][1..] == [] && fs[1..] == [fs[1]];
    assert "other"[0] != "thing"[0] && "thing" != EnableKey && "other" != EnableKey;
    assert !HasKey(fs[1..], EnableKey) && !HasKey(fs, EnableKey);
    assert ValuesFor(fs[1..], "thing") == [] && ValuesFor(fs, "thing") == [Int(i.thing)];
    assert ValuesFor(fs[1..], "other") == [Str(i.other)] && ValuesFor(fs, "other") == [Str(i.other)];
    Some(fs)
  }

  /** Every switched-on or switched-off `Inside` section decodes back to itself. */
  lemma InsideRoundTrip(e: Enable<Inside>)
    ensures Encode(EncodeInside, e).Some?
    ensures Decode(DecodeInside, Encode(EncodeInside, e).value) == Ok(e)
  {
    if e.On? {
      assert InnerRoundTrips(EncodeInside, DecodeInside, e.inner);
    }
    RoundTrip(EncodeInside, DecodeInside, e);
  }

  /** `{enable: false}` decodes as a disabled section without any of `Inside`'s fields. */
  lemma ExtraFieldsNotNeededWhenDisabled()
    ensures Decode(DecodeInside, Map([("enable", Bool(false))])) == Ok(Off)
    ensures !IsEnabled(Decode(DecodeInside, Map([("enable", Bool(false))])).value)
  {
    DecodeOffIff(DecodeInside, Map([("enable", Bool(false))]));
  }

  /** `{enable: false, thing: 1, other: "Great"}` decodes as a disabled section; the extra fields are ignored. */
  lemma ExtraFieldsAllowedWhenDisabled()
    ensures Decode(DecodeInside, Map([("enable", Bool(false)), ("thing", Int(1)), ("other", Str("Great"))])) == Ok(Off)
  {
    var doc := Map([("enable", Bool(false)), ("thing", Int(1)), ("other", Str("Great"))]);
    assert ValuesFor(doc.entries, EnableKey) == [Bool(false)];
    DecodeOffIff(DecodeInside, doc);
  }

  /** `{enable: true, thing: 1, other: "Great"}` decodes as the enabled section holding those values. */
  lemma ExtraFieldsNeededWhenEnabled()
    ensures Decode(DecodeInside, Map([("enable", Bool(true)), ("thing", Int(1)), ("other", Str("Great"))]))
      == Ok(On(Inside(1, "Great")))
    ensures IntoInner(On(Inside(1, "Great"))) == Some(Inside(1, "Great"))
  {
    var doc := Map([("enable", Bool(true)), ("thing", Int(1)), ("other", Str("Great"))]);
    assert ValuesFor(doc.entries, EnableKey) == [Bool(true)];
    assert Without(doc.entries, EnableKey) == [("thing", Int(1)), ("other", Str("Great"))];
    assert DecodeInside(Without(doc.entries, EnableKey)) == Some(Inside(1, "Great"));
    DecodeOnIff(DecodeInside, doc, Inside(1, "Great"));
  }

  /** `{enable: true}` alone is refused: `Inside`'s fields are required when the section is on. */
  lemma FieldsRequiredWhenEnabled()
    ensures Decode(DecodeInside, Map([("enable", Bool(true))])) == Err(NoVariantMatched)
  {
    var doc := Map([("enable", Bool(true))]);
    assert Without(doc.entries, EnableKey) == [];
    EnabledNeverOff(DecodeInside, doc.entries);
  }

  /** `{enable: "yes"}` is refused by both shapes on the discriminator's type. */
  lemma NonBooleanDiscriminatorRejected()
    ensures DecodeOnRecord(DecodeInside, Map([("enable", Str("yes"))])) == Err(BadEnable(Literals.InvalidType))
    ensures Decode(DecodeInside, Map([("enable", Str("yes"))])) == Err(NoVariantMatched)
  {
    NonBooleanEnable(DecodeInside, [("enable", Str("yes"))]);
  }

  /** An enabled section is written as `enable: true`, then `thing`, then `other`, all at one level. */
  lemma SerializeAnEnabledFeature()
    ensures Encode(EncodeInside, On(Inside(1, "Great")))
      == Some(Map([("enable", Bool(true)), ("thing", Int(1)), ("other", Str("Great"))]))
  {
    var fs := EncodeInside(Inside(1, "Great")).value;
    assert [("enable", Bool(true))] + fs == [("enable", Bool(true)), ("thing", Int(1)), ("other", Str("Great"))];
  }

  /** A disabled section is written as `{enable: false}` and nothing else. */
  lemma SerializeADisabledFeature()
    ensures Encode(EncodeInside, Off) == Some(Map([("enable", Bool(false))]))
  {
  }
}
