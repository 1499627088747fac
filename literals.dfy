/**
 * The two literal validators `True` and `False`: unit types that encode as
 * one fixed boolean and decode only from that same boolean.  Because the
 * check happens while the enclosing map is decoded, a discriminator with the
 * wrong literal makes the attempted shape fail like any other decode error.
 */
module Literals {
  import opened Wrappers
  import opened Values

  /**
   * Why a literal was refused: the value is not a boolean at all, or it is
   * the other boolean (the validators' custom "Expected a true value" and
   * "Expected a false value" errors; their text is not modelled).
   */
  datatype LiteralError = InvalidType | ExpectedTrue | ExpectedFalse

  /** The format's boolean reader, which both validators call first. */
  function DecodeBool(v: Value): (r: Result<bool, LiteralError>)
    ensures r.Ok? <==> v.Bool?
    ensures r.Ok? ==> v == Bool(r.value)
    ensures r.Err? ==> r.error == InvalidType
  {
    match v
    case Bool(b) => Ok(b)
    case _ => Err(InvalidType)
  }

  datatype True = True

  datatype False = False

  /** `True` always writes the boolean `true`, which it reads back. */
  function EncodeTrue(t: True): (v: Value)
    ensures v.Bool?
    ensures DecodeTrue(v) == Ok(t)
  {
    assert t == True;
    Bool(true)
  }

  /** `True` accepts exactly the boolean `true`. */
  function DecodeTrue(v: Value): (r: Result<True, LiteralError>)
    ensures r.Ok? <==> v == Bool(true)
    ensures r == Err(ExpectedTrue) <==> v == Bool(false)
    ensures r == Err(InvalidType) <==> !v.Bool?
  {
    match DecodeBool(v)
    case Err(e) => Err(e)
    case Ok(b) => if b then Ok(True) else Err(ExpectedTrue)
  }

  /** `False` always writes the boolean `false`, which it reads back. */
  function EncodeFalse(f: False): (v: Value)
    ensures v.Bool?
    ensures DecodeFalse(v) == Ok(f)
  {
    assert f == False;
    Bool(false)
  }

  /** `False` accepts exactly the boolean `false`. */
  function DecodeFalse(v: Value): (r: Result<False, LiteralError>)
    ensures r.Ok? <==> v == Bool(false)
    ensures r == Err(ExpectedFalse) <==> v == Bool(true)
    ensures r == Err(InvalidType) <==> !v.Bool?
  {
    match DecodeBool(v)
    case Err(e) => Err(e)
    case Ok(b) => if !b then Ok(False) else Err(ExpectedFalse)
  }

  /** No value passes both validators, and every boolean passes exactly one. */
  lemma LiteralsPartitionBooleans(v: Value)
    ensures !(DecodeTrue(v).Ok? && DecodeFalse(v).Ok?)
    ensures v.Bool? <==> DecodeTrue(v).Ok? || DecodeFalse(v).Ok?
  {
  }
}
