/**
 * The self-describing document that a map-based format (YAML, JSON, TOML)
 * is read into before a type decodes itself from it, and that a type's
 * encoder writes into.  A map keeps its entries in document order and may
 * repeat a key; the decoders of the wrapper see exactly that.
 */
module Values {

  datatype Value =
    | Null
    | Bool(b: bool)
    | Int(i: int)
    | Str(s: string)
    | Map(entries: seq<(string, Value)>)

  /** One entry of a map: its key and its value. */
  type Field = (string, Value)

  /** Some entry of `es` is stored under `key`. */
  predicate HasKey(es: seq<Field>, key: string)
  {
    es != [] && (es[0].0 == key || HasKey(es[1..], key))
  }

  /** The values stored under `key`, in document order. */
  function ValuesFor(es: seq<Field>, key: string): (vs: seq<Value>)
    ensures |vs| <= |es|
    ensures vs == [] <==> !HasKey(es, key)
  {
    if es == [] then []
    else (if es[0].0 == key then [es[0].1] else []) + ValuesFor(es[1..], key)
  }

  /** The entries of `es` not stored under `key`, in document order. */
  function Without(es: seq<Field>, key: string): (rest: seq<Field>)
    ensures |rest| + |ValuesFor(es, key)| == |es|
    ensures !HasKey(rest, key)
    ensures !HasKey(es, key) ==> rest == es
    ensures forall f :: f in rest <==> f in es && f.0 != key
  {
    if es == [] then []
    else if es[0].0 == key then Without(es[1..], key)
    else [es[0]] + Without(es[1..], key)
  }

  /** Dropping a key commutes with concatenation, so `Without` keeps the surviving entries in document order. */
  lemma {:induction false} WithoutAppend(a: seq<Field>, b: seq<Field>, key: string)
    ensures Without(a + b, key) == Without(a, key) + Without(b, key)
    decreases |a|
  {
    if a == [] {
      assert a + b == b;
    } else {
      var ab := a + b;
      assert ab[0] == a[0] && ab[1..] == a[1..] + b;
      WithoutAppend(a[1..], b, key);
      if a[0].0 != key {
        var wa, wb := Without(a[1..], key), Without(b, key);
        assert Without(ab, key) == [a[0]] + (wa + wb);
        assert [a[0]] + (wa + wb) == ([a[0]] + wa) + wb;
      }
    }
  }
}
