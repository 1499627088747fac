/**
 * `Enable<T>`: a settings section that is either switched on, carrying its
 * settings, or switched off, carrying nothing.  Values are built with
 * `MakeOn` / `MakeOff` (Rust's `on` / `off`) and only read afterwards.
 */
module SerdeEnabled {
  import opened Wrappers

  datatype Enable<T> = On(inner: T) | Off

  /** `Enable::on`. */
  function MakeOn<T>(inner: T): Enable<T>
  {
    On(inner)
  }

  /** `Enable::off`. */
  function MakeOff<T>(): Enable<T>
  {
    Off
  }

  /** `into_inner`: the settings of a switched-on section; the inverse of the two constructors. */
  function IntoInner<T>(e: Enable<T>): (r: Option<T>)
    ensures r.Some? ==> e == MakeOn(r.value)
    ensures r.None? ==> e == MakeOff()
  {
    match e
    case On(inner) => Some(inner)
    case Off => None
  }

  /**
   * `as_ref`: the same projection without consuming the wrapper.  Values
   * have no identity here, so borrowing and moving give the same result.
   */
  function AsRef<T>(e: Enable<T>): (r: Option<T>)
    ensures r == IntoInner(e)
  {
    match e
    case On(inner) => Some(inner)
    case Off => None
  }

  /** `is_enabled`: the section carries settings. */
  function IsEnabled<T>(e: Enable<T>): (b: bool)
    ensures b <==> IntoInner(e).Some?
  {
    e.On?
  }

  lemma IsEnabledIffOn<T>(e: Enable<T>)
    ensures IsEnabled(e) <==> exists x :: e == MakeOn(x)
  {
    if e.On? {
      assert e == MakeOn(e.inner);
    }
  }

  lemma OnAccessors<T>(x: T)
    ensures IsEnabled(MakeOn(x))
    ensures IntoInner(MakeOn(x)) == Some(x)
    ensures AsRef(MakeOn(x)) == Some(x)
  {
  }

  lemma OffAccessors<T>()
    ensures !IsEnabled(MakeOff<T>())
    ensures IntoInner(MakeOff<T>()) == None
    ensures AsRef(MakeOff<T>()) == None
  {
  }
}
