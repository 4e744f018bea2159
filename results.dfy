/**
 * Result vocabularies shared by every indicator of the engine.
 *
 * `Res` is the three-state completion result of an indicator read:
 * `NotFixed` (the value at that index is not known yet and may still
 * arrive), `OutOfRange` (the index will never have a value) and
 * `InRange(v)`. The two-state `MaybeValue` of the streaming indicators
 * (`Value(v)` / `OutOfRange`) is the part of `Res` without `NotFixed`.
 * Older indicators return `Option`, kept as is.
 */
module Results {

  datatype Option<+T> = None | Some(value: T)

  datatype Res<+V> = NotFixed | OutOfRange | InRange(v: V)

  /** A run that the source ends with a panic (unwrap on None, an explicit
      panic!, a usize underflow) instead of a value. */
  datatype Checked<+T> = Ok(value: T) | Panic

  /** `map` / `map2` of a result: the function is applied to a value, any
      other result is handed on unchanged. */
  function MapRes<V, W>(r: Res<V>, f: V -> W): (out: Res<W>)
    ensures out.InRange? <==> r.InRange?
    ensures out.NotFixed? <==> r.NotFixed?
    ensures r.InRange? ==> out.v == f(r.v)
  {
    match r
    case InRange(v) => InRange(f(v))
    case OutOfRange => OutOfRange
    case NotFixed => NotFixed
  }

  /** `zip2` of two results (and the `try_value!` pair in front of a
      binary operation): the first result that is not a value is handed
      on unchanged; otherwise both values are paired. */
  function ZipRes<A, B>(a: Res<A>, b: Res<B>): (out: Res<(A, B)>)
    ensures out.InRange? <==> a.InRange? && b.InRange?
    ensures out.InRange? ==> out.v == (a.v, b.v)
    ensures !a.InRange? ==> (out.NotFixed? <==> a.NotFixed?)
    ensures a.InRange? && !b.InRange? ==> (out.NotFixed? <==> b.NotFixed?)
  {
    match a
    case NotFixed => NotFixed
    case OutOfRange => OutOfRange
    case InRange(x) =>
      match b
      case NotFixed => NotFixed
      case OutOfRange => OutOfRange
      case InRange(y) => InRange((x, y))
  }

  /** A non-value handed on as a result of another value type. */
  function Forward<A, B>(r: Res<A>): (out: Res<B>)
    requires !r.InRange?
    ensures !out.InRange? && (out.NotFixed? <==> r.NotFixed?)
  {
    if r.NotFixed? then NotFixed else OutOfRange
  }

  /** `Option::map`. */
  function MapOption<V, W>(o: Option<V>, f: V -> W): (out: Option<W>)
    ensures out.Some? <==> o.Some?
    ensures o.Some? ==> out.value == f(o.value)
  {
    match o
    case None => None
    case Some(v) => Some(f(v))
  }
}
