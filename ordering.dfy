/**
 * `Ordering`: the comparison of two sources at each index.
 */
module Ordering {

  import opened Results

  /** `std::cmp::Ordering`. */
  datatype Cmp = Less | Equal | Greater

  /** `partial_cmp` on values that are always comparable. */
  function Compare(a: real, b: real): (c: Cmp)
    ensures c == Less <==> a < b
    ensures c == Equal <==> a == b
    ensures c == Greater <==> a > b
  {
    if a < b then Less else if a == b then Equal else Greater
  }

  /** `Ordering::reverse`. */
  function Reverse(c: Cmp): Cmp
  {
    match c
    case Less => Greater
    case Equal => Equal
    case Greater => Less
  }

  /** `Ordering::value`: a non-value of the first source is handed on
      first, then one of the second; otherwise the comparison of the two
      values. */
  function OrderingValue(s1: int -> Res<real>, s2: int -> Res<real>, at: int): (r: Res<Cmp>)
    ensures r.InRange? <==> s1(at).InRange? && s2(at).InRange?
    ensures !s1(at).InRange? ==> r == Forward(s1(at))
    ensures s1(at).InRange? && !s2(at).InRange? ==> r == Forward(s2(at))
    ensures r == InRange(Less) <==> r.InRange? && s1(at).v < s2(at).v
    ensures r == InRange(Equal) <==> r.InRange? && s1(at).v == s2(at).v
    ensures r == InRange(Greater) <==> r.InRange? && s1(at).v > s2(at).v
  {
    if !s1(at).InRange? then Forward(s1(at))
    else if !s2(at).InRange? then Forward(s2(at))
    else InRange(Compare(s1(at).v, s2(at).v))
  }

  /** The ordering indicator over two sources. */
  function Orderings(s1: int -> Res<real>, s2: int -> Res<real>): int -> Res<Cmp>
  {
    (i: int) => OrderingValue(s1, s2, i)
  }

  /** Swapping the sources reverses Less and Greater and keeps Equal; where
      only one source lacks a value, the non-value is the same either way. */
  lemma SwapReverses(s1: int -> Res<real>, s2: int -> Res<real>, at: int)
    ensures OrderingValue(s2, s1, at).InRange? <==> OrderingValue(s1, s2, at).InRange?
    ensures OrderingValue(s1, s2, at).InRange? ==>
      OrderingValue(s2, s1, at).v == Reverse(OrderingValue(s1, s2, at).v)
    ensures s1(at).InRange? != s2(at).InRange? ==> OrderingValue(s2, s1, at) == OrderingValue(s1, s2, at)
  {
  }
}
