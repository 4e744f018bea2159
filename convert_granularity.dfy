/**
 * `ConvertWithNone`: reads a source kept at one granularity at the
 * timestamps of another; a timestamp that is not a bar of the source's
 * granularity reads as a value of `None`.
 */
module ConvertGranularity {

  import opened Results
  import opened TimeGranularity
  import VecIndicator

  /** `ConvertWithNone::value` at timestamp `t` of the target granularity,
      over a source indexed by the timestamps of granularity `g1`. */
  function ConvertValue<V>(source: int -> Res<V>, g1: Granularity, t: int): (r: Res<Option<V>>)
    requires WellFormed(g1)
    ensures IsValid(g1, t) ==> r == MapRes(source(t), (v: V) => Some(v))
    ensures !IsValid(g1, t) ==> r == InRange(None)
  {
    // The granularity S5 is only a label here: `TryInto` keeps the
    // timestamp and checks it against `g1` alone.
    match TryInto(Time(t, S5), g1)
    case Some(tm) => MapRes(source(tm.timestamp), (v: V) => Some(v))
    case None => InRange(None)
  }

  /** A conversion reads `None` exactly at the timestamps that are not
      bars of the source's granularity. */
  lemma NoneExactlyOffBars<V>(source: int -> Res<V>, g1: Granularity, t: int)
    requires WellFormed(g1)
    ensures ConvertValue(source, g1, t) == InRange(None) <==> !IsValid(g1, t)
  {
  }

  /** Fine data read at coarse bars: every S10 bar is an S5 bar, so the
      conversion never reads `None` there. */
  lemma FineToCoarseHasEveryBar<V>(source: int -> Res<V>, t: int)
    requires IsValid(S10, t)
    ensures ConvertValue(source, S5, t) == MapRes(source(t), (v: V) => Some(v))
  {
    CoarserIsFiner(t);
  }

  /** A vector at bars of `g` from timestamp 0, indexed by timestamp. */
  function VecAtBars<V>(g: Granularity, xs: seq<V>): int -> Res<V>
    requires WellFormed(g)
  {
    (t: int) => VecIndicator.SeriesValue(0, xs, t / UnitDuration(g))
  }

  /** S5 data [1..5] read at the S10 bars 0, 10, 20: 1, 3, 5. */
  lemma S5ToS10Example()
    ensures forall i :: 0 <= i < 3 ==>
      ConvertValue(VecAtBars(S5, [1.0, 2.0, 3.0, 4.0, 5.0]), S5, 10 * i) == InRange(Some([1.0, 3.0, 5.0][i]))
  {
    forall i | 0 <= i < 3
      ensures ConvertValue(VecAtBars(S5, [1.0, 2.0, 3.0, 4.0, 5.0]), S5, 10 * i) == InRange(Some([1.0, 3.0, 5.0][i]))
    {
      ValidS5Iff(10 * i);
    }
  }

  /** S10 data [1..5] read at the S5 bars 0, 5, ..., 40: the values at the
      even bars, `None` between them. */
  lemma S10ToS5Example()
    ensures forall i :: 0 <= i < 9 ==>
      ConvertValue(VecAtBars(S10, [1.0, 2.0, 3.0, 4.0, 5.0]), S10, 5 * i)
      == (if i % 2 == 0 then InRange(Some([1.0, 2.0, 3.0, 4.0, 5.0][i / 2])) else InRange(None))
  {
    forall i | 0 <= i < 9
      ensures ConvertValue(VecAtBars(S10, [1.0, 2.0, 3.0, 4.0, 5.0]), S10, 5 * i)
        == (if i % 2 == 0 then InRange(Some([1.0, 2.0, 3.0, 4.0, 5.0][i / 2])) else InRange(None))
    {
      ValidS10Iff(5 * i);
    }
  }
}
