/**
 * `Envelope`: a source scaled by a fixed percentage deviation, both as a
 * random-access indicator and as a pulled stream.
 */
module Envelope {

  import opened Results
  import Stream

  datatype Envelope = Envelope(deviation: real)

  /** `Envelope::new`: the deviation factor for a deviation given in
      percent. */
  function NewEnvelope(percent: real): (e: Envelope)
    ensures e.deviation * 100.0 == 100.0 + percent
  {
    Envelope(1.0 + percent / 100.0)
  }

  /** `Envelope::value`: a value of the source scaled by the deviation; a
      non-value handed on unchanged. */
  function EnvelopeValue(e: Envelope, source: int -> Res<real>, at: int): (r: Res<real>)
    ensures r.InRange? <==> source(at).InRange?
    ensures !r.InRange? ==> r == source(at)
    ensures r.InRange? ==> r.v == source(at).v * e.deviation
  {
    MapRes(source(at), (v: real) => v * e.deviation)
  }

  /** An envelope is a `Map` by the scaling. */
  lemma EnvelopeIsMap(e: Envelope, source: int -> Res<real>, at: int)
    ensures EnvelopeValue(e, source, at) == Stream.MapValue(source, (v: real) => v * e.deviation, at)
  {
  }

  /** A 0% envelope is the source itself. */
  lemma ZeroPercentIsIdentity(source: int -> Res<real>, at: int)
    ensures EnvelopeValue(NewEnvelope(0.0), source, at) == source(at)
  {
  }

  /** Any envelope but -100% can be undone by dividing by its deviation. */
  lemma EnvelopeUndoes(percent: real, source: int -> Res<real>, at: int)
    requires percent != -100.0
    ensures MapRes(EnvelopeValue(NewEnvelope(percent), source, at),
                   (v: real) => v / NewEnvelope(percent).deviation) == source(at)
  {
    var e := NewEnvelope(percent);
    var d := e.deviation;
    assert d != 0.0;
    if source(at).InRange? {
      var v := source(at).v;
      var r := EnvelopeValue(e, source, at);
      assert r.InRange? && r.v == v * d;
      assert v * d / d == v;
      assert MapRes(r, (x: real) => x / d).v == v;
    }
  }

  /** `Envelope` pulled as a stream over a source stream. */
  class EnvelopeIter {
    const source: Stream.FuncIter<real>
    const envelope: Envelope

    constructor (source: Stream.FuncIter<real>, percent: real)
      ensures this.source == source && envelope == NewEnvelope(percent)
    {
      this.source := source;
      envelope := NewEnvelope(percent);
    }

    /** `next`: the source stream's next result, scaled the same way as
        `value`. */
    method Next(src: int -> Res<real>) returns (r: Res<real>)
      modifies source
      ensures r == EnvelopeValue(envelope, src, old(source.offset))
      ensures source.offset == (if r.InRange? then old(source.offset) + 1 else old(source.offset))
    {
      var v := source.Next(src);
      r := MapRes(v, (x: real) => x * envelope.deviation);
    }

    /** `offset` is the source stream's offset, passed through as every
        stream adapter of the engine does. */
    function Offset(): (o: int)
      reads source
      ensures o == source.offset
    {
      source.offset
    }
  }
}
