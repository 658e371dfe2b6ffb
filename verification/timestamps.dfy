/** The efergy timestamp conventions of lib/engage_api.py.

    A point in time is a UTC datetime; the model keeps it at millisecond
    resolution. Decoding reads its argument as MILLISECONDS since the epoch,
    while encoding yields SECONDS since the epoch, so the two are not inverse. */
module Timestamps {

  /** A naive UTC datetime, as a count of milliseconds since 1970-01-01T00:00:00. */
  datatype Instant = Instant(ms: int)

  /** efergy_ts_to_datetime: the argument is taken as milliseconds since the epoch. */
  function Decode(efergyTs: int): (d: Instant)
    ensures d.ms == efergyTs
  {
    Instant(efergyTs)
  }

  /** The epoch, as the source obtains it: efergy_ts_to_datetime(0). */
  const Epoch: Instant := Decode(0)

  /** (to - from).total_seconds(): the signed length of a time span, in seconds. */
  function Seconds(from: Instant, to: Instant): (s: real)
    ensures s * 1000.0 == (to.ms - from.ms) as real
  {
    (to.ms - from.ms) as real / 1000.0
  }

  /** datetime_to_efergy_ts: seconds elapsed since the epoch. */
  function Encode(d: Instant): (s: real)
    ensures s * 1000.0 == d.ms as real
  {
    Seconds(Epoch, d)
  }

  /** Decoding then encoding divides by one thousand: milliseconds go in,
      seconds come out. */
  lemma EncodeDecode(m: int)
    ensures Encode(Decode(m)) == m as real / 1000.0
  {
  }

  /** Encoding the epoch gives zero. */
  lemma EncodeEpoch()
    ensures Encode(Epoch) == 0.0
    ensures Encode(Decode(0)) == 0.0
  {
  }

  /** The composition is not the identity on any timestamp but zero. */
  lemma EncodeDecodeNotIdentity(m: int)
    ensures Encode(Decode(m)) == m as real <==> m == 0
  {
  }

  /** Decoding is injective and order-preserving, and encoding is strictly
      monotone, so neither loses or reorders instants. */
  lemma DecodeOrder(m: int, n: int)
    ensures Decode(m) == Decode(n) <==> m == n
    ensures Decode(m).ms < Decode(n).ms <==> m < n
  {
  }

  lemma EncodeOrder(a: Instant, b: Instant)
    ensures Encode(a) < Encode(b) <==> a.ms < b.ms
    ensures Encode(a) == Encode(b) <==> a == b
  {
  }

  /** The span between two instants is the difference of their encodings. */
  lemma SecondsIsEncodedDifference(a: Instant, b: Instant)
    ensures Seconds(a, b) == Encode(b) - Encode(a)
  {
  }
}
