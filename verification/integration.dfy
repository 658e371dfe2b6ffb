/** integrateTimeSeriesMulti, integrateTimeSeries and computeCost: energy and
    cost totals of a parsed series. Readings are power samples taken at a fixed
    cadence; the cadence is the gap between the first two samples. */
module Integration {
  import opened Outcomes
  import opened Timestamps
  import opened SeriesParse
  import opened Sums

  /** The sum of all readings of a series. */
  function Total(ts: seq<Sample>): (r: real) {
    if ts == [] then 0.0 else Total(ts[..|ts| - 1]) + ts[|ts| - 1].value
  }

  /** dt: the seconds between the first two samples, whatever the spacing of
      the others and whatever its sign. */
  function Interval(ts: seq<Sample>): (r: real)
    requires |ts| >= 2
  {
    Seconds(ts[0].at, ts[1].at)
  }

  /** dt / 3600: converts a sum of power samples into energy. */
  function Factor(ts: seq<Sample>): (r: real)
    requires |ts| >= 2
  {
    Interval(ts) / 3600.0
  }

  /** The bucket keys the mapping gives the samples' times. */
  function Buckets<K(==)>(ts: seq<Sample>, f: Instant -> K): (r: set<K>) {
    if ts == [] then {} else Buckets(ts[..|ts| - 1], f) + {f(ts[|ts| - 1].at)}
  }

  /** The sum of the readings whose time the mapping sends to `k`. */
  function BucketSum<K(==)>(ts: seq<Sample>, f: Instant -> K, k: K): (r: real) {
    if ts == [] then 0.0
    else BucketSum(ts[..|ts| - 1], f, k) + (if f(ts[|ts| - 1].at) == k then ts[|ts| - 1].value else 0.0)
  }

  /** Every bucket key with the sum of its readings. */
  function BucketSums<K(==)>(ts: seq<Sample>, f: Instant -> K): (r: map<K, real>) {
    map k | k in Buckets(ts, f) :: BucketSum(ts, f, k)
  }

  /** Every value of `m` times `c`. */
  function ScaleMap<K(==)>(m: map<K, real>, c: real): (r: map<K, real>) {
    map k | k in m :: Product(m[k], c)
  }

  /** The specification of integrateTimeSeriesMulti: an IndexError on fewer
      than two samples, otherwise one entry per bucket key holding that
      bucket's readings times dt / 3600. */
  function Integrated<K(==)>(ts: seq<Sample>, f: Instant -> K): (r: Result<map<K, real>>) {
    if |ts| < 2 then Err(InsufficientData) else Ok(ScaleMap(BucketSums(ts, f), Factor(ts)))
  }

  /** The bucket keys are exactly the images of the samples' times. */
  lemma {:induction false} BucketsAre<K>(ts: seq<Sample>, f: Instant -> K)
    ensures Buckets(ts, f) == set i | 0 <= i < |ts| :: f(ts[i].at)
  {
    if ts != [] {
      var p := ts[..|ts| - 1];
      BucketsAre(p, f);
      assert forall i :: 0 <= i < |p| ==> p[i] == ts[i];
      var s := set i | 0 <= i < |ts| :: f(ts[i].at);
      forall k | k in s ensures k in Buckets(ts, f) {
        var i :| 0 <= i < |ts| && f(ts[i].at) == k;
        if i < |p| {
          assert f(p[i].at) == k;
        }
      }
    }
  }

  /** A key no sample maps to has an empty bucket. */
  lemma {:induction false} BucketSumOutside<K>(ts: seq<Sample>, f: Instant -> K, k: K)
    requires k !in Buckets(ts, f)
    ensures BucketSum(ts, f, k) == 0.0
  {
    if ts != [] {
      BucketSumOutside(ts[..|ts| - 1], f, k);
    }
  }

  /** The sum over the samples of a weight of each sample's bucket key times its reading. */
  function WeightedSamples<K(==)>(ts: seq<Sample>, f: Instant -> K, w: K -> real): (r: real) {
    if ts == [] then 0.0
    else WeightedSamples(ts[..|ts| - 1], f, w) + Product(w(f(ts[|ts| - 1].at)), ts[|ts| - 1].value)
  }


  /** The term one bucket contributes: its weight times its sum. */
  function BucketTerm<K(==)>(ts: seq<Sample>, f: Instant -> K, w: K -> real): (r: K -> real) {
    k => Product(w(k), BucketSum(ts, f, k))
  }

  /** Appending a sample adds its weighted reading to its own bucket's term only. */
  lemma BucketTermStep<K>(ts: seq<Sample>, f: Instant -> K, w: K -> real, k: K)
    requires ts != []
    ensures var x := ts[|ts| - 1];
            BucketTerm(ts, f, w)(k) ==
              BucketTerm(ts[..|ts| - 1], f, w)(k) + (if f(x.at) == k then Product(w(k), x.value) else 0.0)
  {
    var x := ts[|ts| - 1];
    var b := BucketSum(ts[..|ts| - 1], f, k);
    var v := if f(x.at) == k then x.value else 0.0;
    assert BucketSum(ts, f, k) == b + v;
    assert Product(w(k), b + v) == Product(w(k), b) + Product(w(k), v);
  }

  /** The buckets partition the samples: adding up the weighted bucket sums
      gives the weighted sum over the samples. */
  lemma {:induction false} WeightedPartition<K>(ts: seq<Sample>, f: Instant -> K, w: K -> real)
    ensures SetSum(Buckets(ts, f), BucketTerm(ts, f, w)) == WeightedSamples(ts, f, w)
  {
    if ts != [] {
      var p := ts[..|ts| - 1];
      var x := ts[|ts| - 1];
      var a := f(x.at);
      var S := Buckets(p, f);
      var G := BucketTerm(ts, f, w);
      var Gp := BucketTerm(p, f, w);
      WeightedPartition(p, f, w);
      forall k | k in S && k != a ensures G(k) == Gp(k) {
        BucketTermStep(ts, f, w, k);
      }
      BucketTermStep(ts, f, w, a);
      if a !in S {
        BucketSumOutside(p, f, a);
      }
      var m := Product(w(a), x.value);
      SetSumBump(S, Gp, G, a, m);
      assert Buckets(ts, f) == S + {a};
      assert SetSum(S + {a}, G) == WeightedSamples(p, f, w) + m;
      assert WeightedSamples(ts, f, w) == WeightedSamples(p, f, w) + m;
    }
  }

  /** One more sample adds its reading to its own bucket, which it creates
      with a zero sum if it is new. */
  lemma BucketSumsStep<K>(ts: seq<Sample>, f: Instant -> K, i: nat)
    requires i < |ts|
    ensures var m := BucketSums(ts[..i], f);
            var key := f(ts[i].at);
            BucketSums(ts[..i + 1], f) == m[key := (if key in m then m[key] else 0.0) + ts[i].value]
  {
    var p := ts[..i];
    var key := f(ts[i].at);
    assert ts[..i + 1][..i] == p;
    if key !in Buckets(p, f) {
      BucketSumOutside(p, f, key);
    }
  }

  /** `m` with the keys outside `pending` already scaled by `c`. */
  function PartlyScaled<K(==)>(m: map<K, real>, pending: set<K>, c: real): (r: map<K, real>) {
    map k | k in m :: if k in pending then m[k] else Product(m[k], c)
  }

  /** Before the scaling pass nothing is scaled. */
  lemma PartlyScaledNone<K>(m: map<K, real>, c: real)
    ensures PartlyScaled(m, m.Keys, c) == m
  {
  }

  /** Scaling one pending key moves it out of `pending`. */
  lemma PartlyScaledStep<K>(m: map<K, real>, pending: set<K>, c: real, key: K)
    requires key in pending && pending <= m.Keys
    ensures var p := PartlyScaled(m, pending, c);
            key in p && p[key] == m[key] &&
            p[key := Product(p[key], c)] == PartlyScaled(m, pending - {key}, c)
  {
  }

  /** After the scaling pass every key is scaled. */
  lemma PartlyScaledAll<K>(m: map<K, real>, c: real)
    ensures PartlyScaled(m, {}, c) == ScaleMap(m, c)
  {
  }

  /** integrateTimeSeriesMulti: sums the readings per bucket in a first pass
      over the samples, then scales every bucket by dt / 3600. */
  method IntegrateTimeSeriesMulti<K(==)>(timeSeries: seq<Sample>, timeMapping: Instant -> K)
    returns (r: Result<map<K, real>>)
    ensures r == Integrated(timeSeries, timeMapping)
  {
    if |timeSeries| < 2 {
      return Err(InsufficientData);
    }
    var dt := Seconds(timeSeries[0].at, timeSeries[1].at);
    var ret: map<K, real> := map[];
    var i := 0;
    while i < |timeSeries|
      invariant 0 <= i <= |timeSeries|
      invariant ret == BucketSums(timeSeries[..i], timeMapping)
    {
      var key := timeMapping(timeSeries[i].at);
      var sum: real;
      if key in ret {
        sum := ret[key];
      } else {
        sum := 0.0;
      }
      sum := sum + timeSeries[i].value;
      BucketSumsStep(timeSeries, timeMapping, i);
      ret := ret[key := sum];
      i := i + 1;
    }
    assert timeSeries[..i] == timeSeries;
    ghost var sums := ret;
    var pending := ret.Keys;
    PartlyScaledNone(sums, dt / 3600.0);
    while pending != {}
      invariant pending <= sums.Keys
      invariant ret == PartlyScaled(sums, pending, dt / 3600.0)
      decreases pending
    {
      var key :| key in pending;
      PartlyScaledStep(sums, pending, dt / 3600.0, key);
      ret := ret[key := Product(ret[key], dt / 3600.0)];
      pending := pending - {key};
    }
    PartlyScaledAll(sums, dt / 3600.0);
    assert dt / 3600.0 == Factor(timeSeries);
    return Ok(ret);
  }

  /** integrateTimeSeries's mapping: every time goes to bucket 0. */
  function TrivialTimeMapping(t: Instant): (r: int)
    ensures r == 0
  {
    0
  }

  /** A mapping that sends every sample to the same key makes one bucket of
      all readings. */
  lemma {:induction false} SingleBucket<K>(ts: seq<Sample>, f: Instant -> K, c: K)
    requires forall i :: 0 <= i < |ts| ==> f(ts[i].at) == c
    ensures BucketSum(ts, f, c) == Total(ts)
    ensures ts != [] ==> Buckets(ts, f) == {c}
  {
    if ts != [] {
      SingleBucket(ts[..|ts| - 1], f, c);
    }
  }

  /** integrateTimeSeries: the single bucket of the multi version. Fails on
      fewer than two samples; otherwise the sum of all readings times dt / 3600. */
  function IntegrateTimeSeries(timeSeries: seq<Sample>): (r: Result<real>)
    ensures r.Ok? <==> |timeSeries| >= 2
    ensures r.Err? ==> r.error == InsufficientData
    ensures r.Ok? ==> r.value == Total(timeSeries) * Factor(timeSeries)
  {
    match Integrated(timeSeries, TrivialTimeMapping)
    case Err(e) => Err(e)
    case Ok(m) =>
      SingleBucket(timeSeries, TrivialTimeMapping, 0);
      Ok(m[0])
  }

  /** A map's value at a key, zero off the map. */
  function ValueTerm<K(==)>(m: map<K, real>): (r: K -> real) {
    k => if k in m then m[k] else 0.0
  }

  /** The weight one gives every bucket. */
  function One<K>(k: K): (r: real) {
    1.0
  }

  /** With weight one, the weighted sum is the plain sum. */
  lemma {:induction false} UnitWeights<K>(ts: seq<Sample>, f: Instant -> K)
    ensures WeightedSamples(ts, f, One) == Total(ts)
  {
    if ts != [] {
      UnitWeights(ts[..|ts| - 1], f);
    }
  }

  /** A bucket's energy is its unit-weighted bucket term scaled by dt / 3600. */
  lemma EnergyTermAt<K>(ts: seq<Sample>, f: Instant -> K, k: K)
    requires |ts| >= 2 && k in Buckets(ts, f)
    ensures Integrated(ts, f).Ok?
    ensures ValueTerm(Integrated(ts, f).value)(k) == Then(BucketTerm(ts, f, One), Times(Factor(ts)))(k)
  {
    var b := BucketSum(ts, f, k);
    assert BucketSums(ts, f)[k] == b;
    assert Integrated(ts, f).value[k] == Product(b, Factor(ts));
    assert BucketTerm(ts, f, One)(k) == Product(One(k), b);
    assert One(k) == 1.0;
    assert Product(1.0, b) == b;
  }

  /** Whatever the mapping, the bucket energies of integrateTimeSeriesMulti add
      up to the energy integrateTimeSeries gives the whole series. */
  lemma MultiSumsToSingle<K>(ts: seq<Sample>, f: Instant -> K)
    requires |ts| >= 2
    ensures Integrated(ts, f).Ok?
    ensures SetSum(Integrated(ts, f).value.Keys, ValueTerm(Integrated(ts, f).value)) == IntegrateTimeSeries(ts).value
  {
    var c := Factor(ts);
    var m := Integrated(ts, f).value;
    var B := Buckets(ts, f);
    var G := BucketTerm(ts, f, One);
    assert m.Keys == B;
    forall k | k in B ensures ValueTerm(m)(k) == Then(G, Times(c))(k) {
      EnergyTermAt(ts, f, k);
    }
    SetSumScaled(B, G, ValueTerm(m), c);
    WeightedPartition(ts, f, One);
    UnitWeights(ts, f);
    assert Times(c)(SetSum(B, G)) == Product(Total(ts), Factor(ts));
  }

  /** The cost one tariff key contributes: the key times its bucket's energy. */
  function CostTerm(m: map<real, real>): (r: real -> real) {
    k => if k in m then Product(k, m[k]) else 0.0
  }

  /** The specification of computeCost: integrateTimeSeriesMulti's error, or
      the sum over its buckets of tariff key times energy. */
  ghost function Cost(ts: seq<Sample>, tariff: Instant -> real): (r: Result<real>) {
    match Integrated(ts, tariff)
    case Err(e) => Err(e)
    case Ok(m) => Ok(SetSum(m.Keys, CostTerm(m)))
  }

  /** computeCost: integrates per tariff, then adds up key times energy over
      the buckets in the dictionary's order. */
  method ComputeCost(timeSeries: seq<Sample>, timeDependentKwhTariff: Instant -> real) returns (r: Result<real>)
    ensures r == Cost(timeSeries, timeDependentKwhTariff)
  {
    var kwhs := IntegrateTimeSeriesMulti(timeSeries, timeDependentKwhTariff);
    if kwhs.Err? {
      return Err(kwhs.error);
    }
    var m := kwhs.value;
    var ret := 0.0;
    var pending := m.Keys;
    while pending != {}
      invariant pending <= m.Keys
      invariant ret + SetSum(pending, CostTerm(m)) == SetSum(m.Keys, CostTerm(m))
      decreases pending
    {
      var key :| key in pending;
      SetSumRemove(pending, CostTerm(m), key);
      ret := ret + key * m[key];
      pending := pending - {key};
    }
    return Ok(ret);
  }

  /** The tariff is the identity weight on its own keys. */
  function Rate(k: real): (r: real) {
    k
  }

  /** A tariff key's cost is its rate-weighted bucket term scaled by dt / 3600. */
  lemma CostTermAt(ts: seq<Sample>, tariff: Instant -> real, k: real)
    requires |ts| >= 2 && k in Buckets(ts, tariff)
    ensures Integrated(ts, tariff).Ok?
    ensures CostTerm(Integrated(ts, tariff).value)(k) == Then(BucketTerm(ts, tariff, Rate), Times(Factor(ts)))(k)
  {
    var b := BucketSum(ts, tariff, k);
    assert BucketSums(ts, tariff)[k] == b;
    assert Integrated(ts, tariff).value[k] == Product(b, Factor(ts));
    assert BucketTerm(ts, tariff, Rate)(k) == Product(Rate(k), b);
    assert Rate(k) == k;
    Associate(k, b, Factor(ts));
  }

  /** Cost is linear in the readings: each reading times the tariff at its
      time, all times dt / 3600. */
  lemma CostPerSample(ts: seq<Sample>, tariff: Instant -> real)
    requires |ts| >= 2
    ensures Cost(ts, tariff) == Ok(Product(WeightedSamples(ts, tariff, Rate), Factor(ts)))
  {
    var m := Integrated(ts, tariff).value;
    var B := Buckets(ts, tariff);
    var G := BucketTerm(ts, tariff, Rate);
    assert m.Keys == B;
    forall k | k in B ensures CostTerm(m)(k) == Then(G, Times(Factor(ts)))(k) {
      CostTermAt(ts, tariff, k);
    }
    SetSumScaled(B, G, CostTerm(m), Factor(ts));
    WeightedPartition(ts, tariff, Rate);
    assert Times(Factor(ts))(SetSum(B, G)) == Product(WeightedSamples(ts, tariff, Rate), Factor(ts));
    assert Cost(ts, tariff) == Ok(SetSum(B, CostTerm(m)));
    assert SetSum(B, CostTerm(m)) == Product(WeightedSamples(ts, tariff, Rate), Factor(ts));
  }

  /** Multiplication regrouped. */
  lemma Associate(a: real, b: real, c: real)
    ensures Product(a, Product(b, c)) == Product(Product(a, b), c)
  {
  }

  /** A tariff that is the same at every time. */
  function ConstantTariff(p: real): (r: Instant -> real) {
    t => p
  }

  /** A constant tariff `p` costs `p` times integrateTimeSeries. */
  lemma ConstantTariffCost(ts: seq<Sample>, p: real)
    requires |ts| >= 2
    ensures Cost(ts, ConstantTariff(p)) == Ok(Product(p, IntegrateTimeSeries(ts).value))
  {
    var f := ConstantTariff(p);
    SingleBucket(ts, f, p);
    var m := Integrated(ts, f).value;
    assert m.Keys == {p};
    assert BucketSums(ts, f)[p] == Total(ts);
    assert m[p] == Product(Total(ts), Factor(ts)) == IntegrateTimeSeries(ts).value;
    SetSumRemove({p}, CostTerm(m), p);
    assert {p} - {p} == {};
    assert SetSum({p}, CostTerm(m)) == Product(p, m[p]);
    assert Cost(ts, f) == Ok(SetSum({p}, CostTerm(m)));
  }

  /** On a series in parseResults' order the cadence is never negative, and it
      is zero exactly when the first two samples share their time. */
  lemma SortedInterval(ts: seq<Sample>)
    requires |ts| >= 2 && Sorted(ts)
    ensures Interval(ts) >= 0.0
    ensures Interval(ts) == 0.0 <==> ts[0].at == ts[1].at
  {
    assert Le(ts[0], ts[1]);
  }
}
