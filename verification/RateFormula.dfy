/** What the statistics of a container mean (internal/container/stats.go:77-112): the rates as bytes counted over
    the time of the window. */
module RateFormula {
  import opened Domain
  import opened Stats

  /** Every sample of the current epoch covers the same time, in nanoseconds. */
  ghost predicate Steady(s: seq<Sample>, d: int) {
    d > 0 && forall k :: Epoch(s) <= k < |s| ==> s[k].read - s[k].preRead == d
  }

  /** Bytes over d nanoseconds, in kilobits per second: 125 bytes to the kilobit. */
  lemma RateIs(bytes: Counter, d: int)
    requires d > 0
    ensures Rate(Traffic(bytes, d)).Finite?
    ensures Rate(Traffic(bytes, d)).r * (125 * d) as real == bytes as real * 1000000000.0
  {
    var b, t := bytes as real, d as real;
    assert t / 1000000000.0 > 0.0;
    Scaled(b, t);
  }

  lemma Scaled(b: real, t: real)
    requires t > 0.0
    ensures b / (t / 1000000000.0) / 1000.0 * 8.0 * (125.0 * t) == b * 1000000000.0
  {
    var seconds := t / 1000000000.0;
    assert b / seconds * seconds == b;
    assert t == seconds * 1000000000.0;
    assert b / seconds / 1000.0 * 8.0 * (125.0 * t) == b / seconds * t;
    assert b / seconds * t == (b / seconds * seconds) * 1000000000.0;
  }

  lemma SumSnoc(rates: seq<Float>, x: Float)
    requires AllFinite(rates) && x.Finite?
    ensures AllFinite(rates + [x]) && Sum(rates + [x]) == Sum(rates) + x.r
  {
    assert (rates + [x])[..|rates|] == rates;
  }

  /** A sum of rates over intervals of d nanoseconds stands for a number of bytes. */
  predicate StandsFor(total: real, d: int, bytes: int) {
    total * (125 * d) as real == bytes as real * 1000000000.0
  }

  function Bytes(traffic: seq<Traffic>, from: nat): int {
    if from >= |traffic| then 0 else Bytes(traffic[..|traffic| - 1], from) + traffic[|traffic| - 1].bytes
  }

  lemma OneMoreRate(total: real, d: int, bytes: int, more: Counter)
    requires d > 0 && StandsFor(total, d, bytes)
    ensures Rate(Traffic(more, d)).Finite? && StandsFor(total + Rate(Traffic(more, d)).r, d, bytes + more)
  {
    RateIs(more, d);
    hide Rate;
  }

  lemma {:induction false} RatesAddUp(traffic: seq<Traffic>, d: int, from: nat)
    requires d > 0 && (forall k :: 0 <= k < |traffic| ==> traffic[k].interval == d) && from <= |traffic|
    ensures AllFinite(Rates(traffic)) && |Rates(traffic)| == |traffic|
    ensures StandsFor(Sum(Rates(traffic)[from..]), d, Bytes(traffic, from))
  {
    RatesAt(traffic);
    RatesFiniteIff(traffic);
    if from < |traffic| {
      var init, t := traffic[..|traffic| - 1], traffic[|traffic| - 1];
      RatesAddUp(init, d, from);
      RatesAppend(init, t);
      assert traffic == init + [t] && t == Traffic(t.bytes, d);
      assert Rates(traffic)[from..] == Rates(init)[from..] + [Rate(t)];
      hide Rates, Rate;
      SumSnoc(Rates(init)[from..], Rate(t));
      OneMoreRate(Sum(Rates(init)[from..]), d, Bytes(init, from), t.bytes);
    }
  }

  lemma BytesSnoc(traffic: seq<Traffic>, t: Traffic, from: nat)
    requires from <= |traffic|
    ensures Bytes(traffic + [t], from) == Bytes(traffic, from) + t.bytes
  {
    assert (traffic + [t])[..|traffic|] == traffic;
  }

  lemma NoBytes(traffic: seq<Traffic>)
    ensures Bytes(traffic, |traffic|) == 0
  {
  }

  /** The bytes of an epoch, from one of its samples on, are what the counters have grown by. */
  lemma {:induction false} BytesAreGrowth(s: seq<Sample>, from: nat)
    requires Epoch(s) <= from <= |s|
    ensures Bytes(RxTraffic(s), from - Epoch(s)) == RxBefore(s, |s|) - RxBefore(s, from)
    ensures Bytes(TxTraffic(s), from - Epoch(s)) == TxBefore(s, |s|) - TxBefore(s, from)
  {
    EpochIntervals(s);
    if from == |s| {
      NoBytes(RxTraffic(s));
      NoBytes(TxTraffic(s));
      hide Bytes, RxTraffic, TxTraffic, Epoch;
    } else {
      assert IsEpoch(s, Epoch(s));
      var init, x := s[..|s| - 1], s[|s| - 1];
      assert s == init + [x];
      EpochOfInit(s);
      EpochExtends(init, x);
      hide Bytes, RxTraffic, TxTraffic, Epoch, Restarted;
      EpochIntervals(init);
      BytesAreGrowth(init, from);
      BytesSnoc(RxTraffic(init), Traffic(x.rx - RxBefore(init, |init|), x.read - x.preRead), from - Epoch(s));
      BytesSnoc(TxTraffic(init), Traffic(x.tx - TxBefore(init, |init|), x.read - x.preRead), from - Epoch(s));
    }
  }

  /** Where the window of ten samples begins, or the epoch. */
  function WindowStart(s: seq<Sample>): (w: nat)
    ensures Epoch(s) <= w <= |s| && w == if |s| - Epoch(s) <= 10 then Epoch(s) else |s| - 10
  {
    if |s| - Epoch(s) <= 10 then Epoch(s) else |s| - 10
  }

  /** A tenth of the sum, rounded down. */
  predicate IsRate(rate: int, d: int, bytes: int) {
    10 * 125 * d * rate <= bytes * 1000000000 < 10 * 125 * d * (rate + 1)
  }

  lemma TruncatedRate(total: real, d: int, bytes: int, unspecified: int)
    requires d > 0 && bytes >= 0 && StandsFor(total, d, bytes)
    ensures IsRate(Truncate(Finite(total / 10.0), unspecified), d, bytes)
  {
    var k, mean := 125 * d, total / 10.0;
    assert mean >= 0.0 by {
      NotNegative(total, k as real);
    }
    var rate := mean.Floor;
    Below(10 * rate, total, k, bytes);
    Above(10 * (rate + 1), total, k, bytes);
    assert 10 * rate * k == 10 * 125 * d * rate && 10 * (rate + 1) * k == 10 * 125 * d * (rate + 1);
  }

  lemma NotNegative(x: real, k: real)
    requires x * k >= 0.0 && k > 0.0
    ensures x >= 0.0
  {
  }

  lemma Below(n: int, total: real, k: int, bytes: int)
    requires k > 0 && n as real <= total && total * k as real == bytes as real * 1000000000.0
    ensures n * k <= bytes * 1000000000
  {
    assert (n as real) * (k as real) <= total * k as real;
    assert (n * k) as real == (n as real) * (k as real);
  }

  lemma Above(n: int, total: real, k: int, bytes: int)
    requires k > 0 && total < n as real && total * k as real == bytes as real * 1000000000.0
    ensures bytes * 1000000000 < n * k
  {
    assert total * k as real < (n as real) * (k as real);
    assert (n * k) as real == (n as real) * (k as real);
  }

  lemma MeanRate(traffic: seq<Traffic>, d: int, from: nat, unspecified: int)
    requires d > 0 && (forall k :: 0 <= k < |traffic| ==> traffic[k].interval == d)
    requires from == (if |traffic| <= 10 then 0 else |traffic| - 10) && Bytes(traffic, from) >= 0
    ensures IsRate(Truncate(Average(Rates(traffic), 10), unspecified), d, Bytes(traffic, from))
  {
    RatesAddUp(traffic, d, from);
    hide Rates, Sum, Truncate, Bytes, IsRate, StandsFor;
    var rest := Rates(traffic)[from..];
    assert Last(Rates(traffic), 10) == rest;
    TruncatedRate(Sum(rest), d, Bytes(traffic, from), unspecified);
    assert Average(Rates(traffic), 10) == Finite(Sum(rest) / 10.0);
  }

  /** While the container has not been restarted and every sample covers the same time d, the rate reported, in
      kilobits per second, is the number of bytes that the counter has grown by over the last ten samples,
      or over those there are, per ten times that time, rounded down: the receive rate from the receive
      counter, the transmit rate from the transmit counter. */
  lemma SteadyRates(s: seq<Sample>, d: int, unspecified: int)
    requires s != [] && !Restarted(s, |s| - 1) && Steady(s, d)
    ensures
      var w, last, r := WindowStart(s), s[|s| - 1], Emitted(s, unspecified);
      && w < |s|
      && IsRate(r.rxRate, d, last.rx - if w == 0 then 0 else s[w - 1].rx)
      && IsRate(r.txRate, d, last.tx - if w == 0 then 0 else s[w - 1].tx)
  {
    var w, e := WindowStart(s), Epoch(s);
    WindowOpens(s, w);
    EpochTraffic(s, d);
    hide Epoch, RxTraffic, TxTraffic, Restarted;
    MeanRate(RxTraffic(s), d, w - e, unspecified);
    MeanRate(TxTraffic(s), d, w - e, unspecified);
    EmittedRates(s, unspecified);
    hide *;
  }

  lemma EmittedRates(s: seq<Sample>, unspecified: int)
    requires s != [] && !Restarted(s, |s| - 1)
    ensures Emitted(s, unspecified).rxRate == Truncate(Average(Rates(RxTraffic(s)), 10), unspecified)
    ensures Emitted(s, unspecified).txRate == Truncate(Average(Rates(TxTraffic(s)), 10), unspecified)
  {
    hide Average, Rates, RxTraffic, TxTraffic, RxSince, Truncate;
  }

  lemma EpochTraffic(s: seq<Sample>, d: int)
    requires Steady(s, d)
    ensures |RxTraffic(s)| == |TxTraffic(s)| == |s| - Epoch(s)
    ensures forall k :: 0 <= k < |RxTraffic(s)| ==> RxTraffic(s)[k].interval == d
    ensures forall k :: 0 <= k < |TxTraffic(s)| ==> TxTraffic(s)[k].interval == d
  {
    EpochIntervals(s);
    hide RxTraffic, TxTraffic, Epoch;
    forall k | 0 <= k < |RxTraffic(s)|
      ensures RxTraffic(s)[k].interval == d && TxTraffic(s)[k].interval == d
    {
      assert s[Epoch(s) + k].read - s[Epoch(s) + k].preRead == d;
    }
  }

  lemma WindowOpens(s: seq<Sample>, w: nat)
    requires s != [] && !Restarted(s, |s| - 1) && w == WindowStart(s)
    ensures w < |s|
    ensures 0 <= Bytes(RxTraffic(s), w - Epoch(s)) == s[|s| - 1].rx - if w == 0 then 0 else s[w - 1].rx
    ensures 0 <= Bytes(TxTraffic(s), w - Epoch(s)) == s[|s| - 1].tx - if w == 0 then 0 else s[w - 1].tx
  {
    EpochOfInit(s);
    BytesAreGrowth(s, w);
    EpochAccounting(s, w);
    NeverFalls(s, w);
    hide Bytes, RxTraffic, TxTraffic, Epoch, Received, Transmitted;
  }

  lemma {:induction false} NeverFalls(s: seq<Sample>, from: nat)
    requires Epoch(s) <= from <= |s|
    ensures TxBefore(s, from) <= TxBefore(s, |s|)
    decreases |s| - from
  {
    if from < |s| {
      EpochAccounting(s, from);
      NeverFalls(s, from + 1);
      hide Epoch, Received, Transmitted;
    }
  }

  /** A sample that shows a restart is reported as all zeros; any other with its own CPU and memory figures. */
  lemma ReportOfSample(s: seq<Sample>, unspecified: int)
    requires s != []
    ensures
      var last, r := s[|s| - 1], Emitted(s, unspecified);
      var fell := |s| > 1 && (last.rx < s[|s| - 2].rx || last.tx < s[|s| - 2].tx);
      if last.preRead == ZERO_TIME || fell then r == Report(0.0, 0, 0, 0, ZERO_TIME)
      else r.cpuPercent == last.cpuPercent && r.memory == last.memory
  {
    hide Average, Rates, RxTraffic, TxTraffic, RxSince, Truncate;
  }
}
