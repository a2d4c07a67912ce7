/** internal/container/stats.go: the rolling average over a ring buffer, and the
    collector that turns Docker's unsigned byte counters into rates. */
module Stats {
  import opened Domain

  /** A float64 as far as this code needs it: rounding is not modelled, but the infinities and
      NaN that come from a zero interval are. Sums and differences never leave NonFinite. */
  datatype Float = Finite(r: real) | NonFinite

  function FAdd(x: Float, y: Float): Float {
    if x.Finite? && y.Finite? then Finite(x.r + y.r) else NonFinite
  }

  function FSub(x: Float, y: Float): Float {
    if x.Finite? && y.Finite? then Finite(x.r - y.r) else NonFinite
  }

  function FScale(x: Float, n: nat): Float
    requires n > 0
  {
    if x.Finite? then Finite(x.r / n as real) else NonFinite
  }

  // ----- The specification: an average over the list of inputs -----

  ghost predicate AllFinite(s: seq<Float>) {
    forall k :: 0 <= k < |s| ==> s[k].Finite?
  }

  ghost function Sum(s: seq<Float>): real
    requires AllFinite(s)
  {
    if s == [] then 0.0 else Sum(s[..|s| - 1]) + s[|s| - 1].r
  }

  /** The last min(n, |s|) inputs. */
  ghost function Last(s: seq<Float>, n: nat): seq<Float> {
    if |s| <= n then s else s[|s| - n..]
  }

  /** What a rolling average over n slots reports after inputs s. One non-finite input spoils
      every later result, even after it has left the window. */
  ghost function Average(s: seq<Float>, n: nat): (avg: Float)
    requires n > 0
  {
    if AllFinite(s) then Finite(Sum(Last(s, n)) / n as real) else NonFinite
  }

  lemma {:induction false} SumDropFirst(s: seq<Float>)
    requires AllFinite(s) && s != []
    ensures Sum(s[1..]) == Sum(s) - s[0].r
  {
    if |s| == 1 {
      assert s[..0] == [];
    } else {
      var init := s[..|s| - 1];
      SumDropFirst(init);
      assert init[1..] == s[1..][..|s| - 2];
    }
  }

  /** Sliding the window: the newest input comes in, the one n places back goes out. */
  lemma SumSlides(s: seq<Float>, x: Float, n: nat)
    requires n > 0 && AllFinite(s) && x.Finite?
    ensures AllFinite(s + [x])
    ensures Sum(Last(s + [x], n)) ==
            Sum(Last(s, n)) + x.r - (if |s| < n then 0.0 else s[|s| - n].r)
  {
    var w := Last(s, n);
    assert AllFinite(w + [x]) && (w + [x])[..|w|] == w;
    if |s| < n {
      assert Last(s + [x], n) == w + [x];
    } else {
      assert Last(s + [x], n) == (w + [x])[1..];
      SumDropFirst(w + [x]);
    }
  }

  lemma MeanMoves(total: real, newest: real, oldest: real, n: real)
    requires n > 0.0
    ensures (total + newest - oldest) / n == total / n + (newest - oldest) / n
  {
  }

  /** The update that rolling performs: add a fraction of the difference between the newest input
      and the one leaving the window. */
  lemma AverageSlides(s: seq<Float>, x: Float, n: nat)
    requires n > 0
    ensures Average(s + [x], n) ==
            FAdd(Average(s, n), FScale(FSub(x, if |s| < n then Finite(0.0) else s[|s| - n]), n))
  {
    if AllFinite(s) && x.Finite? {
      SumSlides(s, x, n);
      var oldest := if |s| < n then 0.0 else s[|s| - n].r;
      MeanMoves(Sum(Last(s, n)), x.r, oldest, n as real);
    } else {
      assert (s + [x])[|s|] == x;
      assert forall k :: 0 <= k < |s| ==> s[k] == (s + [x])[k];
    }
  }

  lemma {:induction false} SumBounds(s: seq<Float>, m: real)
    requires AllFinite(s) && m >= 0.0
    requires forall k :: 0 <= k < |s| ==> 0.0 <= s[k].r <= m
    ensures 0.0 <= Sum(s) <= |s| as real * m
  {
    if s != [] {
      SumBounds(s[..|s| - 1], m);
      assert |s| as real * m == (|s| - 1) as real * m + m;
    }
  }

  /** The average of n slots times n is the sum of the last min(n, calls) inputs, for all finite inputs. */
  lemma AverageIsWindowMean(s: seq<Float>, n: nat)
    requires n > 0 && AllFinite(s)
    ensures Average(s, n).Finite?
    ensures Average(s, n).r * n as real == Sum(Last(s, n))
  {
    var total, size := Sum(Last(s, n)), n as real;
    assert total / size * size == total;
  }

  /** It stays within the bounds of the inputs. */
  lemma AverageBounded(s: seq<Float>, n: nat, m: real)
    requires n > 0 && AllFinite(s) && m >= 0.0
    requires forall k :: 0 <= k < |s| ==> 0.0 <= s[k].r <= m
    ensures Average(s, n).Finite? && 0.0 <= Average(s, n).r <= m
  {
    var w := Last(s, n);
    SumBounds(w, m);
    var total, size := Sum(w), n as real;
    assert |w| as real * m <= size * m;
    DivideBounds(total, size, m);
  }

  lemma DivideBounds(total: real, size: real, m: real)
    requires size > 0.0 && 0.0 <= total <= size * m
    ensures 0.0 <= total / size <= m
  {
    var q := total / size;
    assert q * size == total;
    assert q < 0.0 ==> q * size < 0.0;
    assert q > m ==> (q - m) * size > 0.0;
  }

  /** (i + 1) % n */
  function Next(i: nat, n: nat): (j: nat)
    requires i < n
    ensures j == if i + 1 == n then 0 else i + 1
  {
    (i + 1) % n
  }

  /** The closure made by rolling(n): a ring buffer updated in place. */
  class Rolling {
    const n: nat
    const bins: array<Float>
    var avg: Float
    var i: nat
    ghost var inputs: seq<Float>  // every argument so far

    /** The input d calls back, or the initial zero of the buffer. */
    ghost function Back(d: nat): Float
      reads this
    {
      if d < |inputs| then inputs[|inputs| - 1 - d] else Finite(0.0)
    }

    ghost predicate Valid()
      reads this, bins
    {
      && n > 0
      && bins.Length == n
      && i < n
      && (forall k :: 0 <= k < i ==> bins[k] == Back(i - 1 - k))
      && (forall k :: i <= k < n ==> bins[k] == Back(n + i - 1 - k))
      && avg == Average(inputs, n)
    }

    constructor (n: nat)
      requires n > 0
      ensures Valid() && this.n == n && inputs == [] && fresh(bins)
    {
      this.n := n;
      bins := new Float[n](_ => Finite(0.0));
      avg, i, inputs := Finite(0.0), 0, [];
    }

    method Add(x: Float) returns (r: Float)
      requires Valid()
      modifies this, bins
      ensures Valid() && inputs == old(inputs) + [x]
      ensures r == Average(inputs, n)
    {
      hide Average, FAdd, FSub, FScale;
      AverageSlides(inputs, x, n);
      avg := FAdd(avg, FScale(FSub(x, bins[i]), n));
      bins[i] := x;
      i := Next(i, n);
      inputs := inputs + [x];
      r := avg;
    }
  }

  // ----- The collector -----

  const U64 := 0x1_0000_0000_0000_0000

  type Counter = x: int | 0 <= x < U64

  /** Unsigned 64-bit subtraction, wrapping round. */
  function Sub64(x: Counter, y: Counter): (d: Counter)
    ensures x >= y ==> d == x - y
  {
    (x - y) % U64
  }

  /** One decoded stats message. When hasNetwork is false there was no network entry in it. */
  datatype Sample = Sample(
    hasNetwork: bool, rx: Counter, tx: Counter, read: Time, preRead: Time,
    cpuPercent: real, memory: nat)

  datatype Report = Report(
    cpuPercent: real, memory: nat, rxRate: int, txRate: int, rxSince: Time)

  const ZERO_REPORT := Report(0.0, 0, 0, 0, ZERO_TIME)

  /** A number of bytes counted over an interval in nanoseconds. */
  datatype Traffic = Traffic(bytes: Counter, interval: int)

  /** Kilobits per second: bytes / seconds / 1000 * 8. */
  function Rate(t: Traffic): Float {
    if t.interval == 0 then NonFinite
    else Finite(t.bytes as real / (t.interval as real / SECOND as real) / 1000.0 * 8.0)
  }

  /** Go's int(f): truncation toward zero; for a non-finite value the result is not specified by
      the language and is supplied by the environment. */
  function Truncate(f: Float, unspecified: int): int {
    if f.NonFinite? then unspecified
    else if f.r >= 0.0 then f.r.Floor
    else -(-f.r).Floor
  }

  // The specification reads everything off the list of samples that had a network.

  /** The counters before sample k: those of the sample before it, or zero. */
  function RxBefore(s: seq<Sample>, k: nat): Counter
    requires k <= |s|
  {
    if k == 0 then 0 else s[k - 1].rx
  }

  function TxBefore(s: seq<Sample>, k: nat): Counter
    requires k <= |s|
  {
    if k == 0 then 0 else s[k - 1].tx
  }

  /** Sample k shows that the container was restarted. */
  predicate Restarted(s: seq<Sample>, k: nat)
    requires k < |s|
  {
    s[k].preRead == ZERO_TIME || s[k].rx < RxBefore(s, k) || s[k].tx < TxBefore(s, k)
  }

  /** An epoch is a maximal stretch of samples without a restart: [e, |s|) is the current one. */
  ghost predicate IsEpoch(s: seq<Sample>, e: nat) {
    && e <= |s|
    && (e > 0 ==> Restarted(s, e - 1))
    && (forall k :: e <= k < |s| ==> !Restarted(s, k))
  }

  function Epoch(s: seq<Sample>): (e: nat)
    ensures IsEpoch(s, e)
  {
    if s == [] then 0
    else
      var init := s[..|s| - 1];
      var last := |s| - 1;
      assert forall k :: 0 <= k < last ==> Restarted(init, k) == Restarted(s, k);
      if Restarted(s, last) then |s| else Epoch(init)
  }

  /** The traffic of each sample of the current epoch. */
  ghost function RxTraffic(s: seq<Sample>): seq<Traffic> {
    if s == [] || Restarted(s, |s| - 1) then []
    else
      var last := s[|s| - 1];
      RxTraffic(s[..|s| - 1]) + [Traffic(last.rx - RxBefore(s, |s| - 1), last.read - last.preRead)]
  }

  ghost function TxTraffic(s: seq<Sample>): seq<Traffic> {
    if s == [] || Restarted(s, |s| - 1) then []
    else
      var last := s[|s| - 1];
      TxTraffic(s[..|s| - 1]) + [Traffic(last.tx - TxBefore(s, |s| - 1), last.read - last.preRead)]
  }

  ghost function Rates(traffic: seq<Traffic>): seq<Float> {
    if traffic == [] then []
    else Rates(traffic[..|traffic| - 1]) + [Rate(traffic[|traffic| - 1])]
  }

  lemma RatesAppend(traffic: seq<Traffic>, t: Traffic)
    ensures Rates(traffic + [t]) == Rates(traffic) + [Rate(t)]
  {
    assert (traffic + [t])[..|traffic|] == traffic;
  }

  ghost function RxSince(s: seq<Sample>): Time {
    if s == [] || Restarted(s, |s| - 1) then ZERO_TIME
    else
      var since := RxSince(s[..|s| - 1]);
      if since == ZERO_TIME && s[|s| - 1].rx > RxBefore(s, |s| - 1) then s[|s| - 1].preRead
      else since
  }

  /** What is emitted for the last sample of s. */
  ghost function Emitted(s: seq<Sample>, unspecified: int): Report
    requires s != []
  {
    var last := s[|s| - 1];
    if Restarted(s, |s| - 1) then ZERO_REPORT
    else Report(last.cpuPercent, last.memory,
                Truncate(Average(Rates(RxTraffic(s)), 10), unspecified),
                Truncate(Average(Rates(TxTraffic(s)), 10), unspecified),
                RxSince(s))
  }

  lemma RxSinceOfNone()
    ensures RxSince([]) == ZERO_TIME
  {
  }

  lemma EmittedRxSince(s: seq<Sample>, unspecified: int)
    requires s != []
    ensures Emitted(s, unspecified).rxSince == RxSince(s)
  {
    hide Average, Rates, RxTraffic, TxTraffic, Truncate;
  }

  /** Received bytes in samples [from, |s|). */
  function Received(s: seq<Sample>, from: nat): int
    requires from <= |s|
    decreases |s| - from
  {
    if from == |s| then 0 else s[from].rx - RxBefore(s, from) + Received(s, from + 1)
  }

  function Transmitted(s: seq<Sample>, from: nat): int
    requires from <= |s|
    decreases |s| - from
  {
    if from == |s| then 0 else s[from].tx - TxBefore(s, from) + Transmitted(s, from + 1)
  }

  /** From the baseline of the epoch on, the byte differences are never negative and add up to the
      last counter. */
  lemma {:induction false} EpochAccounting(s: seq<Sample>, from: nat)
    requires Epoch(s) <= from <= |s|
    ensures forall k :: from <= k < |s| ==> s[k].rx >= RxBefore(s, k) && s[k].tx >= TxBefore(s, k)
    ensures RxBefore(s, from) + Received(s, from) == RxBefore(s, |s|)
    ensures TxBefore(s, from) + Transmitted(s, from) == TxBefore(s, |s|)
    ensures RxBefore(s, from) <= RxBefore(s, |s|)
    decreases |s| - from
  {
    assert IsEpoch(s, Epoch(s));
    if from < |s| {
      assert !Restarted(s, from);
      EpochAccounting(s, from + 1);
    }
  }

  /** One more sample without a restart extends the epoch. */
  lemma {:induction false} EpochExtends(s: seq<Sample>, x: Sample)
    requires !Restarted(s + [x], |s|)
    ensures x.rx >= RxBefore(s, |s|) && x.tx >= TxBefore(s, |s|)
    ensures RxTraffic(s + [x]) == RxTraffic(s) + [Traffic(x.rx - RxBefore(s, |s|), x.read - x.preRead)]
    ensures TxTraffic(s + [x]) == TxTraffic(s) + [Traffic(x.tx - TxBefore(s, |s|), x.read - x.preRead)]
    ensures RxSince(s + [x]) == if RxSince(s) == ZERO_TIME && x.rx > RxBefore(s, |s|) then x.preRead else RxSince(s)
  {
    var t := s + [x];
    assert t != [] && t[..|t| - 1] == s && t[|t| - 1] == x;
    assert RxBefore(t, |t| - 1) == RxBefore(s, |s|) && TxBefore(t, |t| - 1) == TxBefore(s, |s|);
  }

  /** A restart begins the next epoch with nothing counted. */
  lemma EpochRestarts(s: seq<Sample>, x: Sample)
    requires Restarted(s + [x], |s|)
    ensures Rates(RxTraffic(s + [x])) == [] && Rates(TxTraffic(s + [x])) == [] && RxSince(s + [x]) == ZERO_TIME
  {
  }

  // ----- Samples without an interval -----

  lemma {:induction false} RatesAt(traffic: seq<Traffic>)
    ensures |Rates(traffic)| == |traffic|
    ensures forall k :: 0 <= k < |traffic| ==> Rates(traffic)[k] == Rate(traffic[k])
  {
    if traffic != [] {
      RatesAt(traffic[..|traffic| - 1]);
    }
  }

  lemma RatesFiniteIff(traffic: seq<Traffic>)
    ensures AllFinite(Rates(traffic)) <==> forall k :: 0 <= k < |traffic| ==> traffic[k].interval != 0
  {
    RatesAt(traffic);
    hide Rates;
    if AllFinite(Rates(traffic)) {
      assert forall k :: 0 <= k < |traffic| ==> Rates(traffic)[k].Finite?;
    }
  }

  lemma {:induction false} EpochIntervals(s: seq<Sample>)
    ensures |RxTraffic(s)| == |TxTraffic(s)| == |s| - Epoch(s)
    ensures forall j :: 0 <= j < |RxTraffic(s)| ==> RxTraffic(s)[j].interval == IntervalAt(s, Epoch(s) + j)
    ensures forall j :: 0 <= j < |TxTraffic(s)| ==> TxTraffic(s)[j].interval == IntervalAt(s, Epoch(s) + j)
  {
    if s == [] || Restarted(s, |s| - 1) {
      assert Epoch(s) == |s|;
    } else {
      var init := s[..|s| - 1];
      EpochIntervals(init);
      EpochOfInit(s);
      hide Epoch, Restarted;
      assert forall k :: 0 <= k < |init| ==> IntervalAt(init, k) == IntervalAt(s, k);
    }
  }

  function IntervalAt(s: seq<Sample>, k: nat): int
    requires k < |s|
  {
    s[k].read - s[k].preRead
  }

  /** No sample of the current epoch, however long ago, was read at the time of the one before it. */
  ghost predicate AllIntervals(s: seq<Sample>) {
    forall k :: Epoch(s) <= k < |s| ==> IntervalAt(s, k) != 0
  }

  /** The rates that are reported are defined exactly if all samples of the epoch had an interval. */
  lemma RatesDefinedIff(s: seq<Sample>)
    requires s != []
    ensures (forall u: int, v: int :: Emitted(s, u) == Emitted(s, v)) <==> AllIntervals(s)
  {
    EpochIntervals(s);
    RatesFiniteIff(RxTraffic(s));
    RatesFiniteIff(TxTraffic(s));
    hide Rates, RxTraffic, TxTraffic, Epoch, Sum, RxSince;
    if Restarted(s, |s| - 1) {
      EpochAfterRestart(s);
    } else if AllIntervals(s) {
      assert AllFinite(Rates(RxTraffic(s))) && AllFinite(Rates(TxTraffic(s)));
    } else {
      var k :| Epoch(s) <= k < |s| && IntervalAt(s, k) == 0;
      assert RxTraffic(s)[k - Epoch(s)].interval == 0;
      assert !AllFinite(Rates(RxTraffic(s)));
      assert Emitted(s, 0).rxRate == 0 && Emitted(s, 1).rxRate == 1;
    }
  }

  lemma EpochAfterRestart(s: seq<Sample>)
    requires s != [] && Restarted(s, |s| - 1)
    ensures Epoch(s) == |s|
  {
  }

  /** A container's first sample, one without an interval, and any number of good ones. */
  function SpoiledSamples(n: nat): (s: seq<Sample>)
    ensures |s| == n + 2
  {
    seq(n + 2, k requires 0 <= k < n + 2 =>
      Sample(true, 0, 0, if k == 1 then 1 else k + 1, if k == 0 then ZERO_TIME else k, 0.0, 0))
  }

  /** One sample without an interval leaves the rates undefined for as long as the epoch lasts, also
      when the window holds none but good ones. */
  lemma SpoiledForGood(n: nat)
    ensures
      var s := SpoiledSamples(n);
      && (forall k :: 2 <= k < |s| ==> s[k].read != s[k].preRead)
      && Emitted(s, 0) != Emitted(s, 1)
    ensures n >= 10 ==> AllFinite(Last(Rates(RxTraffic(SpoiledSamples(n))), 10))
  {
    var s := SpoiledSamples(n);
    SpoiledEpoch(n);
    EpochIntervals(s);
    assert IntervalAt(s, 1) == 0 && forall k :: 2 <= k < |s| ==> IntervalAt(s, k) != 0;
    hide RxTraffic, TxTraffic, Epoch, SpoiledSamples;
    RatesAt(RxTraffic(s));
    hide Rates, Sum, RxSince;
    assert RxTraffic(s)[0].interval == 0;
    assert !Rates(RxTraffic(s))[0].Finite?;
    assert Emitted(s, 0).rxRate == 0 && Emitted(s, 1).rxRate == 1;
  }

  lemma SpoiledEpoch(n: nat)
    ensures Epoch(SpoiledSamples(n)) == 1 && !Restarted(SpoiledSamples(n), n + 1)
  {
    var s := SpoiledSamples(n);
    assert Restarted(s, 0);
    assert forall k :: 1 <= k < |s| ==> !Restarted(s, k);
    var e := Epoch(s);
    hide Epoch, SpoiledSamples;
    assert IsEpoch(s, e);
    assert e == 0 || Restarted(s, e - 1);
  }

  // ----- When receiving began -----

  predicate Grew(s: seq<Sample>, k: nat)
    requires k < |s|
  {
    s[k].rx > RxBefore(s, k)
  }

  ghost predicate FirstGrowth(s: seq<Sample>, k: nat) {
    && Epoch(s) <= k < |s| && Grew(s, k)
    && (forall j :: Epoch(s) <= j < k ==> !Grew(s, j))
  }

  /** The same, found by going through the samples. */
  ghost function FirstGrown(s: seq<Sample>): Option<nat> {
    if s == [] || Restarted(s, |s| - 1) then None
    else if FirstGrown(s[..|s| - 1]).Some? then FirstGrown(s[..|s| - 1])
    else if Grew(s, |s| - 1) then Some(|s| - 1)
    else None
  }

  lemma EpochOfInit(s: seq<Sample>)
    requires s != [] && !Restarted(s, |s| - 1)
    ensures Epoch(s) == Epoch(s[..|s| - 1]) <= |s| - 1
    ensures forall k :: 0 <= k < |s| - 1 ==> Grew(s, k) == Grew(s[..|s| - 1], k)
  {
  }

  lemma {:induction false} FirstGrownIsFirst(s: seq<Sample>)
    ensures match FirstGrown(s)
            case Some(k) => FirstGrowth(s, k) && RxSince(s) == s[k].preRead
            case None => RxSince(s) == ZERO_TIME && forall k :: Epoch(s) <= k < |s| ==> !Grew(s, k)
    ensures forall k :: Epoch(s) <= k < |s| ==> s[k].preRead != ZERO_TIME
  {
    assert IsEpoch(s, Epoch(s));
    if s != [] && !Restarted(s, |s| - 1) {
      FirstGrownIsFirst(s[..|s| - 1]);
      EpochOfInit(s);
      hide Epoch;
    }
  }

  /** Counters that end where they began did not move in between. */
  lemma {:induction false} GrewIffMore(s: seq<Sample>, from: nat)
    requires Epoch(s) <= from <= |s|
    ensures RxBefore(s, from) == RxBefore(s, |s|) <==> forall j :: from <= j < |s| ==> !Grew(s, j)
    decreases |s| - from
  {
    if from < |s| {
      EpochAccounting(s, from);
      EpochAccounting(s, from + 1);
      GrewIffMore(s, from + 1);
      hide Epoch, Received, Transmitted;
      if RxBefore(s, from) == RxBefore(s, |s|) {
        assert !Grew(s, from);
      } else if RxBefore(s, from + 1) == RxBefore(s, |s|) {
        assert Grew(s, from);
      }
    }
  }

  /** rxSince is set exactly when the epoch has received anything at all, and then it is the
      start of the first sample of the epoch that did. */
  lemma {:induction false} RxSinceIsFirstGrowth(s: seq<Sample>)
    ensures RxSince(s) != ZERO_TIME <==> RxBefore(s, |s|) > RxBefore(s, Epoch(s))
    ensures RxSince(s) != ZERO_TIME <==> exists k: nat :: FirstGrowth(s, k)
    ensures forall k: nat :: FirstGrowth(s, k) ==> RxSince(s) == s[k].preRead
  {
    FirstGrownIsFirst(s);
    EpochAccounting(s, Epoch(s));
    GrewIffMore(s, Epoch(s));
    hide RxSince, Epoch, Grew, RxBefore, Received, Transmitted, FirstGrown;
  }

  /** The state of handleStats. */
  class Collector {
    var lastRx: Counter
    var lastTx: Counter
    var rxAvg: Rolling
    var txAvg: Rolling
    var rxSince: Time
    ghost var seen: seq<Sample>  // the samples so far that had a network

    ghost predicate Valid()
      reads this, rxAvg, txAvg, rxAvg.bins, txAvg.bins
    {
      && rxAvg.Valid() && txAvg.Valid() && rxAvg.n == 10 && txAvg.n == 10
      && rxAvg != txAvg && rxAvg.bins != txAvg.bins
      && lastRx == RxBefore(seen, |seen|) && lastTx == TxBefore(seen, |seen|)
      && rxAvg.inputs == Rates(RxTraffic(seen)) && txAvg.inputs == Rates(TxTraffic(seen))
      && rxSince == RxSince(seen)
    }

    constructor ()
      ensures Valid() && seen == [] && fresh(rxAvg) && fresh(txAvg) && fresh(rxAvg.bins) && fresh(txAvg.bins)
    {
      lastRx, lastTx, rxSince, seen := 0, 0, ZERO_TIME, [];
      rxAvg := new Rolling(10);
      txAvg := new Rolling(10);
    }

    method Reset()
      modifies this
      ensures lastRx == 0 && lastTx == 0 && rxSince == ZERO_TIME && seen == old(seen)
      ensures fresh(rxAvg) && fresh(txAvg) && fresh(rxAvg.bins) && fresh(txAvg.bins)
      ensures rxAvg.Valid() && txAvg.Valid() && rxAvg.n == 10 && txAvg.n == 10
      ensures rxAvg != txAvg && rxAvg.bins != txAvg.bins && rxAvg.inputs == [] && txAvg.inputs == []
    {
      lastRx := 0;
      lastTx := 0;
      rxAvg := new Rolling(10);
      txAvg := new Rolling(10);
      rxSince := ZERO_TIME;
    }

    /** One iteration of the reading loop. */
    method Handle(sample: Sample, unspecified: int) returns (out: Option<Report>)
      requires Valid()
      modifies this, rxAvg, txAvg, rxAvg.bins, txAvg.bins
      ensures Valid()
      ensures fresh({rxAvg, txAvg} - {old(rxAvg), old(txAvg)})
      ensures fresh({rxAvg.bins, txAvg.bins} - {old(rxAvg.bins), old(txAvg.bins)})
      ensures seen == if sample.hasNetwork then old(seen) + [sample] else old(seen)
      ensures out == if sample.hasNetwork then Some(Emitted(seen, unspecified)) else None
    {
      hide Average, Rate, Truncate, Sub64, Rates, RxTraffic, TxTraffic, RxSince, Rolling.Valid;
      if !sample.hasNetwork {
        return None;
      }
      ghost var before := seen;
      ghost var after := seen + [sample];
      assert after[..|before|] == before && after[|before|] == sample;
      if sample.preRead == ZERO_TIME || sample.rx < lastRx || sample.tx < lastTx {
        EpochRestarts(before, sample);
        Reset();
        lastRx := sample.rx;
        lastTx := sample.tx;
        seen := after;
        return Some(ZERO_REPORT);
      }
      EpochExtends(before, sample);
      var interval := sample.read - sample.preRead;
      var rx := Traffic(Sub64(sample.rx, lastRx), interval);
      var tx := Traffic(Sub64(sample.tx, lastTx), interval);
      RatesAppend(RxTraffic(before), rx);
      RatesAppend(TxTraffic(before), tx);
      var avgRx := rxAvg.Add(Rate(rx));
      var avgTx := txAvg.Add(Rate(tx));
      if rx.bytes > 0 && rxSince == ZERO_TIME {
        rxSince := sample.preRead;
      }
      lastRx := sample.rx;
      lastTx := sample.tx;
      seen := after;
      out := Some(Report(sample.cpuPercent, sample.memory,
                         Truncate(avgRx, unspecified), Truncate(avgTx, unspecified), rxSince));
    }
  }
}
