/**
The shadow outcome of app/crypto_outcomes.py. A setup says where a simulated trade enters, stops,
takes its profit and runs out of time; hourly bars say what the market then did. The source scans
the bars in time order and lets the first event decide. Here the scan is proved against that
sentence: which bar is the first one with a gap, a stop, a target or the horizon.

Times are whole microseconds. The evidence fingerprint is left out: it is a digest of the setup and
of the bars that the observation carries.
*/
module Outcomes {
  import opened Wrappers
  import opened Arrangement
  import opened Quotients

  const HOUR: int := 3_600_000_000
  const BASIS_POINTS := 10000.0

  datatype Bar = Bar(timestamp: int, high: real, low: real, close: real, open: Option<real>, volume: Option<real>)

  predicate BarAccepted(b: Bar) {
    && 0.0 < b.low <= b.close <= b.high
    && (b.open.Some? ==> b.low <= b.open.value <= b.high)
    && (b.volume.Some? ==> b.volume.value >= 0.0)
  }

  predicate AllAccepted(bars: seq<Bar>) {
    forall i :: 0 <= i < |bars| ==> BarAccepted(bars[i])
  }

  datatype Side = Long | Short

  datatype CostModel = CostModel(feeBps: real, spreadBps: real, slippageBps: real) {
    /** The fee is charged on both legs; spread and slippage are amounts for the round trip. */
    function RoundTripRate(): real {
      (feeBps * 2.0 + spreadBps + slippageBps) / BASIS_POINTS
    }
  }

  datatype Setup = Setup(
    side: Side,
    signal: int,
    entry: real,
    stop: real,
    target: real,
    horizonHours: int,
    costs: CostModel,
    quantity: Option<real>)

  predicate SetupAccepted(s: Setup) {
    && s.entry > 0.0 && s.stop > 0.0 && s.target > 0.0 && s.horizonHours >= 1
    && (s.side.Long? ==> s.stop < s.entry < s.target)
    && (s.side.Short? ==> s.target < s.entry < s.stop)
    && (s.quantity.Some? ==> s.quantity.value > 0.0)
    && s.costs.feeBps >= 0.0 && s.costs.spreadBps >= 0.0 && s.costs.slippageBps >= 0.0
  }

  datatype Fault = InvalidSetup | InvalidBar | DuplicateTimestamp

  datatype Gap = NoPostSignalBars | MissingFutureBars | MissingHourlyBar

  datatype Exit = StopHit | TargetHit | HorizonClose

  /** What the trade made on its quantity, and in units of what it risked. */
  datatype Position = Position(grossPnl: real, netPnl: real, risk: real, grossR: real, netR: real)

  datatype Amounts = Amounts(grossReturn: real, netReturn: real, position: Option<Position>)

  datatype Outcome =
    | Maturing(gap: Gap)
    | Completed(exit: Exit, timestamp: int, price: real, holdingHours: real, amounts: Amounts)

  datatype Observation = Observation(bars: seq<Bar>, outcome: Outcome)

  // ----- the bars that count, in time order -----

  predicate Earlier(a: Bar, b: Bar) {
    a.timestamp < b.timestamp
  }

  function After(t: int): Bar -> bool {
    (b: Bar) => b.timestamp > t
  }

  function Until(t: int): Bar -> bool {
    (b: Bar) => b.timestamp <= t
  }

  /** The bars after the signal, each one once and in time order, or the reason why there is no such list. */
  ghost predicate IsNormalized(raw: seq<Bar>, signal: int, r: Result<seq<Bar>, Fault>) {
    match r
    case Ok(bars) =>
      && AllAccepted(raw)
      && Strictly(bars, Earlier) && multiset(bars) == multiset(Filter(raw, After(signal)))
    case Err(InvalidBar) => !AllAccepted(raw)
    case Err(DuplicateTimestamp) => AllAccepted(raw) && !NoTies(Filter(raw, After(signal)), Earlier)
    case Err(InvalidSetup) => false
  }

  lemma StrictlyFromNeighbours(bars: seq<Bar>)
    requires InOrder(bars, Earlier)
    requires forall i :: 0 < i < |bars| ==> bars[i].timestamp != bars[i - 1].timestamp
    ensures Strictly(bars, Earlier)
  {
    forall i, j | 0 <= i < j < |bars|
      ensures Earlier(bars[i], bars[j])
    {
      assert !Earlier(bars[i + 1], bars[i]) && bars[i + 1].timestamp != bars[i].timestamp;
      if i + 1 < j {
        assert !Earlier(bars[j], bars[i + 1]);
      }
    }
  }

  lemma EarlierIsAnOrder()
    ensures StrictWeakOrder(Earlier)
  {
  }

  lemma SortedBars(kept: seq<Bar>)
    ensures InOrder(Arranged(kept, Earlier), Earlier) && multiset(Arranged(kept, Earlier)) == multiset(kept)
    ensures NoTies(kept, Earlier) ==> NoTies(Arranged(kept, Earlier), Earlier)
  {
    EarlierIsAnOrder();
    ArrangedIsSortedPermutation(kept, Earlier);
    if NoTies(kept, Earlier) {
      NoTiesInPermutation(kept, Arranged(kept, Earlier), Earlier);
    }
  }

  /** The bars after the signal, if every bar is in order. */
  method KeepBars(signal: int, raw: seq<Bar>) returns (kept: Option<seq<Bar>>)
    ensures kept.Some? <==> AllAccepted(raw)
    ensures kept.Some? ==> kept.value == Filter(raw, After(signal))
  {
    var bars: seq<Bar> := [];
    for i := 0 to |raw|
      invariant AllAccepted(raw[..i])
      invariant bars == Filter(raw[..i], After(signal))
    {
      if !BarAccepted(raw[i]) {
        return None;
      }
      FilterNext(raw, i, After(signal));
      if raw[i].timestamp > signal {
        bars := bars + [raw[i]];
      }
    }
    assert raw[..|raw|] == raw;
    return Some(bars);
  }

  method NormalizeBars(signal: int, raw: seq<Bar>) returns (r: Result<seq<Bar>, Fault>)
    ensures IsNormalized(raw, signal, r)
  {
    var kept := KeepBars(signal, raw);
    if kept.None? {
      return Err(InvalidBar);
    }
    SortedBars(kept.value);
    var normalized := Arranged(kept.value, Earlier);
    var i := 1;
    while i < |normalized|
      invariant 1 <= i
      invariant forall k :: 0 < k < i && k < |normalized| ==> normalized[k].timestamp != normalized[k - 1].timestamp
    {
      if normalized[i].timestamp == normalized[i - 1].timestamp {
        assert !Earlier(normalized[i - 1], normalized[i]);
        return Err(DuplicateTimestamp);
      }
      i := i + 1;
    }
    StrictlyFromNeighbours(normalized);
    return Ok(normalized);
  }

  lemma OneListInTimeOrder(bars: seq<Bar>, also: seq<Bar>)
    requires Strictly(bars, Earlier) && Strictly(also, Earlier) && multiset(bars) == multiset(also)
    ensures bars == also
  {
    EarlierIsAnOrder();
    StrictArrangementIsUnique(bars, also, Earlier);
  }

  /** A list in time order exists just when no two of the bars carry the same time. */
  lemma AcceptedIffNoTies(raw: seq<Bar>, signal: int, r: Result<seq<Bar>, Fault>, kept: seq<Bar>)
    requires IsNormalized(raw, signal, r) && AllAccepted(raw)
    requires multiset(kept) == multiset(Filter(raw, After(signal)))
    ensures if r.Ok? then NoTies(kept, Earlier) else r.error == DuplicateTimestamp && !NoTies(kept, Earlier)
  {
    EarlierIsAnOrder();
    if r.Ok? {
      NoTiesInPermutation(r.value, kept, Earlier);
    } else if NoTies(kept, Earlier) {
      NoTiesInPermutation(kept, Filter(raw, After(signal)), Earlier);
    }
  }

  /** Neither the order of the bars nor the bars up to the signal matter. */
  lemma NormalizationIgnoresOrder(xs: seq<Bar>, ys: seq<Bar>, signal: int,
                                  r: Result<seq<Bar>, Fault>, q: Result<seq<Bar>, Fault>)
    requires IsNormalized(xs, signal, r) && IsNormalized(ys, signal, q)
    requires AllAccepted(xs) <==> AllAccepted(ys)
    requires multiset(Filter(xs, After(signal))) == multiset(Filter(ys, After(signal)))
    ensures r == q
  {
    if AllAccepted(xs) {
      var kept := Filter(xs, After(signal));
      AcceptedIffNoTies(xs, signal, r, kept);
      AcceptedIffNoTies(ys, signal, q, kept);
      if r.Ok? && q.Ok? {
        OneListInTimeOrder(r.value, q.value);
      }
    }
  }

  // ----- events -----

  function ElapsedHours(start: int, end: int): real {
    (end - start) as real / HOUR as real
  }

  function Previous(s: Setup, bars: seq<Bar>, k: nat): int
    requires k < |bars|
  {
    if k == 0 then s.signal else bars[k - 1].timestamp
  }

  /** More than an hour of evidence is missing before bar k. */
  predicate GapAt(s: Setup, bars: seq<Bar>, k: nat)
    requires k < |bars|
  {
    bars[k].timestamp - Previous(s, bars, k) > HOUR
  }

  predicate InTime(s: Setup, b: Bar) {
    ElapsedHours(s.signal, b.timestamp) <= s.horizonHours as real
  }

  predicate StopTouched(s: Setup, b: Bar) {
    if s.side.Long? then b.low <= s.stop else b.high >= s.stop
  }

  predicate TargetTouched(s: Setup, b: Bar) {
    if s.side.Long? then b.high >= s.target else b.low <= s.target
  }

  predicate HorizonReached(s: Setup, b: Bar) {
    ElapsedHours(s.signal, b.timestamp) >= s.horizonHours as real
  }

  predicate EventAt(s: Setup, bars: seq<Bar>, k: nat)
    requires k < |bars|
  {
    || GapAt(s, bars, k)
    || (InTime(s, bars[k]) && (StopTouched(s, bars[k]) || TargetTouched(s, bars[k])))
    || HorizonReached(s, bars[k])
  }

  predicate QuietBefore(s: Setup, bars: seq<Bar>, k: nat)
    requires k <= |bars|
  {
    forall i :: 0 <= i < k ==> !EventAt(s, bars, i)
  }

  predicate FirstEvent(s: Setup, bars: seq<Bar>, k: nat) {
    k < |bars| && EventAt(s, bars, k) && QuietBefore(s, bars, k)
  }

  // ----- what a completed trade made -----

  function ReturnForSide(side: Side, entry: real, exit: real): real
    requires entry > 0.0
  {
    if side.Long? then (exit - entry) / entry else (entry - exit) / entry
  }

  function Distance(a: real, b: real): real {
    if a >= b then a - b else b - a
  }

  function AmountsOf(s: Setup, exit: real): Amounts
    requires SetupAccepted(s)
  {
    var gross := ReturnForSide(s.side, s.entry, exit);
    var net := gross - s.costs.RoundTripRate();
    if s.quantity.None? then Amounts(gross, net, None)
    else
      var quantity := s.quantity.value;
      var grossPnl := if s.side.Long? then (exit - s.entry) * quantity else (s.entry - exit) * quantity;
      var netPnl := net * s.entry * quantity;
      var risk := Distance(s.entry, s.stop) * quantity;
      RiskIsPositive(s);
      Amounts(gross, net, Some(Position(grossPnl, netPnl, risk, grossPnl / risk, netPnl / risk)))
  }

  lemma RiskIsPositive(s: Setup)
    requires SetupAccepted(s) && s.quantity.Some?
    ensures Distance(s.entry, s.stop) * s.quantity.value > 0.0
  {
  }

  function CompletedAt(s: Setup, b: Bar, exit: Exit): Outcome
    requires SetupAccepted(s)
  {
    var price := match exit case StopHit => s.stop case TargetHit => s.target case HorizonClose => b.close;
    Completed(exit, b.timestamp, price, ElapsedHours(s.signal, b.timestamp), AmountsOf(s, price))
  }

  /** What bar k decides: a gap leaves the trade open, and a stop is taken before a target. */
  function OutcomeAt(s: Setup, bars: seq<Bar>, k: nat): Outcome
    requires SetupAccepted(s) && k < |bars|
  {
    if GapAt(s, bars, k) then Maturing(MissingHourlyBar)
    else if InTime(s, bars[k]) && StopTouched(s, bars[k]) then CompletedAt(s, bars[k], StopHit)
    else if InTime(s, bars[k]) && TargetTouched(s, bars[k]) then CompletedAt(s, bars[k], TargetHit)
    else CompletedAt(s, bars[k], HorizonClose)
  }

  /** The first event decides; without an event the trade is still open. */
  ghost predicate IsOutcome(s: Setup, bars: seq<Bar>, o: Outcome)
    requires SetupAccepted(s)
  {
    || (exists k: nat :: FirstEvent(s, bars, k) && o == OutcomeAt(s, bars, k))
    || (QuietBefore(s, bars, |bars|) && o == Maturing(if bars == [] then NoPostSignalBars else MissingFutureBars))
  }

  ghost predicate IsObservation(s: Setup, raw: seq<Bar>, r: Result<Observation, Fault>) {
    if !SetupAccepted(s) then r == Err(InvalidSetup)
    else match r
      case Ok(observation) => IsNormalized(raw, s.signal, Ok(observation.bars)) && IsOutcome(s, observation.bars, observation.outcome)
      case Err(fault) => IsNormalized(raw, s.signal, Err(fault))
  }

  method CalculateShadowOutcome(s: Setup, raw: seq<Bar>) returns (r: Result<Observation, Fault>)
    ensures IsObservation(s, raw, r)
  {
    if !SetupAccepted(s) {
      return Err(InvalidSetup);
    }
    var normalized := NormalizeBars(s.signal, raw);
    if normalized.Err? {
      return Err(normalized.error);
    }
    var bars := normalized.value;
    var outcome := Scan(s, bars);
    return Ok(Observation(bars, outcome));
  }

  method Scan(s: Setup, bars: seq<Bar>) returns (o: Outcome)
    requires SetupAccepted(s)
    ensures IsOutcome(s, bars, o)
  {
    var horizon := s.horizonHours as real;
    var lastTimestamp := s.signal;
    for i := 0 to |bars|
      invariant QuietBefore(s, bars, i)
      invariant lastTimestamp == if i == 0 then s.signal else bars[i - 1].timestamp
    {
      var bar := bars[i];
      var elapsed := ElapsedHours(s.signal, bar.timestamp);
      if bar.timestamp - lastTimestamp > HOUR {
        assert FirstEvent(s, bars, i);
        return Maturing(MissingHourlyBar);
      }
      lastTimestamp := bar.timestamp;
      if elapsed <= horizon {
        var stopHit, targetHit;
        if s.side.Long? {
          stopHit, targetHit := bar.low <= s.stop, bar.high >= s.target;
        } else {
          stopHit, targetHit := bar.high >= s.stop, bar.low <= s.target;
        }
        if stopHit {
          assert FirstEvent(s, bars, i);
          return CompletedAt(s, bar, StopHit);
        }
        if targetHit {
          assert FirstEvent(s, bars, i);
          return CompletedAt(s, bar, TargetHit);
        }
      }
      if elapsed >= horizon {
        assert FirstEvent(s, bars, i);
        return CompletedAt(s, bar, HorizonClose);
      }
    }
    return Maturing(if bars == [] then NoPostSignalBars else MissingFutureBars);
  }

  // ----- the outcome is one outcome, and it stays -----

  lemma OutcomeIsUnique(s: Setup, bars: seq<Bar>, o: Outcome, p: Outcome)
    requires SetupAccepted(s) && IsOutcome(s, bars, o) && IsOutcome(s, bars, p)
    ensures o == p
  {
    forall k: nat, m: nat | FirstEvent(s, bars, k) && FirstEvent(s, bars, m)
      ensures k == m
    {
    }
  }

  /** The same observation comes out for every order of the bars and whatever came before the signal. */
  lemma ObservationIgnoresOrder(s: Setup, xs: seq<Bar>, ys: seq<Bar>,
                                r: Result<Observation, Fault>, q: Result<Observation, Fault>)
    requires IsObservation(s, xs, r) && IsObservation(s, ys, q)
    requires AllAccepted(xs) <==> AllAccepted(ys)
    requires multiset(Filter(xs, After(s.signal))) == multiset(Filter(ys, After(s.signal)))
    ensures r == q
  {
    if SetupAccepted(s) {
      NormalizationIgnoresOrder(xs, ys, s.signal, BarsOf(r), BarsOf(q));
      if r.Ok? {
        OutcomeIsUnique(s, r.value.bars, r.value.outcome, q.value.outcome);
      }
    }
  }

  function BarsOf(r: Result<Observation, Fault>): Result<seq<Bar>, Fault> {
    match r
    case Ok(observation) => Ok(observation.bars)
    case Err(fault) => Err(fault)
  }

  /** In time order, the bars up to the time of bar k are the first k + 1. */
  lemma UpToIsPrefix(bars: seq<Bar>, k: nat)
    requires Strictly(bars, Earlier) && k < |bars|
    ensures Filter(bars, Until(bars[k].timestamp)) == bars[..k + 1]
  {
    FilterSplits(bars, k + 1, Until(bars[k].timestamp));
  }

  lemma UntilIsPrefix(bars: seq<Bar>, t: int)
    requires Strictly(bars, Earlier)
    ensures var kept := Filter(bars, Until(t)); |kept| <= |bars| && kept == bars[..|kept|] && Strictly(kept, Earlier)
  {
    FilterIsPrefix(bars, Until(t));
  }

  /** Lists in time order that hold the same bars up to bar k of the first one begin alike. */
  lemma SamePrefix(bars: seq<Bar>, also: seq<Bar>, k: nat)
    requires Strictly(bars, Earlier) && Strictly(also, Earlier) && k < |bars|
    requires multiset(Filter(bars, Until(bars[k].timestamp))) == multiset(Filter(also, Until(bars[k].timestamp)))
    ensures k < |also| && bars[..k + 1] == also[..k + 1]
  {
    var until := Until(bars[k].timestamp);
    UpToIsPrefix(bars, k);
    UntilIsPrefix(bars, bars[k].timestamp);
    UntilIsPrefix(also, bars[k].timestamp);
    OneListInTimeOrder(Filter(bars, until), Filter(also, until));
  }

  /** The events at and before bar k are decided by the bars up to k. */
  lemma FirstEventInPrefix(s: Setup, xs: seq<Bar>, ys: seq<Bar>, k: nat)
    requires SetupAccepted(s) && FirstEvent(s, xs, k)
    requires k < |ys| && xs[..k + 1] == ys[..k + 1]
    ensures FirstEvent(s, ys, k) && OutcomeAt(s, xs, k) == OutcomeAt(s, ys, k)
  {
    forall i: nat | i <= k
      ensures xs[i] == ys[i] && Previous(s, xs, i) == Previous(s, ys, i)
    {
      assert xs[i] == xs[..k + 1][i] && ys[i] == ys[..k + 1][i];
      if i > 0 {
        assert xs[i - 1] == xs[..k + 1][i - 1] && ys[i - 1] == ys[..k + 1][i - 1];
      }
    }
    forall i | 0 <= i < k
      ensures !EventAt(s, ys, i)
    {
      assert !EventAt(s, xs, i);
    }
  }

  lemma OutcomeOfSamePrefix(s: Setup, bars: seq<Bar>, also: seq<Bar>, k: nat, o: Outcome)
    requires SetupAccepted(s) && FirstEvent(s, bars, k) && IsOutcome(s, also, o)
    requires Strictly(bars, Earlier) && Strictly(also, Earlier)
    requires multiset(Filter(bars, Until(bars[k].timestamp))) == multiset(Filter(also, Until(bars[k].timestamp)))
    ensures o == OutcomeAt(s, bars, k)
  {
    SamePrefix(bars, also, k);
    FirstEventInPrefix(s, bars, also, k);
    OutcomeIsUnique(s, also, o, OutcomeAt(s, also, k));
  }

  /**
  A completed outcome is final: it is the same for every other list of bars that agrees with this
  one between the signal and the exit, such as the list extended with later bars.
  */
  lemma CompletedOutcomeStays(s: Setup, xs: seq<Bar>, ys: seq<Bar>,
                              r: Result<Observation, Fault>, q: Result<Observation, Fault>)
    requires IsObservation(s, xs, r) && IsObservation(s, ys, q)
    requires r.Ok? && q.Ok? && r.value.outcome.Completed?
    requires var until := Until(r.value.outcome.timestamp);
      multiset(Filter(Filter(xs, After(s.signal)), until)) == multiset(Filter(Filter(ys, After(s.signal)), until))
    ensures q.value.outcome == r.value.outcome
  {
    var bars, also := r.value.bars, q.value.bars;
    var k: nat :| FirstEvent(s, bars, k) && r.value.outcome == OutcomeAt(s, bars, k);
    var until := Until(bars[k].timestamp);
    FilterOfPermutation(bars, Filter(xs, After(s.signal)), until);
    FilterOfPermutation(also, Filter(ys, After(s.signal)), until);
    OutcomeOfSamePrefix(s, bars, also, k, q.value.outcome);
  }

  /** In particular later bars change nothing. */
  lemma LaterBarsChangeNothing(s: Setup, raw: seq<Bar>, later: seq<Bar>,
                               r: Result<Observation, Fault>, q: Result<Observation, Fault>)
    requires IsObservation(s, raw, r) && IsObservation(s, raw + later, q)
    requires r.Ok? && q.Ok? && r.value.outcome.Completed?
    requires forall i :: 0 <= i < |later| ==> later[i].timestamp > r.value.outcome.timestamp
    ensures q.value.outcome == r.value.outcome
  {
    var until := Until(r.value.outcome.timestamp);
    var kept, also := Filter(raw, After(s.signal)), Filter(raw + later, After(s.signal));
    forall x: Bar
      ensures multiset(Filter(kept, until))[x] == multiset(Filter(also, until))[x]
    {
      FilterCounts(raw, After(s.signal), x);
      FilterCounts(raw + later, After(s.signal), x);
      FilterCounts(kept, until, x);
      FilterCounts(also, until, x);
      assert until(x) ==> x !in later;
    }
    CompletedOutcomeStays(s, raw, raw + later, r, q);
  }

  // ----- how long a trade runs -----

  lemma QuietBarIsBeforeHorizon(s: Setup, bars: seq<Bar>, k: nat)
    requires k <= |bars| && QuietBefore(s, bars, k) && s.horizonHours >= 1
    ensures (if k == 0 then s.signal else bars[k - 1].timestamp) < s.signal + s.horizonHours * HOUR
  {
    if k > 0 {
      assert !EventAt(s, bars, k - 1);
    }
  }

  /** A completed trade ends after the signal and less than an hour past the horizon. */
  lemma HoldingIsBounded(s: Setup, raw: seq<Bar>, r: Result<Observation, Fault>)
    requires IsObservation(s, raw, r) && r.Ok? && r.value.outcome.Completed?
    ensures var o := r.value.outcome;
      && 0.0 < o.holdingHours < s.horizonHours as real + 1.0
      && (o.exit.HorizonClose? ==> o.holdingHours >= s.horizonHours as real)
      && (!o.exit.HorizonClose? ==> o.holdingHours <= s.horizonHours as real)
  {
    var bars := r.value.bars;
    var k: nat :| FirstEvent(s, bars, k) && r.value.outcome == OutcomeAt(s, bars, k);
    FilterCounts(raw, After(s.signal), bars[k]);
    assert bars[k] in multiset(bars);
    QuietBarIsBeforeHorizon(s, bars, k);
  }

  // ----- what a trade makes -----

  /** What one unit makes when it is sold, or bought back, at this price. */
  function Gain(s: Setup, price: real): real {
    if s.side.Long? then price - s.entry else s.entry - price
  }

  /** The gain of one unit in units of what it risks. */
  function PriceInR(s: Setup, price: real): real
    requires SetupAccepted(s)
  {
    Quotient(Gain(s, price), Distance(s.entry, s.stop))
  }

  function CostInR(s: Setup): real
    requires SetupAccepted(s)
  {
    s.costs.RoundTripRate() * s.entry / Distance(s.entry, s.stop)
  }

  lemma CancelFactor(a: real, b: real, q: real)
    requires b != 0.0 && q != 0.0
    ensures b * q != 0.0 && (a * q) / (b * q) == a / b
  {
    assert (a / b) * (b * q) == a * q;
  }

  lemma ReturnTimesEntry(a: real, entry: real, rate: real, q: real)
    requires entry > 0.0
    ensures (a / entry - rate) * entry * q == (a - rate * entry) * q
  {
    assert (a / entry) * entry == a;
    assert (a / entry - rate) * entry == a - rate * entry;
  }

  lemma SplitQuotient(a: real, c: real, d: real)
    requires d != 0.0
    ensures (a - c) / d == a / d - c / d
  {
  }

  /** R multiples do not depend on the quantity, and every exit pays the same costs. */
  lemma RMultiples(s: Setup, price: real)
    requires SetupAccepted(s) && s.quantity.Some?
    ensures var p := AmountsOf(s, price).position;
      p.Some? && p.value.grossR == PriceInR(s, price) && p.value.netR == PriceInR(s, price) - CostInR(s)
  {
    var q, d := s.quantity.value, Distance(s.entry, s.stop);
    var gain := Gain(s, price);
    var cost := s.costs.RoundTripRate() * s.entry;
    CancelFactor(gain, d, q);
    CancelFactor(gain - cost, d, q);
    SplitQuotient(gain, cost, d);
    ReturnTimesEntry(gain, s.entry, s.costs.RoundTripRate(), q);
  }

  lemma QuotientOfMultiple(k: real, d: real)
    requires d > 0.0
    ensures Quotient(k * d, d) == k
  {
    assert (k * d) / d == k;
  }

  /** Prices rank by their R: the stop is minus one, the target is positive, and the side does not matter. */
  lemma PricesInR(s: Setup, price: real)
    requires SetupAccepted(s)
    ensures PriceInR(s, s.stop) == -1.0 && PriceInR(s, s.target) > 0.0
    ensures if s.side.Long? then (s.stop < price <==> -1.0 < PriceInR(s, price)) && (price < s.target <==> PriceInR(s, price) < PriceInR(s, s.target))
            else (price < s.stop <==> -1.0 < PriceInR(s, price)) && (s.target < price <==> PriceInR(s, price) < PriceInR(s, s.target))
  {
    var d := Distance(s.entry, s.stop);
    QuotientOfMultiple(-1.0, d);
    QuotientOfMultiple(0.0, d);
    assert Gain(s, s.stop) == -d && Gain(s, s.target) > 0.0;
    QuotientOrder(Gain(s, price), -d, d);
    QuotientOrder(Gain(s, s.target), Gain(s, price), d);
    QuotientOrder(Gain(s, s.target), 0.0, d);
  }

  lemma FirstEventIsInside(s: Setup, raw: seq<Bar>, r: Result<Observation, Fault>)
    requires IsObservation(s, raw, r) && r.Ok? && r.value.outcome.Completed?
    requires r.value.outcome.holdingHours <= s.horizonHours as real
    ensures r.value.outcome.amounts == AmountsOf(s, r.value.outcome.price)
    ensures match r.value.outcome.exit
      case StopHit => r.value.outcome.price == s.stop
      case TargetHit => r.value.outcome.price == s.target
      case HorizonClose => if s.side.Long? then s.stop < r.value.outcome.price < s.target else s.target < r.value.outcome.price < s.stop
  {
    var bars := r.value.bars;
    var k: nat :| FirstEvent(s, bars, k) && r.value.outcome == OutcomeAt(s, bars, k);
    if r.value.outcome.exit.HorizonClose? {
      FilterCounts(raw, After(s.signal), bars[k]);
      assert bars[k] in multiset(bars);
      assert bars[k] in multiset(raw);
      assert bars[k] in raw;
      assert BarAccepted(bars[k]);
    }
  }

  /**
  Up to the horizon a trade loses at most what it risked, and exactly that when it is stopped; it
  makes at most what its target promised, and exactly that when the target is hit.
  */
  lemma OutcomeInsideBarriers(s: Setup, raw: seq<Bar>, r: Result<Observation, Fault>)
    requires IsObservation(s, raw, r) && r.Ok? && r.value.outcome.Completed? && s.quantity.Some?
    requires r.value.outcome.holdingHours <= s.horizonHours as real
    ensures var o := r.value.outcome; var gross := PriceInR(s, o.price);
      && o.amounts.position.Some? && o.amounts.position.value.grossR == gross
      && o.amounts.position.value.netR == gross - CostInR(s)
      && -1.0 <= gross <= PriceInR(s, s.target)
      && (gross == -1.0 <==> o.exit.StopHit?)
      && (gross == PriceInR(s, s.target) <==> o.exit.TargetHit?)
  {
    FirstEventIsInside(s, raw, r);
    RMultiples(s, r.value.outcome.price);
    PricesInR(s, r.value.outcome.price);
  }

  // ----- the outcome in words -----

  /** Bar k begins more than an hour after the bar before it, or after the signal. */
  predicate HourMissing(s: Setup, bars: seq<Bar>, k: nat)
    requires k < |bars|
  {
    bars[k].timestamp > (if k == 0 then s.signal else bars[k - 1].timestamp) + 3_600_000_000
  }

  /** The barriers are watched up to this time, and here the trade is due. */
  function Deadline(s: Setup): int {
    s.signal + s.horizonHours * 3_600_000_000
  }

  predicate ReachesStop(s: Setup, b: Bar) {
    (s.side == Long && b.low <= s.stop) || (s.side == Short && b.high >= s.stop)
  }

  predicate ReachesTarget(s: Setup, b: Bar) {
    (s.side == Long && b.high >= s.target) || (s.side == Short && b.low <= s.target)
  }

  /** Bar k follows in time, touches nothing and is not due. */
  predicate Uneventful(s: Setup, bars: seq<Bar>, k: nat)
    requires k < |bars|
  {
    !HourMissing(s, bars, k) && bars[k].timestamp < Deadline(s) && !ReachesStop(s, bars[k]) && !ReachesTarget(s, bars[k])
  }

  lemma UneventfulIsNoEvent(s: Setup, bars: seq<Bar>, k: nat)
    requires k < |bars|
    ensures HourMissing(s, bars, k) <==> GapAt(s, bars, k)
    ensures bars[k].timestamp <= Deadline(s) <==> InTime(s, bars[k])
    ensures bars[k].timestamp >= Deadline(s) <==> HorizonReached(s, bars[k])
    ensures Uneventful(s, bars, k) <==> !EventAt(s, bars, k)
  {
  }

  /** The bars that count are those of the input that begin after the signal, in the order of their times. */
  lemma BarsAfterSignal(s: Setup, raw: seq<Bar>, r: Result<Observation, Fault>)
    requires IsObservation(s, raw, r) && r.Ok?
    ensures forall b :: b in r.value.bars <==> b in raw && b.timestamp > s.signal
    ensures forall i, j :: 0 <= i < j < |r.value.bars| ==> r.value.bars[i].timestamp < r.value.bars[j].timestamp
  {
    var bars := r.value.bars;
    forall b: Bar
      ensures b in bars <==> b in raw && b.timestamp > s.signal
    {
      FilterCounts(raw, After(s.signal), b);
      assert b in bars <==> b in multiset(bars);
      assert b in raw <==> b in multiset(raw);
    }
    forall i, j | 0 <= i < j < |bars|
      ensures bars[i].timestamp < bars[j].timestamp
    {
      assert Earlier(bars[i], bars[j]);
    }
  }

  /**
  The first bar that is not uneventful decides: a missing hour leaves the trade open; a stop that is reached by the deadline is
  taken at the stop, even if the bar reaches the target too; a target only if the stop is not reached; and otherwise
  the trade closes at the bar's close, which is then due.
  */
  lemma StopComesBeforeTarget(s: Setup, raw: seq<Bar>, r: Result<Observation, Fault>, k: nat)
    requires IsObservation(s, raw, r) && r.Ok? && k < |r.value.bars|
    requires !Uneventful(s, r.value.bars, k) && forall i :: 0 <= i < k ==> Uneventful(s, r.value.bars, i)
    ensures var o, b := r.value.outcome, r.value.bars[k];
      if HourMissing(s, r.value.bars, k) then o == Maturing(MissingHourlyBar)
      else
        && o.Completed? && o.timestamp == b.timestamp && o.holdingHours * 3_600_000_000.0 == (b.timestamp - s.signal) as real
        && (o.exit.StopHit? <==> b.timestamp <= Deadline(s) && ReachesStop(s, b))
        && (o.exit.TargetHit? <==> b.timestamp <= Deadline(s) && ReachesTarget(s, b) && !ReachesStop(s, b))
        && (o.exit.StopHit? ==> o.price == s.stop)
        && (o.exit.TargetHit? ==> o.price == s.target)
        && (o.exit.HorizonClose? ==> o.price == b.close && b.timestamp >= Deadline(s))
  {
    var bars := r.value.bars;
    forall i | 0 <= i <= k
      ensures Uneventful(s, bars, i) <==> !EventAt(s, bars, i)
    {
      UneventfulIsNoEvent(s, bars, i);
    }
    UneventfulIsNoEvent(s, bars, k);
    assert FirstEvent(s, bars, k);
    OutcomeIsUnique(s, bars, r.value.outcome, OutcomeAt(s, bars, k));
  }

  /** As long as every bar is uneventful the trade matures. */
  lemma UneventfulTradesMature(s: Setup, raw: seq<Bar>, r: Result<Observation, Fault>)
    requires IsObservation(s, raw, r) && r.Ok?
    requires forall i :: 0 <= i < |r.value.bars| ==> Uneventful(s, r.value.bars, i)
    ensures r.value.outcome == Maturing(if r.value.bars == [] then NoPostSignalBars else MissingFutureBars)
  {
    var bars := r.value.bars;
    forall i | 0 <= i < |bars|
      ensures !EventAt(s, bars, i)
    {
      UneventfulIsNoEvent(s, bars, i);
    }
  }

  /** What one unit gains at this exit, and what both legs of it cost, to the entry. */
  predicate ReturnAccounts(a: Amounts, entry: real, gain: real, basisPoints: real) {
    a.grossReturn * entry == gain && (a.grossReturn - a.netReturn) * 10000.0 == basisPoints
  }

  /** One unit gains, costs and risks this much, the risk up to its sign. */
  predicate PositionAccounts(p: Position, quantity: real, gain: real, cost: real, distance: real) {
    && p.grossPnl == gain * quantity
    && p.netPnl == (gain - cost) * quantity
    && (p.risk == distance * quantity || p.risk == -distance * quantity) && p.risk > 0.0
    && p.grossR * p.risk == p.grossPnl
    && p.netR * p.risk == p.netPnl
  }

  function GainAt(s: Setup, exit: real): real {
    if s.side == Long then exit - s.entry else s.entry - exit
  }

  /** The fee of both legs, and spread and slippage for the round trip, in basis points. */
  function CostPoints(s: Setup): real {
    s.costs.feeBps + s.costs.feeBps + s.costs.spreadBps + s.costs.slippageBps
  }

  lemma ReturnsOf(s: Setup, exit: real)
    requires SetupAccepted(s)
    ensures ReturnAccounts(AmountsOf(s, exit), s.entry, GainAt(s, exit), CostPoints(s))
  {
    assert ReturnForSide(s.side, s.entry, exit) * s.entry == GainAt(s, exit);
    assert s.costs.RoundTripRate() * 10000.0 == CostPoints(s);
  }

  lemma PositionOf(s: Setup, exit: real, gain: real, cost: real)
    requires SetupAccepted(s) && s.quantity.Some? && gain == GainAt(s, exit) && cost == s.costs.RoundTripRate() * s.entry
    ensures var p := AmountsOf(s, exit).position; p.Some? && PositionAccounts(p.value, s.quantity.value, gain, cost, s.entry - s.stop)
  {
    RiskIsPositive(s);
    ReturnTimesEntry(gain, s.entry, s.costs.RoundTripRate(), s.quantity.value);
  }

  lemma RateTimesEntry(s: Setup)
    ensures s.costs.RoundTripRate() * s.entry == CostPoints(s) * s.entry / 10000.0
  {
  }

  /** Every completed trade is accounted for at the price of its exit, and on its quantity if it has one. */
  lemma CompletedAccounts(s: Setup, raw: seq<Bar>, r: Result<Observation, Fault>, cost: real)
    requires IsObservation(s, raw, r) && r.Ok? && r.value.outcome.Completed? && cost == CostPoints(s) * s.entry / 10000.0
    ensures var o := r.value.outcome;
      && ReturnAccounts(o.amounts, s.entry, GainAt(s, o.price), CostPoints(s))
      && (o.amounts.position.Some? <==> s.quantity.Some?)
      && (s.quantity.Some? ==> PositionAccounts(o.amounts.position.value, s.quantity.value, GainAt(s, o.price), cost, s.entry - s.stop))
  {
    var price := r.value.outcome.price;
    assert r.value.outcome.amounts == AmountsOf(s, price);
    ReturnsOf(s, price);
    if s.quantity.Some? {
      RateTimesEntry(s);
      PositionOf(s, price, GainAt(s, price), cost);
    }
  }

  predicate BeyondStop(s: Setup, price: real) {
    if s.side.Long? then price < s.stop else price > s.stop
  }

  /** The first event is a bar past the horizon, without a gap before it, that closes beyond the stop. */
  predicate LateBeyondStopAt(s: Setup, bars: seq<Bar>, k: nat) {
    FirstEvent(s, bars, k) && !GapAt(s, bars, k) && !InTime(s, bars[k]) && BeyondStop(s, bars[k].close)
  }

  predicate LosesMoreThanRisk(o: Outcome) {
    o.Completed? && o.amounts.position.Some? && o.amounts.position.value.grossR < -1.0
  }

  lemma LossBeyondRisk(s: Setup, price: real)
    requires SetupAccepted(s) && s.quantity.Some?
    ensures var p := AmountsOf(s, price).position; p.Some? && (p.value.grossR < -1.0 <==> BeyondStop(s, price))
  {
    RMultiples(s, price);
    QuotientOfMultiple(-1.0, Distance(s.entry, s.stop));
    QuotientOrder(-Distance(s.entry, s.stop), Gain(s, price), Distance(s.entry, s.stop));
  }

  /** An exit inside the horizon is the stop, the target, or a close that has touched neither. */
  lemma InTimeIsNotBeyondStop(s: Setup, bars: seq<Bar>, k: nat)
    requires SetupAccepted(s) && k < |bars| && BarAccepted(bars[k]) && InTime(s, bars[k]) && !GapAt(s, bars, k)
    ensures OutcomeAt(s, bars, k).Completed? && !BeyondStop(s, OutcomeAt(s, bars, k).price)
  {
  }

  lemma NormalizedBarsAreAccepted(raw: seq<Bar>, signal: int, bars: seq<Bar>)
    requires IsNormalized(raw, signal, Ok(bars))
    ensures AllAccepted(bars)
  {
    forall k | 0 <= k < |bars|
      ensures BarAccepted(bars[k])
    {
      FilterCounts(raw, After(signal), bars[k]);
      assert bars[k] in multiset(bars) && bars[k] in multiset(raw) && bars[k] in raw;
    }
  }

  /**
  A trade loses more than it risked exactly when the first event among its bars is a bar past the
  horizon, with no hour missing before it, that closes beyond the stop.
  */
  lemma LosesMoreThanRiskIffLate(s: Setup, raw: seq<Bar>, r: Result<Observation, Fault>)
    requires IsObservation(s, raw, r) && r.Ok? && s.quantity.Some?
    ensures LosesMoreThanRisk(r.value.outcome) <==> exists k: nat :: LateBeyondStopAt(s, r.value.bars, k)
  {
    var bars, o := r.value.bars, r.value.outcome;
    NormalizedBarsAreAccepted(raw, s.signal, bars);
    if k: nat :| FirstEvent(s, bars, k) {
      OutcomeIsUnique(s, bars, o, OutcomeAt(s, bars, k));
      if o.Completed? {
        LossBeyondRisk(s, o.price);
        if InTime(s, bars[k]) {
          InTimeIsNotBeyondStop(s, bars, k);
        } else {
          assert BeyondStop(s, o.price) ==> LateBeyondStopAt(s, bars, k);
        }
      }
      FirstEventIsOne(s, bars, k);
    }
  }

  lemma FirstEventIsOne(s: Setup, bars: seq<Bar>, k: nat)
    requires FirstEvent(s, bars, k)
    ensures forall m: nat :: FirstEvent(s, bars, m) ==> m == k
  {
  }

  function LateSetup(): Setup {
    Setup(Long, 0, 100.0, 99.0, 101.0, 1, CostModel(0.0, 0.0, 0.0), Some(1.0))
  }

  /** A bar inside the horizon that touches nothing, and one a microsecond late that has fallen through the stop. */
  function LateBars(): seq<Bar> {
    [Bar(HOUR / 2, 100.0, 100.0, 100.0, None, None), Bar(HOUR + 1, 98.0, 98.0, 98.0, None, None)]
  }

  lemma LateBarsClose()
    ensures FirstEvent(LateSetup(), LateBars(), 1)
    ensures OutcomeAt(LateSetup(), LateBars(), 1) == CompletedAt(LateSetup(), LateBars()[1], HorizonClose)
  {
    assert !EventAt(LateSetup(), LateBars(), 0);
  }

  lemma LateBarsAreInOrder()
    ensures IsNormalized(LateBars(), LateSetup().signal, Ok(LateBars()))
  {
    FilterKeepsAll(LateBars(), After(LateSetup().signal));
  }

  /** Barriers are not watched after the horizon: a trade that ends on a late bar can lose twice its risk. */
  lemma LateCloseCanLoseMore(r: Result<Observation, Fault>)
    requires IsObservation(LateSetup(), LateBars(), r)
    ensures r.Ok? && r.value.outcome.Completed? && r.value.outcome.amounts.position.Some?
    ensures r.value.outcome.amounts.position.value.grossR == -2.0
  {
    LateBarsAreInOrder();
    LateBarsClose();
    var late := Observation(LateBars(), OutcomeAt(LateSetup(), LateBars(), 1));
    assert IsOutcome(LateSetup(), late.bars, late.outcome);
    ObservationIgnoresOrder(LateSetup(), LateBars(), LateBars(), r, Ok(late));
    RMultiples(LateSetup(), 98.0);
    QuotientOfMultiple(-2.0, 1.0);
  }
}
