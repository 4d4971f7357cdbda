/**
The whole plan of `optimize_cross_asset_allocation`: validation, ranking, loop and variance bound
(app/cross_asset_allocation.py, lines 1165-1214, 1300-1463 and 1490-1545).
*/
module AllocationPlan {
  import opened Wrappers
  import opened Sums
  import opened AllocationModel
  import opened AllocationScore
  import opened AllocationRanking
  import opened Allocation
  import opened AllocationVariance

  /** The error raised for evidence that is incomplete or inconsistent. */
  datatype AllocationError = AllocationError

  // ----- what is accepted -----------------------------------------------------------------

  predicate HeldAgrees(c: Candidate, s: Snapshot) {
    (c.held <==> c.symbol in NonzeroKeys(s.symbols)) && (c.held <==> c.action.AddOn?)
  }

  predicate RowAccepted(c: Candidate, s: Snapshot, runId: nat) {
    CandidateAccepted(c) && c.runId == runId && HeldAgrees(c, s)
  }

  predicate SameIdentity(a: Candidate, b: Candidate) {
    a.id == b.id || (a.sourceType == b.sourceType && a.sourceId == b.sourceId)
  }

  predicate IdentitiesUnique(cs: seq<Candidate>) {
    forall i, j :: 0 <= i < j < |cs| ==> !SameIdentity(cs[i], cs[j])
  }

  ghost predicate Accepted(cs: seq<Candidate>, s: Snapshot, p: Policy, runId: nat) {
    && PolicyAccepted(p) && SnapshotAccepted(s) && s.authoritative
    && (forall c :: c in cs ==> RowAccepted(c, s, runId))
    && IdentitiesUnique(cs)
  }

  // ----- the plan ---------------------------------------------------------------------------

  function Scores(cs: seq<Candidate>, p: Policy): (r: seq<Scored>)
    requires PolicyAccepted(p)
    ensures |r| == |cs| && forall k :: 0 <= k < |cs| ==> r[k] == Scored(Score(cs[k], p), cs[k])
  {
    seq(|cs|, k requires 0 <= k < |cs| => Scored(Score(cs[k], p), cs[k]))
  }

  function Lines(ranked: seq<Scored>, s: Snapshot, p: Policy): (r: seq<Line>)
    requires forall x :: x in ranked ==> x.candidate.notional > 0.0
    ensures |r| == |ranked|
    ensures forall k :: 0 <= k < |ranked| ==>
      r[k].candidate == ranked[k].candidate && r[k].candidate.notional > 0.0
      && r[k].risk == RiskPerNotional(ranked[k].candidate) && r[k].standing == StandingReasons(ranked[k].candidate, s, p)
  {
    seq(|ranked|, k requires 0 <= k < |ranked| => assert ranked[k] in ranked; LineOf(ranked[k].candidate, s, p))
  }

  datatype Plan = Plan(decisions: seq<Decision>, ledger: Ledger)

  ghost function PlanOf(cs: seq<Candidate>, s: Snapshot, p: Policy, runId: nat): Plan
    requires Accepted(cs, s, p, runId)
  {
    RankedIsSized(cs, s, p, runId);
    var lines, m := Lines(Ranked(Scores(cs, p)), s, p), LimitsOf(s, p);
    Plan(DecisionsFor(lines, Opening(s, p), m), LedgerAfter(lines, Opening(s, p), m))
  }

  lemma ScoresHaveDistinctIds(cs: seq<Candidate>, p: Policy)
    requires PolicyAccepted(p) && IdentitiesUnique(cs)
    ensures DistinctIds(Scores(cs, p))
  {
    forall i, j | 0 <= i < j < |cs|
      ensures Scores(cs, p)[i].candidate.id != Scores(cs, p)[j].candidate.id
    {
      assert !SameIdentity(cs[i], cs[j]);
    }
  }

  lemma RankedIsSized(cs: seq<Candidate>, s: Snapshot, p: Policy, runId: nat)
    requires Accepted(cs, s, p, runId)
    ensures forall x :: x in Ranked(Scores(cs, p)) ==> x.candidate in cs && x.candidate.notional > 0.0 && RiskPerNotional(x.candidate) > 0.0
  {
    ScoresHaveDistinctIds(cs, p);
    RankingIsSortedPermutation(Scores(cs, p));
    forall x | x in Ranked(Scores(cs, p))
      ensures x.candidate in cs && x.candidate.notional > 0.0 && RiskPerNotional(x.candidate) > 0.0
    {
      assert x in multiset(Ranked(Scores(cs, p)));
      assert x in Scores(cs, p);
      var k :| 0 <= k < |cs| && x == Scores(cs, p)[k];
      assert cs[k] in cs;
      AcceptedRowIsSized(cs[k], s, runId);
    }
  }

  lemma AcceptedRowIsSized(c: Candidate, s: Snapshot, runId: nat)
    requires RowAccepted(c, s, runId)
    ensures c.notional > 0.0 && RiskPerNotional(c) > 0.0
  {
  }

  /** Whatever the candidates, the state after the plan meets every equation that an input
      snapshot must meet, and every capacity is within its limit or where it was. */
  lemma PlanLeavesSoundLedger(cs: seq<Candidate>, s: Snapshot, p: Policy, runId: nat)
    requires Accepted(cs, s, p, runId)
    ensures var l := PlanOf(cs, s, p, runId).ledger;
      && Reconciles(l.positions, l.sleevePositions, l.gross, l.heat, l.symbols, l.clusters, l.sleeves, l.sleeveHeat, l.strategyHeat)
      && WithinLimits(l, s, LimitsOf(s, p))
      && l.cash + (l.gross - s.gross) == Opening(s, p).cash
  {
    RankedIsSized(cs, s, p, runId);
    var ranked := Ranked(Scores(cs, p));
    var lines := Lines(ranked, s, p);
    forall e | e in lines
      ensures Ready(e, s)
    {
      var k :| 0 <= k < |lines| && e == lines[k];
      assert ranked[k] in ranked;
      assert RowAccepted(ranked[k].candidate, s, runId);
    }
    OpeningIsSound(s, p);
    LoopKeepsLedgerSound(lines, Opening(s, p), LimitsOf(s, p), s);
  }

  /** The k-th decision grants its candidate exactly the least of its request and what the k
      better ones left, or nothing if there is a reason, and never less than the minimum. */
  lemma PlanDecisionsAreExact(cs: seq<Candidate>, s: Snapshot, p: Policy, runId: nat, k: nat)
    requires Accepted(cs, s, p, runId) && k < |Ranked(Scores(cs, p))|
    ensures k < |PlanOf(cs, s, p, runId).decisions|
    ensures forall x :: x in Ranked(Scores(cs, p)) ==> x.candidate.notional > 0.0
    ensures var d, c, m := PlanOf(cs, s, p, runId).decisions[k], Ranked(Scores(cs, p))[k].candidate, LimitsOf(s, p);
      var left := LedgerAfter(Lines(Ranked(Scores(cs, p)), s, p)[..k], Opening(s, p), m);
      && d.id == c.id && d.rank == k + 1
      && d.granted == (if d.reasons == {} then Least(c.notional, CapsOf(c, left, m, RiskPerNotional(c))) else 0.0)
      && (d.granted == 0.0 <==> d.reasons != {})
      && (d.granted != 0.0 ==> p.minNotional <= d.granted <= c.notional)
      && (d.reasons == {} ==> StandingReasons(c, s, p) == {})
  {
    RankedIsSized(cs, s, p, runId);
    var ranked, m := Ranked(Scores(cs, p)), LimitsOf(s, p);
    assert ranked[k] in ranked;
    var line := Lines(ranked, s, p)[k];
    var left := LedgerAfter(Lines(ranked, s, p)[..k], Opening(s, p), m);
    DecisionIsExact(k + 1, line.candidate, left, m, line.risk, line.standing);
  }

  /** A candidate that is at least as good in every scored respect is never ranked behind on
      its score; only an equal score and a smaller id can put the other one ahead. */
  lemma DominatingCandidateRanksAhead(a: Candidate, b: Candidate, p: Policy)
    requires PolicyAccepted(p) && CandidateAccepted(a) && CandidateAccepted(b) && Dominates(a, b)
    ensures Ahead(Scored(Score(b, p), b), Scored(Score(a, p), a)) ==> Score(a, p) == Score(b, p) && b.id < a.id
  {
    ScoreRespectsDominance(a, b, p);
  }

  // ----- the order of arrival does not matter ---------------------------------------------------

  lemma {:induction false} ScoresOfPermutation(cs: seq<Candidate>, p: Policy, x: Scored)
    requires PolicyAccepted(p)
    ensures multiset(Scores(cs, p))[x] == if x.score == Score(x.candidate, p) then multiset(cs)[x.candidate] else 0
  {
    if cs != [] {
      var front, c := cs[..|cs| - 1], cs[|cs| - 1];
      ScoresOfPermutation(front, p, x);
      assert cs == front + [c];
      assert Scores(cs, p) == Scores(front, p) + [Scored(Score(c, p), c)];
    }
  }

  lemma IdentitiesUniqueInPermutation(xs: seq<Candidate>, ys: seq<Candidate>, p: Policy)
    requires PolicyAccepted(p) && multiset(xs) == multiset(ys) && IdentitiesUnique(xs)
    ensures IdentitiesUnique(ys)
  {
    SameScores(xs, ys, p);
    ScoresHaveDistinctIds(xs, p);
    DistinctIdsOfPermutation(Scores(xs, p), Scores(ys, p));
    forall i, j | 0 <= i < j < |ys|
      ensures !SameIdentity(ys[i], ys[j])
    {
      assert Scores(ys, p)[i].candidate.id != Scores(ys, p)[j].candidate.id;
      assert ys[i] in multiset(xs) && ys[j] in multiset(xs);
      assert ys[i] in xs && ys[j] in xs;
    }
  }

  lemma SameScores(xs: seq<Candidate>, ys: seq<Candidate>, p: Policy)
    requires PolicyAccepted(p) && multiset(xs) == multiset(ys)
    ensures multiset(Scores(xs, p)) == multiset(Scores(ys, p))
  {
    forall x: Scored
      ensures multiset(Scores(xs, p))[x] == multiset(Scores(ys, p))[x]
    {
      ScoresOfPermutation(xs, p, x);
      ScoresOfPermutation(ys, p, x);
    }
  }

  lemma AcceptedInAnyOrder(xs: seq<Candidate>, ys: seq<Candidate>, s: Snapshot, p: Policy, runId: nat)
    requires multiset(xs) == multiset(ys) && Accepted(xs, s, p, runId)
    ensures Accepted(ys, s, p, runId)
  {
    IdentitiesUniqueInPermutation(xs, ys, p);
    forall c | c in ys
      ensures RowAccepted(c, s, runId)
    {
      assert c in multiset(xs);
      assert c in xs;
    }
  }

  /** The plan is the same for every permutation of the candidate list. */
  lemma PlanIgnoresArrivalOrder(xs: seq<Candidate>, ys: seq<Candidate>, s: Snapshot, p: Policy, runId: nat)
    requires multiset(xs) == multiset(ys)
    ensures Accepted(xs, s, p, runId) <==> Accepted(ys, s, p, runId)
    ensures Accepted(xs, s, p, runId) && Accepted(ys, s, p, runId) ==> PlanOf(xs, s, p, runId) == PlanOf(ys, s, p, runId)
  {
    if Accepted(xs, s, p, runId) {
      AcceptedInAnyOrder(xs, ys, s, p, runId);
      SameScores(xs, ys, p);
      ScoresHaveDistinctIds(xs, p);
      RankingIgnoresArrivalOrder(Scores(xs, p), Scores(ys, p));
    } else if Accepted(ys, s, p, runId) {
      AcceptedInAnyOrder(ys, xs, s, p, runId);
    }
  }

  // ----- a newcomer does not disturb those ranked above it -----------------------------------------

  lemma DecisionsOfPrefix(lines: seq<Line>, opening: Ledger, m: Limits, n: nat)
    requires n <= |lines| && forall k :: 0 <= k < |lines| ==> lines[k].candidate.notional > 0.0
    ensures DecisionsFor(lines, opening, m)[..n] == DecisionsFor(lines[..n], opening, m)
  {
    forall k | 0 <= k < n
      ensures DecisionAt(lines, opening, m, k) == DecisionAt(lines[..n], opening, m, k)
    {
      DecisionInPrefix(lines, opening, m, n, k);
    }
  }

  /** A decision depends on nobody who is ranked below. */
  lemma DecisionInPrefix(lines: seq<Line>, opening: Ledger, m: Limits, n: nat, k: nat)
    requires k < n <= |lines| && lines[k].candidate.notional > 0.0
    ensures DecisionAt(lines, opening, m, k) == DecisionAt(lines[..n], opening, m, k)
  {
    assert lines[..n][..k] == lines[..k];
  }

  lemma LinesOfPrefix(before: seq<Scored>, after: seq<Scored>, s: Snapshot, p: Policy, k: nat)
    requires k <= |before| && k <= |after| && before[..k] == after[..k]
    requires forall x :: x in before ==> x.candidate.notional > 0.0
    requires forall x :: x in after ==> x.candidate.notional > 0.0
    ensures Lines(before, s, p)[..k] == Lines(after, s, p)[..k]
  {
    forall i | 0 <= i < k
      ensures Lines(before, s, p)[i] == Lines(after, s, p)[i]
    {
      assert before[..k][i] == after[..k][i];
      assert before[i] in before;
    }
  }

  /** If a further candidate ranks below position k, the first k decisions stay as they were. */
  lemma NewcomerKeepsDecisions(cs: seq<Candidate>, c: Candidate, s: Snapshot, p: Policy, runId: nat, k: nat)
    requires Accepted(cs, s, p, runId) && Accepted(cs + [c], s, p, runId)
    requires k <= Position(Scored(Score(c, p), c), Ranked(Scores(cs, p)))
    ensures k <= |PlanOf(cs, s, p, runId).decisions| && k <= |PlanOf(cs + [c], s, p, runId).decisions|
    ensures PlanOf(cs + [c], s, p, runId).decisions[..k] == PlanOf(cs, s, p, runId).decisions[..k]
  {
    assert Scores(cs + [c], p) == Scores(cs, p) + [Scored(Score(c, p), c)];
    NewcomerKeepsPrefix(Scores(cs, p), Scored(Score(c, p), c), k);
    RankedIsSized(cs, s, p, runId);
    RankedIsSized(cs + [c], s, p, runId);
    var before, after := Ranked(Scores(cs, p)), Ranked(Scores(cs + [c], p));
    LinesOfPrefix(before, after, s, p, k);
    DecisionsOfPrefix(Lines(before, s, p), Opening(s, p), LimitsOf(s, p), k);
    DecisionsOfPrefix(Lines(after, s, p), Opening(s, p), LimitsOf(s, p), k);
  }

  // ----- the variance that the plan reports ----------------------------------------------------------

  /** The positions that got something, with their loading and their correlation. */
  function LoadingsOf(ranked: seq<Scored>, decisions: seq<Decision>, equity: real): seq<Loading>
    requires |decisions| == |ranked| && equity > 0.0
  {
    if ranked == [] then []
    else
      var last := |ranked| - 1;
      var c, d := ranked[last].candidate, decisions[last];
      LoadingsOf(ranked[..last], decisions[..last], equity)
      + if d.granted > 0.0 then [Loading(Times(d.granted / equity, c.volatility), c.correlation)] else []
  }

  lemma {:induction false} LoadingsArePlausible(ranked: seq<Scored>, decisions: seq<Decision>, equity: real)
    requires |decisions| == |ranked| && equity > 0.0
    requires forall k :: 0 <= k < |ranked| ==> ranked[k].candidate.volatility >= 0.0 && Within(ranked[k].candidate.correlation, -1.0, 1.0)
    ensures Plausible(LoadingsOf(ranked, decisions, equity))
  {
    if ranked != [] {
      var last := |ranked| - 1;
      LoadingsArePlausible(ranked[..last], decisions[..last], equity);
      if decisions[last].granted > 0.0 {
        TimesMonotone(decisions[last].granted / equity, 0.0, ranked[last].candidate.volatility);
      }
    }
  }

  /** A position that got something loads the variance with its share of equity times its volatility. */
  lemma {:induction false} GrantsAreLoaded(ranked: seq<Scored>, decisions: seq<Decision>, equity: real, k: nat) returns (i: nat)
    requires |decisions| == |ranked| && equity > 0.0 && k < |ranked| && decisions[k].granted > 0.0
    ensures var loadings := LoadingsOf(ranked, decisions, equity);
      && i < |loadings| && loadings[i].correlation == ranked[k].candidate.correlation
      && Times(loadings[i].weight, equity) == Times(decisions[k].granted, ranked[k].candidate.volatility)
  {
    var last := |ranked| - 1;
    if k == last {
      i := |LoadingsOf(ranked[..last], decisions[..last], equity)|;
      ShareTimesVolatility(decisions[k].granted, equity, ranked[k].candidate.volatility);
    } else {
      i := GrantsAreLoaded(ranked[..last], decisions[..last], equity, k);
    }
  }

  lemma ShareTimesVolatility(granted: real, equity: real, volatility: real)
    requires equity > 0.0
    ensures Times(Times(granted / equity, volatility), equity) == Times(granted, volatility)
  {
    assert (granted / equity) * equity == granted;
  }

  function PlanLoadings(cs: seq<Candidate>, decisions: seq<Decision>, s: Snapshot, p: Policy): seq<Loading>
    requires PolicyAccepted(p) && |decisions| == |Ranked(Scores(cs, p))| && s.equity > 0.0
  {
    LoadingsOf(Ranked(Scores(cs, p)), decisions, s.equity)
  }

  /** The reported variance is an upper bound for every plan and every correlation structure of
      the new positions. */
  lemma PlanVarianceBoundIsSound(cs: seq<Candidate>, s: Snapshot, p: Policy, runId: nat, rho: Correlations)
    requires Accepted(cs, s, p, runId) && IsCorrelation(rho)
    ensures |PlanOf(cs, s, p, runId).decisions| == |Ranked(Scores(cs, p))|
    ensures var loadings := PlanLoadings(cs, PlanOf(cs, s, p, runId).decisions, s, p);
      TrueVariance(s.volatility, loadings, rho) <= VarianceUpper(s.volatility, loadings)
  {
    RankedIsSized(cs, s, p, runId);
    var ranked, decisions := Ranked(Scores(cs, p)), PlanOf(cs, s, p, runId).decisions;
    forall k | 0 <= k < |ranked|
      ensures ranked[k].candidate.volatility >= 0.0 && Within(ranked[k].candidate.correlation, -1.0, 1.0)
    {
      assert ranked[k] in ranked;
      AcceptedRowIsPlausible(ranked[k].candidate, s, runId);
    }
    LoadingsArePlausible(ranked, decisions, s.equity);
    VarianceBoundIsSound(s.volatility, LoadingsOf(ranked, decisions, s.equity), rho);
  }

  lemma AcceptedRowIsPlausible(c: Candidate, s: Snapshot, runId: nat)
    requires RowAccepted(c, s, runId)
    ensures c.volatility >= 0.0 && Within(c.correlation, -1.0, 1.0)
  {
  }

  // ----- the optimizer ------------------------------------------------------------------------------

  method CheckSnapshot(s: Snapshot) returns (ok: bool)
    ensures ok <==> SnapshotAccepted(s)
  {
    var symbols := SumValues(s.symbols);
    var clusters := SumValues(s.clusters);
    var strategyHeat := SumValues(s.strategyHeat);
    ok := s.current
      && s.gross >= 0.0 && s.heat >= 0.0 && s.equity > 0.0 && 0.0 <= s.cash <= s.equity && s.buyingPower >= 0.0
      && s.dailyLossPct >= 0.0 && s.weeklyLossPct >= 0.0 && s.drawdownPct >= 0.0 && Within(s.volatility, 0.0, 10.0)
      && Nonnegative(s.symbols) && Nonnegative(s.clusters) && Nonnegative(s.strategyHeat)
      && s.sleeves.equity >= 0.0 && s.sleeves.crypto >= 0.0 && s.sleeveHeat.equity >= 0.0 && s.sleeveHeat.crypto >= 0.0
      && s.sleevePositions.equity + s.sleevePositions.crypto == s.positions && |NonzeroKeys(s.symbols)| == s.positions
      && symbols == s.gross && clusters == s.gross && s.sleeves.equity + s.sleeves.crypto == s.gross
      && s.sleeveHeat.equity + s.sleeveHeat.crypto == s.heat && strategyHeat == s.heat;
  }

  /** Ranks the candidates, then walks them once, spending the capacities in place. */
  method Optimize(cs: seq<Candidate>, s: Snapshot, p: Policy, runId: nat) returns (r: Result<Plan, AllocationError>)
    ensures r.Ok? <==> Accepted(cs, s, p, runId)
    ensures r.Ok? ==> r.value == PlanOf(cs, s, p, runId)
  {
    var snapshotOk := CheckSnapshot(s);
    if !PolicyAccepted(p) || !snapshotOk || !s.authoritative || !(forall c :: c in cs ==> RowAccepted(c, s, runId)) || !IdentitiesUnique(cs) {
      return Err(AllocationError);
    }
    RankedIsSized(cs, s, p, runId);
    var ranked := Ranked(Scores(cs, p));
    var plan := Walk(Lines(ranked, s, p), Opening(s, p), LimitsOf(s, p));
    r := Ok(plan);
  }

  /** The loop body's bookkeeping (lines 1441-1452), one running total after the other. */
  method Spend(l: Ledger, c: Candidate, amount: real, risk: real) returns (after: Ledger)
    ensures after == Charge(l, c, amount, risk)
  {
    var crypto := IsCrypto(c);
    var cash, gross, heat, positions, planned := l.cash, l.gross, l.heat, l.positions, l.planned;
    var symbols, clusters, strategyHeat := l.symbols, l.clusters, l.strategyHeat;
    var sleeves, sleeveHeat, sleevePositions := l.sleeves, l.sleeveHeat, l.sleevePositions;
    if amount > 0.0 {
      cash := cash - amount;
      gross := gross + amount;
      heat := heat + risk;
      symbols := symbols[c.symbol := Get(symbols, c.symbol) + amount];
      clusters := clusters[c.cluster := Get(clusters, c.cluster) + amount];
      sleeves := sleeves.With(crypto, sleeves.At(crypto) + amount);
      sleeveHeat := sleeveHeat.With(crypto, sleeveHeat.At(crypto) + risk);
      strategyHeat := strategyHeat[c.strategy := Get(strategyHeat, c.strategy) + risk];
      if !c.held && c.symbol !in planned {
        positions := positions + 1;
        sleevePositions := sleevePositions.With(crypto, sleevePositions.At(crypto) + 1);
        planned := planned + {c.symbol};
      }
    }
    after := Ledger(cash, gross, heat, positions, sleevePositions, symbols, clusters, sleeves, sleeveHeat, strategyHeat, planned);
  }

  method TakeNext(lines: seq<Line>, opening: Ledger, m: Limits, n: nat, l: Ledger) returns (d: Decision, after: Ledger)
    requires n < |lines| && forall k :: 0 <= k < |lines| ==> lines[k].candidate.notional > 0.0
    requires l == LedgerAfter(lines[..n], opening, m)
    ensures d == DecisionsFor(lines, opening, m)[n]
    ensures after == LedgerAfter(lines[..n + 1], opening, m)
  {
    var e := lines[n];
    d := Decide(n + 1, e.candidate, l, m, e.risk, e.standing);
    assert d == DecisionAt(lines, opening, m, n);
    LedgerGrows(lines, opening, m, n);
    after := Spend(l, e.candidate, d.granted, d.grantedRisk);
  }

  method Walk(lines: seq<Line>, opening: Ledger, m: Limits) returns (plan: Plan)
    requires forall k :: 0 <= k < |lines| ==> lines[k].candidate.notional > 0.0
    ensures plan == Plan(DecisionsFor(lines, opening, m), LedgerAfter(lines, opening, m))
  {
    var l := opening;
    var decisions: seq<Decision> := [];
    for n := 0 to |lines|
      invariant l == LedgerAfter(lines[..n], opening, m)
      invariant decisions == DecisionsFor(lines, opening, m)[..n]
    {
      var d: Decision;
      d, l := TakeNext(lines, opening, m, n, l);
      TakeOneMore(DecisionsFor(lines, opening, m), n);
      decisions := decisions + [d];
    }
    assert lines[..|lines|] == lines;
    plan := Plan(decisions, l);
  }

  lemma TakeOneMore<T>(xs: seq<T>, n: nat)
    requires n < |xs|
    ensures xs[..n] + [xs[n]] == xs[..n + 1]
  {
  }

  lemma LedgerGrows(lines: seq<Line>, opening: Ledger, m: Limits, n: nat)
    requires n < |lines|
    ensures var l := LedgerAfter(lines[..n], opening, m);
      var t := PostingFor(lines[n], l, m);
      LedgerAfter(lines[..n + 1], opening, m) == Charge(l, t.candidate, t.amount, t.risk)
  {
    assert lines[..n + 1][..n] == lines[..n];
    var front := Postings(lines[..n], opening, m);
    var postings := Postings(lines[..n + 1], opening, m);
    assert postings[..n] == front;
  }
}
