/**
The ranking of app/cross_asset_allocation.py: `scored.sort(key=lambda item: (-item[0], item[1]))`.
With distinct candidate ids the order is strict, so the ranked list depends on the candidates and
not on the order they arrive in.
*/
module AllocationRanking {
  import opened AllocationModel
  import Arrangement

  datatype Scored = Scored(score: real, candidate: Candidate)

  predicate Ahead(a: Scored, b: Scored) {
    a.score > b.score || (a.score == b.score && a.candidate.id < b.candidate.id)
  }

  predicate DistinctIds(xs: seq<Scored>) {
    forall i, j :: 0 <= i < j < |xs| ==> xs[i].candidate.id != xs[j].candidate.id
  }

  function Ranked(xs: seq<Scored>): seq<Scored> {
    Arrangement.Arranged(xs, Ahead)
  }

  /** How many of the ranked entries stay in front of x. */
  function Position(x: Scored, ranked: seq<Scored>): nat {
    Arrangement.Position(x, ranked, Ahead)
  }

  lemma AheadIsAnOrder()
    ensures Arrangement.StrictWeakOrder(Ahead)
  {
  }

  lemma DistinctIdsLeaveNoTies(xs: seq<Scored>)
    requires DistinctIds(xs)
    ensures Arrangement.NoTies(xs, Ahead)
  {
  }

  /** Better scores come first, equal scores in the order of their ids, and nobody is lost. */
  lemma RankingIsSortedPermutation(xs: seq<Scored>)
    requires DistinctIds(xs)
    ensures Arrangement.Strictly(Ranked(xs), Ahead) && multiset(Ranked(xs)) == multiset(xs)
  {
    AheadIsAnOrder();
    DistinctIdsLeaveNoTies(xs);
    Arrangement.ArrangedIsSortedPermutation(xs, Ahead);
    Arrangement.ArrangedWithoutTies(xs, Ahead);
  }

  lemma RankingIgnoresArrivalOrder(xs: seq<Scored>, ys: seq<Scored>)
    requires DistinctIds(xs) && multiset(xs) == multiset(ys)
    ensures Ranked(xs) == Ranked(ys)
  {
    AheadIsAnOrder();
    DistinctIdsLeaveNoTies(xs);
    Arrangement.ArrangementIgnoresArrivalOrder(xs, ys, Ahead);
  }

  lemma DistinctIdsOfPermutation(xs: seq<Scored>, ys: seq<Scored>)
    requires DistinctIds(xs) && multiset(xs) == multiset(ys)
    ensures DistinctIds(ys)
  {
    forall i, j | 0 <= i < j < |ys|
      ensures ys[i].candidate.id != ys[j].candidate.id
    {
      if ys[i] == ys[j] {
        AheadIsAnOrder();
        DistinctIdsLeaveNoTies(xs);
        Arrangement.TwiceInSequence(ys, i, j);
        Arrangement.OnceWithoutTies(xs, ys[i], Ahead);
      } else {
        assert ys[i] in multiset(xs) && ys[j] in multiset(xs);
        assert ys[i] in xs && ys[j] in xs;
      }
    }
  }

  /** A newcomer moves nobody who is ahead of it. */
  lemma NewcomerKeepsPrefix(xs: seq<Scored>, x: Scored, k: nat)
    requires k <= Position(x, Ranked(xs))
    ensures k <= |Ranked(xs + [x])| && Ranked(xs + [x])[..k] == Ranked(xs)[..k]
  {
    Arrangement.NewcomerKeepsPrefix(xs, x, Ahead, k);
  }
}
