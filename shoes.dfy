/**
 * The card shoe of the game (class Shoe of app/src/main/kotlin/Model.kt): a count
 * per denomination, decremented in place as cards are drawn.
 */
module Shoes {
  import opened Shared
  import opened Wrappers

  /** A fresh shoe holds four of each denomination and sixteen ten-valued cards. */
  function InitialCount(d: Denom): nat
  {
    if d == 'T' then 16 else 4
  }

  /** Sum of the counts of the denominations listed in `ds`. */
  function SumOver(dist: map<Denom, int>, ds: seq<Denom>): int
    requires forall d :: d in ds ==> d in dist
  {
    if ds == [] then 0 else SumOver(dist, ds[..|ds| - 1]) + dist[ds[|ds| - 1]]
  }

  /** Sum of real weights over `ds`. */
  function SumReal(odds: map<Denom, real>, ds: seq<Denom>): real
    requires forall d :: d in ds ==> d in odds
  {
    if ds == [] then 0.0 else SumReal(odds, ds[..|ds| - 1]) + odds[ds[|ds| - 1]]
  }

  predicate Distinct(ds: seq<Denom>)
  {
    forall i, j :: 0 <= i < j < |ds| ==> ds[i] != ds[j]
  }

  /** Changing one count changes the sum by the difference, when the denomination is listed once. */
  lemma {:induction false} SumOverUpdate(dist: map<Denom, int>, ds: seq<Denom>, d: Denom, v: int)
    requires forall e :: e in ds ==> e in dist
    requires d in dist && Distinct(ds)
    ensures SumOver(dist[d := v], ds) == SumOver(dist, ds) + (if d in ds then v - dist[d] else 0)
  {
    if ds != [] {
      var init := ds[..|ds| - 1];
      assert forall e :: e in init ==> e in ds;
      assert d == ds[|ds| - 1] ==> d !in init;
      SumOverUpdate(dist, init, d, v);
      assert d in ds <==> d in init || d == ds[|ds| - 1];
    }
  }

  lemma {:induction false} SumOverNonNegative(dist: map<Denom, int>, ds: seq<Denom>)
    requires forall e :: e in ds ==> e in dist && dist[e] >= 0
    ensures SumOver(dist, ds) >= 0
  {
    if ds != [] {
      var init := ds[..|ds| - 1];
      assert forall e :: e in init ==> e in ds;
      SumOverNonNegative(dist, init);
    }
  }

  /** A positive sum of non-negative counts has a positive count. */
  lemma {:induction false} PositiveCount(dist: map<Denom, int>, ds: seq<Denom>) returns (d: Denom)
    requires forall e :: e in ds ==> e in dist && dist[e] >= 0
    requires SumOver(dist, ds) > 0
    ensures d in ds && dist[d] > 0
  {
    var init := ds[..|ds| - 1];
    if dist[ds[|ds| - 1]] > 0 {
      d := ds[|ds| - 1];
    } else {
      assert forall e :: e in init ==> e in ds;
      d := PositiveCount(dist, init);
    }
  }

  /** Each weight divided by the total sum gives the sum divided by the total. */
  lemma {:induction false} SumRealScaled(dist: map<Denom, int>, odds: map<Denom, real>, ds: seq<Denom>, total: real)
    requires total > 0.0
    requires forall e :: e in ds ==> e in dist && e in odds && odds[e] == dist[e] as real / total
    ensures SumReal(odds, ds) == SumOver(dist, ds) as real / total
  {
    if ds != [] {
      var init := ds[..|ds| - 1];
      var last := ds[|ds| - 1];
      assert forall e :: e in init ==> e in ds;
      SumRealScaled(dist, odds, init, total);
      DivAdd(SumOver(dist, init) as real, dist[last] as real, total);
    }
  }

  /** Weights that are counts over their own total add up to one. */
  lemma ScaledSumIsOne(dist: map<Denom, int>, odds: map<Denom, real>, ds: seq<Denom>, total: real)
    requires total > 0.0
    requires forall e :: e in ds ==> e in dist && e in odds && odds[e] == dist[e] as real / total
    requires SumOver(dist, ds) as real == total
    ensures SumReal(odds, ds) == 1.0
  {
    SumRealScaled(dist, odds, ds, total);
    DivSelf(total);
  }

  lemma DivSelf(t: real)
    requires t > 0.0
    ensures t / t == 1.0
  {
  }

  lemma DivAdd(a: real, b: real, t: real)
    requires t > 0.0
    ensures a / t + b / t == (a + b) / t
  {
  }

  /** The counts of a fresh shoe add up to four per denomination plus twelve more for T. */
  lemma {:induction false} SumInitial(dist: map<Denom, int>, ds: seq<Denom>)
    requires forall d :: d in ds ==> d in dist && dist[d] == InitialCount(d)
    requires Distinct(ds)
    ensures SumOver(dist, ds) == 4 * |ds| + (if 'T' in ds then 12 else 0)
  {
    if ds != [] {
      var init := ds[..|ds| - 1];
      assert forall e :: e in init ==> e in ds;
      SumInitial(dist, init);
      assert 'T' in ds <==> 'T' in init || ds[|ds| - 1] == 'T';
      assert ds[|ds| - 1] == 'T' ==> 'T' !in init;
    }
  }

  /** Taking one card of a denomination that has one keeps the counts non-negative and lowers the total by one. */
  lemma Decrement(dist: map<Denom, int>, d: Denom, next: map<Denom, int>)
    requires forall e: Denom :: e in dist && dist[e] >= 0
    requires dist[d] > 0 && next == dist[d := dist[d] - 1]
    ensures forall e: Denom :: e in next && next[e] >= 0
    ensures SumOver(next, AllDenoms) == SumOver(dist, AllDenoms) - 1
  {
    AllDenomsFacts();
    SumOverUpdate(dist, AllDenoms, d, dist[d] - 1);
  }

  class Shoe {
    var distribution: map<Denom, int>

    ghost predicate Valid()
      reads this
    {
      forall d: Denom :: d in distribution && distribution[d] >= 0
    }

    /** Number of cards left. */
    function Total(): int
      reads this
      requires Valid()
    {
      SumOver(distribution, AllDenoms)
    }

    constructor ()
      ensures Valid()
      ensures forall d: Denom :: distribution[d] == InitialCount(d)
      ensures Total() == 52 && !Finished()
    {
      AllDenomsFacts();
      var counts := map d | d in AllDenoms :: InitialCount(d);
      SumInitial(counts, AllDenoms);
      distribution := counts;
    }

    /** The shoe is finished when fewer than ten cards remain. */
    predicate Finished()
      reads this
      requires Valid()
    {
      Total() < 10
    }

    /**
     * drawCard(): the random choice is left open; the drawn card is any
     * denomination with a card left, and exactly its count drops by one. An
     * empty shoe is the "Ran out of cards" failure. A random value of exactly
     * 0.0 would make the source take A even with no A left; that draw is
     * excluded here, so counts stay non-negative.
     */
    method DrawCard() returns (r: Option<Card>)
      requires Valid()
      modifies this
      ensures Valid()
      ensures r.None? <==> old(Total()) == 0
      ensures r.None? ==> distribution == old(distribution)
      ensures r.Some? ==> old(distribution)[r.value.denom] > 0 &&
                          distribution == old(distribution)[r.value.denom := old(distribution)[r.value.denom] - 1]
      ensures r.Some? ==> Total() == old(Total()) - 1
    {
      if Total() == 0 {
        return None;
      }
      SumOverNonNegative(distribution, AllDenoms);
      ghost var positive := PositiveCount(distribution, AllDenoms);
      var d: Denom :| d in AllDenoms && distribution[d] > 0;
      var next := distribution[d := distribution[d] - 1];
      Decrement(distribution, d, next);
      distribution := next;
      r := Some(Card(d));
    }

    /** odds(), used by the calculator: the count of each denomination over the total. */
    function Odds(): (odds: map<Denom, real>)
      reads this
      requires Valid() && Total() > 0
      ensures forall d: Denom :: d in odds && 0.0 <= odds[d] && odds[d] == distribution[d] as real / Total() as real
    {
      map d: Denom | d in AllDenoms :: distribution[d] as real / Total() as real
    }

    /** The probabilities add up to one. */
    lemma OddsSumToOne()
      requires Valid() && Total() > 0
      ensures SumReal(Odds(), AllDenoms) == 1.0
    {
      ScaledSumIsOne(distribution, Odds(), AllDenoms, Total() as real);
    }
  }
}
