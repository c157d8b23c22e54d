/**
 * The equation builders of app/src/main/kotlin/Calculator.kt: computeStand,
 * computeHit, computeSoftHit, computeDouble, computeSoftDouble, computeSplit and
 * computeSplitSoft. Each builds the expected payoff of one decision, for a player
 * total against a dealer up-card, as an expression over the variables p_<card>
 * (the chance of drawing that card) and est/ehi/edo/esp of other cells.
 *
 * Each builder is a method that appends one summand per card in a loop, proved
 * equal to a function that states the equation; lemmas about those functions
 * state which variables each equation mentions.
 */
module Equations {
  import opened Shared
  import opened Expressions
  import opened Keys
  import opened Hands
  import opened Dealer

  type Equation = Expr<VarKey>

  /** `variables["p_$d"] as Expression`. */
  function PVar(d: Denom): Equation { Variable(P(d)) }

  /** `variables["<kind>_<s?><total>_<up>"] as Expression`. */
  function EVar(kind: Kind, soft: bool, total: int, up: Denom): Equation { Variable(E(kind, Cell(soft, total, up))) }

  // ===========================================================================
  // computeStand

  /** `key.toCharArray().map { variables["p_$it"] }`. */
  function KeyVars(key: seq<Denom>): (ts: seq<Equation>)
    ensures |ts| == |key| && forall i :: 0 <= i < |key| ==> ts[i] == PVar(key[i])
  {
    seq(|key|, i requires 0 <= i < |key| => PVar(key[i]))
  }

  /** One summand of the stand equation: the tally weight times the product of the drawn cards' chances. */
  function StandTerm(entry: (seq<Denom>, int)): Equation
  {
    Times(Constant(entry.1 as real), Product(KeyVars(entry.0)))
  }

  /** The tally standBfs fills from the up-card alone, skipping A under a T and T under an A at the first draw. */
  function StandTally(p: int, up: Denom): Tally
  {
    Explore(HandState([Card(up)], false), p, [], up == 'T', up == 'A').0
  }

  function StandTerms(t: Tally): (ts: seq<Equation>)
    ensures |ts| == |t| && forall i :: 0 <= i < |t| ==> ts[i] == StandTerm(t[i])
  {
    seq(|t|, i requires 0 <= i < |t| => StandTerm(t[i]))
  }

  /**
   * The stand equation: the sum over the tally, divided by (1 - p_A) under a T
   * up-card and by (1 - p_T) under an A, because the dealer is known not to hold a
   * blackjack there.
   */
  function StandEquation(p: int, up: Denom): Equation
  {
    var sum := Sum(StandTerms(StandTally(p, up)));
    var e := if up == 'T' then Over(sum, Minus(Constant(1.0), PVar('A'))) else sum;
    if up == 'A' then Over(e, Minus(Constant(1.0), PVar('T'))) else e
  }

  method ComputeStand(p: int, up: Card) returns (e: Equation)
    ensures e == StandEquation(p, up.denom)
  {
    var hand := new Hand(-1);
    hand.AddCard(up);
    var skipA := up.denom == 'T';
    var skipT := up.denom == 'A';
    var wrapper := StandBfs(hand, p, [], skipA, skipT);
    e := SumTally(wrapper);
    if skipA {
      e := Over(e, Minus(Constant(1.0), PVar('A')));
    }
    if skipT {
      e := Over(e, Minus(Constant(1.0), PVar('T')));
    }
  }

  /** The `for ((key, value) in wrapper)` loop of computeStand, in the tally's insertion order. */
  method SumTally(wrapper: Tally) returns (e: Equation)
    ensures e == Sum(StandTerms(wrapper))
  {
    var summands: seq<Equation> := [];
    for i := 0 to |wrapper|
      invariant |summands| == i && forall j :: 0 <= j < i ==> summands[j] == StandTerm(wrapper[j])
    {
      var (key, value) := wrapper[i];
      summands := summands + [Times(Constant(value as real), Product(KeyVars(key)))];
    }
    e := Sum(summands);
  }

  lemma {:induction false} StandTermsOnlyOdds(t: Tally)
    ensures forall k :: k in VarsOfTerms(StandTerms(t)) ==> k.P?
  {
    var ts := StandTerms(t);
    forall k: VarKey | k in VarsOfTerms(ts)
      ensures k.P?
    {
      var i := VarsOfTermsIn(ts, k);
      var j := VarsOfTermsIn(KeyVars(t[i].0), k);
    }
  }

  /**
   * The stand equation mentions only the p_ variables. Its tally has one entry
   * per distinct key; every key is sorted and non-empty (the up-card alone always
   * draws), so no Product of the equation is empty.
   */
  lemma StandOnlyOdds(p: int, up: Denom)
    ensures forall k :: k in Vars(StandEquation(p, up)) ==> k.P?
  {
    StandTermsOnlyOdds(StandTally(p, up));
  }

  lemma StandKeys(p: int, up: Denom)
    ensures var t := StandTally(p, up);
            DistinctKeys(t) && forall i :: 0 <= i < |t| ==> SortedKey(t[i].0) && |t[i].0| >= 1
  {
    var s := HandState([Card(up)], false);
    var r := Explore(s, p, [], up == 'T', up == 'A');
    UpCardDraws(Card(up), false, p, [], up == 'T', up == 'A');
    assert NewKeysFrom([], r.0, [], 1);
  }

  /**
   * The A/T exclusion is applied at the first draw only: under a T the up-card's
   * draws are every card but A, under an A every card but T, and the equation is
   * divided by the chance that the hole card is not the excluded one.
   */
  lemma StandSkips(p: int, up: Denom)
    ensures var root := ValueOf(HandState([Card(up)], false)).1;
            StandTally(p, up) == ExploreDraws(root, p, [], DrawOrder(up == 'T', up == 'A')).0
    ensures up == 'T' ==> StandEquation(p, up) == Over(Sum(StandTerms(StandTally(p, up))), Minus(Constant(1.0), PVar('A')))
    ensures up == 'A' ==> StandEquation(p, up) == Over(Sum(StandTerms(StandTally(p, up))), Minus(Constant(1.0), PVar('T')))
    ensures up != 'T' && up != 'A' ==> StandEquation(p, up) == Sum(StandTerms(StandTally(p, up)))
  {
    UpCardDraws(Card(up), false, p, [], up == 'T', up == 'A');
  }

  // ===========================================================================
  // computeHit

  /** An ehi variable at a strictly higher total; a soft one only for an Ace counted as 11. */
  predicate HitRef(k: VarKey, p: int, up: Denom)
  {
    k.E? && k.kind == Ehi && k.cell.dealer == up && p < k.cell.total <= 21 &&
    (k.cell.soft ==> k.cell.total == p + 11)
  }

  function HitTerm(p: int, up: Denom, d: Denom): (t: Equation)
    requires 2 <= p <= 21
    ensures P(d) in Vars(t)
    ensures forall k :: k in Vars(t) ==> k == P(d) || HitRef(k, p, up)
    ensures t == Times(Constant(-1.0), PVar(d)) <==> p + CardValue(Card(d), true) > 21 && (d != 'A' || p == 21)
  {
    var n := p + CardValue(Card(d), true);
    if d == 'A' then
      if n == 21 + 11 then Times(Constant(-1.0), PVar(d))
      else if n > 21 then Times(PVar(d), EVar(Ehi, false, n - 10, up))
      else Times(PVar(d), EVar(Ehi, true, n, up))
    else if n > 21 then Times(Constant(-1.0), PVar(d))
    else Times(PVar(d), EVar(Ehi, false, n, up))
  }

  function HitTerms(p: int, up: Denom): (ts: seq<Equation>)
    requires 2 <= p <= 21
    ensures |ts| == |AllDenoms| && forall i :: 0 <= i < |ts| ==> ts[i] == HitTerm(p, up, AllDenoms[i])
  {
    seq(|AllDenoms|, i requires 0 <= i < |AllDenoms| => HitTerm(p, up, AllDenoms[i]))
  }

  /** The hit equation of a hard total: one summand per card. */
  function HitEquation(p: int, up: Denom): Equation
    requires 2 <= p <= 21
  {
    Sum(HitTerms(p, up))
  }

  method ComputeHit(p: int, up: Card) returns (e: Equation)
    requires 2 <= p <= 21
    ensures e == HitEquation(p, up.denom)
  {
    AllCardsFacts();
    var summands: seq<Equation> := [];
    for i := 0 to |AllCards|
      invariant |summands| == i && forall j :: 0 <= j < i ==> summands[j] == HitTerm(p, up.denom, AllDenoms[j])
    {
      var card := AllCards[i];
      var newShowing := p + CardValue(card, true);
      var summand;
      if card.denom == 'A' {
        if newShowing == 21 + 11 {
          summand := Times(Constant(-1.0), PVar(card.denom));
        } else if newShowing > 21 {
          summand := Times(PVar(card.denom), EVar(Ehi, false, newShowing - 10, up.denom));
        } else {
          summand := Times(PVar(card.denom), EVar(Ehi, true, newShowing, up.denom));
        }
      } else {
        if newShowing > 21 {
          summand := Times(Constant(-1.0), PVar(card.denom));
        } else {
          summand := Times(PVar(card.denom), EVar(Ehi, false, newShowing, up.denom));
        }
      }
      assert summand == HitTerm(p, up.denom, AllDenoms[i]);
      summands := summands + [summand];
    }
    e := Sum(summands);
  }

  // ===========================================================================
  // computeSoftHit

  /** An ehi variable at a higher soft total, or at a hard total of 12 or more. */
  predicate SoftHitRef(k: VarKey, p: int, up: Denom)
  {
    k.E? && k.kind == Ehi && k.cell.dealer == up &&
    ((k.cell.soft && p < k.cell.total <= 21) || (!k.cell.soft && 12 <= k.cell.total <= 21))
  }

  function SoftHitTerm(p: int, up: Denom, d: Denom): (t: Equation)
    requires 12 <= p <= 21
    ensures P(d) in Vars(t)
    ensures forall k :: k in Vars(t) ==> k == P(d) || SoftHitRef(k, p, up)
    ensures exists k :: k in Vars(t) && SoftHitRef(k, p, up)
  {
    var n := p + CardValue(Card(d), false);
    if n > 21 then
      var t := Times(PVar(d), EVar(Ehi, false, n - 10, up));
      assert E(Ehi, Cell(false, n - 10, up)) in Vars(t);
      t
    else
      var t := Times(PVar(d), EVar(Ehi, true, n, up));
      assert E(Ehi, Cell(true, n, up)) in Vars(t);
      t
  }

  function SoftHitTerms(p: int, up: Denom): (ts: seq<Equation>)
    requires 12 <= p <= 21
    ensures |ts| == |AllDenoms| && forall i :: 0 <= i < |ts| ==> ts[i] == SoftHitTerm(p, up, AllDenoms[i])
  {
    seq(|AllDenoms|, i requires 0 <= i < |AllDenoms| => SoftHitTerm(p, up, AllDenoms[i]))
  }

  /** The hit equation of a soft total: a soft hand never busts on one card. */
  function SoftHitEquation(p: int, up: Denom): Equation
    requires 12 <= p <= 21
  {
    Sum(SoftHitTerms(p, up))
  }

  method ComputeSoftHit(p: int, up: Card) returns (e: Equation)
    requires 12 <= p <= 21
    ensures e == SoftHitEquation(p, up.denom)
  {
    AllCardsFacts();
    var summands: seq<Equation> := [];
    for i := 0 to |AllCards|
      invariant |summands| == i && forall j :: 0 <= j < i ==> summands[j] == SoftHitTerm(p, up.denom, AllDenoms[j])
    {
      var card := AllCards[i];
      var newShowing := p + CardValue(card, false);
      var summand;
      if newShowing > 21 {
        summand := Times(PVar(card.denom), EVar(Ehi, false, newShowing - 10, up.denom));
      } else {
        summand := Times(PVar(card.denom), EVar(Ehi, true, newShowing, up.denom));
      }
      assert summand == SoftHitTerm(p, up.denom, AllDenoms[i]);
      summands := summands + [summand];
    }
    e := Sum(summands);
  }

  // ===========================================================================
  // computeDouble

  /** A hard est variable at a strictly higher total. */
  predicate DoubleRef(k: VarKey, p: int, up: Denom)
  {
    k.E? && k.kind == Est && k.cell.dealer == up && !k.cell.soft && p < k.cell.total <= 21
  }

  function DoubleTerm(p: int, up: Denom, d: Denom): (t: Equation)
    requires 2 <= p <= 21
    ensures P(d) in Vars(t)
    ensures forall k :: k in Vars(t) ==> k == P(d) || DoubleRef(k, p, up)
    ensures t == Times(Constant(-2.0), PVar(d)) <==> p + CardValue(Card(d), false) > 21 || (d != 'A' && p + CardValue(Card(d), true) > 21)
    ensures d == 'A' && p <= 10 ==> E(Est, Cell(false, p + 11, up)) in Vars(t)
    ensures d == 'A' && 11 <= p <= 20 ==> E(Est, Cell(false, p + 1, up)) in Vars(t)
  {
    var n := p + CardValue(Card(d), true);
    var n' := if n > 21 && d == 'A' then n - 10 else n;
    if n' > 21 then Times(Constant(-2.0), PVar(d))
    else
      var t := Times(Times(Constant(2.0), PVar(d)), EVar(Est, false, n', up));
      assert Vars(t) == {P(d), E(Est, Cell(false, n', up))};
      t
  }

  function DoubleTerms(p: int, up: Denom): (ts: seq<Equation>)
    requires 2 <= p <= 21
    ensures |ts| == |AllDenoms| && forall i :: 0 <= i < |ts| ==> ts[i] == DoubleTerm(p, up, AllDenoms[i])
  {
    seq(|AllDenoms|, i requires 0 <= i < |AllDenoms| => DoubleTerm(p, up, AllDenoms[i]))
  }

  /** Doubling a hard total: twice the stand payoff after exactly one more card. */
  function DoubleEquation(p: int, up: Denom): Equation
    requires 2 <= p <= 21
  {
    Sum(DoubleTerms(p, up))
  }

  method ComputeDouble(p: int, up: Card) returns (e: Equation)
    requires 2 <= p <= 21
    ensures e == DoubleEquation(p, up.denom)
  {
    AllCardsFacts();
    var summands: seq<Equation> := [];
    for i := 0 to |AllCards|
      invariant |summands| == i && forall j :: 0 <= j < i ==> summands[j] == DoubleTerm(p, up.denom, AllDenoms[j])
    {
      var card := AllCards[i];
      var newShowing := p + CardValue(card, true);
      if newShowing > 21 && card.denom == 'A' {
        newShowing := newShowing - 10;
      }
      var summand;
      if newShowing > 21 {
        summand := Times(Constant(-2.0), PVar(card.denom));
      } else {
        summand := Times(Times(Constant(2.0), PVar(card.denom)), EVar(Est, false, newShowing, up.denom));
      }
      assert summand == DoubleTerm(p, up.denom, AllDenoms[i]);
      summands := summands + [summand];
    }
    e := Sum(summands);
  }

  // ===========================================================================
  // computeSoftDouble

  /** An est variable at a higher soft total, or at a hard total of 12 or more. */
  predicate SoftDoubleRef(k: VarKey, p: int, up: Denom)
  {
    k.E? && k.kind == Est && k.cell.dealer == up &&
    ((k.cell.soft && p < k.cell.total <= 21) || (!k.cell.soft && 12 <= k.cell.total <= 21))
  }

  function SoftDoubleTerm(p: int, up: Denom, d: Denom): (t: Equation)
    requires 12 <= p <= 21
    ensures P(d) in Vars(t)
    ensures forall k :: k in Vars(t) ==> k == P(d) || SoftDoubleRef(k, p, up)
  {
    var n := p + CardValue(Card(d), false);
    if n > 21 then
      var t := Times(Times(Constant(2.0), PVar(d)), EVar(Est, false, n - 10, up));
      assert Vars(t) == {P(d), E(Est, Cell(false, n - 10, up))};
      t
    else
      var t := Times(Times(Constant(2.0), PVar(d)), EVar(Est, true, n, up));
      assert Vars(Times(Constant(2.0), PVar(d))) == {P(d)};
      assert Vars(t) == {P(d), E(Est, Cell(true, n, up))};
      t
  }

  function SoftDoubleTerms(p: int, up: Denom): (ts: seq<Equation>)
    requires 12 <= p <= 21
    ensures |ts| == |AllDenoms| && forall i :: 0 <= i < |ts| ==> ts[i] == SoftDoubleTerm(p, up, AllDenoms[i])
  {
    seq(|AllDenoms|, i requires 0 <= i < |AllDenoms| => SoftDoubleTerm(p, up, AllDenoms[i]))
  }

  function SoftDoubleEquation(p: int, up: Denom): Equation
    requires 12 <= p <= 21
  {
    Sum(SoftDoubleTerms(p, up))
  }

  method ComputeSoftDouble(p: int, up: Card) returns (e: Equation)
    requires 12 <= p <= 21
    ensures e == SoftDoubleEquation(p, up.denom)
  {
    AllCardsFacts();
    var summands: seq<Equation> := [];
    for i := 0 to |AllCards|
      invariant |summands| == i && forall j :: 0 <= j < i ==> summands[j] == SoftDoubleTerm(p, up.denom, AllDenoms[j])
    {
      var card := AllCards[i];
      var newShowing := p + CardValue(card, false);
      var summand;
      if newShowing > 21 {
        summand := Times(Times(Constant(2.0), PVar(card.denom)), EVar(Est, false, newShowing - 10, up.denom));
      } else {
        summand := Times(Times(Constant(2.0), PVar(card.denom)), EVar(Est, true, newShowing, up.denom));
      }
      assert summand == SoftDoubleTerm(p, up.denom, AllDenoms[i]);
      summands := summands + [summand];
    }
    e := Sum(summands);
  }

  // ===========================================================================
  // computeSplit and computeSplitSoft

  /** An ehi variable of a cell the main phase of evaluateShoe fills. */
  predicate SplitRef(k: VarKey, up: Denom)
  {
    k.E? && k.kind == Ehi && k.cell.dealer == up &&
    ((k.cell.soft && 13 <= k.cell.total <= 21) || (!k.cell.soft && 3 <= k.cell.total <= 20))
  }

  function SplitTerm(half: int, up: Denom, d: Denom): Equation
  {
    var n := half + CardValue(Card(d), true);
    if d == 'A' then Times(PVar('A'), EVar(Ehi, true, n, up))
    else Times(PVar(d), EVar(Ehi, false, n, up))
  }

  lemma VarsOfTermsAppend<V>(ts: seq<Expr<V>>, t: Expr<V>)
    ensures VarsOfTerms(ts + [t]) == VarsOfTerms(ts) + Vars(t)
  {
    assert (ts + [t])[..|ts|] == ts;
  }

  lemma SplitTermVars(half: int, up: Denom, d: Denom)
    requires 1 <= half <= 10 && CardValue(Card(d), false) != half
    ensures Vars(SplitTerm(half, up, d)) == {P(d), E(Ehi, Cell(d == 'A', half + CardValue(Card(d), true), up))}
    ensures SplitRef(E(Ehi, Cell(d == 'A', half + CardValue(Card(d), true), up)), up)
  {
  }

  /** The summands for the cards in `ds` whose value differs from the pair card's value `half`. */
  function SplitTerms(half: int, up: Denom, ds: seq<Denom>): seq<Equation>
  {
    if ds == [] then []
    else
      var init := SplitTerms(half, up, ds[..|ds| - 1]);
      var d := ds[|ds| - 1];
      if CardValue(Card(d), false) != half then init + [SplitTerm(half, up, d)] else init
  }

  lemma SplitTermsSnoc(half: int, up: Denom, ds: seq<Denom>, d: Denom)
    ensures SplitTerms(half, up, ds + [d]) ==
            if CardValue(Card(d), false) != half then SplitTerms(half, up, ds) + [SplitTerm(half, up, d)]
            else SplitTerms(half, up, ds)
  {
    assert (ds + [d])[..|ds|] == ds;
  }

  /** Exactly the cards whose value differs from `half` have a summand, and each refers to a filled ehi. */
  lemma {:induction false} SplitTermsVars(half: int, up: Denom, ds: seq<Denom>)
    requires 1 <= half <= 10
    ensures forall d :: P(d) in VarsOfTerms(SplitTerms(half, up, ds)) <==> d in ds && CardValue(Card(d), false) != half
    ensures forall k :: k in VarsOfTerms(SplitTerms(half, up, ds)) ==> k.P? || SplitRef(k, up)
  {
    if ds != [] {
      var init := SplitTerms(half, up, ds[..|ds| - 1]);
      var d := ds[|ds| - 1];
      SplitTermsVars(half, up, ds[..|ds| - 1]);
      assert forall e :: e in ds <==> e in ds[..|ds| - 1] || e == d;
      if CardValue(Card(d), false) != half {
        VarsOfTermsAppend(init, SplitTerm(half, up, d));
        SplitTermVars(half, up, d);
      }
    }
  }

  /** The pair card of an even total: T for 20, A for 2, otherwise the digit p / 2. */
  function HalfDenom(p: int): (d: Denom)
    requires 2 <= p <= 20 && p % 2 == 0
    ensures CardValue(Card(d), false) == p / 2
  {
    if p == 20 then 'T'
    else if p == 2 then 'A'
    else
      var d := AllDenoms[p / 2 - 1];
      assert CardValue(Card(d), false) == p / 2 by {
        assert 2 <= p / 2 <= 9;
        if p / 2 == 2 { assert d == '2'; } else if p / 2 == 3 { assert d == '3'; }
        else if p / 2 == 4 { assert d == '4'; } else if p / 2 == 5 { assert d == '5'; }
        else if p / 2 == 6 { assert d == '6'; } else if p / 2 == 7 { assert d == '7'; }
        else if p / 2 == 8 { assert d == '8'; } else { assert d == '9'; }
      }
      d
  }

  /** Splitting a pair: Constant(0) for an odd total, otherwise the split payoff. */
  function SplitEquation(p: int, up: Denom): Equation
    requires 2 <= p <= 21
  {
    if p % 2 != 0 then Constant(0.0)
    else Over(Times(Sum(SplitTerms(p / 2, up, AllDenoms)), Constant(2.0)), Minus(Constant(1.0), PVar(HalfDenom(p))))
  }

  method ComputeSplit(p: int, up: Card) returns (e: Equation)
    requires 2 <= p <= 21
    ensures e == SplitEquation(p, up.denom)
  {
    if p % 2 != 0 {
      return Constant(0.0);
    }
    var halfCardValue := p / 2;
    var summands := SplitSummands(halfCardValue, up);
    var halfVariable := HalfDenom(p);
    e := Over(Times(Sum(summands), Constant(2.0)), Minus(Constant(1.0), PVar(halfVariable)));
  }

  /** The loop of computeSplit: one summand per card whose value is not the pair card's value. */
  method SplitSummands(halfCardValue: int, up: Card) returns (summands: seq<Equation>)
    ensures summands == SplitTerms(halfCardValue, up.denom, AllDenoms)
  {
    summands := [];
    AllCardsFacts();
    for i := 0 to |AllCards|
      invariant summands == SplitTerms(halfCardValue, up.denom, AllDenoms[..i])
    {
      var card := AllCards[i];
      assert AllDenoms[..i + 1] == AllDenoms[..i] + [card.denom];
      SplitTermsSnoc(halfCardValue, up.denom, AllDenoms[..i], card.denom);
      if CardValue(card, false) != halfCardValue {
        var newShowing := halfCardValue + CardValue(card, true);
        var summand;
        if card.denom == 'A' {
          summand := Times(PVar('A'), EVar(Ehi, true, newShowing, up.denom));
        } else {
          summand := Times(PVar(card.denom), EVar(Ehi, false, newShowing, up.denom));
        }
        assert summand == SplitTerm(halfCardValue, up.denom, card.denom);
        summands := summands + [summand];
      }
    }
    assert AllDenoms[..|AllCards|] == AllDenoms;
  }

  /** The summand of card d when a split ace draws it: soft 11 plus the card. */
  function SoftSplitTerm(up: Denom, d: Denom): Equation
  {
    Times(PVar(d), EVar(Ehi, true, 11 + CardValue(Card(d), false), up))
  }

  lemma SoftSplitTermVars(up: Denom, d: Denom)
    requires d != 'A'
    ensures Vars(SoftSplitTerm(up, d)) == {P(d), E(Ehi, Cell(true, 11 + CardValue(Card(d), false), up))}
    ensures SplitRef(E(Ehi, Cell(true, 11 + CardValue(Card(d), false), up)), up)
  {
  }

  /** The summands of a soft split: every card but the Ace, from soft 11. */
  function SoftSplitTerms(up: Denom, ds: seq<Denom>): seq<Equation>
  {
    if ds == [] then []
    else
      var init := SoftSplitTerms(up, ds[..|ds| - 1]);
      var d := ds[|ds| - 1];
      if d != 'A' then init + [SoftSplitTerm(up, d)] else init
  }

  lemma SoftSplitTermsSnoc(up: Denom, ds: seq<Denom>, d: Denom)
    ensures SoftSplitTerms(up, ds + [d]) == if d != 'A' then SoftSplitTerms(up, ds) + [SoftSplitTerm(up, d)] else SoftSplitTerms(up, ds)
  {
    assert (ds + [d])[..|ds|] == ds;
  }

  lemma {:induction false} SoftSplitTermsVars(up: Denom, ds: seq<Denom>)
    ensures forall d :: P(d) in VarsOfTerms(SoftSplitTerms(up, ds)) <==> d in ds && d != 'A'
    ensures forall k :: k in VarsOfTerms(SoftSplitTerms(up, ds)) ==> k.P? || SplitRef(k, up)
  {
    if ds != [] {
      var pre := ds[..|ds| - 1];
      var init := SoftSplitTerms(up, pre);
      var d := ds[|ds| - 1];
      SoftSplitTermsVars(up, pre);
      assert forall e :: e in ds <==> e in pre || e == d;
      if d != 'A' {
        VarsOfTermsAppend(init, SoftSplitTerm(up, d));
        SoftSplitTermVars(up, d);
      }
    }
  }

  /** Splitting aces (soft 12): Constant(0) for every other total. */
  function SplitSoftEquation(p: int, up: Denom): Equation
  {
    if p != 12 then Constant(0.0)
    else Over(Times(Sum(SoftSplitTerms(up, AllDenoms)), Constant(2.0)), Minus(Constant(1.0), PVar('A')))
  }

  method ComputeSplitSoft(p: int, up: Card) returns (e: Equation)
    ensures e == SplitSoftEquation(p, up.denom)
  {
    if p != 12 {
      return Constant(0.0);
    }
    var summands: seq<Equation> := [];
    AllCardsFacts();
    for i := 0 to |AllCards|
      invariant summands == SoftSplitTerms(up.denom, AllDenoms[..i])
    {
      var card := AllCards[i];
      assert AllDenoms[..i + 1] == AllDenoms[..i] + [card.denom];
      SoftSplitTermsSnoc(up.denom, AllDenoms[..i], card.denom);
      if card.denom != 'A' {
        var newShowing := 11 + CardValue(card, false);
        var summand := Times(PVar(card.denom), EVar(Ehi, true, newShowing, up.denom));
        assert summand == SoftSplitTerm(up.denom, card.denom);
        summands := summands + [summand];
      }
    }
    assert AllDenoms[..|AllCards|] == AllDenoms;
    e := Over(Times(Sum(summands), Constant(2.0)), Minus(Constant(1.0), PVar('A')));
  }

  /**
   * A pair of even total p: the pair card's own summand is left out, every other
   * card has one, the sum is doubled and divided by (1 - p of the pair card).
   */
  lemma SplitShape(p: int, up: Denom)
    requires 2 <= p <= 21
    ensures p % 2 != 0 ==> SplitEquation(p, up) == Constant(0.0)
    ensures p % 2 == 0 ==>
              var pair := HalfDenom(p);
              CardValue(Card(pair), false) == p / 2 &&
              SplitEquation(p, up) == Over(Times(Sum(SplitTerms(p / 2, up, AllDenoms)), Constant(2.0)), Minus(Constant(1.0), PVar(pair))) &&
              P(pair) !in VarsOfTerms(SplitTerms(p / 2, up, AllDenoms)) &&
              forall d: Denom :: d != pair ==> P(d) in VarsOfTerms(SplitTerms(p / 2, up, AllDenoms))
  {
    AllDenomsFacts();
    if p % 2 == 0 {
      SplitTermsVars(p / 2, up, AllDenoms);
      forall d: Denom | d != HalfDenom(p)
        ensures CardValue(Card(d), false) != p / 2
      {
        CardValueInjective(Card(d), Card(HalfDenom(p)), false);
      }
    }
  }

  /** Aces split from soft 12 only; every other card has a summand and the A summand is left out. */
  lemma SplitSoftShape(p: int, up: Denom)
    ensures p != 12 ==> SplitSoftEquation(p, up) == Constant(0.0)
    ensures P('A') !in VarsOfTerms(SoftSplitTerms(up, AllDenoms))
    ensures forall d: Denom :: d != 'A' ==> P(d) in VarsOfTerms(SoftSplitTerms(up, AllDenoms))
  {
    AllDenomsFacts();
    SoftSplitTermsVars(up, AllDenoms);
  }

  // ===========================================================================
  // The variables each equation mentions

  /** The hit equation reads only p_ variables and ehi variables at higher totals. */
  lemma HitVars(p: int, up: Denom)
    requires 2 <= p <= 21
    ensures forall k :: k in Vars(HitEquation(p, up)) ==> k.P? || HitRef(k, p, up)
  {
    forall k | k in Vars(HitEquation(p, up))
      ensures k.P? || HitRef(k, p, up)
    {
      var i := VarsOfTermsIn(HitTerms(p, up), k);
    }
  }

  lemma SoftHitVars(p: int, up: Denom)
    requires 12 <= p <= 21
    ensures forall k :: k in Vars(SoftHitEquation(p, up)) ==> k.P? || SoftHitRef(k, p, up)
  {
    forall k | k in Vars(SoftHitEquation(p, up))
      ensures k.P? || SoftHitRef(k, p, up)
    {
      var i := VarsOfTermsIn(SoftHitTerms(p, up), k);
    }
  }

  /** The double equation reads only p_ variables and hard est variables at higher totals. */
  lemma DoubleVars(p: int, up: Denom)
    requires 2 <= p <= 21
    ensures forall k :: k in Vars(DoubleEquation(p, up)) ==> k.P? || DoubleRef(k, p, up)
  {
    forall k | k in Vars(DoubleEquation(p, up))
      ensures k.P? || DoubleRef(k, p, up)
    {
      var i := VarsOfTermsIn(DoubleTerms(p, up), k);
    }
  }

  lemma SoftDoubleVars(p: int, up: Denom)
    requires 12 <= p <= 21
    ensures forall k :: k in Vars(SoftDoubleEquation(p, up)) ==> k.P? || SoftDoubleRef(k, p, up)
  {
    forall k | k in Vars(SoftDoubleEquation(p, up))
      ensures k.P? || SoftDoubleRef(k, p, up)
    {
      var i := VarsOfTermsIn(SoftDoubleTerms(p, up), k);
    }
  }

  /** The split equations read only p_ variables and ehi variables of cells evaluated before the splits. */
  lemma SplitVars(p: int, up: Denom)
    requires 2 <= p <= 21
    ensures forall k :: k in Vars(SplitEquation(p, up)) ==> k.P? || SplitRef(k, up)
  {
    if p % 2 == 0 {
      var half := p / 2;
      assert 1 <= half <= 10;
      var ts := SplitTerms(half, up, AllDenoms);
      SplitTermsVars(half, up, AllDenoms);
      var pair := HalfDenom(p);
      assert SplitEquation(p, up) == Over(Times(Sum(ts), Constant(2.0)), Minus(Constant(1.0), PVar(pair)));
      assert Vars(Times(Sum(ts), Constant(2.0))) == VarsOfTerms(ts);
      assert Vars(Minus(Constant(1.0), PVar(pair))) == {P(pair)};
    }
  }

  lemma SplitSoftVars(p: int, up: Denom)
    ensures forall k :: k in Vars(SplitSoftEquation(p, up)) ==> k.P? || SplitRef(k, up)
  {
    if p == 12 {
      var ts := SoftSplitTerms(up, AllDenoms);
      SoftSplitTermsVars(up, AllDenoms);
      assert Vars(Times(Sum(ts), Constant(2.0))) == VarsOfTerms(ts);
      assert Vars(Minus(Constant(1.0), PVar('A'))) == {P('A')};
    }
  }
}
