/**
 * The round state of the game (class Model of app/src/main/kotlin/Model.kt): the
 * shoe, the dealer's hand, the player's hands (more than one after a split), the
 * index of the hand in play, the end-of-hand flag and the running profit.
 *
 * Every value() call on a Hand may set its sticky `hardened` flag, so the rules
 * that read hand values (settlement, the blackjack-or-bust test) change the hands
 * they read. Their specifications below thread the hand states through the calls
 * in the order the source makes them.
 *
 * The profit is a Float of 0, ±1, ±1.5 or ±2 per hand in the source; here it is an
 * integer count of half-units, so those payouts are 0, ±2, ±3 and ±4.
 */
module Game {
  import opened Wrappers
  import opened Shared
  import opened Hands
  import opened Shoes

  // ---------------------------------------------------------------------------
  // Settlement of one hand (the `when` of resultsUpdateProfit)

  /** What settling one hand reports, and the states of the two hands afterwards. */
  datatype Settlement = Settlement(outcome: Outcome, pay: int, hand: HandState, dealer: HandState)

  /**
   * The comparison after the blackjack checks: player bust first, then dealer bust,
   * then the two totals, every test making fresh value() calls. A doubled hand
   * wins or loses twice the stake.
   */
  function Showdown(h: HandState, dl: HandState, doubled: bool): (r: Settlement)
    ensures r.pay in {-4, -2, 0, 2, 4}
    ensures r.pay == 0 <==> r.outcome == Tie
    ensures doubled <==> r.pay in {-4, 4} || (r.pay == 0 && doubled)
    ensures r.hand.cards == h.cards && r.dealer.cards == dl.cards
  {
    var stake := if doubled then 4 else 2;
    var (v1, h1) := ValueOf(h);
    if v1.value > 21 then Settlement(if doubled then DoubleHumanBust else HumanBust, -stake, h1, dl)
    else
      var (w1, d1) := ValueOf(dl);
      if w1.value > 21 then Settlement(if doubled then DoubleDealerBust else DealerBust, stake, h1, d1)
      else
        var (v2, h2) := ValueOf(h1);
        var (w2, d2) := ValueOf(d1);
        if v2.value > w2.value then Settlement(if doubled then DoubleWin else Human, stake, h2, d2)
        else
          var (v3, h3) := ValueOf(h2);
          var (w3, d3) := ValueOf(d2);
          if v3.value < w3.value then Settlement(if doubled then DoubleLoss else Dealer, -stake, h3, d3)
          else Settlement(Tie, 0, h3, d3)
  }

  /**
   * One hand's result, in the source's priority order: both blackjack ties; a
   * player blackjack pays 3:2 (1:1 once the hand was split); a dealer blackjack
   * loses the stake; otherwise the showdown.
   */
  function Settle(h: HandState, doubled: bool, dl: HandState, split: bool): (r: Settlement)
    ensures r.pay in {-4, -2, 0, 2, 3, 4}
    ensures r.pay == 3 <==> r.outcome == HumanBlackjack
    ensures r.pay == 3 ==> !split
    ensures r.hand.cards == h.cards && r.dealer.cards == dl.cards
  {
    var (hb, h1) := BlackjackOf(h);
    var (db, d1) := if hb then BlackjackOf(dl) else (false, dl);
    if hb && db then Settlement(Tie, 0, h1, d1)
    else
      var (hb2, h2) := BlackjackOf(h1);
      if hb2 then
        if split then Settlement(HumanBlackjackTwoToOne, 2, h2, d1) else Settlement(HumanBlackjack, 3, h2, d1)
      else
        var (db2, d2) := BlackjackOf(d1);
        if db2 then Settlement(DealerBlackjack, -2, h2, d2)
        else Showdown(h2, d2, doubled)
  }

  /** A hand state on which further value() calls change nothing. */
  predicate Settled(s: HandState)
  {
    ValueOf(s).1 == s
  }

  /**
   * On settled hands the payout is the table of the game: ties on two blackjacks,
   * 3 half-units (2 after a split) for a player blackjack, -2 for a dealer
   * blackjack, then a player bust loses even against a dealer bust, and otherwise
   * the higher total wins; a doubled hand moves twice the stake. The hands are left
   * as they were.
   */
  lemma {:induction false} SettledPayout(h: HandState, doubled: bool, dl: HandState, split: bool)
    requires Settled(h) && Settled(dl)
    ensures var r := Settle(h, doubled, dl, split);
            var hv, dv := ValueOf(h).0.value, ValueOf(dl).0.value;
            var hbj, dbj := |h.cards| == 2 && hv == 21, |dl.cards| == 2 && dv == 21;
            var stake := if doubled then 4 else 2;
            r.hand == h && r.dealer == dl &&
            r.pay == (if hbj && dbj then 0
                      else if hbj then (if split then 2 else 3)
                      else if dbj then -2
                      else if hv > 21 then -stake
                      else if dv > 21 then stake
                      else if hv > dv then stake
                      else if hv < dv then -stake
                      else 0)
  {
    assert BlackjackOf(h) == (|h.cards| == 2 && ValueOf(h).0.value == 21, h);
    assert BlackjackOf(dl) == (|dl.cards| == 2 && ValueOf(dl).0.value == 21, dl);
  }

  /**
   * As written, the player's total is read afresh at each test: a three-card A,A,9
   * that was never valued passes the bust test at 21, then compares as 11 and
   * loses to a dealer's 17.
   */
  lemma SoftTotalDropsMidSettlement()
    ensures var h := HandState([Card('A'), Card('A'), Card('9')], false);
            var dl := HandState([Card('T'), Card('7')], false);
            ValueOf(h).0 == HandValue(21, false) &&
            Settle(h, false, dl, false).outcome == Dealer && Settle(h, false, dl, false).pay == -2
  {
    var cards := [Card('A'), Card('A'), Card('9')];
    assert cards[..2] == [Card('A'), Card('A')];
    TwoCards(Card('A'), Card('A'), true);
    TwoCards(Card('A'), Card('A'), false);
    assert Total(cards, true) == 31 && HasAce(cards);
    assert Total(cards, false) == 11;
    TwoCards(Card('T'), Card('7'), true);
  }

  /** The results of the hands in order; the dealer's hand state carries from one hand to the next. */
  function SettleAll(hs: seq<HandState>, doubled: seq<bool>, dl: HandState, split: bool): (r: seq<Settlement>)
    requires |doubled| == |hs|
    ensures |r| == |hs|
    ensures forall i :: 0 <= i < |r| ==> -4 <= r[i].pay <= 4
  {
    SettleFirst(hs, doubled, dl, split, |hs|)
  }

  /** The results of the first n hands. */
  function SettleFirst(hs: seq<HandState>, doubled: seq<bool>, dl: HandState, split: bool, n: nat): (r: seq<Settlement>)
    requires |doubled| == |hs| && n <= |hs|
    ensures |r| == n
    ensures forall i :: 0 <= i < |r| ==> -4 <= r[i].pay <= 4
  {
    if n == 0 then []
    else
      var pre := SettleFirst(hs, doubled, dl, split, n - 1);
      pre + [Settle(hs[n - 1], doubled[n - 1], DealerAfter(pre, dl), split)]
  }

  /** The dealer's state after the settlements in `rs`. */
  function DealerAfter(rs: seq<Settlement>, dl: HandState): HandState
  {
    if rs == [] then dl else rs[|rs| - 1].dealer
  }

  /** `results` lists the outcome and payout of each settlement in `rs`. */
  predicate Reports(results: seq<(Outcome, int)>, rs: seq<Settlement>)
  {
    |results| == |rs| && forall i :: 0 <= i < |rs| ==> results[i] == (rs[i].outcome, rs[i].pay)
  }

  function PaySum(results: seq<(Outcome, int)>): int
  {
    if results == [] then 0 else PaySum(results[..|results| - 1]) + results[|results| - 1].1
  }

  /** Every hand pays between -4 and 4 half-units, so a round moves the profit by at most 4 per hand. */
  lemma {:induction false} PaySumBounds(results: seq<(Outcome, int)>)
    requires forall i :: 0 <= i < |results| ==> -4 <= results[i].1 <= 4
    ensures -4 * |results| <= PaySum(results) <= 4 * |results|
  {
    if results != [] {
      PaySumBounds(results[..|results| - 1]);
    }
  }

  // ---------------------------------------------------------------------------
  // allHandsBlackjackOrBust

  /** One hand's test: isBlackjack(), and only when that fails a value() call. */
  function BlackjackOrBust(s: HandState): (r: (bool, HandState))
    ensures r.1.cards == s.cards
  {
    var (b, s1) := BlackjackOf(s);
    if b then (true, s1) else (ValueOf(s1).0.value > 21, ValueOf(s1).1)
  }

  /** On a settled hand the test is: two cards worth 21, or a total above 21. */
  lemma BlackjackOrBustSettled(s: HandState)
    requires Settled(s)
    ensures BlackjackOrBust(s) == ((|s.cards| == 2 && ValueOf(s).0.value == 21) || ValueOf(s).0.value > 21, s)
  {
  }

  /** Index of the first hand that is neither blackjack nor bust, or the number of hands. */
  function FirstMiss(hs: seq<HandState>): (k: nat)
    ensures k <= |hs|
    ensures forall i :: 0 <= i < k ==> BlackjackOrBust(hs[i]).0
    ensures k < |hs| ==> !BlackjackOrBust(hs[k]).0
  {
    if hs == [] then 0
    else if !BlackjackOrBust(hs[0]).0 then 0
    else 1 + FirstMiss(hs[1..])
  }

  // ---------------------------------------------------------------------------
  // activeButtons

  /** The buttons of the game's screen, as activeButtons lists them. */
  function Buttons(isEndOfHand: bool, finished: bool, nCards: int, splittable: bool): (bs: seq<Button>)
    ensures isEndOfHand ==> NewShoe in bs && (Deal in bs <==> !finished) && Hit !in bs && Stand !in bs
    ensures isEndOfHand ==> Double !in bs && Split !in bs && bs[|bs| - 1] == NewShoe
    ensures !isEndOfHand ==> |bs| >= 2 && bs[0] == Hit && bs[1] == Stand && Deal !in bs && NewShoe !in bs
    ensures !isEndOfHand ==> (Double in bs <==> nCards == 2) && (Split in bs <==> splittable)
    ensures forall i, j :: 0 <= i < j < |bs| ==> bs[i] != bs[j]
  {
    if isEndOfHand then
      if finished then [NewShoe] else [Deal, NewShoe]
    else
      [Hit, Stand] + (if nCards == 2 then [Double] else []) + (if splittable then [Split] else [])
  }

  // ---------------------------------------------------------------------------
  // The model

  class Model {
    var shoe: Shoe
    const dealerHand: Hand
    var humanHands: seq<Hand>
    var isEndOfHand: bool
    var humanHandIndex: int
    /** Profit in half-units. */
    var profit: int

    /**
     * The shoe is consistent, the dealer's hand has index 0 and the player's hand at
     * position i has index i + 1, so the hands are distinct objects.
     */
    ghost predicate Valid()
      reads this, shoe
    {
      shoe.Valid() && dealerHand.index == DealerIndex &&
      forall i :: 0 <= i < |humanHands| ==> humanHands[i].index == i + 1
    }

    /** The states of the player's hands, in order. */
    function HandStates(): (hs: seq<HandState>)
      reads this, humanHands
      ensures |hs| == |humanHands|
      ensures forall i :: 0 <= i < |hs| ==> hs[i] == humanHands[i].State()
    {
      seq(|humanHands|, i reads this, humanHands requires 0 <= i < |humanHands| => humanHands[i].State())
    }

    function Doubled(): (ds: seq<bool>)
      reads this, humanHands
      ensures |ds| == |humanHands|
      ensures forall i :: 0 <= i < |ds| ==> ds[i] == humanHands[i].doubled
    {
      seq(|humanHands|, i reads this, humanHands requires 0 <= i < |humanHands| => humanHands[i].doubled)
    }

    constructor ()
      ensures Valid() && fresh(shoe) && fresh(dealerHand)
      ensures shoe.Total() == 52 && forall d: Denom :: shoe.distribution[d] == InitialCount(d)
      ensures dealerHand.cards == [] && dealerHand.index == DealerIndex && !dealerHand.doubled && !dealerHand.hardened
      ensures humanHands == [] && !isEndOfHand && humanHandIndex == 0 && profit == 0
    {
      shoe := new Shoe();
      dealerHand := new Hand(DealerIndex);
      humanHands := [];
      isEndOfHand := false;
      humanHandIndex := 0;
      profit := 0;
    }

    /**
     * drawCardUpdateDistribution: draw from the shoe and report the card with the
     * new counts; an empty shoe is the "Ran out of cards" failure.
     */
    method DrawCardUpdateDistribution(player: Player) returns (r: Option<(Card, map<Denom, int>)>)
      requires Valid()
      modifies shoe
      ensures Valid()
      ensures r.None? <==> old(shoe.Total()) == 0
      ensures r.Some? ==> r.value.1 == shoe.distribution &&
                          shoe.distribution == old(shoe.distribution)[r.value.0.denom := old(shoe.distribution)[r.value.0.denom] - 1]
      ensures r.Some? ==> shoe.Total() == old(shoe.Total()) - 1
    {
      var card := shoe.DrawCard();
      if card.None? {
        return None;
      }
      r := Some((card.value, shoe.distribution));
    }

    /** The player's hand `index` (1-based), created when it is the next one. */
    method HandFor(index: int) returns (hand: Hand)
      requires Valid() && 1 <= index <= |humanHands| + 1
      modifies this
      ensures Valid() && shoe == old(shoe) && isEndOfHand == old(isEndOfHand)
      ensures humanHandIndex == old(humanHandIndex) && profit == old(profit)
      ensures index <= old(|humanHands|) ==> humanHands == old(humanHands)
      ensures index > old(|humanHands|) ==> fresh(hand) && humanHands == old(humanHands) + [hand] &&
                                             hand.cards == [] && !hand.doubled && !hand.hardened && hand.index == index
      ensures hand == humanHands[index - 1]
    {
      if index > |humanHands| {
        var created := new Hand(index);
        humanHands := humanHands + [created];
      }
      hand := humanHands[index - 1];
    }

    /** addCard: the dealer's hand for index 0, else the player's hand `index`, created if it is the next one. */
    method AddCard(player: Player, card: Card)
      requires Valid() && 0 <= player.index <= |humanHands| + 1
      modifies this, dealerHand, humanHands
      ensures Valid() && shoe == old(shoe) && isEndOfHand == old(isEndOfHand)
      ensures humanHandIndex == old(humanHandIndex) && profit == old(profit)
      ensures player.index == DealerIndex ==> humanHands == old(humanHands) &&
                                              dealerHand.cards == old(dealerHand.cards) + [card] &&
                                              dealerHand.hardened == old(dealerHand.hardened) &&
                                              dealerHand.doubled == old(dealerHand.doubled) &&
                                              unchanged(humanHands)
      ensures player.index != DealerIndex ==>
                |humanHands| == (if player.index > old(|humanHands|) then player.index else old(|humanHands|)) &&
                humanHands[..old(|humanHands|)] == old(humanHands) &&
                humanHands[player.index - 1].cards == old(if player.index <= |humanHands| then humanHands[player.index - 1].cards else []) + [card] &&
                humanHands[player.index - 1].hardened == old(player.index <= |humanHands| && humanHands[player.index - 1].hardened) &&
                humanHands[player.index - 1].doubled == old(player.index <= |humanHands| && humanHands[player.index - 1].doubled) &&
                unchanged(dealerHand) &&
                forall i :: 0 <= i < old(|humanHands|) && i != player.index - 1 ==> unchanged(humanHands[i])
    {
      if player.index == DealerIndex {
        dealerHand.AddCard(card);
      } else {
        var hand := HandFor(player.index);
        hand.AddCard(card);
      }
    }

    /** updateHand: the player's hand `index` holds exactly `card`, and is no longer hardened. */
    method UpdateHand(player: Player, card: Card)
      requires Valid() && 1 <= player.index <= |humanHands| + 1
      modifies this, humanHands
      ensures Valid() && shoe == old(shoe) && isEndOfHand == old(isEndOfHand)
      ensures humanHandIndex == old(humanHandIndex) && profit == old(profit)
      ensures |humanHands| == (if player.index > old(|humanHands|) then player.index else old(|humanHands|))
      ensures humanHands[..old(|humanHands|)] == old(humanHands)
      ensures humanHands[player.index - 1].cards == [card] && !humanHands[player.index - 1].hardened
      ensures humanHands[player.index - 1].doubled == old(player.index <= |humanHands| && humanHands[player.index - 1].doubled)
      ensures forall i :: 0 <= i < old(|humanHands|) && i != player.index - 1 ==> unchanged(humanHands[i])
    {
      var hand := HandFor(player.index);
      hand.UpdateHand([card]);
    }

    /** activeButtons. */
    function ActiveButtons(): (bs: seq<Button>)
      reads this, shoe, humanHands
      requires Valid() && (!isEndOfHand ==> 0 <= humanHandIndex < |humanHands|)
      ensures bs == Buttons(isEndOfHand, shoe.Finished(),
                            if isEndOfHand then 0 else humanHands[humanHandIndex].NCards(),
                            !isEndOfHand && humanHands[humanHandIndex].IsSplittable())
    {
      if isEndOfHand then
        if shoe.Finished() then [Button.NewShoe] else [Deal, Button.NewShoe]
      else
        var hand := humanHands[humanHandIndex];
        [Hit, Stand] + (if hand.NCards() == 2 then [Double] else []) + (if hand.IsSplittable() then [Split] else [])
    }

    /** The `when` of resultsUpdateProfit for one hand. */
    method SettleHand(hand: Hand, split: bool) returns (outcome: Outcome, pay: int)
      requires hand != dealerHand
      modifies hand, dealerHand
      ensures Settlement(outcome, pay, hand.State(), dealerHand.State()) ==
              Settle(old(hand.State()), hand.doubled, old(dealerHand.State()), split)
      ensures hand.doubled == old(hand.doubled) && dealerHand.doubled == old(dealerHand.doubled)
    {
      var hb := hand.IsBlackjack();
      var both := false;
      if hb {
        both := dealerHand.IsBlackjack();
      }
      if both {
        return Tie, 0;
      }
      hb := hand.IsBlackjack();
      if hb {
        if split {
          return HumanBlackjackTwoToOne, 2;
        }
        return HumanBlackjack, 3;
      }
      var db := dealerHand.IsBlackjack();
      if db {
        return DealerBlackjack, -2;
      }
      outcome, pay := ShowdownHand(hand, hand.doubled);
    }

    /** The tests after the blackjack checks, with fresh value() calls at each. */
    method ShowdownHand(hand: Hand, doubled: bool) returns (outcome: Outcome, pay: int)
      requires hand != dealerHand
      modifies hand, dealerHand
      ensures Settlement(outcome, pay, hand.State(), dealerHand.State()) ==
              Showdown(old(hand.State()), old(dealerHand.State()), doubled)
      ensures hand.doubled == old(hand.doubled) && dealerHand.doubled == old(dealerHand.doubled)
    {
      var stake := if doubled then 4 else 2;
      var v := hand.Value();
      if v.value > 21 {
        return if doubled then DoubleHumanBust else HumanBust, -stake;
      }
      var w := dealerHand.Value();
      if w.value > 21 {
        return if doubled then DoubleDealerBust else DealerBust, stake;
      }
      v := hand.Value();
      w := dealerHand.Value();
      if v.value > w.value {
        return if doubled then DoubleWin else Human, stake;
      }
      v := hand.Value();
      w := dealerHand.Value();
      if v.value < w.value {
        return if doubled then DoubleLoss else Dealer, -stake;
      }
      return Tie, 0;
    }

    /**
     * resultsUpdateProfit: settle every hand in order (a split round pays a
     * blackjack 1:1), then add the payouts to the profit.
     */
    method ResultsUpdateProfit() returns (results: seq<(Outcome, int)>)
      requires Valid()
      modifies this, dealerHand, humanHands
      ensures Valid() && humanHands == old(humanHands) && shoe == old(shoe)
      ensures isEndOfHand == old(isEndOfHand) && humanHandIndex == old(humanHandIndex)
      ensures var rs := SettleAll(old(HandStates()), old(Doubled()), old(dealerHand.State()), |humanHands| > 1);
              |results| == |rs| &&
              (forall i :: 0 <= i < |rs| ==> results[i] == (rs[i].outcome, rs[i].pay) && humanHands[i].State() == rs[i].hand) &&
              dealerHand.State() == DealerAfter(rs, old(dealerHand.State()))
      ensures profit == old(profit) + PaySum(results)
      ensures Doubled() == old(Doubled()) && dealerHand.doubled == old(dealerHand.doubled)
      ensures -4 * |humanHands| <= profit - old(profit) <= 4 * |humanHands|
    {
      results := SettleHands(|humanHands| > 1);
      var gained := Gain(results);
      PaySumBounds(results);
      profit := profit + gained;
    }

    /** The loop of resultsUpdateProfit that adds up the payouts. */
    static method Gain(results: seq<(Outcome, int)>) returns (gained: int)
      ensures gained == PaySum(results)
    {
      gained := 0;
      for i := 0 to |results|
        invariant gained == PaySum(results[..i])
      {
        assert results[..i + 1][..i] == results[..i];
        gained := gained + results[i].1;
      }
      assert results[..|results|] == results;
    }

    /** The `map` of resultsUpdateProfit: one settlement per hand, in order. */
    method SettleHands(split: bool) returns (results: seq<(Outcome, int)>)
      requires Valid()
      modifies dealerHand, humanHands
      ensures var rs := SettleAll(old(HandStates()), old(Doubled()), old(dealerHand.State()), split);
              Reports(results, rs) && HandsAt(|rs|, old(HandStates()), old(Doubled()), rs, DealerAfter(rs, old(dealerHand.State())))
    ensures Doubled() == old(Doubled()) && dealerHand.doubled == old(dealerHand.doubled)
    {
      ghost var hs, ds, dl := HandStates(), Doubled(), dealerHand.State();
      ghost var dd := dealerHand.doubled;
      ghost var rs: seq<Settlement> := [];
      results := [];
      for i := 0 to |humanHands|
        invariant Valid() && rs == SettleFirst(hs, ds, dl, split, i)
        invariant HandsAt(i, hs, ds, rs, DealerAfter(rs, dl)) && Reports(results, rs)
        invariant Doubled() == ds && dealerHand.doubled == dd
      {
        var outcome, pay;
        ghost var next;
        outcome, pay, next := SettleNext(split, i, hs, ds, rs, DealerAfter(rs, dl));
        rs := rs + [next];
        results := results + [(outcome, pay)];
      }
    }

    /**
     * The first i hands are as `rs` left them, the dealer's hand is `dealer`, and
     * the other hands are as dealt.
     */
    ghost predicate HandsAt(i: int, hs: seq<HandState>, ds: seq<bool>, rs: seq<Settlement>, dealer: HandState)
      reads this, dealerHand, humanHands
    {
      0 <= i <= |humanHands| == |hs| == |ds| && |rs| == i && dealerHand.State() == dealer &&
      (forall j :: 0 <= j < i ==> humanHands[j].State() == rs[j].hand) &&
      (forall j :: i <= j < |humanHands| ==> humanHands[j].State() == hs[j] && humanHands[j].doubled == ds[j])
    }

    /** One step of the `map`: settle hand i against the dealer as the earlier hands left it. */
    method SettleNext(split: bool, i: int, ghost hs: seq<HandState>, ghost ds: seq<bool>, ghost rs: seq<Settlement>,
                      ghost dealer: HandState)
      returns (outcome: Outcome, pay: int, ghost next: Settlement)
      requires Valid() && i < |humanHands| && HandsAt(i, hs, ds, rs, dealer)
      modifies humanHands[i], dealerHand
      ensures next == Settle(hs[i], ds[i], dealer, split)
      ensures HandsAt(i + 1, hs, ds, rs + [next], next.dealer)
      ensures outcome == next.outcome && pay == next.pay
      ensures Doubled() == old(Doubled()) && dealerHand.doubled == old(dealerHand.doubled)
    {
      var hand := humanHands[i];
      ghost var ds0 := Doubled();
      next := Settle(hs[i], ds[i], dealer, split);
      outcome, pay := SettleHand(hand, split);
      forall j | 0 <= j < |humanHands| && j != i
        ensures humanHands[j].doubled == ds0[j]
      {
        assert humanHands[j] != hand;
      }
    }

    method UpdateEndOfHand()
      modifies this
      ensures isEndOfHand
      ensures shoe == old(shoe) && humanHands == old(humanHands)
      ensures humanHandIndex == old(humanHandIndex) && profit == old(profit)
    {
      isEndOfHand := true;
    }

    /**
     * allHandsBlackjackOrBust: true iff every hand is a blackjack or bust. Kotlin's
     * `all` stops at the first hand that is neither, so the hands after it are not
     * valued.
     */
    method AllHandsBlackjackOrBust() returns (b: bool)
      requires Valid()
      modifies humanHands
      ensures b <==> FirstMiss(old(HandStates())) == |humanHands|
      ensures b <==> forall i :: 0 <= i < |humanHands| ==> BlackjackOrBust(old(HandStates())[i]).0
      ensures forall i :: 0 <= i < |humanHands| ==>
                humanHands[i].State() == (if i <= FirstMiss(old(HandStates())) then BlackjackOrBust(old(HandStates())[i]).1
                                          else old(HandStates())[i])
      ensures Doubled() == old(Doubled())
      ensures dealerHand.State() == old(dealerHand.State()) && dealerHand.doubled == old(dealerHand.doubled)
    {
      ghost var hs, ds := HandStates(), Doubled();
      ghost var dl, dd := dealerHand.State(), dealerHand.doubled;
      ghost var k := FirstMiss(hs);
      ghost var after := hs;
      var i := 0;
      while i < |humanHands|
        invariant Valid() && 0 <= i <= k && |after| == |hs|
        invariant forall j :: 0 <= j < |humanHands| ==> humanHands[j].State() == after[j]
        invariant forall j :: 0 <= j < i ==> after[j] == BlackjackOrBust(hs[j]).1
        invariant forall j :: i <= j < |humanHands| ==> after[j] == hs[j]
        invariant Doubled() == ds && dealerHand.State() == dl && dealerHand.doubled == dd
      {
        var ok;
        ok, after := CheckHand(i, after);
        if !ok {
          assert i == k;
          return false;
        }
        i := i + 1;
      }
      assert k == |humanHands|;
      return true;
    }

    /** Hand i takes the test; no other hand changes. */
    method CheckHand(i: int, ghost states: seq<HandState>) returns (ok: bool, ghost states': seq<HandState>)
      requires Valid() && 0 <= i < |humanHands| == |states|
      requires forall j :: 0 <= j < |humanHands| ==> humanHands[j].State() == states[j]
      modifies humanHands[i]
      ensures |states'| == |states| && states' == states[i := states'[i]]
      ensures (ok, states'[i]) == BlackjackOrBust(states[i])
      ensures forall j :: 0 <= j < |humanHands| ==> humanHands[j].State() == states'[j]
      ensures Doubled() == old(Doubled())
      ensures dealerHand.State() == old(dealerHand.State()) && dealerHand.doubled == old(dealerHand.doubled)
    {
      var hand := humanHands[i];
      assert dealerHand != hand by { assert hand.index == i + 1; }
      label before:
      ok := HandBlackjackOrBust(hand);
      states' := states[i := hand.State()];
      forall j | 0 <= j < |humanHands| && j != i
        ensures humanHands[j].State() == old@before(humanHands[j].State())
        ensures humanHands[j].doubled == old@before(humanHands[j].doubled)
      {
        assert humanHands[j] != hand;
      }
    }

    /** The predicate of allHandsBlackjackOrBust on one hand. */
    static method HandBlackjackOrBust(hand: Hand) returns (ok: bool)
      modifies hand
      ensures (ok, hand.State()) == BlackjackOrBust(old(hand.State()))
      ensures hand.doubled == old(hand.doubled)
    {
      ok := hand.IsBlackjack();
      if !ok {
        var v := hand.Value();
        ok := v.value > 21;
      }
    }

    /** dealerShouldDraw: the dealer rule on the dealer's hand. */
    method DealerShouldDraw() returns (b: bool)
      modifies dealerHand
      ensures b <==> DealerRule(ValueOf(old(dealerHand.State())).0)
      ensures dealerHand.State() == ValueOf(old(dealerHand.State())).1
      ensures dealerHand.doubled == old(dealerHand.doubled)
    {
      b := dealerHand.ShouldDealerDraw();
    }

    /** Another of the player's hands follows the one in play. */
    function IsAnotherHand(): (b: bool)
      reads this
      ensures b <==> humanHandIndex + 1 < |humanHands|
    {
      humanHandIndex < |humanHands| - 1
    }

    method AdvanceToNextHand()
      modifies this
      ensures humanHandIndex == old(humanHandIndex) + 1
      ensures shoe == old(shoe) && humanHands == old(humanHands)
      ensures isEndOfHand == old(isEndOfHand) && profit == old(profit)
    {
      humanHandIndex := humanHandIndex + 1;
    }

    /** humanHandIndex(): the hand in play as a 1-based Player, never the dealer. */
    function HumanHandIndex(): (p: Player)
      reads this
      ensures humanHandIndex >= 0 ==> p.index > DealerIndex
      ensures p.index - 1 == humanHandIndex
    {
      Player(humanHandIndex + 1)
    }

    /** isBust of the hand in play. */
    method IsBust() returns (b: bool)
      requires Valid() && 0 <= humanHandIndex < |humanHands|
      modifies humanHands[humanHandIndex]
      ensures (b, humanHands[humanHandIndex].State()) == BustOf(old(humanHands[humanHandIndex].State()))
      ensures humanHands[humanHandIndex].doubled == old(humanHands[humanHandIndex].doubled)
    {
      b := humanHands[humanHandIndex].IsBust();
    }

    /** doubleBet: the hand in play is doubled. */
    method DoubleBet()
      requires Valid() && 0 <= humanHandIndex < |humanHands|
      modifies humanHands[humanHandIndex]
      ensures humanHands[humanHandIndex].doubled
      ensures humanHands[humanHandIndex].State() == old(humanHands[humanHandIndex].State())
    {
      humanHands[humanHandIndex].Double();
    }

    /** getSplitCard: the first card of the hand in play. */
    function GetSplitCard(): (c: Card)
      reads this, humanHands
      requires 0 <= humanHandIndex < |humanHands| && humanHands[humanHandIndex].cards != []
      ensures c in humanHands[humanHandIndex].cards
      ensures humanHands[humanHandIndex].IsSplittable() ==> humanHands[humanHandIndex].cards == [c, c]
    {
      humanHands[humanHandIndex].cards[0]
    }

    function HumanHandsLength(): (n: nat)
      reads this
      ensures n == |humanHands|
    {
      |humanHands|
    }

    /** isBlackjack(player): the dealer's hand for index 0, else the player's hand `index`. */
    method IsBlackjack(player: Player) returns (b: bool)
      requires Valid() && 0 <= player.index <= |humanHands|
      modifies dealerHand, humanHands
      ensures player.index == DealerIndex ==>
                (b, dealerHand.State()) == BlackjackOf(old(dealerHand.State())) &&
                dealerHand.doubled == old(dealerHand.doubled) && unchanged(humanHands)
      ensures player.index != DealerIndex ==>
                (b, humanHands[player.index - 1].State()) == BlackjackOf(old(humanHands[player.index - 1].State())) &&
                humanHands[player.index - 1].doubled == old(humanHands[player.index - 1].doubled) &&
                unchanged(dealerHand) &&
                forall i :: 0 <= i < |humanHands| && i != player.index - 1 ==> unchanged(humanHands[i])
      ensures b ==> (player.index == DealerIndex ==> |dealerHand.cards| == 2)
    {
      if player.index == DealerIndex {
        b := dealerHand.IsBlackjack();
      } else {
        b := humanHands[player.index - 1].IsBlackjack();
      }
    }

    /** updateStartOfHand: an empty dealer hand, one fresh player hand, and play at its start. */
    method UpdateStartOfHand()
      requires Valid()
      modifies this, dealerHand
      ensures Valid() && shoe == old(shoe) && profit == old(profit)
      ensures dealerHand.cards == [] && dealerHand.hardened == old(dealerHand.hardened) && dealerHand.doubled == old(dealerHand.doubled)
      ensures |humanHands| == 1 && fresh(humanHands[0])
      ensures humanHands[0].index == 1 && humanHands[0].cards == [] && !humanHands[0].doubled && !humanHands[0].hardened
      ensures !isEndOfHand && humanHandIndex == 0
    {
      dealerHand.Clear();
      var first := new Hand(1);
      humanHands := [first];
      isEndOfHand := false;
      humanHandIndex := 0;
    }

    /** newShoe: a full shoe of 52 cards. */
    method NewShoe()
      requires Valid()
      modifies this
      ensures Valid() && fresh(shoe) && shoe.Total() == 52 && !shoe.Finished()
      ensures forall d: Denom :: shoe.distribution[d] == InitialCount(d)
      ensures humanHands == old(humanHands) && isEndOfHand == old(isEndOfHand)
      ensures humanHandIndex == old(humanHandIndex) && profit == old(profit)
    {
      shoe := new Shoe();
    }
  }
}
