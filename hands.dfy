/**
 * A blackjack hand (class Hand of app/src/main/kotlin/Model.kt).
 *
 * Hand.value() is a getter with a side effect: on a soft bust it demotes one Ace
 * and sets the sticky `hardened` flag, after which every Ace counts as 1 until
 * updateHand replaces the cards. The pure functions below give the value a call
 * reports together with the state it leaves behind; the class methods are proved
 * against them.
 */
module Hands {
  import opened Shared

  /** Sum of the card values, every Ace counted as 11 when `acesHigh` and as 1 otherwise. */
  function Total(cards: seq<Card>, acesHigh: bool): int
  {
    if cards == [] then 0 else Total(cards[..|cards| - 1], acesHigh) + CardValue(cards[|cards| - 1], acesHigh)
  }

  predicate HasAce(cards: seq<Card>)
  {
    cards != [] && (HasAce(cards[..|cards| - 1]) || cards[|cards| - 1].denom == 'A')
  }

  /** Every card is worth at least 1, and at least 2 when Aces count high. */
  lemma {:induction false} TotalBounds(cards: seq<Card>)
    ensures Total(cards, false) >= |cards|
    ensures Total(cards, true) >= 2 * |cards|
    ensures !HasAce(cards) ==> Total(cards, true) == Total(cards, false)
  {
    if cards != [] {
      TotalBounds(cards[..|cards| - 1]);
    }
  }

  lemma TwoCards(a: Card, b: Card, acesHigh: bool)
    ensures Total([a, b], acesHigh) == CardValue(a, acesHigh) + CardValue(b, acesHigh)
    ensures HasAce([a, b]) <==> a.denom == 'A' || b.denom == 'A'
  {
    var ab := [a, b];
    assert ab[..|ab| - 1] == [a] && ab[|ab| - 1] == b;
    assert [a][..0] == [];
    assert Total([a], acesHigh) == CardValue(a, acesHigh);
    assert HasAce([a]) <==> a.denom == 'A';
  }

  /** The mutable part of a Hand that value() reads and writes. */
  datatype HandState = HandState(cards: seq<Card>, hardened: bool)

  /** One call of Hand.value(): the value it reports and the state it leaves. */
  function ValueOf(s: HandState): (r: (HandValue, HandState))
    ensures r.1.cards == s.cards
    ensures s.hardened ==> r.1 == s
    ensures r.0.soft ==> r.0.value <= 21 && !r.1.hardened
    ensures r.0.value >= |s.cards|
  {
    TotalBounds(s.cards);
    var total := Total(s.cards, !s.hardened);
    var soft := !s.hardened && HasAce(s.cards);
    if total > 21 && soft then (HandValue(total - 10, false), HandState(s.cards, true))
    else (HandValue(total, soft), s)
  }

  /**
   * Without a demotion value() sums the cards with Aces as 11 (as 1 once hardened)
   * and is soft iff it counted an Ace as 11; a demotion subtracts 10 exactly once,
   * reports a hard total and sets `hardened`.
   */
  lemma ValueCases(s: HandState)
    ensures var raw := Total(s.cards, !s.hardened);
            var (v, s') := ValueOf(s);
            if raw > 21 && !s.hardened && HasAce(s.cards) then
              v == HandValue(raw - 10, false) && s'.hardened
            else
              v == HandValue(raw, !s.hardened && HasAce(s.cards)) && s' == s
  {
  }

  /** After one call the state is settled: later calls change nothing and all report the same value. */
  lemma ValueSettles(s: HandState)
    ensures var s1 := ValueOf(s).1;
            ValueOf(s1).1 == s1 && ValueOf(ValueOf(s1).1) == ValueOf(s1)
    ensures ValueOf(s).1 != s ==> ValueOf(ValueOf(s).1).0 == HandValue(Total(s.cards, false), false)
  {
  }

  /** Not idempotent: A,A first reports hard 12, every later call hard 2. */
  lemma TwoAcesValue()
    ensures var s := HandState([Card('A'), Card('A')], false);
            ValueOf(s).0 == HandValue(12, false) &&
            ValueOf(ValueOf(s).1).0 == HandValue(2, false)
  {
    TwoCards(Card('A'), Card('A'), true);
    TwoCards(Card('A'), Card('A'), false);
  }

  /**
   * `clear()` keeps `hardened`, so a dealer hand hardened in one round stays hardened
   * in the next: A,T is then worth 11 and is no blackjack, where a fresh A,T is.
   */
  lemma HardenedAceTen()
    ensures !BlackjackOf(HandState([Card('A'), Card('T')], true)).0
    ensures BlackjackOf(HandState([Card('A'), Card('T')], false)).0
  {
    TwoCards(Card('A'), Card('T'), true);
    TwoCards(Card('A'), Card('T'), false);
  }

  /** The dealer draws below 17 and on a soft 17 (Model.dealerShouldDraw). */
  predicate DealerRule(v: HandValue)
  {
    v.value < 17 || (v.soft && v.value < 18)
  }

  /** Hand.isBlackjack(): two cards worth 21 on the value() call it makes. */
  function BlackjackOf(s: HandState): (bool, HandState)
  {
    if |s.cards| != 2 then (false, s) else (ValueOf(s).0.value == 21, ValueOf(s).1)
  }

  /** Hand.isBust(): the value() call reports more than 21. */
  function BustOf(s: HandState): (bool, HandState)
  {
    (ValueOf(s).0.value > 21, ValueOf(s).1)
  }

  /** A blackjack is exactly an Ace and a ten-valued card on a hand that is not hardened. */
  lemma BlackjackCards(s: HandState)
    ensures BlackjackOf(s).0 <==>
      |s.cards| == 2 && !s.hardened &&
      ((s.cards[0].denom == 'A' && s.cards[1].denom == 'T') || (s.cards[0].denom == 'T' && s.cards[1].denom == 'A'))
  {
    if |s.cards| == 2 {
      var c := s.cards;
      assert c == [c[0], c[1]];
      TwoCards(c[0], c[1], !s.hardened);
    }
  }

  class Hand {
    const index: int
    var cards: seq<Card>
    var doubled: bool
    var hardened: bool

    function State(): HandState
      reads this
    {
      HandState(cards, hardened)
    }

    constructor (index: int)
      ensures this.index == index && cards == [] && !doubled && !hardened
    {
      this.index := index;
      cards := [];
      doubled := false;
      hardened := false;
    }

    method AddCard(card: Card)
      modifies this
      ensures cards == old(cards) + [card]
      ensures doubled == old(doubled) && hardened == old(hardened)
    {
      cards := cards + [card];
    }

    /** clear() empties the cards and keeps the `hardened` flag. */
    method Clear()
      modifies this
      ensures cards == [] && doubled == old(doubled) && hardened == old(hardened)
    {
      cards := [];
    }

    /** updateHand() replaces the cards and is the one place that resets `hardened`. */
    method UpdateHand(newCards: seq<Card>)
      modifies this
      ensures cards == newCards && !hardened && doubled == old(doubled)
    {
      cards := newCards;
      hardened := false;
    }

    method Double()
      modifies this
      ensures doubled && cards == old(cards) && hardened == old(hardened)
    {
      doubled := true;
    }

    /** popCard(), used by the dealer enumeration: removes the last card only. */
    method PopCard()
      requires cards != []
      modifies this
      ensures cards == old(cards)[..|old(cards)| - 1]
      ensures doubled == old(doubled) && hardened == old(hardened)
    {
      cards := cards[..|cards| - 1];
    }

    method Value() returns (v: HandValue)
      modifies this
      ensures (v, State()) == ValueOf(old(State()))
      ensures doubled == old(doubled)
    {
      var totalValue := 0;
      var isSoft := false;
      for i := 0 to |cards|
        invariant totalValue == Total(cards[..i], !hardened)
        invariant isSoft == (!hardened && HasAce(cards[..i]))
      {
        assert cards[..i + 1][..i] == cards[..i];
        totalValue := totalValue + CardValue(cards[i], !hardened);
        if cards[i].denom == 'A' && !hardened {
          isSoft := true;
        }
      }
      assert cards[..|cards|] == cards;
      if totalValue > 21 && isSoft {
        totalValue := totalValue - 10;
        isSoft := false;
        hardened := true;
      }
      v := HandValue(totalValue, isSoft);
    }

    /** The number of cards held; a splittable hand has two, so it may also double. */
    function NCards(): (n: nat)
      reads this
      ensures n == |cards|
      ensures IsSplittable() ==> n == 2
    {
      |cards|
    }

    /** Exactly two cards of one denomination. */
    function IsSplittable(): (b: bool)
      reads this
      ensures b <==> |cards| == 2 && cards[0] == cards[1]
    {
      |cards| == 2 && cards[0].denom == cards[1].denom
    }

    method IsBlackjack() returns (b: bool)
      modifies this
      ensures (b, State()) == BlackjackOf(old(State()))
      ensures b ==> |cards| == 2
      ensures doubled == old(doubled)
    {
      if |cards| != 2 {
        return false;
      }
      var v := Value();
      b := v.value == 21;
    }

    method IsBust() returns (b: bool)
      modifies this
      ensures (b, State()) == BustOf(old(State()))
      ensures doubled == old(doubled)
    {
      var v := Value();
      b := v.value > 21;
    }

    /**
     * shouldDealerDraw(), used by the dealer enumeration: the rule of
     * Model.dealerShouldDraw applied to this hand. Its up to three value() calls
     * amount to the rule applied to the first call's value.
     */
    method ShouldDealerDraw() returns (b: bool)
      modifies this
      ensures b == DealerRule(ValueOf(old(State())).0)
      ensures State() == ValueOf(old(State())).1
      ensures doubled == old(doubled)
    {
      ValueSettles(State());
      var v := Value();
      if v.value < 17 {
        return true;
      }
      v := Value();
      if v.soft {
        v := Value();
        if v.value < 18 {
          return true;
        }
      }
      return false;
    }
  }
}
