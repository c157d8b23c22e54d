/**
 * standBfs of app/src/main/kotlin/Calculator.kt: a backtracking walk (add a card,
 * recurse, pop it) over the cards the dealer can draw from a starting hand. The
 * pop leaves the sticky `hardened` flag as the branch left it, so a later branch
 * may be valued with an Ace already counted as 1 (HardenedCarriesOver). At each hand
 * where the dealer stands it adds +1 (dealer bust, or dealer below the player),
 * -1 (dealer above the player) or nothing (a tie) to a tally keyed by the cards
 * drawn after the up-card, in sorted order.
 *
 * The tally is Kotlin's `mutableMapOf` (a LinkedHashMap): entries keep the order in
 * which their keys were first inserted, which fixes the order of the summands of the
 * stand equation built from it.
 */
module Dealer {
  import opened Shared
  import opened Hands

  /** No dealer hand can hold more cards than this while the dealer still draws. */
  const MaxCards := 18

  // ---------------------------------------------------------------------------
  // Keys: the drawn denominations, sorted by character code ('2' < ... < '9' < 'A' < 'T')

  function Denoms(cards: seq<Card>): (ds: seq<Denom>)
    ensures |ds| == |cards| && forall i :: 0 <= i < |cards| ==> ds[i] == cards[i].denom
  {
    seq(|cards|, i requires 0 <= i < |cards| => cards[i].denom)
  }

  predicate SortedKey(k: seq<Denom>)
  {
    forall i, j :: 0 <= i < j < |k| ==> k[i] as int <= k[j] as int
  }

  function Insert(x: Denom, k: seq<Denom>): (r: seq<Denom>)
    requires SortedKey(k)
    ensures SortedKey(r) && multiset(r) == multiset(k) + multiset{x} && |r| == |k| + 1
    ensures r[0] == x || (k != [] && r[0] == k[0])
  {
    if k == [] then [x]
    else if x as int <= k[0] as int then
      SortedCons(x, k);
      [x] + k
    else
      Tail(k);
      var rest := Insert(x, k[1..]);
      InsertStep(x, k, rest);
      [k[0]] + rest
  }

  /** Putting the smaller head back in front of the insertion into the tail. */
  lemma InsertStep(x: Denom, k: seq<Denom>, rest: seq<Denom>)
    requires SortedKey(k) && k != [] && k[0] as int < x as int
    requires SortedKey(rest) && multiset(rest) == multiset(k[1..]) + multiset{x}
    requires rest != [] && (rest[0] == x || (k[1..] != [] && rest[0] == k[1..][0]))
    ensures SortedKey([k[0]] + rest) && multiset([k[0]] + rest) == multiset(k) + multiset{x}
  {
    SortedCons(k[0], rest);
    assert k == [k[0]] + k[1..];
  }

  lemma SortedCons(h: Denom, s: seq<Denom>)
    requires SortedKey(s) && (s != [] ==> h as int <= s[0] as int)
    ensures SortedKey([h] + s)
  {
    var t := [h] + s;
    forall i, j | 0 <= i < j < |t|
      ensures t[i] as int <= t[j] as int
    {
      if i > 0 {
        assert t[i] == s[i - 1] && t[j] == s[j - 1];
      } else {
        assert t[j] == s[j - 1] && s[0] as int <= s[j - 1] as int;
      }
    }
  }

  /** Kotlin's `sorted()` on the drawn denominations. */
  function Sort(k: seq<Denom>): (r: seq<Denom>)
    ensures SortedKey(r) && multiset(r) == multiset(k) && |r| == |k|
  {
    if k == [] then []
    else
      assert k == k[..|k| - 1] + [k[|k| - 1]];
      Insert(k[|k| - 1], Sort(k[..|k| - 1]))
  }

  lemma SameHead(a: seq<Denom>, b: seq<Denom>)
    requires SortedKey(a) && SortedKey(b) && multiset(a) == multiset(b) && a != [] && b != []
    ensures a[0] == b[0]
  {
    assert a[0] in multiset(b) && b[0] in multiset(a);
    var i :| 0 <= i < |b| && b[i] == a[0];
    var j :| 0 <= j < |a| && a[j] == b[0];
    assert b[0] as int <= a[0] as int;
    assert a[0] as int <= b[0] as int;
  }

  lemma Tail(a: seq<Denom>)
    requires a != []
    ensures multiset(a[1..]) == multiset(a) - multiset{a[0]}
    ensures SortedKey(a) ==> SortedKey(a[1..])
  {
    assert a == [a[0]] + a[1..];
  }

  /** A sorted arrangement is unique, so any correct sort gives the key Sort gives. */
  lemma {:induction false} SortedUnique(a: seq<Denom>, b: seq<Denom>)
    requires SortedKey(a) && SortedKey(b) && multiset(a) == multiset(b)
    ensures a == b
    decreases |a|
  {
    if a != [] && b != [] {
      SameHead(a, b);
      Tail(a);
      Tail(b);
      SortedUnique(a[1..], b[1..]);
      assert a == [a[0]] + a[1..];
      assert b == [b[0]] + b[1..];
    }
  }

  /** The key of a dealer hand: `cards.drop(1).map { it.denom }.sorted()`. */
  function DrawKey(cards: seq<Card>): (k: seq<Denom>)
    requires |cards| >= 1
    ensures SortedKey(k) && multiset(k) == multiset(Denoms(cards[1..])) && |k| == |cards| - 1
  {
    Sort(Denoms(cards[1..]))
  }

  // ---------------------------------------------------------------------------
  // The tally: an insertion-ordered map from keys to integer weights

  type Tally = seq<(seq<Denom>, int)>

  predicate DistinctKeys(t: Tally)
  {
    forall i, j :: 0 <= i < j < |t| ==> t[i].0 != t[j].0
  }

  /** `t` is an earlier state of `u`: every entry of `t` kept its key and its place. */
  predicate KeptKeys(t: Tally, u: Tally)
  {
    |t| <= |u| && forall i :: 0 <= i < |t| ==> u[i].0 == t[i].0
  }

  /** Position of the first entry with this key, or -1. */
  function IndexOf(t: Tally, key: seq<Denom>): (i: int)
    ensures -1 <= i < |t|
    ensures i >= 0 ==> t[i].0 == key && forall j :: 0 <= j < i ==> t[j].0 != key
    ensures i < 0 ==> forall j :: 0 <= j < |t| ==> t[j].0 != key
  {
    if t == [] then -1
    else if t[0].0 == key then 0
    else
      var j := IndexOf(t[1..], key);
      if j < 0 then -1 else j + 1
  }

  /** IndexOf depends only on the keys, in order. */
  lemma {:induction false} IndexOfKeys(t: Tally, u: Tally, key: seq<Denom>)
    requires |t| == |u| && forall i :: 0 <= i < |t| ==> t[i].0 == u[i].0
    ensures IndexOf(t, key) == IndexOf(u, key)
  {
    var i, j := IndexOf(t, key), IndexOf(u, key);
    if i >= 0 && j >= 0 {
      assert !(i < j) && !(j < i);
    }
  }

  lemma IndexOfAppend(t: Tally, e: (seq<Denom>, int), key: seq<Denom>)
    ensures IndexOf(t + [e], key) ==
              if IndexOf(t, key) >= 0 then IndexOf(t, key) else if e.0 == key then |t| else -1
  {
    var u := t + [e];
    var i, j := IndexOf(t, key), IndexOf(u, key);
    assert forall k :: 0 <= k < |t| ==> u[k] == t[k];
    if i >= 0 {
      assert u[i].0 == key;
      assert !(j < i) && !(i < j);
    } else if e.0 == key {
      assert u[|t|].0 == key;
    }
  }

  /** `getOrDefault(key, 0)`. */
  function Lookup(t: Tally, key: seq<Denom>): int
  {
    var i := IndexOf(t, key);
    if i < 0 then 0 else t[i].1
  }

  /** `wrapper[key] = wrapper.getOrDefault(key, 0) + delta`. */
  function Bump(t: Tally, key: seq<Denom>, delta: int): (r: Tally)
    ensures KeptKeys(t, r) && |r| <= |t| + 1
    ensures forall i :: |t| <= i < |r| ==> r[i].0 == key
    ensures Lookup(r, key) == Lookup(t, key) + delta
    ensures forall k :: k != key ==> Lookup(r, k) == Lookup(t, k)
    ensures DistinctKeys(t) ==> DistinctKeys(r)
  {
    var i := IndexOf(t, key);
    if i < 0 then
      var r := t + [(key, delta)];
      assert forall k :: IndexOf(r, k) == if IndexOf(t, k) >= 0 then IndexOf(t, k) else if key == k then |t| else -1 by {
        forall k { IndexOfAppend(t, (key, delta), k); }
      }
      r
    else
      var r := t[i := (key, t[i].1 + delta)];
      assert forall k :: IndexOf(r, k) == IndexOf(t, k) by {
        forall k { IndexOfKeys(t, r, k); }
      }
      r
  }

  // ---------------------------------------------------------------------------
  // The enumeration as a function of the hand state

  /** The cards tried at a draw: all cards in order, less A when skipA and less T when skipT. */
  function DrawOrder(skipA: bool, skipT: bool): (ds: seq<Denom>)
    ensures forall d :: d in ds <==> !(skipA && d == 'A') && !(skipT && d == 'T')
  {
    AllDenomsFacts();
    Filter(AllDenoms, skipA, skipT)
  }

  function Filter(ds: seq<Denom>, skipA: bool, skipT: bool): (r: seq<Denom>)
    ensures forall d :: d in r <==> d in ds && !(skipA && d == 'A') && !(skipT && d == 'T')
  {
    if ds == [] then []
    else
      var rest := Filter(ds[1..], skipA, skipT);
      assert forall d :: d in ds <==> d == ds[0] || d in ds[1..];
      if (skipA && ds[0] == 'A') || (skipT && ds[0] == 'T') then rest else [ds[0]] + rest
  }

  /** Without skips every card is tried, in the order of all_cards. */
  lemma {:induction false} FilterNoSkips(ds: seq<Denom>)
    ensures Filter(ds, false, false) == ds
  {
    if ds != [] {
      FilterNoSkips(ds[1..]);
    }
  }

  /** Every key added since `w` is sorted, holds the cards drawn so far, and has at least `least` cards. */
  predicate NewKeysFrom(w: Tally, r: Tally, drawn: seq<Card>, least: int)
  {
    forall i :: |w| <= i < |r| ==>
      SortedKey(r[i].0) && multiset(Denoms(drawn)) <= multiset(r[i].0) && |r[i].0| >= least
  }

  /** The leaf of the enumeration: the dealer stands on `settled` against the player's `player`. */
  function Record(w: Tally, key: seq<Denom>, settled: int, player: int): (r: Tally)
    ensures KeptKeys(w, r) && forall i :: |w| <= i < |r| ==> r[i].0 == key
    ensures DistinctKeys(w) ==> DistinctKeys(r)
  {
    if settled > 21 || settled < player then Bump(w, key, 1)
    else if settled > player then Bump(w, key, -1)
    else w
  }

  /**
   * standBfs on a hand state: the tally it leaves and the hand state it leaves.
   * The first value() call may set `hardened`; the value every later call reports
   * is that of the settled state.
   */
  function Explore(s: HandState, player: int, w: Tally, skipA: bool, skipT: bool): (r: (Tally, HandState))
    requires 1 <= |s.cards| <= MaxCards
    ensures r.1.cards == s.cards
    ensures s.hardened ==> r.1.hardened
    ensures KeptKeys(w, r.0)
    ensures DistinctKeys(w) ==> DistinctKeys(r.0)
    ensures NewKeysFrom(w, r.0, s.cards[1..], if DealerRule(ValueOf(s).0) then |s.cards| else |s.cards| - 1)
    decreases MaxCards - |s.cards|, 1
  {
    var (v, s1) := ValueOf(s);
    if !DealerRule(v) then (Record(w, DrawKey(s.cards), ValueOf(s1).0.value, player), s1)
    else
      ExploreDraws(s1, player, w, DrawOrder(skipA, skipT))
  }

  /** The draws of one hand, in order: add the card, recurse with no skips, pop the card. */
  function ExploreDraws(s: HandState, player: int, w: Tally, draws: seq<Denom>): (r: (Tally, HandState))
    requires 1 <= |s.cards| < MaxCards
    ensures r.1.cards == s.cards
    ensures s.hardened ==> r.1.hardened
    ensures KeptKeys(w, r.0)
    ensures DistinctKeys(w) ==> DistinctKeys(r.0)
    ensures NewKeysFrom(w, r.0, s.cards[1..], |s.cards|)
    decreases MaxCards - |s.cards|, 0, |draws|
  {
    if draws == [] then (w, s)
    else
      var child := HandState(s.cards + [Card(draws[0])], s.hardened);
      var (w1, s1) := Explore(child, player, w, false, false);
      var back := HandState(s1.cards[..|s1.cards| - 1], s1.hardened);
      DrawnGrows(s.cards, Card(draws[0]));
      assert back.cards == s.cards;
      ExploreDraws(back, player, w1, draws[1..])
  }

  lemma DrawnGrows(cards: seq<Card>, c: Card)
    requires |cards| >= 1
    ensures (cards + [c])[1..] == cards[1..] + [c]
    ensures multiset(Denoms(cards[1..])) <= multiset(Denoms((cards + [c])[1..]))
    ensures |Denoms((cards + [c])[1..])| == |cards|
  {
    assert (cards + [c])[1..] == cards[1..] + [c];
    assert Denoms(cards[1..] + [c]) == Denoms(cards[1..]) + [c.denom];
  }

  /**
   * At a hand where the dealer stands, the tally changes only at the hand's key:
   * +1 for a settled total above 21 or below the player's, -1 above the player's,
   * nothing on a tie.
   */
  lemma StandLeaf(s: HandState, player: int, w: Tally, skipA: bool, skipT: bool)
    requires 1 <= |s.cards| <= MaxCards && !DealerRule(ValueOf(s).0)
    ensures var r := Explore(s, player, w, skipA, skipT).0;
            var key := DrawKey(s.cards);
            var settled := ValueOf(ValueOf(s).1).0.value;
            Lookup(r, key) == Lookup(w, key) + (if settled > 21 || settled < player then 1 else if settled > player then -1 else 0) &&
            forall k :: k != key ==> Lookup(r, k) == Lookup(w, k)
  {
  }

  /**
   * The hardened flag outlives the branch that set it. Under an up-card A the first
   * draw is A: value() on A,A demotes an Ace and hardens the hand, and popping the
   * second A leaves the flag set. The later sibling A,9 is then valued as hard 10, so
   * the dealer draws on it, where a fresh A,9 is soft 20 and stands.
   */
  lemma HardenedCarriesOver(player: int, w: Tally)
    ensures var first := Explore(HandState([Card('A'), Card('A')], false), player, w, false, false);
            first.1 == HandState([Card('A'), Card('A')], true) &&
            ExploreDraws(HandState([Card('A')], false), player, w, ['A', '9']) ==
              ExploreDraws(HandState([Card('A')], true), player, first.0, ['9'])
    ensures ValueOf(HandState([Card('A'), Card('9')], true)).0 == HandValue(10, false)
    ensures ValueOf(HandState([Card('A'), Card('9')], false)).0 == HandValue(20, true)
    ensures DealerRule(HandValue(10, false)) && !DealerRule(HandValue(20, true))
  {
    AcesHarden(player, w);
    SecondDraw(player, w);
    AceNine();
  }

  lemma AcesHarden(player: int, w: Tally)
    ensures Explore(HandState([Card('A'), Card('A')], false), player, w, false, false).1 ==
            HandState([Card('A'), Card('A')], true)
  {
    var aa := HandState([Card('A'), Card('A')], false);
    TwoCards(Card('A'), Card('A'), true);
    ValueCases(aa);
    assert ValueOf(aa) == (HandValue(12, false), HandState(aa.cards, true));
  }

  /** The second draw under an up-card A starts from the state the first draw left. */
  lemma SecondDraw(player: int, w: Tally)
    ensures var first := Explore(HandState([Card('A'), Card('A')], false), player, w, false, false);
            ExploreDraws(HandState([Card('A')], false), player, w, ['A', '9']) ==
              ExploreDraws(HandState(first.1.cards[..1], first.1.hardened), player, first.0, ['9'])
  {
    var root := HandState([Card('A')], false);
    assert root.cards + [Card('A')] == [Card('A'), Card('A')];
    assert ['A', '9'][1..] == ['9'];
  }

  lemma AceNine()
    ensures ValueOf(HandState([Card('A'), Card('9')], true)).0 == HandValue(10, false)
    ensures ValueOf(HandState([Card('A'), Card('9')], false)).0 == HandValue(20, true)
  {
    TwoCards(Card('A'), Card('9'), true);
    TwoCards(Card('A'), Card('9'), false);
    ValueCases(HandState([Card('A'), Card('9')], true));
    ValueCases(HandState([Card('A'), Card('9')], false));
  }

  /**
   * A standing hand is scored by the value reported after the draw check. On 6,A,A
   * the check's value() call demotes an Ace and reports 18, so the dealer stands;
   * the scoring calls then see the hardened hand, worth 8, and the leaf counts as
   * a dealer total below any player total of 9 or more.
   */
  lemma LeafScoredHardened(player: int, w: Tally)
    requires player >= 9
    ensures var s := HandState([Card('6'), Card('A'), Card('A')], false);
            ValueOf(s).0 == HandValue(18, false) && !DealerRule(ValueOf(s).0) &&
            ValueOf(ValueOf(s).1).0 == HandValue(8, false) &&
            Lookup(Explore(s, player, w, false, false).0, ['A', 'A']) == Lookup(w, ['A', 'A']) + 1
  {
    var s := HandState([Card('6'), Card('A'), Card('A')], false);
    SixAces();
    assert DrawKey(s.cards) == ['A', 'A'] by { SixAcesKey(); }
    StandLeaf(s, player, w, false, false);
  }

  lemma SixAces()
    ensures var s := HandState([Card('6'), Card('A'), Card('A')], false);
            ValueOf(s).0 == HandValue(18, false) && ValueOf(ValueOf(s).1).0 == HandValue(8, false)
  {
    var cs := [Card('6'), Card('A'), Card('A')];
    assert cs[..2] == [Card('6'), Card('A')];
    TwoCards(Card('6'), Card('A'), true);
    TwoCards(Card('6'), Card('A'), false);
    assert Total(cs, true) == 28 && Total(cs, false) == 8;
    assert HasAce(cs) by { assert cs[2].denom == 'A'; }
    ValueCases(HandState(cs, false));
    ValueCases(HandState(cs, true));
  }

  lemma SixAcesKey()
    ensures DrawKey([Card('6'), Card('A'), Card('A')]) == ['A', 'A']
  {
    var k := DrawKey([Card('6'), Card('A'), Card('A')]);
    var drawn := Denoms([Card('6'), Card('A'), Card('A')][1..]);
    assert drawn == ['A', 'A'];
    SortedUnique(k, ['A', 'A']);
  }

  /** The up-card alone always draws, so every key the enumeration records is non-empty. */
  lemma UpCardDraws(up: Card, hardened: bool, player: int, w: Tally, skipA: bool, skipT: bool)
    ensures DealerRule(ValueOf(HandState([up], hardened)).0)
    ensures NewKeysFrom(w, Explore(HandState([up], hardened), player, w, skipA, skipT).0, [], 1)
  {
    var s := HandState([up], hardened);
    assert [up][..0] == [] && [up][0] == up;
    assert Total([up], !hardened) == CardValue(up, !hardened);
  }

  // ---------------------------------------------------------------------------
  // The enumeration on a mutable Hand

  /**
   * standBfs(hand, playerShowing, variables, wrapper, skipA, skipT). The wrapper map
   * is passed in and its new contents returned; the unused `variables` parameter
   * is dropped.
   */
  method StandBfs(hand: Hand, player: int, wrapper: Tally, skipA: bool, skipT: bool) returns (w: Tally)
    requires 1 <= |hand.cards| <= MaxCards
    modifies hand
    ensures (w, hand.State()) == Explore(old(hand.State()), player, wrapper, skipA, skipT)
    ensures hand.doubled == old(hand.doubled)
    decreases MaxCards - |hand.cards|, 1
  {
    ghost var s0 := hand.State();
    var draw := hand.ShouldDealerDraw();
    if !draw {
      ValueSettles(s0);
      w := RecordStand(hand, player, wrapper);
    } else {
      w := DrawAll(hand, player, wrapper, DrawOrder(skipA, skipT));
    }
  }

  /** The leaf branch: the value() calls of isBust and the two comparisons, on a settled hand. */
  method RecordStand(hand: Hand, player: int, wrapper: Tally) returns (w: Tally)
    requires |hand.cards| >= 1 && ValueOf(hand.State()).1 == hand.State()
    modifies hand
    ensures hand.State() == old(hand.State()) && hand.doubled == old(hand.doubled)
    ensures w == Record(wrapper, DrawKey(hand.cards), ValueOf(hand.State()).0.value, player)
  {
    var key := DrawKey(hand.cards);
    var bust := hand.IsBust();
    if bust {
      return Bump(wrapper, key, 1);
    }
    var v := hand.Value();
    if v.value < player {
      return Bump(wrapper, key, 1);
    }
    v := hand.Value();
    if v.value > player {
      return Bump(wrapper, key, -1);
    }
    return wrapper;
  }

  /** The `forEach` over the cards to try: addCard, recurse without skips, popCard. */
  method DrawAll(hand: Hand, player: int, wrapper: Tally, draws: seq<Denom>) returns (w: Tally)
    requires 1 <= |hand.cards| < MaxCards
    modifies hand
    ensures (w, hand.State()) == ExploreDraws(old(hand.State()), player, wrapper, draws)
    ensures hand.doubled == old(hand.doubled)
    decreases MaxCards - |hand.cards|, 0
  {
    w := wrapper;
    ghost var s0 := hand.State();
    var i := 0;
    while i < |draws|
      invariant 0 <= i <= |draws|
      invariant hand.cards == s0.cards
      invariant ExploreDraws(hand.State(), player, w, draws[i..]) == ExploreDraws(s0, player, wrapper, draws)
      invariant hand.doubled == old(hand.doubled)
    {
      hand.AddCard(Card(draws[i]));
      w := StandBfs(hand, player, w, false, false);
      hand.PopCard();
      assert draws[i..][1..] == draws[i + 1..];
      i := i + 1;
    }
  }
}
