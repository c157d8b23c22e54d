/**
 * Cards and hand values shared by the game and the strategy calculator
 * (app/src/main/kotlin/shared.kt).
 */
module Shared {
  import opened Wrappers

  /** The characters that name a denomination: A, the digits 2..9, and T. */
  predicate IsDenom(c: char)
  {
    c == 'A' || '2' <= c <= '9' || c == 'T'
  }

  /** The ten denominations; 'T' stands for every ten-valued rank. */
  type Denom = c: char | IsDenom(c) witness 'A'

  datatype Card = Card(denom: Denom)

  /** all_denoms: the fixed column order of the calculator, A, 2..9, T. */
  const AllDenoms: seq<Denom> := ['A', '2', '3', '4', '5', '6', '7', '8', '9', 'T']

  /** all_cards: one Card per denomination, in the order of AllDenoms. */
  const AllCards: seq<Card> := seq(|AllDenoms|, i requires 0 <= i < |AllDenoms| => Card(AllDenoms[i]))

  /** all_cards lists the cards of all_denoms, in the same order. */
  lemma AllCardsFacts()
    ensures |AllDenoms| == 10 && |AllCards| == 10
    ensures forall i :: 0 <= i < |AllCards| ==> AllCards[i] == Card(AllDenoms[i])
  {
  }

  lemma AllDenomsFacts()
    ensures |AllDenoms| == 10 && |AllCards| == 10
    ensures forall i, j :: 0 <= i < j < |AllDenoms| ==> AllDenoms[i] != AllDenoms[j]
    ensures forall d: Denom :: d in AllDenoms
    ensures forall i :: 0 <= i < |AllCards| ==> AllCards[i] == Card(AllDenoms[i])
    ensures AllDenoms[0] == 'A' && AllDenoms[9] == 'T'
  {
  }

  /** Position of a denomination in AllDenoms. */
  function DenomIndex(d: Denom): (i: nat)
    ensures i < |AllDenoms| && AllDenoms[i] == d
  {
    match d
    case 'A' => 0
    case 'T' => 9
    case _ => (d as int) - ('0' as int) - 1
  }

  lemma DenomIndexInjective(d: Denom, e: Denom)
    ensures DenomIndex(d) == DenomIndex(e) ==> d == e
  {
  }

  /** Value of a digit character, as Kotlin's toString().toInt() gives it. */
  function DigitValue(c: char): int
  {
    (c as int) - ('0' as int)
  }

  /** cardValue: an Ace is 11 when it may be soft and 1 otherwise, T is 10, a digit its face value. */
  function CardValue(card: Card, canBeSoft: bool): (v: int)
    ensures 1 <= v <= 11
    ensures v == 11 <==> card.denom == 'A' && canBeSoft
    ensures v == 1 <==> card.denom == 'A' && !canBeSoft
    ensures card.denom != 'A' ==> 2 <= v <= 10
    ensures card.denom == 'T' ==> v == 10
  {
    match card.denom
    case 'A' => if canBeSoft then 11 else 1
    case 'T' => 10
    case _ => DigitValue(card.denom)
  }

  /** With Aces counted low, the value identifies the denomination. */
  lemma CardValueInjective(a: Card, b: Card, canBeSoft: bool)
    ensures CardValue(a, canBeSoft) == CardValue(b, canBeSoft) ==> a == b
  {
  }

  /** HandValue: a total and whether an Ace is currently counted as 11. */
  datatype HandValue = HandValue(value: int, soft: bool)

  // ---------------------------------------------------------------------
  // Decimal rendering, as Kotlin's string templates render an Int.

  function DigitChar(n: nat): (c: char)
    requires n < 10
    ensures '0' <= c <= '9' && DigitValue(c) == n
  {
    ('0' as int + n) as char
  }

  predicate IsDigits(s: string)
  {
    forall i :: 0 <= i < |s| ==> '0' <= s[i] <= '9'
  }

  function NatStr(n: nat): (s: string)
    ensures |s| > 0 && IsDigits(s)
  {
    if n < 10 then [DigitChar(n)] else NatStr(n / 10) + [DigitChar(n % 10)]
  }

  function IntStr(n: int): (s: string)
  {
    if n < 0 then "-" + NatStr(-n) else NatStr(n)
  }

  function ParseNat(s: string): nat
    requires IsDigits(s)
  {
    if s == [] then 0 else ParseNat(s[..|s| - 1]) * 10 + DigitValue(s[|s| - 1])
  }

  function ParseInt(s: string): Option<int>
  {
    if |s| > 1 && s[0] == '-' && IsDigits(s[1..]) then var n: int := 0 - (ParseNat(s[1..]) as int); Some(n)
    else if |s| > 0 && IsDigits(s) then Some(ParseNat(s))
    else None
  }

  lemma {:induction false} NatStrRoundTrip(n: nat)
    ensures ParseNat(NatStr(n)) == n
  {
    if n >= 10 {
      var s := NatStr(n);
      assert s[..|s| - 1] == NatStr(n / 10);
      NatStrRoundTrip(n / 10);
    }
  }

  /** The decimal rendering of an Int parses back to it; hence it is injective. */
  lemma IntStrRoundTrip(n: int)
    ensures ParseInt(IntStr(n)) == Some(n)
    ensures |IntStr(n)| > 0 && (IntStr(n)[0] == '-' || '0' <= IntStr(n)[0] <= '9')
    ensures forall i :: 0 <= i < |IntStr(n)| ==> IntStr(n)[i] == '-' || '0' <= IntStr(n)[i] <= '9'
  {
    if n < 0 {
      NatStrRoundTrip(-n);
      assert IntStr(n)[1..] == NatStr(-n);
    } else {
      NatStrRoundTrip(n);
    }
  }

  lemma IntStrInjective(m: int, n: int)
    ensures IntStr(m) == IntStr(n) ==> m == n
  {
    IntStrRoundTrip(m);
    IntStrRoundTrip(n);
  }

  // ---------------------------------------------------------------------

  /** handValueStr: "Soft n" for a soft value, the plain decimal total otherwise. */
  function HandValueStr(v: HandValue): (s: string)
  {
    if v.soft then "Soft " + IntStr(v.value) else IntStr(v.value)
  }

  /** Reads back what HandValueStr writes; the partner of HandValueStr. */
  function ParseHandValueStr(s: string): Option<HandValue>
  {
    if |s| >= 5 && s[..5] == "Soft " then
      match ParseInt(s[5..])
      case Some(n) => Some(HandValue(n, true))
      case None => None
    else
      match ParseInt(s)
      case Some(n) => Some(HandValue(n, false))
      case None => None
  }

  lemma HandValueStrRoundTrip(v: HandValue)
    ensures ParseHandValueStr(HandValueStr(v)) == Some(v)
    ensures v.soft <==> |HandValueStr(v)| >= 5 && HandValueStr(v)[..5] == "Soft "
  {
    IntStrRoundTrip(v.value);
    var s := HandValueStr(v);
    if v.soft {
      assert s[5..] == IntStr(v.value);
    } else {
      assert s == IntStr(v.value);
      if |s| >= 5 {
        assert s[0] != 'S';
      }
    }
  }

  // ---------------------------------------------------------------------
  // Game vocabulary.

  const DealerIndex: int := 0

  datatype Player = Player(index: int)

  datatype Outcome =
    | Human | Dealer | Tie | HumanBust | DealerBust | HumanBlackjack | HumanBlackjackTwoToOne
    | DealerBlackjack | DoubleWin | DoubleLoss | DoubleDealerBust | DoubleHumanBust

  datatype Button = Hit | Stand | Deal | Double | Split | NewShoe
}
