# Blackjack basic strategy and round state, in Dafny

This project models the core of black-jack-stats, a blackjack trainer written in Kotlin, and proves properties of the model. The core has two parts.

**The strategy calculator** (`Calculator.kt`) derives a basic-strategy table from the chances of the next card. It works in four steps:

- It walks the sequences of cards the dealer can draw from an up-card (`standBfs`), backtracking: add a card, recurse, pop it. It tallies, per sorted multiset of drawn cards, whether the player at a fixed total wins (+1) or loses (-1). The hand's sticky `hardened` flag survives the pop, so a later branch can be valued with an Ace already counted as 1 (see below).
- It builds symbolic equations for standing, hitting, doubling and splitting at every player total against every up-card (`compute*`, `createVariables`).
- It evaluates the equations in a fixed dependency order (`evaluateShoe`). For each cell it stores est (stand), ehi (best of hit and stand), edo (best with double) and esp (best with split).
- It reads a 38-row table of decisions off the stored values (`rowsFromShoe` / `addRow`).

**The game state** (`Model.kt`, `shared.kt`) has three parts:

- the shoe, with its card counts;
- the hands, with their sticky `hardened` flag (an Ace that has once been counted as 1 stays 1);
- the round state, made of the dealer's hand, the player's hands after splits, the hand in play, and the profit. Settling a round pays each hand.

Layout, one module per file:

| file | models |
|---|---|
| `wrappers.dfy` | Option and Result |
| `shared.dfy` | cards, card values, `handValueStr`, players, outcomes and buttons |
| `hands.dfy` | `Hand` as a class; `value()` as the pure `ValueOf` on a hand state |
| `shoes.dfy` | `Shoe` as a class; the odds of each denomination |
| `game.dfy` | `Model` as a class; settlement as pure functions on hand states |
| `expressions.dfy` | the Expression tree, evaluation and printing |
| `keys.dfy` | variable names as structured keys, with their string form |
| `dealer.dfy` | `standBfs`, as a method on a `Hand` and as a function on hand states |
| `equations.dfy` | the `compute*` builders, as methods with loops and as reference functions |
| `tables.dfy` | `EquationSet` and `createVariables` |
| `evaluator.dfy` | `evaluateShoe` |
| `rows.dfy` | `rowsFromShoe` and `addRow` |

Main results:

- Every variable that any equation reads is stored before that equation is evaluated. So evaluating a table built by `createVariables` never fails with an unbound variable (`Evaluator.EvaluateShoe`).
- Every stored value satisfies its cell's equation, and `est <= ehi <= edo` and `edo <= esp` hold in every cell.
- The table `rowsFromShoe` returns is the one read from the stored values, and each of its hard-total and pair cells names the best choice (`Rows.RowsFromShoe`, `Rows.TableIsBest`).
- On hands that are already settled (a first `value()` call has been made), settling a round pays exactly the amounts of the payout table (`Game.SettledPayout`). On unsettled hands the `value()` calls made during the comparison can demote an Ace midway and change the outcome (`Game.SoftTotalDropsMidSettlement`). Either way the profit moves by the sum of what is paid (`Game.Model.Gain`).

Where the code does something other than what its labels, names and comments suggest, the model follows the code:

- **Soft rows:** `rowsFromShoe` labels rows s21..s13 and A/A, but `addRow` looks up the hard keys `"${playerShowing}_$dealerShowing"` for every row (Calculator.kt:428-464). The soft rows therefore repeat the decisions of hard 21..13, and the A/A row repeats the 6/6 row, since both read hard 12 (`Rows.TableRepeats`).
- **Hard doubles with an Ace:** `computeDouble` (Calculator.kt:215-229) counts a drawn Ace as 11 whenever that stays at or below 21, so for a hard total p of at most 10 it reads the hard key `est_${p+11}` rather than the soft `est_s${p+11}` the resulting soft hand would suggest (`Equations.DoubleTerm`). This changes no value: the stand equation depends only on the total, so the soft and hard cells of one total get the same one (`Tables.StandOf`).
- **Split at total 2:** `computeSplit` (Calculator.kt:245-274) still builds the split equation for total 2, with its divisor on `p_A`, although the comment there says that name will not be used.
- **Hardened across branches:** `standBfs` pops the drawn card but never resets `hardened` (taking `popCard` to remove only the last card, as `Hands.Hand.PopCard` does). Under an up-card A, the branch A,A hardens the hand; the next branch A,9 is then valued as hard 10 and the dealer draws, where a fresh A,9 is soft 20 and stands (`Dealer.HardenedCarriesOver`).
- **Dealer hand stays hardened:** `clear()` empties the cards but keeps `hardened`, and nothing else resets the dealer's hand (Model.kt:43-45, 97, 229-234). Once a dealer hand has demoted an Ace, later dealer Aces count as 1 in every following round, and a dealer A,T is worth 11 and is never a blackjack (`Game.Model.UpdateStartOfHand`, `Hands.HardenedAceTen`).
- **Leaf scoring:** `standBfs` scores a standing hand by the value the draw check's `value()` call leaves behind (Calculator.kt:134-143). On 6,A,A that check reports 18, not soft, after demoting an Ace, so the dealer stands; the hand is now hardened, and it is scored as 8 (`Dealer.LeafScoredHardened`).

## Model

| member | source | states |
|---|---|---|
| Shared.CardValue | app/src/main/kotlin/shared.kt:29-35 | An Ace is 11 exactly when it may be soft and 1 otherwise; T is 10; a digit card is its digit (2..9) |
| Shared.CardValueInjective | app/src/main/kotlin/shared.kt:29-35 | For a fixed softness, distinct cards have distinct values |
| Shared.DenomIndex | app/src/main/kotlin/shared.kt:2-3 | Every denomination occurs in all_denoms, and this is its position |
| Shared.AllDenomsFacts | app/src/main/kotlin/shared.kt:2-3 | all_denoms holds ten distinct denominations, A first and T last, and all_cards is the card of each in the same order |
| Shared.HandValueStrRoundTrip | app/src/main/kotlin/shared.kt:7-12 | handValueStr parses back to the same HandValue; the string starts with "Soft " exactly when the value is soft |
| Shared.IntStrRoundTrip | app/src/main/kotlin/shared.kt:7-12 | The decimal form of an integer (as in string templates) parses back to it and uses only digits and a leading minus |
| Shared.IntStrInjective | app/src/main/kotlin/shared.kt:7-12 | Distinct integers print differently |
| Hands.TotalBounds | app/src/main/kotlin/Model.kt:59-74 | The summed card values are at least one per card (two per card with soft Aces); without an Ace the softness does not matter |
| Hands.ValueOf | app/src/main/kotlin/Model.kt:59-74 | value() keeps the cards; once hardened it changes nothing; a soft result is at most 21 and leaves the hand unhardened; the value is at least the card count |
| Hands.ValueSettles | app/src/main/kotlin/Model.kt:59-74 | A second value() call changes nothing; after a hardening it reports the all-Aces-as-1 total, hard |
| Hands.HardenedAceTen | app/src/main/kotlin/Model.kt:43-45 | A hardened A,T (as a dealer hand is after clear() in a later round) is worth 11 and is no blackjack, where a fresh A,T is one |
| Hands.TwoAcesValue | app/src/main/kotlin/Model.kt:59-74 | Two Aces first report hard 12 (22 less 10) and on every later call hard 2, because the flag is sticky |
| Hands.BlackjackCards | app/src/main/kotlin/Model.kt:84-87 | isBlackjack holds exactly for two unhardened cards that are an Ace and a T, in either order |
| Hands.Hand.constructor | app/src/main/kotlin/Model.kt:34-37 | A new hand has its index, no cards, is not doubled and not hardened |
| Hands.Hand.AddCard | app/src/main/kotlin/Model.kt:39-41 | The card is appended; the flags do not change |
| Hands.Hand.Clear | app/src/main/kotlin/Model.kt:43-45 | The cards are emptied; the flags do not change |
| Hands.Hand.UpdateHand | app/src/main/kotlin/Model.kt:47-52 | The cards are replaced and the hand is unhardened |
| Hands.Hand.Double | app/src/main/kotlin/Model.kt:54-57 | The hand is marked doubled; nothing else changes |
| Hands.Hand.PopCard | app/src/main/kotlin/Calculator.kt:150-152 | The last card is removed; the flags do not change |
| Hands.Hand.Value | app/src/main/kotlin/Model.kt:59-74 | Returns and leaves exactly what ValueOf gives for the old state |
| Hands.Hand.NCards | app/src/main/kotlin/Model.kt:76-78 | The number of cards held; a splittable hand has two, so it is also offered Double |
| Hands.Hand.IsSplittable | app/src/main/kotlin/Model.kt:80-82 | True iff the hand has exactly two cards of one denomination |
| Hands.Hand.IsBlackjack | app/src/main/kotlin/Model.kt:84-87 | Agrees with BlackjackOf, including its effect on hardened; true only for two cards |
| Hands.Hand.IsBust | app/src/main/kotlin/Model.kt:89-91 | Agrees with BustOf, a value over 21, including its effect on hardened |
| Hands.Hand.ShouldDealerDraw | app/src/main/kotlin/Model.kt:175-183 | The dealer draws iff the value is below 17 or soft below 18; the hand is left as value() leaves it |
| Shoes.Shoe.constructor | app/src/main/kotlin/Model.kt:6 | A new shoe holds 4 of each denomination and 16 tens, 52 cards, and is not finished |
| Shoes.Shoe.DrawCard | app/src/main/kotlin/Model.kt:8-27 | An empty shoe is the "Ran out of cards" failure; otherwise the drawn denomination had a card left (the source can also draw an A with none left; see Left out), only its count drops by one, and the total drops by one |
| Shoes.Shoe.Odds | app/src/main/kotlin/Calculator.kt:331-333 | Every denomination has a chance, its count over the total, never negative |
| Shoes.Shoe.OddsSumToOne | app/src/main/kotlin/Calculator.kt:331-333 | The chances of the ten denominations add up to one |
| Shoes.SumOverUpdate | app/src/main/kotlin/Model.kt:9 | Changing one count changes the sum of counts by the difference |
| Shoes.SumInitial | app/src/main/kotlin/Model.kt:6 | The initial counts sum to four per denomination plus twelve for the tens |
| Shoes.Decrement | app/src/main/kotlin/Model.kt:21 | Removing one of a present card keeps the counts non-negative and lowers the total by one |
| Shoes.PositiveCount | app/src/main/kotlin/Model.kt:17-24 | A shoe with a positive total has a denomination with a card left, so a draw can succeed |
| Game.Showdown | app/src/main/kotlin/Model.kt:147-158 | The comparison pays 0, ±2 or ±4 half-units, 0 exactly on a tie, ±4 exactly when doubled; the cards of both hands are unchanged |
| Game.Settle | app/src/main/kotlin/Model.kt:141-159 | Settling pays one of 0, ±2, 3, ±4 half-units; 3 exactly for a 3:2 blackjack, which never happens after a split |
| Game.SettledPayout | app/src/main/kotlin/Model.kt:141-159 | On settled hands the payout is the blackjack table: both blackjack 0, player blackjack 3 (2 after a split), dealer blackjack -2, then bust, dealer bust and comparison at the stake (4 if doubled, else 2) |
| Game.SoftTotalDropsMidSettlement | app/src/main/kotlin/Model.kt:154-157 | A,A,9 shows 21 at the first value() call and is hardened by it, so it is then compared as 11 and loses to 17 |
| Game.SettleAll | app/src/main/kotlin/Model.kt:140-160 | One settlement per hand, each paying between -4 and 4 half-units |
| Game.PaySumBounds | app/src/main/kotlin/Model.kt:161-163 | The total paid over n hands is between -4n and 4n half-units |
| Game.BlackjackOrBust | app/src/main/kotlin/Model.kt:172 | The test keeps the hand's cards |
| Game.BlackjackOrBustSettled | app/src/main/kotlin/Model.kt:172 | On a settled hand the test is a two-card 21 or a value over 21, and changes nothing |
| Game.FirstMiss | app/src/main/kotlin/Model.kt:172 | The position where `all` stops: every earlier hand passes the test and the hand there fails it |
| Game.Buttons | app/src/main/kotlin/Model.kt:120-137 | At the end of a hand: NewShoe last, and Deal iff the shoe is not finished. During play: Hit and Stand first, Double iff two cards, Split iff splittable. No button is repeated |
| Game.Model.constructor | app/src/main/kotlin/Model.kt:94-102 | A fresh full shoe (4 of each denomination and 16 tens), an empty, unhardened and undoubled dealer hand with index 0, no player hands, index 0, profit 0 |
| Game.Model.HandStates | app/src/main/kotlin/Model.kt:98 | The states of the player's hands, in order |
| Game.Model.Doubled | app/src/main/kotlin/Model.kt:98 | The doubled flags of the player's hands, in order |
| Game.Model.DrawCardUpdateDistribution | app/src/main/kotlin/Model.kt:104-107 | Fails iff the shoe was empty; otherwise returns the new distribution, which is the old one less the drawn card |
| Game.Model.HandFor | app/src/main/kotlin/Model.kt:113-116 | Returns the hand at a 1-based index, appending a new empty hand with that index when the index is one past the end |
| Game.Model.AddCard | app/src/main/kotlin/Model.kt:109-118 | The card goes to the dealer for index 0, else to the player's hand at that index (created if new); the target keeps its hardened and doubled flags, and a created hand starts with both false; no other hand changes |
| Game.Model.UpdateHand | app/src/main/kotlin/Model.kt:214-220 | The hand at the index now holds just the card and is unhardened; it keeps its doubled flag, or is undoubled when created; no other hand changes |
| Game.Model.ActiveButtons | app/src/main/kotlin/Model.kt:120-137 | The buttons Buttons gives for the end-of-hand flag, the shoe and the hand in play |
| Game.Model.SettleHand | app/src/main/kotlin/Model.kt:141-159 | One settlement, including every value() call's effect on both hands, is exactly Settle |
| Game.Model.ShowdownHand | app/src/main/kotlin/Model.kt:147-158 | The comparison, including its effect on both hands, is exactly Showdown |
| Game.Model.ResultsUpdateProfit | app/src/main/kotlin/Model.kt:139-165 | Reports SettleAll of the hands in order (split iff more than one hand); leaves every hand as settlement leaves it; adds the sum of the payouts to the profit, which moves by at most 4 half-units per hand; the doubled flags of every hand and of the dealer stay |
| Game.Model.SettleHands | app/src/main/kotlin/Model.kt:140-160 | The `map` over the hands reports SettleAll, threading the dealer's state through the hands in order |
| Game.Model.SettleNext | app/src/main/kotlin/Model.kt:141-159 | Settling hand i extends the settled prefix by Settle of that hand against the dealer's current state |
| Game.Model.Gain | app/src/main/kotlin/Model.kt:161-163 | The profit increment is the sum of the payouts of the results, in order |
| Game.Model.UpdateEndOfHand | app/src/main/kotlin/Model.kt:167-169 | Sets the end-of-hand flag; nothing else changes |
| Game.Model.AllHandsBlackjackOrBust | app/src/main/kotlin/Model.kt:171-173 | True iff every hand is a blackjack or bust; only the hands up to the first failure are examined (and changed); the dealer's hand and all doubled flags stay |
| Game.Model.HandBlackjackOrBust | app/src/main/kotlin/Model.kt:172 | `isBlackjack() \|\| value().value > 21` on one hand is BlackjackOrBust of its state, including the effect of each call on `hardened`; the doubled flag is kept |
| Game.Model.CheckHand | app/src/main/kotlin/Model.kt:172 | Testing one hand is BlackjackOrBust of its state; the other hands keep theirs |
| Game.Model.DealerShouldDraw | app/src/main/kotlin/Model.kt:175-183 | The dealer draws iff below 17 or soft below 18; the dealer's hand is left as value() leaves it |
| Game.Model.IsAnotherHand | app/src/main/kotlin/Model.kt:185-187 | True iff a hand follows the one in play |
| Game.Model.AdvanceToNextHand | app/src/main/kotlin/Model.kt:189-191 | The index moves on by one; nothing else changes |
| Game.Model.HumanHandIndex | app/src/main/kotlin/Model.kt:193-196 | The 1-based player of the hand in play, never the dealer |
| Game.Model.IsBust | app/src/main/kotlin/Model.kt:198-200 | BustOf the hand in play, including its effect on that hand; its doubled flag is kept |
| Game.Model.DoubleBet | app/src/main/kotlin/Model.kt:202-204 | The hand in play is doubled and its cards and flag are unchanged |
| Game.Model.GetSplitCard | app/src/main/kotlin/Model.kt:206-208 | A card of the hand in play; for a splittable hand, the card it is a pair of |
| Game.Model.HumanHandsLength | app/src/main/kotlin/Model.kt:210-212 | The number of player hands |
| Game.Model.IsBlackjack | app/src/main/kotlin/Model.kt:222-227 | BlackjackOf the dealer's hand for index 0, else of the player's hand at the index; that hand's doubled flag is kept; no other hand changes |
| Game.Model.UpdateStartOfHand | app/src/main/kotlin/Model.kt:229-234 | The dealer's hand is emptied, there is one new empty player hand with index 1, and play starts at it; the dealer's hardened and doubled flags are kept, as clear() keeps them |
| Game.Model.NewShoe | app/src/main/kotlin/Model.kt:240-242 | A fresh full shoe, 4 of each denomination and 16 tens; nothing else changes |
| Expressions.OkBindsVars | app/src/main/kotlin/Calculator.kt:4-92 | An expression that evaluates has every variable it mentions bound |
| Expressions.Evaluate | app/src/main/kotlin/Calculator.kt:4-92 | An unbound-variable error names a variable the expression mentions and the bindings lack, so with every variable bound it cannot occur |
| Expressions.EvaluateFrame | app/src/main/kotlin/Calculator.kt:4-92 | Evaluation depends only on the bindings of the expression's own variables |
| Expressions.EvaluateExtend | app/src/main/kotlin/Calculator.kt:4-92 | Adding bindings does not change a successful evaluation |
| Expressions.EvaluateTwo | app/src/main/kotlin/Calculator.kt:25-43 | A two-term Sum evaluates to the sum of the terms' values, and a two-term Product to their product |
| Expressions.Print | app/src/main/kotlin/Calculator.kt:89-91 | A binary node prints parenthesised: at least five characters, opening with "(" and closing with ")" |
| Expressions.PrintParens | app/src/main/kotlin/Calculator.kt:25-91 | When names and constants print without parentheses, a print holds exactly one "(" and one ")" per binary node, so only binary nodes are parenthesised |
| Expressions.UsageExample | app/src/main/kotlin/Calculator.kt:94-111 | (x + 10) - (y / 5) prints as ((x + 10.0) - (y / 5.0)) and evaluates to 8 at x = 2, y = 20 |
| Expressions.AmbiguousPrint | app/src/main/kotlin/Calculator.kt:25-43 | (x + y) * z and x + y * z print the same because Sum and Product print without parentheses, yet evaluate to 4 and 3 |
| Keys.CellName | app/src/main/kotlin/Calculator.kt:312-321 | A cell's key ends in "_" and the dealer's card, and starts with "s" exactly for a soft total |
| Keys.Name | app/src/main/kotlin/Calculator.kt:297-307 | A probability's name is "p_" and its card, the only names of length 3; a payoff's name is its kind's three letters, "_" and the cell's key |
| Keys.CellNameRoundTrip | app/src/main/kotlin/Calculator.kt:312-321 | The map key of a cell ("17_T", "s18_A") parses back to the cell |
| Keys.NameRoundTrip | app/src/main/kotlin/Calculator.kt:297-307 | A variable name ("p_A", "ehi_s18_A") parses back to its key |
| Keys.NameInjective | app/src/main/kotlin/Calculator.kt:297-307 | Distinct variables have distinct names, so keying by structure holds what keying by string holds |
| Dealer.Sort | app/src/main/kotlin/Calculator.kt:136 | The key's sort is sorted and a permutation of its input |
| Dealer.SortedUnique | app/src/main/kotlin/Calculator.kt:136 | Two sorted sequences with the same multiset are equal, so the key is determined by the multiset of drawn cards |
| Dealer.DrawKey | app/src/main/kotlin/Calculator.kt:136 | The key is sorted and holds exactly the cards after the up-card |
| Dealer.IndexOf | app/src/main/kotlin/Calculator.kt:138-142 | The position of the first entry with the key, or -1 when no entry has it |
| Dealer.Bump | app/src/main/kotlin/Calculator.kt:138-142 | `wrapper[key] = getOrDefault(key, 0) + delta`: the key's count moves by delta, no other count changes, old keys keep their places, a new key goes last, keys stay distinct |
| Dealer.DrawOrder | app/src/main/kotlin/Calculator.kt:147-149 | The first draw tries every denomination except A under skipA and T under skipT |
| Dealer.FilterNoSkips | app/src/main/kotlin/Calculator.kt:147-151 | Without skips the recursive draws try all_cards in order |
| Dealer.Record | app/src/main/kotlin/Calculator.kt:136-144 | A standing hand adds at most its own key, and the keys stay distinct |
| Dealer.Explore | app/src/main/kotlin/Calculator.kt:133-154 | The enumeration leaves the cards as they were; keys stay distinct; every key it adds is sorted, holds the cards drawn so far, and is at least as long as the current draw |
| Dealer.ExploreDraws | app/src/main/kotlin/Calculator.kt:147-153 | Trying each card in turn leaves the cards as they were and adds only sorted keys extending the current draw |
| Dealer.LeafScoredHardened | app/src/main/kotlin/Calculator.kt:134-143 | On 6,A,A the draw check reports 18, not soft, after demoting an Ace, and the dealer stands, but scores the hardened value 8, so against any player total of 9 or more the key A,A counts one more loss for the dealer |
| Dealer.StandLeaf | app/src/main/kotlin/Calculator.kt:135-144 | Where the dealer stands, only the hand's key changes: +1 for bust or below the player, -1 above, 0 on a tie |
| Dealer.UpCardDraws | app/src/main/kotlin/Calculator.kt:157-164 | The up-card alone always draws, so every recorded key has at least one card |
| Dealer.HardenedCarriesOver | app/src/main/kotlin/Calculator.kt:133-154 | Under an up-card A the branch A,A leaves the hand hardened, the branch A,9 starts from that state, and hardened A,9 is hard 10 (the dealer draws) where fresh A,9 is soft 20 (the dealer stands) |
| Dealer.StandBfs | app/src/main/kotlin/Calculator.kt:133-154 | The recursive enumeration on a mutable hand leaves exactly the tally and hand state of Explore |
| Dealer.RecordStand | app/src/main/kotlin/Calculator.kt:136-144 | The leaf's calls, on a settled hand, leave the hand unchanged and give Record |
| Dealer.DrawAll | app/src/main/kotlin/Calculator.kt:147-153 | The add/recurse/pop loop leaves exactly the tally and hand state of ExploreDraws |
| Equations.ComputeStand | app/src/main/kotlin/Calculator.kt:156-177 | The stand equation is the sum over the tally of weight times the product of the key's odds, divided by 1 - p_A for an up-card T and by 1 - p_T for an up-card A |
| Equations.SumTally | app/src/main/kotlin/Calculator.kt:165-169 | One summand per tally entry, in insertion order |
| Equations.StandSkips | app/src/main/kotlin/Calculator.kt:156-177 | The stand tally is the enumeration from the up-card with the first-draw skips, and the division matches the skipped denomination |
| Equations.StandKeys | app/src/main/kotlin/Calculator.kt:163-168 | The stand tally has distinct, sorted, non-empty keys |
| Equations.StandOnlyOdds | app/src/main/kotlin/Calculator.kt:156-177 | The stand equation reads only card odds |
| Equations.HitTerm | app/src/main/kotlin/Calculator.kt:181-198 | A hit summand reads p_d and one ehi of the reached total; it is -p_d exactly when the card busts, an Ace only at 21 + 11 |
| Equations.ComputeHit | app/src/main/kotlin/Calculator.kt:179-201 | One summand per card, in all_cards order, each HitTerm |
| Equations.HitVars | app/src/main/kotlin/Calculator.kt:179-201 | The hit equation reads only odds and the ehi of the totals a card reaches |
| Equations.SoftHitTerm | app/src/main/kotlin/Calculator.kt:205-211 | A soft hit summand reads p_d and the ehi of the reached total, less ten past 21 |
| Equations.ComputeSoftHit | app/src/main/kotlin/Calculator.kt:203-214 | One summand per card, in all_cards order, each SoftHitTerm |
| Equations.SoftHitVars | app/src/main/kotlin/Calculator.kt:203-214 | The soft hit equation reads only odds and the ehi of reached totals |
| Equations.DoubleTerm | app/src/main/kotlin/Calculator.kt:218-227 | A double summand is -2 p_d exactly when the card busts (an Ace counted as 1 past 21), else 2 p_d times the est of the reached total |
| Equations.ComputeDouble | app/src/main/kotlin/Calculator.kt:216-230 | One summand per card, in all_cards order, each DoubleTerm |
| Equations.DoubleVars | app/src/main/kotlin/Calculator.kt:216-230 | The double equation reads only odds and the est of reached totals |
| Equations.SoftDoubleTerm | app/src/main/kotlin/Calculator.kt:234-240 | A soft double summand reads p_d and the est of the reached total, less ten past 21 |
| Equations.ComputeSoftDouble | app/src/main/kotlin/Calculator.kt:232-243 | One summand per card, in all_cards order, each SoftDoubleTerm |
| Equations.SoftDoubleVars | app/src/main/kotlin/Calculator.kt:232-243 | The soft double equation reads only odds and the est of reached totals |
| Equations.HalfDenom | app/src/main/kotlin/Calculator.kt:267-273 | The pair's denomination is the card worth half the total (T for 20, A for 2) |
| Equations.ComputeSplit | app/src/main/kotlin/Calculator.kt:245-275 | Zero for an odd total; otherwise twice the sum over the other cards, divided by 1 - p of the pair card |
| Equations.SplitSummands | app/src/main/kotlin/Calculator.kt:250-266 | One summand per card whose value is not half the total, in all_cards order |
| Equations.SplitShape | app/src/main/kotlin/Calculator.kt:245-275 | For an even total the summands read the odds of every card except the pair card, and the divisor is 1 - p of the pair card |
| Equations.SplitVars | app/src/main/kotlin/Calculator.kt:245-275 | The split equation reads only odds and ehi variables of the same up-card |
| Equations.ComputeSplitSoft | app/src/main/kotlin/Calculator.kt:277-290 | Zero unless soft 12; otherwise twice the sum over the non-Ace cards of p_d times ehi of soft 11 + d, over 1 - p_A |
| Equations.SplitSoftShape | app/src/main/kotlin/Calculator.kt:277-290 | Zero for every total but 12; the summands read the odds of every card but the Ace |
| Equations.SplitSoftVars | app/src/main/kotlin/Calculator.kt:277-290 | The soft split equation reads only odds and ehi variables of the same up-card |
| Tables.PutCell | app/src/main/kotlin/Calculator.kt:312-321 | The four builders' equations for a cell are stored under its key |
| Tables.FillHard | app/src/main/kotlin/Calculator.kt:311-316 | After the hard totals 2..21 of an up-card the maps hold exactly the cells so far, each with its equations |
| Tables.FillSoft | app/src/main/kotlin/Calculator.kt:317-322 | The same after the soft totals 12..21 |
| Tables.CreateVariables | app/src/main/kotlin/Calculator.kt:294-326 | The four maps hold exactly hard 2..21 and soft 12..21 against every up-card, each with its builder's equation (a soft cell's stand is the hard one) |
| Tables.PutNext | app/src/main/kotlin/Calculator.kt:310-323 | Storing the next cell extends the filled prefix by one |
| Tables.AllLookupsDeclared | app/src/main/kotlin/Calculator.kt:297-307 | Every variable an equation reads is one createVariables declares |
| Evaluator.Max | app/src/main/kotlin/Calculator.kt:341-345 | The larger of the two values |
| Evaluator.EquationsReadEarlier | app/src/main/kotlin/Calculator.kt:336-393 | The stand, hit and double equations of a cell read only odds and est/ehi/edo of cells evaluated in an earlier stage |
| Evaluator.SplitReadsMain | app/src/main/kotlin/Calculator.kt:396-415 | A split equation reads only odds and ehi of cells evaluated before the splits |
| Evaluator.BuiltOrdered | app/src/main/kotlin/Calculator.kt:294-326 | The table createVariables builds respects the evaluation order |
| Evaluator.SolveCell | app/src/main/kotlin/Calculator.kt:338-351 | Stores est, ehi, edo for one cell with est <= ehi <= edo; they satisfy its equations when those do not read the cell itself; a missing equation is reported; with its reads bound no unbound error occurs |
| Evaluator.SolveSplit | app/src/main/kotlin/Calculator.kt:398-404 | Stores esp >= edo; it is the better of edo and the split equation; likewise for missing equations and unbound errors |
| Evaluator.OrderInjective | app/src/main/kotlin/Calculator.kt:336-393 | Distinct cells are evaluated at distinct steps |
| Evaluator.Ready | app/src/main/kotlin/Calculator.kt:336-393 | When a cell's turn comes, everything its equations read is stored and they do not read the cell itself |
| Evaluator.SolvedStep | app/src/main/kotlin/Calculator.kt:336-393 | Solving the next cell keeps every earlier cell solved |
| Evaluator.SolveOne | app/src/main/kotlin/Calculator.kt:337-352 | One cell keeps the invariant: odds stored, earlier cells chained and solved |
| Evaluator.SolveStage | app/src/main/kotlin/Calculator.kt:337-352 | One total against all up-cards keeps the invariant |
| Evaluator.SolveTotals | app/src/main/kotlin/Calculator.kt:336-393 | A descending run of totals keeps the invariant, and fails only by an evaluation error other than an unbound variable |
| Evaluator.SplitSolvedStep | app/src/main/kotlin/Calculator.kt:396-415 | Solving the next pair keeps every earlier pair solved |
| Evaluator.SolvePair | app/src/main/kotlin/Calculator.kt:397-405 | One pair keeps the split invariant |
| Evaluator.SolvePairs | app/src/main/kotlin/Calculator.kt:396-406 | One pair total against all up-cards keeps the split invariant |
| Evaluator.SolveSplits | app/src/main/kotlin/Calculator.kt:396-415 | The even hard pairs 4..20 and then soft 12 keep the split invariant |
| Evaluator.Solve | app/src/main/kotlin/Calculator.kt:330-417 | The odds are stored; every cell has est <= ehi <= edo and every pair edo <= esp; for an ordered table nothing is unbound and every value satisfies its equation |
| Evaluator.EvaluateShoe | app/src/main/kotlin/Calculator.kt:328-418 | The same for the shoe's odds and the table createVariables builds |
| Rows.RowOf | app/src/main/kotlin/Calculator.kt:428-449 | A row is the name and then one decision per up-card, in all_denoms order |
| Rows.DecisionIsBest | app/src/main/kotlin/Calculator.kt:431-445 | With est <= ehi <= edo: D iff doubling gains over the best of the rest, H iff hitting gains and doubling does not, S iff neither gains |
| Rows.SplitDecisionIsBest | app/src/main/kotlin/Calculator.kt:431-436 | With edo <= esp: Y iff splitting gains, N iff it does not |
| Rows.PairTotal | app/src/main/kotlin/Calculator.kt:457-464 | The total a pair row reads: twice the card's value, or 12 for A/A; always even, 4..20 |
| Rows.SolvedIsComplete | app/src/main/kotlin/Calculator.kt:451-464 | What evaluateShoe stores holds every value the table reads, so no `!!` fails |
| Rows.AddRow | app/src/main/kotlin/Calculator.kt:428-449 | The loop builds exactly RowOf |
| Rows.SameDecisions | app/src/main/kotlin/Calculator.kt:428-449 | A row's decisions do not depend on its name |
| Rows.TableRepeats | app/src/main/kotlin/Calculator.kt:451-464 | The table has 38 rows of 11 cells; the soft rows s21..s13 repeat the decisions of hard 21..13, and A/A repeats 6/6 |
| Rows.AddHardRows | app/src/main/kotlin/Calculator.kt:451-453 | Rows 0..18 are hard 21 down to 3 |
| Rows.AddSoftRows | app/src/main/kotlin/Calculator.kt:454-456 | Rows 19..27 are s21 down to s13, read under the hard key |
| Rows.AddPairRows | app/src/main/kotlin/Calculator.kt:457-464 | Rows 28..37 are the pairs in all_denoms order |
| Rows.RowsFromValues | app/src/main/kotlin/Calculator.kt:426-466 | The rows are exactly the table of the values |
| Rows.RowsFromShoe | app/src/main/kotlin/Calculator.kt:422-467 | On success the rows are exactly the table of the values evaluateShoe stored: the shoe's odds, est <= ehi <= edo and edo <= esp in every cell, and with the table createVariables builds every cell's equations solved; with that table it fails only by an evaluation error other than an unbound variable; 38 rows with the repetitions above |
| Rows.TableIsBest | app/src/main/kotlin/Calculator.kt:428-464 | On the table read from ordered values, each hard-total cell says D iff doubling gains, H iff hitting gains, S iff neither does, and each pair cell says Y iff splitting gains |

## Left out

- The Swing user interface, the View and the Controller, `main`, `prettyPrintTable` and `Model.writeScores` are not part of this model. They only display or drive the core.
- Floating point: Kotlin Doubles are modelled as reals. A division by zero is the DivisionByZero error rather than Infinity or NaN. `reduce` on an empty Sum or Product is the EmptyReduction error rather than an exception.
- `Double.toString` in printing is a parameter (`showConst`) of `Expressions.Print`.
- Shoes.Shoe.DrawCard: the choice of card by `Random.nextDouble()` over cumulative probabilities is left open. Any denomination with a card left may be drawn. When `nextDouble()` returns exactly 0.0 the source picks the first denomination, A, even when no A is left, and its count becomes -1 (Model.kt:14-21). The model excludes that draw, so its counts never go negative. The exception thrown when rounding leaves the cumulative sum below the random value is not modelled.
- Shoes.Shoe.Odds: `Shoe.odds()` is not defined in the Shoe class of `Model.kt`. The model assumes each denomination's count divided by the total.
- The Shoe's distribution is keyed by denomination rather than by Card. A Card holds only its denomination, so the two keyings hold the same entries.
- Hands.Hand.PopCard and Hands.Hand.ShouldDealerDraw: the Hand class has no `popCard` or `shouldDealerDraw`, though `standBfs` calls both.
  - `popCard` is assumed to remove the last card and leave `hardened` as it is.
  - `shouldDealerDraw` is assumed to be the rule of `Model.dealerShouldDraw` applied to the hand.
- Dealer.StandBfs: the unused `variables` parameter is dropped. The tally is passed in and returned rather than mutated through a shared reference.
- The `wrapper` map of `standBfs` is a LinkedHashMap. It is modelled as an insertion-ordered association list, so the order of the stand summands is kept.
- Variable names are structured keys rather than strings. `Keys.Name` renders the source's strings and is proved injective.
- The module-level values `equations` and `baselineRows` are the results of `Tables.CreateVariables` and `Rows.RowsFromShoe` on a new Shoe. They are not separate members.
- The `!!` lookups of `evaluateShoe` and `addRow` are errors (`MissingEquation`) or preconditions. They are then proved never to fail for the table `createVariables` builds.
- The profit is a Float in the source. It is modelled exactly as an integer count of half-units, with no Float rounding.
- Kotlin index exceptions (a player index past the end, an empty hand in `getSplitCard`) are preconditions.
- The JVM `assert` calls in `Hand.double` and `Model.updateHand` are not modelled. Assertions are disabled by default on the JVM.
- Game.Model.DrawCardUpdateDistribution: the source returns a reference to the live distribution map. The model returns its value right after the draw.
- Game.Model.AddCard, Game.Model.UpdateHand and Game.Model.IsBlackjack: `Player` is the index it wraps, and a negative index is excluded by precondition.
