# Blackjack cards, deck and hand

A Dafny model of the scoring core of a small terminal Blackjack game
(py3-blackjack). It covers three source files:

- `card.py` is the playing card. It holds the fixed rank table `RANK_VALUES`
  (thirteen ranks, each with a soft and a hard value; only the ace's differ, 1
  and 11) and the suit table. A card is built from a rank name and a suit name
  by a case-insensitive lookup with defaults. Its string form is
  "{rank} of {suit}".
- `deck.py` is the deck: the 52 standard cards in a list, shuffled in place,
  with a cursor counting the cards drawn. Drawing from an exhausted deck
  raises `IndexError`.
- `hand.py` is a hand. It is dealt two cards from a deck and can draw more. It
  is scored by its soft value (aces count 1), its hard value (aces count 11)
  and its optimal value: the hard value, with aces turned from 11 into 1 while
  the total is over 21. A hand is a blackjack with two cards worth 21, and it
  busts when its optimal value is over 21.

Modules:

- `Results` (results.dfy) holds the Python exceptions the core raises, as
  values: `Result` for calls that return or raise, and `Outcome` for calls
  that return nothing or raise.
- `Cards` (card.dfy) models a card as an immutable datatype. `MakeCard` is the
  specification of `Card.__init__`. `NewCard` is its loop, proved equal to it.
- `Decks` (deck.dfy) models `Deck` as a class over an `array<Card>` and a
  cursor. The ghost views `Drawn()` and `Undrawn()` split the array at the
  cursor. The random shuffle takes its random draws as a parameter.
- `Hands` (hand.dfy) defines the scoring rules as functions of the cards held
  and proves their properties. `Hand` is a class over a `seq<Card>`, and each
  of its scoring methods is proved against the matching function.

Some points where the documentation and the code differ. The model follows the
code:

- The class comment of `Deck` (deck.py:15-17) says that drawing from an
  exhausted deck returns None. `draw_card` raises `IndexError` instead
  (deck.py:54), and `Decks.Deck.DrawCard` returns that error.
- The optimal value of a hand is not monotone in the cards held. Ace and Nine
  make 20; adding a Five makes 15 (`Hands.OptimalCanDrop`).
- `is_ace` cannot work as written (see Findings). The scoring model uses the
  intended test, "the rank is Ace", and models the code as written separately.

## Model

| member | source | states |
|---|---|---|
| Cards.RankTable | card.py:17-23 | the rank table has 13 rows named as in CARD_RANKS; the ace is worth 1 or 11; every other rank has one value from 2 to 10, and Ten to King are worth 10 |
| Cards.RankNamesDistinct | card.py:17-21 | no two rows of the rank table share a name |
| Cards.SuitTable | card.py:24 | there are four suits, all different |
| Cards.Capitalize | card.py:47 | str.capitalize keeps the length, upper-cases the first character and lower-cases the rest |
| Cards.CapitalizeIgnoresCase | card.py:47 | two names that differ only in letter case capitalize to the same string |
| Cards.TablesCapitalized | card.py:17-24 | every rank and suit name in the tables is its own capitalization, so each table name finds itself |
| Cards.RankRow | card.py:48-52 | the lookup finds the first table row with the given name, and no row before it has that name |
| Cards.RankRowIsUnique | card.py:48-52 | a row named exactly `name` is the one the lookup finds, so the overwrite loop matches at most once |
| Cards.MakeCard | card.py:32-55 | a built card always has a table rank and a table suit; a rank that matches a row after capitalizing gives that row's rank and values; an unknown rank gives the default "Ace" with values 0 and 0; an unknown suit gives "Clubs" |
| Cards.NewCard | card.py:41-55 | the constructor's loop (defaults first, then overwriting on every matching row) builds exactly MakeCard's card |
| Cards.MakeCardIgnoresCase | card.py:47-55 | the card built does not depend on the letter case of the rank or suit names |
| Cards.MakeCardFromTable | card.py:47-55 | naming a table rank and suit, in any letter case, gives exactly that rank, that suit and the rank's table values |
| Cards.StandardCardIsStandard | deck.py:27 | the card the deck builds for a rank and a suit is the constructor's card for those names, and it is a standard card |
| Cards.StandardIsConstructed | card.py:32-55 | every standard card (a table rank, a table suit and that rank's values) is exactly the card the constructor builds from its own rank and suit names |
| Cards.StandardValues | card.py:17-21 | a standard card is an ace exactly when its hard value is 10 more than its soft value; an ace is 1/11; any other card has one value from 2 to 10 |
| Cards.ReadAttribute | card.py:57-61 | reading any attribute whose name starts with an underscore raises AttributeError; `rank_`, `suit_`, `soft_value_` and `hard_value_` read the card's rank, suit and two values |
| Cards.IsAce | card.py:69-71 | the intended ace test: the card's rank is the rank of the table's first row, "Ace" |
| Cards.IsAceAsWritten | card.py:69-71 | is_ace as written reads `_rank` and raises AttributeError on every card |
| Cards.ToString | card.py:73-79 | the string is the rank, then " of ", then the suit (Cards.ToStringInjective shows it names the card) |
| Cards.ToStringInjective | card.py:73-79 | two standard cards with the same "{rank} of {suit}" string are the same card |
| Decks.FreshOrderDistinct | deck.py:27 | the unshuffled list holds no card twice |
| Decks.FreshOrderComplete | deck.py:27 | every rank and suit pair is in the unshuffled list, at position 4 * rank + suit |
| Decks.FreshOrderStandard | deck.py:27 | every card in the unshuffled list is a standard card |
| Decks.AtMostDeckSize | deck.py:13-18 | any list of pairwise different standard cards holds at most 52 of them |
| Decks.Shuffle | deck.py:29 | random.shuffle's swap loop leaves the list a rearrangement of what it was |
| Decks.Deck.constructor | deck.py:20-29 | a new deck is a rearrangement of the 52 cards, none repeated, with nothing drawn |
| Decks.Deck.Size | deck.py:31-33 | the length is 52 minus the cards drawn: the number of cards still to come, between 0 and 52 |
| Decks.Deck.IsEmpty | deck.py:35-37 | the deck is empty exactly when all 52 cards are drawn, that is, when no card is left to come |
| Decks.Deck.Reshuffle | deck.py:39-42 | the whole list, drawn cards included, is rearranged, and the cursor goes back to 0 |
| Decks.Deck.DrawCard | deck.py:44-54 | on a non-empty deck: the card at the cursor is returned and the cursor moves on by one; that card is standard and not drawn before; it is the first of the cards still to come. On an exhausted deck: IndexError, and nothing changes |
| Decks.Deck.DrawnIsNew | deck.py:50-53 | the card at the cursor is not among the cards already drawn |
| Decks.Deck.DeckCardStandard | deck.py:27-29 | every card in a deck is one of the standard 52 |
| Hands.Aces | hand.py:81-87 | the ace count is at most the number of cards, and it is 0 exactly when no card is an ace |
| Hands.RowsLookup | hand.py:97-99 | the inner loop over RANK_VALUES adds the value of the one row named like the card, or nothing when no row matches |
| Hands.RankValueGap | hand.py:89-113 | looked up by rank name, an ace's hard value is 10 above its soft value; any other name has equal values |
| Hands.StandardCardLookup | hand.py:97-99 | looking a standard card's rank up in the table gives the card's own soft and hard values |
| Hands.HardMinusSoft | hand.py:89-113 | hard value minus soft value is 10 times the number of aces |
| Hands.SoftAtMostHard | hand.py:89-113 | soft <= hard, with equality exactly when the hand has no ace; demoting every ace gives the soft value |
| Hands.DemoteSteps | hand.py:127-132 | the conversion loop takes off a multiple of 10, at most once per ace, and stops over 21 only when it has run out of aces |
| Hands.DemoteIsLargest | hand.py:127-132 | any total within 21 reachable by converting aces is at most the total where the loop stops, and that total is within 21 |
| Hands.OptimalBetweenSoftAndHard | hand.py:115-132 | soft <= optimal <= hard, and the optimal value is the hard value with some number of aces (0 to all) converted |
| Hands.OptimalIsLargestWithinLimit | hand.py:115-132 | the optimal value is at least every total within 21 reachable by converting aces, and is itself within 21 when one exists |
| Hands.OptimalWhenNothingFits | hand.py:115-132 | when no number of converted aces brings the total within 21, the optimal value is the soft value, over 21 |
| Hands.BustIffSoftOver | hand.py:138-140 | a hand busts exactly when even its soft value is over 21 |
| Hands.AppendCard | hand.py:36-39 | adding a card adds its table values to the soft and hard values, and adds one to the ace count for an ace |
| Hands.TwoCardValues | hand.py:89-113 | the soft and hard values and the ace count of a two-card hand are the sums of its two cards' |
| Hands.BlackjackIffAceAndTen | hand.py:134-136 | two standard cards make a blackjack exactly when one is an ace and the other is worth 10 |
| Hands.AceKingIsBlackjack | hand.py:134-136 | Ace and King: optimal value 21, a blackjack |
| Hands.TenSevenFiveBusts | hand.py:138-140 | Ten, Seven, Five: no ace, soft = hard = 22, a bust |
| Hands.AceAceNine | hand.py:115-132 | Ace, Ace, Nine: soft 11, hard 31, optimal 21 after one conversion, not a blackjack (three cards) |
| Hands.OptimalCanDrop | hand.py:115-132 | Ace and Nine are worth 20; adding a Five lowers the optimal value to 15 |
| Hands.ColumnCount | hand.py:55-67 | a hand is laid out in 1 to 4 columns, and in a single column exactly when it has fewer than four cards |
| Hands.ColumnsAvoidOrphans | hand.py:46-67 | with 4 to 8 cards no card is alone on the last row; from 9 cards on, the last row is a lone card exactly when the count is 1 more than a multiple of 4 |
| Hands.ColumnsGrow | hand.py:59-67 | a larger hand never gets fewer columns |
| Hands.NumAcesWith | hand.py:81-87 | the num_aces loop with a given ace test succeeds exactly when the test succeeds on every card, then counts at most one per card; a failure is the error of the test on some card |
| Hands.NumAcesWithIntended | hand.py:81-87 | with the intended ace test, the num_aces loop returns the number of aces |
| Hands.AcesFront | hand.py:84-86 | the ace count is the first card's contribution plus the count of the rest, the order num_aces walks the hand in |
| Hands.NumAcesAsWritten | hand.py:81-87 | with is_ace as written, num_aces returns 0 on an empty hand and raises AttributeError on every hand with a card |
| Hands.OptimalValueAsWritten | hand.py:115-132 | with is_ace as written, optimal_value equals the intended value while the hard value is within 21, and raises AttributeError on every hand whose hard value is over 21 |
| Hands.IsBlackjackAsWritten | hand.py:134-136 | with is_ace as written, is_blackjack is false without scoring on a hand of other than two cards, equals the intended answer on two cards with a hard value within 21, and raises on two cards over 21 |
| Hands.IsBustAsWritten | hand.py:138-140 | with is_ace as written, is_bust is false (and the hand indeed not bust) while the hard value is within 21 and raises above it: it never reports a bust |
| Hands.AceAceBlackjackRaises | hand.py:134-136 | Ace and Ace: the intended optimal value is 12, not a blackjack; as written is_blackjack raises AttributeError |
| Hands.KingQueenTwoRaises | hand.py:123-132 | King, Queen, Two: the intended optimal value is 22, a bust; as written optimal_value raises AttributeError |
| Hands.Hand.constructor | hand.py:22-27 | a new hand holds the deck's next two cards, or all the deck had left, and the deck's cursor moves past them |
| Hands.Hand.DealStart | hand.py:25-27 | the two-draw loop appends the deck's next cards in order; it fails with IndexError exactly when the deck had fewer than two cards, after taking those it had |
| Hands.Hand.GetNewHand | hand.py:29-34 | the old cards are dropped and the hand holds the deck's next two cards; it fails, with the deck's IndexError, exactly when fewer than two were left, keeping those it got |
| Hands.Hand.DrawCard | hand.py:36-39 | the deck's next card is appended and the deck moves on by one; on an exhausted deck: IndexError, and neither changes |
| Hands.Hand.NumAces | hand.py:81-87 | the count loop returns the number of aces held |
| Hands.Hand.SoftValue | hand.py:89-100 | the nested loops return the soft value: the sum of each card's soft value looked up by rank |
| Hands.Hand.HardValue | hand.py:102-113 | the nested loops return the hard value: the sum of each card's hard value looked up by rank |
| Hands.Hand.OptimalValue | hand.py:115-132 | the conversion loop returns the optimal value: between soft and hard, and the largest total within 21 that converting aces can reach |
| Hands.Hand.IsBlackjack | hand.py:134-136 | true exactly for two cards worth 21, that is, an ace and a card worth 10 |
| Hands.Hand.IsBust | hand.py:138-140 | true exactly when the optimal value is over 21, that is, when the soft value is over 21 |

## Left out

- `blackjack.py` and `game.py` are not part of this model. `blackjack.py` is a console loop that asks for bets and calls `parse_reply_yn`, `parse_reply_bet_amt` and `Game.play_round`, none of which is defined anywhere; `game.py` holds reply patterns and an unfinished `Game.__init__`. There is no round engine, dealer policy or settlement in the code to model.
- The randomness of `random.shuffle` is out of scope. `Decks.Shuffle` takes the random indices as a parameter and proves only that the result is a rearrangement, not that it is uniform.
- The row assembly of `Hand.__str__` (hand.py:69-79) is left out. Only the rule choosing the number of columns is modelled (`Hands.ColumnCount`).
- Cards.ReadAttribute: covers only names starting with an underscore and the four data attributes; reading a method such as `is_ace` or `__str__` through `__getattribute__`, and names that do not exist, are not modelled.
- `Card.__setattr__` (card.py:63-67) and the rest of the attribute machinery are left out. A card is an immutable datatype, so no field can be overwritten. `__getattribute__` is modelled only as far as is_ace needs it (`Cards.ReadAttribute`).
- `Hand.__len__` (hand.py:41-43) is not a separate member. It is `|cards|`.
- The `__main__` demonstration blocks (deck.py:57-71, hand.py:143-151) only print, and are left out.
- `Cards.Capitalize` models str.capitalize on ASCII letters only. Python's Unicode case mapping is left out.
- `Hands.Hand.constructor`: when the deck runs out, Python's `__init__` raises IndexError and no hand exists. A Dafny constructor cannot fail, so here that case is a hand holding fewer than two cards.
- Python's integers are unbounded, as are Dafny's, so there is no overflow to model.

## Findings

| source | as written | input that shows it | evidently intended | confidence | as-written member | corrected member |
|---|---|---|---|---|---|---|
| card.py:69-71 | `is_ace` reads `self._rank`. The card's `__getattribute__` (card.py:57-61) refuses every name starting with an underscore, so `is_ace` raises AttributeError on every card. So `num_aces` raises on every hand with a card. `optimal_value` calls it, and so raises, on every hand whose hard value is over 21; `is_bust` goes through `optimal_value`, so it raises on those hands and never reports a bust. `is_blackjack` checks the card count first and raises only on two cards worth over 21 (Ace, Ace) | King, Queen, Two: hard value 22, so `optimal_value` calls `num_aces`, which raises | `is_ace` compares the public `rank_` with "Ace"; King, Queen, Two is worth 22, a bust | not executed | Hands.KingQueenTwoRaises | Hands.Hand.OptimalValue |
