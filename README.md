# Blackjack rules engine in Dafny

This project models the rules engine of a chat-bot blackjack game: the cards and
the deck (`card.go`) and the game itself (`blackjack.go`). It covers hand valuation,
the opening deal, hitting, the player's and the dealer's turns, and the settlement
of the wager. Two modules mirror the two files:

- `Cards` (`cards.dfy`):
  - the rank-to-points table and the `Card` value;
  - `NewStandardDeck`;
  - `Deck`, a class over an array plus a length, as the Go slice is. Its `Shuffle`
    swaps cards in place, `DealCard` takes the top (last) card off, and `String`
    renders the deck.
- `Game` (`game.dfy`):
  - `Value` and `HasAce` on hands;
  - the dealer's drawing rule and the settlement rule as functions on values;
  - `Blackjack`, a class whose methods update the deck, the two hands, the wager
    and the turn flag in place.

The model follows the code, not the usual casino rules, in two places:

- The dealer's loop condition `Value() <= 17 || (Value() == 17 && HasAce())` hits
  on every 17, hard or soft. The soft-17 disjunct adds nothing
  (`DealerHits`, `DealerHitsEverySeventeen`). The comment beside the loop says the
  dealer hits below 17 and on a soft 17.
- The settlement has no branch for a busted dealer. When the player stands on 21
  or less and the dealer busts, the dealer's higher value still wins and the
  player loses the wager. `JudgeAgainstCasino` proves that this is exactly where
  the program departs from the casino rule. The comment beside the settlement
  says the dealer wins on `>=`, but the code makes equal values a draw; the model
  follows the code.

The shuffle's random source is replaced by its results. Each shuffle takes a
sequence `picks` from the caller, giving the swap partner of every position.
Every proved property holds for all such sequences.

## Model

| member | source | states |
|---|---|---|
| Cards.RanksTable | card.go:22 | The table maps Ace to 1, Two..Ten to 2..10 and Jack, Queen and King to 10, and it has no other keys |
| Cards.RankCount | card.go:22 | The table has exactly 13 keys |
| Cards.Points | blackjack.go:21 | A looked-up rank is worth 1..10, and a name that is not in the table gives 0; the value is 1 exactly for "Ace" |
| Cards.CardText | card.go:17-19 | The text is the rank, " of " and the suit: its length, and that it starts with the rank and ends with the suit |
| Cards.DeckTextAppend | card.go:45-58 | Joining two non-empty runs of cards puts exactly one ",\n" between their texts |
| Cards.DeckTextFront | card.go:45-58 | The deck text is the first card's text, one separator, then the text of the rest |
| Cards.DeckTextLength | card.go:45-58 | The text's length is the card texts' lengths plus two per gap between neighbours, with no trailing separator; the empty deck gives "" |
| Cards.DeckText | card.go:45-58 | The joined text of a run of cards is empty iff the run is empty |
| Cards.Deck.String | card.go:45-58 | The accumulator loop returns exactly the joined text of the deck's cards |
| Cards.DistinctOnce | card.go:28-42 | In a deck without repeats every card occurs at most once |
| Cards.NewStandardDeck | card.go:28-42 | The result has 52 distinct cards, and a card is in it iff its rank is a key of the table and its suit is one of the four suits |
| Cards.AppendSuit | card.go:35-37 | One pass over the table's keys, in whatever order, appends 13 new distinct cards of the suit, one per rank |
| Cards.Deck.constructor | card.go:25 | A fresh deck holds exactly the given cards |
| Cards.Swap | card.go:67 | Positions i and j trade cards and every other position keeps its card |
| Cards.SwapsUpTo | card.go:65-68 | The deck after the loop's swaps for positions 0..k-1 keeps its length (a permutation by SwapsUpToPermutes) |
| Cards.Shuffled | card.go:61-70 | The whole shuffle keeps the deck's length (a permutation by ShuffledPermutes) |
| Cards.SwapPermutes | card.go:67 | Exchanging two positions keeps the same multiset of cards |
| Cards.SwapsUpToPermutes | card.go:65-68 | After the swaps of any prefix of positions, with any in-range picks, the cards are a permutation of the input |
| Cards.ShuffledPermutes | card.go:61-70 | The whole shuffle is a permutation of the deck for every choice of swap indices |
| Cards.Deck.Exchange | card.go:67 | The deck after one in-place swap is the swap of the old deck |
| Cards.Deck.Shuffle | card.go:61-70 | The in-place loop leaves the deck equal to the shuffle of the old deck by the given picks (same length; a permutation by ShuffledPermutes) |
| Cards.Deck.DealCard | card.go:73-87 | On a non-empty deck the returned card is the last one, and the deck becomes its first n-1 cards |
| Game.AceCount | blackjack.go:22-24 | The number of aces the valuation pass counts is at most the number of cards |
| Game.RawPoints | blackjack.go:20-25 | The summed points of a hand, aces as 1, are never negative |
| Game.HasAce | blackjack.go:38-47 | True iff some card of the hand has the rank "Ace" |
| Game.Promote | blackjack.go:28-31 | Promotion never lowers the value, and never takes a value of 21 or less above 21 |
| Game.Value | blackjack.go:14-35 | The value is at least the raw sum, and is at most 21 whenever the raw sum is |
| Game.HasAceIffAceCount | blackjack.go:22-24 | The hand has an ace iff the valuation pass counts at least one ace |
| Game.RawAtLeastAces | blackjack.go:20-25 | Each counted ace contributes at least one point to the raw sum |
| Game.RawAtLeastLength | card.go:22 | A hand of cards from the standard pack has a raw sum of at least its length |
| Game.ValueClosedForm | blackjack.go:27-31 | The value is the raw sum plus 10 exactly when the hand holds an ace and the raw sum is at most 11, otherwise the raw sum: at most one ace is promoted |
| Game.ValueBest | blackjack.go:27-31 | Counting any k of the aces as 11 without going over 21 never gives more than Value, and Value stays within 21: Value is the best choice of 1 or 11 per ace |
| Game.ValueIsAChoice | blackjack.go:27-31 | Value is the raw sum plus 10 for some number of aces between 0 and the ace count |
| Game.ValueExamples | blackjack.go:14-35 | [Ace, Ace] is worth 12, [Ace, King] 21, and [Ten, Nine, King] 29 |
| Game.CountValue | blackjack.go:14-35 | The program's two loops (sum and count, then promote) compute Value |
| Game.DealerHits | blackjack.go:160 | The dealer's loop condition holds iff the hand's value is at most 17 |
| Game.DealerHitsEverySeventeen | blackjack.go:158-160 | A hard 17 (Ten, Seven) and a soft 17 (Ace, Six) both make the dealer hit |
| Game.DealerPlay | blackjack.go:160-162 | The dealer's loop on values: hit from the top while the condition holds. Where the program panics on an empty deck, this function stops; its properties are the lemmas below |
| Game.DealerPlayStops | blackjack.go:160-162 | The loop stops only when its condition fails or the deck is empty, and every card taken goes to the hand |
| Game.DealerPlayLeaves | blackjack.go:160-162 | What the dealer's loop leaves of the deck is a prefix of it: cards come off the top only |
| Game.DealerPlayDraws | blackjack.go:160-162 | The dealer's hand gains exactly the cards above what is left, topmost first |
| Game.DealerPlayKeepsCards | blackjack.go:160-162 | The hand and the deck together keep the same cards through the dealer's loop |
| Game.DealerStep | blackjack.go:160-161 | While the dealer hits and at least 18 points are within reach, the deck is not empty and one hit keeps the points within reach |
| Game.DealerPlayEnds | blackjack.go:160-162 | With at least 18 raw points in the hand and deck together, the loop ends on a value of 18 or more |
| Game.Judge | blackjack.go:213-224 | Exactly one outcome applies: the dealer wins iff the player is bust or the dealer's value is higher, a draw iff the player is not bust and the values are equal, the player wins otherwise |
| Game.JudgeAgainstCasino | blackjack.go:212-213 | The program's outcome differs from the casino rule iff the player is at 21 or less and the dealer is bust, and then the dealer wins |
| Game.Payout | blackjack.go:217-224 | The wager becomes -w, 0 or w; for a non-negative wager a dealer win never gains and a player win never loses |
| Game.SettlementCases | blackjack.go:213-224 | The wager becomes -w, 0 or w in the three settlement branches |
| Game.DealtDisjoint | blackjack.go:79-100 | Hands and deck dealt from the 52-card pack hold 52 cards between them, with no card in two places |
| Game.DealtInPack | blackjack.go:79-100 | Every card in a hand or the deck is a card of the standard pack |
| Game.EnoughForDealer | blackjack.go:160-162 | While the player is not bust, the dealer's hand and the deck hold at least 18 raw points, so the loop cannot empty the deck |
| Game.TableDealt | blackjack.go:128-131 | A table whose deck, hands and dealt cards agree with a shuffle of the pack is a deal of that pack |
| Game.DealTop | blackjack.go:128-131 | Moving the top card to either hand keeps the table consistent |
| Game.Blackjack.constructor | blackjack.go:83 | The new game holds the player, the wager, the standard deck, two empty hands, and the player to move |
| Game.Blackjack.NewBlackjack | blackjack.go:79-100 | A fresh game has two cards per hand, 48 in the deck, the player to move and the wager unchanged. The deck order is the three shuffles of the standard pack, and the hands and deck together are exactly the 52 cards |
| Game.Blackjack.ShuffleDeck | blackjack.go:85-88 | Shuffling the game's deck before dealing shuffles it in place and changes nothing else |
| Game.Blackjack.DealOpening | blackjack.go:90-96 | The four opening hits take the top four cards: the first two to the player, the next two to the dealer, in order |
| Game.Blackjack.Hit | blackjack.go:128-131 | The deck's top card is appended to the chosen hand and the deck shrinks by one; the other hand, the wager and the turn flag are unchanged |
| Game.Blackjack.SettleWager | blackjack.go:212-224 | The wager becomes the payout of the outcome of the two hands' values |
| Game.Blackjack.RunDealerTurn | blackjack.go:153-172 | The dealer draws exactly as DealerPlay does, never runs out of cards, ends on 18 or more, and the wager is then settled; the player's hand is untouched |
| Game.Blackjack.RunPlayerTurn | blackjack.go:133-151 | Below 21 nothing changes and it stays the player's turn. On a bust the wager is negated and the turn ends. On 21 the dealer plays, the game is settled, and the turn ends |

## Left out

- Every chat message is left out. This covers the text of `GetPlayerHand`, `GetFullDealerHand`, `GetDealerHand`, `PromptPlayer`, `PlayerBust` and `PlayerStand`, `BlackjackHand.String`, and the results banner of `DisplayResults`. The session parameters are dropped.
- `GameOver`, called at the end of `RunDealerTurn` and `PlayerBust`, is not part of this model.
- The time-seeded random source of `Shuffle` is replaced by caller-supplied swap indices in [0, len).
- The commented-out head-to-head dealer policy is dead code and is not modelled.
- `dba.go`, `main.go` and `config.go` are not part of this model. They cover database access, bot start-up and configuration loading.
- `Player` is carried as a value and never changed. Its fields play no part in the rules.
- Cards.NewStandardDeck: the order of the ranks within a suit follows map iteration, which Go does not fix. The model picks an arbitrary order and proves only the set of cards, their count and their distinctness.
- Cards.Deck.DealCard: the panic on an empty deck is a precondition (a non-empty deck), not a modelled error path. The same holds for Game.Blackjack.Hit.
- Game.Blackjack.RunDealerTurn requires that the player has not bust. Its one caller in blackjack.go (line 146) reaches it at 21; a stand command, which is not part of this model, is assumed to reach it below 21. This precondition rules out the deck running dry mid-loop, which would panic. DealerPlay stops on an empty deck instead of panicking, but the precondition keeps that case unreachable.
- Game.DealerPlay: on an empty deck the function stops where the program's DealCard panics. Its own contract is empty; its properties are proved in DealerPlayStops, DealerPlayLeaves, DealerPlayDraws, DealerPlayKeepsCards and DealerPlayEnds. A contract on the function itself made the proofs that unfold it too slow.
- Game.Blackjack.SettleWager: Go's `int` is 32 or 64 bits wide depending on the platform, and `Wager *= -1` overflows on the minimum value. The model uses unbounded integers.
- The ghost fields `pack`, `order` and `drawn` of `Blackjack` are proof bookkeeping. They record the freshly built standard deck, the shuffled deck and the cards dealt so far, and the program has no counterpart to them.
