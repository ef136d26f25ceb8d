# rust_poker in Dafny

A model of the core of `rust_poker`, a small Texas hold'em program, written in
Dafny with its properties proved. It covers the library crate `src/lib.rs`:

- **Cards** (`cards.dfy`, module `Cards`): the card types, suits and faces.
  - `CardType::cmp` is the rank order: every face ranks above every number, the
    faces run Jack < Queen < King < Ace, and numbers compare by value.
  - `get_next_card_type` and `get_next_face_character` give the next rank up.
  - `u8` arithmetic is written out: the successor of `Number(255)` wraps to
    `Number(0)`, as in a release build; a debug build panics on that overflow
    instead.
- **Classifier** (`classifier.dfy`, module `Classifier`): `rank_hand` and its
  helpers `is_royal_straight`, `is_straight` and `is_flush`.
  - One pure function, `Classify(hand, flush)`, states the decision `rank_hand`
    takes once it has the outcome of its flush test. `HandRankOf` uses the flush
    test as written. `IntendedHandRank` uses a flush test over all five cards.
  - The loops of the source are methods proved against these functions:
    `IsStraight`, `IsFlush`, the counting loop `CountCardTypes`, the pass over
    the counts `ScanCounts`, and `RankHand`.
  - Lemmas state what each category means: royal, straight flush, four of a
    kind, full house, flush, straight, three of a kind, two pair, pair and high
    card. Since `HandRankOf` is a total function, every sorted five-card hand
    gets exactly one rank.
- **Game** (`game.dfy`, module `Poker`): the `Game` struct as a class whose
  fields the methods update.
  - `Game::new` builds the 52-card deck in two nested loops.
  - `shuffle_cards` takes the new order of the deck as a parameter.
  - `deal_cards` pops two cards per player off the end of the deck.
  - `is_valid` holds when more than one player holds cards.
  - The `PreFlop → Flop → Turn → River` loop of `play_game` turns up 3, 1 and 1
    cards.
  - The deck, the hands and the shared cards together hold the same 52 cards
    throughout.

`CardType` equality is structural: two card types are equal when they are the
same variant with the same face or number. The source's `PartialEq` answers
`true` for any two card types; this is recorded under Findings. `rank_hand`
assumes its hand is sorted ascending (src/lib.rs:184), so `RankHand` requires
five cards sorted by `CardType::cmp`.

Two behaviours that differ from the usual poker rules; the model follows the
code:

- An Ace never starts a straight. A-2-3-4-5 is not a straight, because the Ace
  has no successor.
- A royal flush is checked apart from a straight flush, by the literal types
  10, J, Q, K, A.

## Model

| member | source | states |
|---|---|---|
| Cards.CompareInt | src/lib.rs:394 | the `u8` comparison answers Less, Equal or Greater exactly when `x < y`, `x == y` or `x > y` |
| Cards.FaceCmp | src/lib.rs:420-426 | the derived face order answers Equal exactly for the same face |
| Cards.Cmp | src/lib.rs:381-398 | `CardType::cmp` answers Equal exactly for equal card types |
| Cards.CmpAntisymmetric | src/lib.rs:381-398 | swapping the arguments reverses the answer |
| Cards.CmpTransitive | src/lib.rs:381-398 | at-most is transitive, and strictly below when either step is strict |
| Cards.LeIsTotalOrder | src/lib.rs:381-398 | the order is reflexive, antisymmetric, transitive and total |
| Cards.RankOrderFacts | src/lib.rs:383-395 | every face is above every number, numbers compare as integers, and Jack < Queen < King < Ace |
| Cards.RankValue | src/lib.rs:375-379 | a deck card type sits at 2..14 on one scale, the faces at 11 and above |
| Cards.CmpIsRankValueOrder | src/lib.rs:381-398 | on deck card types, `cmp` is the integer order of their scale values |
| Cards.NextFaceCharacter | src/lib.rs:330-338 | no successor exactly for the Ace, otherwise the next face in declaration order |
| Cards.NextCardType | src/lib.rs:309-328 | no successor exactly for the Ace; any successor differs from the type and is strictly above it (except for the wrapping `Number(255)`) |
| Cards.NextIsOneStepUp | src/lib.rs:309-338 | on deck types, the successor is exactly the type one scale step up |
| Cards.NextIsLeastAbove | src/lib.rs:309-338 | the successor of a deck type is at most every deck type above it |
| Cards.PredecessorOfAceAndJack | src/lib.rs:319-336 | only the King leads to the Ace and only Number 10 leads to the Jack |
| Classifier.Discriminant | src/lib.rs:443-455 | the discriminants range over 1..10, with 10 exactly for RoyalFlush and 1 exactly for HighCard |
| Classifier.DiscriminantsDistinct | src/lib.rs:443-455 | two hand ranks have the same discriminant exactly when they are the same rank |
| Classifier.SortedByNeighbours | src/lib.rs:184 | a hand in which each card is at most its right neighbour is sorted |
| Classifier.CountBelowPositive | src/lib.rs:199-208 | a card type has a positive count exactly when a counted card has it |
| Classifier.CountsSumToLength | src/lib.rs:199-208 | the counts are the multiplicities of the counted card types, which add up to the number of cards |
| Classifier.IsRoyalStraight | src/lib.rs:252-286 | true exactly when the five types are 10, J, Q, K, A in that order |
| Classifier.LiteralTypeEq | src/lib.rs:406-410 | `PartialEq for CardType` as written, true for any two card types; `LiteralEqualityMakesEveryFlushRoyal` states its effect |
| Classifier.LiteralRoyalStraight | src/lib.rs:252-286 | the five positional tests of `is_royal_straight` under that equality; `LiteralEqualityMakesEveryFlushRoyal` proves it holds for every hand |
| Classifier.Classify | src/lib.rs:186-249 | the tests of `rank_hand` in source order for a given flush outcome; `ClassifyStraightsAndFlushes` and `ClassifyGroups` state by if-and-only-if when it gives each of the ten ranks |
| Classifier.HandRankOf | src/lib.rs:179-250 | `Classify` with the flush test as written; `RankHand` is proved to return it, and `HandRankIgnoresFifthSuit` and `FlushRanksHigh` state its properties |
| Classifier.IntendedHandRank | src/lib.rs:186-249 | `Classify` with a flush test over all five suits; `IntendedFlushCategories` relates it to `HandRankOf` |
| Classifier.IsStraight | src/lib.rs:288-307 | the loop returns true exactly when each of the first four types has a successor and the next card has it |
| Classifier.IsFlush | src/lib.rs:340-348 | the loop returns true exactly when the cards at indices 1 to 3 have the suit of the first |
| Classifier.CountCardTypes | src/lib.rs:199-208 | the map holds exactly the card types in the hand, each with its number of cards |
| Classifier.ScanCounts | src/lib.rs:210-223 | in any key order, the pass stops on a count of 4 exactly when there is one; otherwise it reports whether some count is 3 and how many counts are 2 |
| Classifier.CountMapGroups | src/lib.rs:199-223 | the count map has a type counted `k` times exactly when the hand has such a group, and its counts of 2 are the hand's pairs |
| Classifier.RankHand | src/lib.rs:179-250 | `rank_hand` returns the rank `Classify` gives with the flush test as written |
| Classifier.GroupBounds | src/lib.rs:199-249 | in five cards, a four leaves no other group, a three leaves at most one pair, and there are at most two pairs |
| Classifier.RoyalIsChain | src/lib.rs:252-307 | the royal straight is a successor chain |
| Classifier.ChainIsStrictlyIncreasing | src/lib.rs:288-307 | a sorted straight rises strictly at every step |
| Classifier.DistinctHasNoGroups | src/lib.rs:199-223 | pairwise different types each count once, so there is no group and no pair |
| Classifier.ChainHasNoGroups | src/lib.rs:193-223 | a sorted straight has five different types and no group |
| Classifier.ChainValues | src/lib.rs:288-328 | along a straight that reaches the deck, each step is one up the scale |
| Classifier.AceBlocksStraight | src/lib.rs:288-307 | an Ace in positions 0 to 3 rules out a straight |
| Classifier.TwoAndAceIsNoStraight | src/lib.rs:288-307 | a hand holding both a 2 and an Ace is never a straight, so A-2-3-4-5 is none |
| Classifier.LeadingSuitsIgnoreFifth | src/lib.rs:340-348 | the flush test as written gives the same answer whatever the fifth card is |
| Classifier.ClassifyIgnoresSuits | src/lib.rs:186-249 | apart from the flush outcome, hands with the same types position by position are sorted alike and classified alike |
| Classifier.HandRankIgnoresFifthSuit | src/lib.rs:186-249 | changing the suit of the fifth card never changes the rank `rank_hand` gives |
| Classifier.ClassifyStraightsAndFlushes | src/lib.rs:186-235 | RoyalFlush exactly for a flush of 10-J-Q-K-A; StraightFlush exactly for a flush straight that is not royal; Straight exactly for a straight without flush; Flush exactly for a flush with no straight, four or full house |
| Classifier.ClassifyGroups | src/lib.rs:199-249 | FourOfAKind exactly with a four; FullHouse exactly with a three and a pair; ThreeOfAKind, TwoPair, Pair and HighCard exactly under their conditions without a flush |
| Classifier.FlushRanksHigh | src/lib.rs:186-231 | a hand passing the flush test is one of the five flush-or-better ranks |
| Classifier.LiteralEqualityMakesEveryFlushRoyal | src/lib.rs:406-410 | with `eq` answering true, `is_royal_straight` holds for every hand, so the royal test passes exactly when the flush test does |
| Classifier.LiteralEqualityMisranksStraightFlush | src/lib.rs:406-410 | 4-8 of spades passes the literal royal test, while structural equality ranks it StraightFlush |
| Classifier.FlushTestIgnoresFifthCard | src/lib.rs:340-348 | 2, 3, 5, 7 of spades with the Ace of diamonds is ranked Flush as written but HighCard by the five-card flush test |
| Classifier.IntendedFlushCategories | src/lib.rs:340-348 | with the five-card flush test, the flush ranks need one suit, five different non-straight types of one suit are a Flush, and both tests agree when the fifth suit matches the first |
| Classifier.ClassifyDistinctTypes | src/lib.rs:225-249 | without a group or a straight, the flush test alone decides between Flush and HighCard |
| Classifier.ClassifyChain | src/lib.rs:186-235 | a sorted straight is Straight without a flush, otherwise RoyalFlush or StraightFlush by the royal test |
| Classifier.ExampleRoyalFlush | tests/rank_hand_tests.rs:3-37 | 10-A of clubs is a RoyalFlush |
| Classifier.ExampleFourOfAKind | tests/rank_hand_tests.rs:67-95 | four tens and an Ace are FourOfAKind |
| Classifier.ExampleFullHouse | tests/rank_hand_tests.rs:97-127 | three tens and two Aces are a FullHouse |
| Classifier.ExampleFlush | tests/rank_hand_tests.rs:129-155 | 2, 5, 6, 8, 10 of spades are a Flush |
| Classifier.ExampleStraight | tests/rank_hand_tests.rs:157-191 | 10-A of mixed suits is a Straight |
| Classifier.ExampleThreeOfAKind | tests/rank_hand_tests.rs:193-223 | three tens, a Queen and an Ace, sorted, are ThreeOfAKind |
| Classifier.ExampleTwoPair | tests/rank_hand_tests.rs:225-255 | a 3 with two tens and two Queens, sorted, is TwoPair |
| Classifier.ExamplePair | tests/rank_hand_tests.rs:257-287 | a 3, two tens, a Queen and an Ace, sorted, are a Pair |
| Classifier.ExampleHighCard | tests/rank_hand_tests.rs:289-317 | 2, 3, 5, 7 of mixed suits and an Ace are HighCard |
| Poker.DeckPositions | src/lib.rs:115-137 | the deck has 52 cards, and `DeckPosition` finds each card and gives the place of each deck card |
| Poker.FullDeck | src/lib.rs:115-137 | the deck in push order, the numbers 2..10 of each suit and then the four faces of each suit; `DeckPositions`, `FullDeckIsEveryCardOnce` and `BuildDeck` state its size, distinctness and construction |
| Poker.FullDeckIsEveryCardOnce | src/lib.rs:115-137 | the 52 cards are pairwise distinct, and a card is in the deck exactly when its type is a number 2..10 or a face |
| Poker.FullDeckMultiplicity | src/lib.rs:115-137 | the deck holds each deck card exactly once and no other card |
| Poker.NumberCardAt | src/lib.rs:118-126 | the number loop puts suit `si`, number `n` at position `9 * si + n - 2` |
| Poker.FaceCardAt | src/lib.rs:128-137 | the face loop puts suit `si`, face `fi` at position `36 + 4 * si + fi` |
| Poker.BuildDeck | src/lib.rs:115-137 | the nested push loops build exactly the deck |
| Poker.PlayerSlots | src/lib.rs:146-148 | the range `lo..hi` gives `hi - lo` players (none when empty), each with an empty hand |
| Poker.AsWrittenPlayers | src/lib.rs:146-148 | the players of `(1..num_players + 1)` with the bound wrapping in `u8`; `AsWrittenPlayersLostAt255` gives their number |
| Poker.AsWrittenPlayersLostAt255 | src/lib.rs:146 | with `num_players + 1` wrapping in `u8`, every count gets its players except 255, which gets none |
| Poker.HoldingCount | src/lib.rs:172 | the `filter(..).count()` of players with a non-empty hand, at most the number of players; `HoldingCountPositive` and `HoldingCountAboveOne` state what its values mean |
| Poker.HoldingCountPositive | src/lib.rs:172 | some player holds cards exactly when the count is positive |
| Poker.HoldingCountAboveOne | src/lib.rs:171-173 | the count exceeds one exactly when two different players hold cards |
| Poker.HoldingCountAll | src/lib.rs:171-173 | when every player holds cards, all are counted |
| Poker.HandCardsGive | src/lib.rs:166-167 | pushing cards onto one player's hand adds exactly those cards to the hands |
| Poker.DealtTo | src/lib.rs:161-167 | a player after the two pushes of the deal at position `k`: the old hand, then the cards at positions `2 * k` and `2 * k + 1` counted from the top of the deck (the top being 0), in pop order |
| Poker.DealtPlayers | src/lib.rs:159-169 | the players after the first `n` turns of the deal loop, as many as before; `DealtPlayersHands` states each player's hand |
| Poker.DealtPlayersHands | src/lib.rs:159-169 | each dealt player holds their old hand plus the two cards at their position from the top, in pop order; the others are unchanged |
| Poker.DealingConservesCards | src/lib.rs:159-169 | the deck after dealing plus the hands after dealing are the deck and hands before |
| Poker.DealKeepsTable | src/lib.rs:159-169 | a whole deal keeps deck, hands and shared cards together unchanged |
| Poker.TurnedUp | src/lib.rs:53-72 | popping the top card and pushing it onto the shared cards extends the shown run by one |
| Poker.TurnedUpCards | src/lib.rs:53-72 | the cards that `k` pops pushed onto the shared cards lay down; `TurnedUpOrder` and `TurnedUpMultiset` state their order and contents |
| Poker.ShowingKeepsTable | src/lib.rs:44-78 | turning up cards keeps deck, hands and shared cards together unchanged |
| Poker.TurnedUpOrder | src/lib.rs:53-72 | the `i`-th card turned up is the `i`-th card from the top of the deck |
| Poker.TurnedUpMultiset | src/lib.rs:53-72 | the cards turned up are exactly the top cards of the deck |
| Poker.CardsToShowSplits | src/lib.rs:44-78 | each round before the river shows its own cards and leaves the rest to the next, the loop moves to a later round, and flop, turn and river show 3 + 1 + 1 = 5 |
| Poker.NextRound | src/lib.rs:49-68 | the round each arm of the match moves to, the river being last; `CardsToShowSplits` states that it moves to a later round |
| Poker.Game.IsValid | src/lib.rs:171-173 | `is_valid` is true exactly when two different players hold cards |
| Poker.Game.Init | src/lib.rs:144-152 | the struct literal of `Game::new`: the given deck and players, dealer 0, pre-flop, no shared cards |
| Poker.Game.HandCardsEmpty | src/lib.rs:146-148 | players with empty hands hold no cards |
| Poker.Game.New | src/lib.rs:114-153 | Err "not enough players" exactly below two players; otherwise the full deck, `numPlayers` empty-handed players, pre-flop, dealer 0, no shared cards, and the 52 deck cards on the table |
| Poker.Game.ShuffleCards | src/lib.rs:155-157 | the deck becomes the given permutation of itself and nothing else changes |
| Poker.Game.DealCards | src/lib.rs:159-169 | with two cards per player in the deck, the players are dealt as `DealtPlayers`, the deck loses its top `2 * players` cards, the rest is unchanged, and no card is lost or created |
| Poker.Game.RevealCard | src/lib.rs:53-54 | the top card of the deck moves to the end of the shared cards |
| Poker.Game.PlayRound | src/lib.rs:45-77 | one pass of the loop: the round advances, the flop turns up three cards, the turn and river one each, and the river ends the loop |
| Poker.Game.PlayRounds | src/lib.rs:44-78 | an invalid game is left unchanged; a valid one ends at the river with its remaining rounds' cards taken off the top of the deck onto the shared cards in pop order; players stay, and no card is lost or created |
| Poker.Game.PlayGame | src/lib.rs:32-78 | below two players an error; otherwise the game ends at the river with the players dealt from the shuffled deck, five shared cards turned up below the dealt ones, and the 52 deck cards on the table |
| Poker.DealtHandsFromOrder | src/lib.rs:159-169 | player `i` ends up with the cards at positions `2 * i` and `2 * i + 1` from the top of the shuffled deck |
| Poker.SharedFromOrder | src/lib.rs:44-78 | the five shared cards are the next five from the top after the dealt ones, in the order of turning up |
| Poker.DealtTableIsValid | src/lib.rs:40-44 | after the deal of at least two players, more than one player holds cards, so the round loop runs |

## Left out

- Shuffling: `shuffle_cards` draws from `thread_rng` (src/lib.rs:155-157). `ShuffleCards` and `PlayGame` take the resulting order as a parameter; any permutation of the deck is allowed.
- Printing: all `println!` output of `play_game` is left out. Nothing in it affects the state.
- End of `play_game`: the merge of `players[0]`'s hand with the shared cards and the `itertools` combinations (src/lib.rs:81-93) are only printed. Picking a winner (src/lib.rs:95-98) is a TODO in the source. `PlayGame` returns the game after the river instead of `()`, so that the final state can be stated.
- `Config::new` (src/lib.rs:18-29) and all of src/main.rs: argument parsing, process exit and I/O.
- `Card::cmp` (src/lib.rs:356-361) answers `Equal` for any two cards, so it orders nothing. Sortedness is stated with `CardType::cmp`.
- Hashing and iteration order of the `HashMap` in `rank_hand`: the counts are a Dafny `map`. The pass over them takes the keys in any order, and `ScanCounts` states its result for every order. This covers the descending order of `sorted_by_key(...).rev()`.
- Panics of `expect` become preconditions:
  - `DealCards` requires two cards per player (src/lib.rs:163-164).
  - `PlayRounds` requires the cards still to show (src/lib.rs:54-72).
  - So `PlayGame` requires `2 * numPlayers + 5 <= 52`, that is at most 23 players.
  - `RankHand` requires exactly five cards, following the doc comment of `rank_hand` (src/lib.rs:176, "given a 5 card hand"). Its indexing panics below five cards.
- In a debug build, `num_players + 1` at src/lib.rs:146 panics on overflow for 255 players. Only the wrapping release behaviour is modelled, in `AsWrittenPlayers`.
- Classifier.RankHand: hands of more than five cards are excluded. The source would index their first five cards and count all of them; nothing is promised about such hands.
- `dealer_position` is stored and never read or changed; the model keeps it at 0.
- The `i32` values of the count map cannot overflow, since a hand holds at most five cards of a type, so they are plain integers.
- Cards.NextCardType: "strictly above" is not stated for `Number(255)`, whose `u8` successor wraps to `Number(0)`. No card of the deck has that type.

## Findings

| source | as written | input that shows it | evidently intended | confidence | as-written member | corrected member |
|---|---|---|---|---|---|---|
| src/lib.rs:406-410 | `PartialEq for CardType` returns `true` for any two card types. So `is_royal_straight` holds for every hand. The comparison at src/lib.rs:301 never fails, so `is_straight` fails only on an Ace in positions 0 to 3. `Card::eq` (src/lib.rs:369-373) compares only suits, so the 52 cards are pairwise distinct only under structural equality. The `HashMap` grouping depends on hash collisions. | 4-8 of spades: the royal test passes and `rank_hand` returns RoyalFlush, while tests/rank_hand_tests.rs:39-65 expects StraightFlush | structural equality, as the derived `Hash` at src/lib.rs:375 already distinguishes | not executed | Classifier.LiteralEqualityMisranksStraightFlush | Classifier.ClassifyStraightsAndFlushes |
| src/lib.rs:340-348 | the loop `for i in 1..4` compares only indices 1 to 3 with the first suit | 2, 3, 5, 7 of spades with the Ace of diamonds is ranked Flush | all five cards of one suit, ranking this hand HighCard | not executed | Classifier.FlushTestIgnoresFifthCard | Classifier.IntendedFlushCategories |
| src/lib.rs:146 | `1..num_players + 1` is computed in `u8` | `num_players = 255`: the bound wraps to 0, the range is empty and the game has no players (a debug build panics instead) | 255 players | not executed | Poker.AsWrittenPlayersLostAt255 | Poker.Game.New |

`Game.New` and the rest of the model use structural equality and the
`num_players` players the code means. `RankHand` keeps the flush test as
written, four suits compared. `IntendedHandRank` gives the five-card version,
and `IntendedFlushCategories` relates the two.
