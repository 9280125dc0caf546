# Uno-style card game: a Dafny model of its rules engine

This project models the rules engine of a small console card game in the style of Uno
(`main.cpp`). The game has:

- cards that pair one of five colours with one of fourteen values;
- a 90-card deck used as a stack;
- players who draw from the deck and choose cards;
- an automated player that decides by fixed rules;
- a game loop that resolves one turn per iteration.

The model is split into four modules:

- `Cards` (`cards.dfy`) holds the colour and value enumerations, their integer casts and
  `Card::canPlayOn`.
- `Decks` (`deck.dfy`) holds the `Deck` class.
  - Its cards are a `seq<Card>` whose last element is the top of the stack.
  - `Initialize`, `Shuffle`, `Draw` and `Empty` are methods.
  - The composition of a fresh deck is the function `FullDeck`. Lemmas count every card in it.
- `Players` (`player.dfy`) holds the `Player` class with `DrawCard`, the automated
  `PlayTurn` and the automated `ChooseColor`.
  - Each method is proved against a specification function: `Rest`/`Dealt`, `FirstPlayable` and `MostCommonColor`.
  - The interactive player's colour check as written (it accepts 0 to 5) is modelled by `AcceptsColorAsWritten`; `ReadColor` is the corrected prompt that accepts only 0 to 3 (see Findings).
- `Engine` (`game.dfy`) holds one turn in two forms.
  - As values: a `Table` (deck, hands by seat, top card, current seat, direction) and the function
    `Turn`, which gives the table after one iteration of the loop in `Game::start`.
  - In place: the `Game` class, whose `Step` method performs that iteration on the objects.
    Its contract ties the new state to `Turn`.
  - The effects of a turn are lemmas about `Turn`: draw, removal, recolouring, the DrawFour
    penalty before the win check, the end of the turn on a win, Reverse, Block, DrawTwo, and
    the conservation of cards.

A player's answer is an `int` as in the source: `-1` means draw, any other value is an index
into the hand. The automated player's answer is computed inside `Step` by `PlayTurn` and
`ChooseColor`. The interactive player's answers are parameters of `Step`. They are constrained
to what `HumanPlayer::playTurn` can return (a legal answer) and to a concrete colour.

Where the code and the game's written design disagree, the model follows the code:

- A DrawFour that empties the hand still gives the next player four cards. The penalty comes
  before the win check (`main.cpp:185-191`).
- The first top card is simply the deck's last card after dealing (`main.cpp:162`). It may be
  a wild card with colour `None`. So "the top card is never `None`" is proved only after a wild
  card has been played (`Engine.Game.Step`, `Engine.AutomatedTurnIsLegal`). For the automated
  player it follows from `MostCommonColor`. For the interactive player it holds because `Step`
  requires a concrete colour: the two non-colours the code accepts are undefined behaviour (see
  Findings).
- `Deck::draw` on an empty deck is undefined behaviour in the code (`cards.back()`), not a
  reported error. The model excludes it by precondition.

## Model

| member | source | states |
|---|---|---|
| Cards.ColorOf | main.cpp:12 | `static_cast<Color>(k)`: the colour whose index is `k` |
| Cards.ColorCastRoundTrip | main.cpp:12 | casting a colour to its index and back gives the colour again |
| Cards.ValueOf | main.cpp:13 | `static_cast<Value>(k)`: the value whose index is `k` |
| Cards.ValueCastRoundTrip | main.cpp:13 | casting a value to its index and back gives the value again |
| Cards.CanPlayOn | main.cpp:25-27 | a wild card (DrawFour, ColorChange) is always playable; any other card is playable if and only if it shares the top card's colour or value |
| Cards.PlayableOnTwin | main.cpp:25-27 | every card is playable on an equal card |
| Cards.PlayabilityIsNotSymmetric | main.cpp:25-27 | a wild card is playable on Red One, but Red One is not playable on the uncoloured wild card |
| Decks.Deck.constructor | main.cpp:33 | `Deck()` leaves 90 cards holding exactly the full composition (`Complete`) |
| Decks.Deck.Initialize | main.cpp:35-53 | the deck becomes exactly `FullDeck()`: per colour, two of each number then Reverse, DrawTwo and Block; then four DrawFour and two ColorChange |
| Decks.Deck.PushColorSet | main.cpp:39-46 | one pass of the colour loop appends that colour's 21 cards in push order |
| Decks.FullDeckComposition | main.cpp:35-53 | the fresh deck holds exactly `Copies(x)` of each card `x`: two per number and colour, one Reverse, DrawTwo and Block per colour, four DrawFour and two ColorChange uncoloured, nothing else |
| Decks.FullDeckSize | main.cpp:35-53 | the fresh deck holds 90 cards |
| Decks.FullDeckComplete | main.cpp:35-53 | the multiset of the fresh deck is the full composition for every card at once |
| Decks.NumberPairsCount | main.cpp:39-42 | the inner loop pushes each value of its list twice in its colour, and nothing else |
| Decks.NumericsCount | main.cpp:39 | the inner loop visits every numeric value exactly once and no special value |
| Decks.SpecialsCount | main.cpp:44-46 | each colour contributes exactly one Reverse, one DrawTwo and one Block of that colour |
| Decks.RepeatCount | main.cpp:49-52 | the wild loops push `k` copies of their card and nothing else |
| Decks.ColorSetCount | main.cpp:39-46 | a colour's cards are two of each number and one of each special of that colour |
| Decks.ColoredCardsCount | main.cpp:38-47 | the colour loop over distinct concrete colours yields the full composition of those colours and nothing of any other |
| Decks.WildsUncoloured | main.cpp:35-53 | in any ordering of a complete deck, a card is uncoloured exactly when it is wild |
| Decks.CopiesWildsUncoloured | main.cpp:49-52 | in the composition, only wild cards are uncoloured and every wild card is |
| Decks.Deck.Shuffle | main.cpp:55-59 | shuffling with supplied random numbers only permutes the cards: same multiset, same length |
| Decks.Deck.Draw | main.cpp:61-65 | `draw` returns the last card and removes exactly that card (LIFO) |
| Decks.Deck.Empty | main.cpp:67 | `empty` is true exactly when the deck has no cards |
| Decks.DealtNext | main.cpp:76-78 | one more draw appends the card just below the ones already dealt |
| Decks.DealtConserves | main.cpp:76-78 | what is left plus what was dealt is exactly the old deck, as multisets |
| Decks.ReversedMultiset | main.cpp:76-78 | the dealt cards, in pop order, are a permutation of the deck's tail |
| Players.Player.constructor | main.cpp:74 | a new player has the given name and kind and an empty hand |
| Players.Player.DrawCard | main.cpp:76-79 | drawing `count` cards leaves `Rest(deck, count)` in the deck and appends `Dealt(deck, count)` to the hand: the popped cards, last card first |
| Players.FirstPlayable | main.cpp:131-136 | the answer is -1 if and only if no card is playable; otherwise it is a playable index with no playable card before it |
| Players.Player.PlayTurn | main.cpp:131-136 | `AIPlayer::playTurn` returns exactly `FirstPlayable(hand, top)` |
| Players.MatchingColourIsPlayed | main.cpp:131-136 | a hand holding a card of the top card's colour plays a card at or before that card instead of drawing |
| Players.CountColor | main.cpp:139-141 | a colour's count never exceeds the hand size |
| Players.CountColorUncoloured | main.cpp:139-141 | with no coloured card in hand every concrete colour counts zero |
| Players.MostCommonColor | main.cpp:138-145 | the replacement colour is concrete, its count is the largest, and every earlier colour in the enumeration counts strictly less (lowest index wins ties) |
| Players.PreferredColorUnique | main.cpp:142-143 | the argmax with that tie-break determines a single colour |
| Players.UncolouredHandChoosesRed | main.cpp:142-144 | a hand without coloured cards yields Red |
| Players.Player.ChooseColor | main.cpp:138-145 | `AIPlayer::chooseColor` returns exactly `MostCommonColor(hand)` |
| Players.ColorCheckAcceptsNonColours | main.cpp:118 | the input check as written accepts 4, which casts to `None`, and 5, which is no colour at all |
| Players.ReadColor | main.cpp:115-125 | the corrected prompt accepts an input if and only if it is 0 to 3, and then yields the concrete colour with that index |
| Engine.NextSeat | main.cpp:204 | `(current + direction + n) % n` is one seat on in the direction, wrapping from the last seat to 0 and from 0 to the last seat |
| Engine.TwoSeatsOn | main.cpp:197-204 | two steps of `NextSeat` are `current + 2 * direction` reduced modulo the number of seats |
| Engine.Remove | main.cpp:176 | erasing index `i` keeps the cards before `i`, shifts the later ones down by one and removes exactly one copy of the erased card |
| Engine.Place | main.cpp:175-181 | playing a card removes it from the current hand and makes it the top card, recoloured with the chosen colour when wild; deck, seat, direction and the other hands are untouched |
| Engine.Penalise | main.cpp:185-188 | only DrawFour changes the deck; the current hand is untouched |
| Engine.Advance | main.cpp:196-204 | after a non-winning play, the current hand and top card stay as they are |
| Engine.Turn | main.cpp:167-205 | one loop iteration keeps the table well formed and keeps the number of seats |
| Engine.TurnPlays | main.cpp:175-204 | a play is: place, apply the DrawFour penalty, then either win or apply the remaining effects |
| Engine.DrawTurn | main.cpp:171-173 | a draw moves the deck's last card to the current hand, does not win, leaves top card and direction alone and passes to the next seat |
| Engine.PlayTurnPlacesCard | main.cpp:175-181 | a play removes exactly the chosen card from the hand and makes it the top card, coloured as chosen when wild |
| Engine.WinEndsTurn | main.cpp:191-194 | a turn wins if and only if it plays the last card in hand; a win leaves seat and direction alone and draws nothing unless the card is DrawFour |
| Engine.DrawFourPenalty | main.cpp:185-204 | DrawFour gives the next seat the four cards popped from the deck, whether or not the play wins; when it does not win, that penalised seat plays next, in the same direction |
| Engine.ReverseFlipsDirection | main.cpp:196-204 | Reverse negates the direction, and the turn passes one seat on in the new direction |
| Engine.BlockSkipsNext | main.cpp:197-204 | Block moves the turn two seats on: with three or more seats the next seat is skipped; with two, the same player moves again |
| Engine.DrawTwoPenalty | main.cpp:199-204 | DrawTwo gives the next seat two popped cards, and that seat still plays next |
| Engine.OrdinaryCardPassesTurn | main.cpp:196-204 | a non-winning numeric or ColorChange card passes to the next seat, keeps the direction and deck and leaves other hands alone |
| Engine.AutomatedTurnIsLegal | main.cpp:131-181 | the automated answer is always legal, and a wild card it plays gets a concrete colour |
| Engine.GiveConserves | main.cpp:76-79 | a player drawing cards loses no card and creates none across deck and hands |
| Engine.RemoveConserves | main.cpp:175-176 | erasing the played card takes exactly that card out of the pool of deck and hands |
| Engine.PenaliseConserves | main.cpp:185-188 | the DrawFour penalty conserves the pool of cards |
| Engine.AdvanceConserves | main.cpp:196-202 | Reverse, Block and DrawTwo conserve the pool of cards |
| Engine.TurnConservesCards | main.cpp:167-205 | a draw conserves the pool of deck and hands; a play moves exactly the played card out of it (onto the top) |
| Engine.OpeningDeal | main.cpp:161 | dealing five cards to each of the first `m` seats keeps seat count, top, seat and direction and takes exactly `OpeningCards(m)` cards |
| Engine.OpeningDealHands | main.cpp:161 | after the deal each of the first `m` hands holds five more cards and the others are unchanged |
| Engine.OpeningDealConserves | main.cpp:161 | the opening deal conserves the pool of cards |
| Engine.TurnUp | main.cpp:162 | turning up the top card leaves the hands alone and takes the deck's last card |
| Engine.SetupDeals | main.cpp:157-162 | with three empty hands, setup leaves 16 fewer cards in the deck, five in each hand, and the hands, deck and top together are the old deck |
| Engine.Game.constructor | main.cpp:155-160 | `Game()` and the three `push_back`s: a full shuffled deck; players "You" (interactive), "AI-1" and "AI-2" (automated) with empty hands; Red One on top; direction 1; seat 0; the deck and the players are new objects, so `Setup` and `Step` may change them |
| Engine.Game.Setup | main.cpp:161-162 | setup leaves exactly `TurnUp(OpeningDeal(old state, players))` |
| Engine.Game.DealHands | main.cpp:161 | the deal loop leaves exactly `OpeningDeal(old state, players)` |
| Engine.Game.Deal | main.cpp:76-79 | `players[seat]->drawCard(deck, k)` leaves exactly `Give(old state, seat, k)` |
| Engine.Game.Step | main.cpp:167-205 | one iteration: the automated answer is `FirstPlayable` and its colour is `MostCommonColor` of the remaining hand; a wild top card ends up concrete; the new state and the win flag are exactly `Turn(old state, choice, color)` |
| Engine.Game.Play | main.cpp:174-203 | a play leaves exactly the state `Turn` gives, with the wild card coloured as chosen |
| Engine.Game.PlaceCard | main.cpp:175-181 | erase, put on top and recolour leave exactly `Place(old state, choice, color)` |
| Engine.Game.FinishTurn | main.cpp:196-204 | Reverse, Block, DrawTwo and the seat update leave exactly `Advance(old state, value)` |

## Left out

- `HumanPlayer::playTurn` (`main.cpp:93-113`): its console prompt, input parsing and re-prompt loop are I/O. Its result is a parameter of `Engine.Game.Step`, constrained to what the loop can return: -1 or the index of a playable card.
- `HumanPlayer::chooseColor` (`main.cpp:115-125`): the console read and the recursive re-prompt are I/O. Its result is a parameter of `Step`, and the range the code accepts (0 to 5) is modelled by `Players.AcceptsColorAsWritten`; `Players.ReadColor` is the corrected prompt that accepts only 0 to 3 (see Findings).
- `Card::display`, `Player::showHand` and every `cout` line are display only.
- The `while (true)` loop of `Game::start` is not modelled as a loop, because the game need not terminate. `Step` models one iteration, and the local `current` becomes a field of `Game`.
- `Decks.Deck.Shuffle`: `std::shuffle` with a `random_device`-seeded `mt19937` is replaced by a Fisher-Yates pass over supplied numbers. Only the permutation is stated, not the distribution.
- Drawing from an empty deck is undefined in the source. `Decks.Deck.Draw`, `Players.Player.DrawCard`, `Engine.Game.Setup` and `Engine.Game.Step` require enough cards (`Engine.Demand` counts what a turn draws), so deck exhaustion is not modelled.
- `main` (`main.cpp:209-214`) only chains construction, setup and the loop.
- The players are a fixed sequence (`const players`) of distinct objects. The `deque<shared_ptr<Player>>` itself is never changed after setup, and the model starts from the three players pushed at the start of `setup`.
- `Engine.Game.Step`: the interactive player's colour is required to be concrete, which is the corrected prompt of `Players.ReadColor`. The inputs 4 and 5 that the code as written accepts are not run through the turn: both index the four-entry `colors[]` (`main.cpp:182`) out of bounds at `main.cpp:183`, which is undefined behaviour, so the precondition excludes it as the empty-deck preconditions do.

## Findings

| source | as written | input that shows it | evidently intended | confidence | as-written member | corrected member |
|---|---|---|---|---|---|---|
| main.cpp:118 | the colour check rejects only `c < 0 \|\| c > 5`, so 4 and 5 pass and are cast to `Color` | input 4 gives `None` as the wild card's colour and input 5 a value outside the enumeration; both then index the four-entry `colors[]` of `main.cpp:182` out of bounds at `main.cpp:183` (undefined behaviour) | accept only the offered 0 to 3, so that a played wild card always gets a concrete colour | not executed | Players.ColorCheckAcceptsNonColours | Players.ReadColor |
