/**
 * One turn of the game: the state a turn reads and writes as a value (`Table`), the
 * turn as a function of it (`Turn`), the properties of that function, and the `Game`
 * class whose `Step` performs one iteration of the game loop in place.
 */
module Engine {
  import opened Cards
  import opened Decks
  import opened Players

  /** The state one turn reads and writes: the deck, every hand by seat, the top card, whose turn it is and the direction. */
  datatype Table = Table(deck: seq<Card>, hands: seq<seq<Card>>, top: Card, current: int, direction: int)

  /** The table after a turn, and whether the turn won the game. */
  datatype Outcome = Outcome(next: Table, won: bool)

  /** At least two seats, the current seat among them, and a direction of plus or minus one. */
  predicate WellFormed(t: Table)
  {
    |t.hands| >= 2 && 0 <= t.current < |t.hands| && (t.direction == 1 || t.direction == -1)
  }

  /** `(current + direction + players.size()) % players.size()`: one seat on in `direction`, wrapping at both ends. */
  function NextSeat(current: int, direction: int, n: int): (k: int)
    requires 0 <= current < n && (direction == 1 || direction == -1)
    ensures k == if current + direction == n then 0 else if current + direction < 0 then n - 1 else current + direction
  {
    Wrap(current + direction + n, n);
    (current + direction + n) % n
  }

  /** Reducing a number below `2 * n` modulo `n` subtracts `n` at most once. */
  lemma Wrap(s: int, n: int)
    requires 0 < n && 0 <= s <= 2 * n
    ensures s % n == if s < n then s else if s < 2 * n then s - n else 0
  {
    if n <= s < 2 * n {
      assert s == (s - n) + n;
    } else if s == 2 * n {
      assert s == 2 * n + 0;
    }
  }

  /** Two seats on in `direction` is `current + 2 * direction` reduced modulo the number of seats. */
  lemma TwoSeatsOn(current: int, direction: int, n: int)
    requires 2 <= n && 0 <= current < n && (direction == 1 || direction == -1)
    ensures NextSeat(NextSeat(current, direction, n), direction, n) == (current + 2 * direction) % n
  {
    var x := current + 2 * direction;
    if x < 0 {
      assert x == -2 || x == -1;
      assert x % n == x + n;
    } else if x >= n {
      assert x == n || x == n + 1;
      assert x % n == x - n;
    } else {
      assert x % n == x;
    }
  }

  /** `hand.erase(hand.begin() + i)`: the hand without its `i`-th card, the others in their order. */
  function Remove(hand: seq<Card>, i: int): (r: seq<Card>)
    requires 0 <= i < |hand|
    ensures |r| == |hand| - 1
    ensures forall j :: 0 <= j < i ==> r[j] == hand[j]
    ensures forall j :: i <= j < |r| ==> r[j] == hand[j + 1]
    ensures multiset(r) + multiset{hand[i]} == multiset(hand)
  {
    assert hand == hand[..i] + [hand[i]] + hand[i + 1..];
    hand[..i] + hand[i + 1..]
  }

  /** What the current player may answer: -1 to draw, or the index of a card playable on the top card. */
  predicate Legal(t: Table, choice: int)
    requires WellFormed(t)
  {
    choice == -1 || (0 <= choice < |t.hands[t.current]| && CanPlayOn(t.hands[t.current][choice], t.top))
  }

  /** How many cards the turn draws from the deck: one for a draw, four for DrawFour, two for DrawTwo unless it wins. */
  function Demand(t: Table, choice: int): nat
    requires WellFormed(t) && Legal(t, choice)
  {
    if choice == -1 then 1
    else
      var hand := t.hands[t.current];
      if hand[choice].value == DrawFour then 4
      else if hand[choice].value == DrawTwo && |hand| > 1 then 2
      else 0
  }

  /** `players[seat]->drawCard(deck, k)` on the table. */
  function Give(t: Table, seat: int, k: nat): (r: Table)
    requires 0 <= seat < |t.hands| && k <= |t.deck|
  {
    t.(deck := Rest(t.deck, k), hands := t.hands[seat := t.hands[seat] + Dealt(t.deck, k)])
  }

  /** Playing the `choice`-th card: it leaves the current hand and becomes the top card, recoloured with `color` when wild. */
  function Place(t: Table, choice: int, color: Color): (r: Table)
    requires WellFormed(t) && 0 <= choice < |t.hands[t.current]|
    ensures WellFormed(r) && |r.hands| == |t.hands| && r.deck == t.deck && r.current == t.current
    ensures r.direction == t.direction
    ensures r.hands[t.current] == Remove(t.hands[t.current], choice)
    ensures forall j :: 0 <= j < |t.hands| && j != t.current ==> r.hands[j] == t.hands[j]
    ensures var card := t.hands[t.current][choice];
      r.top == if IsWild(card.value) then Card(color, card.value) else card
  {
    var card := t.hands[t.current][choice];
    var top := if IsWild(card.value) then Card(color, card.value) else card;
    t.(hands := t.hands[t.current := Remove(t.hands[t.current], choice)], top := top)
  }

  /** The penalty applied before the win check: DrawFour gives the next player four cards. */
  function Penalise(t: Table, value: Value): (r: Table)
    requires WellFormed(t) && (value == DrawFour ==> 4 <= |t.deck|)
    ensures WellFormed(r) && |r.hands| == |t.hands| && r.current == t.current && r.direction == t.direction
    ensures r.hands[t.current] == t.hands[t.current]
    ensures value != DrawFour ==> r.deck == t.deck
  {
    if value == DrawFour then Give(t, NextSeat(t.current, t.direction, |t.hands|), 4) else t
  }

  /**
   * The rest of a turn that did not win: Reverse turns the direction round, Block moves one
   * seat on, DrawTwo gives the following player two cards, and the turn passes one seat on.
   */
  function Advance(t: Table, value: Value): (r: Table)
    requires WellFormed(t) && (value == DrawTwo ==> 2 <= |t.deck|)
    ensures WellFormed(r) && |r.hands| == |t.hands|
    ensures r.hands[t.current] == t.hands[t.current] && r.top == t.top
  {
    var n := |t.hands|;
    var dir := if value == Reverse then -t.direction else t.direction;
    var cur := if value == Block then NextSeat(t.current, dir, n) else t.current;
    var after := if value == DrawTwo then Give(t, NextSeat(cur, dir, n), 2) else t;
    after.(current := NextSeat(cur, dir, n), direction := dir)
  }

  /**
   * One iteration of the game loop, given the current player's answer `choice` and,
   * for a wild card, the colour `color` chosen for it.
   */
  function Turn(t: Table, choice: int, color: Color): (o: Outcome)
    requires WellFormed(t) && Legal(t, choice) && Demand(t, choice) <= |t.deck|
    ensures WellFormed(o.next) && |o.next.hands| == |t.hands|
  {
    if choice == -1 then
      Outcome(Give(t, t.current, 1).(current := NextSeat(t.current, t.direction, |t.hands|)), false)
    else
      var card := t.hands[t.current][choice];
      var penalised := Penalise(Place(t, choice, color), card.value);
      if penalised.hands[t.current] == [] then Outcome(penalised, true)
      else
        assert |t.hands[t.current]| > 1;
        assert card.value == DrawTwo ==> penalised.deck == t.deck && Demand(t, choice) == 2;
        Outcome(Advance(penalised, card.value), false)
  }

  /** A turn that plays a card: place it, apply the DrawFour penalty, then either win or carry on. */
  lemma TurnPlays(t: Table, choice: int, color: Color)
    requires WellFormed(t) && Legal(t, choice) && choice >= 0 && Demand(t, choice) <= |t.deck|
    ensures var value := t.hands[t.current][choice].value;
      var penalised := Penalise(Place(t, choice, color), value);
      && (value == DrawTwo && penalised.hands[t.current] != [] ==> 2 <= |penalised.deck|)
      && Turn(t, choice, color) == if penalised.hands[t.current] == [] then Outcome(penalised, true) else Outcome(Advance(penalised, value), false)
  {
  }

  /** The cards in all hands together. */
  function HandsPool(hands: seq<seq<Card>>): multiset<Card>
  {
    if hands == [] then multiset{} else HandsPool(hands[..|hands| - 1]) + multiset(hands[|hands| - 1])
  }

  /** The cards in the deck and in all hands. */
  function Pool(t: Table): multiset<Card>
  {
    multiset(t.deck) + HandsPool(t.hands)
  }

  /** Replacing one hand replaces its cards in the pool of all hands. */
  lemma {:induction false} HandsPoolUpdate(hands: seq<seq<Card>>, i: int, hand: seq<Card>)
    requires 0 <= i < |hands|
    ensures HandsPool(hands[i := hand]) + multiset(hands[i]) == HandsPool(hands) + multiset(hand)
  {
    var last := |hands| - 1;
    if i < last {
      var front, updated := hands[..last], hands[i := hand];
      HandsPoolUpdate(front, i, hand);
      assert front[i] == hands[i];
      assert updated[..last] == front[i := hand];
      calc {
        HandsPool(updated) + multiset(hands[i]);
        HandsPool(front[i := hand]) + multiset(hands[last]) + multiset(hands[i]);
        (HandsPool(front[i := hand]) + multiset(front[i])) + multiset(hands[last]);
        HandsPool(front) + multiset(hand) + multiset(hands[last]);
        HandsPool(hands) + multiset(hand);
      }
    } else {
      assert hands[i := hand][..last] == hands[..last];
    }
  }

  /** Hands that are all empty hold no cards. */
  lemma {:induction false} HandsPoolEmpty(hands: seq<seq<Card>>)
    requires forall i :: 0 <= i < |hands| ==> hands[i] == []
    ensures HandsPool(hands) == multiset{}
  {
    if hands != [] {
      HandsPoolEmpty(hands[..|hands| - 1]);
    }
  }

  /** Drawing moves cards from the deck to a hand, neither creating nor losing any. */
  lemma GiveConserves(t: Table, seat: int, k: nat)
    requires 0 <= seat < |t.hands| && k <= |t.deck|
    ensures Pool(Give(t, seat, k)) == Pool(t)
  {
    var dealt := Dealt(t.deck, k);
    var hands := t.hands[seat := t.hands[seat] + dealt];
    DealtConserves(t.deck, k);
    HandsPoolUpdate(t.hands, seat, t.hands[seat] + dealt);
    assert multiset(t.hands[seat] + dealt) == multiset(t.hands[seat]) + multiset(dealt);
    forall c: Card ensures HandsPool(hands)[c] == HandsPool(t.hands)[c] + multiset(dealt)[c] {
      assert (HandsPool(hands) + multiset(t.hands[seat]))[c] == (HandsPool(t.hands) + multiset(t.hands[seat] + dealt))[c];
    }
    assert HandsPool(hands) == HandsPool(t.hands) + multiset(dealt);
    calc {
      Pool(Give(t, seat, k));
      multiset(Rest(t.deck, k)) + HandsPool(hands);
      multiset(Rest(t.deck, k)) + multiset(dealt) + HandsPool(t.hands);
      Pool(t);
    }
  }

  /** Taking the `i`-th card out of seat `p`'s hand removes exactly that card from the pool. */
  lemma RemoveConserves(t: Table, p: int, i: int)
    requires 0 <= p < |t.hands| && 0 <= i < |t.hands[p]|
    ensures Pool(t.(hands := t.hands[p := Remove(t.hands[p], i)])) + multiset{t.hands[p][i]} == Pool(t)
  {
    var hands, card := t.hands[p := Remove(t.hands[p], i)], t.hands[p][i];
    HandsPoolUpdate(t.hands, p, Remove(t.hands[p], i));
    forall c: Card ensures HandsPool(hands)[c] + multiset{card}[c] == HandsPool(t.hands)[c] {
      assert (HandsPool(hands) + multiset(t.hands[p]))[c] == (HandsPool(t.hands) + multiset(Remove(t.hands[p], i)))[c];
    }
    assert HandsPool(hands) + multiset{card} == HandsPool(t.hands);
  }

  /**
   * Card conservation: a turn that draws keeps every card in the deck or a hand; a turn that
   * plays removes exactly the played card from them (it becomes the top card).
   */
  lemma TurnConservesCards(t: Table, choice: int, color: Color)
    requires WellFormed(t) && Legal(t, choice) && Demand(t, choice) <= |t.deck|
    ensures choice == -1 ==> Pool(Turn(t, choice, color).next) == Pool(t)
    ensures choice >= 0 ==> Pool(Turn(t, choice, color).next) + multiset{t.hands[t.current][choice]} == Pool(t)
  {
    if choice == -1 {
      GiveConserves(t, t.current, 1);
    } else {
      var value := t.hands[t.current][choice].value;
      var placed := Place(t, choice, color);
      var penalised := Penalise(placed, value);
      RemoveConserves(t, t.current, choice);
      PenaliseConserves(placed, value);
      TurnPlays(t, choice, color);
      if penalised.hands[t.current] != [] {
        AdvanceConserves(penalised, value);
      }
    }
  }

  /** The DrawFour penalty moves cards from the deck to a hand and loses none. */
  lemma PenaliseConserves(t: Table, value: Value)
    requires WellFormed(t) && (value == DrawFour ==> 4 <= |t.deck|)
    ensures Pool(Penalise(t, value)) == Pool(t)
  {
    if value == DrawFour {
      GiveConserves(t, NextSeat(t.current, t.direction, |t.hands|), 4);
    }
  }

  /** Passing the turn on, with the DrawTwo penalty, loses no card. */
  lemma AdvanceConserves(t: Table, value: Value)
    requires WellFormed(t) && (value == DrawTwo ==> 2 <= |t.deck|)
    ensures Pool(Advance(t, value)) == Pool(t)
  {
    var n := |t.hands|;
    var dir := if value == Reverse then -t.direction else t.direction;
    var cur := if value == Block then NextSeat(t.current, dir, n) else t.current;
    if value == DrawTwo {
      GiveConserves(t, NextSeat(cur, dir, n), 2);
    }
  }

  /** How many cards the opening deal takes from the deck for the first `m` seats. */
  function OpeningCards(m: nat): nat
  {
    if m == 0 then 0 else OpeningCards(m - 1) + 5
  }

  /** Dealing to one more seat, and to any seats after it, takes at least five more cards. */
  lemma {:induction false} OpeningCardsGrow(i: nat, n: nat)
    requires i < n
    ensures OpeningCards(i) + 5 <= OpeningCards(n)
  {
    if i + 1 < n {
      OpeningCardsGrow(i, n - 1);
    }
  }

  /** The opening deal: seats `0` to `m - 1`, in seat order, each draw five cards. */
  function OpeningDeal(t: Table, m: nat): (r: Table)
    requires m <= |t.hands| && OpeningCards(m) <= |t.deck|
    ensures |r.hands| == |t.hands| && |r.deck| == |t.deck| - OpeningCards(m)
    ensures r.top == t.top && r.current == t.current && r.direction == t.direction
  {
    if m == 0 then t else Give(OpeningDeal(t, m - 1), m - 1, 5)
  }

  /** After the opening deal each of the first `m` seats holds five more cards and the others are as they were. */
  lemma {:induction false} OpeningDealHands(t: Table, m: nat)
    requires m <= |t.hands| && OpeningCards(m) <= |t.deck|
    ensures forall j :: 0 <= j < |t.hands| ==> |OpeningDeal(t, m).hands[j]| == |t.hands[j]| + if j < m then 5 else 0
  {
    if m > 0 {
      OpeningDealHands(t, m - 1);
    }
  }

  /** The opening deal moves cards from the deck to the hands and loses none. */
  lemma {:induction false} OpeningDealConserves(t: Table, m: nat)
    requires m <= |t.hands| && OpeningCards(m) <= |t.deck|
    ensures Pool(OpeningDeal(t, m)) == Pool(t)
  {
    if m > 0 {
      OpeningDealConserves(t, m - 1);
      GiveConserves(OpeningDeal(t, m - 1), m - 1, 5);
    }
  }

  /** `topCard = deck.draw()`: the deck's last card becomes the top card. */
  function TurnUp(t: Table): (r: Table)
    requires |t.deck| >= 1
    ensures r.hands == t.hands && r.deck + [r.top] == t.deck
  {
    t.(deck := t.deck[..|t.deck| - 1], top := t.deck[|t.deck| - 1])
  }

  /**
   * `Game::setup` at a table of three empty hands: each seat is dealt five cards and the top
   * card is turned up, so sixteen cards have left the deck and none is lost or created.
   */
  lemma SetupDeals(t: Table)
    requires |t.hands| == 3 && |t.deck| >= 16
    requires forall j :: 0 <= j < 3 ==> t.hands[j] == []
    ensures var r := TurnUp(OpeningDeal(t, 3));
      && |r.deck| == |t.deck| - 16
      && (forall j :: 0 <= j < 3 ==> |r.hands[j]| == 5)
      && Pool(r) + multiset{r.top} == multiset(t.deck)
  {
    var m := |t.hands|;
    OpeningDealHands(t, m);
    HandsPoolEmpty(t.hands);
    OpeningDealConserves(t, m);
    var dealt := OpeningDeal(t, m);
    var r := TurnUp(dealt);
    assert Pool(t) == multiset(t.deck);
    assert multiset(dealt.deck) == multiset(r.deck) + multiset{r.top};
    assert Pool(dealt) == Pool(r) + multiset{r.top};
  }

  /** A draw adds the deck's last card to the current hand and passes the turn on; nothing else changes. */
  lemma DrawTurn(t: Table, color: Color)
    requires WellFormed(t) && |t.deck| >= 1
    ensures var o := Turn(t, -1, color);
      && !o.won
      && o.next.deck == t.deck[..|t.deck| - 1]
      && o.next.hands == t.hands[t.current := t.hands[t.current] + [t.deck[|t.deck| - 1]]]
      && o.next.top == t.top
      && o.next.direction == t.direction
      && o.next.current == NextSeat(t.current, t.direction, |t.hands|)
  {
    assert Dealt(t.deck, 0) == [];
    DealtNext(t.deck, 0);
    assert Dealt(t.deck, 1) == [t.deck[|t.deck| - 1]];
    assert Turn(t, -1, color).next.hands == Give(t, t.current, 1).hands;
  }

  /**
   * Playing removes exactly the chosen card from the current hand and makes it the top card,
   * coloured with the chosen colour when it is wild.
   */
  lemma PlayTurnPlacesCard(t: Table, choice: int, color: Color)
    requires WellFormed(t) && Legal(t, choice) && choice >= 0 && Demand(t, choice) <= |t.deck|
    ensures var o, card := Turn(t, choice, color), t.hands[t.current][choice];
      && o.next.hands[t.current] == Remove(t.hands[t.current], choice)
      && o.next.top == (if IsWild(card.value) then Card(color, card.value) else card)
  {
  }

  /**
   * The game is won exactly when the played card was the last in hand. Then the turn ends at
   * once: current seat and direction stay, and only a DrawFour penalty has been applied.
   */
  lemma WinEndsTurn(t: Table, choice: int, color: Color)
    requires WellFormed(t) && Legal(t, choice) && Demand(t, choice) <= |t.deck|
    ensures var o := Turn(t, choice, color);
      && (o.won <==> choice >= 0 && |t.hands[t.current]| == 1)
      && (o.won ==> o.next.current == t.current && o.next.direction == t.direction)
      && (o.won && t.hands[t.current][choice].value != DrawFour ==> o.next.deck == t.deck)
  {
  }

  /**
   * DrawFour gives the next player in the current direction four cards from the deck, even when
   * the turn wins; when it does not win, that penalised player still has the next turn.
   */
  lemma DrawFourPenalty(t: Table, choice: int, color: Color)
    requires WellFormed(t) && Legal(t, choice) && choice >= 0 && Demand(t, choice) <= |t.deck|
    requires t.hands[t.current][choice].value == DrawFour
    ensures var o, next := Turn(t, choice, color), NextSeat(t.current, t.direction, |t.hands|);
      && o.next.hands[next] == t.hands[next] + Dealt(t.deck, 4)
      && o.next.deck == Rest(t.deck, 4)
      && (|t.hands[t.current]| > 1 ==> !o.won && o.next.current == next && o.next.direction == t.direction)
  {
  }

  /** Reverse negates the direction, and the turn passes one seat on in the new direction. */
  lemma ReverseFlipsDirection(t: Table, choice: int, color: Color)
    requires WellFormed(t) && Legal(t, choice) && choice >= 0 && Demand(t, choice) <= |t.deck|
    requires t.hands[t.current][choice].value == Reverse && |t.hands[t.current]| > 1
    ensures var o := Turn(t, choice, color);
      && o.next.direction == -t.direction
      && o.next.current == NextSeat(t.current, -t.direction, |t.hands|)
      && o.next.deck == t.deck
  {
  }

  /**
   * Block moves the turn two seats on: with three or more seats the next player is skipped,
   * and with two the player who blocked moves again.
   */
  lemma BlockSkipsNext(t: Table, choice: int, color: Color)
    requires WellFormed(t) && Legal(t, choice) && choice >= 0 && Demand(t, choice) <= |t.deck|
    requires t.hands[t.current][choice].value == Block && |t.hands[t.current]| > 1
    ensures var o, n := Turn(t, choice, color), |t.hands|;
      && o.next.current == (t.current + 2 * t.direction) % n
      && (n >= 3 ==> o.next.current != NextSeat(t.current, t.direction, n))
      && (n == 2 ==> o.next.current == t.current)
      && o.next.direction == t.direction
  {
    TwoSeatsOn(t.current, t.direction, |t.hands|);
  }

  /** DrawTwo gives the next player two cards, and that player still has the next turn. */
  lemma DrawTwoPenalty(t: Table, choice: int, color: Color)
    requires WellFormed(t) && Legal(t, choice) && choice >= 0 && Demand(t, choice) <= |t.deck|
    requires t.hands[t.current][choice].value == DrawTwo && |t.hands[t.current]| > 1
    ensures var o, next := Turn(t, choice, color), NextSeat(t.current, t.direction, |t.hands|);
      && o.next.hands[next] == t.hands[next] + Dealt(t.deck, 2)
      && o.next.deck == Rest(t.deck, 2)
      && o.next.current == next
  {
  }

  /** Any other card that does not win passes the turn one seat on in the same direction and draws nothing. */
  lemma OrdinaryCardPassesTurn(t: Table, choice: int, color: Color)
    requires WellFormed(t) && Legal(t, choice) && choice >= 0 && Demand(t, choice) <= |t.deck|
    requires IsNumeric(t.hands[t.current][choice].value) || t.hands[t.current][choice].value == ColorChange
    requires |t.hands[t.current]| > 1
    ensures var o := Turn(t, choice, color);
      && !o.won
      && o.next.current == NextSeat(t.current, t.direction, |t.hands|)
      && o.next.direction == t.direction
      && o.next.deck == t.deck
      && (forall j :: 0 <= j < |t.hands| && j != t.current ==> o.next.hands[j] == t.hands[j])
  {
  }

  /** The automated player's answer is always legal, and a wild card it plays gets a concrete colour. */
  lemma AutomatedTurnIsLegal(t: Table, color: Color)
    requires WellFormed(t)
    ensures var choice := FirstPlayable(t.hands[t.current], t.top);
      && Legal(t, choice)
      && (choice >= 0 && Demand(t, choice) <= |t.deck| && color == MostCommonColor(Remove(t.hands[t.current], choice))
          ==> Turn(t, choice, color).next.top.color != None || !IsWild(t.hands[t.current][choice].value))
  {
  }

  /** The game: the deck, the players in seat order, the top card, the direction and whose turn it is. */
  class Game {
    const deck: Deck
    const players: seq<Player>
    var topCard: Card
    var direction: int
    var current: int

    ghost predicate Valid()
      reads this
    {
      && |players| >= 2
      && (forall i, j :: 0 <= i < j < |players| ==> players[i] != players[j])
      && 0 <= current < |players|
      && (direction == 1 || direction == -1)
    }

    /** Every player's hand, by seat. */
    ghost function Hands(): (hs: seq<seq<Card>>)
      reads this, players
      ensures |hs| == |players| && forall i :: 0 <= i < |players| ==> hs[i] == players[i].hand
    {
      seq(|players|, i reads this, players requires 0 <= i < |players| => players[i].hand)
    }

    /** The game as a table. */
    ghost function State(): Table
      reads this, deck, players
    {
      Table(deck.cards, Hands(), topCard, current, direction)
    }

    /**
     * `Game()` and the three `players.push_back` calls that open `Game::setup`: a shuffled full
     * deck, the interactive player "You" and the automated players "AI-1" and "AI-2" with empty
     * hands, Red One as a placeholder top card, direction 1 and seat 0 to begin.
     */
    constructor (rolls: seq<nat>)
      requires |rolls| == 90
      ensures |deck.cards| == 90 && Complete(multiset(deck.cards))
      ensures Valid() && |players| == 3 && Hands() == [[], [], []]
      ensures players[0].name == "You" && !players[0].automated
      ensures players[1].name == "AI-1" && players[1].automated
      ensures players[2].name == "AI-2" && players[2].automated
      ensures topCard == Card(Red, One) && direction == 1 && current == 0
      ensures fresh(deck) && forall i :: 0 <= i < |players| ==> fresh(players[i])
    {
      deck := new Deck(rolls);
      var you := new Player("You", false);
      var ai1 := new Player("AI-1", true);
      var ai2 := new Player("AI-2", true);
      players := [you, ai1, ai2];
      topCard := Card(Red, One);
      direction := 1;
      current := 0;
    }

    /** The rest of `Game::setup`: each player in seat order draws five cards, then the top card is drawn. */
    method Setup()
      requires Valid() && OpeningCards(|players|) < |deck.cards|
      modifies this, deck, players
      ensures Valid()
      ensures State() == TurnUp(OpeningDeal(old(State()), |players|))
    {
      DealHands();
      topCard := deck.Draw();
    }

    /** `for (auto& p : players) p->drawCard(deck, 5)`: every player, in seat order, draws five cards. */
    method DealHands()
      requires Valid() && OpeningCards(|players|) <= |deck.cards|
      modifies deck, players
      ensures State() == OpeningDeal(old(State()), |players|)
    {
      ghost var start := State();
      for i := 0 to |players|
        invariant Valid() && OpeningCards(i) <= OpeningCards(|players|)
        invariant State() == OpeningDeal(start, i)
      {
        OpeningCardsGrow(i, |players|);
        Deal(i, 5);
      }
    }

    /** `players[seat]->drawCard(deck, k)`. */
    method Deal(seat: int, k: nat)
      requires Valid() && 0 <= seat < |players| && k <= |deck.cards|
      modifies deck, players
      ensures State() == Give(old(State()), seat, k)
    {
      players[seat].DrawCard(deck, k);
    }

    /**
     * One iteration of the loop in `Game::start`. The automated player answers with `PlayTurn`
     * and, for a wild card, `ChooseColor`; the interactive player's answers are `humanChoice`
     * (any legal answer) and `humanColor`. The result says whether the game is won.
     */
    method Step(humanChoice: int, humanColor: Color) returns (choice: int, color: Color, won: bool)
      requires Valid()
      requires !players[current].automated ==> Legal(State(), humanChoice) && humanColor != None
      requires Demand(State(), if players[current].automated then FirstPlayable(players[current].hand, topCard) else humanChoice) <= |deck.cards|
      modifies this, deck, players
      ensures Valid()
      ensures choice == if players[old(current)].automated then FirstPlayable(old(players[current].hand), old(topCard)) else humanChoice
      ensures !players[old(current)].automated ==> color == humanColor
      ensures players[old(current)].automated && choice >= 0 && IsWild(old(players[current].hand)[choice].value)
        ==> color == MostCommonColor(Remove(old(players[current].hand), choice))
      ensures choice >= 0 && IsWild(old(players[current].hand)[choice].value) ==> topCard.color != None
      ensures Turn(old(State()), choice, color) == Outcome(State(), won)
    {
      ghost var t := State();
      var player := players[current];
      if player.automated {
        choice := player.PlayTurn(topCard);
      } else {
        choice := humanChoice;
      }
      assert State() == t && Legal(t, choice);
      if choice == -1 {
        color, won := humanColor, false;
        Deal(current, 1);
        current := NextSeat(current, direction, |players|);
      } else {
        color, won := Play(choice, humanColor);
      }
    }

    /** A turn in which the current player plays the `choice`-th card of the hand. */
    method Play(choice: int, humanColor: Color) returns (color: Color, won: bool)
      requires Valid() && choice >= 0 && Legal(State(), choice)
      requires Demand(State(), choice) <= |deck.cards|
      modifies this, deck, players
      ensures Valid()
      ensures !players[old(current)].automated ==> color == humanColor
      ensures players[old(current)].automated && IsWild(old(players[current].hand)[choice].value)
        ==> color == MostCommonColor(Remove(old(players[current].hand), choice))
      ensures IsWild(old(players[current].hand)[choice].value) ==> topCard.color == color
      ensures Turn(old(State()), choice, color) == Outcome(State(), won)
    {
      ghost var t := State();
      ghost var card := t.hands[t.current][choice];
      var player := players[current];
      color := PlaceCard(choice, humanColor);
      if topCard.value == DrawFour {
        Deal(NextSeat(current, direction, |players|), 4);
      }
      ghost var penalised := Penalise(Place(t, choice, color), card.value);
      assert State() == penalised;
      TurnPlays(t, choice, color);
      if player.hand == [] {
        won := true;
      } else {
        won := false;
        FinishTurn(topCard.value);
      }
    }

    /**
     * The current player plays the `choice`-th card of the hand: it is erased from the hand and
     * becomes the top card, and a wild card takes the colour the player chooses.
     */
    method PlaceCard(choice: int, humanColor: Color) returns (color: Color)
      requires Valid() && 0 <= choice < |players[current].hand|
      modifies this, players[current]
      ensures Valid()
      ensures !players[current].automated ==> color == humanColor
      ensures players[current].automated && IsWild(old(players[current].hand)[choice].value)
        ==> color == MostCommonColor(Remove(old(players[current].hand), choice))
      ensures State() == Place(old(State()), choice, color)
    {
      ghost var t := State();
      var player := players[current];
      color := humanColor;
      topCard := player.hand[choice];
      player.hand := player.hand[..choice] + player.hand[choice + 1..];
      ghost var hands := Hands();
      assert hands == t.hands[current := Remove(t.hands[current], choice)];
      if topCard.value == DrawFour || topCard.value == ColorChange {
        if player.automated {
          color := player.ChooseColor();
        }
        topCard := topCard.(color := color);
      }
      assert Hands() == hands;
      assert topCard == Place(t, choice, color).top;
    }

    /** The part of the loop body after the win check: Reverse, Block, DrawTwo, then the next seat. */
    method FinishTurn(value: Value)
      requires Valid() && (value == DrawTwo ==> 2 <= |deck.cards|)
      modifies this, deck, players
      ensures Valid()
      ensures State() == Advance(old(State()), value)
    {
      ghost var t := State();
      var n := |players|;
      if value == Reverse {
        direction := -direction;
      }
      if value == Block {
        current := NextSeat(current, direction, n);
      }
      assert State() == t.(current := current, direction := direction);
      if value == DrawTwo {
        var next := NextSeat(current, direction, n);
        Deal(next, 2);
      }
      current := NextSeat(current, direction, n);
    }
  }
}
