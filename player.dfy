/** Players: a hand of cards, drawing from the deck, and the automated player's two decisions. */
module Players {
  import opened Cards
  import opened Decks

  /** The number of cards of colour `c` in `hand`. */
  function CountColor(hand: seq<Card>, c: Color): (n: nat)
    ensures n <= |hand|
  {
    if hand == [] then 0
    else CountColor(hand[..|hand| - 1], c) + (if hand[|hand| - 1].color == c then 1 else 0)
  }

  /** Without coloured cards every concrete colour counts zero. */
  lemma {:induction false} CountColorUncoloured(hand: seq<Card>, c: Color)
    requires c != None
    requires forall i :: 0 <= i < |hand| ==> hand[i].color == None
    ensures CountColor(hand, c) == 0
  {
    if hand != [] {
      CountColorUncoloured(hand[..|hand| - 1], c);
    }
  }

  /**
   * The automated player's choice of card: the first index whose card may be played
   * on `top`, or -1 when there is none.
   */
  function FirstPlayable(hand: seq<Card>, top: Card): (i: int)
    ensures -1 <= i < |hand|
    ensures i == -1 <==> forall j :: 0 <= j < |hand| ==> !CanPlayOn(hand[j], top)
    ensures i >= 0 ==> CanPlayOn(hand[i], top) && forall j :: 0 <= j < i ==> !CanPlayOn(hand[j], top)
  {
    if hand == [] then -1
    else if CanPlayOn(hand[0], top) then 0
    else
      var i := FirstPlayable(hand[1..], top);
      if i == -1 then -1 else i + 1
  }

  /** A hand holding a card of the top card's colour always plays instead of drawing. */
  lemma MatchingColourIsPlayed(hand: seq<Card>, top: Card, k: nat)
    requires k < |hand| && hand[k].color == top.color
    ensures 0 <= FirstPlayable(hand, top) <= k
  {
  }

  /**
   * `c` is the colour the automated player prefers for `hand`: a concrete colour
   * whose count is largest, and strictly larger than that of every concrete colour
   * earlier in the enumeration.
   */
  ghost predicate IsPreferredColor(hand: seq<Card>, c: Color)
  {
    && c != None
    && (forall k: Color :: k != None ==> CountColor(hand, k) <= CountColor(hand, c))
    && (forall k: Color :: k != None && ColorIndex(k) < ColorIndex(c) ==> CountColor(hand, k) < CountColor(hand, c))
  }

  /** At most one colour is preferred: the tie-break leaves no choice. */
  lemma PreferredColorUnique(hand: seq<Card>, a: Color, b: Color)
    requires IsPreferredColor(hand, a) && IsPreferredColor(hand, b)
    ensures a == b
  {
    ColorCastRoundTrip(a);
    ColorCastRoundTrip(b);
  }

  /** The automated player's replacement colour: the most frequent concrete colour, the earliest on a tie. */
  function MostCommonColor(hand: seq<Card>): (c: Color)
    ensures IsPreferredColor(hand, c)
  {
    var m1 := if CountColor(hand, Pink) > CountColor(hand, Red) then Pink else Red;
    var m2 := if CountColor(hand, Purple) > CountColor(hand, m1) then Purple else m1;
    if CountColor(hand, Yellow) > CountColor(hand, m2) then Yellow else m2
  }

  /** With no coloured card in hand the replacement colour is Red. */
  lemma UncolouredHandChoosesRed(hand: seq<Card>)
    requires forall i :: 0 <= i < |hand| ==> hand[i].color == None
    ensures MostCommonColor(hand) == Red
  {
    CountColorUncoloured(hand, Red);
    CountColorUncoloured(hand, Pink);
    CountColorUncoloured(hand, Purple);
    CountColorUncoloured(hand, Yellow);
  }

  /** The interactive player's answer to the colour prompt: a colour, or a rejection that asks again. */
  datatype ColorReply = Rejected | Accepted(color: Color)

  /** The input check of `HumanPlayer::chooseColor` as written: it accepts every number from 0 to 5. */
  predicate AcceptsColorAsWritten(c: int)
  {
    !(c < 0 || c > 5)
  }

  /**
   * The prompt offers 0 to 3, but the check as written also accepts 4, which casts to the
   * uncoloured `None`, and 5, which is no colour at all.
   */
  lemma ColorCheckAcceptsNonColours()
    ensures AcceptsColorAsWritten(4) && ColorOf(4) == None
    ensures AcceptsColorAsWritten(5) && forall k: Color :: ColorIndex(k) != 5
  {
  }

  /** `HumanPlayer::chooseColor` with the check the prompt describes: exactly 0 to 3 name a colour, and it is concrete. */
  function ReadColor(c: int): (r: ColorReply)
    ensures r.Accepted? <==> 0 <= c < 4
    ensures r.Accepted? ==> r.color != None && ColorIndex(r.color) == c
  {
    if 0 <= c < 4 then Accepted(ColorOf(c)) else Rejected
  }

  /** A player: a name, whether the program decides for it, and a hand. */
  class Player {
    const name: string
    const automated: bool
    var hand: seq<Card>

    constructor (name: string, automated: bool)
      ensures this.name == name && this.automated == automated && hand == []
    {
      this.name := name;
      this.automated := automated;
      hand := [];
    }

    /**
     * `Player::drawCard`: draw `count` cards one at a time and append each to the hand.
     * The deck must hold them all, as `Deck::draw` on an empty deck is undefined.
     */
    method DrawCard(deck: Deck, count: nat)
      requires count <= |deck.cards|
      modifies this, deck
      ensures deck.cards == Rest(old(deck.cards), count)
      ensures hand == old(hand) + Dealt(old(deck.cards), count)
    {
      for i := 0 to count
        invariant deck.cards == Rest(old(deck.cards), i)
        invariant hand == old(hand) + Dealt(old(deck.cards), i)
      {
        DealtNext(old(deck.cards), i);
        var c := deck.Draw();
        hand := hand + [c];
      }
    }

    /** `AIPlayer::playTurn`: the index of the first playable card, or -1 to draw. */
    method PlayTurn(top: Card) returns (choice: int)
      requires automated
      ensures choice == FirstPlayable(hand, top)
    {
      for i := 0 to |hand|
        invariant forall j :: 0 <= j < i ==> !CanPlayOn(hand[j], top)
      {
        if CanPlayOn(hand[i], top) {
          return i;
        }
      }
      return -1;
    }

    /** `AIPlayer::chooseColor`: count the concrete colours in hand, then take the first largest count. */
    method ChooseColor() returns (color: Color)
      requires automated
      ensures color == MostCommonColor(hand)
    {
      var counts := new nat[4](_ => 0);
      for i := 0 to |hand|
        invariant forall k :: 0 <= k < 4 ==> counts[k] == CountColor(hand[..i], ColorOf(k))
      {
        assert hand[..i + 1][..i] == hand[..i];
        var card := hand[i];
        if card.color != None && ColorIndex(card.color) < 4 {
          ColorCastRoundTrip(card.color);
          counts[ColorIndex(card.color)] := counts[ColorIndex(card.color)] + 1;
        }
      }
      assert hand[..|hand|] == hand;
      var maxIndex := 0;
      for i := 1 to 4
        invariant 0 <= maxIndex < i
        invariant forall k :: 0 <= k < i ==> counts[k] <= counts[maxIndex]
        invariant forall k :: 0 <= k < maxIndex ==> counts[k] < counts[maxIndex]
      {
        if counts[i] > counts[maxIndex] {
          maxIndex := i;
        }
      }
      color := ColorOf(maxIndex);
      forall k: Color | k != None
        ensures CountColor(hand, k) <= CountColor(hand, color)
        ensures ColorIndex(k) < ColorIndex(color) ==> CountColor(hand, k) < CountColor(hand, color)
      {
        ColorCastRoundTrip(k);
      }
      PreferredColorUnique(hand, color, MostCommonColor(hand));
    }
  }
}
