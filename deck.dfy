/** The deck: the fixed 90-card composition and a stack of cards drawn from its back. */
module Decks {
  import opened Cards

  /** `s` in reverse order. */
  function Reversed(s: seq<Card>): (r: seq<Card>)
    ensures |r| == |s|
  {
    if s == [] then [] else Reversed(s[1..]) + [s[0]]
  }

  lemma {:induction false} ReversedMultiset(s: seq<Card>)
    ensures multiset(Reversed(s)) == multiset(s)
  {
    if s != [] {
      ReversedMultiset(s[1..]);
      assert s == [s[0]] + s[1..];
    }
  }

  /** What is left of `deck` after `k` draws from its back. */
  function Rest(deck: seq<Card>, k: nat): seq<Card>
    requires k <= |deck|
  {
    deck[..|deck| - k]
  }

  /** The cards `k` draws return, in the order they are popped: the last card first. */
  function Dealt(deck: seq<Card>, k: nat): (r: seq<Card>)
    requires k <= |deck|
    ensures |r| == k
  {
    Reversed(deck[|deck| - k..])
  }

  /** One more draw appends the card just below the ones already dealt. */
  lemma DealtNext(deck: seq<Card>, k: nat)
    requires k < |deck|
    ensures Dealt(deck, k + 1) == Dealt(deck, k) + [deck[|deck| - k - 1]]
  {
    assert deck[|deck| - k - 1..][1..] == deck[|deck| - k..];
  }

  /** Drawing neither creates nor loses cards: what is left plus what was dealt is the old deck. */
  lemma DealtConserves(deck: seq<Card>, k: nat)
    requires k <= |deck|
    ensures multiset(Rest(deck, k)) + multiset(Dealt(deck, k)) == multiset(deck)
  {
    ReversedMultiset(deck[|deck| - k..]);
    assert deck == deck[..|deck| - k] + deck[|deck| - k..];
  }

  /** `k` copies of `card`. */
  function Repeat(card: Card, k: nat): (r: seq<Card>)
    ensures |r| == k
  {
    if k == 0 then [] else Repeat(card, k - 1) + [card]
  }

  lemma {:induction false} RepeatCount(card: Card, k: nat, x: Card)
    ensures multiset(Repeat(card, k))[x] == if x == card then k else 0
  {
    if k > 0 {
      RepeatCount(card, k - 1, x);
    }
  }

  /** The numeric values in enumeration order: the values the inner loop of `Deck::initialize` visits. */
  function Numerics(): seq<Value>
  {
    [One, Two, Three, Four, Five, Six, Seven, Eight, Nine]
  }

  /** The concrete colours in enumeration order: the colours the outer loop of `Deck::initialize` visits. */
  function ConcreteColors(): seq<Color>
  {
    [Red, Pink, Purple, Yellow]
  }

  /** Two copies of each value of `vs` in colour `c`, as the inner loop pushes them. */
  function NumberPairs(c: Color, vs: seq<Value>): (r: seq<Card>)
    ensures |r| == 2 * |vs|
  {
    if vs == [] then []
    else
      var v := vs[|vs| - 1];
      NumberPairs(c, vs[..|vs| - 1]) + [Card(c, v), Card(c, v)]
  }

  /** The three special cards of colour `c`, pushed after its numbers. */
  function Specials(c: Color): seq<Card>
  {
    [Card(c, Reverse), Card(c, DrawTwo), Card(c, Block)]
  }

  /** The 21 cards one colour contributes. */
  function ColorSet(c: Color): (r: seq<Card>)
    ensures |r| == 21
  {
    NumberPairs(c, Numerics()) + Specials(c)
  }

  /** The colour sets of the colours `cs`, one after another. */
  function ColoredCards(cs: seq<Color>): (r: seq<Card>)
    ensures |r| == 21 * |cs|
  {
    if cs == [] then [] else ColoredCards(cs[..|cs| - 1]) + ColorSet(cs[|cs| - 1])
  }

  /** The deck as `Deck::initialize` leaves it, before shuffling. */
  function FullDeck(): seq<Card>
  {
    ColoredCards(ConcreteColors()) + Repeat(Card(None, DrawFour), 4) + Repeat(Card(None, ColorChange), 2)
  }

  /**
   * The intended number of copies of each card: two of every numeric value and one
   * each of Reverse, DrawTwo and Block in every concrete colour; four DrawFour and
   * two ColorChange without colour; nothing else.
   */
  function Copies(card: Card): nat
  {
    if card.color == None then
      if card.value == DrawFour then 4 else if card.value == ColorChange then 2 else 0
    else if IsNumeric(card.value) then 2
    else if card.value == Reverse || card.value == DrawTwo || card.value == Block then 1
    else 0
  }

  lemma {:induction false} NumberPairsCount(c: Color, vs: seq<Value>, x: Card)
    ensures multiset(NumberPairs(c, vs))[x] == if x.color == c then 2 * multiset(vs)[x.value] else 0
  {
    if vs != [] {
      var init, v := vs[..|vs| - 1], vs[|vs| - 1];
      assert vs == init + [v];
      assert multiset(NumberPairs(c, vs)) == multiset(NumberPairs(c, init)) + multiset{Card(c, v), Card(c, v)};
      NumberPairsCount(c, init, x);
    }
  }

  lemma NumericsCount(v: Value)
    ensures multiset(Numerics())[v] == if IsNumeric(v) then 1 else 0
  {
    DistinctCount(Numerics(), v);
    match v
    case One => case Two => case Three => case Four => case Five =>
    case Six => case Seven => case Eight => case Nine =>
    case Reverse => case DrawTwo => case Block => case DrawFour => case ColorChange =>
  }

  /** In a sequence without repetitions every element occurs once. */
  lemma {:induction false} DistinctCount<T>(s: seq<T>, x: T)
    requires forall i, j :: 0 <= i < j < |s| ==> s[i] != s[j]
    ensures multiset(s)[x] == if x in s then 1 else 0
  {
    if s != [] {
      var init, last := s[..|s| - 1], s[|s| - 1];
      assert s == init + [last];
      assert last !in init;
      DistinctCount(init, x);
    }
  }

  lemma SpecialsCount(c: Color, x: Card)
    ensures multiset(Specials(c))[x] == if x.color == c && (x.value == Reverse || x.value == DrawTwo || x.value == Block) then 1 else 0
  {
    assert multiset(Specials(c)) == multiset{Card(c, Reverse)} + multiset{Card(c, DrawTwo)} + multiset{Card(c, Block)};
  }

  lemma ColorSetCount(c: Color, x: Card)
    requires c != None
    ensures multiset(ColorSet(c))[x] == if x.color == c then Copies(x) else 0
  {
    NumberPairsCount(c, Numerics(), x);
    NumericsCount(x.value);
    SpecialsCount(c, x);
    assert multiset(ColorSet(c)) == multiset(NumberPairs(c, Numerics())) + multiset(Specials(c));
  }

  /** The colour sets of distinct concrete colours `cs` hold `Copies(x)` of each card whose colour is in `cs`, and nothing else. */
  lemma {:induction false} ColoredCardsCount(cs: seq<Color>, x: Card)
    requires None !in cs
    requires forall i, j :: 0 <= i < j < |cs| ==> cs[i] != cs[j]
    ensures multiset(ColoredCards(cs))[x] == if x.color in cs then Copies(x) else 0
  {
    if cs != [] {
      var init, c := cs[..|cs| - 1], cs[|cs| - 1];
      assert cs == init + [c];
      ColoredCardsSnoc(init, c, x);
      ColoredCardsCount(init, x);
      ColorSetCount(c, x);
    }
  }

  lemma ColoredCardsSnoc(init: seq<Color>, c: Color, x: Card)
    ensures multiset(ColoredCards(init + [c]))[x] == multiset(ColoredCards(init))[x] + multiset(ColorSet(c))[x]
  {
    assert (init + [c])[..|init|] == init;
  }

  /** The composition of a freshly initialised deck: exactly `Copies(x)` cards equal to `x`, for every `x`. */
  lemma FullDeckComposition(x: Card)
    ensures multiset(FullDeck())[x] == Copies(x)
  {
    ColoredCardsCount(ConcreteColors(), x);
    assert x.color in ConcreteColors() <==> x.color != None;
    RepeatCount(Card(None, DrawFour), 4, x);
    RepeatCount(Card(None, ColorChange), 2, x);
  }

  /** A freshly initialised deck holds 90 cards. */
  lemma FullDeckSize()
    ensures |FullDeck()| == 90
  {
  }

  /** The composition holds uncoloured cards exactly where it holds wild ones. */
  lemma CopiesWildsUncoloured(x: Card)
    requires Copies(x) > 0
    ensures x.color == None <==> IsWild(x.value)
  {
  }

  /** A collection of cards holding exactly `Copies(x)` cards equal to `x`, for every `x`: the full composition. */
  ghost predicate Complete(m: multiset<Card>)
  {
    forall x: Card :: m[x] == Copies(x)
  }

  /** The initialised deck is complete. */
  lemma FullDeckComplete()
    ensures Complete(multiset(FullDeck()))
  {
    forall x: Card ensures multiset(FullDeck())[x] == Copies(x) {
      FullDeckComposition(x);
    }
  }

  /** In any ordering of a complete deck a card is uncoloured exactly when it is wild. */
  lemma WildsUncoloured(deck: seq<Card>, x: Card)
    requires Complete(multiset(deck))
    requires x in deck
    ensures x.color == None <==> IsWild(x.value)
  {
    assert multiset(deck)[x] > 0;
    CopiesWildsUncoloured(x);
  }

  /** The deck, a vector used as a stack: cards are drawn from its back. */
  class Deck {
    var cards: seq<Card>

    /** `Deck()`: initialise, then shuffle with the random numbers `rolls`. */
    constructor (rolls: seq<nat>)
      requires |rolls| == 90
      ensures |cards| == 90
      ensures Complete(multiset(cards))
    {
      cards := [];
      new;
      Initialize();
      FullDeckSize();
      FullDeckComplete();
      Shuffle(rolls);
    }

    /** `Deck::initialize`: discard the contents and push the full composition, colour by colour. */
    method Initialize()
      modifies this
      ensures cards == FullDeck()
    {
      cards := [];
      for c := 0 to 4
        invariant cards == ColoredCards(ConcreteColors()[..c])
      {
        assert ConcreteColors()[..c + 1] == ConcreteColors()[..c] + [ColorOf(c)];
        PushColorSet(c);
      }
      assert ConcreteColors()[..4] == ConcreteColors();
      ghost var colored := cards;
      for i := 0 to 4
        invariant cards == colored + Repeat(Card(None, DrawFour), i)
      {
        cards := cards + [Card(None, DrawFour)];
      }
      ghost var drawFours := cards;
      for i := 0 to 2
        invariant cards == drawFours + Repeat(Card(None, ColorChange), i)
      {
        cards := cards + [Card(None, ColorChange)];
      }
    }

    /** The body of the colour loop of `Deck::initialize`: the numbers of colour `c` twice each, then its specials. */
    method PushColorSet(c: nat)
      requires c < 4
      modifies this
      ensures cards == old(cards) + ColorSet(ColorOf(c))
    {
      var color := ColorOf(c);
      for v := 0 to 9
        invariant cards == old(cards) + NumberPairs(color, Numerics()[..v])
      {
        assert Numerics()[..v + 1] == Numerics()[..v] + [ValueOf(v)];
        cards := cards + [Card(color, ValueOf(v))];
        cards := cards + [Card(color, ValueOf(v))];
      }
      ghost var numbers := cards;
      cards := cards + [Card(color, Reverse)];
      cards := cards + [Card(color, DrawTwo)];
      cards := cards + [Card(color, Block)];
      assert cards == numbers + Specials(color);
      assert Numerics()[..9] == Numerics();
    }

    /**
     * `Deck::shuffle`: a Fisher-Yates pass whose random numbers are supplied as `rolls`;
     * position `i` is swapped with position `rolls[i] % (i + 1)`.
     */
    method Shuffle(rolls: seq<nat>)
      requires |rolls| == |cards|
      modifies this
      ensures multiset(cards) == old(multiset(cards))
      ensures |cards| == old(|cards|)
    {
      var i := |cards|;
      while i > 1
        invariant 0 <= i <= |cards| == |rolls|
        invariant multiset(cards) == old(multiset(cards))
      {
        i := i - 1;
        var j := rolls[i] % (i + 1);
        cards := cards[i := cards[j]][j := cards[i]];
      }
    }

    /** `Deck::draw`: remove and return the last card. Drawing from an empty vector is undefined, so it is excluded. */
    method Draw() returns (c: Card)
      requires cards != []
      modifies this
      ensures c == old(cards)[|old(cards)| - 1]
      ensures cards == old(cards)[..|old(cards)| - 1]
    {
      c := cards[|cards| - 1];
      cards := cards[..|cards| - 1];
    }

    /** `Deck::empty`. */
    method Empty() returns (b: bool)
      ensures b <==> cards == []
    {
      b := |cards| == 0;
    }
  }
}
