/** Cards: the two enumerations of the game and the rule deciding which card may be played. */
module Cards {

  /** Colours in declaration order; `None` is the colour of a wild card that has not been coloured. */
  datatype Color = Red | Pink | Purple | Yellow | None

  /** Values in declaration order; One..Nine are the numeric values, the rest are special. */
  datatype Value =
    | One | Two | Three | Four | Five | Six | Seven | Eight | Nine
    | Reverse | DrawTwo | Block | DrawFour | ColorChange

  /** A card is a plain (colour, value) pair; equal pairs are interchangeable. */
  datatype Card = Card(color: Color, value: Value)

  /** The integer behind a colour, as `(int)color` gives it. */
  function ColorIndex(c: Color): nat
  {
    match c
    case Red => 0
    case Pink => 1
    case Purple => 2
    case Yellow => 3
    case None => 4
  }

  /** `static_cast<Color>(k)`: the colour with index `k`. */
  function ColorOf(k: nat): (c: Color)
    requires k < 5
    ensures ColorIndex(c) == k
  {
    if k == 0 then Red else if k == 1 then Pink else if k == 2 then Purple
    else if k == 3 then Yellow else None
  }

  /** The casts in both directions are inverse to each other. */
  lemma ColorCastRoundTrip(c: Color)
    ensures ColorIndex(c) < 5 && ColorOf(ColorIndex(c)) == c
  {
  }

  /** The integer behind a value, as `(int)value` gives it. */
  function ValueIndex(v: Value): nat
  {
    match v
    case One => 0
    case Two => 1
    case Three => 2
    case Four => 3
    case Five => 4
    case Six => 5
    case Seven => 6
    case Eight => 7
    case Nine => 8
    case Reverse => 9
    case DrawTwo => 10
    case Block => 11
    case DrawFour => 12
    case ColorChange => 13
  }

  /** `static_cast<Value>(k)`: the value with index `k`. */
  function ValueOf(k: nat): (v: Value)
    requires k < 14
    ensures ValueIndex(v) == k
  {
    if k == 0 then One else if k == 1 then Two else if k == 2 then Three
    else if k == 3 then Four else if k == 4 then Five else if k == 5 then Six
    else if k == 6 then Seven else if k == 7 then Eight else if k == 8 then Nine
    else if k == 9 then Reverse else if k == 10 then DrawTwo else if k == 11 then Block
    else if k == 12 then DrawFour else ColorChange
  }

  lemma ValueCastRoundTrip(v: Value)
    ensures ValueIndex(v) < 14 && ValueOf(ValueIndex(v)) == v
  {
  }

  predicate IsNumeric(v: Value)
  {
    ValueIndex(v) <= 8
  }

  /** The wild values: a card carrying one of them is coloured by whoever plays it. */
  predicate IsWild(v: Value)
  {
    v == DrawFour || v == ColorChange
  }

  /**
   * `Card::canPlayOn`: `card` may be played on `top`. A wild card is playable on
   * anything; any other card needs the colour or the value of `top`.
   */
  function CanPlayOn(card: Card, top: Card): (ok: bool)
    ensures IsWild(card.value) ==> ok
    ensures !IsWild(card.value) ==> (ok <==> card.color == top.color || card.value == top.value)
  {
    card.color == top.color || card.value == top.value || card.value == DrawFour || card.value == ColorChange
  }

  /** Every card is playable on an equal card (so a card is never stuck on its own twin). */
  lemma PlayableOnTwin(card: Card)
    ensures CanPlayOn(card, card)
  {
  }

  /**
   * Playability is not symmetric: a wild card is playable on a numbered card, but
   * a numbered card of another colour and value is not playable on the wild card.
   */
  lemma PlayabilityIsNotSymmetric()
    ensures CanPlayOn(Card(None, DrawFour), Card(Red, One))
    ensures !CanPlayOn(Card(Red, One), Card(None, DrawFour))
  {
  }
}
