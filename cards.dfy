/**
 * The card model of src/lib.rs: suits, face characters, card types (a number
 * card or a face card), cards, the order `CardType::cmp` and the successor
 * functions `get_next_card_type` and `get_next_face_character`.
 */
module Cards {
  import opened Wrappers

  /** The values of Rust's `u8`, the width of a number card's field. */
  type U8 = n: int | 0 <= n < 256

  datatype Suit = Hearts | Diamonds | Spades | Clubs

  /** Declared in this order; the derived `Ord` follows the declaration order. */
  datatype FaceCharacter = Jack | Queen | King | Ace

  /** Equality on card types is structural (see README, "Findings"). */
  datatype CardType = Face(faceCharacter: FaceCharacter) | Number(number: U8)

  datatype Card = Card(suit: Suit, cardType: CardType)

  datatype Ordering = Less | Equal | Greater

  function Reverse(o: Ordering): Ordering
  {
    match o
    case Less => Greater
    case Equal => Equal
    case Greater => Less
  }

  /** Compares two integers the way Rust's `Ord::cmp` does. */
  function CompareInt(x: int, y: int): (r: Ordering)
    ensures r == Less <==> x < y
    ensures r == Equal <==> x == y
    ensures r == Greater <==> x > y
  {
    if x < y then Less else if x == y then Equal else Greater
  }

  /** The discriminant of a face character, which the derived order compares. */
  function FaceIndex(f: FaceCharacter): (i: nat)
    ensures i < 4
  {
    match f
    case Jack => 0
    case Queen => 1
    case King => 2
    case Ace => 3
  }

  /** The derived `Ord` of `FaceCharacter`. */
  function FaceCmp(a: FaceCharacter, b: FaceCharacter): (r: Ordering)
    ensures r == Equal <==> a == b
  {
    CompareInt(FaceIndex(a), FaceIndex(b))
  }

  /** `CardType::cmp`: every face is above every number; faces compare by
      their declaration order and numbers by value. */
  function Cmp(a: CardType, b: CardType): (r: Ordering)
    ensures r == Equal <==> a == b
  {
    match a
    case Face(fa) =>
      (match b
       case Face(fb) => FaceCmp(fa, fb)
       case Number(_) => Greater)
    case Number(na) =>
      (match b
       case Face(_) => Less
       case Number(nb) => CompareInt(na, nb))
  }

  /** `a <= b` under `CardType::cmp`. */
  predicate Le(a: CardType, b: CardType)
  {
    Cmp(a, b) != Greater
  }

  /** `get_next_face_character`: the next face up, none for an Ace. */
  function NextFaceCharacter(f: FaceCharacter): (r: Option<FaceCharacter>)
    ensures r.None? <==> f == Ace
    ensures r.Some? ==> FaceIndex(r.value) == FaceIndex(f) + 1
  {
    match f
    case Ace => None
    case King => Some(Ace)
    case Queen => Some(King)
    case Jack => Some(Queen)
  }

  /** `get_next_card_type`: the successor of a card type. Number 10 is
      followed by the Jack; `number + 1` on a `u8` is taken to wrap, as in a
      release build (a debug build panics on the overflow instead). */
  function NextCardType(t: CardType): (r: Option<CardType>)
    ensures r.None? <==> t == Face(Ace)
    ensures r.Some? ==> r.value != t
    ensures r.Some? && t != Number(255) ==> Cmp(t, r.value) == Less
  {
    match t
    case Face(f) =>
      (match NextFaceCharacter(f)
       case Some(g) => Some(Face(g))
       case None => None)
    case Number(n) =>
      if n == 10 then Some(Face(Jack)) else Some(Number((n + 1) % 256))
  }

  /** The card types the deck of `Game::new` holds: numbers 2 to 10 and the four faces. */
  predicate InDeck(t: CardType)
  {
    t.Face? || 2 <= t.number <= 10
  }

  /** The position of a deck card type on one linear scale from 2 to 14
      (Jack 11, Queen 12, King 13, Ace 14). */
  function RankValue(t: CardType): (v: int)
    requires InDeck(t)
    ensures 2 <= v <= 14
    ensures t.Face? <==> v >= 11
  {
    match t
    case Face(f) => 11 + FaceIndex(f)
    case Number(n) => n
  }

  // ----- Properties of the order -----

  /** Swapping the arguments of `Cmp` reverses the answer. */
  lemma CmpAntisymmetric(a: CardType, b: CardType)
    ensures Cmp(b, a) == Reverse(Cmp(a, b))
  {
  }

  /** `Cmp` is transitive, strictly as well as non-strictly. */
  lemma CmpTransitive(a: CardType, b: CardType, c: CardType)
    requires Le(a, b) && Le(b, c)
    ensures Le(a, c)
    ensures Cmp(a, b) == Less || Cmp(b, c) == Less ==> Cmp(a, c) == Less
  {
  }

  /** `Le` is a total order on card types. */
  lemma LeIsTotalOrder()
    ensures forall a :: Le(a, a)
    ensures forall a, b :: Le(a, b) && Le(b, a) ==> a == b
    ensures forall a, b, c :: Le(a, b) && Le(b, c) ==> Le(a, c)
    ensures forall a, b :: Le(a, b) || Le(b, a)
  {
    forall a, b, c | Le(a, b) && Le(b, c) ensures Le(a, c) {
      CmpTransitive(a, b, c);
    }
  }

  /** Every face ranks above every number, numbers compare by value, and
      the faces run Jack < Queen < King < Ace. */
  lemma RankOrderFacts(f: FaceCharacter, m: U8, n: U8)
    ensures Cmp(Face(f), Number(n)) == Greater && Cmp(Number(n), Face(f)) == Less
    ensures Cmp(Number(m), Number(n)) == CompareInt(m, n)
    ensures Cmp(Face(Jack), Face(Queen)) == Less
    ensures Cmp(Face(Queen), Face(King)) == Less
    ensures Cmp(Face(King), Face(Ace)) == Less
  {
  }

  /** On the deck's card types, `CardType::cmp` is the comparison of the
      linear 2..14 scale. */
  lemma {:induction false} CmpIsRankValueOrder(a: CardType, b: CardType)
    requires InDeck(a) && InDeck(b)
    ensures Cmp(a, b) == CompareInt(RankValue(a), RankValue(b))
  {
    match a
    case Face(fa) =>
    case Number(na) =>
  }

  // ----- Properties of the successor -----

  /** Within the deck the successor is one step up the 2..14 scale, and a
      deck card type is followed exactly by the type one step up. */
  lemma {:induction false} NextIsOneStepUp(t: CardType, u: CardType)
    requires InDeck(t) && InDeck(u)
    ensures NextCardType(t).Some? ==>
              InDeck(NextCardType(t).value) && RankValue(NextCardType(t).value) == RankValue(t) + 1
    ensures NextCardType(t) == Some(u) <==> RankValue(u) == RankValue(t) + 1
  {
    match t {
      case Face(f) =>
        match u {
          case Face(_) =>
          case Number(_) =>
        }
      case Number(n) =>
        match u {
          case Face(g) =>
          case Number(_) =>
        }
    }
  }

  /** The successor of a deck card type is the least card type of the deck
      above it. */
  lemma NextIsLeastAbove(t: CardType, x: CardType)
    requires InDeck(t) && InDeck(x) && Cmp(t, x) == Less
    ensures NextCardType(t).Some?
    ensures Le(NextCardType(t).value, x)
  {
    NextIsOneStepUp(t, x);
    CmpIsRankValueOrder(t, x);
    CmpIsRankValueOrder(NextCardType(t).value, x);
  }

  /** The Ace is the successor of the King and of nothing else; the Jack is
      the successor of Number 10 and of nothing else. */
  lemma PredecessorOfAceAndJack(t: CardType)
    ensures NextCardType(t) == Some(Face(Ace)) <==> t == Face(King)
    ensures NextCardType(t) == Some(Face(Jack)) <==> t == Number(10)
  {
  }
}
