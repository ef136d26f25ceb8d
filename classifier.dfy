/**
 * The hand classifier of src/lib.rs: `is_royal_straight`, `is_straight`,
 * `is_flush` and `rank_hand`. Each loop of the source is a method proved
 * against a specification function; the properties of the classification
 * are lemmas about those functions.
 */
module Classifier {
  import opened Wrappers
  import opened Cards

  /** The ten hand ranks. The source gives them explicit discriminants
      (`Discriminant`) and derives only equality, so no order is modelled. */
  datatype HandRank =
    | RoyalFlush | StraightFlush | FourOfAKind | FullHouse | Flush
    | Straight | ThreeOfAKind | TwoPair | Pair | HighCard

  function Discriminant(r: HandRank): (n: int)
    ensures 1 <= n <= 10
    ensures r == RoyalFlush <==> n == 10
    ensures r == HighCard <==> n == 1
  {
    match r
    case RoyalFlush => 10
    case StraightFlush => 9
    case FourOfAKind => 8
    case FullHouse => 7
    case Flush => 6
    case Straight => 5
    case ThreeOfAKind => 4
    case TwoPair => 3
    case Pair => 2
    case HighCard => 1
  }

  /** Different hand ranks have different discriminants. */
  lemma DiscriminantsDistinct(a: HandRank, b: HandRank)
    ensures Discriminant(a) == Discriminant(b) <==> a == b
  {
  }

  /** Ascending under `CardType::cmp`, the order `rank_hand` expects its hand in. */
  predicate Sorted(hand: seq<Card>)
  {
    forall i, j {:trigger Le(hand[i].cardType, hand[j].cardType)} ::
      0 <= i < j < |hand| ==> Le(hand[i].cardType, hand[j].cardType)
  }

  /** A hand is sorted as soon as each card is at most its right neighbour. */
  lemma {:induction false} SortedByNeighbours(hand: seq<Card>)
    requires forall i :: 0 <= i < |hand| - 1 ==> Le(hand[i].cardType, hand[i + 1].cardType)
    ensures Sorted(hand)
  {
    if |hand| > 1 {
      var rest := hand[1..];
      assert forall i :: 0 <= i < |rest| ==> rest[i] == hand[i + 1];
      SortedByNeighbours(rest);
      forall i, j | 0 <= i < j < |hand|
        ensures Le(hand[i].cardType, hand[j].cardType)
      {
        if 0 < i {
          assert hand[i] == rest[i - 1] && hand[j] == rest[j - 1];
        } else if 1 < j {
          assert hand[1] == rest[0] && hand[j] == rest[j - 1];
          CmpTransitive(hand[0].cardType, hand[1].cardType, hand[j].cardType);
        }
      }
    }
  }

  /** How many of the first `n` cards of `s` have card type `t`: the value the
      counting loop of `rank_hand` holds for `t` after `n` cards. */
  function CountBelow(s: seq<Card>, t: CardType, n: nat): (c: nat)
    requires n <= |s|
    ensures c <= n
  {
    if n == 0 then 0
    else CountBelow(s, t, n - 1) + if s[n - 1].cardType == t then 1 else 0
  }

  /** How many cards of `s` have card type `t`. */
  function Count(s: seq<Card>, t: CardType): (c: nat)
    ensures c <= |s|
  {
    CountBelow(s, t, |s|)
  }

  /** A card type is counted exactly when some card among the first `n` has it. */
  lemma {:induction false} CountBelowPositive(s: seq<Card>, t: CardType, n: nat)
    requires n <= |s|
    ensures CountBelow(s, t, n) > 0 <==> exists i :: 0 <= i < n && s[i].cardType == t
  {
    if n > 0 {
      CountBelowPositive(s, t, n - 1);
    }
  }

  /** The card types of the first `n` cards of `s`, with repeats. */
  function TypesBelow(s: seq<Card>, n: nat): multiset<CardType>
    requires n <= |s|
  {
    if n == 0 then multiset{} else TypesBelow(s, n - 1) + multiset{s[n - 1].cardType}
  }

  /** The counts of the counting loop are the multiplicities of the card types
      of the cards counted, so together they add up to the number of cards. */
  lemma {:induction false} CountsSumToLength(s: seq<Card>, t: CardType, n: nat)
    requires n <= |s|
    ensures CountBelow(s, t, n) == TypesBelow(s, n)[t]
    ensures |TypesBelow(s, n)| == n
  {
    if n > 0 {
      CountsSumToLength(s, t, n - 1);
    }
  }

  /** Some card type occurs exactly `k` times in the hand. */
  predicate HasGroupOf(hand: seq<Card>, k: nat)
  {
    exists i :: 0 <= i < |hand| && Count(hand, hand[i].cardType) == k
  }

  /** The card types that occur exactly twice. */
  function PairTypes(hand: seq<Card>): set<CardType>
  {
    set i | 0 <= i < |hand| && Count(hand, hand[i].cardType) == 2 :: hand[i].cardType
  }

  function PairCount(hand: seq<Card>): nat
  {
    |PairTypes(hand)|
  }

  /** The condition `is_straight` checks: each of the first four card types
      has a successor, and the next card has that type. */
  predicate SuccessorChain(hand: seq<Card>)
    requires |hand| == 5
  {
    forall i :: 0 <= i < 4 ==> NextCardType(hand[i].cardType) == Some(hand[i + 1].cardType)
  }

  /** The condition `is_flush` checks, as written: the cards at indices 1 to 3
      have the suit of the card at index 0 (the loop runs over `1..4`). */
  predicate LeadingSuitsMatch(hand: seq<Card>)
    requires |hand| == 5
  {
    forall i :: 1 <= i < 4 ==> hand[i].suit == hand[0].suit
  }

  /** The evidently intended flush condition: all five cards share a suit. */
  predicate AllSameSuit(hand: seq<Card>)
    requires |hand| == 5
  {
    forall i :: 0 <= i < 5 ==> hand[i].suit == hand[0].suit
  }

  const RoyalTypes: seq<CardType> := [Number(10), Face(Jack), Face(Queen), Face(King), Face(Ace)]

  /** `PartialEq for CardType` as written: it answers true for any two types. */
  function LiteralTypeEq(a: CardType, b: CardType): bool
  {
    true
  }

  /** `is_royal_straight` as written, with the equality above: five
      positional tests, each returning false on a mismatch. */
  function LiteralRoyalStraight(hand: seq<Card>): bool
    requires |hand| == 5
  {
    if !LiteralTypeEq(hand[0].cardType, Number(10)) then false
    else if !LiteralTypeEq(hand[1].cardType, Face(Jack)) then false
    else if !LiteralTypeEq(hand[2].cardType, Face(Queen)) then false
    else if !LiteralTypeEq(hand[3].cardType, Face(King)) then false
    else if !LiteralTypeEq(hand[4].cardType, Face(Ace)) then false
    else true
  }

  /** `is_royal_straight` with structural equality on card types. */
  function IsRoyalStraight(hand: seq<Card>): (b: bool)
    requires |hand| == 5
    ensures b <==> forall i :: 0 <= i < 5 ==> hand[i].cardType == RoyalTypes[i]
  {
    if hand[0].cardType != Number(10) then false
    else if hand[1].cardType != Face(Jack) then false
    else if hand[2].cardType != Face(Queen) then false
    else if hand[3].cardType != Face(King) then false
    else if hand[4].cardType != Face(Ace) then false
    else true
  }

  /** The decision `rank_hand` takes, given the outcome of its flush test. */
  function Classify(hand: seq<Card>, flush: bool): HandRank
    requires |hand| == 5
  {
    var straight := SuccessorChain(hand);
    if IsRoyalStraight(hand) && flush then RoyalFlush
    else if straight && flush then StraightFlush
    else if HasGroupOf(hand, 4) then FourOfAKind
    else if HasGroupOf(hand, 3) && PairCount(hand) > 0 then FullHouse
    else if flush then Flush
    else if straight then Straight
    else if HasGroupOf(hand, 3) then ThreeOfAKind
    else if PairCount(hand) == 2 then TwoPair
    else if PairCount(hand) == 1 then Pair
    else HighCard
  }

  /** The hand rank `rank_hand` returns for a sorted five-card hand. */
  function HandRankOf(hand: seq<Card>): HandRank
    requires |hand| == 5 && Sorted(hand)
  {
    Classify(hand, LeadingSuitsMatch(hand))
  }

  /** The hand rank with the flush test over all five cards. */
  function IntendedHandRank(hand: seq<Card>): HandRank
    requires |hand| == 5 && Sorted(hand)
  {
    Classify(hand, AllSameSuit(hand))
  }

  // ----- The loops of the source -----

  /** `is_straight`: walks the first four cards and returns false at the first
      card with no successor or whose successor is not the next card. */
  method IsStraight(hand: seq<Card>) returns (b: bool)
    requires |hand| == 5
    ensures b == SuccessorChain(hand)
  {
    var i := 0;
    while i < 4
      invariant 0 <= i <= 4
      invariant forall k :: 0 <= k < i ==> NextCardType(hand[k].cardType) == Some(hand[k + 1].cardType)
    {
      var expected := NextCardType(hand[i].cardType);
      if expected.None? {
        assert NextCardType(hand[i].cardType) != Some(hand[i + 1].cardType);
        return false;
      }
      if hand[i + 1].cardType != expected.value {
        assert NextCardType(hand[i].cardType) != Some(hand[i + 1].cardType);
        return false;
      }
      i := i + 1;
    }
    return true;
  }

  /** `is_flush`: compares the suits at indices 1 to 3 with the first suit. */
  method IsFlush(hand: seq<Card>) returns (b: bool)
    requires |hand| == 5
    ensures b == LeadingSuitsMatch(hand)
  {
    var firstSuit := hand[0].suit;
    for i := 1 to 4
      invariant forall k :: 1 <= k < i ==> hand[k].suit == firstSuit
    {
      if firstSuit != hand[i].suit {
        return false;
      }
    }
    return true;
  }

  /** The counting loop of `rank_hand`: a map from each card type in the hand
      to the number of cards of that type. */
  method CountCardTypes(hand: seq<Card>) returns (counts: map<CardType, int>)
    ensures forall t :: t in counts <==> Count(hand, t) > 0
    ensures forall t :: t in counts ==> counts[t] == Count(hand, t)
  {
    counts := map[];
    var i := 0;
    while i < |hand|
      invariant 0 <= i <= |hand|
      invariant forall t :: t in counts <==> CountBelow(hand, t, i) > 0
      invariant forall t :: t in counts ==> counts[t] == CountBelow(hand, t, i)
    {
      var t := hand[i].cardType;
      var val := 1;
      if t in counts {
        val := counts[t];
        val := val + 1;
      }
      counts := counts[t := val];
      i := i + 1;
    }
  }

  /** The card types among `keys` that a count map gives exactly `k` occurrences. */
  function CountedAmong(counts: map<CardType, int>, keys: set<CardType>, k: int): set<CardType>
  {
    set t | t in keys && t in counts && counts[t] == k
  }

  /** The card types a count map gives exactly `k` occurrences. */
  function TypesCounted(counts: map<CardType, int>, k: int): set<CardType>
  {
    CountedAmong(counts, counts.Keys, k)
  }

  /** Taking one more key into account adds it to the group it belongs to. */
  lemma CountedAmongStep(counts: map<CardType, int>, keys: set<CardType>, t: CardType, k: int)
    requires t in counts && t !in keys
    ensures CountedAmong(counts, keys + {t}, k) == CountedAmong(counts, keys, k) + if counts[t] == k then {t} else {}
    ensures |CountedAmong(counts, keys + {t}, k)| == |CountedAmong(counts, keys, k)| + if counts[t] == k then 1 else 0
  {
    assert CountedAmong(counts, keys + {t}, k) == CountedAmong(counts, keys, k) + if counts[t] == k then {t} else {};
  }

  /** The pass of `rank_hand` over the counts: `four` says that it stopped at a
      count of 4 (where `rank_hand` returns FourOfAKind); otherwise `three`
      says whether some count is 3 and `numPairs` is the number of counts of 2. */
  method ScanCounts(counts: map<CardType, int>) returns (four: bool, three: bool, numPairs: nat)
    ensures four <==> TypesCounted(counts, 4) != {}
    ensures !four ==> (three <==> TypesCounted(counts, 3) != {})
    ensures !four ==> numPairs == |TypesCounted(counts, 2)|
  {
    four, three, numPairs := false, false, 0;
    var pending := counts.Keys;
    ghost var seen: set<CardType> := {};
    while pending != {}
      invariant pending + seen == counts.Keys && pending !! seen
      invariant CountedAmong(counts, seen, 4) == {}
      invariant three <==> CountedAmong(counts, seen, 3) != {}
      invariant numPairs == |CountedAmong(counts, seen, 2)|
      decreases pending
    {
      var t :| t in pending;
      var v := counts[t];
      if v == 4 {
        assert t in TypesCounted(counts, 4);
        four := true;
        return;
      }
      CountedAmongStep(counts, seen, t, 4);
      CountedAmongStep(counts, seen, t, 3);
      CountedAmongStep(counts, seen, t, 2);
      if v == 3 {
        three := true;
      }
      if v == 2 {
        numPairs := numPairs + 1;
      }
      pending := pending - {t};
      seen := seen + {t};
    }
    assert seen == counts.Keys;
  }

  /** A map holding the counts of the hand's card types describes its groups. */
  lemma CountMapGroups(hand: seq<Card>, counts: map<CardType, int>, k: nat)
    requires forall t :: t in counts <==> Count(hand, t) > 0
    requires forall t :: t in counts ==> counts[t] == Count(hand, t)
    requires k > 0
    ensures TypesCounted(counts, k) != {} <==> HasGroupOf(hand, k)
    ensures TypesCounted(counts, 2) == PairTypes(hand)
  {
    forall u | u in counts ensures exists j :: 0 <= j < |hand| && hand[j].cardType == u {
      CountBelowPositive(hand, u, |hand|);
    }
    if TypesCounted(counts, k) != {} {
      var u :| u in TypesCounted(counts, k);
      var j :| 0 <= j < |hand| && hand[j].cardType == u;
    }
    if HasGroupOf(hand, k) {
      var j :| 0 <= j < |hand| && Count(hand, hand[j].cardType) == k;
      assert hand[j].cardType in TypesCounted(counts, k);
    }
    forall u | u in TypesCounted(counts, 2) ensures u in PairTypes(hand) {
      var j :| 0 <= j < |hand| && hand[j].cardType == u;
    }
  }

  /** `rank_hand`: the royal and straight-flush tests, the count of card
      types, and the decisions on the counts, flush and straight. */
  method RankHand(hand: seq<Card>) returns (r: HandRank)
    requires |hand| == 5 && Sorted(hand)
    ensures r == HandRankOf(hand)
  {
    var royalStraight := IsRoyalStraight(hand);
    var isFlush := IsFlush(hand);
    if royalStraight && isFlush {
      return RoyalFlush;
    }
    var isStraight := IsStraight(hand);
    if isStraight && isFlush {
      return StraightFlush;
    }

    var counts := CountCardTypes(hand);
    var four, threeOfAKind, numPairs := ScanCounts(counts);
    CountMapGroups(hand, counts, 4);
    CountMapGroups(hand, counts, 3);
    if four {
      return FourOfAKind;
    }
    if threeOfAKind && numPairs > 0 {
      return FullHouse;
    }
    if isFlush {
      return Flush;
    }
    if isStraight {
      return Straight;
    }
    if threeOfAKind {
      return ThreeOfAKind;
    }
    if numPairs == 2 {
      return TwoPair;
    }
    if numPairs == 1 {
      return Pair;
    }
    return HighCard;
  }

  // ----- Counting -----

  /** In a hand whose card types are pairwise different, every type occurs once. */
  lemma {:induction false} CountOfDistinct(s: seq<Card>, i: nat, n: nat)
    requires forall a, b :: 0 <= a < b < |s| ==> s[a].cardType != s[b].cardType
    requires i < n <= |s|
    ensures CountBelow(s, s[i].cardType, n) == 1
  {
    if i < n - 1 {
      CountOfDistinct(s, i, n - 1);
    } else {
      CountBelowPositive(s, s[i].cardType, n - 1);
    }
  }

  /** Two different card types together occur at most `n` times among `n` cards. */
  lemma {:induction false} CountTwoBound(s: seq<Card>, a: CardType, b: CardType, n: nat)
    requires a != b && n <= |s|
    ensures CountBelow(s, a, n) + CountBelow(s, b, n) <= n
  {
    if n > 0 {
      CountTwoBound(s, a, b, n - 1);
    }
  }

  /** Three pairwise different card types together occur at most `n` times
      among `n` cards. */
  lemma {:induction false} CountThreeBound(s: seq<Card>, a: CardType, b: CardType, c: CardType, n: nat)
    requires a != b && b != c && a != c && n <= |s|
    ensures CountBelow(s, a, n) + CountBelow(s, b, n) + CountBelow(s, c, n) <= n
  {
    if n > 0 {
      CountThreeBound(s, a, b, c, n - 1);
    }
  }

  /** The counts depend on the card types only, not on the suits. */
  lemma {:induction false} CountIgnoresSuits(s: seq<Card>, s': seq<Card>, t: CardType, n: nat)
    requires n <= |s| == |s'|
    requires forall i :: 0 <= i < |s| ==> s[i].cardType == s'[i].cardType
    ensures CountBelow(s, t, n) == CountBelow(s', t, n)
  {
    if n > 0 {
      CountIgnoresSuits(s, s', t, n - 1);
    }
  }

  /** In five cards a group of four leaves no other group, a group of three
      leaves room for at most one pair, and there are at most two pairs. */
  lemma GroupBounds(hand: seq<Card>)
    requires |hand| == 5
    ensures HasGroupOf(hand, 4) ==> !HasGroupOf(hand, 3) && PairCount(hand) == 0
    ensures HasGroupOf(hand, 3) ==> PairCount(hand) <= 1
    ensures PairCount(hand) <= 2
  {
    var pairs := PairTypes(hand);
    if HasGroupOf(hand, 4) {
      var i :| 0 <= i < 5 && Count(hand, hand[i].cardType) == 4;
      if HasGroupOf(hand, 3) {
        var j :| 0 <= j < 5 && Count(hand, hand[j].cardType) == 3;
        CountTwoBound(hand, hand[i].cardType, hand[j].cardType, 5);
      }
      if pairs != {} {
        var p :| p in pairs;
        CountTwoBound(hand, hand[i].cardType, p, 5);
      }
    }
    if HasGroupOf(hand, 3) && |pairs| > 1 {
      var i :| 0 <= i < 5 && Count(hand, hand[i].cardType) == 3;
      var p :| p in pairs;
      assert |pairs - {p}| == |pairs| - 1;
      var q :| q in pairs - {p};
      CountThreeBound(hand, hand[i].cardType, p, q, 5);
    }
    if |pairs| > 2 {
      var p :| p in pairs;
      var rest := pairs - {p};
      assert |rest| == |pairs| - 1;
      var q :| q in rest;
      assert |rest - {q}| == |rest| - 1;
      var o :| o in rest - {q};
      CountThreeBound(hand, p, q, o, 5);
    }
  }

  // ----- Straights -----

  /** The royal straight is a successor chain. */
  lemma RoyalIsChain(hand: seq<Card>)
    requires |hand| == 5 && IsRoyalStraight(hand)
    ensures SuccessorChain(hand)
  {
  }

  /** A sorted successor chain rises strictly at every step. */
  lemma ChainIsStrictlyIncreasing(hand: seq<Card>)
    requires |hand| == 5 && Sorted(hand) && SuccessorChain(hand)
    ensures forall i, j :: 0 <= i < j < 5 ==> Cmp(hand[i].cardType, hand[j].cardType) == Less
  {
    forall i, j | 0 <= i < j < 5
      ensures Cmp(hand[i].cardType, hand[j].cardType) == Less
    {
      assert NextCardType(hand[i].cardType) == Some(hand[i + 1].cardType);
      assert Le(hand[i].cardType, hand[i + 1].cardType);
      assert Cmp(hand[i].cardType, hand[i + 1].cardType) == Less;
      if i + 1 < j {
        assert Le(hand[i + 1].cardType, hand[j].cardType);
        CmpTransitive(hand[i].cardType, hand[i + 1].cardType, hand[j].cardType);
      }
    }
  }

  /** No two cards of the hand share a card type. */
  predicate DistinctTypes(hand: seq<Card>)
  {
    forall a, b :: 0 <= a < b < |hand| ==> hand[a].cardType != hand[b].cardType
  }

  /** A hand of pairwise different card types has no group. */
  lemma DistinctHasNoGroups(hand: seq<Card>)
    requires DistinctTypes(hand)
    ensures forall i :: 0 <= i < |hand| ==> Count(hand, hand[i].cardType) == 1
    ensures forall k :: k > 1 ==> !HasGroupOf(hand, k)
    ensures PairCount(hand) == 0
  {
    forall i | 0 <= i < |hand| ensures Count(hand, hand[i].cardType) == 1 {
      CountOfDistinct(hand, i, |hand|);
    }
    assert PairTypes(hand) == {};
  }

  /** A sorted straight holds five different card types, so it has no group. */
  lemma ChainHasNoGroups(hand: seq<Card>)
    requires |hand| == 5 && Sorted(hand) && SuccessorChain(hand)
    ensures DistinctTypes(hand)
    ensures forall k :: k > 1 ==> !HasGroupOf(hand, k)
    ensures PairCount(hand) == 0
  {
    ChainIsStrictlyIncreasing(hand);
    DistinctHasNoGroups(hand);
  }

  /** Along a successor chain that reaches the deck, each step is one up the
      2..14 scale. */
  lemma {:induction false} ChainValues(hand: seq<Card>, k: nat, j: nat)
    requires |hand| == 5 && SuccessorChain(hand)
    requires k <= j < 5 && InDeck(hand[k].cardType)
    ensures InDeck(hand[j].cardType)
    ensures RankValue(hand[j].cardType) == RankValue(hand[k].cardType) + (j - k)
  {
    if j > k {
      ChainValues(hand, k, j - 1);
      NextIsOneStepUp(hand[j - 1].cardType, hand[j].cardType);
    }
  }

  /** An Ace anywhere in the first four positions is no straight: the Ace has
      no successor. */
  lemma AceBlocksStraight(hand: seq<Card>, i: nat)
    requires |hand| == 5 && i < 4 && hand[i].cardType == Face(Ace)
    ensures !SuccessorChain(hand)
  {
    assert NextCardType(hand[i].cardType) != Some(hand[i + 1].cardType);
  }

  /** A hand holding both a Number 2 and an Ace, in any order, is no
      straight; in particular A-2-3-4-5 never is. */
  lemma TwoAndAceIsNoStraight(hand: seq<Card>, two: nat, ace: nat)
    requires |hand| == 5 && two < 5 && ace < 5
    requires hand[two].cardType == Number(2) && hand[ace].cardType == Face(Ace)
    ensures !SuccessorChain(hand)
  {
    if SuccessorChain(hand) {
      if ace < 4 {
        AceBlocksStraight(hand, ace);
      } else {
        ChainValues(hand, two, 4);
      }
    }
  }

  // ----- Flushes -----

  /** The flush test as written never looks at the suit of the fifth card. */
  lemma LeadingSuitsIgnoreFifth(hand: seq<Card>, c: Card)
    requires |hand| == 5
    ensures LeadingSuitsMatch(hand[4 := c]) == LeadingSuitsMatch(hand)
  {
    assert forall i :: 0 <= i < 4 ==> hand[4 := c][i] == hand[i];
  }

  /** Two hands of the same card types, position by position. */
  predicate SameTypes(hand: seq<Card>, other: seq<Card>)
  {
    |hand| == |other| && forall i :: 0 <= i < |hand| ==> hand[i].cardType == other[i].cardType
  }

  /** The groups of a hand depend on its card types alone. */
  lemma GroupsIgnoreSuits(hand: seq<Card>, other: seq<Card>)
    requires SameTypes(hand, other)
    ensures forall k :: HasGroupOf(hand, k) == HasGroupOf(other, k)
    ensures PairTypes(hand) == PairTypes(other)
  {
    forall t ensures Count(hand, t) == Count(other, t) {
      CountIgnoresSuits(hand, other, t, |hand|);
    }
    forall k ensures HasGroupOf(hand, k) == HasGroupOf(other, k) {
      if HasGroupOf(hand, k) {
        var i :| 0 <= i < |hand| && Count(hand, hand[i].cardType) == k;
        assert Count(other, other[i].cardType) == k;
      }
      if HasGroupOf(other, k) {
        var i :| 0 <= i < |other| && Count(other, other[i].cardType) == k;
        assert Count(hand, hand[i].cardType) == k;
      }
    }
  }

  /** Sortedness depends on the card types alone. */
  lemma SortedIgnoresSuits(hand: seq<Card>, other: seq<Card>)
    requires SameTypes(hand, other)
    ensures Sorted(hand) == Sorted(other)
  {
    if Sorted(hand) {
      forall i, j | 0 <= i < j < |other| ensures Le(other[i].cardType, other[j].cardType) {
        assert Le(hand[i].cardType, hand[j].cardType);
      }
    }
    if Sorted(other) {
      forall i, j | 0 <= i < j < |hand| ensures Le(hand[i].cardType, hand[j].cardType) {
        assert Le(other[i].cardType, other[j].cardType);
      }
    }
  }

  /** Apart from the outcome of the flush test, the classification depends on
      the card types alone. */
  lemma ClassifyIgnoresSuits(hand: seq<Card>, other: seq<Card>, flush: bool)
    requires |hand| == 5 && SameTypes(hand, other)
    ensures Sorted(hand) == Sorted(other)
    ensures Classify(hand, flush) == Classify(other, flush)
  {
    GroupsIgnoreSuits(hand, other);
    SortedIgnoresSuits(hand, other);
    assert SuccessorChain(other) == SuccessorChain(hand);
    assert IsRoyalStraight(other) == IsRoyalStraight(hand);
    assert HasGroupOf(hand, 4) == HasGroupOf(other, 4);
    assert HasGroupOf(hand, 3) == HasGroupOf(other, 3);
    assert PairCount(hand) == PairCount(other);
  }

  /** So the suit of the fifth card never changes the rank `rank_hand` gives. */
  lemma HandRankIgnoresFifthSuit(hand: seq<Card>, s: Suit)
    requires |hand| == 5 && Sorted(hand)
    ensures Sorted(hand[4 := Card(s, hand[4].cardType)])
    ensures HandRankOf(hand[4 := Card(s, hand[4].cardType)]) == HandRankOf(hand)
  {
    var other := hand[4 := Card(s, hand[4].cardType)];
    assert SameTypes(hand, other);
    LeadingSuitsIgnoreFifth(hand, other[4]);
    ClassifyIgnoresSuits(hand, other, LeadingSuitsMatch(hand));
  }

  // ----- The classification -----

  /** The straight and flush categories of `rank_hand`, for a given outcome
      `flush` of the flush test. */
  lemma ClassifyStraightsAndFlushes(hand: seq<Card>, flush: bool)
    requires |hand| == 5 && Sorted(hand)
    ensures Classify(hand, flush) == RoyalFlush <==>
              flush && forall i :: 0 <= i < 5 ==> hand[i].cardType == RoyalTypes[i]
    ensures Classify(hand, flush) == StraightFlush <==>
              flush && SuccessorChain(hand) && !IsRoyalStraight(hand)
    ensures Classify(hand, flush) == Straight <==> !flush && SuccessorChain(hand)
    ensures Classify(hand, flush) == Flush <==>
              flush && !SuccessorChain(hand) && !HasGroupOf(hand, 4)
              && !(HasGroupOf(hand, 3) && PairCount(hand) > 0)
  {
    if SuccessorChain(hand) {
      ChainHasNoGroups(hand);
    }
    if IsRoyalStraight(hand) {
      RoyalIsChain(hand);
    }
  }

  /** The categories `rank_hand` derives from the counts of card types. */
  lemma ClassifyGroups(hand: seq<Card>, flush: bool)
    requires |hand| == 5 && Sorted(hand)
    ensures Classify(hand, flush) == FourOfAKind <==> HasGroupOf(hand, 4)
    ensures Classify(hand, flush) == FullHouse <==> HasGroupOf(hand, 3) && PairCount(hand) > 0
    ensures Classify(hand, flush) == ThreeOfAKind <==>
              !flush && HasGroupOf(hand, 3) && PairCount(hand) == 0
    ensures Classify(hand, flush) == TwoPair <==> !flush && PairCount(hand) == 2
    ensures Classify(hand, flush) == Pair <==>
              !flush && PairCount(hand) == 1 && !HasGroupOf(hand, 3)
    ensures Classify(hand, flush) == HighCard <==>
              !flush && !SuccessorChain(hand) && PairCount(hand) == 0
              && !HasGroupOf(hand, 3) && !HasGroupOf(hand, 4)
  {
    GroupBounds(hand);
    if SuccessorChain(hand) {
      ChainHasNoGroups(hand);
    }
    if IsRoyalStraight(hand) {
      RoyalIsChain(hand);
    }
  }

  /** When the flush test holds only the five strongest categories occur. */
  lemma FlushRanksHigh(hand: seq<Card>)
    requires |hand| == 5 && Sorted(hand) && LeadingSuitsMatch(hand)
    ensures HandRankOf(hand) in {RoyalFlush, StraightFlush, FourOfAKind, FullHouse, Flush}
  {
  }

  // ----- Effects of the two defects of the source -----

  /** The royal test of line 189 under the equality as written. */
  predicate LiteralRoyalFlushTest(hand: seq<Card>)
    requires |hand| == 5
  {
    LiteralRoyalStraight(hand) && LeadingSuitsMatch(hand)
  }

  /** With `PartialEq for CardType` answering true, `is_royal_straight` holds
      of every hand, so every hand that passes `is_flush` is a RoyalFlush. */
  lemma LiteralEqualityMakesEveryFlushRoyal(hand: seq<Card>)
    requires |hand| == 5
    ensures LiteralRoyalStraight(hand)
    ensures LiteralRoyalFlushTest(hand) <==> LeadingSuitsMatch(hand)
  {
  }

  /** The hand of the straight-flush test: 4 to 8 of spades. */
  const FourToEightOfSpades: seq<Card> :=
    [Card(Spades, Number(4)), Card(Spades, Number(5)), Card(Spades, Number(6)),
     Card(Spades, Number(7)), Card(Spades, Number(8))]

  /** 2, 3, 5 and 7 of spades with the Ace of diamonds. */
  const FourSpadesAndAnAce: seq<Card> :=
    [Card(Spades, Number(2)), Card(Spades, Number(3)), Card(Spades, Number(5)),
     Card(Spades, Number(7)), Card(Diamonds, Face(Ace))]

  lemma CounterexamplesSorted()
    ensures |FourToEightOfSpades| == 5 && Sorted(FourToEightOfSpades)
    ensures |FourSpadesAndAnAce| == 5 && Sorted(FourSpadesAndAnAce)
  {
    SortedByNeighbours(FourToEightOfSpades);
    SortedByNeighbours(FourSpadesAndAnAce);
  }

  /** On the straight flush 4-8 of spades the code as written would answer
      RoyalFlush, while structural equality gives the StraightFlush its test
      expects. */
  lemma LiteralEqualityMisranksStraightFlush()
    ensures |FourToEightOfSpades| == 5 && Sorted(FourToEightOfSpades)
    ensures LiteralRoyalFlushTest(FourToEightOfSpades)
    ensures HandRankOf(FourToEightOfSpades) == StraightFlush
  {
    CounterexamplesSorted();
    var hand := FourToEightOfSpades;
    assert SuccessorChain(hand) && LeadingSuitsMatch(hand);
    assert hand[0].cardType != RoyalTypes[0];
    ClassifyChain(hand, true);
  }

  /** 2-3-5-7 of spades with the Ace of diamonds passes `is_flush` as written
      and is ranked Flush; the intended test ranks it HighCard. */
  lemma FlushTestIgnoresFifthCard()
    ensures |FourSpadesAndAnAce| == 5 && Sorted(FourSpadesAndAnAce)
    ensures LeadingSuitsMatch(FourSpadesAndAnAce) && !AllSameSuit(FourSpadesAndAnAce)
    ensures HandRankOf(FourSpadesAndAnAce) == Flush
    ensures IntendedHandRank(FourSpadesAndAnAce) == HighCard
  {
    CounterexamplesSorted();
    var hand := FourSpadesAndAnAce;
    assert NextCardType(hand[1].cardType) != Some(hand[2].cardType);
    assert DistinctTypes(hand);
    ClassifyDistinctTypes(hand, true);
    ClassifyDistinctTypes(hand, false);
  }

  /** The intended classifier: the flush categories need all five suits
      equal, and it agrees with `rank_hand` whenever the fifth suit matches
      the first. */
  lemma IntendedFlushCategories(hand: seq<Card>)
    requires |hand| == 5 && Sorted(hand)
    ensures IntendedHandRank(hand) in {RoyalFlush, StraightFlush, Flush} ==> AllSameSuit(hand)
    ensures AllSameSuit(hand) && DistinctTypes(hand) && !SuccessorChain(hand) ==> IntendedHandRank(hand) == Flush
    ensures hand[4].suit == hand[0].suit ==> IntendedHandRank(hand) == HandRankOf(hand)
  {
    ClassifyStraightsAndFlushes(hand, AllSameSuit(hand));
    if DistinctTypes(hand) {
      DistinctHasNoGroups(hand);
    }
    if hand[4].suit == hand[0].suit {
      assert AllSameSuit(hand) == LeadingSuitsMatch(hand);
    }
  }

  // ----- The hands of the source's rank tests, in ascending order -----

  /** Without a group or a straight, the flush test alone decides between
      Flush and HighCard. */
  lemma ClassifyDistinctTypes(hand: seq<Card>, flush: bool)
    requires |hand| == 5 && DistinctTypes(hand) && !SuccessorChain(hand)
    ensures Classify(hand, flush) == if flush then Flush else HighCard
  {
    DistinctHasNoGroups(hand);
    if IsRoyalStraight(hand) {
      RoyalIsChain(hand);
    }
  }

  /** A run of successors has no group, so the royal and the flush tests
      alone decide which straight it is. */
  lemma ClassifyChain(hand: seq<Card>, flush: bool)
    requires |hand| == 5 && Sorted(hand) && SuccessorChain(hand)
    ensures Classify(hand, flush) ==
      if !flush then Straight
      else if IsRoyalStraight(hand) then RoyalFlush
      else StraightFlush
  {
    ChainHasNoGroups(hand);
  }

  const RoyalFlushHand: seq<Card> :=
    [Card(Clubs, Number(10)), Card(Clubs, Face(Jack)), Card(Clubs, Face(Queen)),
     Card(Clubs, Face(King)), Card(Clubs, Face(Ace))]
  const StraightHand: seq<Card> :=
    [Card(Clubs, Number(10)), Card(Clubs, Face(Jack)), Card(Diamonds, Face(Queen)),
     Card(Clubs, Face(King)), Card(Clubs, Face(Ace))]
  const FlushHand: seq<Card> :=
    [Card(Spades, Number(2)), Card(Spades, Number(5)), Card(Spades, Number(6)),
     Card(Spades, Number(8)), Card(Spades, Number(10))]
  const HighCardHand: seq<Card> :=
    [Card(Spades, Number(2)), Card(Diamonds, Number(3)), Card(Clubs, Number(5)),
     Card(Hearts, Number(7)), Card(Diamonds, Face(Ace))]
  const FourOfAKindHand: seq<Card> :=
    [Card(Clubs, Number(10)), Card(Diamonds, Number(10)), Card(Spades, Number(10)),
     Card(Hearts, Number(10)), Card(Clubs, Face(Ace))]
  const FullHouseHand: seq<Card> :=
    [Card(Clubs, Number(10)), Card(Diamonds, Number(10)), Card(Spades, Number(10)),
     Card(Hearts, Face(Ace)), Card(Clubs, Face(Ace))]
  const ThreeOfAKindHand: seq<Card> :=
    [Card(Clubs, Number(10)), Card(Diamonds, Number(10)), Card(Spades, Number(10)),
     Card(Clubs, Face(Queen)), Card(Hearts, Face(Ace))]
  const TwoPairHand: seq<Card> :=
    [Card(Spades, Number(3)), Card(Clubs, Number(10)), Card(Diamonds, Number(10)),
     Card(Hearts, Face(Queen)), Card(Clubs, Face(Queen))]
  const PairHand: seq<Card> :=
    [Card(Spades, Number(3)), Card(Clubs, Number(10)), Card(Diamonds, Number(10)),
     Card(Clubs, Face(Queen)), Card(Hearts, Face(Ace))]

  lemma DistinctTestHandsSorted()
    ensures |RoyalFlushHand| == 5 && Sorted(RoyalFlushHand)
    ensures |StraightHand| == 5 && Sorted(StraightHand)
    ensures |FlushHand| == 5 && Sorted(FlushHand)
    ensures |HighCardHand| == 5 && Sorted(HighCardHand)
  {
    SortedByNeighbours(RoyalFlushHand);
    SortedByNeighbours(StraightHand);
    SortedByNeighbours(FlushHand);
    SortedByNeighbours(HighCardHand);
  }

  lemma GroupedTestHandsSorted()
    ensures |FourOfAKindHand| == 5 && Sorted(FourOfAKindHand)
    ensures |FullHouseHand| == 5 && Sorted(FullHouseHand)
    ensures |ThreeOfAKindHand| == 5 && Sorted(ThreeOfAKindHand)
    ensures |TwoPairHand| == 5 && Sorted(TwoPairHand)
    ensures |PairHand| == 5 && Sorted(PairHand)
  {
    SortedByNeighbours(FourOfAKindHand);
    SortedByNeighbours(FullHouseHand);
    SortedByNeighbours(ThreeOfAKindHand);
    SortedByNeighbours(TwoPairHand);
    SortedByNeighbours(PairHand);
  }

  lemma ExampleRoyalFlush()
    ensures |RoyalFlushHand| == 5 && Sorted(RoyalFlushHand) && HandRankOf(RoyalFlushHand) == RoyalFlush
  {
    DistinctTestHandsSorted();
    var hand := RoyalFlushHand;
    assert IsRoyalStraight(hand) && LeadingSuitsMatch(hand);
    RoyalIsChain(hand);
    ClassifyChain(hand, true);
  }

  lemma ExampleStraight()
    ensures |StraightHand| == 5 && Sorted(StraightHand) && HandRankOf(StraightHand) == Straight
  {
    DistinctTestHandsSorted();
    var hand := StraightHand;
    assert hand[2].suit != hand[0].suit;
    assert SuccessorChain(hand);
    ClassifyChain(hand, false);
  }

  lemma ExampleFlush()
    ensures |FlushHand| == 5 && Sorted(FlushHand) && HandRankOf(FlushHand) == Flush
  {
    DistinctTestHandsSorted();
    var hand := FlushHand;
    assert NextCardType(hand[0].cardType) != Some(hand[1].cardType);
    assert DistinctTypes(hand) && LeadingSuitsMatch(hand);
    ClassifyDistinctTypes(hand, true);
  }

  lemma ExampleHighCard()
    ensures |HighCardHand| == 5 && Sorted(HighCardHand) && HandRankOf(HighCardHand) == HighCard
  {
    DistinctTestHandsSorted();
    var hand := HighCardHand;
    assert NextCardType(hand[1].cardType) != Some(hand[2].cardType);
    assert hand[1].suit != hand[0].suit;
    assert DistinctTypes(hand);
    ClassifyDistinctTypes(hand, false);
  }

  lemma ExampleFourOfAKind()
    ensures |FourOfAKindHand| == 5 && Sorted(FourOfAKindHand) && HandRankOf(FourOfAKindHand) == FourOfAKind
  {
    GroupedTestHandsSorted();
    var hand := FourOfAKindHand;
    assert CountBelow(hand, Number(10), 1) == 1;
    assert CountBelow(hand, Number(10), 3) == 3;
    assert CountBelow(hand, Number(10), 5) == 4;
    assert HasGroupOf(hand, 4);
    assert !IsRoyalStraight(hand) && !SuccessorChain(hand);
  }

  lemma ExampleFullHouse()
    ensures |FullHouseHand| == 5 && Sorted(FullHouseHand) && HandRankOf(FullHouseHand) == FullHouse
  {
    GroupedTestHandsSorted();
    var hand := FullHouseHand;
    assert CountBelow(hand, Number(10), 1) == 1;
    assert CountBelow(hand, Number(10), 3) == 3;
    assert CountBelow(hand, Number(10), 5) == 3;
    assert CountBelow(hand, Face(Ace), 3) == 0;
    assert CountBelow(hand, Face(Ace), 5) == 2;
    assert HasGroupOf(hand, 3);
    assert Face(Ace) in PairTypes(hand);
    GroupBounds(hand);
    assert !SuccessorChain(hand) && !LeadingSuitsMatch(hand);
  }

  lemma ExampleThreeOfAKind()
    ensures |ThreeOfAKindHand| == 5 && Sorted(ThreeOfAKindHand) && HandRankOf(ThreeOfAKindHand) == ThreeOfAKind
  {
    GroupedTestHandsSorted();
    var hand := ThreeOfAKindHand;
    assert CountBelow(hand, Number(10), 1) == 1;
    assert CountBelow(hand, Number(10), 3) == 3;
    assert CountBelow(hand, Number(10), 5) == 3;
    assert CountBelow(hand, Face(Queen), 5) == 1;
    assert CountBelow(hand, Face(Ace), 5) == 1;
    assert HasGroupOf(hand, 3);
    assert PairTypes(hand) == {};
    GroupBounds(hand);
    assert !SuccessorChain(hand) && !LeadingSuitsMatch(hand);
  }

  lemma ExampleTwoPair()
    ensures |TwoPairHand| == 5 && Sorted(TwoPairHand) && HandRankOf(TwoPairHand) == TwoPair
  {
    GroupedTestHandsSorted();
    var hand := TwoPairHand;
    assert CountBelow(hand, Number(3), 5) == 1;
    assert CountBelow(hand, Number(10), 1) == 0;
    assert CountBelow(hand, Number(10), 5) == 2;
    assert CountBelow(hand, Face(Queen), 3) == 0;
    assert CountBelow(hand, Face(Queen), 5) == 2;
    assert PairTypes(hand) == {Number(10), Face(Queen)};
    GroupBounds(hand);
    assert hand[1].suit != hand[0].suit;
    assert !SuccessorChain(hand) && !LeadingSuitsMatch(hand);
  }

  lemma ExamplePair()
    ensures |PairHand| == 5 && Sorted(PairHand) && HandRankOf(PairHand) == Pair
  {
    GroupedTestHandsSorted();
    var hand := PairHand;
    assert CountBelow(hand, Number(3), 5) == 1;
    assert CountBelow(hand, Number(10), 1) == 0;
    assert CountBelow(hand, Number(10), 5) == 2;
    assert CountBelow(hand, Face(Queen), 5) == 1;
    assert CountBelow(hand, Face(Ace), 5) == 1;
    assert PairTypes(hand) == {Number(10)};
    assert !HasGroupOf(hand, 3) && !HasGroupOf(hand, 4);
    assert hand[1].suit != hand[0].suit;
    assert !SuccessorChain(hand) && !LeadingSuitsMatch(hand);
  }
}
