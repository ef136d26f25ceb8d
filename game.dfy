/** The deck, the players and the betting rounds of a game of Texas hold'em:
    the `Game` struct of src/lib.rs, its `new`, `shuffle_cards`, `deal_cards`
    and `is_valid`, and the round loop of `play_game`. */
module Poker {
  import opened Wrappers
  import opened Cards

  /** The betting rounds, in the order a game passes through them. */
  datatype Round = PreFlop | Flop | Turn | River

  /** A player is the cards in their hand. */
  datatype Player = Player(hand: seq<Card>)

  /** Suits and faces in declaration order, the order in which
      `Suit::iter()` and `FaceCharacter::iter()` yield them. */
  const Suits: seq<Suit> := [Hearts, Diamonds, Spades, Clubs]
  const Faces: seq<FaceCharacter> := [Jack, Queen, King, Ace]

  function SuitIndex(s: Suit): (i: nat)
    ensures i < 4 && Suits[i] == s
  {
    match s
    case Hearts => 0
    case Diamonds => 1
    case Spades => 2
    case Clubs => 3
  }

  /** The deck as `Game::new` builds it: for every suit the Numbers 2 to 10,
      then for every suit the four faces. */
  function FullDeck(): seq<Card>
  {
    seq(36, i requires 0 <= i < 36 => Card(Suits[i / 9], Number(2 + i % 9)))
    + seq(16, i requires 0 <= i < 16 => Card(Suits[i / 4], Face(Faces[i % 4])))
  }

  /** Where a deck card sits in `FullDeck()`. */
  function DeckPosition(c: Card): (p: nat)
    requires InDeck(c.cardType)
    ensures p < 52
  {
    match c.cardType
    case Number(n) => 9 * SuitIndex(c.suit) + n - 2
    case Face(f) => 36 + 4 * SuitIndex(c.suit) + FaceIndex(f)
  }

  predicate Distinct(s: seq<Card>)
  {
    forall i, j :: 0 <= i < j < |s| ==> s[i] != s[j]
  }

  /** Every card of the deck is a deck card, found again by `DeckPosition`. */
  lemma PositionOfEachCard(i: nat)
    requires i < 52
    ensures |FullDeck()| == 52
    ensures InDeck(FullDeck()[i].cardType) && DeckPosition(FullDeck()[i]) == i
  {
    if i < 36 {
      assert FullDeck()[i] == Card(Suits[i / 9], Number(2 + i % 9));
    } else {
      assert FullDeck()[i] == Card(Suits[(i - 36) / 4], Face(Faces[(i - 36) % 4]));
    }
  }

  /** Every deck card sits at the position `DeckPosition` gives it. */
  lemma CardAtEachPosition(c: Card)
    requires InDeck(c.cardType)
    ensures |FullDeck()| == 52 && FullDeck()[DeckPosition(c)] == c
  {
    var s := SuitIndex(c.suit);
    match c.cardType {
      case Number(n) =>
        NumberCardAt(s, n);
      case Face(f) =>
        FaceCardAt(s, FaceIndex(f));
        assert Faces[FaceIndex(f)] == f;
    }
  }

  /** The deck has 52 cards, each card at the position `DeckPosition` gives it. */
  lemma DeckPositions()
    ensures |FullDeck()| == 52
    ensures forall i :: 0 <= i < 52 ==> InDeck(FullDeck()[i].cardType) && DeckPosition(FullDeck()[i]) == i
    ensures forall c: Card :: InDeck(c.cardType) ==> FullDeck()[DeckPosition(c)] == c
  {
    forall i | 0 <= i < 52
      ensures InDeck(FullDeck()[i].cardType) && DeckPosition(FullDeck()[i]) == i
    {
      PositionOfEachCard(i);
    }
    forall c: Card | InDeck(c.cardType)
      ensures FullDeck()[DeckPosition(c)] == c
    {
      CardAtEachPosition(c);
    }
  }

  /** The 52 cards of the deck are pairwise distinct, and a card is in the
      deck exactly when its card type is one of 2..10 or a face. */
  lemma FullDeckIsEveryCardOnce()
    ensures |FullDeck()| == 52 && Distinct(FullDeck())
    ensures forall c: Card :: c in FullDeck() <==> InDeck(c.cardType)
  {
    DeckPositions();
  }

  /** A sequence without repeats holds each of its elements once. */
  lemma {:induction false} DistinctMultiplicity(s: seq<Card>, c: Card)
    requires Distinct(s)
    ensures multiset(s)[c] == if c in s then 1 else 0
  {
    if s != [] {
      assert s == [s[0]] + s[1..];
      assert Distinct(s[1..]) by {
        forall i, j | 0 <= i < j < |s[1..]|
          ensures s[1..][i] != s[1..][j]
        {
          assert s[1..][i] == s[i + 1] && s[1..][j] == s[j + 1];
        }
      }
      DistinctMultiplicity(s[1..], c);
      assert s[0] in s[1..] ==> false;
    }
  }

  /** The deck holds every deck card exactly once and nothing else. */
  lemma FullDeckMultiplicity(c: Card)
    ensures multiset(FullDeck())[c] == if InDeck(c.cardType) then 1 else 0
  {
    FullDeckIsEveryCardOnce();
    DistinctMultiplicity(FullDeck(), c);
  }

  /** The card the number loop of `Game::new` pushes for suit `si` and
      number `n` sits at position `9 * si + n - 2` of the deck. */
  lemma NumberCardAt(si: nat, n: nat)
    requires si < 4 && 2 <= n <= 10
    ensures FullDeck()[9 * si + n - 2] == Card(Suits[si], Number(n))
  {
    assert (9 * si + n - 2) / 9 == si && (9 * si + n - 2) % 9 == n - 2;
  }

  /** The card the face loop of `Game::new` pushes for suit `si` and face
      `fi` sits at position `36 + 4 * si + fi` of the deck. */
  lemma FaceCardAt(si: nat, fi: nat)
    requires si < 4 && fi < 4
    ensures FullDeck()[36 + 4 * si + fi] == Card(Suits[si], Face(Faces[fi]))
  {
    assert (4 * si + fi) / 4 == si && (4 * si + fi) % 4 == fi;
  }

  lemma PrefixStep(d: seq<Card>, k: nat)
    requires k < |d|
    ensures d[..k] + [d[k]] == d[..k + 1]
  {
  }

  /** The nested loops of `Game::new` that push the number cards and then the
      face cards. */
  method BuildDeck() returns (cards: seq<Card>)
    ensures cards == FullDeck()
  {
    var d := FullDeck();
    cards := [];
    for si := 0 to 4
      invariant cards == d[..9 * si]
    {
      for n := 2 to 11
        invariant cards == d[..9 * si + n - 2]
      {
        NumberCardAt(si, n);
        PrefixStep(d, 9 * si + n - 2);
        cards := cards + [Card(Suits[si], Number(n))];
      }
    }
    for si := 0 to 4
      invariant cards == d[..36 + 4 * si]
    {
      for fi := 0 to 4
        invariant cards == d[..36 + 4 * si + fi]
      {
        FaceCardAt(si, fi);
        PrefixStep(d, 36 + 4 * si + fi);
        cards := cards + [Card(Suits[si], Face(Faces[fi]))];
      }
    }
    assert cards == d;
  }

  /** The players collected from `(lo..hi).map(|_| Player { hand: vec![] })`. */
  function PlayerSlots(lo: int, hi: int): (ps: seq<Player>)
    ensures |ps| == if lo < hi then hi - lo else 0
    ensures forall i :: 0 <= i < |ps| ==> ps[i].hand == []
  {
    seq(if lo < hi then hi - lo else 0, _ => Player([]))
  }

  /** The players `Game::new` creates as written: the upper bound
      `num_players + 1` is computed in `u8`, which wraps at 256. */
  function AsWrittenPlayers(numPlayers: U8): seq<Player>
  {
    PlayerSlots(1, (numPlayers + 1) % 256)
  }

  /** As written, every player count gets its players except 255, where
      `num_players + 1` overflows and the game has no player at all. */
  lemma AsWrittenPlayersLostAt255(numPlayers: U8)
    ensures |AsWrittenPlayers(numPlayers)| == if numPlayers == 255 then 0 else numPlayers
  {
  }

  /** The number of players holding at least one card, the count taken by
      `is_valid`. */
  function HoldingCount(ps: seq<Player>): (n: nat)
    ensures n <= |ps|
  {
    if ps == [] then 0
    else (if Holds(ps[0]) then 1 else 0) + HoldingCount(ps[1..])
  }

  predicate Holds(p: Player)
  {
    |p.hand| > 0
  }

  lemma {:induction false} HoldingCountPositive(ps: seq<Player>)
    ensures HoldingCount(ps) > 0 <==> exists i :: 0 <= i < |ps| && Holds(ps[i])
  {
    if ps != [] {
      HoldingCountPositive(ps[1..]);
      if exists i :: 0 <= i < |ps| && Holds(ps[i]) {
        var i :| 0 <= i < |ps| && Holds(ps[i]);
        if i > 0 {
          assert ps[1..][i - 1] == ps[i];
        }
      }
      if exists i :: 0 <= i < |ps[1..]| && Holds(ps[1..][i]) {
        var i :| 0 <= i < |ps[1..]| && Holds(ps[1..][i]);
        assert ps[i + 1] == ps[1..][i];
      }
    }
  }

  /** Two players holding cards are two in the tail, or the first player and
      one in the tail. */
  lemma HoldingPairInTail(ps: seq<Player>, i: nat, j: nat)
    requires i < j < |ps| && Holds(ps[i]) && Holds(ps[j])
    ensures (exists i', j' :: 0 <= i' < j' < |ps[1..]| && Holds(ps[1..][i']) && Holds(ps[1..][j']))
      || (Holds(ps[0]) && exists j' :: 0 <= j' < |ps[1..]| && Holds(ps[1..][j']))
  {
    assert ps[1..][j - 1] == ps[j];
    if i > 0 {
      assert ps[1..][i - 1] == ps[i];
    }
  }

  /** Conversely, two players in the tail, or the first player and one in the
      tail, are two players holding cards. */
  lemma HoldingPairFromTail(ps: seq<Player>)
    requires ps != []
    requires (exists i, j :: 0 <= i < j < |ps[1..]| && Holds(ps[1..][i]) && Holds(ps[1..][j]))
      || (Holds(ps[0]) && exists j :: 0 <= j < |ps[1..]| && Holds(ps[1..][j]))
    ensures exists i, j :: 0 <= i < j < |ps| && Holds(ps[i]) && Holds(ps[j])
  {
    var rest := ps[1..];
    if exists i, j :: 0 <= i < j < |rest| && Holds(rest[i]) && Holds(rest[j]) {
      var i, j :| 0 <= i < j < |rest| && Holds(rest[i]) && Holds(rest[j]);
      assert ps[i + 1] == rest[i] && ps[j + 1] == rest[j];
    } else {
      var j :| 0 <= j < |rest| && Holds(rest[j]);
      assert ps[j + 1] == rest[j];
    }
  }

  /** More than one player holds cards exactly when two different players
      hold cards: the meaning of the count in `is_valid`. */
  lemma {:induction false} HoldingCountAboveOne(ps: seq<Player>)
    ensures HoldingCount(ps) > 1 <==>
      exists i, j :: 0 <= i < j < |ps| && Holds(ps[i]) && Holds(ps[j])
  {
    if ps != [] {
      HoldingCountAboveOne(ps[1..]);
      HoldingCountPositive(ps[1..]);
      if exists i, j :: 0 <= i < j < |ps| && Holds(ps[i]) && Holds(ps[j]) {
        var i, j :| 0 <= i < j < |ps| && Holds(ps[i]) && Holds(ps[j]);
        HoldingPairInTail(ps, i, j);
      }
      if HoldingCount(ps) > 1 {
        HoldingPairFromTail(ps);
      }
    }
  }

  /** When every player holds cards, all of them are counted. */
  lemma {:induction false} HoldingCountAll(ps: seq<Player>)
    requires forall i :: 0 <= i < |ps| ==> Holds(ps[i])
    ensures HoldingCount(ps) == |ps|
  {
    if ps != [] {
      assert forall i :: 0 <= i < |ps[1..]| ==> ps[1..][i] == ps[i + 1];
      HoldingCountAll(ps[1..]);
    }
  }

  /** All cards in the players' hands. */
  function HandCards(ps: seq<Player>): multiset<Card>
  {
    if ps == [] then multiset{} else multiset(ps[0].hand) + HandCards(ps[1..])
  }

  /** Adding cards to one player's hand adds just those cards to the hands. */
  lemma {:induction false} HandCardsGive(ps: seq<Player>, i: nat, extra: seq<Card>)
    requires i < |ps|
    ensures HandCards(ps[i := Player(ps[i].hand + extra)]) == HandCards(ps) + multiset(extra)
  {
    var q := ps[i := Player(ps[i].hand + extra)];
    var a, e := multiset(ps[0].hand), multiset(extra);
    if i > 0 {
      assert q[0] == ps[0] && q[1..] == ps[1..][i - 1 := Player(ps[1..][i - 1].hand + extra)];
      HandCardsGive(ps[1..], i - 1, extra);
      var r, r' := HandCards(ps[1..]), HandCards(q[1..]);
      assert r' == r + e;
      assert HandCards(q) == a + r';
      assert HandCards(ps) == a + r;
      assert a + (r + e) == (a + r) + e;
    } else {
      assert q[1..] == ps[1..];
      assert multiset(q[0].hand) == a + e;
      var r := HandCards(ps[1..]);
      assert HandCards(q) == (a + e) + r;
      assert (a + e) + r == (a + r) + e;
    }
  }

  /** The players `ps` once the first `n` of them have each taken the top
      two cards still on `deck`, in turn. */
  function DealtPlayers(ps: seq<Player>, deck: seq<Card>, n: nat): (r: seq<Player>)
    requires n <= |ps| && 2 * n <= |deck|
    ensures |r| == |ps|
  {
    if n == 0 then ps
    else DealtPlayers(ps, deck, n - 1)[n - 1 := DealtTo(ps[n - 1], deck, n - 1)]
  }

  /** Player number `k` after taking the two cards dealt to that position. */
  function DealtTo(p: Player, deck: seq<Card>, k: nat): Player
    requires 2 * k + 2 <= |deck|
  {
    Player(p.hand + [deck[|deck| - 1 - 2 * k], deck[|deck| - 2 - 2 * k]])
  }

  /** Each of the first `n` players holds their own hand followed by the two
      cards dealt to their position; the others are as they were. */
  lemma {:induction false} DealtPlayersHands(ps: seq<Player>, deck: seq<Card>, n: nat)
    requires n <= |ps| && 2 * n <= |deck|
    ensures forall k :: 0 <= k < n ==> DealtPlayers(ps, deck, n)[k] == DealtTo(ps[k], deck, k)
    ensures forall k :: n <= k < |ps| ==> DealtPlayers(ps, deck, n)[k] == ps[k]
  {
    if n > 0 {
      DealtPlayersHands(ps, deck, n - 1);
    }
  }

  /** Every card on the table: those in `deck`, in the hands of `ps` and in
      `shared`. */
  function TableCards(deck: seq<Card>, ps: seq<Player>, shared: seq<Card>): multiset<Card>
  {
    multiset(deck) + HandCards(ps) + multiset(shared)
  }

  /** Taking the top two cards off `s` leaves the rest of its cards. */
  lemma TopTwo(s: seq<Card>)
    requires |s| >= 2
    ensures multiset(s) == multiset(s[..|s| - 2]) + multiset([s[|s| - 1], s[|s| - 2]])
  {
    assert s == s[..|s| - 2] + [s[|s| - 2], s[|s| - 1]];
    assert multiset([s[|s| - 2], s[|s| - 1]]) == multiset([s[|s| - 1], s[|s| - 2]]);
  }

  /** Dealing to player `n - 1` adds the two cards at that position to the
      hand it held before. */
  lemma DealtPlayersLast(ps: seq<Player>, deck: seq<Card>, n: nat)
    requires 0 < n <= |ps| && 2 * n <= |deck|
    ensures var before := DealtPlayers(ps, deck, n - 1);
      DealtPlayers(ps, deck, n) == before[n - 1 :=
        Player(before[n - 1].hand + [deck[|deck| - 1 - 2 * (n - 1)], deck[|deck| - 2 - 2 * (n - 1)]])]
  {
    DealtPlayersHands(ps, deck, n - 1);
  }

  lemma MovedCards(top: multiset<Card>, rest: multiset<Card>, dealt: multiset<Card>,
                   hands: multiset<Card>, all: multiset<Card>)
    requires top == rest + dealt && top + hands == all
    ensures rest + (hands + dealt) == all
  {
  }

  /** Dealing moves cards from the top of the deck into the hands and loses
      or creates none. */
  lemma {:induction false} DealingConservesCards(ps: seq<Player>, deck: seq<Card>, n: nat)
    requires n <= |ps| && 2 * n <= |deck|
    ensures multiset(deck[..|deck| - 2 * n]) + HandCards(DealtPlayers(ps, deck, n))
      == multiset(deck) + HandCards(ps)
  {
    if n == 0 {
      assert deck[..|deck|] == deck;
    } else {
      var m := n - 1;
      DealingConservesCards(ps, deck, m);
      var before := DealtPlayers(ps, deck, m);
      var c1, c2 := deck[|deck| - 1 - 2 * m], deck[|deck| - 2 - 2 * m];
      DealtPlayersLast(ps, deck, n);
      HandCardsGive(before, m, [c1, c2]);
      var top := deck[..|deck| - 2 * m];
      TopTwo(top);
      assert top[..|top| - 2] == deck[..|deck| - 2 * n];
      MovedCards(multiset(top), multiset(deck[..|deck| - 2 * n]), multiset([c1, c2]),
        HandCards(before), multiset(deck) + HandCards(ps));
    }
  }

  /** `cards` and `shared` are what remains of `deck` and what lies on the
      table once its top `k` cards have been turned up onto `start`. */
  predicate ShownFrom(deck: seq<Card>, start: seq<Card>, k: nat, cards: seq<Card>, shared: seq<Card>)
  {
    k <= |deck| && cards == deck[..|deck| - k] && shared == start + TurnedUpCards(deck, k)
  }

  /** Turning up the top card of what remains extends the shown run by one. */
  lemma TurnedUp(deck: seq<Card>, start: seq<Card>, k: nat, cards: seq<Card>, shared: seq<Card>)
    requires ShownFrom(deck, start, k, cards, shared) && k < |deck|
    ensures |cards| > 0
    ensures ShownFrom(deck, start, k + 1, cards[..|cards| - 1], shared + [cards[|cards| - 1]])
  {
    assert cards[|cards| - 1] == deck[|deck| - (k + 1)];
  }

  /** Turning up the top cards of the deck keeps the cards on the table. */
  lemma ShowingKeepsTable(deck: seq<Card>, start: seq<Card>, k: nat, cards: seq<Card>, shared: seq<Card>, ps: seq<Player>)
    requires ShownFrom(deck, start, k, cards, shared)
    ensures TableCards(cards, ps, shared) == TableCards(deck, ps, start)
  {
    var shown := deck[|deck| - k..];
    assert deck == cards + shown;
    TurnedUpMultiset(deck, k);
    MovedCards(multiset(deck), multiset(cards), multiset(shown), HandCards(ps) + multiset(start),
      multiset(deck) + (HandCards(ps) + multiset(start)));
  }

  /** A whole deal keeps the cards on the table. */
  lemma DealKeepsTable(ps: seq<Player>, deck: seq<Card>, shared: seq<Card>)
    requires 2 * |ps| <= |deck|
    ensures TableCards(deck[..|deck| - 2 * |ps|], DealtPlayers(ps, deck, |ps|), shared)
      == TableCards(deck, ps, shared)
  {
    DealingConservesCards(ps, deck, |ps|);
  }

  /** The top `k` cards of `deck` in the order in which popping them off the
      end of the vector and pushing each onto another lays them down. */
  function TurnedUpCards(deck: seq<Card>, k: nat): seq<Card>
    requires k <= |deck|
  {
    if k == 0 then [] else TurnedUpCards(deck, k - 1) + [deck[|deck| - k]]
  }

  /** The `i`-th card turned up is the `i`-th card from the top of the deck. */
  lemma {:induction false} TurnedUpOrder(deck: seq<Card>, k: nat)
    requires k <= |deck|
    ensures |TurnedUpCards(deck, k)| == k
    ensures forall i :: 0 <= i < k ==> TurnedUpCards(deck, k)[i] == deck[|deck| - 1 - i]
  {
    if k > 0 {
      TurnedUpOrder(deck, k - 1);
    }
  }

  /** The cards turned up are the top `k` cards of the deck. */
  lemma {:induction false} TurnedUpMultiset(deck: seq<Card>, k: nat)
    requires k <= |deck|
    ensures multiset(TurnedUpCards(deck, k)) == multiset(deck[|deck| - k..])
  {
    if k > 0 {
      TurnedUpMultiset(deck, k - 1);
      assert deck[|deck| - k..] == [deck[|deck| - k]] + deck[|deck| - (k - 1)..];
    }
  }

  /** How many cards the rounds from `r` on still turn up: three at the flop,
      one at the turn and one at the river. */
  function CardsToShow(r: Round): nat
  {
    match r
    case PreFlop => 5
    case Flop => 5
    case Turn => 2
    case River => 1
  }

  /** How many cards round `r` itself turns up. */
  function RevealedIn(r: Round): nat
  {
    match r
    case PreFlop => 0
    case Flop => 3
    case Turn => 1
    case River => 1
  }

  /** The round that follows `r`; the river is the last. */
  function NextRound(r: Round): Round
  {
    match r
    case PreFlop => Flop
    case Flop => Turn
    case Turn => River
    case River => River
  }

  /** The cards still to show from a round are those it shows and those the
      rounds after it show, and the flop, turn and river show five in all. */
  lemma CardsToShowSplits(r: Round)
    ensures r != River ==> CardsToShow(r) == RevealedIn(r) + CardsToShow(NextRound(r))
    ensures r != River ==> RoundsLeft(NextRound(r)) < RoundsLeft(r)
    ensures CardsToShow(PreFlop) == RevealedIn(Flop) + RevealedIn(Turn) + RevealedIn(River) == 5
  {
  }

  /** How many times the round loop still moves to a later round. */
  function RoundsLeft(r: Round): nat
  {
    match r
    case PreFlop => 3
    case Flop => 2
    case Turn => 1
    case River => 0
  }

  class Game {
    var cards: seq<Card>
    var players: seq<Player>
    var dealerPosition: U8
    var round: Round
    var sharedCards: seq<Card>

    /** Every card the game holds: deck, hands and shared cards together. */
    function AllCards(): multiset<Card>
      reads this
    {
      TableCards(cards, players, sharedCards)
    }

    /** `is_valid`: more than one player holds cards. */
    function IsValid(): (b: bool)
      reads this`players
      ensures b <==> exists i, j :: 0 <= i < j < |players| && Holds(players[i]) && Holds(players[j])
    {
      HoldingCountAboveOne(players);
      HoldingCount(players) > 1
    }

    constructor Init(deck: seq<Card>, ps: seq<Player>)
      ensures cards == deck && players == ps
      ensures dealerPosition == 0 && round == PreFlop && sharedCards == []
    {
      cards := deck;
      players := ps;
      dealerPosition := 0;
      round := PreFlop;
      sharedCards := [];
    }

    /** `Game::new`: the full deck, `numPlayers` players with empty hands, the
        pre-flop round and no shared cards; fewer than two players is an
        error. */
    static method New(numPlayers: U8) returns (r: Result<Game, string>)
      ensures r.Err? <==> numPlayers < 2
      ensures r.Err? ==> r.error == "not enough players"
      ensures r.Ok? ==> fresh(r.value)
      ensures r.Ok? ==> r.value.cards == FullDeck() && r.value.sharedCards == []
      ensures r.Ok? ==> r.value.players == PlayerSlots(1, numPlayers + 1)
      ensures r.Ok? ==> |r.value.players| == numPlayers
      ensures r.Ok? ==> forall i :: 0 <= i < |r.value.players| ==> r.value.players[i].hand == []
      ensures r.Ok? ==> r.value.round == PreFlop && r.value.dealerPosition == 0
      ensures r.Ok? ==> r.value.AllCards() == multiset(FullDeck())
    {
      var cards := BuildDeck();
      if numPlayers < 2 {
        return Err("not enough players");
      }
      var ps := PlayerSlots(1, numPlayers + 1);
      var g := new Game.Init(cards, ps);
      HandCardsEmpty(ps);
      return Ok(g);
    }

    static lemma {:induction false} HandCardsEmpty(ps: seq<Player>)
      requires forall i :: 0 <= i < |ps| ==> ps[i].hand == []
      ensures HandCards(ps) == multiset{}
    {
      if ps != [] {
        assert forall i :: 0 <= i < |ps[1..]| ==> ps[1..][i] == ps[i + 1];
        HandCardsEmpty(ps[1..]);
      }
    }

    /** `shuffle_cards`, with the permutation the random generator would
        pick passed in as the new order of the deck. */
    method ShuffleCards(order: seq<Card>)
      requires multiset(order) == multiset(cards)
      modifies this
      ensures cards == order
      ensures players == old(players) && sharedCards == old(sharedCards)
      ensures round == old(round) && dealerPosition == old(dealerPosition)
      ensures AllCards() == old(AllCards())
    {
      cards := order;
    }

    /** `deal_cards`: each player in turn takes the top two cards of the
        deck; the deck must hold two cards per player. */
    method DealCards()
      requires 2 * |players| <= |cards|
      modifies this
      ensures players == DealtPlayers(old(players), old(cards), |old(players)|)
      ensures cards == old(cards)[..|old(cards)| - 2 * |old(players)|]
      ensures sharedCards == old(sharedCards)
      ensures round == old(round) && dealerPosition == old(dealerPosition)
      ensures AllCards() == old(AllCards())
    {
      var deck := cards;
      var ps := players;
      for i := 0 to |players|
        modifies {}
        invariant |ps| == |players| && 2 * |ps| <= |cards|
        invariant deck == cards[..|cards| - 2 * i]
        invariant ps == DealtPlayers(players, cards, i)
      {
        var card1 := deck[|deck| - 1];
        var card2 := deck[|deck| - 2];
        deck := deck[..|deck| - 2];
        assert ps[i] == players[i] by {
          DealtPlayersHands(players, cards, i);
        }
        ps := ps[i := Player(ps[i].hand + [card1, card2])];
      }
      DealKeepsTable(players, cards, sharedCards);
      cards := deck;
      players := ps;
    }

    /** `self.shared_cards.push(self.cards.pop().expect(..))`: turn up the top
        card of the deck. */
    method RevealCard(ghost deck: seq<Card>, ghost start: seq<Card>, ghost k: nat)
      requires ShownFrom(deck, start, k, cards, sharedCards) && k < |deck|
      modifies this
      ensures cards == old(cards)[..|old(cards)| - 1]
      ensures sharedCards == old(sharedCards) + [old(cards)[|old(cards)| - 1]]
      ensures ShownFrom(deck, start, k + 1, cards, sharedCards)
      ensures players == old(players)
      ensures round == old(round) && dealerPosition == old(dealerPosition)
    {
      TurnedUp(deck, start, k, cards, sharedCards);
      var c := cards[|cards| - 1];
      cards := cards[..|cards| - 1];
      sharedCards := sharedCards + [c];
    }

    /** One pass of the round loop of `play_game`: the pre-flop moves on to
        the flop, the flop turns up three cards, the turn and the river one
        each, and `done` reports the river, after which the loop stops. */
    method PlayRound(ghost deck: seq<Card>, ghost start: seq<Card>, ghost k: nat) returns (done: bool)
      requires ShownFrom(deck, start, k, cards, sharedCards) && k + CardsToShow(round) <= |deck|
      modifies this
      ensures players == old(players) && dealerPosition == old(dealerPosition)
      ensures done <==> old(round) == River
      ensures round == NextRound(old(round))
      ensures ShownFrom(deck, start, k + RevealedIn(old(round)), cards, sharedCards)
    {
      CardsToShowSplits(round);
      match round {
        case PreFlop =>
          round := Flop;
        case Flop =>
          RevealCard(deck, start, k);
          RevealCard(deck, start, k + 1);
          RevealCard(deck, start, k + 2);
          round := Turn;
        case Turn =>
          RevealCard(deck, start, k);
          round := River;
        case River =>
          RevealCard(deck, start, k);
          return true;
      }
      return false;
    }

    /** The round loop of `play_game`: while the game is valid, rounds are
        played until the river. The deck must hold the cards still to show. */
    method PlayRounds()
      requires IsValid() ==> CardsToShow(round) <= |cards|
      modifies this
      ensures players == old(players) && dealerPosition == old(dealerPosition)
      ensures !old(IsValid()) ==>
        cards == old(cards) && sharedCards == old(sharedCards) && round == old(round)
      ensures old(IsValid()) ==> round == River
      ensures old(IsValid()) ==>
        ShownFrom(old(cards), old(sharedCards), CardsToShow(old(round)), cards, sharedCards)
      ensures AllCards() == old(AllCards())
    {
      ghost var deck, shared := cards, sharedCards;
      ghost var shown: nat := 0;
      while IsValid()
        invariant players == old(players) && dealerPosition == old(dealerPosition)
        invariant !old(IsValid()) ==> shown == 0 && round == old(round)
        invariant old(IsValid()) ==> shown + CardsToShow(round) == CardsToShow(old(round)) <= |deck|
        invariant ShownFrom(deck, shared, shown, cards, sharedCards)
        decreases RoundsLeft(round)
      {
        ghost var current := round;
        CardsToShowSplits(current);
        var done := PlayRound(deck, shared, shown);
        shown := shown + RevealedIn(current);
        if done {
          break;
        }
      }
      ShowingKeepsTable(deck, shared, shown, cards, sharedCards, players);
    }

    /** `play_game` up to the point where the hands are compared: a game for
        `numPlayers` players, the shuffled deck `order`, the deal and the
        rounds. The source panics when the deck cannot serve every player
        and all shared cards, so the deck must hold enough cards. */
    static method PlayGame(numPlayers: U8, order: seq<Card>) returns (r: Result<Game, string>)
      requires |order| == 52 && multiset(order) == multiset(FullDeck())
      requires 2 * numPlayers + CardsToShow(PreFlop) <= 52
      ensures r.Err? <==> numPlayers < 2
      ensures r.Err? ==> r.error == "not enough players"
      ensures r.Ok? ==> fresh(r.value) && r.value.round == River && r.value.dealerPosition == 0
      ensures r.Ok? ==> r.value.players == DealtPlayers(PlayerSlots(1, numPlayers + 1), order, numPlayers)
      ensures r.Ok? ==> r.value.cards == order[..52 - 2 * numPlayers][..52 - 2 * numPlayers - 5]
      ensures r.Ok? ==> r.value.sharedCards == TurnedUpCards(order[..52 - 2 * numPlayers], 5)
      ensures r.Ok? ==> r.value.AllCards() == multiset(FullDeck())
    {
      r := New(numPlayers);
      if r.Err? {
        return;
      }
      var game := r.value;
      game.ShuffleCards(order);
      game.DealCards();
      DealtTableIsValid(PlayerSlots(1, numPlayers + 1), order);
      game.PlayRounds();
    }
  }

  /** After `PlayGame` with the deck `order`, player `i` holds the two cards
      from position `2 * i` from the top of the deck. */
  lemma DealtHandsFromOrder(order: seq<Card>, numPlayers: nat)
    requires |order| == 52 && 2 * numPlayers <= 52
    ensures var ps := DealtPlayers(PlayerSlots(1, numPlayers + 1), order, numPlayers);
      |ps| == numPlayers &&
      forall i :: 0 <= i < numPlayers ==> ps[i].hand == [order[51 - 2 * i], order[50 - 2 * i]]
  {
    DealtPlayersHands(PlayerSlots(1, numPlayers + 1), order, numPlayers);
  }

  /** After `PlayGame` with the deck `order`, the five shared cards are the
      ones below the dealt cards, in the order they were turned up. */
  lemma SharedFromOrder(order: seq<Card>, numPlayers: nat)
    requires |order| == 52 && 2 * numPlayers + 5 <= 52
    ensures var shared := TurnedUpCards(order[..52 - 2 * numPlayers], 5);
      |shared| == 5 && forall i :: 0 <= i < 5 ==> shared[i] == order[51 - 2 * numPlayers - i]
  {
    TurnedUpOrder(order[..52 - 2 * numPlayers], 5);
  }

  /** Once every player has been dealt to, more than one player holds cards,
      so the round loop runs. */
  lemma DealtTableIsValid(ps: seq<Player>, deck: seq<Card>)
    requires 2 <= |ps| && 2 * |ps| <= |deck|
    ensures HoldingCount(DealtPlayers(ps, deck, |ps|)) > 1
  {
    DealtPlayersHands(ps, deck, |ps|);
    var dealt := DealtPlayers(ps, deck, |ps|);
    forall i | 0 <= i < |dealt|
      ensures Holds(dealt[i])
    {
      assert dealt[i] == DealtTo(ps[i], deck, i);
    }
    HoldingCountAll(dealt);
  }
}
