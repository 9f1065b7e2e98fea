/** The blackjack rules engine (blackjack.go): hand valuation, dealing, the
    player's and the dealer's turns and the settlement of the wager. The chat
    messages the program sends along the way are not modelled; only the
    decisions and the state changes are. */
module Game {
  import opened Cards

  /** BlackjackHand: the cards one party holds, in the order dealt. */
  type Hand = seq<Card>

  /** The sum of the table points of the cards, every ace counted as 1. */
  function RawPoints(h: Hand): (p: int)
    ensures p >= 0
  {
    if h == [] then 0 else RawPoints(h[..|h| - 1]) + Points(h[|h| - 1].rank)
  }

  /** The number of cards whose rank is "Ace". */
  function AceCount(h: Hand): (n: nat)
    ensures n <= |h|
  {
    if h == [] then 0 else AceCount(h[..|h| - 1]) + if h[|h| - 1].rank == "Ace" then 1 else 0
  }

  /** HasAce: whether some card of the hand is an ace. */
  function HasAce(h: Hand): (b: bool)
    ensures b <==> exists i :: 0 <= i < |h| && h[i].rank == "Ace"
  {
    if h == [] then false
    else if h[0].rank == "Ace" then true
    else
      assert forall i :: 1 <= i < |h| ==> h[i] == h[1..][i - 1];
      HasAce(h[1..])
  }

  /** The promotion loop of Value: while an ace is left and 10 more does not bust,
      add 10 and use up that ace. */
  function Promote(value: int, aces: nat): (r: int)
    ensures value <= r
    ensures value <= 21 ==> r <= 21
    decreases aces
  {
    if aces > 0 && value + 10 <= 21 then Promote(value + 10, aces - 1) else value
  }

  /** Value: the hand's blackjack value. */
  function Value(h: Hand): (v: int)
    ensures RawPoints(h) <= v
    ensures RawPoints(h) <= 21 ==> v <= 21
  {
    Promote(RawPoints(h), AceCount(h))
  }

  lemma {:induction false} HasAceIffAceCount(h: Hand)
    ensures HasAce(h) <==> AceCount(h) > 0
  {
    if h != [] {
      var init := h[..|h| - 1];
      HasAceIffAceCount(init);
      assert forall i :: 0 <= i < |init| ==> init[i] == h[i];
    }
  }

  /** Every ace contributes at least its 1 point to the raw sum. */
  lemma {:induction false} RawAtLeastAces(h: Hand)
    ensures RawPoints(h) >= AceCount(h)
  {
    if h != [] {
      RawAtLeastAces(h[..|h| - 1]);
    }
  }

  /** Each card of the standard 52 is worth at least one point. */
  lemma {:induction false} RawAtLeastLength(h: Hand)
    requires forall c :: c in h ==> InPack(c)
    ensures RawPoints(h) >= |h|
  {
    if h != [] {
      assert h[|h| - 1] in h;
      assert forall c :: c in h[..|h| - 1] ==> c in h;
      RawAtLeastLength(h[..|h| - 1]);
    }
  }

  /** The closed form of Value: an ace is promoted to 11 exactly when the hand holds
      one and the raw sum is at most 11, and at most one ace is ever promoted. */
  lemma ValueClosedForm(h: Hand)
    ensures Value(h) == if HasAce(h) && RawPoints(h) <= 11 then RawPoints(h) + 10 else RawPoints(h)
  {
    HasAceIffAceCount(h);
    RawAtLeastAces(h);
    var v, n := RawPoints(h), AceCount(h);
    if n > 0 && v <= 11 {
      assert Promote(v, n) == Promote(v + 10, n - 1);
      assert n - 1 > 0 ==> v + 20 > 21;
    }
  }

  /** Value is the best hand the aces allow: counting any k of the aces as 11
      instead of 1 without going over 21 never beats it, and it stays within 21. */
  lemma ValueBest(h: Hand, k: nat)
    requires k <= AceCount(h) && RawPoints(h) + 10 * k <= 21
    ensures RawPoints(h) + 10 * k <= Value(h) <= 21
  {
    ValueClosedForm(h);
    HasAceIffAceCount(h);
    RawAtLeastAces(h);
  }

  /** Value is itself such a choice: some number of the aces counted as 11. */
  lemma ValueIsAChoice(h: Hand)
    ensures exists k :: 0 <= k <= AceCount(h) && Value(h) == RawPoints(h) + 10 * k
  {
    ValueClosedForm(h);
    HasAceIffAceCount(h);
    if HasAce(h) && RawPoints(h) <= 11 {
      assert Value(h) == RawPoints(h) + 10 * 1;
    } else {
      assert Value(h) == RawPoints(h) + 10 * 0;
    }
  }

  /** Worked examples: two aces make 12, an ace and a king make 21, and a
      hand without an ace is just its sum. */
  lemma ValueExamples()
    ensures Value([Card("Ace", "Hearts"), Card("Ace", "Spades")]) == 12
    ensures Value([Card("Ace", "Hearts"), Card("King", "Clubs")]) == 21
    ensures Value([Card("Ten", "Hearts"), Card("Nine", "Clubs"), Card("King", "Spades")]) == 29
  {
    var aa := [Card("Ace", "Hearts"), Card("Ace", "Spades")];
    var ak := [Card("Ace", "Hearts"), Card("King", "Clubs")];
    var tnk := [Card("Ten", "Hearts"), Card("Nine", "Clubs"), Card("King", "Spades")];
    assert aa[..1] == [Card("Ace", "Hearts")] && ak[..1] == aa[..1];
    assert tnk[..2] == [Card("Ten", "Hearts"), Card("Nine", "Clubs")] && tnk[..2][..1] == [Card("Ten", "Hearts")];
    assert RawPoints(aa) == 2 && AceCount(aa) == 2;
    assert RawPoints(ak) == 11 && AceCount(ak) == 1;
    assert RawPoints(tnk) == 29;
  }

  /** BlackjackHand.Value as the program computes it: a pass summing the points and
      counting the aces, then the promotion loop. */
  method CountValue(h: Hand) returns (value: int)
    ensures value == Value(h)
  {
    value := 0;
    var numAces := 0;
    for i := 0 to |h|
      invariant value == RawPoints(h[..i]) && numAces == AceCount(h[..i])
    {
      assert h[..i + 1][..i] == h[..i];
      value := value + Points(h[i].rank);
      if h[i].rank == "Ace" {
        numAces := numAces + 1;
      }
    }
    assert h[..|h|] == h;
    while numAces > 0 && value + 10 <= 21
      invariant Promote(value, numAces) == Value(h)
    {
      value := value + 10;
      numAces := numAces - 1;
    }
  }

  /** The dealer loop's condition. As written it hits on every value up to and
      including 17, so the soft-17 disjunct adds nothing. */
  function DealerHits(h: Hand): (hit: bool)
    ensures hit <==> Value(h) <= 17
  {
    Value(h) <= 17 || (Value(h) == 17 && HasAce(h))
  }

  /** The dealer hits a hard 17 (no ace) as well as a soft one. */
  lemma DealerHitsEverySeventeen()
    ensures var hard := [Card("Ten", "Hearts"), Card("Seven", "Clubs")];
            Value(hard) == 17 && !HasAce(hard) && DealerHits(hard)
    ensures var soft := [Card("Ace", "Hearts"), Card("Six", "Clubs")];
            Value(soft) == 17 && HasAce(soft) && DealerHits(soft)
  {
    var hard := [Card("Ten", "Hearts"), Card("Seven", "Clubs")];
    var soft := [Card("Ace", "Hearts"), Card("Six", "Clubs")];
    assert hard[..1] == [Card("Ten", "Hearts")] && soft[..1] == [Card("Ace", "Hearts")];
    assert hard[..1][..0] == [] && soft[..1][..0] == [];
    assert "Ten" != "Ace" && "Seven" != "Ace";
    assert AceCount(hard[..1]) == 0;
    assert AceCount(hard) == 0 && RawPoints(hard) == 17;
    assert AceCount(soft[..1]) == 1;
    assert AceCount(soft) == 1 && RawPoints(soft) == 7;
    assert hard[1..] == [Card("Seven", "Clubs")] && soft[0].rank == "Ace";
  }

  function Reversed(s: seq<Card>): (r: seq<Card>)
    ensures |r| == |s| && multiset(r) == multiset(s)
  {
    if s == [] then []
    else
      assert s == s[..|s| - 1] + [s[|s| - 1]];
      [s[|s| - 1]] + Reversed(s[..|s| - 1])
  }

  /** The dealer's loop on values: hit from the top of the deck while the loop
      condition holds. (The program panics if the deck runs out first; this
      function simply stops there.) The result is the dealer's hand and the deck. */
  function DealerPlay(dealer: Hand, deck: seq<Card>): (Hand, seq<Card>)
    decreases |deck|
  {
    if DealerHits(dealer) && deck != [] then
      DealerPlay(dealer + [deck[|deck| - 1]], deck[..|deck| - 1])
    else
      (dealer, deck)
  }

  /** The loop stops only when its condition fails or the deck is empty, and every
      card it takes goes to the hand. */
  lemma {:induction false} DealerPlayStops(dealer: Hand, deck: seq<Card>)
    ensures var (hand, rest) := DealerPlay(dealer, deck);
            (!DealerHits(hand) || rest == []) && |hand| + |rest| == |dealer| + |deck|
    decreases |deck|
  {
    if DealerHits(dealer) && deck != [] {
      DealerPlayStops(dealer + [deck[|deck| - 1]], deck[..|deck| - 1]);
    }
  }

  /** What the dealer leaves of the deck is a prefix of it: the dealer draws from the top. */
  lemma {:induction false} DealerPlayLeaves(dealer: Hand, deck: seq<Card>)
    ensures var rest := DealerPlay(dealer, deck).1;
            |rest| <= |deck| && rest == deck[..|rest|]
    decreases |deck|
  {
    if DealerHits(dealer) && deck != [] {
      var below := deck[..|deck| - 1];
      DealerPlayLeaves(dealer + [deck[|deck| - 1]], below);
      var m := |DealerPlay(dealer, deck).1|;
      assert below[..m] == deck[..m];
    }
  }

  /** The dealer's hand gains exactly the cards above what it leaves, topmost first. */
  lemma {:induction false} DealerPlayDraws(dealer: Hand, deck: seq<Card>)
    ensures var (hand, rest) := DealerPlay(dealer, deck);
            |rest| <= |deck| && hand == dealer + Reversed(deck[|rest|..])
    decreases |deck|
  {
    if DealerHits(dealer) && deck != [] {
      var n := |deck|;
      var top, below := deck[n - 1], deck[..n - 1];
      assert deck == below + [top];
      DealerPlayDraws(dealer + [top], below);
      ReversedTop(below, top, |DealerPlay(dealer, deck).1|);
    } else {
      assert deck[|deck|..] == [];
    }
  }

  /** Reversing a run that ends with the top card puts that card first. */
  lemma ReversedTop(below: seq<Card>, top: Card, m: nat)
    requires m <= |below|
    ensures Reversed((below + [top])[m..]) == [top] + Reversed(below[m..])
  {
    var d := (below + [top])[m..];
    assert d[..|d| - 1] == below[m..];
  }

  /** The dealer keeps every card it draws: hand and deck together hold the same cards. */
  lemma DealerPlayKeepsCards(dealer: Hand, deck: seq<Card>)
    ensures var (hand, rest) := DealerPlay(dealer, deck);
            multiset(hand) + multiset(rest) == multiset(dealer) + multiset(deck)
  {
    DealerPlayLeaves(dealer, deck);
    DealerPlayDraws(dealer, deck);
    var (hand, rest) := DealerPlay(dealer, deck);
    assert deck == rest + deck[|rest|..];
  }

  /** One round of the dealer's loop: while it hits and at least 18 raw points are
      within reach, the deck is not empty and the top card moves to the hand
      without changing the points within reach. */
  lemma DealerStep(dealer: Hand, deck: seq<Card>)
    requires DealerHits(dealer) && RawPoints(dealer) + RawPoints(deck) >= 18
    ensures deck != []
    ensures var n := |deck|;
            DealerPlay(dealer, deck) == DealerPlay(dealer + [deck[n - 1]], deck[..n - 1]) &&
            RawPoints(dealer + [deck[n - 1]]) + RawPoints(deck[..n - 1]) == RawPoints(dealer) + RawPoints(deck)
  {
    var n := |deck|;
    if n > 0 {
      assert (dealer + [deck[n - 1]])[..|dealer|] == dealer;
    }
  }

  /** When the dealer's hand and the deck hold at least 18 raw points between them,
      the loop never reaches the empty deck and ends on a value of 18 or more. */
  lemma {:induction false} DealerPlayEnds(dealer: Hand, deck: seq<Card>)
    requires RawPoints(dealer) + RawPoints(deck) >= 18
    ensures Value(DealerPlay(dealer, deck).0) >= 18
    decreases |deck|
  {
    if DealerHits(dealer) {
      DealerStep(dealer, deck);
      var n := |deck|;
      DealerPlayEnds(dealer + [deck[n - 1]], deck[..n - 1]);
    }
  }

  /** The outcome the program announces. */
  datatype Outcome = DealerWins | Draw | PlayerWins

  /** The winner as DisplayResults decides it: the dealer wins when the player has
      bust or the dealer's value is higher, it is a draw on equal values, and the
      player wins otherwise. A busted dealer is not a case of its own. */
  function Judge(playerValue: int, dealerValue: int): (o: Outcome)
    ensures o == DealerWins <==> playerValue > 21 || dealerValue > playerValue
    ensures o == Draw <==> playerValue <= 21 && dealerValue == playerValue
    ensures o == PlayerWins <==> playerValue <= 21 && dealerValue < playerValue
  {
    if playerValue > 21 || dealerValue > playerValue then DealerWins
    else if dealerValue == playerValue then Draw
    else PlayerWins
  }

  /** The usual casino rule, for comparison: a busted player loses, then a busted
      dealer loses, then the higher value wins. */
  function CasinoJudge(playerValue: int, dealerValue: int): Outcome
  {
    if playerValue > 21 then DealerWins
    else if dealerValue > 21 then PlayerWins
    else if dealerValue > playerValue then DealerWins
    else if dealerValue == playerValue then Draw
    else PlayerWins
  }

  /** The program's rule differs from the casino rule exactly when the player
      stands on 21 or less and the dealer busts: then the dealer still wins. */
  lemma JudgeAgainstCasino(playerValue: int, dealerValue: int)
    ensures Judge(playerValue, dealerValue) != CasinoJudge(playerValue, dealerValue)
            <==> playerValue <= 21 && dealerValue > 21
    ensures playerValue <= 21 && dealerValue > 21 ==>
              Judge(playerValue, dealerValue) == DealerWins && CasinoJudge(playerValue, dealerValue) == PlayerWins
  {
  }

  /** The wager after settlement: negated when the dealer wins, 0 on a draw,
      unchanged when the player wins. */
  function Payout(wager: int, o: Outcome): (r: int)
    ensures r == -wager || r == 0 || r == wager
    ensures wager >= 0 ==> (o == DealerWins ==> r <= 0) && (o == PlayerWins ==> r >= 0)
  {
    match o
    case DealerWins => -wager
    case Draw => 0
    case PlayerWins => wager
  }

  /** The three settlement cases on values. */
  lemma SettlementCases(wager: int, playerValue: int, dealerValue: int)
    ensures playerValue > 21 || dealerValue > playerValue ==>
              Payout(wager, Judge(playerValue, dealerValue)) == -wager
    ensures playerValue <= 21 && dealerValue == playerValue ==>
              Payout(wager, Judge(playerValue, dealerValue)) == 0
    ensures playerValue <= 21 && dealerValue < playerValue ==>
              Payout(wager, Judge(playerValue, dealerValue)) == wager
  {
  }

  /** The cards in the two hands and the deck are the cards of the pack they were
      dealt from, each once. */
  ghost predicate Dealt(playerHand: Hand, dealerHand: Hand, deck: seq<Card>, pack: seq<Card>)
  {
    IsStandardDeck(pack) && multiset(playerHand) + multiset(dealerHand) + multiset(deck) == multiset(pack)
  }

  /** No card is in two places at once: the hands and the deck are disjoint, and
      between them there are 52 cards. */
  lemma DealtDisjoint(playerHand: Hand, dealerHand: Hand, deck: seq<Card>, pack: seq<Card>)
    requires Dealt(playerHand, dealerHand, deck, pack)
    ensures |playerHand| + |dealerHand| + |deck| == 52
    ensures forall c :: c in playerHand ==> c !in dealerHand && c !in deck
    ensures forall c :: c in dealerHand ==> c !in deck
  {
    assert |multiset(playerHand) + multiset(dealerHand) + multiset(deck)| == |multiset(pack)|;
    forall c | c in playerHand || c in dealerHand || c in deck
      ensures multiset(playerHand)[c] + multiset(dealerHand)[c] + multiset(deck)[c] <= 1
    {
      DistinctOnce(pack, c);
    }
  }

  /** Every card dealt is one of the standard 52. */
  lemma DealtInPack(playerHand: Hand, dealerHand: Hand, deck: seq<Card>, pack: seq<Card>)
    requires Dealt(playerHand, dealerHand, deck, pack)
    ensures forall c :: c in playerHand || c in dealerHand || c in deck ==> InPack(c)
  {
    forall c | c in playerHand || c in dealerHand || c in deck ensures InPack(c) {
      assert c in multiset(pack);
    }
  }

  /** While the player has not bust, the dealer's hand and the deck hold at least
      18 raw points, so the dealer's loop cannot run the deck dry. */
  lemma EnoughForDealer(playerHand: Hand, dealerHand: Hand, deck: seq<Card>, pack: seq<Card>)
    requires Dealt(playerHand, dealerHand, deck, pack)
    requires Value(playerHand) <= 21
    ensures RawPoints(dealerHand) + RawPoints(deck) >= 18
  {
    DealtDisjoint(playerHand, dealerHand, deck, pack);
    DealtInPack(playerHand, dealerHand, deck, pack);
    RawAtLeastLength(playerHand);
    RawAtLeastLength(dealerHand);
    RawAtLeastLength(deck);
  }

  /** The two hands a card can be dealt to. */
  datatype Side = PlayerSide | DealerSide

  /** The shuffled order is a permutation of the standard pack. */
  ghost predicate OrderOfPack(order: seq<Card>, pack: seq<Card>)
  {
    IsStandardDeck(pack) && multiset(order) == multiset(pack)
  }

  /** The state of the table: the deck on top of the cards dealt so far (latest
      first) is the shuffled order, and the two hands hold exactly the dealt cards. */
  ghost predicate Table(playerHand: Hand, dealerHand: Hand, deck: seq<Card>, drawn: seq<Card>, order: seq<Card>)
  {
    deck + drawn == order && multiset(playerHand) + multiset(dealerHand) == multiset(drawn)
  }

  /** A table in that state is a valid deal of the pack. */
  lemma TableDealt(playerHand: Hand, dealerHand: Hand, deck: seq<Card>,
                   drawn: seq<Card>, order: seq<Card>, pack: seq<Card>)
    requires Table(playerHand, dealerHand, deck, drawn, order) && OrderOfPack(order, pack)
    ensures Dealt(playerHand, dealerHand, deck, pack)
  {
    assert multiset(deck + drawn) == multiset(deck) + multiset(drawn);
  }

  /** Dealing the top card of the deck to one side keeps the table in that state. */
  lemma DealTop(playerHand: Hand, dealerHand: Hand, below: seq<Card>, top: Card,
                drawn: seq<Card>, order: seq<Card>, side: Side)
    requires Table(playerHand, dealerHand, below + [top], drawn, order)
    ensures side == PlayerSide ==>
              Table(playerHand + [top], dealerHand, below, [top] + drawn, order)
    ensures side == DealerSide ==>
              Table(playerHand, dealerHand + [top], below, [top] + drawn, order)
  {
    assert below + ([top] + drawn) == below + [top] + drawn;
    assert multiset([top] + drawn) == multiset{top} + multiset(drawn);
    if side == PlayerSide {
      assert multiset(playerHand + [top]) == multiset(playerHand) + multiset{top};
    } else {
      assert multiset(dealerHand + [top]) == multiset(dealerHand) + multiset{top};
    }
  }

  /** The hands and the dealt cards after the four opening hits, written out. */
  lemma OpeningDeal(playerHand: Hand, dealerHand: Hand, drawn: seq<Card>, c1: Card, c2: Card, c3: Card, c4: Card)
    requires playerHand == [] + [c1] + [c2] && dealerHand == [] + [c3] + [c4]
    requires drawn == [c4] + ([c3] + ([c2] + ([c1] + [])))
    ensures |playerHand| == 2 && |dealerHand| == 2
    ensures drawn == [dealerHand[1], dealerHand[0], playerHand[1], playerHand[0]]
  {
    assert playerHand == [c1, c2] && dealerHand == [c3, c4];
  }

  /** A player's record; the engine carries it and never changes it. */
  datatype Player = Player(id: int, username: string, chips: int, wins: int, ties: int, losses: int)

  /** One game of blackjack between a player and the dealer. */
  class Blackjack {
    var player: Player
    var wager: int
    const deck: Deck
    var playerHand: Hand
    var dealerHand: Hand
    var isPlayersTurn: bool
    /** The 52 cards of the game, in the order the fresh deck was built. */
    ghost const pack: seq<Card>
    /** The deck as it was when the dealing began. */
    ghost var order: seq<Card>
    /** The cards dealt so far, latest first. */
    ghost var drawn: seq<Card>

    ghost predicate Valid()
      reads this, deck, deck.data
    {
      deck.Valid() && Table(playerHand, dealerHand, deck.Contents(), drawn, order)
    }

    /** The game's deck was dealt from a shuffle of the standard pack. */
    ghost predicate FromPack()
      reads this`order
    {
      OrderOfPack(order, pack)
    }

    /** The struct literal of NewBlackjack: the player, the wager, a fresh standard
        deck, two empty hands and the player to move. */
    constructor (player: Player, wager: int, deck: Deck, ghost pack: seq<Card>)
      requires deck.Valid() && deck.Contents() == pack && IsStandardDeck(pack)
      ensures Valid() && FromPack()
      ensures this.player == player && this.wager == wager && this.deck == deck
      ensures playerHand == [] && dealerHand == [] && isPlayersTurn
      ensures this.pack == pack && order == pack && drawn == []
    {
      this.player := player;
      this.wager := wager;
      this.deck := deck;
      playerHand := [];
      dealerHand := [];
      isPlayersTurn := true;
      this.pack := pack;
      order := pack;
      drawn := [];
      new;
      assert deck.Contents() + [] == pack;
    }

    /** NewBlackjack: a fresh standard deck, shuffled three times (p1, p2, p3 are
        the swap indices each shuffle draws), then the opening deal. */
    static method NewBlackjack(player: Player, wager: int, p1: seq<int>, p2: seq<int>, p3: seq<int>)
      returns (game: Blackjack)
      requires ValidPicks(p1, 52) && ValidPicks(p2, 52) && ValidPicks(p3, 52)
      ensures fresh(game) && fresh(game.deck) && fresh(game.deck.data) && game.Valid() && game.FromPack()
      ensures game.player == player && game.wager == wager && game.isPlayersTurn
      ensures |game.playerHand| == 2 && |game.dealerHand| == 2 && game.deck.len == 48
      ensures game.order == Shuffled(Shuffled(Shuffled(game.pack, p1), p2), p3)
      ensures Dealt(game.playerHand, game.dealerHand, game.deck.Contents(), game.pack)
      ensures game.drawn == [game.dealerHand[1], game.dealerHand[0], game.playerHand[1], game.playerHand[0]]
    {
      var cards := NewStandardDeck();
      var deck := new Deck(cards);
      game := new Blackjack(player, wager, deck, cards);
      game.ShuffleDeck(p1);
      game.ShuffleDeck(p2);
      game.ShuffleDeck(p3);
      game.DealOpening();
      TableDealt(game.playerHand, game.dealerHand, game.deck.Contents(), game.drawn, game.order, game.pack);
    }

    /** The opening deal of NewBlackjack: two cards off the top to the player, then
        two to the dealer, each appended as Hit does; the last one dealt is the
        first of the dealt cards. */
    method DealOpening()
      requires Valid() && drawn == [] && playerHand == [] && dealerHand == [] && deck.len >= 4
      modifies this, deck`len
      ensures Valid() && order == old(order) && deck.len == old(deck.len) - 4
      ensures player == old(player) && wager == old(wager) && isPlayersTurn == old(isPlayersTurn)
      ensures |playerHand| == 2 && |dealerHand| == 2
      ensures drawn == [dealerHand[1], dealerHand[0], playerHand[1], playerHand[0]]
    {
      ghost var c1 := deck.Contents()[deck.len - 1];
      Hit(PlayerSide);
      ghost var c2 := deck.Contents()[deck.len - 1];
      Hit(PlayerSide);
      ghost var c3 := deck.Contents()[deck.len - 1];
      Hit(DealerSide);
      ghost var c4 := deck.Contents()[deck.len - 1];
      Hit(DealerSide);
      OpeningDeal(playerHand, dealerHand, drawn, c1, c2, c3, c4);
    }

    /** Shuffle of the game's deck, before any card is dealt: the deck is shuffled
        in place and the table's order follows it. */
    method ShuffleDeck(picks: seq<int>)
      requires Valid() && FromPack() && drawn == [] && ValidPicks(picks, deck.len)
      modifies this, deck.data
      ensures Valid() && FromPack() && drawn == [] && order == Shuffled(old(order), picks)
      ensures deck.Contents() == Shuffled(old(deck.Contents()), picks)
      ensures player == old(player) && wager == old(wager)
      ensures playerHand == old(playerHand) && dealerHand == old(dealerHand) && isPlayersTurn == old(isPlayersTurn)
    {
      assert deck.Contents() + [] == deck.Contents();
      ShuffledPermutes(order, picks);
      deck.Shuffle(picks);
      order := deck.Contents();
      assert deck.Contents() + [] == order;
    }

    /** Hit: the top card of the deck goes to the end of the chosen hand. An empty
        deck panics. */
    method Hit(side: Side)
      requires Valid() && deck.len > 0
      modifies this, deck`len
      ensures Valid() && deck.len == old(deck.len) - 1
      ensures order == old(order)
      ensures player == old(player) && wager == old(wager) && isPlayersTurn == old(isPlayersTurn)
      ensures var top := old(deck.Contents())[old(deck.len) - 1];
              old(deck.Contents()) == deck.Contents() + [top] && drawn == [top] + old(drawn) &&
              (side == PlayerSide ==> playerHand == old(playerHand) + [top] && dealerHand == old(dealerHand)) &&
              (side == DealerSide ==> dealerHand == old(dealerHand) + [top] && playerHand == old(playerHand))
    {
      var card := deck.DealCard();
      DealTop(playerHand, dealerHand, deck.Contents(), card, drawn, order, side);
      if side == PlayerSide {
        playerHand := playerHand + [card];
      } else {
        dealerHand := dealerHand + [card];
      }
      drawn := [card] + drawn;
    }

    /** The settlement of DisplayResults: the wager is rewritten to what the
        player gains, by the winner of the two hands' values. */
    method SettleWager()
      modifies this`wager
      ensures wager == Payout(old(wager), Judge(Value(playerHand), Value(dealerHand)))
    {
      if Value(playerHand) > 21 || Value(dealerHand) > Value(playerHand) {
        wager := wager * -1;
      } else if Value(dealerHand) == Value(playerHand) {
        wager := 0;
      }
    }

    /** RunDealerTurn: the dealer hits while its loop condition holds, then the
        game is settled. It is reached only while the player has not bust. */
    method RunDealerTurn()
      requires Valid() && FromPack() && Value(playerHand) <= 21
      modifies this, deck`len
      ensures Valid() && order == old(order)
      ensures (dealerHand, deck.Contents()) == DealerPlay(old(dealerHand), old(deck.Contents()))
      ensures Value(dealerHand) >= 18
      ensures playerHand == old(playerHand) && player == old(player) && isPlayersTurn == old(isPlayersTurn)
      ensures wager == Payout(old(wager), Judge(Value(playerHand), Value(dealerHand)))
    {
      TableDealt(playerHand, dealerHand, deck.Contents(), drawn, order, pack);
      EnoughForDealer(playerHand, dealerHand, deck.Contents(), pack);
      while DealerHits(dealerHand)
        invariant Valid() && order == old(order)
        invariant DealerPlay(dealerHand, deck.Contents()) == DealerPlay(old(dealerHand), old(deck.Contents()))
        invariant RawPoints(dealerHand) + RawPoints(deck.Contents()) >= 18
        invariant playerHand == old(playerHand) && player == old(player) && wager == old(wager)
        invariant isPlayersTurn == old(isPlayersTurn)
        decreases deck.len
      {
        DealerStep(dealerHand, deck.Contents());
        Hit(DealerSide);
      }
      SettleWager();
    }

    /** RunPlayerTurn: below 21 the player is prompted again and nothing changes;
        on a bust the game is settled; on 21 the dealer plays. Either way the
        player's turn is then over. */
    method RunPlayerTurn()
      requires Valid() && FromPack()
      modifies this, deck`len
      ensures Valid() && order == old(order) && player == old(player)
      ensures playerHand == old(playerHand)
      ensures old(Value(playerHand)) < 21 ==>
                unchanged(this) && deck.Contents() == old(deck.Contents())
      ensures old(Value(playerHand)) > 21 ==>
                !isPlayersTurn && dealerHand == old(dealerHand) && deck.Contents() == old(deck.Contents()) &&
                wager == -old(wager)
      ensures old(Value(playerHand)) == 21 ==>
                !isPlayersTurn &&
                (dealerHand, deck.Contents()) == DealerPlay(old(dealerHand), old(deck.Contents())) &&
                Value(dealerHand) >= 18 &&
                wager == Payout(old(wager), Judge(21, Value(dealerHand)))
    {
      if Value(playerHand) < 21 {
        return;
      } else if Value(playerHand) > 21 {
        SettleWager();
      } else {
        RunDealerTurn();
      }
      isPlayersTurn := false;
    }
  }
}
