/** Playing cards and the deck they are dealt from (card.go).
    Ranks and suits stay strings, as in the program: the rank names are the
    keys of the points table, and a lookup of a name that is not a key gives
    0, the zero value of a map lookup. */
module Cards {

  /** A single playing card. */
  datatype Card = Card(rank: string, suit: string)

  /** The points table: each rank name mapped to its base value. */
  const Ranks: map<string, int> :=
    map["Ace" := 1, "Two" := 2, "Three" := 3, "Four" := 4, "Five" := 5, "Six" := 6, "Seven" := 7,
        "Eight" := 8, "Nine" := 9, "Ten" := 10, "Jack" := 10, "Queen" := 10, "King" := 10]

  /** The rank names in their usual order (used only to state the table's shape). */
  const RankNames: seq<string> :=
    ["Ace", "Two", "Three", "Four", "Five", "Six", "Seven", "Eight", "Nine", "Ten", "Jack", "Queen", "King"]

  /** The four suits, in the order the standard deck is built. */
  const Suits: seq<string> := ["Hearts", "Clubs", "Diamonds", "Spades"]

  /** The table's shape: 13 ranks, Ace..Ten worth 1..10, the court cards 10. */
  lemma RanksTable()
    ensures forall i :: 0 <= i < |RankNames| ==> RankNames[i] in Ranks && Ranks[RankNames[i]] == if i < 10 then i + 1 else 10
    ensures forall r :: r in Ranks ==> r in RankNames
  {
  }

  /** The table has exactly 13 keys. */
  lemma RankCount()
    ensures |Ranks| == 13
  {
    var m0: map<string, int> := map[];
    assert "Ace" !in m0;
    var m1 := m0["Ace" := 1];
    assert "Two" !in m1;
    var m2 := m1["Two" := 2];
    assert "Three" !in m2;
    var m3 := m2["Three" := 3];
    assert "Four" !in m3;
    var m4 := m3["Four" := 4];
    assert "Five" !in m4;
    var m5 := m4["Five" := 5];
    assert "Six" !in m5;
    var m6 := m5["Six" := 6];
    assert "Seven" !in m6;
    var m7 := m6["Seven" := 7];
    assert "Eight" !in m7;
    var m8 := m7["Eight" := 8];
    assert "Nine" !in m8;
    var m9 := m8["Nine" := 9];
    assert "Ten" !in m9;
    var m10 := m9["Ten" := 10];
    assert "Jack" !in m10;
    var m11 := m10["Jack" := 10];
    assert "Queen" !in m11;
    var m12 := m11["Queen" := 10];
    assert "King" !in m12;
    var m13 := m12["King" := 10];
    assert m13 == Ranks;
  }

  /** The points of a rank: its table entry, or 0 for a name that is not in the table. */
  function Points(rank: string): (p: int)
    ensures rank in Ranks ==> 1 <= p <= 10
    ensures rank !in Ranks ==> p == 0
    ensures p == 1 <==> rank == "Ace"
  {
    if rank in Ranks then Ranks[rank] else 0
  }

  /** A card of the standard 52: a rank of the table and one of the four suits. */
  predicate InPack(c: Card)
  {
    c.rank in Ranks && c.suit in Suits
  }

  predicate Distinct(s: seq<Card>)
  {
    forall i, j :: 0 <= i < j < |s| ==> s[i] != s[j]
  }

  /** Exactly the standard 52 cards, each once, in any order. */
  ghost predicate IsStandardDeck(s: seq<Card>)
  {
    |s| == 52 && Distinct(s) && forall c :: c in s <==> InPack(c)
  }

  /** In a sequence of distinct cards every card occurs at most once. */
  lemma {:induction false} DistinctOnce(s: seq<Card>, c: Card)
    requires Distinct(s)
    ensures multiset(s)[c] <= 1
  {
    if s != [] {
      var t := s[1..];
      assert s == [s[0]] + t;
      assert Distinct(t);
      DistinctOnce(t, c);
      if s[0] == c {
        assert c !in t by {
          forall k | 0 <= k < |t| ensures t[k] != c {
            assert s[0] != s[k + 1];
          }
        }
      }
    }
  }

  /** Card.String: the rank, " of ", then the suit. */
  function CardText(c: Card): (s: string)
    ensures |s| == |c.rank| + 4 + |c.suit|
    ensures s[..|c.rank|] == c.rank && s[|s| - |c.suit|..] == c.suit
  {
    c.rank + " of " + c.suit
  }

  /** The text of a deck: the card texts joined by ",\n", no separator after the last. */
  function DeckText(cards: seq<Card>): (s: string)
    ensures s == "" <==> cards == []
  {
    if |cards| == 0 then ""
    else if |cards| == 1 then CardText(cards[0])
    else DeckText(cards[..|cards| - 1]) + ",\n" + CardText(cards[|cards| - 1])
  }

  /** Joining two non-empty runs of cards puts exactly one separator between their texts. */
  lemma {:induction false} DeckTextAppend(a: seq<Card>, b: seq<Card>)
    requires a != [] && b != []
    ensures DeckText(a + b) == DeckText(a) + ",\n" + DeckText(b)
  {
    var ab := a + b;
    if |b| == 1 {
      assert ab[..|ab| - 1] == a;
    } else {
      var b' := b[..|b| - 1];
      assert ab[..|ab| - 1] == a + b';
      DeckTextAppend(a, b');
    }
  }

  /** Read from the front: the first card's text, one separator, then the text of
      the rest. */
  lemma DeckTextFront(cards: seq<Card>)
    requires |cards| > 1
    ensures DeckText(cards) == CardText(cards[0]) + ",\n" + DeckText(cards[1..])
  {
    var first, rest := [cards[0]], cards[1..];
    assert first + rest == cards;
    assert DeckText(first) == CardText(cards[0]);
    DeckTextAppend(first, rest);
  }

  /** The text has one entry per card and one two-character separator between neighbours. */
  lemma {:induction false} DeckTextLength(cards: seq<Card>)
    ensures |DeckText(cards)| == TextLengths(cards) + if cards == [] then 0 else 2 * (|cards| - 1)
  {
    if |cards| > 1 {
      DeckTextLength(cards[..|cards| - 1]);
    }
  }

  /** The summed lengths of the card texts. */
  function TextLengths(cards: seq<Card>): nat
  {
    if cards == [] then 0 else TextLengths(cards[..|cards| - 1]) + |CardText(cards[|cards| - 1])|
  }

  /** NewStandardDeck: for each suit in order, one card per key of the points table. */
  method NewStandardDeck() returns (deck: seq<Card>)
    ensures IsStandardDeck(deck)
  {
    deck := [];
    for si := 0 to |Suits|
      invariant |deck| == 13 * si
      invariant Distinct(deck)
      invariant forall c :: c in deck <==> c.rank in Ranks && c.suit in Suits[..si]
    {
      assert Suits[si] !in Suits[..si];
      deck := AppendSuit(deck, Suits[si]);
      assert Suits[..si + 1] == Suits[..si] + [Suits[si]];
    }
    assert Suits[..4] == Suits;
  }

  /** The inner loop of NewStandardDeck: one card of the suit per key of the points
      table. The table is a map, so the order of the ranks is whatever its
      iteration yields; the choice below stands for that order. */
  method AppendSuit(deck: seq<Card>, suit: string) returns (r: seq<Card>)
    requires Distinct(deck) && forall c :: c in deck ==> c.suit != suit
    ensures |r| == |deck| + 13 && Distinct(r)
    ensures forall c :: c in r <==> c in deck || (c.suit == suit && c.rank in Ranks)
  {
    RankCount();
    r := deck;
    var remaining := Ranks.Keys;
    while remaining != {}
      invariant remaining <= Ranks.Keys
      invariant |r| == |deck| + 13 - |remaining|
      invariant Distinct(r)
      invariant forall c :: c in r <==> c in deck || (c.suit == suit && c.rank in Ranks && c.rank !in remaining)
    {
      var rank :| rank in remaining;
      r := r + [Card(rank, suit)];
      remaining := remaining - {rank};
    }
  }

  /** The deck with positions i and j exchanged. */
  function Swap(s: seq<Card>, i: nat, j: nat): (r: seq<Card>)
    requires i < |s| && j < |s|
    ensures |r| == |s| && r[i] == s[j] && r[j] == s[i]
    ensures forall k :: 0 <= k < |s| && k != i && k != j ==> r[k] == s[k]
  {
    seq(|s|, k requires 0 <= k < |s| => if k == i then s[j] else if k == j then s[i] else s[k])
  }

  /** An exchange keeps the cards: the same multiset before and after. */
  lemma SwapPermutes(s: seq<Card>, i: nat, j: nat)
    requires i < |s| && j < |s|
    ensures multiset(Swap(s, i, j)) == multiset(s)
  {
    assert Swap(s, i, j) == s[i := s[j]][j := s[i]];
  }

  /** The swap indices one shuffle draws: one index in [0, n) for each position. */
  predicate ValidPicks(picks: seq<int>, n: int)
  {
    |picks| == n && forall k :: 0 <= k < |picks| ==> 0 <= picks[k] < n
  }

  /** The deck after the shuffle's swaps for positions 0 .. k-1, each position
      swapped with its pick in turn. */
  function SwapsUpTo(s: seq<Card>, picks: seq<int>, k: nat): (r: seq<Card>)
    requires ValidPicks(picks, |s|) && k <= |s|
    ensures |r| == |s|
  {
    if k == 0 then s else Swap(SwapsUpTo(s, picks, k - 1), k - 1, picks[k - 1])
  }

  /** Whatever the picks, the swaps keep the cards: a permutation. */
  lemma {:induction false} SwapsUpToPermutes(s: seq<Card>, picks: seq<int>, k: nat)
    requires ValidPicks(picks, |s|) && k <= |s|
    ensures multiset(SwapsUpTo(s, picks, k)) == multiset(s)
  {
    if k > 0 {
      SwapPermutes(SwapsUpTo(s, picks, k - 1), k - 1, picks[k - 1]);
      SwapsUpToPermutes(s, picks, k - 1);
    }
  }

  /** The whole shuffle: every position swapped with its pick, front to back. */
  function Shuffled(s: seq<Card>, picks: seq<int>): (r: seq<Card>)
    requires ValidPicks(picks, |s|)
    ensures |r| == |s|
  {
    SwapsUpTo(s, picks, |s|)
  }

  lemma ShuffledPermutes(s: seq<Card>, picks: seq<int>)
    requires ValidPicks(picks, |s|)
    ensures multiset(Shuffled(s, picks)) == multiset(s)
  {
    SwapsUpToPermutes(s, picks, |s|);
  }

  /** A deck: a backing array whose first len cards are the deck, as a slice is. */
  class Deck {
    const data: array<Card>
    var len: nat

    ghost predicate Valid()
      reads this
    {
      len <= data.Length
    }

    /** The cards of the deck, bottom first; the top card is the last. */
    ghost function Contents(): seq<Card>
      reads this, data
      requires Valid()
    {
      data[..len]
    }

    constructor (cards: seq<Card>)
      ensures Valid() && fresh(data) && Contents() == cards
    {
      data := new Card[|cards|](i requires 0 <= i < |cards| => cards[i]);
      len := |cards|;
    }

    /** Shuffle: swaps each position with the caller's pick for it, in place. */
    method Shuffle(picks: seq<int>)
      requires Valid() && ValidPicks(picks, len)
      modifies data
      ensures Valid() && Contents() == Shuffled(old(Contents()), picks)
    {
      var i := 0;
      while i < len
        invariant 0 <= i <= len
        invariant data[..len] == SwapsUpTo(old(Contents()), picks, i)
      {
        Exchange(i, picks[i]);
        i := i + 1;
      }
    }

    /** One step of the shuffle: the cards at positions i and j trade places. */
    method Exchange(i: nat, j: nat)
      requires Valid() && i < len && j < len
      modifies data
      ensures Contents() == Swap(old(Contents()), i, j)
    {
      data[i], data[j] := data[j], data[i];
    }

    /** DealCard: removes and returns the top (last) card; an empty deck panics. */
    method DealCard() returns (card: Card)
      requires Valid() && len > 0
      modifies this`len
      ensures Valid() && old(Contents()) == Contents() + [card]
    {
      card := data[len - 1];
      len := len - 1;
      assert data[..len + 1] == data[..len] + [card];
    }

    /** Deck.String: the card texts, one per line, separated by ",\n". */
    method String() returns (s: string)
      requires Valid()
      ensures s == DeckText(Contents())
    {
      s := "";
      var i := 0;
      while i < len
        invariant 0 <= i <= len
        invariant s == DeckText(data[..i]) + if 0 < i < len then ",\n" else ""
      {
        s := s + CardText(data[i]);
        if i < len - 1 {
          s := s + ",\n";
        }
        assert data[..i + 1][..i] == data[..i];
        i := i + 1;
      }
      assert data[..len] == Contents();
    }
  }
}
