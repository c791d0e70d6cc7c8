/**
 * The card rules of js/games/blackjack.js: card and hand values, blackjack,
 * the contents of an unshuffled shoe, and the settlement table of a round.
 */
module Cards {

  datatype Suit = Spades | Hearts | Diamonds | Clubs

  datatype Rank = Ace | Two | Three | Four | Five | Six | Seven | Eight | Nine | Ten | Jack | Queen | King

  datatype Card = Card(rank: Rank, suit: Suit)

  /** The order in which `buildShoe` lays out suits and ranks. */
  const SUITS: seq<Suit> := [Spades, Hearts, Diamonds, Clubs]
  const RANKS: seq<Rank> := [Ace, Two, Three, Four, Five, Six, Seven, Eight, Nine, Ten, Jack, Queen, King]

  /** `cardValue`: an ace counts 11, a face card 10, any other card its number. */
  function CardValue(c: Card): (v: int)
    ensures 2 <= v <= 11
    ensures v == 11 <==> c.rank == Ace
    ensures v == 10 <==> c.rank in {Ten, Jack, Queen, King}
  {
    match c.rank
    case Ace => 11
    case Jack | Queen | King => 10
    case Two => 2
    case Three => 3
    case Four => 4
    case Five => 5
    case Six => 6
    case Seven => 7
    case Eight => 8
    case Nine => 9
    case Ten => 10
  }

  /** A number card is worth its number, which is its place in the rank list. */
  lemma NumberCardValue(c: Card)
    requires c.rank !in {Ace, Jack, Queen, King}
    ensures 1 <= CardValue(c) - 1 < |RANKS| && RANKS[CardValue(c) - 1] == c.rank
  {
  }

  /** The sum of the card values, every ace counted 11: between 2 and 11 per card. */
  function RawSum(hand: seq<Card>): (sum: int)
    ensures 2 * |hand| <= sum <= 11 * |hand|
  {
    if hand == [] then 0 else RawSum(hand[..|hand| - 1]) + CardValue(hand[|hand| - 1])
  }

  /**
   * The number of aces in a hand. Each of them adds 11 to the raw sum, every
   * other card between 2 and 10.
   */
  function Aces(hand: seq<Card>): (aces: nat)
    ensures aces <= |hand|
    ensures 11 * aces + 2 * (|hand| - aces) <= RawSum(hand) <= 11 * aces + 10 * (|hand| - aces)
  {
    if hand == [] then 0 else Aces(hand[..|hand| - 1]) + (if hand[|hand| - 1].rank == Ace then 1 else 0)
  }

  /** The total with every ace counted 1. */
  function HardTotal(hand: seq<Card>): int {
    RawSum(hand) - 10 * Aces(hand)
  }

  /**
   * The reduction loop of `handValue`: take 10 off for one ace at a time while
   * the total is over 21. The result uses the fewest aces as 1 that bring the
   * total to 21 or less, or all of them when none suffices.
   */
  function Reduce(total: int, aces: nat): (r: int)
    ensures total - 10 * aces <= r <= total
    ensures (total - r) % 10 == 0
    ensures r > 21 ==> r == total - 10 * aces
    ensures r < total ==> r + 10 > 21
    decreases aces
  {
    if total > 21 && aces > 0 then Reduce(total - 10, aces - 1) else total
  }

  /**
   * The value `handValue` computes: the raw sum with as few aces counted 1 as
   * bring it to 21 or less, or the hard total when no choice does.
   */
  function Total(hand: seq<Card>): (total: int)
    ensures HardTotal(hand) <= total <= RawSum(hand)
    ensures HardTotal(hand) <= 21 ==> total <= 21
    ensures total > 21 ==> total == HardTotal(hand)
    ensures total < RawSum(hand) ==> total + 10 > 21
  {
    Reduce(RawSum(hand), Aces(hand))
  }

  /** `handValue`: sums the cards, then counts aces as 1 while the hand is bust. */
  method HandValue(hand: seq<Card>) returns (total: int)
    ensures total == Total(hand)
  {
    total := 0;
    var aces := 0;
    var i := 0;
    while i < |hand|
      invariant 0 <= i <= |hand|
      invariant total == RawSum(hand[..i]) && aces == Aces(hand[..i])
    {
      assert hand[..i + 1][..i] == hand[..i];
      total := total + CardValue(hand[i]);
      if hand[i].rank == Ace {
        aces := aces + 1;
      }
      i := i + 1;
    }
    assert hand[..|hand|] == hand;
    while total > 21 && aces > 0
      invariant Reduce(total, aces) == Total(hand)
    {
      total := total - 10;
      aces := aces - 1;
    }
  }

  /** `isBlackjack`: two cards worth 21, which is two cards summing 21 with one ace counted 11. */
  predicate IsBlackjack(hand: seq<Card>): (b: bool)
    ensures b <==> |hand| == 2 && RawSum(hand) == 21
    ensures b ==> Aces(hand) == 1
  {
    |hand| == 2 && Total(hand) == 21
  }

  /** A blackjack is exactly an ace with a ten-valued card, in either order. */
  lemma BlackjackIsAceAndTen(hand: seq<Card>)
    requires |hand| == 2
    ensures IsBlackjack(hand) <==>
      (hand[0].rank == Ace && CardValue(hand[1]) == 10) || (CardValue(hand[0]) == 10 && hand[1].rank == Ace)
  {
    var first := hand[..1];
    assert hand[..|hand| - 1] == first && first[..0] == [] && first[0] == hand[0];
    assert RawSum(first) == CardValue(hand[0]) && Aces(first) == (if hand[0].rank == Ace then 1 else 0);
  }

  /** Adding a card raises the hard total by at least one. */
  lemma HardTotalGrows(hand: seq<Card>, c: Card)
    ensures HardTotal(hand + [c]) >= HardTotal(hand) + 1
  {
    assert (hand + [c])[..|hand|] == hand;
  }

  // ---------------------------------------------------------------------------
  // The shoe before shuffling

  /** The cards of one suit, in the order of `ranks`. */
  function Row(ranks: seq<Rank>, suit: Suit): (row: seq<Card>)
    ensures |row| == |ranks|
  {
    seq(|ranks|, i requires 0 <= i < |ranks| => Card(ranks[i], suit))
  }

  /** A full row of `ranks` for each of `suits`, in order. */
  function Suited(ranks: seq<Rank>, suits: seq<Suit>): (cards: seq<Card>)
    ensures |cards| == |ranks| * |suits|
  {
    if suits == [] then [] else Suited(ranks, suits[..|suits| - 1]) + Row(ranks, suits[|suits| - 1])
  }

  /** One deck as the nested loops of `buildShoe` push it. */
  function Deck(): seq<Card> {
    Suited(RANKS, SUITS)
  }

  /** `decks` decks one after another, before the shuffle. */
  function Unshuffled(decks: nat): (shoe: seq<Card>)
    ensures |shoe| == 52 * decks
  {
    if decks == 0 then [] else Unshuffled(decks - 1) + Deck()
  }

  lemma {:induction false} RowCount(ranks: seq<Rank>, suit: Suit, c: Card)
    ensures multiset(Row(ranks, suit))[c] == if c.suit == suit then multiset(ranks)[c.rank] else 0
  {
    if ranks != [] {
      var n := |ranks| - 1;
      RowCount(ranks[..n], suit, c);
      assert ranks == ranks[..n] + [ranks[n]];
      assert Row(ranks, suit) == Row(ranks[..n], suit) + [Card(ranks[n], suit)];
    }
  }

  lemma {:induction false} SuitedCount(ranks: seq<Rank>, suits: seq<Suit>, c: Card)
    requires multiset(ranks)[c.rank] == 1
    ensures multiset(Suited(ranks, suits))[c] == multiset(suits)[c.suit]
  {
    if suits != [] {
      var n := |suits| - 1;
      SuitedCount(ranks, suits[..n], c);
      RowCount(ranks, suits[n], c);
      assert suits == suits[..n] + [suits[n]];
    }
  }

  /** The rank order split in two, so that each half is counted on its own. */
  lemma RanksInHalves()
    ensures RANKS == [Ace, Two, Three, Four, Five, Six] + [Seven, Eight, Nine, Ten, Jack, Queen, King]
  {
  }

  lemma LowRanksOnce(r: Rank)
    ensures multiset([Ace, Two, Three, Four, Five, Six])[r] == if r in {Ace, Two, Three, Four, Five, Six} then 1 else 0
  {
  }

  lemma HighRanksOnce(r: Rank)
    ensures multiset([Seven, Eight, Nine, Ten, Jack, Queen, King])[r] == if r in {Seven, Eight, Nine, Ten, Jack, Queen, King} then 1 else 0
  {
  }

  /** Every rank appears once in the layout order. */
  lemma RankOnce(r: Rank)
    ensures multiset(RANKS)[r] == 1
  {
    RanksInHalves();
    LowRanksOnce(r);
    HighRanksOnce(r);
  }

  /** Every suit appears once in the layout order. */
  lemma SuitOnce(s: Suit)
    ensures multiset(SUITS)[s] == 1
  {
  }

  /** One deck holds every rank and suit pair once. */
  lemma DeckOnce(c: Card)
    ensures multiset(Deck())[c] == 1
  {
    RankOnce(c.rank);
    SuitOnce(c.suit);
    SuitedCount(RANKS, SUITS, c);
  }

  /** A shoe of `decks` decks holds every rank and suit pair exactly `decks` times. */
  lemma {:induction false} UnshuffledCount(decks: nat, c: Card)
    ensures multiset(Unshuffled(decks))[c] == decks
  {
    if decks > 0 {
      UnshuffledCount(decks - 1, c);
      DeckOnce(c);
    }
  }

  // ---------------------------------------------------------------------------
  // Settlement

  /**
   * The win of a finished round, checked in the order of `finishRound`: player
   * bust, dealer bust, player blackjack, dealer blackjack, higher, lower, push.
   * `Math.floor(bet * 2.5)` is `(5 * bet) / 2` for a whole-number bet.
   */
  function Settle(player: seq<Card>, dealer: seq<Card>, bet: int, doubled: bool): (win: int)
    ensures Total(player) > 21 ==> win == 0
    ensures bet >= 0 ==> 0 <= win <= 4 * bet
    ensures bet > 0 && win > bet ==>
      Total(player) <= 21 && (Total(dealer) > 21 || Total(player) > Total(dealer) || (IsBlackjack(player) && !IsBlackjack(dealer)))
  {
    var p := Total(player);
    var d := Total(dealer);
    var even := bet * (if doubled then 4 else 2);
    if p > 21 then 0
    else if d > 21 then even
    else if IsBlackjack(player) && !IsBlackjack(dealer) then (5 * bet) / 2
    else if IsBlackjack(dealer) && !IsBlackjack(player) then 0
    else if p > d then even
    else if p < d then 0
    else bet
  }

  /** A bust player loses the stake even when the dealer busts too. */
  lemma BustLosesAgainstBust(player: seq<Card>, dealer: seq<Card>, bet: int, doubled: bool)
    requires Total(player) > 21 && Total(dealer) > 21
    ensures Settle(player, dealer, bet, doubled) == 0
  {
  }

  /** A dealer bust is checked first, so a player blackjack against it pays 2x, not 2.5x. */
  lemma DealerBustBeforeBlackjack(player: seq<Card>, dealer: seq<Card>, bet: int)
    requires IsBlackjack(player) && Total(dealer) > 21
    ensures Settle(player, dealer, bet, false) == 2 * bet
  {
  }

  /** A blackjack against a standing dealer without one pays 3:2 on top of the stake, rounded down. */
  lemma BlackjackPaysThreeToTwo(player: seq<Card>, dealer: seq<Card>, bet: int, doubled: bool)
    requires IsBlackjack(player) && !IsBlackjack(dealer) && Total(dealer) <= 21
    ensures var win := Settle(player, dealer, bet, doubled); 2 * win <= 5 * bet < 2 * win + 2
  {
  }

  /** A standing player against a dealer bust wins twice the stake, four times on a doubled hand, blackjack or not. */
  lemma DealerBustPays(player: seq<Card>, dealer: seq<Card>, bet: int, doubled: bool)
    requires Total(player) <= 21 && Total(dealer) > 21
    ensures Settle(player, dealer, bet, doubled) == (if doubled then 4 else 2) * bet
  {
  }

  /** A dealer blackjack beats every standing hand that is not a blackjack, a three-card 21 included. */
  lemma DealerBlackjackWins(player: seq<Card>, dealer: seq<Card>, bet: int, doubled: bool)
    requires Total(player) <= 21 && IsBlackjack(dealer) && !IsBlackjack(player)
    ensures Settle(player, dealer, bet, doubled) == 0
  {
  }

  /** Equal totals, two blackjacks included, return exactly the stake, even on a doubled hand. */
  lemma PushReturnsStake(player: seq<Card>, dealer: seq<Card>, bet: int, doubled: bool)
    requires Total(player) == Total(dealer) <= 21
    requires IsBlackjack(player) == IsBlackjack(dealer)
    ensures Settle(player, dealer, bet, doubled) == bet
  {
  }

  /** A higher total wins twice the stake, four times on a doubled hand; a lower one loses it. */
  lemma HigherWinsLowerLoses(player: seq<Card>, dealer: seq<Card>, bet: int, doubled: bool)
    requires Total(player) <= 21 && Total(dealer) <= 21
    requires !IsBlackjack(player) && !IsBlackjack(dealer)
    ensures Total(player) > Total(dealer) ==> Settle(player, dealer, bet, doubled) == (if doubled then 4 else 2) * bet
    ensures Total(player) < Total(dealer) ==> Settle(player, dealer, bet, doubled) == 0
  {
  }
}
