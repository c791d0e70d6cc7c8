/**
 * The round flow of js/games/blackjack.js: the shoe (built, shuffled, drawn from),
 * the bet and double gates, the dealer's draw-to-17 loop and the settlement.
 * The module-level variables of the script are the fields of `Table`; the
 * current profile name is passed to every handler.
 */
module Blackjack {
  import opened Wrappers
  import opened Storage
  import opened Wallet
  import opened Random
  import opened Cards

  /** The number of decks in the shoe and the count below which it is rebuilt. */
  const DECKS := 6
  const RESHUFFLE_BELOW := 60

  /** The innermost push loop of `buildShoe`: one card of `suit` per rank. */
  method PushRow(s: seq<Card>, suit: Suit) returns (t: seq<Card>)
    ensures t == s + Row(RANKS, suit)
  {
    t := s;
    var m := 0;
    while m < |RANKS|
      invariant 0 <= m <= |RANKS|
      invariant t == s + Row(RANKS[..m], suit)
    {
      assert Row(RANKS[..m + 1], suit) == Row(RANKS[..m], suit) + [Card(RANKS[m], suit)];
      t := t + [Card(RANKS[m], suit)];
      m := m + 1;
    }
    assert RANKS[..m] == RANKS;
  }

  /** The middle push loop of `buildShoe`: one row per suit. */
  method PushDeck(s: seq<Card>) returns (t: seq<Card>)
    ensures t == s + Deck()
  {
    t := s;
    var k := 0;
    while k < |SUITS|
      invariant 0 <= k <= |SUITS|
      invariant t == s + Suited(RANKS, SUITS[..k])
    {
      t := PushRow(t, SUITS[k]);
      assert SUITS[..k + 1][..k] == SUITS[..k];
      assert Suited(RANKS, SUITS[..k + 1]) == Suited(RANKS, SUITS[..k]) + Row(RANKS, SUITS[k]);
      k := k + 1;
    }
    assert SUITS[..k] == SUITS;
  }

  /** The push loops of `buildShoe`: `decks` decks, suit by suit, rank by rank. */
  method LayOutDecks(decks: nat) returns (s: seq<Card>)
    ensures s == Unshuffled(decks)
  {
    s := [];
    var d := 0;
    while d < decks
      invariant 0 <= d <= decks
      invariant s == Unshuffled(d)
    {
      s := PushDeck(s);
      d := d + 1;
    }
  }

  /** The shuffle loop of `buildShoe`: from the last index down, swap with a random index at or below it. */
  method Shuffle(a: array<Card>, rng: Rng)
    modifies a, rng
    ensures multiset(a[..]) == old(multiset(a[..]))
    ensures rng.used == old(rng.used) + if a.Length > 0 then a.Length - 1 else 0
  {
    var i := a.Length - 1;
    while i > 0
      invariant i < a.Length
      invariant multiset(a[..]) == old(multiset(a[..]))
      invariant rng.used == old(rng.used) + if a.Length > 0 then a.Length - 1 - i else 0
      invariant a.Length > 0 ==> i >= 0
    {
      var j := rng.RandInt(0, i);
      a[i], a[j] := a[j], a[i];
      i := i - 1;
    }
  }

  /** `buildShoe(decks)`: every rank and suit pair `decks` times, in shuffled order. */
  method BuildShoe(decks: nat, rng: Rng) returns (a: array<Card>)
    modifies rng
    ensures fresh(a)
    ensures a.Length == 52 * decks
    ensures multiset(a[..]) == multiset(Unshuffled(decks))
  {
    var s := LayOutDecks(decks);
    a := new Card[|s|](i requires 0 <= i < |s| => s[i]);
    assert a[..] == s;
    Shuffle(a, rng);
  }

  /** `buildShoe(6)` as `initBlackjack` and `drawCard` use it: each card exactly six times. */
  method NewShoe(rng: Rng) returns (s: seq<Card>)
    modifies rng
    ensures |s| == 52 * DECKS
    ensures forall c :: multiset(s)[c] == DECKS
  {
    var decks: nat := DECKS;
    var a := BuildShoe(decks, rng);
    s := a[..];
    forall c ensures multiset(s)[c] == decks {
      UnshuffledCount(decks, c);
    }
  }

  /**
   * The settlement chain of `finishRound`, tested in the source's order, on the
   * totals `handValue` computes. `Cards.Settle` is its specification.
   */
  method SettleHands(player: seq<Card>, dealer: seq<Card>, bet: int, wasDouble: bool) returns (win: int)
    ensures win == Settle(player, dealer, bet, wasDouble)
  {
    var p := HandValue(player);
    var d := HandValue(dealer);
    win := 0;
    if p > 21 {
    } else if d > 21 {
      win := bet * (if wasDouble then 4 else 2);
    } else if IsBlackjack(player) && !IsBlackjack(dealer) {
      win := (5 * bet) / 2;
    } else if IsBlackjack(dealer) && !IsBlackjack(player) {
    } else if p > d {
      win := bet * (if wasDouble then 4 else 2);
    } else if p < d {
    } else {
      win := bet;
    }
  }

  /**
   * The payout step of `finishRound`: a positive win is credited to the ledger
   * `before`, anything else leaves it alone.
   */
  method PaySettled(store: Store, name: string, win: int, ghost before: Items)
    requires store.items == before
    modifies store
    ensures win > 0 ==> Balance(store.items, name) == Balance(before, name) + win
    ensures win > 0 ==> store.items == WithBalance(before, name, Balance(before, name) + win)
    ensures win <= 0 ==> store.items == before
  {
    if win > 0 {
      var _ := Payout(store, name, win as real);
    }
  }

  /**
   * The stake gate shared by `onDeal` and `onDouble`: `getBalance` must cover the
   * amount, then `placeBet` takes it.
   */
  method TakeStake(store: Store, name: string, amount: int) returns (ok: bool)
    modifies store
    ensures ok <==> 0 < amount <= Balance(old(store.items), name)
    ensures !ok ==> store.items == Initialized(old(store.items), name)
    ensures ok ==> Balance(store.items, name) == Balance(old(store.items), name) - amount
    ensures ok ==> store.items == WithBalance(old(store.items), name, Balance(old(store.items), name) - amount)
  {
    var balance := GetBalance(store, name);
    if balance < amount {
      return false;
    }
    ghost var mid := store.items;
    var res := PlaceBet(store, name, amount);
    InitIdempotent(old(store.items), name);
    if res.BetRejected? {
      return false;
    }
    RecordAfterSave(mid, name, Debit(Record(mid, name), amount).value);
    WithBalanceOverInitialized(old(store.items), name, Balance(old(store.items), name) - amount);
    ok := true;
  }

  /**
   * What a click handler did: returned at a guard with no effect, refused the
   * stake, left the round open, settled it, or stopped at an uncaught error.
   */
  datatype Step = Ignored | Refused | Open | Settled(win: int) | Aborted

  class Table {
    var shoe: seq<Card>
    var bet: int
    var inRound: bool
    var canDouble: bool
    var player: seq<Card>
    var dealer: seq<Card>

    /** The shoe never holds a card more often than six decks do. */
    ghost predicate Valid()
      reads this`shoe
    {
      forall c :: multiset(shoe)[c] <= DECKS
    }

    /** `initBlackjack`: a fresh six-deck shoe, no bet, no round. */
    constructor (rng: Rng)
      modifies rng
      ensures Valid()
      ensures |shoe| == 52 * DECKS && forall c :: multiset(shoe)[c] == DECKS
      ensures bet == 0 && !inRound && !canDouble && player == [] && dealer == []
    {
      var s := NewShoe(rng);
      shoe := s;
      bet := 0;
      inRound := false;
      canDouble := false;
      player := [];
      dealer := [];
    }

    /** A chip click adds the chip's value to the bet. */
    method AddChip(chip: int)
      modifies this`bet
      ensures bet == old(bet) + chip
    {
      bet := bet + chip;
    }

    /** The clear button. */
    method ClearBet()
      modifies this`bet
      ensures bet == 0
    {
      bet := 0;
    }

    /** `drawCard`: rebuilds the shoe when fewer than 60 cards are left, then takes the last card. */
    method DrawCard(rng: Rng) returns (c: Card)
      requires Valid()
      modifies this`shoe, rng
      ensures Valid()
      ensures old(|shoe|) >= RESHUFFLE_BELOW ==> shoe + [c] == old(shoe)
      ensures old(|shoe|) < RESHUFFLE_BELOW ==> |shoe| == 52 * DECKS - 1 && forall d :: multiset(shoe + [c])[d] == DECKS
      ensures |shoe| >= RESHUFFLE_BELOW - 1
    {
      if |shoe| < RESHUFFLE_BELOW {
        shoe := NewShoe(rng);
      }
      ghost var before := shoe;
      var n := |shoe| - 1;
      c := shoe[n];
      shoe := shoe[..n];
      assert before == shoe + [c];
      assert multiset(before) == multiset(shoe) + multiset{c};
      assert forall d :: multiset(shoe)[d] <= multiset(before)[d];
    }

    /** The dealer loop of `finishRound`: draw while the dealer's hand is worth less than 17. */
    method DealerDraws(rng: Rng)
      requires Valid()
      modifies this`shoe, this`dealer, rng
      ensures Valid()
      ensures Total(dealer) >= 17
      ensures |dealer| >= old(|dealer|) && dealer[..old(|dealer|)] == old(dealer)
    {
      var dv := HandValue(dealer);
      while dv < 17
        invariant Valid()
        invariant dv == Total(dealer)
        invariant |dealer| >= old(|dealer|) && dealer[..old(|dealer|)] == old(dealer)
        decreases 17 - HardTotal(dealer)
      {
        var nc := DrawCard(rng);
        HardTotalGrows(dealer, nc);
        dealer := dealer + [nc];
        dv := HandValue(dealer);
      }
    }

    /**
     * `finishRound`: the dealer draws to 17 (when revealed), the round is settled
     * by the table of `Settle`, a positive win is paid out, and the bet is cleared.
     */
    method FinishRound(store: Store, rng: Rng, name: string, revealDealer: bool, wasDouble: bool) returns (win: int)
      requires Valid()
      modifies this, store, rng
      ensures Valid()
      ensures player == old(player)
      ensures |dealer| >= old(|dealer|) && dealer[..old(|dealer|)] == old(dealer)
      ensures revealDealer ==> Total(dealer) >= 17
      ensures !revealDealer ==> dealer == old(dealer)
      ensures win == Settle(player, dealer, old(bet), wasDouble)
      ensures win > 0 ==> Balance(store.items, name) == Balance(old(store.items), name) + win
      ensures win > 0 ==> store.items == WithBalance(old(store.items), name, Balance(old(store.items), name) + win)
      ensures win <= 0 ==> store.items == old(store.items)
      ensures bet == 0 && !inRound && !canDouble
    {
      if revealDealer {
        DealerDraws(rng);
      }
      win := SettleHands(player, dealer, bet, wasDouble);
      inRound := false;
      canDouble := false;
      bet := 0;
      PaySettled(store, name, win, old(store.items));
    }

    /** One card to the player (`player.push(drawCard())`): the card `drawCard` takes off the shoe. */
    method DrawToPlayer(rng: Rng) returns (c: Card)
      requires Valid()
      modifies this`shoe, this`player, rng
      ensures Valid()
      ensures player == old(player) + [c]
      ensures old(|shoe|) >= RESHUFFLE_BELOW ==> shoe + [c] == old(shoe)
      ensures old(|shoe|) < RESHUFFLE_BELOW ==> |shoe| == 52 * DECKS - 1 && forall d :: multiset(shoe + [c])[d] == DECKS
    {
      c := DrawCard(rng);
      player := player + [c];
    }

    /** Two successive `drawCard`s; a shoe of 61 cards or more gives its last two, last first. */
    method DrawTwo(rng: Rng) returns (a: Card, b: Card)
      requires Valid()
      modifies this`shoe, rng
      ensures Valid()
      ensures old(|shoe|) >= RESHUFFLE_BELOW + 1 ==> old(shoe) == shoe + [b, a]
    {
      ghost var s0 := shoe;
      a := DrawCard(rng);
      ghost var s1 := shoe;
      b := DrawCard(rng);
      if |s0| >= RESHUFFLE_BELOW + 1 {
        assert s0 == s1 + [a] && s1 == shoe + [b];
        assert s0 == shoe + [b, a];
      }
    }

    /**
     * The opening deal of `onDeal`: four successive draws go to the dealer, the
     * player, the dealer and the player. A shoe of 63 cards or more is not
     * rebuilt, so the four cards are its last four, taken from the top.
     */
    method DealCards(rng: Rng) returns (c1: Card, c2: Card, c3: Card, c4: Card)
      requires Valid()
      modifies this`shoe, this`player, this`dealer, rng
      ensures Valid()
      ensures |dealer| == 2 && dealer[0] == c1 && dealer[1] == c3
      ensures |player| == 2 && player[0] == c2 && player[1] == c4
      ensures old(|shoe|) >= RESHUFFLE_BELOW + 3 ==> old(shoe) == shoe + [c4, c3, c2, c1]
    {
      c1, c2 := DrawTwo(rng);
      c3, c4 := DrawTwo(rng);
      dealer := [c1, c3];
      player := [c2, c4];
    }

    /** `onDeal`: the bet gate, then two cards each (dealer first); a blackjack on either side ends the round. */
    method Deal(store: Store, rng: Rng, name: string) returns (r: Step)
      requires Valid()
      modifies this, store, rng
      ensures Valid()
      ensures r == Refused <==> name == "" || old(bet) <= 0 || old(Balance(store.items, name)) < old(bet)
      ensures r == Refused ==> unchanged(this) && rng.used == old(rng.used)
      ensures r == Refused && (name == "" || old(bet) <= 0) ==> store.items == old(store.items)
      ensures r == Refused && name != "" && old(bet) > 0 ==> store.items == Initialized(old(store.items), name)
      ensures r == Refused || r == Open || r.Settled?
      ensures r != Refused ==> |player| == 2 && |dealer| >= 2
      ensures r == Open ==> inRound && canDouble && bet == old(bet) && !IsBlackjack(player) && !IsBlackjack(dealer)
      ensures r == Open ==> store.items == WithBalance(old(store.items), name, old(Balance(store.items, name)) - old(bet))
      ensures r == Open ==> Balance(store.items, name) == old(Balance(store.items, name)) - old(bet)
      ensures r == Open ==> |dealer| == 2
      ensures r.Settled? ==> IsBlackjack(player) || IsBlackjack(dealer[..2])
      ensures r.Settled? ==> r.win == Settle(player, dealer, old(bet), false) && bet == 0 && !inRound
      ensures r.Settled? ==>
        store.items == WithBalance(old(store.items), name, old(Balance(store.items, name)) - old(bet) + (if r.win > 0 then r.win else 0))
      ensures r.Settled? ==>
        Balance(store.items, name) == old(Balance(store.items, name)) - old(bet) + (if r.win > 0 then r.win else 0)
    {
      if name == "" || bet <= 0 {
        return Refused;
      }
      var ok := TakeStake(store, name, bet);
      if !ok {
        return Refused;
      }
      r := OpenStaked(store, rng, name, old(store.items));
    }

    /**
     * `onDeal` once the stake was taken from the ledger `before`: the round opens
     * and a blackjack on either side settles it at once.
     */
    method OpenStaked(store: Store, rng: Rng, name: string, ghost before: Items) returns (r: Step)
      requires Valid()
      requires store.items == WithBalance(before, name, Balance(before, name) - bet)
      modifies this, store, rng
      ensures Valid()
      ensures r == Open || r.Settled?
      ensures |player| == 2 && |dealer| >= 2
      ensures r == Open ==> inRound && canDouble && bet == old(bet) && !IsBlackjack(player) && !IsBlackjack(dealer)
      ensures r == Open ==> |dealer| == 2 && store.items == old(store.items)
      ensures r.Settled? ==> IsBlackjack(player) || IsBlackjack(dealer[..2])
      ensures r.Settled? ==> r.win == Settle(player, dealer, old(bet), false) && bet == 0 && !inRound
      ensures r.Settled? ==>
        store.items == WithBalance(before, name, Balance(before, name) - old(bet) + (if r.win > 0 then r.win else 0))
      ensures r.Settled? ==>
        Balance(store.items, name) == Balance(before, name) - old(bet) + (if r.win > 0 then r.win else 0)
    {
      StartRound(rng);
      r := CheckNaturals(store, rng, name);
      if r.Settled? {
        StakeThenPay(before, old(store.items), store.items, name, old(bet), r.win > 0, if r.win > 0 then r.win else 0);
      }
    }

    /** The round opening of `onDeal`: the flags are set and the four cards dealt. */
    method StartRound(rng: Rng)
      requires Valid()
      modifies this`inRound, this`canDouble, this`shoe, this`player, this`dealer, rng
      ensures Valid() && inRound && canDouble
      ensures |player| == 2 && |dealer| == 2
    {
      inRound := true;
      canDouble := true;
      var _, _, _, _ := DealCards(rng);
    }

    /** The last line of `onDeal`: a blackjack on either side settles the round at once. */
    method CheckNaturals(store: Store, rng: Rng, name: string) returns (r: Step)
      requires Valid() && |player| == 2 && |dealer| == 2 && inRound && canDouble
      modifies this, store, rng
      ensures Valid()
      ensures r == Open || r.Settled?
      ensures player == old(player) && |dealer| >= 2 && dealer[..2] == old(dealer)
      ensures r == Open <==> !IsBlackjack(old(player)) && !IsBlackjack(old(dealer))
      ensures r == Open ==> unchanged(this) && store.items == old(store.items)
      ensures r.Settled? ==> r.win == Settle(player, dealer, old(bet), false) && bet == 0 && !inRound
      ensures r.Settled? && r.win > 0 ==>
        store.items == WithBalance(old(store.items), name, old(Balance(store.items, name)) + r.win)
      ensures r.Settled? && r.win <= 0 ==> store.items == old(store.items)
    {
      if IsBlackjack(player) || IsBlackjack(dealer) {
        var win := FinishRound(store, rng, name, true, false);
        return Settled(win);
      }
      r := Open;
    }

    /** `onHit`: one more card; a bust ends the round (the dealer still draws). */
    method Hit(store: Store, rng: Rng, name: string) returns (r: Step)
      requires Valid()
      modifies this, store, rng
      ensures Valid()
      ensures store.items == old(store.items)
      ensures !old(inRound) ==> r == Ignored && unchanged(this) && rng.used == old(rng.used)
      ensures old(inRound) ==> |player| == old(|player|) + 1 && player[..old(|player|)] == old(player)
      ensures old(inRound) && Total(player) <= 21 ==> r == Open && inRound && !canDouble && bet == old(bet) && dealer == old(dealer)
      ensures old(inRound) && Total(player) > 21 ==> r == Settled(0) && !inRound && bet == 0 && Total(dealer) >= 17
    {
      if !inRound {
        return Ignored;
      }
      var _ := DrawToPlayer(rng);
      canDouble := false;
      var p := HandValue(player);
      if p > 21 {
        var win := FinishRound(store, rng, name, true, false);
        return Settled(win);
      }
      r := Open;
    }

    /** `onStand`: the dealer plays and the round is settled. */
    method Stand(store: Store, rng: Rng, name: string) returns (r: Step)
      requires Valid()
      modifies this, store, rng
      ensures Valid()
      ensures !old(inRound) ==> r == Ignored && unchanged(this) && store.items == old(store.items)
      ensures old(inRound) ==> r.Settled? && r.win == Settle(player, dealer, old(bet), false)
      ensures old(inRound) ==> player == old(player) && Total(dealer) >= 17 && bet == 0 && !inRound
      ensures old(inRound) && r.win > 0 ==> Balance(store.items, name) == old(Balance(store.items, name)) + r.win
      ensures old(inRound) && r.win > 0 ==> store.items == WithBalance(old(store.items), name, old(Balance(store.items, name)) + r.win)
      ensures old(inRound) && r.win <= 0 ==> store.items == old(store.items)
    {
      if !inRound {
        return Ignored;
      }
      var win := FinishRound(store, rng, name, true, false);
      r := Settled(win);
    }

    /**
     * `onDouble` as intended: a second stake of `bet` when the balance covers it,
     * one more card, and a settlement at the doubled rates.
     */
    method Double(store: Store, rng: Rng, name: string) returns (r: Step)
      requires Valid()
      modifies this, store, rng
      ensures Valid()
      ensures r == Ignored <==> !old(inRound && canDouble)
      ensures r == Ignored ==> unchanged(this) && store.items == old(store.items)
      ensures r == Refused <==> old(inRound && canDouble) && (old(Balance(store.items, name)) < old(bet) || old(bet) <= 0)
      ensures r == Refused ==> unchanged(this) && store.items == Initialized(old(store.items), name)
      ensures r == Ignored || r == Refused || r.Settled?
      ensures r.Settled? ==> |player| == old(|player|) + 1 && player[..old(|player|)] == old(player)
      ensures r.Settled? ==> r.win == Settle(player, dealer, old(bet), true) && Total(dealer) >= 17 && bet == 0 && !inRound
      ensures r.Settled? ==>
        store.items == WithBalance(old(store.items), name, old(Balance(store.items, name)) - old(bet) + (if r.win > 0 then r.win else 0))
      ensures r.Settled? ==>
        Balance(store.items, name) == old(Balance(store.items, name)) - old(bet) + (if r.win > 0 then r.win else 0)
    {
      if !inRound || !canDouble {
        return Ignored;
      }
      var ok := TakeStake(store, name, bet);
      if !ok {
        return Refused;
      }
      var win := DoubleDown(store, rng, name, old(store.items));
      r := Settled(win);
    }

    /**
     * The part of `onDouble` after the second stake was taken from the ledger
     * `before`: one card, then the settlement at doubled rates.
     */
    method DoubleDown(store: Store, rng: Rng, name: string, ghost before: Items) returns (win: int)
      requires Valid()
      requires store.items == WithBalance(before, name, Balance(before, name) - bet)
      modifies this, store, rng
      ensures Valid()
      ensures |player| == old(|player|) + 1 && player[..old(|player|)] == old(player)
      ensures win == Settle(player, dealer, old(bet), true) && Total(dealer) >= 17 && bet == 0 && !inRound
      ensures store.items == WithBalance(before, name, Balance(before, name) - old(bet) + (if win > 0 then win else 0))
      ensures Balance(store.items, name) == Balance(before, name) - old(bet) + (if win > 0 then win else 0)
    {
      canDouble := false;
      var _ := DrawToPlayer(rng);
      win := FinishRound(store, rng, name, true, true);
      StakeThenPay(before, old(store.items), store.items, name, old(bet), win > 0, if win > 0 then win else 0);
    }

    /**
     * `onDouble` as written: the second stake is taken and a card dealt, then the
     * call of the undefined `renderHands` throws, so the round is never settled
     * here and stays open with doubling switched off.
     */
    method DoubleAsWritten(store: Store, rng: Rng, name: string) returns (r: Step)
      requires Valid()
      modifies this, store, rng
      ensures Valid()
      ensures r == Ignored <==> !old(inRound && canDouble)
      ensures r == Ignored ==> unchanged(this) && store.items == old(store.items)
      ensures r == Refused <==> old(inRound && canDouble) && (old(Balance(store.items, name)) < old(bet) || old(bet) <= 0)
      ensures r == Refused ==> unchanged(this) && store.items == Initialized(old(store.items), name)
      ensures r == Ignored || r == Refused || r == Aborted
      ensures r == Aborted ==> inRound && !canDouble && bet == old(bet) && dealer == old(dealer)
      ensures r == Aborted ==> |player| == old(|player|) + 1 && player[..old(|player|)] == old(player)
      ensures r == Aborted ==> Balance(store.items, name) == old(Balance(store.items, name)) - old(bet)
      ensures r == Aborted ==> store.items == WithBalance(old(store.items), name, old(Balance(store.items, name)) - old(bet))
    {
      if !inRound || !canDouble {
        return Ignored;
      }
      var ok := TakeStake(store, name, bet);
      if !ok {
        return Refused;
      }
      canDouble := false;
      var _ := DrawToPlayer(rng);
      r := Aborted;
    }
  }

  /**
   * A doubled hand that wins under the handler as written: after the aborted
   * double, the round can only be settled undoubled, by Hit or Stand. Here it is
   * Stand, and two stakes of `bet` bring back `2 * bet` instead of `4 * bet`.
   */
  method DoubledWinAsWritten(t: Table, store: Store, rng: Rng, name: string) returns (win: int)
    requires t.Valid() && t.inRound && t.canDouble && t.bet > 0
    requires Balance(store.items, name) >= t.bet
    modifies t, store, rng
    ensures t.Valid()
    ensures win == Settle(t.player, t.dealer, old(t.bet), false)
    ensures Total(t.player) <= 21 && Total(t.dealer) > 21 ==>
      win == 2 * old(t.bet) && win < Settle(t.player, t.dealer, old(t.bet), true)
  {
    var r := t.DoubleAsWritten(store, rng, name);
    assert r == Aborted;
    var s := t.Stand(store, rng, name);
    win := s.win;
  }
}
