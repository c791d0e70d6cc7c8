/**
 * The roulette table of js/games/roulette.js: the colour tables, the five bet
 * kinds and their pays, the straight-number prompt and the spin, which stakes
 * the bet through the ledger, draws a number in 0..36 and pays a positive win.
 */
module Roulette {
  import opened Wrappers
  import opened Storage
  import opened Wallet
  import opened Random

  /** The red and the black numbers, as listed by `isRed` and `isBlack`. */
  const RED: seq<int> := [1, 3, 5, 7, 9, 12, 14, 16, 18, 19, 21, 23, 25, 27, 30, 32, 34, 36]
  const BLACK: seq<int> := [2, 4, 6, 8, 10, 11, 13, 15, 17, 20, 22, 24, 26, 28, 29, 31, 33, 35]

  /** The highest number on the wheel. */
  const TOP := 36

  /** `isRed`: membership in the red list, which holds only numbers from 1 to 36. */
  predicate IsRed(n: int): (b: bool)
    ensures b ==> 1 <= n <= TOP
  {
    n in RED
  }

  /** `isBlack`: membership in the black list, which holds only numbers from 1 to 36. */
  predicate IsBlack(n: int): (b: bool)
    ensures b ==> 1 <= n <= TOP
  {
    n in BLACK
  }

  /**
   * The colour rule of the single-zero wheel: from 1 to 10 and from 19 to 28
   * the odd numbers are red, from 11 to 18 and from 29 to 36 the even ones.
   */
  predicate WheelRed(n: int) {
    1 <= n <= TOP && (if n <= 10 || 19 <= n <= 28 then n % 2 == 1 else n % 2 == 0)
  }

  /** Each list holds 18 numbers, in increasing order, so none twice. */
  lemma EighteenEach()
    ensures |RED| == 18 && |BLACK| == 18
    ensures forall i :: 0 < i < 18 ==> RED[i - 1] < RED[i] && BLACK[i - 1] < BLACK[i]
  {
  }

  /** The red list is exactly the wheel's red numbers. */
  lemma RedIsWheelRed(n: int)
    ensures IsRed(n) <==> WheelRed(n)
  {
    if 1 <= n <= TOP {
      RedInRange(n);
    }
  }

  lemma RedInRange(n: int)
    requires 1 <= n <= TOP
    ensures IsRed(n) <==> WheelRed(n)
  {
    if IsRed(n) {
      var i :| 0 <= i < |RED| && RED[i] == n;
      RedListed(i);
    }
    if WheelRed(n) {
      var k := if n <= 10 then (n - 1) / 2 else if n <= 18 then 5 + (n - 12) / 2
        else if n <= 28 then 9 + (n - 19) / 2 else 14 + (n - 30) / 2;
      RedAt(k);
      assert RED[k] == n;
    }
  }

  /** Every listed red number follows the wheel's rule. */
  lemma RedListed(i: int)
    requires 0 <= i < |RED|
    ensures WheelRed(RED[i])
  {
  }

  /** Where each red number sits in the list. */
  lemma RedAt(k: int)
    requires 0 <= k < |RED|
    ensures k < 5 ==> RED[k] == 2 * k + 1
    ensures 5 <= k < 9 ==> RED[k] == 12 + 2 * (k - 5)
    ensures 9 <= k < 14 ==> RED[k] == 19 + 2 * (k - 9)
    ensures 14 <= k ==> RED[k] == 30 + 2 * (k - 14)
  {
  }

  /** The black list is exactly the wheel's other numbers from 1 to 36. */
  lemma BlackIsWheelBlack(n: int)
    ensures IsBlack(n) <==> 1 <= n <= TOP && !WheelRed(n)
  {
    if 1 <= n <= TOP {
      BlackInRange(n);
    }
  }

  lemma BlackInRange(n: int)
    requires 1 <= n <= TOP
    ensures IsBlack(n) <==> !WheelRed(n)
  {
    if IsBlack(n) {
      var i :| 0 <= i < |BLACK| && BLACK[i] == n;
      BlackListed(i);
    }
    if !WheelRed(n) {
      var k := if n <= 10 then (n - 2) / 2 else if n <= 18 then 5 + (n - 11) / 2
        else if n <= 28 then 9 + (n - 20) / 2 else 14 + (n - 29) / 2;
      BlackAt(k);
      assert BLACK[k] == n;
    }
  }

  /** No listed black number is red by the wheel's rule. */
  lemma BlackListed(i: int)
    requires 0 <= i < |BLACK|
    ensures 1 <= BLACK[i] <= TOP && !WheelRed(BLACK[i])
  {
  }

  /** Where each black number sits in the list. */
  lemma BlackAt(k: int)
    requires 0 <= k < |BLACK|
    ensures k < 5 ==> BLACK[k] == 2 * k + 2
    ensures 5 <= k < 9 ==> BLACK[k] == 11 + 2 * (k - 5)
    ensures 9 <= k < 14 ==> BLACK[k] == 20 + 2 * (k - 9)
    ensures 14 <= k ==> BLACK[k] == 29 + 2 * (k - 14)
  {
  }

  /** Red and black never overlap, together they are 1..36, and 0 has no colour. */
  lemma ColoursPartition(n: int)
    ensures !(IsRed(n) && IsBlack(n))
    ensures IsRed(n) || IsBlack(n) <==> 1 <= n <= TOP
    ensures !IsRed(0) && !IsBlack(0)
  {
    RedIsWheelRed(n);
    BlackIsWheelBlack(n);
    RedIsWheelRed(0);
    BlackIsWheelBlack(0);
  }

  // ---------------------------------------------------------------------------
  // Bets and pays

  datatype BetKind = Red | Black | Odd | Even | Straight

  /**
   * What a bet of `bet` on `kind` brings back when the ball lands on `result`:
   * twice the bet for red, black, odd or even, 36 times it for the chosen
   * number, nothing otherwise. No kind chosen wins nothing.
   */
  function Payoff(kind: Option<BetKind>, straight: Option<real>, result: int, bet: int): (win: int)
    ensures kind == None ==> win == 0
    ensures win != 0 ==> kind.Some? && win == (if kind.value == Straight then 36 else 2) * bet
    ensures result == 0 && kind != Some(Straight) ==> win == 0
  {
    match kind
    case None => 0
    case Some(Red) => if IsRed(result) then bet * 2 else 0
    case Some(Black) => if IsBlack(result) then bet * 2 else 0
    case Some(Odd) => if result % 2 == 1 then bet * 2 else 0
    case Some(Even) => if result != 0 && result % 2 == 0 then bet * 2 else 0
    case Some(Straight) => if straight == Some(result as real) then bet * 36 else 0
  }

  /** The win of `spin`, assigned by five independent tests in turn. */
  method ComputeWin(selected: Option<BetKind>, straight: Option<real>, result: int, bet: int) returns (win: int)
    requires 0 <= result <= TOP
    ensures win == Payoff(selected, straight, result, bet)
  {
    win := 0;
    if selected == Some(Red) && IsRed(result) {
      win := bet * 2;
    }
    if selected == Some(Black) && IsBlack(result) {
      win := bet * 2;
    }
    if selected == Some(Odd) && result % 2 == 1 {
      win := bet * 2;
    }
    if selected == Some(Even) && result != 0 && result % 2 == 0 {
      win := bet * 2;
    }
    if selected == Some(Straight) && straight == Some(result as real) {
      win := bet * 36;
    }
  }

  /** Red, black, odd and even pay double exactly on their numbers, and never on 0. */
  lemma EvenMoneyBets(kind: BetKind, straight: Option<real>, result: int, bet: int)
    requires kind != Straight && bet > 0 && 0 <= result <= TOP
    ensures Payoff(Some(kind), straight, result, bet) == 0 || Payoff(Some(kind), straight, result, bet) == 2 * bet
    ensures result == 0 ==> Payoff(Some(kind), straight, result, bet) == 0
    ensures Payoff(Some(kind), straight, result, bet) == 2 * bet <==>
      match kind
      case Red => WheelRed(result)
      case Black => 1 <= result && !WheelRed(result)
      case Odd => result % 2 == 1
      case Even => 1 <= result && result % 2 == 0
      case Straight => false
  {
    RedIsWheelRed(result);
    BlackIsWheelBlack(result);
    ColoursPartition(result);
  }

  /** A straight bet pays 36 times the bet exactly when the ball lands on the chosen number. */
  lemma StraightPays36(straight: Option<real>, result: int, bet: int)
    requires bet > 0
    ensures Payoff(Some(Straight), straight, result, bet) == 36 * bet <==> straight == Some(result as real)
    ensures straight != Some(result as real) ==> Payoff(Some(Straight), straight, result, bet) == 0
  {
  }

  /**
   * A straight bet has one winning pocket when the chosen number is whole,
   * and none when the prompt was given a fraction.
   */
  lemma StraightPockets(v: real)
    requires 0.0 <= v <= TOP as real
    ensures |set n | 0 <= n <= TOP && Payoff(Some(Straight), Some(v), n, 1) > 0| == if v.Floor as real == v then 1 else 0
  {
    var wins := set n | 0 <= n <= TOP && Payoff(Some(Straight), Some(v), n, 1) > 0;
    if v.Floor as real == v {
      assert v.Floor in wins;
      assert wins == {v.Floor};
    } else {
      assert wins == {};
    }
  }

  /** A bet that is not positive can never bring anything back. */
  lemma NoGainWithoutStake(kind: Option<BetKind>, straight: Option<real>, result: int, bet: int)
    requires bet <= 0
    ensures Payoff(kind, straight, result, bet) <= 0
  {
  }

  /** Of the 37 pockets, red, black, odd and even each win on 18. */
  lemma EighteenWinningPockets(kind: BetKind)
    requires kind != Straight
    ensures |set n | 0 <= n <= TOP && Payoff(Some(kind), None, n, 1) > 0| == 18
  {
    var wins := set n | 0 <= n <= TOP && Payoff(Some(kind), None, n, 1) > 0;
    var s := Pockets(kind);
    var pockets := set n | n in s;
    forall n | n in wins ensures n in pockets {
      var i := WinIsPocket(kind, n);
    }
    forall n | n in pockets ensures n in wins {
      var i :| 0 <= i < 18 && n == s[i];
      PocketWins(kind, i);
    }
    assert wins == pockets;
    IncreasingDistinct(s);
  }

  /** A winning number is one of the listed pockets. */
  lemma WinIsPocket(kind: BetKind, n: int) returns (i: int)
    requires kind != Straight && 0 <= n <= TOP && Payoff(Some(kind), None, n, 1) > 0
    ensures 0 <= i < 18 && Pockets(kind)[i] == n
  {
    EighteenEach();
    EvenMoneyBets(kind, None, n, 1);
    if kind == Odd {
      i := (n - 1) / 2;
    } else if kind == Even {
      i := (n - 2) / 2;
    } else if kind == Red {
      i :| 0 <= i < |RED| && RED[i] == n;
    } else {
      i :| 0 <= i < |BLACK| && BLACK[i] == n;
    }
  }

  /** Every listed pocket wins. */
  lemma PocketWins(kind: BetKind, i: int)
    requires kind != Straight && 0 <= i < 18
    ensures 1 <= Pockets(kind)[i] <= TOP && Payoff(Some(kind), None, Pockets(kind)[i], 1) > 0
  {
    EighteenEach();
    match kind
    case Red =>
      RedListed(i);
      assert IsRed(RED[i]);
    case Black =>
      BlackListed(i);
      assert IsBlack(BLACK[i]);
    case Odd =>
      assert Pockets(kind)[i] == 2 * i + 1;
    case Even =>
      assert Pockets(kind)[i] == 2 * i + 2;
  }

  /** The winning pockets of an even-money bet, in increasing order. */
  function Pockets(kind: BetKind): (s: seq<int>)
    ensures |s| == 18
    ensures forall i :: 0 < i < 18 ==> s[i - 1] < s[i]
  {
    EighteenEach();
    match kind
    case Red => RED
    case Black => BLACK
    case Odd => seq(18, i => 2 * i + 1)
    case _ => seq(18, i => 2 * i + 2)
  }

  /** A strictly increasing list holds as many distinct numbers as it has places. */
  lemma {:induction false} IncreasingDistinct(s: seq<int>)
    requires forall i :: 0 < i < |s| ==> s[i - 1] < s[i]
    ensures |set n | n in s| == |s|
  {
    if s != [] {
      var m := |s| - 1;
      var init := s[..m];
      IncreasingDistinct(init);
      assert s[m] !in init by {
        forall j | 0 <= j < m ensures init[j] < s[m] {
          IncreasingStep(s, j);
        }
      }
      assert s == init + [s[m]];
      assert (set n | n in s) == (set n | n in init) + {s[m]};
    }
  }

  /** A strictly increasing list ends above each earlier place. */
  lemma {:induction false} IncreasingStep(s: seq<int>, j: nat)
    requires forall i :: 0 < i < |s| ==> s[i - 1] < s[i]
    requires j < |s| - 1
    ensures s[j] < s[|s| - 1]
    decreases |s| - j
  {
    if j < |s| - 2 {
      IncreasingStep(s, j + 1);
    }
  }

  // ---------------------------------------------------------------------------
  // The table

  /** What a spin did. */
  datatype SpinOutcome =
    | NoProfile
    | ShortOfFunds
    | Spun(result: int, win: int)

  /** What the straight-number button did. */
  datatype PromptOutcome =
    | Cancelled
    | InvalidNumber
    | Played(spin: SpinOutcome)

  class Table {
    var selectedBet: Option<BetKind>
    var straightNumber: Option<real>

    /** `initRoulette`: no bet kind and no number chosen yet. */
    constructor ()
      ensures selectedBet == None && straightNumber == None
    {
      selectedBet := None;
      straightNumber := None;
    }

    /**
     * `spin`: the balance must cover the bet; `placeBet`'s answer is not
     * looked at; the ball is drawn; a positive win is paid out.
     */
    method Spin(store: Store, rng: Rng, name: string, bet: int) returns (out: SpinOutcome)
      modifies store, rng
      ensures out == NoProfile <==> name == ""
      ensures out == NoProfile ==> store.items == old(store.items) && rng.used == old(rng.used)
      ensures out == ShortOfFunds <==> name != "" && Balance(old(store.items), name) < bet
      ensures out == ShortOfFunds ==> store.items == Initialized(old(store.items), name) && rng.used == old(rng.used)
      ensures out.Spun? ==> rng.used == old(rng.used) + 1 && out.result == Scale(0, TOP, rng.draw(old(rng.used)))
      ensures out.Spun? ==> 0 <= out.result <= TOP
      ensures out.Spun? ==> out.win == Payoff(selectedBet, straightNumber, out.result, bet)
      ensures out.Spun? ==>
        Balance(store.items, name) == Balance(old(store.items), name) - (if bet > 0 then bet else 0) + (if out.win > 0 then out.win else 0)
      ensures out.Spun? && bet > 0 ==>
        store.items == WithBalance(old(store.items), name, Balance(old(store.items), name) - bet + (if out.win > 0 then out.win else 0))
      ensures out.Spun? && bet <= 0 ==> store.items == Initialized(old(store.items), name)
    {
      if name == "" {
        return NoProfile;
      }
      var bal := GetBalance(store, name);
      if bal < bet {
        return ShortOfFunds;
      }
      InitIdempotent(old(store.items), name);
      var result, win := StakeAndDraw(store, rng, name, bet);
      out := Spun(result, win);
      if bet > 0 {
        WithBalanceOverInitialized(old(store.items), name, Balance(old(store.items), name) - bet + (if win > 0 then win else 0));
      }
    }

    /** The spin once the balance covers the bet: the stake, the draw and the payout of a positive win. */
    method StakeAndDraw(store: Store, rng: Rng, name: string, bet: int) returns (result: int, win: int)
      requires Balance(store.items, name) >= bet
      modifies store, rng
      ensures rng.used == old(rng.used) + 1 && result == Scale(0, TOP, rng.draw(old(rng.used)))
      ensures 0 <= result <= TOP
      ensures win == Payoff(selectedBet, straightNumber, result, bet)
      ensures bet > 0 ==>
        store.items == WithBalance(old(store.items), name, Balance(old(store.items), name) - bet + (if win > 0 then win else 0))
      ensures bet <= 0 ==> store.items == Initialized(old(store.items), name)
      ensures Balance(store.items, name) == Balance(old(store.items), name) - (if bet > 0 then bet else 0) + (if win > 0 then win else 0)
    {
      var _ := PlaceBet(store, name, bet);
      ghost var mid := store.items;
      result, win := DrawAndPay(store, rng, name, bet);
      if bet > 0 {
        StakeThenPay(old(store.items), mid, store.items, name, bet, win > 0, if win > 0 then win else 0);
      }
    }

    /** The draw of the spin and the payout of a positive win, once the stake is taken. */
    method DrawAndPay(store: Store, rng: Rng, name: string, bet: int) returns (result: int, win: int)
      modifies store, rng
      ensures rng.used == old(rng.used) + 1 && result == Scale(0, TOP, rng.draw(old(rng.used)))
      ensures 0 <= result <= TOP
      ensures win == Payoff(selectedBet, straightNumber, result, bet)
      ensures win > 0 ==> store.items == WithBalance(old(store.items), name, Balance(old(store.items), name) + win)
      ensures win <= 0 ==> store.items == old(store.items)
    {
      result := rng.RandInt(0, TOP);
      win := ComputeWin(selectedBet, straightNumber, result, bet);
      if win > 0 {
        var _ := Payout(store, name, win as real);
      }
    }

    /** `setBet`: remembers the kind and spins at once. */
    method SetBet(store: Store, rng: Rng, name: string, kind: BetKind, bet: int) returns (out: SpinOutcome)
      modifies this, store, rng
      ensures selectedBet == Some(kind) && straightNumber == old(straightNumber)
      ensures out == NoProfile <==> name == ""
      ensures out == NoProfile ==> store.items == old(store.items) && rng.used == old(rng.used)
      ensures out == ShortOfFunds <==> name != "" && Balance(old(store.items), name) < bet
      ensures out == ShortOfFunds ==> store.items == Initialized(old(store.items), name) && rng.used == old(rng.used)
      ensures out.Spun? ==> rng.used == old(rng.used) + 1 && out.result == Scale(0, TOP, rng.draw(old(rng.used)))
      ensures out.Spun? ==> out.win == Payoff(Some(kind), straightNumber, out.result, bet)
      ensures out.Spun? ==>
        Balance(store.items, name) == Balance(old(store.items), name) - (if bet > 0 then bet else 0) + (if out.win > 0 then out.win else 0)
      ensures out.Spun? && bet > 0 ==>
        store.items == WithBalance(old(store.items), name, Balance(old(store.items), name) - bet + (if out.win > 0 then out.win else 0))
      ensures out.Spun? && bet <= 0 ==> store.items == Initialized(old(store.items), name)
    {
      selectedBet := Some(kind);
      out := Spin(store, rng, name, bet);
    }

    /**
     * The straight button: a cancelled prompt does nothing, a number below 0
     * or above 36 is refused, any other number is kept and played.
     */
    method ChooseStraight(store: Store, rng: Rng, name: string, input: Option<real>, bet: int) returns (out: PromptOutcome)
      modifies this, store, rng
      ensures out == Cancelled <==> input == None
      ensures out == InvalidNumber <==> input.Some? && (input.value < 0.0 || input.value > TOP as real)
      ensures !out.Played? ==> unchanged(this) && store.items == old(store.items) && rng.used == old(rng.used)
      ensures out.Played? ==> straightNumber == input && selectedBet == Some(Straight)
      ensures out.Played? ==> (out.spin == NoProfile <==> name == "")
      ensures out.Played? && out.spin == NoProfile ==> store.items == old(store.items) && rng.used == old(rng.used)
      ensures out.Played? ==> (out.spin == ShortOfFunds <==> name != "" && Balance(old(store.items), name) < bet)
      ensures out.Played? && out.spin == ShortOfFunds ==>
        store.items == Initialized(old(store.items), name) && rng.used == old(rng.used)
      ensures out.Played? && out.spin.Spun? ==>
        rng.used == old(rng.used) + 1 && out.spin.result == Scale(0, TOP, rng.draw(old(rng.used)))
      ensures out.Played? && out.spin.Spun? ==> out.spin.win == Payoff(Some(Straight), input, out.spin.result, bet)
      ensures out.Played? && out.spin.Spun? && bet > 0 ==>
        store.items == WithBalance(old(store.items), name, Balance(old(store.items), name) - bet + (if out.spin.win > 0 then out.spin.win else 0))
      ensures out.Played? && out.spin.Spun? && bet <= 0 ==> store.items == Initialized(old(store.items), name)
      ensures out.Played? && out.spin.Spun? ==>
        (out.spin.win == 36 * bet <==> input == Some(out.spin.result as real)) || bet == 0
    {
      if input == None {
        return Cancelled;
      }
      var num := input.value;
      if num < 0.0 || num > TOP as real {
        return InvalidNumber;
      }
      straightNumber := input;
      var s := SetBet(store, rng, name, Straight, bet);
      out := Played(s);
    }
  }
}
