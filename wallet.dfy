/**
 * The token ledger of js/wallet.js. Every operation loads the profile's record
 * (creating a fresh one when none can be read), checks, changes and saves it.
 * The ledger keeps no state of its own: all of it lives in the `Store`.
 * "Today" is passed in as the "YYYY-MM-DD" string the browser clock would give.
 */
module Wallet {
  import opened Wrappers
  import opened Storage

  const DAILY_AMOUNT := 10000

  /** The record `initProfile` creates for an unknown profile. */
  const FRESH := ProfileState(0, None, Stats(0, 0))

  datatype BetError = InvalidAmount | InsufficientFunds

  /** `placeBet`'s `{ok:true, balance}` or `{ok:false, reason}`. */
  datatype BetResult = BetOk(balance: int) | BetRejected(reason: BetError)

  /** `claimDaily`'s `{ok, balance}`. */
  datatype ClaimResult = ClaimResult(ok: bool, balance: int)

  // ---------------------------------------------------------------------------
  // The ledger as functions of the stored content

  /** The record an operation works on: the stored one, or a fresh one. */
  function Record(items: Items, profile: string): (s: ProfileState)
    ensures LoadFrom(items, profile) == None ==> s == FRESH
    ensures LoadFrom(items, profile) != None ==> LoadFrom(items, profile) == Some(s)
  {
    LoadFrom(items, profile).GetOr(FRESH)
  }

  /** The balance a profile has in the given storage. */
  function Balance(items: Items, profile: string): int {
    Record(items, profile).balance
  }

  /**
   * The storage after `loadProfileState(p) || initProfile(p)`: a fresh record is
   * written when none can be read, and nothing is written otherwise.
   */
  function Initialized(items: Items, profile: string): (m: Items)
    ensures LoadFrom(m, profile) == Some(Record(items, profile))
    ensures LoadFrom(items, profile) != None ==> m == items
    ensures forall q :: q != profile ==> LoadFrom(m, q) == LoadFrom(items, q)
  {
    if LoadFrom(items, profile) != None then items
    else
      assert forall q :: q != profile ==> LoadFrom(Save(items, profile, FRESH), q) == LoadFrom(items, q) by {
        forall q | q != profile
          ensures LoadFrom(Save(items, profile, FRESH), q) == LoadFrom(items, q)
        {
          SaveLeavesOthers(items, profile, q, FRESH);
        }
      }
      Save(items, profile, FRESH)
  }

  /**
   * The storage after an operation that saved `profile`'s record with the
   * balance set to `balance` and every other field as it loaded. What the
   * other profiles load is kept: see `WithBalanceLeavesOthers`.
   */
  function WithBalance(items: Items, profile: string, balance: int): (m: Items)
    ensures m.Keys == items.Keys + {K(profile)}
    ensures LoadFrom(m, profile) == Some(Record(items, profile).(balance := balance))
  {
    Save(items, profile, Record(items, profile).(balance := balance))
  }

  /** `Math.max(0, Math.floor(v))`. */
  function FloorClamp(v: real): (n: int)
    ensures n >= 0
    ensures v < 0.0 ==> n == 0
    ensures v >= 0.0 ==> n as real <= v < n as real + 1.0
  {
    var f := v.Floor;
    if f < 0 then 0 else f
  }

  /** The bet gate of `placeBet`: a positive stake the balance covers is debited. */
  function Debit(s: ProfileState, amount: int): (r: Result<ProfileState, BetError>)
    ensures r == Failure(InvalidAmount) <==> amount <= 0
    ensures r == Failure(InsufficientFunds) <==> 0 < amount && s.balance < amount
    ensures r.Success? ==> r.value == s.(balance := s.balance - amount) && 0 <= r.value.balance < s.balance
  {
    if amount <= 0 then Failure(InvalidAmount)
    else if s.balance < amount then Failure(InsufficientFunds)
    else Success(s.(balance := s.balance - amount))
  }

  /** `payout`'s credit: whole tokens only, never negative. */
  function Credit(s: ProfileState, amount: real): (t: ProfileState)
    ensures t == s.(balance := t.balance)
    ensures t.balance >= s.balance
    ensures amount < 1.0 ==> t.balance == s.balance
    ensures amount >= 0.0 ==> (t.balance - s.balance) as real <= amount < (t.balance - s.balance + 1) as real
  {
    s.(balance := s.balance + FloorClamp(amount))
  }

  /** `canClaimToday`: a calendar-day comparison, not a 24-hour window. */
  predicate CanClaim(s: ProfileState, today: string) {
    s.lastClaimDate != Some(today)
  }

  /** `claimDaily`'s change: the bonus and today's stamp, unless already claimed today. */
  function Claim(s: ProfileState, today: string): (r: Option<ProfileState>)
    ensures r.Some? <==> CanClaim(s, today)
    ensures r.Some? ==> r.value == s.(balance := s.balance + DAILY_AMOUNT, lastClaimDate := Some(today))
    ensures r.Some? ==> !CanClaim(r.value, today)
  {
    if s.lastClaimDate == Some(today) then None
    else Some(s.(balance := s.balance + DAILY_AMOUNT, lastClaimDate := Some(today)))
  }

  // ---------------------------------------------------------------------------
  // The operations on the store

  /** `initProfile`: returns the stored record, creating and saving a fresh one when there is none. */
  method InitProfile(store: Store, profile: string) returns (s: ProfileState)
    modifies store
    ensures s == Record(old(store.items), profile)
    ensures store.items == Initialized(old(store.items), profile)
  {
    var loaded := store.LoadProfileState(profile);
    if loaded == None {
      s := FRESH;
      store.SaveProfileState(profile, s);
    } else {
      s := loaded.value;
    }
  }

  /** `loadProfileState(profile) || initProfile(profile)`, the first step of every operation below. */
  method LoadOrInit(store: Store, profile: string) returns (s: ProfileState)
    modifies store
    ensures s == Record(old(store.items), profile)
    ensures store.items == Initialized(old(store.items), profile)
  {
    var loaded := store.LoadProfileState(profile);
    match loaded
    case Some(x) => s := x;
    case None => s := InitProfile(store, profile);
  }

  /** `getBalance`. */
  method GetBalance(store: Store, profile: string) returns (b: int)
    modifies store
    ensures b == Balance(old(store.items), profile)
    ensures store.items == Initialized(old(store.items), profile)
  {
    var s := LoadOrInit(store, profile);
    b := s.balance;
  }

  /** `setBalance`: stores `max(0, floor(v))`. */
  method SetBalance(store: Store, profile: string, v: real) returns (b: int)
    modifies store
    ensures b == FloorClamp(v) && b >= 0
    ensures var s := Record(old(store.items), profile);
      store.items == Save(Initialized(old(store.items), profile), profile, s.(balance := b))
  {
    var s := LoadOrInit(store, profile);
    s := s.(balance := FloorClamp(v));
    store.SaveProfileState(profile, s);
    b := s.balance;
  }

  /** `canClaimToday`. */
  method CanClaimToday(store: Store, profile: string, today: string) returns (ok: bool)
    modifies store
    ensures ok <==> Record(old(store.items), profile).lastClaimDate != Some(today)
    ensures store.items == Initialized(old(store.items), profile)
  {
    var s := LoadOrInit(store, profile);
    ok := s.lastClaimDate != Some(today);
  }

  /** `claimDaily`: once per calendar day, adds `DAILY_AMOUNT` and stamps today. */
  method ClaimDaily(store: Store, profile: string, today: string) returns (r: ClaimResult)
    modifies store
    ensures var s := Record(old(store.items), profile);
      match Claim(s, today)
      case None => r == ClaimResult(false, s.balance) && store.items == Initialized(old(store.items), profile)
      case Some(t) => r == ClaimResult(true, t.balance) && store.items == Save(Initialized(old(store.items), profile), profile, t)
  {
    var s := LoadOrInit(store, profile);
    if s.lastClaimDate == Some(today) {
      return ClaimResult(false, s.balance);
    }
    s := s.(balance := s.balance + DAILY_AMOUNT);
    s := s.(lastClaimDate := Some(today));
    store.SaveProfileState(profile, s);
    r := ClaimResult(true, s.balance);
  }

  /** `placeBet`: the single gate every stake passes; a rejected bet saves nothing beyond the lazy init. */
  method PlaceBet(store: Store, profile: string, amount: int) returns (r: BetResult)
    modifies store
    ensures var s := Record(old(store.items), profile);
      match Debit(s, amount)
      case Failure(e) => r == BetRejected(e) && store.items == Initialized(old(store.items), profile)
      case Success(t) => r == BetOk(t.balance) && store.items == WithBalance(old(store.items), profile, t.balance)
    ensures r.BetOk? ==> store.items == WithBalance(old(store.items), profile, Balance(old(store.items), profile) - amount)
  {
    SaveOverInitialized(store.items, profile, Record(store.items, profile).(balance := Balance(store.items, profile) - amount));
    var s := LoadOrInit(store, profile);
    if amount <= 0 {
      return BetRejected(InvalidAmount);
    }
    if s.balance < amount {
      return BetRejected(InsufficientFunds);
    }
    s := s.(balance := s.balance - amount);
    store.SaveProfileState(profile, s);
    r := BetOk(s.balance);
  }

  /** `payout`: credits `max(0, floor(amount))`; never fails. */
  method Payout(store: Store, profile: string, amount: real) returns (b: int)
    modifies store
    ensures var t := Credit(Record(old(store.items), profile), amount);
      b == t.balance && store.items == WithBalance(old(store.items), profile, t.balance)
    ensures b == Balance(old(store.items), profile) + FloorClamp(amount)
  {
    SaveOverInitialized(store.items, profile, Credit(Record(store.items, profile), amount));
    var s := LoadOrInit(store, profile);
    s := s.(balance := s.balance + FloorClamp(amount));
    store.SaveProfileState(profile, s);
    b := s.balance;
  }

  // ---------------------------------------------------------------------------
  // Properties of the ledger

  /** Re-initialising changes nothing: a second `initProfile` sees and returns the same record. */
  lemma InitIdempotent(items: Items, profile: string)
    ensures Initialized(Initialized(items, profile), profile) == Initialized(items, profile)
    ensures Record(Initialized(items, profile), profile) == Record(items, profile)
    ensures LoadFrom(items, profile) == None ==> Record(Initialized(items, profile), profile) == FRESH
  {
  }

  /** An operation's save is what the next operation on the same profile reads. */
  lemma RecordAfterSave(items: Items, profile: string, s: ProfileState)
    ensures Record(Save(items, profile, s), profile) == s
    ensures Initialized(Save(items, profile, s), profile) == Save(items, profile, s)
  {
    SaveThenLoad(items, profile, s);
  }

  /** A balance-only save of one profile leaves what every other profile loads unchanged. */
  lemma WithBalanceLeavesOthers(items: Items, p: string, balance: int, q: string)
    requires p != q
    ensures LoadFrom(WithBalance(items, p, balance), q) == LoadFrom(items, q)
  {
    SaveLeavesOthers(items, p, q, Record(items, p).(balance := balance));
  }

  /** Saving over a lazily initialised record is saving over the original storage. */
  lemma SaveOverInitialized(items: Items, profile: string, s: ProfileState)
    ensures Save(Initialized(items, profile), profile, s) == Save(items, profile, s)
  {
  }

  /** Two balance-only saves of one profile amount to the second one. */
  lemma {:induction false} WithBalanceTwice(items: Items, profile: string, x: int, y: int)
    ensures WithBalance(WithBalance(items, profile, x), profile, y) == WithBalance(items, profile, y)
  {
    RecordAfterSave(items, profile, Record(items, profile).(balance := x));
  }

  /**
   * A stake and then, when `paid`, a payout of `amount` (nothing is saved
   * otherwise) amount to one balance-only save.
   */
  lemma StakeThenPay(items: Items, mid: Items, after: Items, profile: string, stake: int, paid: bool, amount: int)
    requires mid == WithBalance(items, profile, Balance(items, profile) - stake)
    requires paid ==> after == WithBalance(mid, profile, Balance(mid, profile) + amount)
    requires !paid ==> after == mid && amount == 0
    ensures after == WithBalance(items, profile, Balance(items, profile) - stake + amount)
    ensures Balance(after, profile) == Balance(items, profile) - stake + amount
  {
    if paid {
      WithBalanceTwice(items, profile, Balance(items, profile) - stake, Balance(items, profile) - stake + amount);
    }
  }

  /** Lazy initialisation followed by a balance-only save is that save alone. */
  lemma WithBalanceOverInitialized(items: Items, profile: string, x: int)
    ensures WithBalance(Initialized(items, profile), profile, x) == WithBalance(items, profile, x)
  {
    InitIdempotent(items, profile);
  }

  /** A successful claim blocks a second one the same day and not one on another day. */
  lemma ClaimOncePerDay(s: ProfileState, today: string, other: string)
    requires Claim(s, today).Some?
    ensures Claim(Claim(s, today).value, today) == None
    ensures other != today ==> Claim(Claim(s, today).value, other).Some?
  {
  }

  /** No ledger change can make a non-negative balance negative. */
  lemma BalanceStaysNonNegative(s: ProfileState, amount: int, credit: real, v: real, today: string)
    requires s.balance >= 0
    ensures Debit(s, amount).Success? ==> Debit(s, amount).value.balance >= 0
    ensures Credit(s, credit).balance >= 0
    ensures s.(balance := FloorClamp(v)).balance >= 0
    ensures Claim(s, today).Some? ==> Claim(s, today).value.balance >= 0
  {
  }

  /** Two claims on one day and one on the next: the second fails and leaves the balance as the first left it. */
  method DailyClaimSequence(store: Store, profile: string, today: string, tomorrow: string)
    requires tomorrow != today
    modifies store
    ensures Balance(store.items, profile) == Balance(old(store.items), profile)
        + (if CanClaim(Record(old(store.items), profile), today) then 2 else 1) * DAILY_AMOUNT
  {
    var first := ClaimDaily(store, profile, today);
    RecordAfterSave(old(store.items), profile, Record(old(store.items), profile));
    var second := ClaimDaily(store, profile, today);
    assert !second.ok && second.balance == Balance(store.items, profile);
    var third := ClaimDaily(store, profile, tomorrow);
    assert third.ok;
  }

  /** A round trip through the ledger: 1000 tokens, a 100 stake, a 200 win. */
  method BetPayoutCycle(store: Store, profile: string)
    requires Balance(store.items, profile) == 1000
    modifies store
    ensures Balance(store.items, profile) == 1100
  {
    var bet := PlaceBet(store, profile, 100);
    assert bet == BetOk(900);
    var b := Payout(store, profile, 200.0);
    assert b == 1100;
    var fraction := Payout(store, profile, 0.9);
    assert fraction == 1100;
  }
}
