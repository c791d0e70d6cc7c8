# Mini casino: ledger, persistence and game rules in Dafny

This project models the core of the mini casino browser app:

- **Storage** (js/storage.js): one saved record per profile, under the key `mini-casino:<profile>:state`. A value that is missing, empty or cannot be parsed loads as nothing.
- **Wallet** (js/wallet.js): the token ledger. Every operation loads the profile's record, creating a fresh one lazily if none loads. It then checks and changes the record and saves it back. The operations are `initProfile`, `getBalance`, `setBalance`, `canClaimToday`, `claimDaily`, `placeBet` and `payout`.
- **Blackjack** (js/games/blackjack.js):
  - the six-deck shoe, built, Fisher–Yates shuffled and drawn from;
  - card and hand values, and blackjack;
  - the Deal, Hit, Stand and Double handlers;
  - the dealer's draw-to-17 loop and the settlement table.
- **Slots** (js/games/slots.js):
  - the weighted symbol list and the 3×3 grid;
  - the one or five paylines and the line evaluation;
  - the bet and win arithmetic of the spin button.
- **Roulette** (js/games/roulette.js):
  - the red and black tables and the five bet kinds;
  - the straight-number prompt;
  - the spin, which stakes the bet, draws 0..36 and pays.

**Files and how state is represented:**

- `wrappers.dfy`: `Option` and `Result`.
- `storage.dfy`: the browser's `localStorage` is the class `Storage.Store`, whose field is a map from keys to raw values.
- `wallet.dfy`: the ledger keeps no state of its own. Its operations are methods that change a `Store`.
- `random.dfy`: `randInt` draws from `Random.Rng`, an endless stream of 32-bit words. Every call consumes the next word, and `Scale` is the integer form of `min + floor(x / 2^32 * span)`.
- `cards.dfy`: the pure card rules.
- `blackjack.dfy`: the shoe and the round. The script's module-level variables are the fields of `Blackjack.Table`.
- `slots.dfy`: the weighted list is the field of `Slots.SlotMachine`. Pays are kept in halves, so the lemon's 1.5 is 3.
- `roulette.dfy`: the table's chosen bet kind and straight number are the fields of `Roulette.Table`.

**Inputs passed to the model:**

- The current profile name.
- "Today".
- The values typed into the inputs.
- Which button was clicked: each handler is a method.

## Model

| member | source | states |
|---|---|---|
| Storage.K | js/storage.js:4-6 | the key is `mini-casino:` followed by the profile and `:state`; the profile can be read back from a fixed slice of the key |
| Storage.KInjective | js/storage.js:4-6 | different profiles have different keys |
| Storage.Parse | js/storage.js:11 | a value that does not parse gives nothing instead of an error; an encoded record parses back to itself |
| Storage.ParseEncode | js/storage.js:11-15 | a record written with `JSON.stringify` parses back to the same record |
| Storage.LoadFrom | js/storage.js:8-12 | a missing key, an empty value or an unparsable value loads as nothing; an encoded record loads as that record |
| Storage.Save | js/storage.js:14-16 | saving adds or replaces exactly the profile's key |
| Storage.SaveThenLoad | js/storage.js:8-16 | loading after saving `s` gives `s` |
| Storage.SaveLeavesOthers | js/storage.js:4-16 | saving one profile leaves what every other profile loads unchanged |
| Storage.Store.constructor | js/storage.js:8-16 | the store starts with the given content |
| Storage.Store.LoadProfileState | js/storage.js:8-12 | `loadProfileState` is `LoadFrom` on the store's current content |
| Storage.Store.SaveProfileState | js/storage.js:14-16 | the new content is the old one with the profile's key set; the profile then loads the saved record; no other profile's record changes |
| Storage.ListKnownProfiles | js/storage.js:18-21 | always the empty list |
| Wallet.Record | js/wallet.js:5-12 | the record an operation works on is the one that loads, or the fresh `{0, null, {0,0}}` when none loads |
| Wallet.Initialized | js/wallet.js:5-12 | after lazy initialisation the profile loads its record; the store is untouched when a record already loaded; other profiles are unaffected |
| Wallet.WithBalance | js/wallet.js:44-48 | the store after an operation that changes only the balance: the profile's key is added if it was missing, and the profile then loads its old record (or the fresh one) with the new balance |
| Wallet.WithBalanceLeavesOthers | js/wallet.js:44-55 | setting one profile's balance leaves what every other profile loads unchanged |
| Wallet.SaveOverInitialized | js/wallet.js:5-12 | saving over the lazily initialised store gives the same store as saving over the original one |
| Wallet.WithBalanceTwice | js/wallet.js:43-57 | setting the balance twice is the same as setting it once to the second value |
| Wallet.WithBalanceOverInitialized | js/wallet.js:5-12 | setting the balance after the lazy initialisation is the same as setting it directly |
| Wallet.StakeThenPay | js/wallet.js:43-57 | a `placeBet` of `stake` followed by a `payout` of `amount` (or none, for 0) leaves the store with the balance changed by exactly `amount - stake` and nothing else changed |
| Wallet.FloorClamp | js/wallet.js:21 | `max(0, floor(v))` is never negative, is 0 for negative `v`, and otherwise lies within 1 below `v` |
| Wallet.Debit | js/wallet.js:45-47 | rejected as an invalid amount exactly when `amount <= 0`; rejected for lack of funds exactly when `0 < amount` and `balance < amount`; otherwise the balance drops by `amount`, stays non-negative, and nothing else changes |
| Wallet.Credit | js/wallet.js:54 | only the balance changes, it never decreases, it is unchanged for amounts below 1, and otherwise it grows by the floor of the amount |
| Wallet.Claim | js/wallet.js:35-37 | a claim succeeds exactly when the last claim was not today; it adds 10000 and records today; the claimed record cannot claim again today |
| Wallet.InitProfile | js/wallet.js:5-12 | returns the stored record or the fresh one; the store is the lazily initialised one |
| Wallet.LoadOrInit | js/wallet.js:15 | the load-or-initialise fallback returns the record and leaves the store initialised |
| Wallet.GetBalance | js/wallet.js:14-17 | the record's balance; the store is initialised for the profile |
| Wallet.SetBalance | js/wallet.js:19-24 | stores and returns `max(0, floor(v))`, keeping the other fields |
| Wallet.CanClaimToday | js/wallet.js:26-30 | true exactly when the last claim date is not today |
| Wallet.ClaimDaily | js/wallet.js:32-40 | on the day of the last claim: `ok=false` and the balance is unchanged; otherwise `ok=true` with 10000 more and today recorded |
| Wallet.PlaceBet | js/wallet.js:43-50 | a bet is rejected exactly as `Debit` rejects it, and then only the lazy initialisation is saved; an accepted bet returns `balance - amount` and the new store is the old one with the profile's balance set to it |
| Wallet.Payout | js/wallet.js:52-57 | the balance grows by exactly `max(0, floor(amount))`, the new balance is returned, and the new store is the old one with the profile's balance set to it |
| Wallet.InitIdempotent | js/wallet.js:5-12 | a second `initProfile` changes nothing and sees the same record as the first |
| Wallet.RecordAfterSave | js/wallet.js:5-12 | a saved record is the one the next operation works on, and initialisation then changes nothing |
| Wallet.ClaimOncePerDay | js/wallet.js:32-40 | after a claim today, another claim today fails and a claim on any other day succeeds |
| Wallet.BalanceStaysNonNegative | js/wallet.js:19-57 | debit, credit, `setBalance` and the daily claim never make a non-negative balance negative |
| Wallet.DailyClaimSequence | js/wallet.js:26-40 | claiming today, today again, then tomorrow adds 20000 if today's claim was still open and 10000 otherwise |
| Wallet.BetPayoutCycle | js/wallet.js:43-57 | from 1000, betting 100 and receiving 200 leaves 1100; a payout of 0.9 adds nothing |
| Random.Scale | js/rng.js:9-13 | for `min <= max`, `randInt` lies in `min..max` |
| Random.ScaleBelowSpan | js/rng.js:12 | `floor(x / 2^32 * span)` lies in `0..span-1` |
| Random.Rng.constructor | js/rng.js:2-7 | the stream starts at its first word |
| Random.Rng.RandInt | js/rng.js:9-13 | consumes one word and returns its scaled value, which lies in `min..max` |
| Cards.CardValue | js/games/blackjack.js:88-92 | every card is worth 2 to 11; exactly an ace is 11; exactly ten, jack, queen and king are 10 |
| Cards.NumberCardValue | js/games/blackjack.js:91 | a number card is worth its number, which is its place in the rank list |
| Cards.RawSum | js/games/blackjack.js:94-100 | the sum with every ace as 11 is between 2 and 11 per card |
| Cards.Aces | js/games/blackjack.js:94-100 | there are at most as many aces as cards; the raw sum is 11 per ace plus between 2 and 10 per other card |
| Cards.Reduce | js/games/blackjack.js:101-104 | the ace loop subtracts 10 per ace while over 21: the fewest reductions that bring the total to 21 or under, or all of them |
| Cards.Total | js/games/blackjack.js:94-106 | the hand value lies between the all-aces-as-1 sum and the raw sum; it is at most 21 whenever the all-aces-as-1 sum is; over 21 only with every ace counted as 1; an ace is counted as 1 only when 11 would bust the hand |
| Cards.HandValue | js/games/blackjack.js:94-106 | the two loops compute exactly `Total` |
| Cards.IsBlackjack | js/games/blackjack.js:108-110 | a blackjack is exactly two cards whose raw sum is 21, and it holds exactly one ace |
| Cards.BlackjackIsAceAndTen | js/games/blackjack.js:108-110 | a two-card hand is a blackjack exactly when it is an ace and a ten-valued card |
| Cards.HardTotalGrows | js/games/blackjack.js:303-308 | every drawn card raises the all-aces-as-1 total, so the dealer loop ends |
| Cards.Row | js/games/blackjack.js:71-73 | one card per rank, in rank order |
| Cards.Suited | js/games/blackjack.js:70-74 | one row of every rank per suit: `|ranks| * |suits|` cards |
| Cards.Unshuffled | js/games/blackjack.js:68-75 | `52 * decks` cards |
| Cards.RowCount | js/games/blackjack.js:71-73 | a card occurs in a suit's row as often as its rank occurs in the rank list |
| Cards.SuitedCount | js/games/blackjack.js:70-74 | a card occurs in one deck as often as its suit occurs in the suit list |
| Cards.RanksInHalves | js/games/blackjack.js:65 | the rank list is the low and the high ranks in order |
| Cards.LowRanksOnce | js/games/blackjack.js:65 | each of ace to six occurs once among the low ranks |
| Cards.HighRanksOnce | js/games/blackjack.js:65 | each of seven to king occurs once among the high ranks |
| Cards.RankOnce | js/games/blackjack.js:65 | every rank occurs once in the rank list |
| Cards.SuitOnce | js/games/blackjack.js:64 | every suit occurs once in the suit list |
| Cards.DeckOnce | js/games/blackjack.js:69-75 | every card occurs exactly once in one deck |
| Cards.UnshuffledCount | js/games/blackjack.js:67-75 | every card occurs exactly `decks` times in the unshuffled shoe |
| Cards.Settle | js/games/blackjack.js:316-322 | a player bust wins nothing; a win lies in `0..4*bet`; a win above the stake needs a standing player and a dealer bust, a higher total or an unanswered blackjack |
| Cards.BustLosesAgainstBust | js/games/blackjack.js:316 | a player bust loses even when the dealer busts too |
| Cards.DealerBustPays | js/games/blackjack.js:316-317 | against a dealer bust a standing player wins `2*bet` (`4*bet` doubled), blackjack or not |
| Cards.DealerBustBeforeBlackjack | js/games/blackjack.js:317-318 | a dealer bust is tested first, so a blackjack against a busted dealer pays `2*bet`, not 3:2 |
| Cards.BlackjackPaysThreeToTwo | js/games/blackjack.js:318 | a blackjack against a standing dealer without one pays `floor(2.5*bet)` |
| Cards.DealerBlackjackWins | js/games/blackjack.js:319 | a dealer blackjack beats every standing hand that is not a blackjack, a three-card 21 included |
| Cards.PushReturnsStake | js/games/blackjack.js:322 | equal totals, two blackjacks included, return exactly `bet`, doubled or not |
| Cards.HigherWinsLowerLoses | js/games/blackjack.js:320-321 | a higher total pays `2*bet` (`4*bet` doubled), a lower one nothing |
| Blackjack.PushRow | js/games/blackjack.js:71-73 | the inner push loop appends one suit's row |
| Blackjack.PushDeck | js/games/blackjack.js:70-74 | the suit loop appends one deck |
| Blackjack.LayOutDecks | js/games/blackjack.js:68-75 | the deck loop lays out the unshuffled shoe |
| Blackjack.Shuffle | js/games/blackjack.js:76-79 | the Fisher–Yates loop only swaps: the shoe keeps its cards, and one word is drawn per swap |
| Blackjack.BuildShoe | js/games/blackjack.js:67-81 | a fresh array of `52 * decks` cards holding every card exactly `decks` times |
| Blackjack.NewShoe | js/games/blackjack.js:84 | a new six-deck shoe: 312 cards, every card exactly six times |
| Blackjack.TakeStake | js/games/blackjack.js:228-237 | the stake is taken exactly when `0 < amount <= balance`; the balance drops by it; otherwise only the lazy initialisation is saved |
| Blackjack.SettleHands | js/games/blackjack.js:313-322 | the if-chain of `finishRound` computes exactly the settlement of the two hands |
| Blackjack.PaySettled | js/games/blackjack.js:324-327 | a positive win sets the balance to the old one plus the win; anything else leaves the store as it was |
| Blackjack.Table.constructor | js/games/blackjack.js:170-176 | a full six-deck shoe holding every card six times, no bet, no round |
| Blackjack.Table.AddChip | js/games/blackjack.js:190-196 | a chip adds its value to the bet |
| Blackjack.Table.ClearBet | js/games/blackjack.js:206-209 | the clear button sets the bet to 0 |
| Blackjack.Table.DrawCard | js/games/blackjack.js:83-86 | with 60 or more cards the drawn card is the last one and is removed; under 60 a new six-deck shoe is built first and one card drawn from it; at least 59 cards remain; no card is ever held more often than six decks hold it |
| Blackjack.Table.DealerDraws | js/games/blackjack.js:303-308 | the dealer draws until the hand is worth at least 17, keeping the cards already held |
| Blackjack.Table.FinishRound | js/games/blackjack.js:297-336 | the win is the settlement of the final hands; a positive win is paid in full and the new store is the old one with that balance; otherwise the store is unchanged; the bet is cleared and the round closed |
| Blackjack.Table.DrawToPlayer | js/games/blackjack.js:264-265 | the drawn card is appended to the player's hand; with 60 or more cards it is the shoe's last card, taken off; otherwise it comes from a fresh six-deck shoe |
| Blackjack.Table.DrawTwo | js/games/blackjack.js:249-255 | two successive draws from a shoe of 61 or more cards are its last two cards, last first |
| Blackjack.Table.DealCards | js/games/blackjack.js:242-256 | the hands are reset and dealt alternately, dealer first: dealer gets the first and third cards drawn, the player the second and fourth; from a shoe of 63 or more cards these are its last four, taken off |
| Blackjack.Table.Deal | js/games/blackjack.js:218-260 | refused exactly for an empty name, `bet <= 0` or `balance < bet`, with nothing dealt and at most the lazy initialisation saved; otherwise the bet is debited and two cards dealt each; a blackjack on either side settles at once and the store holds the old balance less the bet plus a positive win; otherwise the round stays open, doubling is allowed, and the store holds the old balance less the bet |
| Blackjack.Table.OpenStaked | js/games/blackjack.js:240-259 | after the stake: two cards each, and a blackjack on either side settles the round, leaving the balance the pre-stake one less the bet plus a positive win; otherwise the round stays open with the store untouched |
| Blackjack.Table.StartRound | js/games/blackjack.js:240-256 | the round is open with doubling allowed and two cards in each hand |
| Blackjack.Table.CheckNaturals | js/games/blackjack.js:259 | the round stays open exactly when neither hand is a blackjack, with nothing changed; otherwise the dealer plays, the round is settled at the normal rates and a positive win is paid |
| Blackjack.Table.Hit | js/games/blackjack.js:262-271 | ignored outside a round; one card more and no doubling afterwards; a bust settles the round with no win; the store is never written |
| Blackjack.Table.Stand | js/games/blackjack.js:273-276 | ignored outside a round; otherwise the dealer reaches 17, the round is settled, and the store holds the old balance plus a positive win |
| Blackjack.Table.Double | js/games/blackjack.js:278-295 | as intended: ignored unless doubling is allowed; refused when the balance is below the bet, saving only the lazy initialisation; otherwise a second `bet` is debited, one card dealt, the round settled at doubled rates, and the store holds the old balance less the bet plus a positive win |
| Blackjack.Table.DoubleDown | js/games/blackjack.js:291-294 | after the second stake: one more card, the dealer reaches 17, the round is settled at doubled rates, and the balance is the pre-stake one less the bet plus a positive win |
| Blackjack.Table.DoubleAsWritten | js/games/blackjack.js:278-295 | as written: the second stake is taken and a card dealt, then the handler stops at `renderHands`, leaving the round open, unsettled and no longer doublable |
| Blackjack.DoubledWinAsWritten | js/games/blackjack.js:278-295 | after the stopped double, the round can only be settled as an undoubled hand, so a dealer bust pays `2*bet` for a `2*bet` stake, less than the doubled rate |
| Slots.Repeat | js/games/slots.js:28 | `n` copies of one icon |
| Slots.RepeatCount | js/games/slots.js:28 | the inner push loop adds exactly `n` copies of its icon and nothing else |
| Slots.Expand | js/games/slots.js:26-29 | the weighted list is as long as the total weight |
| Slots.ExpandCount | js/games/slots.js:26-29 | each icon occurs as often as the summed weight of its symbols |
| Slots.WeightOfDistinct | js/games/slots.js:15-22 | with distinct icons, an icon's weight is its symbol's own weight |
| Slots.WeightOfAbsent | js/games/slots.js:15-22 | an icon no symbol shows has no weight |
| Slots.ExpandFromSymbols | js/games/slots.js:26-29 | every entry of the weighted list is some symbol's icon |
| Slots.TotalWeightIs100 | js/games/slots.js:15-22 | the weights add up to 100 |
| Slots.SymbolWeight | js/games/slots.js:15-22 | in the table, each symbol's icon weighs that symbol's weight |
| Slots.WeightedTable | js/games/slots.js:15-29 | the weighted list has 100 entries, each icon exactly its weight times |
| Slots.FindSymbol | js/games/slots.js:70 | `find` returns a symbol with the icon when there is one, and nothing only when no symbol has it |
| Slots.FindSymbolTotal | js/games/slots.js:70-71 | every icon is found, with a pay between 1.5 and 20 |
| Slots.GetLines | js/games/slots.js:50-59 | every line has three cells inside the grid |
| Slots.GetLinesShape | js/games/slots.js:50-59 | mode 1 gives only the middle row; any other mode gives five distinct lines: the three rows and both diagonals |
| Slots.LinePay | js/games/slots.js:67-74 | a line pays exactly when its three cells are equal, between 1.5 and 20 |
| Slots.EvalWin | js/games/slots.js:62-78 | the loop's multiplier is the summed pay of the matching lines, and its cells are those of the matching lines in order |
| Slots.NextLine | js/games/slots.js:66-76 | one more line adds its own pay to the multiplier and its cells, if it matches, to the winning cells |
| Slots.LinesPay | js/games/slots.js:62-78 | the total multiplier is at most 20 per line played |
| Slots.WinningCells | js/games/slots.js:62-78 | the winning cells come in threes, at most three per line played, and all lie inside the grid |
| Slots.LinesPayZeroIff | js/games/slots.js:62-78 | the multiplier is zero exactly when no line matches |
| Slots.WinningCellsPerLine | js/games/slots.js:73 | three winning cells per matching line |
| Slots.LinesPayBounds | js/games/slots.js:62-78 | each matching line adds between 1.5 and 20 to the multiplier |
| Slots.BetPerLine | js/games/slots.js:130 | at least 100; otherwise the floor of the typed number; a non-number counts as 0 |
| Slots.LinesCount | js/games/slots.js:131 | 5 exactly when the selector reads 5, else 1 |
| Slots.WinAmount | js/games/slots.js:162 | `floor(betPerLine * multiplier)`; zero for a zero multiplier |
| Slots.TotalBet | js/games/slots.js:130-132 | the stake `betPerLine * linesCount` is at least 100 |
| Slots.SpinStakeAndWin | js/games/slots.js:130-132 | the stake is at least 100, and a win is at most 20 times the stake |
| Slots.WinBound | js/games/slots.js:162 | at most 20 per line on every line bounds the win by 20 times the stake |
| Slots.Cell | js/games/slots.js:32-35 | the pick at a drawn index is an entry of the weighted list |
| Slots.GridFrom | js/games/slots.js:38-46 | a 3×3 grid filled row by row from consecutive draws |
| Slots.GridFromCells | js/games/slots.js:38-46 | the cell in row `r`, column `c` is the pick of draw number `3*r + c` |
| Slots.GridShowsSymbols | js/games/slots.js:15-46 | every cell of a spun grid shows an icon of the symbol table |
| Slots.SlotMachine.constructor | js/games/slots.js:25-30 | the weighted list is built when the script loads |
| Slots.SlotMachine.BuildWeighted | js/games/slots.js:26-29 | the push loops produce the weighted list, symbol by symbol in table order |
| Slots.SlotMachine.PickSymbol | js/games/slots.js:32-35 | one draw in `0..99` picks the entry at that index |
| Slots.SlotMachine.SpinGrid | js/games/slots.js:38-46 | nine draws fill the grid row by row |
| Slots.SlotMachine.SpinRow | js/games/slots.js:40-42 | three draws fill one row, each an entry of the weighted list |
| Slots.SlotMachine.AnimateAndSpin | js/games/slots.js:147-153 | the eight animation grids consume 72 draws; the final grid comes from the next nine |
| Slots.SlotMachine.PlayRound | js/games/slots.js:146-164 | after 72 animation draws the final grid comes from the next nine; its multiplier and winning cells are those of the played lines; a positive multiplier pays `floor(betPerLine * multiplier)` and the store holds the old balance plus the win; otherwise the store is unchanged |
| Slots.SlotMachine.PayWin | js/games/slots.js:160-164 | the win is `floor(betPerLine * multiplier)`; it is paid only for a positive multiplier, and the store then holds the old balance plus the win |
| Slots.SlotMachine.Spin | js/games/slots.js:125-174 | nothing happens without a name; a stake `placeBet` rejects stops the spin with only the lazy initialisation saved and no draw; otherwise 81 words are drawn, the final grid, multiplier, cells and win are those of the played lines, and the store holds the old balance less the stake plus the win |
| Slots.SlotMachine.SpinActive | js/games/slots.js:127-170 | the same, for any non-empty weighted list |
| Slots.SlotMachine.PlayStaked | js/games/slots.js:142-170 | after the stake, the spin leaves the store with the pre-stake balance less the stake plus the win |
| Roulette.EighteenEach | js/games/roulette.js:92-97 | each list has 18 numbers, strictly increasing, so no repeats |
| Roulette.IsRed | js/games/roulette.js:92-94 | only numbers from 1 to 36 are red |
| Roulette.IsBlack | js/games/roulette.js:95-97 | only numbers from 1 to 36 are black |
| Roulette.RedIsWheelRed | js/games/roulette.js:92-94 | `isRed` agrees with the single-zero wheel's colour rule |
| Roulette.RedInRange | js/games/roulette.js:92-94 | the same, for 1..36 |
| Roulette.RedListed | js/games/roulette.js:93 | every listed red number is red on the wheel |
| Roulette.RedAt | js/games/roulette.js:93 | the red list runs through the four blocks of the wheel rule in order |
| Roulette.BlackIsWheelBlack | js/games/roulette.js:95-97 | `isBlack` holds exactly for the numbers 1..36 that are not red |
| Roulette.BlackInRange | js/games/roulette.js:95-97 | the same, for 1..36 |
| Roulette.BlackListed | js/games/roulette.js:96 | every listed black number lies in 1..36 and is not red |
| Roulette.BlackAt | js/games/roulette.js:96 | the black list runs through the four blocks in order |
| Roulette.ColoursPartition | js/games/roulette.js:92-97 | red and black are disjoint, together they are 1..36, and 0 is neither |
| Roulette.Payoff | js/games/roulette.js:76-82 | no kind chosen wins nothing; a win is `36*bet` for a straight bet and `2*bet` for any other kind; only a straight bet can win on 0 |
| Roulette.ComputeWin | js/games/roulette.js:76-82 | the five independent tests give the pay of the chosen kind |
| Roulette.EvenMoneyBets | js/games/roulette.js:78-81 | red, black, odd and even pay `2*bet` exactly on their numbers and never on 0 |
| Roulette.StraightPays36 | js/games/roulette.js:82 | a straight bet pays `36*bet` exactly when the ball lands on the chosen number |
| Roulette.StraightPockets | js/games/roulette.js:82 | a whole chosen number wins on one pocket; a fraction the prompt let through wins on none |
| Roulette.NoGainWithoutStake | js/games/roulette.js:76-82 | a bet that is not positive brings nothing back |
| Roulette.EighteenWinningPockets | js/games/roulette.js:78-81 | each even-money bet wins on 18 of the 37 pockets |
| Roulette.WinIsPocket | js/games/roulette.js:78-81 | every winning number of an even-money bet is one of its 18 listed pockets |
| Roulette.PocketWins | js/games/roulette.js:78-81 | every listed pocket wins |
| Roulette.Pockets | js/games/roulette.js:92-97 | each even-money bet has 18 listed winning pockets, in strictly increasing order |
| Roulette.IncreasingDistinct | js/games/roulette.js:92-97 | a strictly increasing list of pockets names as many distinct pockets as it has entries |
| Roulette.IncreasingStep | js/games/roulette.js:92-97 | the last entry of a strictly increasing list is above every earlier one |
| Roulette.Table.constructor | js/games/roulette.js:17-18 | no bet kind and no number chosen |
| Roulette.Table.Spin | js/games/roulette.js:61-90 | without a name nothing happens; `balance < bet` stops before any debit or draw; otherwise one draw gives the result, the win is the pay of the chosen kind, and for a positive bet the store holds the old balance less the bet plus a positive win; a bet that is not positive changes nothing beyond the lazy initialisation |
| Roulette.Table.StakeAndDraw | js/games/roulette.js:70-89 | once the balance covers the bet: one draw in 0..36, the pay of the chosen kind, and the store with the old balance less a positive bet plus a positive win |
| Roulette.Table.DrawAndPay | js/games/roulette.js:72-89 | one draw in 0..36 gives the result, the win is the pay of the chosen kind, and only a positive win changes the store, by exactly that amount |
| Roulette.Table.SetBet | js/games/roulette.js:34-38 | the kind is remembered and the wheel spins at once, with the outcome and the new store of `spin` for that kind |
| Roulette.Table.ChooseStraight | js/games/roulette.js:25-32 | a cancelled prompt does nothing; a number below 0 or above 36 is refused with nothing changed; any other number is kept and played as a straight bet, which pays `36*bet` exactly on that number, with the new store of `spin` |

## Left out

- DOM, canvas, animation, toasts, alerts and timers are left out: they only display.
  - This covers `makeCardEl`, `appendAnimated`, `flipDealerHole`, `delay`, `showWinBanner`, `setControls`, `updateTopBalance`, `updateBetUI`, `gridToDOM`, `highlightWin` and `drawWheel`.
  - The slot animation's eight grids are kept only for the random words they consume.
- The button enabling done by `setControls` is left out. The handlers are modelled as functions that can be called in any order.
  - For example, `Blackjack.Table.Deal` does not check for an open round, because the source relies on the disabled Deal button for that.
- The slot machine's `spinning` flag and the `await` points are left out. The model runs one handler to completion at a time, so no click can interleave with another.
- js/ui.js, js/main.js and the current-profile pointer in `sessionStorage` are left out. The profile name is a parameter.
- `crypto.getRandomValues` is not modelled. It is replaced by the word stream of `Random.Rng`.
- The floating-point product of js/rng.js:12 is replaced by exact integer arithmetic. That is the same value for every span the games use.
- `new Date()` is left out. "Today" is a parameter.
- JSON encoding and decoding are abstracted: a raw value is either an encoded record or text that does not parse.
- The `stats` counters are stored but never changed by the core, so they are carried along unchanged.
- Balances and amounts are whole numbers in the model:
  - Wallet.PlaceBet: takes only whole amounts. With a fractional stake the source would store a fractional balance, which the model's integer balance cannot hold.
  - Roulette.Table.Spin: takes the bet as a whole number. The source reads it with `Number()`, so it may be fractional or `NaN`, and neither is modelled.
  - Roulette.Table.ChooseStraight: a prompt answer that is `NaN` is not modelled. Like a fraction, it passes the range check and can never win.
  - Slots.BetPerLine: an infinite input is not modelled. The source would then try an infinite stake, which `placeBet` refuses.
- Concurrent tabs sharing one storage are not modelled; the source does nothing about them.

## Findings

| source | as written | input that shows it | evidently intended | confidence | as-written member | corrected member |
|---|---|---|---|---|---|---|
| js/games/blackjack.js:293 | `onDouble` calls `renderHands(false)`. No script defines it, so the call throws after the second stake is debited and a card is dealt. `finishRound(true, true)` never runs: the round stays open, with doubling off, and is later settled by Stand or Hit as an undoubled hand. | Any Double with `balance >= bet`. For example, bet 100, then a dealer bust after Stand: 200 is staked and 200 comes back, instead of 400. | The round is settled right away at the doubled rates, via `finishRound(true, true)`. | medium (not executed; the page markup is not part of this model and could in principle define a global `renderHands`) | Blackjack.Table.DoubleAsWritten, Blackjack.DoubledWinAsWritten | Blackjack.Table.Double |
