# CryptEx LP-token locker, fee policy and frontend helpers in Dafny

This project models the core of the CryptEx lock dApp.

- **The locker.** A `CryptExLpTokenLocker` contract holds LP tokens in
  time-locked deposits. Each deposit sits under a lock id that counts up
  from 0. An owner can top up a lock, extend its unlock time, hand it to
  another owner, and withdraw part or all of it once unlocked. Every owner
  has an index of their active lock ids.
- **The fees.** Each deposit pays a fee chosen by fee method:
  - method 0: a native-coin fee plus an LP cut;
  - method 1: a fee in the CRX token plus the same LP cut;
  - method 2: a flat native-coin fee and no cut.

  A replaceable fees calculator supplies the amounts through its
  `getFees()` tuple.
- **The frontend.** Three pure pieces are modelled:
  - the BigNumber base-unit conversions `toWeiWithDecimals` and
    `fromWeiWithDecimals`;
  - the amount field's input sanitiser;
  - the pair list's row filter.

The contract's Solidity text is not part of this model. Its behaviour is
the one its Hardhat test suites pin down
(`smart-contracts/test/CryptExLpTokenLocker.test.js`,
`smart-contracts/test/FeesCalculator.test.js`).

## Modules

- **`Base`** (`base.dfy`): `Option`, `Result` and `Outcome` (pass or fail with an error).
- **`Fees`** (`fees.dfy`):
  - the fee-method codes and their round trip;
  - the quote `(nativeFee, alternateFee, flatFee, lpBps)`;
  - what each method charges;
  - the LP cut `lpBps * amount / 10000`, rounded down.
- **`Ledger`** (`ledger.dfy`), the `Locker` class.
  - **State:**
    - the lock map;
    - the next id;
    - each owner's id list, plus a position map for swap-and-pop removal;
    - the fees calculator and the fees receiver;
    - one balance map for the native coin and every ERC-20 token.
  - **Calls:** each public call checks first and then commits, so a
    failing call changes nothing. It returns the error or the event.
    A deposit that nets 0 tokens after the LP cut and a withdrawal of 0
    are refused (`ZeroAmount`). A lock with no tokens counts as closed, so
    an active lock always holds tokens.
  - **Invariant (`Valid`):**
    - every active lock has an id below the next id and holds a positive
      amount;
    - the owner index names exactly the active locks, each at its
      recorded position;
    - the locker's own balance of every LP token covers the sum held by
      the active locks of that token (`Covered`).
  - **Transfers:** the balance effects of each call are stated by value
    functions: `Move`, `PassOn` and `LockSettlement`.
- **`LockerScenarios`** (`locker_scenarios.dfy`): each test case of the
  two suites, replayed on a freshly deployed locker, with the observed
  values proved as postconditions.
- **`Units`** (`units.dfy`):
  - `toWeiWithDecimals` and `fromWeiWithDecimals` over exact rationals;
  - BigNumber's ROUND_HALF_UP and its 20-place division written out.
- **`AmountInput`** (`amount_input.dfy`):
  - the two chained `replace` calls as sequence functions;
  - the second regular expression as a left-to-right scan, proved equal
    to "drop the last dot when there are two or more".
- **`PairsList`** (`pairs_list.dfy`):
  - the `filteredRows` predicate, `Keeps`, and `Array.filter`; each
    branch of `Keeps` is stated by its own lemma (`NoFilterKeepsAll`,
    `AddressSelects`, `AddressIgnoresLocked`, `LockedSelects`,
    `NeitherKeepsAll`);
  - the "Pair not found" branch.

## Model

| member | source | states |
|---|---|---|
| Fees.MethodCode | smart-contracts/test/FeesCalculator.test.js:57-58 | every fee method has a code below 3 |
| Fees.MethodOfCode | smart-contracts/test/FeesCalculator.test.js:49-110 | a code names a method exactly when it is 0, 1 or 2, and decoding inverts the encoding |
| Fees.MethodCodeRoundTrip | smart-contracts/test/FeesCalculator.test.js:49-110 | decoding a method's code gives the method back |
| Fees.NativeCharge | smart-contracts/test/FeesCalculator.test.js:49-110 | a fee paid in CRX (method 1) costs no coins, and the coin charge never exceeds fees[0] + fees[2] |
| Fees.AlternateCharge | smart-contracts/test/FeesCalculator.test.js:69-88 | only method 1 charges CRX, and never more than fees[1] |
| Fees.LpCut | smart-contracts/test/FeesCalculator.test.js:105-109 | the flat method takes no LP cut |
| Fees.LpCutFloor | smart-contracts/test/FeesCalculator.test.js:63-67 | outside the flat method the cut is the largest whole c with c * 10000 <= fees[4] * amount |
| Fees.LpCutAtMostAmount | smart-contracts/test/FeesCalculator.test.js:63-67 | with fees[4] at most 10000 basis points the cut never exceeds the deposit, so the escrowed rest is a natural number; below 10000 a positive deposit keeps a positive rest, and at 10000 the cut is the whole deposit |
| Fees.LpCutMonotone | smart-contracts/test/FeesCalculator.test.js:63-67 | a larger deposit never has a smaller cut |
| Ledger.Move | smart-contracts/test/CryptExLpTokenLocker.test.js:235-238 | a transfer succeeds exactly when the sender holds the amount |
| Ledger.MoveBalances | smart-contracts/test/CryptExLpTokenLocker.test.js:235-257 | a transfer lowers the sender by the amount and raises the receiver by it; every other entry is kept |
| Ledger.MoveKeepsOthers | smart-contracts/test/CryptExLpTokenLocker.test.js:235-238 | a transfer touches only its two accounts |
| Ledger.PassOn | smart-contracts/test/FeesCalculator.test.js:62-67 | a deposit whose cut is passed on succeeds exactly when the depositor holds the deposit |
| Ledger.PassOnBalances | smart-contracts/test/CryptExLpTokenLocker.test.js:345-353 | only the three accounts change, and only in that asset: for every account, the depositor loses the deposit, the locker keeps deposit minus cut and the receiver gains the cut, so a depositor who is also the receiver loses deposit minus cut |
| Ledger.Reason | smart-contracts/test/CryptExLpTokenLocker.test.js:140-222 | the revert reason is empty exactly for the errors whose reason string no test shows |
| Ledger.ReasonIdentifies | smart-contracts/test/CryptExLpTokenLocker.test.js:140-222 | a reason string the tests match names exactly one error |
| Ledger.EscrowBelow | smart-contracts/test/CryptExLpTokenLocker.test.js:55-56 | the escrow of ids below n depends only on those locks |
| Ledger.EscrowChangeAt | smart-contracts/test/CryptExLpTokenLocker.test.js:240-241 | changing one lock changes its token's escrow by exactly the difference in what the lock holds |
| Ledger.EscrowCoversLock | smart-contracts/test/CryptExLpTokenLocker.test.js:240-241 | every active lock is part of its token's escrow |
| Ledger.CoveredAtChange | smart-contracts/test/CryptExLpTokenLocker.test.js:240-241 | changing one lock keeps the locker's balances covering the escrow when the balance moves at least as much as the lock |
| Ledger.CoveredAtOwnerChange | smart-contracts/test/CryptExLpTokenLocker.test.js:169-174 | handing a lock to a new owner keeps the escrow covered |
| Ledger.CoveredAtNew | smart-contracts/test/CryptExLpTokenLocker.test.js:54-56 | a new lock paid into the locker keeps the escrow covered |
| Ledger.CoveredAtPartialPayOut | smart-contracts/test/CryptExLpTokenLocker.test.js:236-241 | paying part of a lock to its owner is always possible and leaves the shrunk lock covered |
| Ledger.CoveredAtClose | smart-contracts/test/CryptExLpTokenLocker.test.js:255-273 | paying out a whole lock is always possible and leaves the remaining locks covered |
| Ledger.CoveredAtTopUp | smart-contracts/test/CryptExLpTokenLocker.test.js:345-353 | topping a lock up by the deposit minus the cut that reaches the locker keeps the escrow covered |
| Ledger.NativeSettlement | smart-contracts/test/CryptExLpTokenLocker.test.js:65-72 | the coin transfers of lockTokens never touch a token balance |
| Ledger.NativeSettlementBalances | smart-contracts/test/CryptExLpTokenLocker.test.js:65-72 | for every account, the caller loses exactly the fee (the excess comes back) and the receiver gains it, so a caller who is the receiver keeps its coins; the locker keeps no coins |
| Ledger.LockSettlement | smart-contracts/test/CryptExLpTokenLocker.test.js:75-86 | the lockTokens transfers succeed exactly when the caller holds the CRX fee and the deposit; when the LP token is the CRX token and the fee goes to another account, the caller must hold their sum (`Affordable`) |
| Ledger.SettlementBalances | smart-contracts/test/FeesCalculator.test.js:61-67 | for every account and asset: the locker keeps no coins and gains deposit minus cut of the LP token only; the receiver gains the coin fee, the CRX fee and the cut; the caller pays the coin fee, the CRX fee and the deposit; these net out when the caller is the receiver, and add up when the LP token is the CRX token |
| Ledger.SettlementNet | smart-contracts/test/FeesCalculator.test.js:61-67 | the coin moves, the CRX fee move and the deposit with its passed-on cut, composed, give those per-account totals for every account and token |
| Ledger.KeptChain | smart-contracts/test/CryptExLpTokenLocker.test.js:65-72 | two steps that each touch only some accounts together touch only their union |
| Ledger.SettlementKeepsOthers | smart-contracts/test/CryptExLpTokenLocker.test.js:59-86 | lockTokens touches only the balances of the locker, the caller and the fee receiver |
| Ledger.CoveredAtSettlement | smart-contracts/test/CryptExLpTokenLocker.test.js:54-56 | the new lock's net amount is escrowed by what the settlement leaves the locker |
| Ledger.SwapPop | smart-contracts/test/CryptExLpTokenLocker.test.js:387-394 | removing an index position leaves one fewer id; every other position keeps its id or takes the last; exactly one occurrence of the removed id goes |
| Ledger.DistinctCard | smart-contracts/test/CryptExLpTokenLocker.test.js:383-384 | an id list without repeats counts as many locks as it has entries |
| Ledger.IndexKeepsOwners | smart-contracts/test/CryptExLpTokenLocker.test.js:345-353 | changing a lock's amount or time leaves the owner index consistent |
| Ledger.ListedAfterDrop | smart-contracts/test/CryptExLpTokenLocker.test.js:387-394 | after swap-and-pop every id left in an owner's list is at its recorded position |
| Ledger.LocatedAfterDrop | smart-contracts/test/CryptExLpTokenLocker.test.js:387-394 | after swap-and-pop every remaining lock is listed by its owner at its recorded position and owned by them |
| Ledger.Locker.constructor | smart-contracts/test/CryptExLpTokenLocker.test.js:20-48 | a new locker has no locks, next id 0, empty owner lists, the given calculator and receiver, and meets the invariant |
| Ledger.Locker.TokenLocks | smart-contracts/test/CryptExLpTokenLocker.test.js:268-273 | tokenLocks(id) reads an active lock's record, and the all-zero record (zero owner) for an id never issued or already closed |
| Ledger.Locker.UserLocksLength | smart-contracts/test/CryptExLpTokenLocker.test.js:356-367 | the length of an owner's list is the number of active locks they own |
| Ledger.Locker.UserLockAt | smart-contracts/test/CryptExLpTokenLocker.test.js:380-381 | position i of an owner's list exists exactly when i is below its length, and then it is an active lock of that owner holding a positive amount; otherwise index out of range |
| Ledger.Locker.Enlist | smart-contracts/test/CryptExLpTokenLocker.test.js:369-381 | a new lock's id is appended to its owner's list and the index stays consistent |
| Ledger.Locker.Delist | smart-contracts/test/CryptExLpTokenLocker.test.js:387-394 | a closed lock's id leaves its owner's list: one id fewer, the multiset loses exactly that id, other owners unchanged |
| Ledger.Locker.AddLock | smart-contracts/test/CryptExLpTokenLocker.test.js:281-291 | a lock is stored under the next id, which was unused, the id counter rises by 1, and the id joins the owner's list |
| Ledger.Locker.CloseLock | smart-contracts/test/CryptExLpTokenLocker.test.js:387-394 | a closed lock leaves the ledger and its owner's list, keeping the invariant |
| Ledger.Locker.ReplaceLock | smart-contracts/test/CryptExLpTokenLocker.test.js:240-241 | one lock is replaced by a record with the same owner, keeping the invariant |
| Ledger.Locker.Relist | smart-contracts/test/CryptExLpTokenLocker.test.js:169-180 | a lock's id moves from the old owner's list to the end of the new owner's; the old list loses exactly that id |
| Ledger.OwnerListsAfterMove | smart-contracts/test/CryptExLpTokenLocker.test.js:169-180 | after an id leaves one owner's list and joins the end of another's, only those two lists change; the old list loses exactly that id, and a move to the same owner keeps its multiset |
| Ledger.Locker.ReassignLock | smart-contracts/test/CryptExLpTokenLocker.test.js:169-180 | a lock gets its new owner and the id changes lists, keeping the invariant |
| Ledger.Locker.LockTokens | smart-contracts/test/CryptExLpTokenLocker.test.js:50-116 | an unknown method code fails; a payment below the method's coin fee fails with ETH FEES NOT MET; otherwise the call succeeds exactly when the cut leaves a positive rest of the deposit and the caller's tokens cover the CRX fee and the deposit (`Affordable`), and a cut that takes the whole deposit fails with ZeroAmount; on success the lock for the owner holds deposit minus cut under the next id, the event carries the same values, the id joins the owner's list and the balances are LockSettlement's; a failure changes nothing |
| Ledger.Locker.IncreaseLockAmount | smart-contracts/test/CryptExLpTokenLocker.test.js:336-354 | a caller that does not own an active lock fails with NO ACTIVE LOCK OR NOT OWNER; otherwise the call succeeds exactly when the code is valid, the cut fits and the caller holds the amount; the lock grows by the amount minus the cut, which goes to the receiver |
| Ledger.Locker.PayOutAll | smart-contracts/test/CryptExLpTokenLocker.test.js:255-273 | the whole lock is paid to its owner and the lock is closed |
| Ledger.Locker.PayOutPart | smart-contracts/test/CryptExLpTokenLocker.test.js:236-241 | the amount is paid to the owner and the lock is shrunk by it |
| Ledger.Locker.WithdrawPartially | smart-contracts/test/CryptExLpTokenLocker.test.js:225-242 | only the owner of an active lock can withdraw, and only a positive amount up to what the lock holds (0 fails with ZeroAmount); the owner receives exactly the amount; the lock shrinks by it, or is closed and leaves the owner's list when emptied |
| Ledger.Locker.Withdraw | smart-contracts/test/CryptExLpTokenLocker.test.js:244-274 | the owner of an active lock receives all of it; the record reads as the zero record and the owner's list loses the id; otherwise NO ACTIVE LOCK OR NOT OWNER and nothing changes |
| Ledger.Locker.TransferLock | smart-contracts/test/CryptExLpTokenLocker.test.js:160-209 | a non-owner fails with NO ACTIVE LOCK OR NOT OWNER; the zero address fails with ZERO NEW OWNER; otherwise the owner is replaced and the id moves from the caller's list to the new owner's |
| Ledger.Locker.ExtendLockTime | smart-contracts/test/CryptExLpTokenLocker.test.js:118-158 | a non-owner fails with NOT OWNER; a time not strictly later fails with NOT INCREASING UNLOCK TIME; otherwise only the unlock time changes |
| Ledger.Locker.SetFeesCalculator | smart-contracts/test/CryptExLpTokenLocker.test.js:211-223 | the admin and only the admin replaces the calculator; anyone else fails with the Ownable reason and the calculator stays |
| LockerScenarios.Deploy | smart-contracts/test/CryptExLpTokenLocker.test.js:20-48 | a freshly deployed locker has no locks, and its addresses, calculator and receiver are those of the setup |
| LockerScenarios.LockForDeployer | smart-contracts/test/CryptExLpTokenLocker.test.js:53-56 | a method-0 lock of 1000 with 1 coin stores 999 under the next id; the deployer pays 1 coin and 1000 LP; the receiver gains 1 coin and 1 LP; the locker gains 999 LP and no coins |
| LockerScenarios.DeployerPaysFee | smart-contracts/test/FeesCalculator.test.js:49-110 | a lock by any method succeeds and the receiver gains exactly the method's coin fee, CRX fee and LP cut |
| LockerScenarios.DeployWithAliceLock | smart-contracts/test/CryptExLpTokenLocker.test.js:160-167 | after the setup lock, lock 0 of 999 belongs to Alice and is the only id in any list |
| LockerScenarios.LockStoresRecord | smart-contracts/test/CryptExLpTokenLocker.test.js:88-116 | the event and the record carry lock id 0, owner Alice, 999 tokens and the unlock time; the locker holds 999 |
| LockerScenarios.NativeFeeCollected | smart-contracts/test/CryptExLpTokenLocker.test.js:59-73 | whatever payment at least the fee is attached, the receiver gains exactly 1 coin and the locker keeps none |
| LockerScenarios.NativeFeeNotMet | smart-contracts/test/CryptExLpTokenLocker.test.js:309-317 | 0.9 coins revert with ETH FEES NOT MET and no lock is made |
| LockerScenarios.CrxFeeCollected | smart-contracts/test/CryptExLpTokenLocker.test.js:75-86 | method 1 moves exactly 0.75 CRX to the receiver and no coins |
| LockerScenarios.ExtendMovesUnlockTime | smart-contracts/test/CryptExLpTokenLocker.test.js:118-131 | the owner's later time becomes the lock's unlock time |
| LockerScenarios.ExtendToEarlierFails | smart-contracts/test/CryptExLpTokenLocker.test.js:133-145 | an earlier time reverts with NOT INCREASING UNLOCK TIME and the time stays |
| LockerScenarios.ExtendByOtherFails | smart-contracts/test/CryptExLpTokenLocker.test.js:147-158 | a non-owner reverts with NOT OWNER |
| LockerScenarios.TransferToBob | smart-contracts/test/CryptExLpTokenLocker.test.js:160-181 | the lock's owner becomes Bob; Alice's list length is 0 and Bob's is 1 |
| LockerScenarios.TransferToZeroFails | smart-contracts/test/CryptExLpTokenLocker.test.js:183-195 | the zero address reverts with ZERO NEW OWNER |
| LockerScenarios.TransferByOtherFails | smart-contracts/test/CryptExLpTokenLocker.test.js:197-209 | a non-owner reverts with NO ACTIVE LOCK OR NOT OWNER |
| LockerScenarios.AdminSetsCalculator | smart-contracts/test/CryptExLpTokenLocker.test.js:211-217 | the admin installs the new calculator |
| LockerScenarios.OtherSetsCalculatorFails | smart-contracts/test/CryptExLpTokenLocker.test.js:219-223 | another caller reverts with the Ownable reason and the calculator stays |
| LockerScenarios.WithdrawHalf | smart-contracts/test/CryptExLpTokenLocker.test.js:225-242 | the owner receives 500 and the lock keeps 499 |
| LockerScenarios.WithdrawAll | smart-contracts/test/CryptExLpTokenLocker.test.js:244-274 | the owner receives 999 and the record reads with the zero address as owner |
| LockerScenarios.WithdrawTwiceFails | smart-contracts/test/CryptExLpTokenLocker.test.js:400-415 | a second withdraw reverts with NO ACTIVE LOCK OR NOT OWNER |
| LockerScenarios.IdsIncrement | smart-contracts/test/CryptExLpTokenLocker.test.js:276-292 | the first lock gets id 0 and the second id 1 |
| LockerScenarios.IncreaseTopsUp | smart-contracts/test/CryptExLpTokenLocker.test.js:336-354 | topping up 1000 by method 0 leaves the lock at 1998 |
| LockerScenarios.LengthGrows | smart-contracts/test/CryptExLpTokenLocker.test.js:356-367 | Alice's list length is 0 before her lock and 1 after |
| LockerScenarios.DeployWithBobLock | smart-contracts/test/CryptExLpTokenLocker.test.js:374-376 | the second lock, id 1, is Bob's and his list is [1] |
| LockerScenarios.DeployWithBobLocks | smart-contracts/test/CryptExLpTokenLocker.test.js:374-378 | the third lock, id 2, is Bob's and his list is [1, 2] |
| LockerScenarios.BobsLocks | smart-contracts/test/CryptExLpTokenLocker.test.js:369-398 | Bob's position 1 holds id 2; his length is 2, then 1 and 0 after each withdraw |
| LockerScenarios.CalculatorNativeFee | smart-contracts/test/FeesCalculator.test.js:49-68 | with 1.01 coins attached the receiver gains exactly fees[0] coins and fees[4] * 1000 / 10000 LP |
| LockerScenarios.CalculatorCrxFee | smart-contracts/test/FeesCalculator.test.js:70-89 | with 4.51 CRX approved the receiver gains exactly fees[1] CRX and fees[4] * 1000 / 10000 LP |
| LockerScenarios.CalculatorFlatFee | smart-contracts/test/FeesCalculator.test.js:91-110 | with 23.01 coins attached the receiver gains exactly fees[2] coins and no LP |
| LockerScenarios.CalculatorReplaced | smart-contracts/test/FeesCalculator.test.js:113-119 | the admin installs the mock calculator |
| Units.Pow10 | frontend/utils/pancake-swap-lock/helper.ts:5 | 10^d is positive |
| Units.Pow10Add | frontend/utils/pancake-swap-lock/helper.ts:5 | 10^(a+b) = 10^a * 10^b |
| Units.HalfUp | frontend/utils/pancake-swap-lock/helper.ts:6 | integerValue() gives the nearest integer, a tie going away from zero |
| Units.HalfUpOfInteger | frontend/utils/pancake-swap-lock/helper.ts:6 | an integer rounds to itself |
| Units.HalfUpMonotone | frontend/utils/pancake-swap-lock/helper.ts:6 | rounding keeps order |
| Units.ToWeiWithDecimals | frontend/utils/pancake-swap-lock/helper.ts:3-7 | toWeiWithDecimals is within one half of value * 10^decimals |
| Units.ToWeiExact | frontend/utils/pancake-swap-lock/helper.ts:3-7 | a value with at most `decimals` fractional digits converts exactly |
| Units.ToWeiMonotone | frontend/utils/pancake-swap-lock/helper.ts:3-7 | a larger value never converts to fewer base units |
| Units.FromWeiWithDecimals | frontend/utils/pancake-swap-lock/helper.ts:9-13 | for at most 20 decimals fromWeiWithDecimals is exactly value / 10^decimals |
| Units.KeptExactly | frontend/utils/pancake-swap-lock/helper.ts:12 | dividing by 10^decimals and keeping 20 places is exact for at most 20 decimals |
| Units.RoundTrip | frontend/utils/pancake-swap-lock/helper.ts:3-13 | for at most 20 decimals converting base units to whole units and back gives the same base units |
| Units.RoundTripLosesBeyondPrecision | frontend/utils/pancake-swap-lock/helper.ts:9-13 | with 21 decimals one base unit converts to 0 and does not come back |
| Units.QuantiseExact | frontend/utils/pancake-swap-lock/helper.ts:12 | keeping p * rest places of value / p loses nothing |
| AmountInput.DigitsConcat | frontend/components/AmountInput/index.tsx:17 | the digits of a concatenation are the digits of its parts |
| AmountInput.DotCountConcat | frontend/components/AmountInput/index.tsx:17 | the dots of a concatenation are those of its parts |
| AmountInput.KeepAllowed | frontend/components/AmountInput/index.tsx:17 | the first replace leaves only digits and dots and never lengthens the text |
| AmountInput.KeepAllowedConcat | frontend/components/AmountInput/index.tsx:17 | the first replace works character by character |
| AmountInput.KeepAllowedIdentity | frontend/components/AmountInput/index.tsx:17 | the first replace changes the text exactly when it holds a character other than a digit or a dot |
| AmountInput.KeepAllowedKeepsDigitsAndDots | frontend/components/AmountInput/index.tsx:17 | the first replace keeps every digit, in order, and every dot |
| AmountInput.LastDot | frontend/components/AmountInput/index.tsx:17 | finds the position of a dot with no dot after it, and none exactly when there is no dot |
| AmountInput.DropLastDot | frontend/components/AmountInput/index.tsx:17 | dropping the last dot keeps every digit, and removes exactly one dot when there are two or more and none otherwise |
| AmountInput.DropLastDotCounts | frontend/components/AmountInput/index.tsx:17 | dropping the last dot removes exactly one character when there are two or more dots and nothing otherwise, and adds no character other than a digit or dot |
| AmountInput.LastDotInRun | frontend/components/AmountInput/index.tsx:17 | the greedy `\..*\.` match ends on a dot |
| AmountInput.LastDotInRunIsLastDot | frontend/components/AmountInput/index.tsx:17 | on text without line breaks the greedy match ends on the last dot |
| AmountInput.ReplaceWithoutDots | frontend/components/AmountInput/index.tsx:17 | the second replace leaves text without dots unchanged |
| AmountInput.ReplaceDotPairs | frontend/components/AmountInput/index.tsx:17 | the second replace, as the regular-expression scan performs it, never lengthens the text and keeps every digit in order; its closed form on text without line breaks is ReplaceDropsLastDot |
| AmountInput.ReplaceDropsLastDot | frontend/components/AmountInput/index.tsx:17 | on text without line breaks the second replace drops the last dot when there are two or more, and changes nothing otherwise |
| AmountInput.AllowedHasNoLineTerminator | frontend/components/AmountInput/index.tsx:17 | digits-and-dots text has no line break for `.` to stop at |
| AmountInput.Sanitise | frontend/components/AmountInput/index.tsx:17 | the output holds only digits and dots, is no longer than the input and has the input's digits in order |
| AmountInput.SanitiseIsDropLastDot | frontend/components/AmountInput/index.tsx:17 | on every input, the sanitiser removes the other characters and then the last dot when two or more remain |
| AmountInput.SanitiseAtMostTwoDots | frontend/components/AmountInput/index.tsx:17 | with at most two dots typed, the output has at most one and sanitising it again changes nothing |
| AmountInput.SanitiseKeepsTwoDots | frontend/components/AmountInput/index.tsx:17 | "1.2.3.4" becomes "1.2.34", which still has two dots |
| AmountInput.KeepFirstDot | frontend/components/AmountInput/index.tsx:17 | keeping the first dot leaves at most one dot, and one when there was any |
| AmountInput.DropDots | frontend/components/AmountInput/index.tsx:17 | no dot remains |
| AmountInput.DropDotsKeeps | frontend/components/AmountInput/index.tsx:17 | dropping dots keeps the digits and adds nothing |
| AmountInput.KeepFirstDotKeeps | frontend/components/AmountInput/index.tsx:17 | keeping the first dot keeps the digits and adds nothing |
| AmountInput.SanitiseOneDot | frontend/components/AmountInput/index.tsx:17 | the intended sanitiser leaves only digits and at most one dot, the input's digits in order, and never lengthens the text |
| AmountInput.SanitiseOneDotIdempotent | frontend/components/AmountInput/index.tsx:17 | the intended sanitiser is idempotent on every input |
| AmountInput.SanitiseAgreesUpToTwoDots | frontend/components/AmountInput/index.tsx:17 | with at most two dots typed, the sanitiser as written and as intended agree |
| AmountInput.KeepFirstDotTwoDots | frontend/components/AmountInput/index.tsx:17 | with at most two dots, keeping the first dot is dropping the last |
| PairsList.Rows | frontend/components/PairsList/index.tsx:108 | missing data or missing rows is the empty list; otherwise the data's rows |
| PairsList.Select | frontend/components/PairsList/index.tsx:108-116 | a row is kept exactly when it is a row the predicate accepts; never more rows than given |
| PairsList.FilteredRows | frontend/components/PairsList/index.tsx:108-116 | the shown rows are exactly the fetched rows the filter keeps, and no more of them than were fetched |
| PairsList.Render | frontend/components/PairsList/index.tsx:117-128 | "Pair not found" exactly when the predicate accepts no row; otherwise the non-empty filtered rows |
| PairsList.SelectIsSubsequence | frontend/components/PairsList/index.tsx:108-116 | the filtered rows are the rows with some left out, the rest in their order |
| PairsList.SelectCounts | frontend/components/PairsList/index.tsx:108-116 | an accepted row is kept as often as it occurs and a refused row never |
| PairsList.NoFilterKeepsAll | frontend/components/PairsList/index.tsx:109 | without a filter every row is kept |
| PairsList.NeitherKeepsAll | frontend/components/PairsList/index.tsx:115 | a filter with neither a non-empty address nor locked set keeps every row |
| PairsList.AddressSelects | frontend/components/PairsList/index.tsx:110-111 | a non-empty address keeps exactly the rows with that id, each as often as it occurs |
| PairsList.AddressIgnoresLocked | frontend/components/PairsList/index.tsx:110-112 | with a non-empty address the locked flag makes no difference |
| PairsList.LockedSelects | frontend/components/PairsList/index.tsx:112-113 | without an address, locked keeps exactly the rows with a positive locked amount, each as often as it occurs |

## Left out

- The Solidity sources of `CryptExLpTokenLocker`, `FeesCalculator` and `FeesCalculatorMock` are not part of this model; the locker is modelled from what its tests observe.
- Re-entrancy, gas and the EVM's rollback are left out: each call checks first and commits at the end, and a token transfer never calls back into the locker.
- ERC-20 allowances are left out: `approve` is not modelled, and a transfer out of the caller fails only when the caller's balance is short.
- The deploy-time factory argument is left out, and so is any check that the LP token is a pair of that factory. The tests never exercise either.
- lockTokens' check that the unlock time lies in the future is left out: no test reaches it and its reason string is not shown.
- Events other than OnTokenLock are left out; no test reads them.
- setFeesReceiver and the fourth entry (index 3) of the getFees tuple are left out. No test uses them; the fees receiver is fixed at deployment.
- Ledger.Locker.WithdrawPartially: the unlock time is a precondition (`now >= unlockTime`) rather than a failure case, because the only test of an early withdrawal has its assertion commented out (smart-contracts/test/CryptExLpTokenLocker.test.js:303-305) and its reason string is not pinned.
- Ledger.Locker.Withdraw: the same unlock-time precondition as WithdrawPartially.
- Ledger.Locker.LockTokens: requires the caller to differ from the locker and the attached payment to be within the caller's coins. The EVM guarantees both for a real call.
- Ledger.Locker.IncreaseLockAmount: requires the caller to differ from the locker, which never calls itself.
- Ledger.Locker.WithdrawPartially: requires the caller to differ from the locker, which never calls itself.
- Ledger.Locker.Withdraw: requires the caller to differ from the locker, which never calls itself.
- Ledger.Locker.IncreaseLockAmount: charges only the LP cut of the chosen method, not its coin or CRX fee. The top-up test sends no value and still adds 999 of 1000 (smart-contracts/test/CryptExLpTokenLocker.test.js:349-353).
- Ledger.Locker.IncreaseLockAmount and Ledger.Locker.LockTokens state their balance effects through PassOn and LockSettlement; the per-account gains and losses are the lemmas PassOnBalances, SettlementBalances and SettlementKeepsOthers.
- The order of an owner's lock ids after a removal is left unpromised. The tests do not assert it (smart-contracts/test/CryptExLpTokenLocker.test.js:396-397), so the contracts state the multiset and the length.
- Reverts whose reason string the tests never show get an empty Reason. These are a failed transfer, a cut above the deposit, an amount above the lock, a zero amount, an index past the end and an unknown fee method.
- The mock calculator's quote is fixed as 1 coin, 0.75 CRX, a flat fee of 0 (which no scenario charges) and a 10-basis-point cut. The cut is inferred from the 999 of 1000 that stay locked.
- Units works on exact rationals: BigNumber's string parsing and printing (`toFixed`, `toString` and its exponential notation) are left out, and `decimals` is a natural number.
- Units.FromWeiWithDecimals: the value is modelled, not the string `toString` returns.
- AmountInput: the regular expression's `.` stops at line terminators. The equality with "drop the last dot" is proved for text without them, which is all the first replace can leave.
- PairsList: lockedAmount is a real number, not a float value; the loading spinner and the `useService` data fetching are left out.
- The React components, pages and providers, the web3 wrappers, the HTTP and GraphQL plumbing, and the deployment scripts are left out: they are presentation and I/O.
- The older `CryptExLocker` test suite is left out: it targets a different contract, and its one fee check is covered by the native-fee scenario.

## Findings

| source | as written | input that shows it | evidently intended | confidence | as-written member | corrected member |
|---|---|---|---|---|---|---|
| frontend/components/AmountInput/index.tsx:17 | the second replace removes only the last '.' of a greedy `\..*\.` match, so text that arrives with three or more dots keeps two or more; key-by-key typing cannot reach the case, because the field is controlled and each keystroke adds one character to text with at most one dot | one change event carrying "1.2.3.4" (a paste, a drop or autofill) gives "1.2.34", which still has two decimal points | at most one decimal point: keep the first '.' and drop every later one | medium; not executed | AmountInput.SanitiseKeepsTwoDots | AmountInput.SanitiseOneDot |
