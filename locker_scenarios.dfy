/**
 * The locker's behaviour on the concrete deployment its tests set up: a
 * fees calculator quoting 1 native coin, 0.75 CRX and a 0.1% LP cut, four
 * accounts, and 1000-token deposits. Each method replays one scenario on a
 * freshly deployed locker and states the observations.
 */
module LockerScenarios {
  import opened Base
  import opened Fees
  import opened Ledger

  /** One whole coin or token in its smallest unit (18 decimals). */
  const Ether: nat := 1_000_000_000_000_000_000

  const Deployer: Addr := 1      // the Ownable owner; holds the minted LP tokens
  const Alice: Addr := 2
  const Bob: Addr := 3
  const Receiver: Addr := 4      // the fees receiver
  const LockerAt: Addr := 10     // the locker contract
  const CalculatorAt: Addr := 11 // the fees calculator it is deployed with
  const OtherCalculatorAt: Addr := 12
  const LpToken: Addr := 20      // the pair's LP token
  const Crx: Addr := 21          // tokenA, the alternate fee token

  /** The time the scenarios start at, and the unlock times their locks use. */
  const Start: nat := 1_000_000
  const Soon: nat := Start + 10
  const UnlockTime: nat := Start + 1000

  /**
   * The mock calculator's quote: 1 coin, 0.75 CRX, 10 basis points of LP.
   * Its flat fee is never charged by the scenarios.
   */
  const MockQuote: FeeQuote := FeeQuote(Ether, 75 * Ether / 100, 0, 10)

  /** Every signer's coins, the deployer's LP tokens and its CRX. */
  const Genesis: Balances :=
    map[(Native, Deployer) := 10000 * Ether, (Native, Alice) := 10000 * Ether,
        (Native, Bob) := 10000 * Ether, (Native, Receiver) := 10000 * Ether,
        (Erc20(LpToken), Deployer) := 1000 * Ether, (Erc20(Crx), Deployer) := 1000 * Ether]

  /** Deploys a locker with no locks, the calculator at CalculatorAt quoting q, and balances b. */
  method Deploy(q: FeeQuote, b: Balances) returns (l: Locker)
    ensures fresh(l) && l.Valid()
    ensures l.address == LockerAt && l.admin == Deployer && l.feeToken == Crx
    ensures l.feesCalculator == FeesCalculator(CalculatorAt, q) && l.feesReceiver == Receiver
    ensures l.balances == b && l.locks == map[] && l.nextId == 0
    ensures forall a :: Ids(l.userLocks, a) == []
  {
    l := new Locker(LockerAt, Deployer, Crx, FeesCalculator(CalculatorAt, q), Receiver, b);
  }

  /**
   * The deployer locks 1000 LP tokens for `owner` under the mock quote,
   * paying the 1-coin native fee: the lock gets the next id and 999 tokens,
   * the receiver gains the coin and the 1-token cut, and nobody else
   * outside the locker and the deployer is touched.
   */
  method LockForDeployer(l: Locker, owner: Addr, unlockTime: nat) returns (r: Result<TokenLockEvent, Error>)
    requires l.Valid() && l.address == LockerAt && l.feeToken == Crx && l.feesReceiver == Receiver
    requires l.feesCalculator.quote == MockQuote
    requires Ether <= Bal(l.balances, Native, Deployer) && 1000 <= Bal(l.balances, Erc20(LpToken), Deployer)
    modifies l`locks, l`nextId, l`balances, l`userLocks, l`lockPosition
    ensures l.Valid()
    ensures r == Success(OnTokenLock(old(l.nextId), owner, 999, unlockTime))
    ensures l.locks == old(l.locks)[old(l.nextId) := Lock(owner, LpToken, 999, unlockTime)]
    ensures l.nextId == old(l.nextId) + 1 && old(l.nextId) !in old(l.locks)
    ensures l.userLocks == old(l.userLocks)[owner := Ids(old(l.userLocks), owner) + [old(l.nextId)]]
    ensures OthersKept(old(l.balances), l.balances, {LockerAt, Deployer, Receiver})
    ensures Bal(l.balances, Native, Deployer) == Bal(old(l.balances), Native, Deployer) - Ether
    ensures Bal(l.balances, Erc20(LpToken), Deployer) == Bal(old(l.balances), Erc20(LpToken), Deployer) - 1000
    ensures Bal(l.balances, Native, Receiver) == Bal(old(l.balances), Native, Receiver) + Ether
    ensures Bal(l.balances, Erc20(LpToken), Receiver) == Bal(old(l.balances), Erc20(LpToken), Receiver) + 1
    ensures Bal(l.balances, Native, LockerAt) == Bal(old(l.balances), Native, LockerAt)
    ensures Bal(l.balances, Erc20(LpToken), LockerAt) == Bal(old(l.balances), Erc20(LpToken), LockerAt) + 999
  {
    var b0 := l.balances;
    assert LpCut(MockQuote, NativeFee, 1000) == 1;
    assert MethodOfCode(0) == Some(NativeFee);
    assert NativeCharge(MockQuote, NativeFee) == Ether && AlternateCharge(MockQuote, NativeFee) == 0;
    r := l.LockTokens(Deployer, LpToken, 1000, unlockTime, owner, 0, Ether);
    SettlementBalances(b0, LockerAt, Deployer, Receiver, Crx, LpToken, Ether, Ether, 0, 1000, 1);
    SettlementKeepsOthers(b0, LockerAt, Deployer, Receiver, Crx, LpToken, Ether, Ether, 0, 1000, 1);
  }

  /**
   * The deployer locks 1000 of its LP tokens by fee method m, attaching
   * `payment` coins, with enough of every asset: the lock is made, the
   * receiver gains the method's coin fee, its CRX fee and its LP cut, and
   * the locker keeps no coins.
   */
  method DeployerPaysFee(l: Locker, m: FeeMethod, payment: nat, unlockTime: nat)
    returns (r: Result<TokenLockEvent, Error>)
    requires l.Valid() && l.address == LockerAt && l.feeToken == Crx && l.feesReceiver == Receiver
    requires NativeCharge(l.feesCalculator.quote, m) <= payment <= Bal(l.balances, Native, Deployer)
    requires LpCut(l.feesCalculator.quote, m, 1000) < 1000
    requires AlternateCharge(l.feesCalculator.quote, m) <= Bal(l.balances, Erc20(Crx), Deployer)
    requires 1000 <= Bal(l.balances, Erc20(LpToken), Deployer)
    modifies l`locks, l`nextId, l`balances, l`userLocks, l`lockPosition
    ensures r.Success?
    ensures var q := old(l.feesCalculator.quote);
            && Bal(l.balances, Native, Receiver) == Bal(old(l.balances), Native, Receiver) + NativeCharge(q, m)
            && Bal(l.balances, Erc20(Crx), Receiver) == Bal(old(l.balances), Erc20(Crx), Receiver) + AlternateCharge(q, m)
            && Bal(l.balances, Erc20(LpToken), Receiver) == Bal(old(l.balances), Erc20(LpToken), Receiver) + LpCut(q, m, 1000)
            && Bal(l.balances, Native, LockerAt) == Bal(old(l.balances), Native, LockerAt)
  {
    var b0 := l.balances;
    var q := l.feesCalculator.quote;
    MethodCodeRoundTrip(m);
    r := l.LockTokens(Deployer, LpToken, 1000, unlockTime, Deployer, MethodCode(m), payment);
    SettlementBalances(b0, LockerAt, Deployer, Receiver, Crx, LpToken, payment, NativeCharge(q, m),
                       AlternateCharge(q, m), 1000, LpCut(q, m, 1000));
  }

  /**
   * The mock deployment, alice holding aliceLp LP tokens, with lock 0 of 1000
   * LP tokens made by the deployer for alice (999 escrowed).
   */
  method DeployWithAliceLock(unlockTime: nat, aliceLp: nat) returns (l: Locker)
    ensures fresh(l) && l.Valid()
    ensures l.address == LockerAt && l.admin == Deployer && l.feeToken == Crx && l.feesReceiver == Receiver
    ensures l.feesCalculator == FeesCalculator(CalculatorAt, MockQuote)
    ensures l.locks == map[0 := Lock(Alice, LpToken, 999, unlockTime)] && l.nextId == 1
    ensures Ids(l.userLocks, Alice) == [0] && forall a :: a != Alice ==> Ids(l.userLocks, a) == []
    ensures Bal(l.balances, Erc20(LpToken), Alice) == aliceLp
    ensures Bal(l.balances, Native, Deployer) == 9999 * Ether
    ensures Bal(l.balances, Erc20(LpToken), Deployer) == 1000 * Ether - 1000
  {
    var b0 := Genesis[(Erc20(LpToken), Alice) := aliceLp];
    assert Bal(b0, Native, Deployer) == 10000 * Ether && Bal(b0, Erc20(LpToken), Deployer) == 1000 * Ether;
    l := Deploy(MockQuote, b0);
    ghost var ul0 := l.userLocks;
    var r := LockForDeployer(l, Alice, unlockTime);
    assert Bal(l.balances, Erc20(LpToken), Alice) == Bal(b0, Erc20(LpToken), Alice);
    forall a | a != Alice ensures Ids(l.userLocks, a) == [] {
      assert Ids(l.userLocks, a) == Ids(ul0, a);
    }
  }

  /** The deployer locks 1000 LP tokens for alice paying 1 coin: the locker escrows 999 of them. */
  method LockStoresRecord() returns (r: Result<TokenLockEvent, Error>, lock: Lock, escrowed: nat)
    ensures r == Success(OnTokenLock(0, Alice, 999, UnlockTime))
    ensures lock == Lock(Alice, LpToken, 999, UnlockTime)
    ensures escrowed == 999
  {
    var l := Deploy(MockQuote, Genesis);
    r := LockForDeployer(l, Alice, UnlockTime);
    lock := l.TokenLocks(0);
    escrowed := Bal(l.balances, Erc20(LpToken), LockerAt);
  }

  /**
   * Paying `payment` coins, at least the 1-coin fee, for a native-fee lock:
   * the receiver gains exactly 1 coin and the locker keeps none.
   */
  method NativeFeeCollected(payment: nat) returns (receiverGain: int, lockerCoins: nat)
    requires Ether <= payment <= 10000 * Ether
    ensures receiverGain == Ether && lockerCoins == 0
  {
    var l := Deploy(MockQuote, Genesis);
    assert LpCut(MockQuote, NativeFee, 1000) == 1;
    assert Bal(Genesis, Erc20(LpToken), Deployer) == 1000 * Ether;
    var r := DeployerPaysFee(l, NativeFee, payment, UnlockTime);
    receiverGain := Bal(l.balances, Native, Receiver) - Bal(Genesis, Native, Receiver);
    lockerCoins := Bal(l.balances, Native, LockerAt);
  }

  /** Attaching 0.9 coins to a native-fee lock fails with "ETH FEES NOT MET" and changes nothing. */
  method NativeFeeNotMet() returns (r: Result<TokenLockEvent, Error>, locks: map<nat, Lock>)
    ensures r == Failure(EthFeesNotMet) && Reason(r.error) == "ETH FEES NOT MET"
    ensures locks == map[]
  {
    var l := Deploy(MockQuote, Genesis);
    r := l.LockTokens(Deployer, LpToken, 1000, Soon, Alice, 0, 9 * Ether / 10);
    locks := l.locks;
  }

  /** A lock paid in CRX (method 1) moves 0.75 CRX to the receiver and no coins. */
  method CrxFeeCollected() returns (receiverCrxGain: int, receiverCoinGain: int)
    ensures receiverCrxGain == 75 * Ether / 100 && receiverCoinGain == 0
  {
    var l := Deploy(MockQuote, Genesis);
    assert LpCut(MockQuote, AlternateFee, 1000) == 1;
    assert Bal(Genesis, Erc20(LpToken), Deployer) == 1000 * Ether && Bal(Genesis, Erc20(Crx), Deployer) == 1000 * Ether;
    var r := DeployerPaysFee(l, AlternateFee, 0, UnlockTime);
    receiverCrxGain := Bal(l.balances, Erc20(Crx), Receiver) - Bal(Genesis, Erc20(Crx), Receiver);
    receiverCoinGain := Bal(l.balances, Native, Receiver) - Bal(Genesis, Native, Receiver);
  }

  /** Alice moves the unlock time of her lock from +1000 to +2000. */
  method ExtendMovesUnlockTime() returns (r: Outcome<Error>, lock: Lock)
    ensures r == Pass && lock == Lock(Alice, LpToken, 999, Start + 2000)
  {
    var l := DeployWithAliceLock(UnlockTime, 0);
    r := l.ExtendLockTime(Alice, 0, Start + 2000);
    lock := l.TokenLocks(0);
  }

  /** Moving the unlock time earlier fails with "NOT INCREASING UNLOCK TIME". */
  method ExtendToEarlierFails() returns (r: Outcome<Error>, lock: Lock)
    ensures r == Fail(NotIncreasingUnlockTime) && Reason(r.error) == "NOT INCREASING UNLOCK TIME"
    ensures lock.unlockTime == Soon
  {
    var l := DeployWithAliceLock(Soon, 0);
    r := l.ExtendLockTime(Alice, 0, Soon - 1);
    lock := l.TokenLocks(0);
  }

  /** Only the lock's owner may extend it: the deployer gets "NOT OWNER". */
  method ExtendByOtherFails() returns (r: Outcome<Error>)
    ensures r == Fail(NotOwner) && Reason(r.error) == "NOT OWNER"
  {
    var l := DeployWithAliceLock(Soon, 0);
    r := l.ExtendLockTime(Deployer, 0, Soon + 1000);
  }

  /** Alice hands her lock to bob: bob owns it, her list empties and his holds one lock. */
  method TransferToBob() returns (r: Outcome<Error>, owner: Addr, aliceLocks: nat, bobLocks: nat)
    ensures r == Pass && owner == Bob && aliceLocks == 0 && bobLocks == 1
  {
    var l := DeployWithAliceLock(Soon, 0);
    r := l.TransferLock(Alice, 0, Bob);
    owner := l.TokenLocks(0).owner;
    aliceLocks := l.UserLocksLength(Alice);
    bobLocks := l.UserLocksLength(Bob);
  }

  /** Handing a lock to the zero address fails with "ZERO NEW OWNER". */
  method TransferToZeroFails() returns (r: Outcome<Error>)
    ensures r == Fail(ZeroNewOwner) && Reason(r.error) == "ZERO NEW OWNER"
  {
    var l := DeployWithAliceLock(Soon, 0);
    r := l.TransferLock(Alice, 0, ZeroAddress);
  }

  /** Only the lock's owner may hand it on: the deployer gets "NO ACTIVE LOCK OR NOT OWNER". */
  method TransferByOtherFails() returns (r: Outcome<Error>)
    ensures r == Fail(NoActiveLockOrNotOwner) && Reason(r.error) == "NO ACTIVE LOCK OR NOT OWNER"
  {
    var l := DeployWithAliceLock(Soon, 0);
    r := l.TransferLock(Deployer, 0, Bob);
  }

  /** The admin installs another calculator. */
  method AdminSetsCalculator() returns (r: Outcome<Error>, calculatorAt: Addr)
    ensures r == Pass && calculatorAt == OtherCalculatorAt
  {
    var l := Deploy(MockQuote, Genesis);
    r := l.SetFeesCalculator(Deployer, FeesCalculator(OtherCalculatorAt, MockQuote));
    calculatorAt := l.feesCalculator.address;
  }

  /** Anyone else is refused with Ownable's reason. */
  method OtherSetsCalculatorFails() returns (r: Outcome<Error>, calculatorAt: Addr)
    ensures r == Fail(CallerNotAdmin) && Reason(r.error) == "Ownable: caller is not the owner"
    ensures calculatorAt == CalculatorAt
  {
    var l := Deploy(MockQuote, Genesis);
    r := l.SetFeesCalculator(Bob, FeesCalculator(Bob, MockQuote));
    calculatorAt := l.feesCalculator.address;
  }

  /** After the unlock time alice takes 500 of her 999 tokens; 499 stay locked. */
  method WithdrawHalf() returns (r: Outcome<Error>, paid: int, rest: nat)
    ensures r == Pass && paid == 500 && rest == 499
  {
    var l := DeployWithAliceLock(Soon, 0);
    r := l.WithdrawPartially(Alice, UnlockTime, 0, 500);
    paid := Bal(l.balances, Erc20(LpToken), Alice);
    rest := l.TokenLocks(0).tokenAmount;
  }

  /** After the unlock time alice takes all 999 tokens, and the record reads as deleted. */
  method WithdrawAll() returns (r: Outcome<Error>, paid: int, lock: Lock)
    ensures r == Pass && paid == 999 && lock == EmptyLock && lock.owner == ZeroAddress
  {
    var l := DeployWithAliceLock(Soon, 0);
    r := l.Withdraw(Alice, UnlockTime, 0);
    paid := Bal(l.balances, Erc20(LpToken), Alice);
    lock := l.TokenLocks(0);
  }

  /** A second withdrawal of the same lock fails with "NO ACTIVE LOCK OR NOT OWNER". */
  method WithdrawTwiceFails() returns (first: Outcome<Error>, second: Outcome<Error>)
    ensures first == Pass
    ensures second == Fail(NoActiveLockOrNotOwner) && Reason(second.error) == "NO ACTIVE LOCK OR NOT OWNER"
  {
    var l := DeployWithAliceLock(Soon, 0);
    first := l.Withdraw(Alice, UnlockTime, 0);
    second := l.Withdraw(Alice, UnlockTime, 0);
  }

  /** Two locks in a row get ids 0 and 1. */
  method IdsIncrement() returns (first: Result<TokenLockEvent, Error>, second: Result<TokenLockEvent, Error>)
    ensures first.Success? && first.value.lockId == 0
    ensures second.Success? && second.value.lockId == 1
  {
    var l := Deploy(MockQuote, Genesis);
    first := LockForDeployer(l, Alice, Soon);
    second := LockForDeployer(l, Alice, Soon);
  }

  /** Alice, given 1000 LP tokens, tops her 999-token lock up by 1000: it holds 1998. */
  method IncreaseTopsUp() returns (r: Outcome<Error>, amount: nat)
    ensures r == Pass && amount == 1998
  {
    var l := DeployWithAliceLock(Soon, 1000);
    assert LpCut(MockQuote, NativeFee, 1000) == 1;
    r := l.IncreaseLockAmount(Alice, 0, 1000, 0);
    amount := l.TokenLocks(0).tokenAmount;
  }

  /** Alice's list is empty before her first lock and holds one lock after it. */
  method LengthGrows() returns (before: nat, after: nat)
    ensures before == 0 && after == 1
  {
    var l := Deploy(MockQuote, Genesis);
    before := l.UserLocksLength(Alice);
    var e := LockForDeployer(l, Alice, Soon);
    after := l.UserLocksLength(Alice);
  }

  /** Lock 0 for alice, then lock 1 made by the deployer for bob. */
  method DeployWithBobLock() returns (l: Locker)
    ensures fresh(l) && l.Valid()
    ensures l.address == LockerAt && l.feeToken == Crx && l.feesReceiver == Receiver
    ensures l.feesCalculator == FeesCalculator(CalculatorAt, MockQuote)
    ensures 1 in l.locks && l.locks[1].owner == Bob && l.locks[1].unlockTime == Soon && l.nextId == 2
    ensures Ids(l.userLocks, Bob) == [1]
    ensures Bal(l.balances, Native, Deployer) == 9998 * Ether
    ensures Bal(l.balances, Erc20(LpToken), Deployer) == 1000 * Ether - 2000
  {
    l := DeployWithAliceLock(Soon, 0);
    var e1 := LockForDeployer(l, Bob, Soon);
  }

  /** Locks 0 for alice, then locks 1 and 2 made by the deployer for bob. */
  method DeployWithBobLocks() returns (l: Locker)
    ensures fresh(l) && l.Valid()
    ensures l.address == LockerAt
    ensures 1 in l.locks && l.locks[1].owner == Bob && l.locks[1].unlockTime == Soon
    ensures 2 in l.locks && l.locks[2].owner == Bob && l.locks[2].unlockTime == Soon
    ensures Ids(l.userLocks, Bob) == [1, 2]
  {
    l := DeployWithBobLock();
    var e2 := LockForDeployer(l, Bob, Soon);
  }

  /**
   * Locks 0 for alice and 1, 2 for bob: bob's second entry is lock 2, and his
   * list shrinks to 1 and then 0 entries as he withdraws locks 1 and 2.
   */
  method BobsLocks() returns (second: Result<nat, Error>, lengths: seq<nat>)
    ensures second == Success(2)
    ensures lengths == [2, 1, 0]
  {
    var l := DeployWithBobLocks();
    second := l.UserLockAt(Bob, 1);
    var n0 := l.UserLocksLength(Bob);
    var w1 := l.Withdraw(Bob, UnlockTime, 1);
    var n1 := l.UserLocksLength(Bob);
    var w2 := l.Withdraw(Bob, UnlockTime, 2);
    var n2 := l.UserLocksLength(Bob);
    lengths := [n0, n1, n2];
  }

  /**
   * Under a calculator quoting q, a method-0 lock of 1000 LP tokens with
   * 1.01 coins attached, at least the native fee, pays the receiver fees[0]
   * coins and fees[4] * 1000 / 10000 LP tokens.
   */
  method CalculatorNativeFee(q: FeeQuote) returns (coinGain: int, lpGain: int)
    requires q.nativeFee <= 101 * Ether / 100 && q.lpBps < BasisPoints
    ensures coinGain == q.nativeFee && lpGain == q.lpBps * 1000 / BasisPoints
  {
    var l := Deploy(q, Genesis);
    LpCutAtMostAmount(q, NativeFee, 1000);
    assert Bal(Genesis, Erc20(LpToken), Deployer) == 1000 * Ether;
    var r := DeployerPaysFee(l, NativeFee, 101 * Ether / 100, Soon);
    coinGain := Bal(l.balances, Native, Receiver) - Bal(Genesis, Native, Receiver);
    lpGain := Bal(l.balances, Erc20(LpToken), Receiver) - Bal(Genesis, Erc20(LpToken), Receiver);
  }

  /**
   * Under a calculator quoting q, a method-1 lock of 1000 LP tokens with
   * 4.51 CRX approved, at least the alternate fee, pays the receiver fees[1]
   * CRX and fees[4] * 1000 / 10000 LP tokens.
   */
  method CalculatorCrxFee(q: FeeQuote) returns (crxGain: int, lpGain: int)
    requires q.alternateFee <= 451 * Ether / 100 && q.lpBps < BasisPoints
    ensures crxGain == q.alternateFee && lpGain == q.lpBps * 1000 / BasisPoints
  {
    var l := Deploy(q, Genesis);
    LpCutAtMostAmount(q, AlternateFee, 1000);
    assert Bal(Genesis, Erc20(LpToken), Deployer) == 1000 * Ether && Bal(Genesis, Erc20(Crx), Deployer) == 1000 * Ether;
    var r := DeployerPaysFee(l, AlternateFee, 0, Soon);
    crxGain := Bal(l.balances, Erc20(Crx), Receiver) - Bal(Genesis, Erc20(Crx), Receiver);
    lpGain := Bal(l.balances, Erc20(LpToken), Receiver) - Bal(Genesis, Erc20(LpToken), Receiver);
  }

  /**
   * Under a calculator quoting q, a method-2 lock of 1000 LP tokens with
   * 23.01 coins attached, at least the flat fee, pays the receiver fees[2]
   * coins and no LP tokens.
   */
  method CalculatorFlatFee(q: FeeQuote) returns (coinGain: int, lpGain: int)
    requires q.flatFee <= 2301 * Ether / 100
    ensures coinGain == q.flatFee && lpGain == 0
  {
    var l := Deploy(q, Genesis);
    assert LpCut(q, FlatNativeFee, 1000) == 0;
    assert Bal(Genesis, Erc20(LpToken), Deployer) == 1000 * Ether;
    var r := DeployerPaysFee(l, FlatNativeFee, 2301 * Ether / 100, Soon);
    coinGain := Bal(l.balances, Native, Receiver) - Bal(Genesis, Native, Receiver);
    lpGain := Bal(l.balances, Erc20(LpToken), Receiver) - Bal(Genesis, Erc20(LpToken), Receiver);
  }

  /** The admin of a locker deployed with the production calculator installs the mock one. */
  method CalculatorReplaced(q: FeeQuote) returns (r: Outcome<Error>, installed: FeesCalculator)
    ensures r == Pass && installed == FeesCalculator(OtherCalculatorAt, MockQuote)
  {
    var l := Deploy(q, Genesis);
    r := l.SetFeesCalculator(Deployer, FeesCalculator(OtherCalculatorAt, MockQuote));
    installed := l.feesCalculator;
  }
}
