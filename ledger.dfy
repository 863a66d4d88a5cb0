/**
 * The CryptEx LP-token locker: a ledger of time-locked LP-token deposits,
 * an index of each owner's active lock ids, and the token and native-coin
 * balances its calls move.
 */
module Ledger {
  import opened Base
  import opened Fees

  /** Account and contract addresses; address 0 is the zero address. */
  type Addr = nat
  const ZeroAddress: Addr := 0

  /** The native coin, or the ERC-20 token deployed at an address. */
  datatype Asset = Native | Erc20(token: Addr)

  /** What every address holds of every asset; a missing entry is 0. */
  type Balances = map<(Asset, Addr), nat>

  function Bal(b: Balances, a: Asset, who: Addr): nat
  {
    if (a, who) in b then b[(a, who)] else 0
  }

  /** b2 agrees with b1 on every asset of every address outside ws. */
  ghost predicate OthersKept(b1: Balances, b2: Balances, ws: set<Addr>)
  {
    forall a, w :: w !in ws ==> Bal(b2, a, w) == Bal(b1, a, w)
  }

  /**
   * Moves x units of asset a from `from` to `to`; None when `from` holds less
   * than x. Exactly those two entries change, and the total is kept.
   */
  function Move(b: Balances, a: Asset, from: Addr, to: Addr, x: nat): (r: Option<Balances>)
    ensures r.Some? <==> x <= Bal(b, a, from)
  {
    if x <= Bal(b, a, from) then
      var b1 := b[(a, from) := Bal(b, a, from) - x];
      Some(b1[(a, to) := Bal(b1, a, to) + x])
    else None
  }

  /** `from` loses x and `to` gains x of asset a; every other entry is kept. */
  lemma MoveBalances(b: Balances, a: Asset, from: Addr, to: Addr, x: nat)
    requires x <= Bal(b, a, from)
    ensures forall a', w :: Bal(Move(b, a, from, to, x).value, a', w) ==
              Bal(b, a', w) - (if a' == a && w == from then x else 0)
                            + (if a' == a && w == to then x else 0)
  {
  }

  /** A move touches only its two accounts. */
  lemma MoveKeepsOthers(b: Balances, a: Asset, from: Addr, to: Addr, x: nat)
    requires x <= Bal(b, a, from)
    ensures OthersKept(b, Move(b, a, from, to, x).value, {from, to})
  {
    MoveBalances(b, a, from, to, x);
  }

  /**
   * Moves x units of asset a from `from` to `via`, which passes y of them on
   * to `to` and keeps the rest; None when `from` holds less than x.
   */
  function PassOn(b: Balances, a: Asset, from: Addr, via: Addr, to: Addr, x: nat, y: nat): (r: Option<Balances>)
    requires y <= x && from != via
    ensures r.Some? <==> x <= Bal(b, a, from)
  {
    var b1 := Move(b, a, from, via, x);
    if b1.None? then None else Move(b1.value, a, via, to, y)
  }

  /**
   * Passing on touches only asset a of the three accounts: `from` loses x,
   * `via` gains what it keeps and `to` gains y (so `from` loses x - y when it
   * is also `to`).
   */
  lemma PassOnBalances(b: Balances, a: Asset, from: Addr, via: Addr, to: Addr, x: nat, y: nat)
    requires x <= Bal(b, a, from) && y <= x
    requires from != via && to != via
    ensures var r := PassOn(b, a, from, via, to, x, y).value;
            && OthersKept(b, r, {from, via, to})
            && (forall a', w :: a' != a ==> Bal(r, a', w) == Bal(b, a', w))
            && Bal(r, a, via) == Bal(b, a, via) + (x - y)
            && (from != to ==> Bal(r, a, from) == Bal(b, a, from) - x && Bal(r, a, to) == Bal(b, a, to) + y)
            && (forall w :: Bal(r, a, w) == Bal(b, a, w) - (if w == from then x else 0)
                                          + (if w == via then x - y else 0) + (if w == to then y else 0))
  {
    var b1 := Move(b, a, from, via, x).value;
    MoveBalances(b, a, from, via, x);
    MoveBalances(b1, a, via, to, y);
    MoveKeepsOthers(b, a, from, via, x);
    MoveKeepsOthers(b1, a, via, to, y);
  }

  /** One lock record, as the tokenLocks(id) getter returns it. */
  datatype Lock = Lock(owner: Addr, lpToken: Addr, tokenAmount: nat, unlockTime: nat)

  /** What tokenLocks(id) reads for an id that was never issued or whose lock was closed. */
  const EmptyLock := Lock(ZeroAddress, ZeroAddress, 0, 0)

  /** The OnTokenLock event of lockTokens. */
  datatype TokenLockEvent = OnTokenLock(lockId: nat, owner: Addr, amount: nat, unlockTime: nat)

  /** Why a call reverts. */
  datatype Error =
    | EthFeesNotMet
    | NoActiveLockOrNotOwner
    | NotOwner
    | NotIncreasingUnlockTime
    | ZeroNewOwner
    | CallerNotAdmin
    | InvalidFeeMethod
    | TransferFailed
    | CutExceedsAmount
    | AmountExceedsLock
    | ZeroAmount
    | IndexOutOfRange

  /**
   * The revert reason string; "" for reverts whose reason the locker's
   * tests do not show (failed transfers, checked arithmetic, array bounds,
   * an out-of-range enum code, a zero amount).
   */
  function Reason(e: Error): (r: string)
    ensures r == "" <==> !(e.EthFeesNotMet? || e.NoActiveLockOrNotOwner? || e.NotOwner? ||
                           e.NotIncreasingUnlockTime? || e.ZeroNewOwner? || e.CallerNotAdmin?)
  {
    match e
    case EthFeesNotMet => "ETH FEES NOT MET"
    case NoActiveLockOrNotOwner => "NO ACTIVE LOCK OR NOT OWNER"
    case NotOwner => "NOT OWNER"
    case NotIncreasingUnlockTime => "NOT INCREASING UNLOCK TIME"
    case ZeroNewOwner => "ZERO NEW OWNER"
    case CallerNotAdmin => "Ownable: caller is not the owner"
    case _ => ""
  }

  /** A reason the tests show names one error: two errors with the same non-empty reason are the same. */
  lemma ReasonIdentifies(e1: Error, e2: Error)
    requires Reason(e1) == Reason(e2) != ""
    ensures e1 == e2
  {
  }

  /** The tokens of lock `id` if it is active and locks token t, else 0. */
  function Held(locks: map<nat, Lock>, id: nat, t: Addr): nat
  {
    if id in locks && locks[id].lpToken == t then locks[id].tokenAmount else 0
  }

  /** The total of token t held by the active locks with ids below n. */
  function Escrow(locks: map<nat, Lock>, t: Addr, n: nat): nat
  {
    if n == 0 then 0 else Escrow(locks, t, n - 1) + Held(locks, n - 1, t)
  }

  /** Locks with ids at or above n do not enter Escrow(_, _, n). */
  lemma {:induction false} EscrowBelow(l1: map<nat, Lock>, l2: map<nat, Lock>, t: Addr, n: nat)
    requires forall id: nat :: id < n ==> Held(l1, id, t) == Held(l2, id, t)
    ensures Escrow(l1, t, n) == Escrow(l2, t, n)
  {
    if n > 0 {
      EscrowBelow(l1, l2, t, n - 1);
    }
  }

  /**
   * Two lock maps that differ at most at id (below n): their escrows of t
   * differ by what id held in each.
   */
  lemma {:induction false} EscrowChangeAt(l1: map<nat, Lock>, l2: map<nat, Lock>, t: Addr, n: nat, id: nat)
    requires id < n
    requires forall k: nat :: k != id ==> Held(l1, k, t) == Held(l2, k, t)
    ensures Escrow(l2, t, n) + Held(l1, id, t) == Escrow(l1, t, n) + Held(l2, id, t)
  {
    if id < n - 1 {
      EscrowChangeAt(l1, l2, t, n - 1, id);
    } else {
      EscrowBelow(l1, l2, t, n - 1);
    }
  }

  /** Every active lock below n is part of the escrow of its token. */
  lemma {:induction false} EscrowCoversLock(locks: map<nat, Lock>, t: Addr, n: nat, id: nat)
    requires id < n
    ensures Held(locks, id, t) <= Escrow(locks, t, n)
  {
    if id < n - 1 {
      EscrowCoversLock(locks, t, n - 1, id);
    }
  }

  /** The account `at` holds at least the escrowed total of every token. */
  ghost predicate Covered(locks: map<nat, Lock>, n: nat, b: Balances, at: Addr)
  {
    forall t :: Escrow(locks, t, n) <= Bal(b, Erc20(t), at)
  }

  /**
   * Changing one lock below n keeps the escrow covered when the account's
   * balance moves at least as much as what the lock holds.
   */
  lemma CoveredAtChange(l1: map<nat, Lock>, l2: map<nat, Lock>, n: nat, b1: Balances, b2: Balances,
                        at: Addr, id: nat)
    requires Covered(l1, n, b1, at)
    requires id < n
    requires forall k: nat :: k != id ==> (k in l1 <==> k in l2) && (k in l1 ==> l1[k] == l2[k])
    requires forall t :: Bal(b1, Erc20(t), at) + Held(l2, id, t) <= Bal(b2, Erc20(t), at) + Held(l1, id, t)
    ensures Covered(l2, n, b2, at)
  {
    forall t ensures Escrow(l2, t, n) <= Bal(b2, Erc20(t), at) {
      EscrowChangeAt(l1, l2, t, n, id);
    }
  }

  /** Handing a lock to another owner leaves every escrow as it was. */
  lemma CoveredAtOwnerChange(l1: map<nat, Lock>, n: nat, b: Balances, at: Addr, id: nat, o: Addr)
    requires Covered(l1, n, b, at)
    requires id in l1 && id < n
    ensures Covered(l1[id := l1[id].(owner := o)], n, b, at)
  {
    CoveredAtChange(l1, l1[id := l1[id].(owner := o)], n, b, b, at, id);
  }

  /** A new lock with id n, paid for by the account's balance, keeps the escrow covered. */
  lemma CoveredAtNew(l1: map<nat, Lock>, n: nat, b1: Balances, b2: Balances, at: Addr, l: Lock)
    requires Covered(l1, n, b1, at)
    requires forall t :: Bal(b1, Erc20(t), at) + Held(l1[n := l], n, t) <= Bal(b2, Erc20(t), at)
    ensures Covered(l1[n := l], n + 1, b2, at)
  {
    forall t ensures Escrow(l1[n := l], t, n + 1) <= Bal(b2, Erc20(t), at) {
      EscrowBelow(l1[n := l], l1, t, n);
    }
  }

  /**
   * Paying amount, less than all of it, of active lock id out to its owner
   * leaves the escrow covered by the lock shrunk by amount.
   */
  lemma CoveredAtPartialPayOut(ls: map<nat, Lock>, n: nat, b: Balances, at: Addr, id: nat, amount: nat)
    requires Covered(ls, n, b, at)
    requires id in ls && id < n && ls[id].owner != at && amount < ls[id].tokenAmount
    ensures var l := ls[id];
            var paid := Move(b, Erc20(l.lpToken), at, l.owner, amount);
            paid.Some? && Covered(ls[id := l.(tokenAmount := l.tokenAmount - amount)], n, paid.value, at)
  {
    var l := ls[id];
    EscrowCoversLock(ls, l.lpToken, n, id);
    var b' := Move(b, Erc20(l.lpToken), at, l.owner, amount).value;
    MoveBalances(b, Erc20(l.lpToken), at, l.owner, amount);
    CoveredAtChange(ls, ls[id := l.(tokenAmount := l.tokenAmount - amount)], n, b, b', at, id);
  }

  /** Paying all of active lock id out to its owner leaves the escrow of the other locks covered. */
  lemma CoveredAtClose(ls: map<nat, Lock>, n: nat, b: Balances, at: Addr, id: nat)
    requires Covered(ls, n, b, at)
    requires id in ls && id < n && ls[id].owner != at
    ensures var l := ls[id];
            var paid := Move(b, Erc20(l.lpToken), at, l.owner, l.tokenAmount);
            paid.Some? && Covered(ls - {id}, n, paid.value, at)
  {
    var l := ls[id];
    EscrowCoversLock(ls, l.lpToken, n, id);
    var b' := Move(b, Erc20(l.lpToken), at, l.owner, l.tokenAmount).value;
    MoveBalances(b, Erc20(l.lpToken), at, l.owner, l.tokenAmount);
    CoveredAtChange(ls, ls - {id}, n, b, b', at, id);
  }

  /**
   * Topping lock id up with amount from its owner, of which the cut goes on
   * to the receiver, leaves the escrow covered.
   */
  lemma CoveredAtTopUp(ls: map<nat, Lock>, n: nat, b: Balances, at: Addr, id: nat, receiver: Addr,
                       amount: nat, cut: nat, b': Balances)
    requires Covered(ls, n, b, at)
    requires id in ls && id < n && ls[id].owner != at && receiver != at && cut <= amount
    requires PassOn(b, Erc20(ls[id].lpToken), ls[id].owner, at, receiver, amount, cut) == Some(b')
    ensures Covered(ls[id := ls[id].(tokenAmount := ls[id].tokenAmount + (amount - cut))], n, b', at)
  {
    var l := ls[id];
    PassOnBalances(b, Erc20(l.lpToken), l.owner, at, receiver, amount, cut);
    CoveredAtChange(ls, ls[id := l.(tokenAmount := l.tokenAmount + (amount - cut))], n, b, b', at, id);
  }

  /**
   * The native-coin transfers of lockTokens: the attached payment arrives,
   * the fee goes to the receiver and the rest back to the caller.
   */
  function NativeSettlement(b: Balances, locker: Addr, caller: Addr, receiver: Addr, payment: nat, fee: nat)
    : (r: Balances)
    requires payment <= Bal(b, Native, caller) && fee <= payment
    requires caller != locker && receiver != locker
    ensures forall a, w :: a != Native ==> Bal(r, a, w) == Bal(b, a, w)
  {
    var b1 := Move(b, Native, caller, locker, payment).value;
    var b2 := Move(b1, Native, locker, receiver, fee).value;
    Move(b2, Native, locker, caller, payment - fee).value
  }

  /**
   * The locker keeps no coins; the receiver gains the fee and the caller
   * loses it, so a caller who is the receiver ends where it began.
   */
  lemma NativeSettlementBalances(b: Balances, locker: Addr, caller: Addr, receiver: Addr, payment: nat, fee: nat)
    requires payment <= Bal(b, Native, caller) && fee <= payment
    requires caller != locker && receiver != locker
    ensures var r := NativeSettlement(b, locker, caller, receiver, payment, fee);
            && OthersKept(b, r, {locker, caller, receiver})
            && Bal(r, Native, locker) == Bal(b, Native, locker)
            && (caller != receiver ==>
                  && Bal(r, Native, receiver) == Bal(b, Native, receiver) + fee
                  && Bal(r, Native, caller) == Bal(b, Native, caller) - fee)
            && (forall w :: Bal(r, Native, w) == Bal(b, Native, w) - (if w == caller then fee else 0)
                                               + (if w == receiver then fee else 0))
  {
    var b1 := Move(b, Native, caller, locker, payment).value;
    var b2 := Move(b1, Native, locker, receiver, fee).value;
    MoveBalances(b, Native, caller, locker, payment);
    MoveBalances(b1, Native, locker, receiver, fee);
    MoveBalances(b2, Native, locker, caller, payment - fee);
    MoveKeepsOthers(b, Native, caller, locker, payment);
    MoveKeepsOthers(b1, Native, locker, receiver, fee);
    MoveKeepsOthers(b2, Native, locker, caller, payment - fee);
  }

  /**
   * The caller's tokens pay for the alternate fee and the deposit. When both
   * are the same token and the fee goes to someone else, the caller holds
   * their sum.
   */
  predicate Affordable(b: Balances, caller: Addr, receiver: Addr, feeToken: Addr, lpToken: Addr,
                       altFee: nat, amount: nat)
  {
    if lpToken != feeToken || caller == receiver then
      altFee <= Bal(b, Erc20(feeToken), caller) && amount <= Bal(b, Erc20(lpToken), caller)
    else
      altFee + amount <= Bal(b, Erc20(lpToken), caller)
  }

  /**
   * The transfers of one lockTokens call: the native-coin ones, then the
   * alternate-token fee from the caller to the receiver, then the deposit
   * from the caller, whose LP cut the locker passes on to the receiver.
   * None when the caller's tokens fall short.
   */
  function LockSettlement(b: Balances, locker: Addr, caller: Addr, receiver: Addr, feeToken: Addr,
                          lpToken: Addr, payment: nat, fee: nat, altFee: nat, amount: nat, cut: nat)
    : (r: Option<Balances>)
    requires payment <= Bal(b, Native, caller) && fee <= payment && cut <= amount
    requires caller != locker && receiver != locker
    ensures r.Some? <==> Affordable(b, caller, receiver, feeToken, lpToken, altFee, amount)
  {
    var b1 := NativeSettlement(b, locker, caller, receiver, payment, fee);
    var b2 := Move(b1, Erc20(feeToken), caller, receiver, altFee);
    if b2.None? then None
    else
      MoveBalances(b1, Erc20(feeToken), caller, receiver, altFee);
      PassOn(b2.value, Erc20(lpToken), caller, locker, receiver, amount, cut)
  }

  /**
   * What the tokens of a lockTokens call charge one account: the alternate
   * fee in the fee token and x in the LP token, added up when the two are
   * the same token.
   */
  function TokenCharge(t: Addr, feeToken: Addr, lpToken: Addr, altFee: nat, x: nat): nat
  {
    (if t == feeToken then altFee else 0) + (if t == lpToken then x else 0)
  }

  /**
   * A settled lockTokens call leaves the locker's coins as they were and
   * adds the deposit net of the cut to its LP tokens; the receiver gains
   * the fees and the cut, and the caller pays them and the deposit. The
   * last two clauses net these out for every account, also when the caller
   * is the receiver or the LP token is the fee token.
   */
  lemma SettlementBalances(b: Balances, locker: Addr, caller: Addr, receiver: Addr, feeToken: Addr,
                           lpToken: Addr, payment: nat, fee: nat, altFee: nat, amount: nat, cut: nat)
    requires payment <= Bal(b, Native, caller) && fee <= payment && cut <= amount
    requires caller != locker && receiver != locker
    requires LockSettlement(b, locker, caller, receiver, feeToken, lpToken, payment, fee, altFee, amount, cut).Some?
    ensures var r := LockSettlement(b, locker, caller, receiver, feeToken, lpToken, payment, fee, altFee, amount, cut).value;
            && Bal(r, Native, locker) == Bal(b, Native, locker)
            && (forall t :: Bal(r, Erc20(t), locker) == Bal(b, Erc20(t), locker) + (if t == lpToken then amount - cut else 0))
            && (caller != receiver ==>
                  && Bal(r, Native, receiver) == Bal(b, Native, receiver) + fee
                  && Bal(r, Native, caller) == Bal(b, Native, caller) - fee)
            && (caller != receiver && lpToken != feeToken ==>
                  && Bal(r, Erc20(lpToken), receiver) == Bal(b, Erc20(lpToken), receiver) + cut
                  && Bal(r, Erc20(lpToken), caller) == Bal(b, Erc20(lpToken), caller) - amount
                  && Bal(r, Erc20(feeToken), receiver) == Bal(b, Erc20(feeToken), receiver) + altFee
                  && Bal(r, Erc20(feeToken), caller) == Bal(b, Erc20(feeToken), caller) - altFee)
            && (forall w :: Bal(r, Native, w) == Bal(b, Native, w) - (if w == caller then fee else 0)
                                               + (if w == receiver then fee else 0))
            && (forall t, w :: Bal(r, Erc20(t), w) ==
                  Bal(b, Erc20(t), w)
                  - (if w == caller then TokenCharge(t, feeToken, lpToken, altFee, amount) else 0)
                  + (if w == receiver then TokenCharge(t, feeToken, lpToken, altFee, cut) else 0)
                  + (if w == locker && t == lpToken then amount - cut else 0))
  {
    var b1 := NativeSettlement(b, locker, caller, receiver, payment, fee);
    NativeSettlementBalances(b, locker, caller, receiver, payment, fee);
    var b2 := Move(b1, Erc20(feeToken), caller, receiver, altFee).value;
    MoveBalances(b1, Erc20(feeToken), caller, receiver, altFee);
    var r := PassOn(b2, Erc20(lpToken), caller, locker, receiver, amount, cut).value;
    PassOnBalances(b2, Erc20(lpToken), caller, locker, receiver, amount, cut);
    SettlementNet(b, b1, b2, r, locker, caller, receiver, feeToken, lpToken, fee, altFee, amount, cut);
  }

  /** The three steps of a settlement, netted out account by account. */
  lemma SettlementNet(b: Balances, b1: Balances, b2: Balances, r: Balances, locker: Addr, caller: Addr,
                      receiver: Addr, feeToken: Addr, lpToken: Addr, fee: nat, altFee: nat, amount: nat, cut: nat)
    requires cut <= amount
    requires forall a, w :: a != Native ==> Bal(b1, a, w) == Bal(b, a, w)
    requires forall w :: Bal(b1, Native, w) == Bal(b, Native, w) - (if w == caller then fee else 0)
                                             + (if w == receiver then fee else 0)
    requires forall a, w :: Bal(b2, a, w) == Bal(b1, a, w) - (if a == Erc20(feeToken) && w == caller then altFee else 0)
                                             + (if a == Erc20(feeToken) && w == receiver then altFee else 0)
    requires forall a, w :: a != Erc20(lpToken) ==> Bal(r, a, w) == Bal(b2, a, w)
    requires forall w :: Bal(r, Erc20(lpToken), w) == Bal(b2, Erc20(lpToken), w) - (if w == caller then amount else 0)
                                             + (if w == locker then amount - cut else 0) + (if w == receiver then cut else 0)
    ensures forall w :: Bal(r, Native, w) == Bal(b, Native, w) - (if w == caller then fee else 0)
                                           + (if w == receiver then fee else 0)
    ensures forall t, w :: Bal(r, Erc20(t), w) ==
              Bal(b, Erc20(t), w)
              - (if w == caller then TokenCharge(t, feeToken, lpToken, altFee, amount) else 0)
              + (if w == receiver then TokenCharge(t, feeToken, lpToken, altFee, cut) else 0)
              + (if w == locker && t == lpToken then amount - cut else 0)
  {
    forall t, w
      ensures Bal(r, Erc20(t), w) ==
              Bal(b, Erc20(t), w)
              - (if w == caller then TokenCharge(t, feeToken, lpToken, altFee, amount) else 0)
              + (if w == receiver then TokenCharge(t, feeToken, lpToken, altFee, cut) else 0)
              + (if w == locker && t == lpToken then amount - cut else 0)
    {
      var x1 := Bal(b, Erc20(t), w);
      assert Bal(b1, Erc20(t), w) == x1;
      var x2 := x1 - (if t == feeToken && w == caller then altFee else 0)
                   + (if t == feeToken && w == receiver then altFee else 0);
      assert Bal(b2, Erc20(t), w) == x2;
      if t == lpToken {
        assert Bal(r, Erc20(t), w) == x2 - (if w == caller then amount else 0)
                                      + (if w == locker then amount - cut else 0) + (if w == receiver then cut else 0);
      } else {
        assert Bal(r, Erc20(t), w) == x2;
      }
    }
  }

  /** Keeping everyone outside ws2, then everyone outside ws3, keeps everyone outside a set covering both. */
  lemma KeptChain(b1: Balances, b2: Balances, b3: Balances, ws2: set<Addr>, ws3: set<Addr>, ws: set<Addr>)
    requires OthersKept(b1, b2, ws2) && OthersKept(b2, b3, ws3)
    requires ws2 <= ws && ws3 <= ws
    ensures OthersKept(b1, b3, ws)
  {
  }

  /** The lockTokens transfers touch only the locker, the caller and the fee receiver. */
  lemma SettlementKeepsOthers(b: Balances, locker: Addr, caller: Addr, receiver: Addr, feeToken: Addr,
                              lpToken: Addr, payment: nat, fee: nat, altFee: nat, amount: nat, cut: nat)
    requires payment <= Bal(b, Native, caller) && fee <= payment && cut <= amount
    requires caller != locker && receiver != locker
    requires LockSettlement(b, locker, caller, receiver, feeToken, lpToken, payment, fee, altFee, amount, cut).Some?
    ensures OthersKept(b, LockSettlement(b, locker, caller, receiver, feeToken, lpToken, payment, fee, altFee,
                                         amount, cut).value, {locker, caller, receiver})
  {
    var ws := {locker, caller, receiver};
    var b1 := NativeSettlement(b, locker, caller, receiver, payment, fee);
    NativeSettlementBalances(b, locker, caller, receiver, payment, fee);
    var b2 := Move(b1, Erc20(feeToken), caller, receiver, altFee).value;
    MoveKeepsOthers(b1, Erc20(feeToken), caller, receiver, altFee);
    KeptChain(b, b1, b2, ws, {caller, receiver}, ws);
    var b3 := PassOn(b2, Erc20(lpToken), caller, locker, receiver, amount, cut).value;
    PassOnBalances(b2, Erc20(lpToken), caller, locker, receiver, amount, cut);
    KeptChain(b, b2, b3, ws, {caller, locker, receiver}, ws);
  }

  /**
   * A settled lockTokens call escrows the new lock n of the deposit net of
   * the cut.
   */
  lemma CoveredAtSettlement(ls: map<nat, Lock>, n: nat, b: Balances, locker: Addr, caller: Addr, receiver: Addr,
                            feeToken: Addr, lpToken: Addr, payment: nat, fee: nat, altFee: nat, amount: nat,
                            cut: nat, owner: Addr, unlockTime: nat)
    requires Covered(ls, n, b, locker)
    requires payment <= Bal(b, Native, caller) && fee <= payment && cut <= amount
    requires caller != locker && receiver != locker
    requires LockSettlement(b, locker, caller, receiver, feeToken, lpToken, payment, fee, altFee, amount, cut).Some?
    ensures Covered(ls[n := Lock(owner, lpToken, amount - cut, unlockTime)], n + 1,
                    LockSettlement(b, locker, caller, receiver, feeToken, lpToken, payment, fee, altFee,
                                   amount, cut).value, locker)
  {
    SettlementBalances(b, locker, caller, receiver, feeToken, lpToken, payment, fee, altFee, amount, cut);
    var r := LockSettlement(b, locker, caller, receiver, feeToken, lpToken, payment, fee, altFee, amount, cut).value;
    CoveredAtNew(ls, n, b, r, locker, Lock(owner, lpToken, amount - cut, unlockTime));
  }

  /**
   * Removes position i of s by moving the last element into it: the other
   * positions keep their element and one occurrence of s[i] is gone.
   */
  function SwapPop(s: seq<nat>, i: nat): (r: seq<nat>)
    requires i < |s|
    ensures |r| == |s| - 1
    ensures forall j :: 0 <= j < |r| ==> r[j] == (if j == i then s[|s| - 1] else s[j])
    ensures multiset(r) == multiset(s) - multiset{s[i]}
  {
    var last := s[|s| - 1];
    var swapped := s[i := last];
    var r := swapped[..|s| - 1];
    assert swapped == r + [last];
    assert multiset(swapped) == multiset(s) - multiset{s[i]} + multiset{last};
    CancelLast(multiset(r), multiset(s) - multiset{s[i]}, last);
    r
  }

  /** Taking one occurrence of y off both sides keeps a multiset equation. */
  lemma CancelLast(a: multiset<nat>, b: multiset<nat>, y: nat)
    requires a + multiset{y} == b + multiset{y}
    ensures a == b
  {
    forall x ensures a[x] == b[x] {
      assert (a + multiset{y})[x] == (b + multiset{y})[x];
    }
  }

  /** The distinct values listed in s. */
  ghost function Elements(s: seq<nat>): set<nat>
  {
    set x | x in s
  }

  /** A sequence without repeats has as many distinct elements as positions. */
  lemma {:induction false} DistinctCard(s: seq<nat>)
    requires forall i, j :: 0 <= i < j < |s| ==> s[i] != s[j]
    ensures |Elements(s)| == |s|
  {
    if s == [] {
      assert Elements(s) == {};
    } else {
      var tail := s[1..];
      DistinctCard(tail);
      assert s[0] !in Elements(tail) by {
        forall k | 0 <= k < |tail| ensures tail[k] != s[0] {
          assert tail[k] == s[k + 1];
        }
      }
      assert Elements(s) == Elements(tail) + {s[0]} by {
        assert s == [s[0]] + tail;
      }
    }
  }

  /** The lock ids listed for owner a in ul. */
  function Ids(ul: map<Addr, seq<nat>>, a: Addr): seq<nat>
  {
    if a in ul then ul[a] else []
  }

  /**
   * Every lock of ls sits at its recorded position pos[id] of its owner's
   * list in ul, and every listed id is a lock of ls owned by that owner.
   */
  ghost predicate IndexMatches(ls: map<nat, Lock>, ul: map<Addr, seq<nat>>, pos: map<nat, nat>)
  {
    && (forall id :: id in ls ==>
          id in pos && pos[id] < |Ids(ul, ls[id].owner)| && Ids(ul, ls[id].owner)[pos[id]] == id)
    && (forall a, j :: 0 <= j < |Ids(ul, a)| ==>
          Ids(ul, a)[j] in ls && ls[Ids(ul, a)[j]].owner == a
          && Ids(ul, a)[j] in pos && pos[Ids(ul, a)[j]] == j)
  }

  /** The index stays consistent with a lock map that has the same ids and owners. */
  lemma IndexKeepsOwners(ls: map<nat, Lock>, ls': map<nat, Lock>, ul: map<Addr, seq<nat>>, pos: map<nat, nat>)
    requires ls.Keys == ls'.Keys
    requires forall id :: id in ls ==> ls'[id].owner == ls[id].owner
    requires IndexMatches(ls, ul, pos)
    ensures IndexMatches(ls', ul, pos)
  {
  }

  /**
   * After swap-and-pop of lock id out of its owner's list (the last id
   * taking over its position), every listed id is still a lock of its
   * owner at its recorded position.
   */
  lemma ListedAfterDrop(ls: map<nat, Lock>, ul: map<Addr, seq<nat>>, pos: map<nat, nat>, id: nat,
                        ul': map<Addr, seq<nat>>, pos': map<nat, nat>)
    requires id in ls && IndexMatches(ls, ul, pos)
    requires var ids := Ids(ul, ls[id].owner);
             |ids| > 0 && pos[id] < |ids| &&
             ul' == ul[ls[id].owner := SwapPop(ids, pos[id])] && pos' == pos[ids[|ids| - 1] := pos[id]] - {id}
    ensures forall a, j :: 0 <= j < |Ids(ul', a)| ==>
              Ids(ul', a)[j] in ls - {id} && ls[Ids(ul', a)[j]].owner == a
              && Ids(ul', a)[j] in pos' && pos'[Ids(ul', a)[j]] == j
  {
    var o := ls[id].owner;
    var ids := Ids(ul, o);
    var i := pos[id];
    var last := ids[|ids| - 1];
    assert pos[last] == |ids| - 1;
    forall a, j | 0 <= j < |Ids(ul', a)|
      ensures Ids(ul', a)[j] in ls - {id} && ls[Ids(ul', a)[j]].owner == a
      ensures Ids(ul', a)[j] in pos' && pos'[Ids(ul', a)[j]] == j
    {
      if a == o {
        if j == i {
          assert Ids(ul', a)[j] == last;
        } else {
          assert Ids(ul', a)[j] == ids[j];
          assert pos[ids[j]] == j;
        }
      } else {
        assert Ids(ul', a)[j] == Ids(ul, a)[j];
        assert pos[Ids(ul', a)[j]] == j;
      }
    }
  }

  /** After the same swap-and-pop every lock left sits at its recorded position. */
  lemma LocatedAfterDrop(ls: map<nat, Lock>, ul: map<Addr, seq<nat>>, pos: map<nat, nat>, id: nat,
                         ul': map<Addr, seq<nat>>, pos': map<nat, nat>)
    requires id in ls && IndexMatches(ls, ul, pos)
    requires var ids := Ids(ul, ls[id].owner);
             |ids| > 0 && pos[id] < |ids| &&
             ul' == ul[ls[id].owner := SwapPop(ids, pos[id])] && pos' == pos[ids[|ids| - 1] := pos[id]] - {id}
    ensures forall x :: x in ls - {id} ==>
              x in pos' && pos'[x] < |Ids(ul', ls[x].owner)| && Ids(ul', ls[x].owner)[pos'[x]] == x
  {
    var o := ls[id].owner;
    var ids := Ids(ul, o);
    var i := pos[id];
    var last := ids[|ids| - 1];
    assert pos[last] == |ids| - 1;
    forall x | x in ls - {id}
      ensures x in pos' && pos'[x] < |Ids(ul', ls[x].owner)|
      ensures Ids(ul', ls[x].owner)[pos'[x]] == x
    {
      var o' := ls[x].owner;
      var p := pos[x];
      assert Ids(ul, o')[p] == x;
      if o' != o {
        assert Ids(ul', o') == Ids(ul, o');
      } else if x == last {
        assert pos'[x] == i;
      } else {
        assert p != i && p != |ids| - 1;
        assert Ids(ul', o)[p] == ids[p];
      }
    }
  }

  /**
   * The owner lists after id leaves o's list (which shrinks to `shrunk`) and
   * is appended to newOwner's: the two lists are the only ones that change.
   */
  lemma OwnerListsAfterMove(ul: map<Addr, seq<nat>>, o: Addr, newOwner: Addr, id: nat, shrunk: seq<nat>,
                            ul': map<Addr, seq<nat>>)
    requires multiset(shrunk) == multiset(Ids(ul, o)) - multiset{id} && |shrunk| == |Ids(ul, o)| - 1
    requires ul' == ul[o := shrunk][newOwner := Ids(ul[o := shrunk], newOwner) + [id]]
    requires id in multiset(Ids(ul, o))
    ensures o != newOwner ==>
              && ul' == ul[o := Ids(ul', o)][newOwner := Ids(ul, newOwner) + [id]]
              && multiset(Ids(ul', o)) == multiset(Ids(ul, o)) - multiset{id}
              && |Ids(ul', o)| == |Ids(ul, o)| - 1
    ensures o == newOwner ==>
              && ul' == ul[o := Ids(ul', o)]
              && multiset(Ids(ul', o)) == multiset(Ids(ul, o))
  {
    if o == newOwner {
      assert Ids(ul', o) == shrunk + [id];
      assert multiset(shrunk + [id]) == multiset(shrunk) + multiset{id};
    } else {
      assert Ids(ul[o := shrunk], newOwner) == Ids(ul, newOwner);
    }
  }

  /**
   * What every call keeps: the fee receiver is not the locker itself, every
   * active id was issued and holds a positive amount, the owner index
   * matches the locks, and the locker
   * holds the escrowed total of every token.
   */
  ghost predicate LedgerInvariant(address: Addr, feesReceiver: Addr, locks: map<nat, Lock>, nextId: nat,
                                  userLocks: map<Addr, seq<nat>>, lockPosition: map<nat, nat>, balances: Balances)
  {
    && feesReceiver != address
    && (forall id :: id in locks ==> id < nextId && locks[id].tokenAmount > 0)
    && IndexMatches(locks, userLocks, lockPosition)
    && Covered(locks, nextId, balances, address)
  }

  class Locker {
    /** The locker contract's own address. */
    const address: Addr
    /** The Ownable owner: the only caller of setFeesCalculator. */
    const admin: Addr
    /** The alternate fee token (CRX) of fee method 1. */
    const feeToken: Addr

    var feesCalculator: FeesCalculator
    var feesReceiver: Addr
    /** The active locks; a closed or never-issued id has no entry. */
    var locks: map<nat, Lock>
    /** The id the next lock gets. */
    var nextId: nat
    /** Each owner's active lock ids. */
    var userLocks: map<Addr, seq<nat>>
    /** The position of each active lock id in its owner's list. */
    var lockPosition: map<nat, nat>
    var balances: Balances

    /** tokenLocks(id): the record, or the zeroed record of a closed lock. */
    function TokenLocks(id: nat): (l: Lock)
      reads this`locks
      ensures id in locks ==> l == locks[id]
      ensures id !in locks ==> l.owner == ZeroAddress && l.lpToken == ZeroAddress && l.tokenAmount == 0 && l.unlockTime == 0
    {
      if id in locks then locks[id] else EmptyLock
    }

    /** The ids of the active locks that a owns. */
    ghost function OwnedLocks(a: Addr): set<nat>
      reads this
    {
      set id | id in locks && locks[id].owner == a
    }

    ghost predicate Valid()
      reads this
    {
      LedgerInvariant(address, feesReceiver, locks, nextId, userLocks, lockPosition, balances)
    }

    constructor (address: Addr, admin: Addr, feeToken: Addr, calculator: FeesCalculator,
                 feesReceiver: Addr, balances: Balances)
      requires feesReceiver != address
      ensures Valid()
      ensures this.address == address && this.admin == admin && this.feeToken == feeToken
      ensures this.feesCalculator == calculator && this.feesReceiver == feesReceiver
      ensures this.balances == balances
      ensures locks == map[] && nextId == 0
      ensures forall a :: Ids(userLocks, a) == []
    {
      this.address := address;
      this.admin := admin;
      this.feeToken := feeToken;
      this.feesCalculator := calculator;
      this.feesReceiver := feesReceiver;
      this.balances := balances;
      locks := map[];
      nextId := 0;
      userLocks := map[];
      lockPosition := map[];
    }

    /** userLocksLength(a): the number of active locks a owns. */
    method UserLocksLength(a: Addr) returns (n: nat)
      requires Valid()
      ensures n == |Ids(userLocks, a)|
      ensures n == |OwnedLocks(a)|
    {
      n := |Ids(userLocks, a)|;
      assert OwnedLocks(a) == Elements(Ids(userLocks, a));
      DistinctCard(Ids(userLocks, a));
    }

    /** userLockAt(a, i): the i-th entry of a's list, an active lock of a. */
    method UserLockAt(a: Addr, i: nat) returns (r: Result<nat, Error>)
      requires Valid()
      ensures r.Success? <==> i < |Ids(userLocks, a)|
      ensures r.Success? ==>
                && r.value == Ids(userLocks, a)[i] && r.value in locks
                && locks[r.value].owner == a && locks[r.value].tokenAmount > 0
      ensures r.Failure? ==> r.error == IndexOutOfRange
    {
      if i < |Ids(userLocks, a)| {
        r := Success(Ids(userLocks, a)[i]);
      } else {
        r := Failure(IndexOutOfRange);
      }
    }

    /** Appends lock id of ls to its owner's list. */
    method Enlist(id: nat, ls: map<nat, Lock>)
      requires id in ls
      requires IndexMatches(ls - {id}, userLocks, lockPosition)
      modifies this`userLocks, this`lockPosition
      ensures IndexMatches(ls, userLocks, lockPosition)
      ensures userLocks == old(userLocks)[ls[id].owner := Ids(old(userLocks), ls[id].owner) + [id]]
    {
      var o := ls[id].owner;
      var ids := Ids(userLocks, o);
      lockPosition := lockPosition[id := |ids|];
      userLocks := userLocks[o := ids + [id]];
      forall a, j | 0 <= j < |Ids(userLocks, a)|
        ensures Ids(userLocks, a)[j] in ls && ls[Ids(userLocks, a)[j]].owner == a
        ensures Ids(userLocks, a)[j] in lockPosition && lockPosition[Ids(userLocks, a)[j]] == j
      {
        if a == o && j == |ids| {
        } else {
          assert Ids(userLocks, a)[j] == Ids(old(userLocks), a)[j];
          assert Ids(userLocks, a)[j] in ls - {id};
        }
      }
      forall x | x in ls
        ensures x in lockPosition && lockPosition[x] < |Ids(userLocks, ls[x].owner)|
        ensures Ids(userLocks, ls[x].owner)[lockPosition[x]] == x
      {
        if x != id {
          assert x in ls - {id};
        }
      }
    }

    /** Takes lock id of ls out of its owner's list by swap-and-pop. */
    method Delist(id: nat, ls: map<nat, Lock>)
      requires id in ls
      requires IndexMatches(ls, userLocks, lockPosition)
      modifies this`userLocks, this`lockPosition
      ensures IndexMatches(ls - {id}, userLocks, lockPosition)
      ensures userLocks == old(userLocks)[ls[id].owner := Ids(userLocks, ls[id].owner)]
      ensures multiset(Ids(userLocks, ls[id].owner)) == multiset(Ids(old(userLocks), ls[id].owner)) - multiset{id}
      ensures |Ids(userLocks, ls[id].owner)| == |Ids(old(userLocks), ls[id].owner)| - 1
    {
      var o := ls[id].owner;
      var ids := Ids(userLocks, o);
      var i := lockPosition[id];
      var last := ids[|ids| - 1];
      assert lockPosition[last] == |ids| - 1;
      var ul := userLocks[o := SwapPop(ids, i)];
      var pos := lockPosition[last := i] - {id};
      ListedAfterDrop(ls, userLocks, lockPosition, id, ul, pos);
      LocatedAfterDrop(ls, userLocks, lockPosition, id, ul, pos);
      userLocks := ul;
      lockPosition := pos;
    }

    /** Records `lock` under the next id, with the balances b that paid for it. */
    method AddLock(lock: Lock, b: Balances)
      requires Valid()
      requires lock.tokenAmount > 0
      requires Covered(locks[nextId := lock], nextId + 1, b, address)
      modifies this`locks, this`nextId, this`balances, this`userLocks, this`lockPosition
      ensures Valid()
      ensures old(nextId) !in old(locks)
      ensures locks == old(locks)[old(nextId) := lock] && nextId == old(nextId) + 1 && balances == b
      ensures userLocks == old(userLocks)[lock.owner := Ids(old(userLocks), lock.owner) + [old(nextId)]]
    {
      var id := nextId;
      assert locks[id := lock] - {id} == locks;
      locks := locks[id := lock];
      nextId := id + 1;
      balances := b;
      Enlist(id, locks);
    }

    /** Closes active lock id: it leaves the ledger and its owner's list; b are the balances after the payout. */
    method CloseLock(id: nat, b: Balances)
      requires Valid()
      requires id in locks
      requires Covered(locks - {id}, nextId, b, address)
      modifies this`locks, this`balances, this`userLocks, this`lockPosition
      ensures Valid()
      ensures locks == old(locks) - {id} && balances == b
      ensures var o := old(locks)[id].owner;
              && userLocks == old(userLocks)[o := Ids(userLocks, o)]
              && multiset(Ids(userLocks, o)) == multiset(Ids(old(userLocks), o)) - multiset{id}
              && |Ids(userLocks, o)| == |Ids(old(userLocks), o)| - 1
    {
      Delist(id, locks);
      locks := locks - {id};
      balances := b;
    }

    /** Replaces active lock id by l, which keeps its owner; b are the balances that go with it. */
    method ReplaceLock(id: nat, l: Lock, b: Balances)
      requires Valid()
      requires id in locks && l.owner == locks[id].owner && l.tokenAmount > 0
      requires Covered(locks[id := l], nextId, b, address)
      modifies this`locks, this`balances
      ensures Valid()
      ensures locks == old(locks)[id := l] && balances == b
    {
      IndexKeepsOwners(locks, locks[id := l], userLocks, lockPosition);
      locks := locks[id := l];
      balances := b;
    }

    /** Moves lock id of ls from its owner's list to the end of newOwner's. */
    method Relist(id: nat, ls: map<nat, Lock>, newOwner: Addr)
      requires id in ls
      requires IndexMatches(ls, userLocks, lockPosition)
      modifies this`userLocks, this`lockPosition
      ensures IndexMatches(ls[id := ls[id].(owner := newOwner)], userLocks, lockPosition)
      ensures var o := ls[id].owner;
              && (o != newOwner ==>
                    && userLocks == old(userLocks)[o := Ids(userLocks, o)][newOwner := Ids(old(userLocks), newOwner) + [id]]
                    && multiset(Ids(userLocks, o)) == multiset(Ids(old(userLocks), o)) - multiset{id}
                    && |Ids(userLocks, o)| == |Ids(old(userLocks), o)| - 1)
              && (o == newOwner ==>
                    && userLocks == old(userLocks)[o := Ids(userLocks, o)]
                    && multiset(Ids(userLocks, o)) == multiset(Ids(old(userLocks), o)))
    {
      var o := ls[id].owner;
      ghost var ul0: map<Addr, seq<nat>> := userLocks;
      var ls' := ls[id := ls[id].(owner := newOwner)];
      Delist(id, ls);
      ghost var shrunk := Ids(userLocks, o);
      assert ls' - {id} == ls - {id};
      Enlist(id, ls');
      OwnerListsAfterMove(ul0, o, newOwner, id, shrunk, userLocks);
    }

    /** Hands active lock id to newOwner, moving the id from one owner's list to the other's. */
    method ReassignLock(id: nat, newOwner: Addr)
      requires Valid()
      requires id in locks
      modifies this`locks, this`userLocks, this`lockPosition
      ensures Valid()
      ensures locks == old(locks)[id := old(locks)[id].(owner := newOwner)]
      ensures var o := old(locks)[id].owner;
              && (o != newOwner ==>
                    && userLocks == old(userLocks)[o := Ids(userLocks, o)][newOwner := Ids(old(userLocks), newOwner) + [id]]
                    && multiset(Ids(userLocks, o)) == multiset(Ids(old(userLocks), o)) - multiset{id}
                    && |Ids(userLocks, o)| == |Ids(old(userLocks), o)| - 1)
              && (o == newOwner ==>
                    && userLocks == old(userLocks)[o := Ids(userLocks, o)]
                    && multiset(Ids(userLocks, o)) == multiset(Ids(old(userLocks), o)))
    {
      var ls := locks;
      CoveredAtOwnerChange(ls, nextId, balances, address, id, newOwner);
      Relist(id, ls, newOwner);
      locks := ls[id := ls[id].(owner := newOwner)];
    }

    /**
     * lockTokens: charges the fee of the chosen method, escrows the deposit
     * net of the LP cut in a new lock with the next id for `owner`, and
     * returns the OnTokenLock event. The balances after the call are those
     * of LockSettlement.
     */
    method LockTokens(caller: Addr, lpToken: Addr, amount: nat, unlockTime: nat, owner: Addr,
                      methodCode: nat, payment: nat) returns (r: Result<TokenLockEvent, Error>)
      requires Valid()
      requires caller != address
      requires payment <= Bal(balances, Native, caller)
      modifies this`locks, this`nextId, this`balances, this`userLocks, this`lockPosition
      ensures Valid()
      ensures r.Failure? ==> unchanged(this)
      ensures MethodOfCode(methodCode).None? ==> r == Failure(InvalidFeeMethod)
      ensures MethodOfCode(methodCode).Some? ==>
                var m := MethodOfCode(methodCode).value;
                var q := old(feesCalculator).quote;
                && (payment < NativeCharge(q, m) ==> r == Failure(EthFeesNotMet))
                && (NativeCharge(q, m) <= payment && LpCut(q, m, amount) == amount ==> r == Failure(ZeroAmount))
                && (NativeCharge(q, m) <= payment ==>
                      (r.Success? <==>
                         && LpCut(q, m, amount) < amount
                         && Affordable(old(balances), caller, old(feesReceiver), feeToken, lpToken,
                                       AlternateCharge(q, m), amount)))
      ensures r.Success? ==>
                && MethodOfCode(methodCode).Some?
                && var m := MethodOfCode(methodCode).value;
                   var q := old(feesCalculator).quote;
                   var cut := LpCut(q, m, amount);
                   var net := amount - cut;
                   && NativeCharge(q, m) <= payment && cut < amount
                   && r.value == OnTokenLock(old(nextId), owner, net, unlockTime)
                   && old(nextId) !in old(locks)
                   && locks == old(locks)[old(nextId) := Lock(owner, lpToken, net, unlockTime)]
                   && nextId == old(nextId) + 1
                   && userLocks == old(userLocks)[owner := Ids(old(userLocks), owner) + [old(nextId)]]
                   && LockSettlement(old(balances), address, caller, old(feesReceiver), feeToken, lpToken,
                                     payment, NativeCharge(q, m), AlternateCharge(q, m), amount, cut)
                      == Some(balances)
    {
      var mo := MethodOfCode(methodCode);
      if mo.None? {
        return Failure(InvalidFeeMethod);
      }
      var m := mo.value;
      var q := feesCalculator.quote;
      var fee := NativeCharge(q, m);
      if payment < fee {
        return Failure(EthFeesNotMet);
      }
      var cut := LpCut(q, m, amount);
      if amount < cut {
        return Failure(CutExceedsAmount);
      }
      if amount == cut {
        return Failure(ZeroAmount);
      }
      var settled := LockSettlement(balances, address, caller, feesReceiver, feeToken, lpToken,
                                    payment, fee, AlternateCharge(q, m), amount, cut);
      if settled.None? {
        return Failure(TransferFailed);
      }
      var id := nextId;
      var lock := Lock(owner, lpToken, amount - cut, unlockTime);
      CoveredAtSettlement(locks, id, balances, address, caller, feesReceiver, feeToken, lpToken,
                          payment, fee, AlternateCharge(q, m), amount, cut, owner, unlockTime);
      AddLock(lock, settled.value);
      r := Success(OnTokenLock(id, owner, amount - cut, unlockTime));
    }

    /**
     * increaseLockAmount: the owner of active lock id adds `amount` LP tokens;
     * the LP cut of the chosen method goes to the fee receiver and the rest
     * is added to the lock.
     */
    method IncreaseLockAmount(caller: Addr, id: nat, amount: nat, methodCode: nat) returns (r: Outcome<Error>)
      requires Valid()
      requires caller != address
      modifies this`locks, this`balances
      ensures Valid()
      ensures r.Fail? ==> unchanged(this)
      ensures r == Fail(NoActiveLockOrNotOwner) <==> !(id in old(locks) && old(locks)[id].owner == caller)
      ensures id in old(locks) && old(locks)[id].owner == caller && MethodOfCode(methodCode).None? ==>
                r == Fail(InvalidFeeMethod)
      ensures id in old(locks) && old(locks)[id].owner == caller && MethodOfCode(methodCode).Some? ==>
                var cut := LpCut(old(feesCalculator).quote, MethodOfCode(methodCode).value, amount);
                (r.Pass? <==> cut <= amount && amount <= Bal(old(balances), Erc20(old(locks)[id].lpToken), caller))
      ensures r.Pass? ==>
                && MethodOfCode(methodCode).Some?
                && var l := old(locks)[id];
                   var cut := LpCut(old(feesCalculator).quote, MethodOfCode(methodCode).value, amount);
                   && cut <= amount
                   && locks == old(locks)[id := l.(tokenAmount := l.tokenAmount + (amount - cut))]
                   && PassOn(old(balances), Erc20(l.lpToken), caller, address, old(feesReceiver), amount, cut)
                      == Some(balances)
    {
      if !(id in locks && locks[id].owner == caller) {
        return Fail(NoActiveLockOrNotOwner);
      }
      var mo := MethodOfCode(methodCode);
      if mo.None? {
        return Fail(InvalidFeeMethod);
      }
      var cut := LpCut(feesCalculator.quote, mo.value, amount);
      if amount < cut {
        return Fail(CutExceedsAmount);
      }
      var l := locks[id];
      var b := PassOn(balances, Erc20(l.lpToken), caller, address, feesReceiver, amount, cut);
      if b.None? {
        return Fail(TransferFailed);
      }
      CoveredAtTopUp(locks, nextId, balances, address, id, feesReceiver, amount, cut, b.value);
      ReplaceLock(id, l.(tokenAmount := l.tokenAmount + (amount - cut)), b.value);
      r := Pass;
    }

    /** Pays all of active lock id out to its owner and closes the lock. */
    method PayOutAll(id: nat)
      requires Valid()
      requires id in locks && locks[id].owner != address
      modifies this`locks, this`balances, this`userLocks, this`lockPosition
      ensures Valid()
      ensures var l := old(locks)[id];
              && Move(old(balances), Erc20(l.lpToken), address, l.owner, l.tokenAmount) == Some(balances)
              && locks == old(locks) - {id}
              && userLocks == old(userLocks)[l.owner := Ids(userLocks, l.owner)]
              && multiset(Ids(userLocks, l.owner)) == multiset(Ids(old(userLocks), l.owner)) - multiset{id}
              && |Ids(userLocks, l.owner)| == |Ids(old(userLocks), l.owner)| - 1
    {
      var l := locks[id];
      CoveredAtClose(locks, nextId, balances, address, id);
      CloseLock(id, Move(balances, Erc20(l.lpToken), address, l.owner, l.tokenAmount).value);
    }

    /** Pays amount, less than all it holds, of active lock id out to its owner. */
    method PayOutPart(id: nat, amount: nat)
      requires Valid()
      requires id in locks && locks[id].owner != address && amount < locks[id].tokenAmount
      modifies this`locks, this`balances
      ensures Valid()
      ensures var l := old(locks)[id];
              && Move(old(balances), Erc20(l.lpToken), address, l.owner, amount) == Some(balances)
              && locks == old(locks)[id := l.(tokenAmount := l.tokenAmount - amount)]
    {
      var l := locks[id];
      CoveredAtPartialPayOut(locks, nextId, balances, address, id, amount);
      ReplaceLock(id, l.(tokenAmount := l.tokenAmount - amount),
                  Move(balances, Erc20(l.lpToken), address, l.owner, amount).value);
    }

    /**
     * withdrawPartially: after the unlock time the owner of active lock id
     * takes `amount` of its tokens; a lock left empty is closed and leaves
     * its owner's list.
     */
    method WithdrawPartially(caller: Addr, now: nat, id: nat, amount: nat) returns (r: Outcome<Error>)
      requires Valid()
      requires caller != address
      requires now >= TokenLocks(id).unlockTime
      modifies this`locks, this`balances, this`userLocks, this`lockPosition
      ensures Valid()
      ensures r.Fail? ==> unchanged(this)
      ensures r == Fail(NoActiveLockOrNotOwner) <==> !(id in old(locks) && old(locks)[id].owner == caller)
      ensures id in old(locks) && old(locks)[id].owner == caller ==>
                && (r.Pass? <==> 0 < amount <= old(locks)[id].tokenAmount)
                && (amount == 0 ==> r == Fail(ZeroAmount))
      ensures r.Pass? ==>
                var l := old(locks)[id];
                && Move(old(balances), Erc20(l.lpToken), address, caller, amount) == Some(balances)
                && (amount < l.tokenAmount ==>
                      && locks == old(locks)[id := l.(tokenAmount := l.tokenAmount - amount)]
                      && userLocks == old(userLocks))
                && (amount == l.tokenAmount ==>
                      && locks == old(locks) - {id}
                      && TokenLocks(id) == EmptyLock
                      && userLocks == old(userLocks)[caller := Ids(userLocks, caller)]
                      && multiset(Ids(userLocks, caller)) == multiset(Ids(old(userLocks), caller)) - multiset{id}
                      && |Ids(userLocks, caller)| == |Ids(old(userLocks), caller)| - 1)
    {
      if !(id in locks && locks[id].owner == caller) {
        return Fail(NoActiveLockOrNotOwner);
      }
      if amount == 0 {
        return Fail(ZeroAmount);
      }
      var l := locks[id];
      if l.tokenAmount < amount {
        return Fail(AmountExceedsLock);
      }
      if amount == l.tokenAmount {
        PayOutAll(id);
      } else {
        PayOutPart(id, amount);
      }
      r := Pass;
    }

    /**
     * withdraw: after the unlock time the owner of active lock id takes all
     * of its tokens, and the lock is closed.
     */
    method Withdraw(caller: Addr, now: nat, id: nat) returns (r: Outcome<Error>)
      requires Valid()
      requires caller != address
      requires now >= TokenLocks(id).unlockTime
      modifies this`locks, this`balances, this`userLocks, this`lockPosition
      ensures Valid()
      ensures r.Fail? ==> unchanged(this) && r.error == NoActiveLockOrNotOwner
      ensures r.Pass? <==> id in old(locks) && old(locks)[id].owner == caller
      ensures r.Pass? ==>
                var l := old(locks)[id];
                && Move(old(balances), Erc20(l.lpToken), address, caller, l.tokenAmount) == Some(balances)
                && locks == old(locks) - {id}
                && TokenLocks(id) == EmptyLock
                && multiset(Ids(userLocks, caller)) == multiset(Ids(old(userLocks), caller)) - multiset{id}
                && |Ids(userLocks, caller)| == |Ids(old(userLocks), caller)| - 1
                && userLocks == old(userLocks)[caller := Ids(userLocks, caller)]
    {
      r := WithdrawPartially(caller, now, id, TokenLocks(id).tokenAmount);
    }

    /**
     * transferLock: the owner of active lock id hands it to newOwner; the id
     * leaves the old owner's list and joins the new owner's.
     */
    method TransferLock(caller: Addr, id: nat, newOwner: Addr) returns (r: Outcome<Error>)
      requires Valid()
      modifies this`locks, this`userLocks, this`lockPosition
      ensures Valid()
      ensures r.Fail? ==> unchanged(this)
      ensures !(id in old(locks) && old(locks)[id].owner == caller) ==> r == Fail(NoActiveLockOrNotOwner)
      ensures id in old(locks) && old(locks)[id].owner == caller ==>
                (r == Fail(ZeroNewOwner) <==> newOwner == ZeroAddress) && (r.Pass? <==> newOwner != ZeroAddress)
      ensures r.Pass? ==>
                && locks == old(locks)[id := old(locks)[id].(owner := newOwner)]
                && (caller != newOwner ==>
                      && userLocks == old(userLocks)[caller := Ids(userLocks, caller)][newOwner := Ids(old(userLocks), newOwner) + [id]]
                      && multiset(Ids(userLocks, caller)) == multiset(Ids(old(userLocks), caller)) - multiset{id}
                      && |Ids(userLocks, caller)| == |Ids(old(userLocks), caller)| - 1)
                && (caller == newOwner ==>
                      && userLocks == old(userLocks)[caller := Ids(userLocks, caller)]
                      && multiset(Ids(userLocks, caller)) == multiset(Ids(old(userLocks), caller)))
    {
      if !(id in locks && locks[id].owner == caller) {
        return Fail(NoActiveLockOrNotOwner);
      }
      if newOwner == ZeroAddress {
        return Fail(ZeroNewOwner);
      }
      ReassignLock(id, newOwner);
      r := Pass;
    }

    /** extendLockTime: the owner of active lock id moves its unlock time strictly later. */
    method ExtendLockTime(caller: Addr, id: nat, newUnlockTime: nat) returns (r: Outcome<Error>)
      requires Valid()
      modifies this`locks, this`balances
      ensures Valid()
      ensures r.Fail? ==> unchanged(this)
      ensures r == Fail(NotOwner) <==> !(id in old(locks) && old(locks)[id].owner == caller)
      ensures id in old(locks) && old(locks)[id].owner == caller ==>
                (r == Fail(NotIncreasingUnlockTime) <==> newUnlockTime <= old(locks)[id].unlockTime)
                && (r.Pass? <==> old(locks)[id].unlockTime < newUnlockTime)
      ensures r.Pass? ==>
                && locks == old(locks)[id := old(locks)[id].(unlockTime := newUnlockTime)]
                && balances == old(balances)
    {
      if !(id in locks && locks[id].owner == caller) {
        return Fail(NotOwner);
      }
      if newUnlockTime <= locks[id].unlockTime {
        return Fail(NotIncreasingUnlockTime);
      }
      var l' := locks[id].(unlockTime := newUnlockTime);
      CoveredAtChange(locks, locks[id := l'], nextId, balances, balances, address, id);
      ReplaceLock(id, l', balances);
      r := Pass;
    }

    /** setFeesCalculator: the admin replaces the calculator later locks are quoted by. */
    method SetFeesCalculator(caller: Addr, calculator: FeesCalculator) returns (r: Outcome<Error>)
      requires Valid()
      modifies this`feesCalculator
      ensures Valid()
      ensures r.Pass? <==> caller == admin
      ensures r.Fail? ==> r.error == CallerNotAdmin && feesCalculator == old(feesCalculator)
      ensures r.Pass? ==> feesCalculator == calculator
    {
      if caller != admin {
        return Fail(CallerNotAdmin);
      }
      feesCalculator := calculator;
      r := Pass;
    }
  }
}
