/**
 * The fee policy of the LP-token locker: the quote a fees calculator returns
 * from getFees() and what each of the three fee methods charges.
 */
module Fees {
  import opened Base

  /** The fee-method argument of lockTokens: code 0, 1 or 2. */
  datatype FeeMethod =
    | NativeFee      // 0: a fee in the chain's native coin, plus the LP cut
    | AlternateFee   // 1: a fee in the alternate fee token (CRX), plus the LP cut
    | FlatNativeFee  // 2: a flat fee in the native coin, no LP cut

  function MethodCode(m: FeeMethod): (c: nat)
    ensures c < 3
  {
    match m
    case NativeFee => 0
    case AlternateFee => 1
    case FlatNativeFee => 2
  }

  /** Decodes a fee-method code; codes above 2 name no method. */
  function MethodOfCode(c: nat): (m: Option<FeeMethod>)
    ensures m.Some? <==> c < 3
    ensures m.Some? ==> MethodCode(m.value) == c
  {
    if c == 0 then Some(NativeFee)
    else if c == 1 then Some(AlternateFee)
    else if c == 2 then Some(FlatNativeFee)
    else None
  }

  /** Encoding a method and decoding the code gives the method back. */
  lemma MethodCodeRoundTrip(m: FeeMethod)
    ensures MethodOfCode(MethodCode(m)) == Some(m)
  {
  }

  /** The denominator of the LP cut: the cut is given in basis points. */
  const BasisPoints: nat := 10000

  /**
   * The getFees() tuple: fees[0] the native fee, fees[1] the alternate-token
   * fee, fees[2] the flat native fee, fees[4] the LP cut in basis points.
   */
  datatype FeeQuote = FeeQuote(nativeFee: nat, alternateFee: nat, flatFee: nat, lpBps: nat)

  /** A deployed fees calculator: its address and the quote it returns. */
  datatype FeesCalculator = FeesCalculator(address: nat, quote: FeeQuote)

  /** The native-coin fee the method charges: fees[0], fees[2] or nothing; a fee paid in the alternate token costs no coins. */
  function NativeCharge(q: FeeQuote, m: FeeMethod): (c: nat)
    ensures m == AlternateFee ==> c == 0
    ensures c <= q.nativeFee + q.flatFee
  {
    match m
    case NativeFee => q.nativeFee
    case FlatNativeFee => q.flatFee
    case AlternateFee => 0
  }

  /** The alternate-token fee the method charges: fees[1] or nothing; only method 1 charges it. */
  function AlternateCharge(q: FeeQuote, m: FeeMethod): (c: nat)
    ensures m != AlternateFee ==> c == 0
    ensures c <= q.alternateFee
  {
    if m == AlternateFee then q.alternateFee else 0
  }

  /**
   * The part of a deposit of `amount` LP tokens that goes to the fee receiver:
   * fees[4] * amount / 10000 rounded down, and nothing for the flat method.
   */
  function LpCut(q: FeeQuote, m: FeeMethod, amount: nat): (cut: nat)
    ensures m == FlatNativeFee ==> cut == 0
  {
    if m == FlatNativeFee then 0 else q.lpBps * amount / BasisPoints
  }

  /** Outside the flat method the cut is the largest whole number of basis points of the deposit. */
  lemma LpCutFloor(q: FeeQuote, m: FeeMethod, amount: nat)
    requires m != FlatNativeFee
    ensures var cut := LpCut(q, m, amount);
            cut * BasisPoints <= q.lpBps * amount < (cut + 1) * BasisPoints
  {
  }

  /**
   * A cut of at most 100% never exceeds the deposit, so the escrowed rest is
   * a natural number; below 100% it leaves a positive rest of a positive
   * deposit, and at 100% it takes the whole deposit.
   */
  lemma LpCutAtMostAmount(q: FeeQuote, m: FeeMethod, amount: nat)
    requires q.lpBps <= BasisPoints
    ensures LpCut(q, m, amount) <= amount
    ensures q.lpBps < BasisPoints && 0 < amount ==> LpCut(q, m, amount) < amount
    ensures q.lpBps == BasisPoints && m != FlatNativeFee ==> LpCut(q, m, amount) == amount
  {
    if m != FlatNativeFee {
      var cut := LpCut(q, m, amount);
      LpCutFloor(q, m, amount);
      assert q.lpBps * amount <= BasisPoints * amount by {
        MulMono(q.lpBps, BasisPoints, amount);
      }
      assert cut * BasisPoints < (amount + 1) * BasisPoints;
      if q.lpBps < BasisPoints && 0 < amount {
        assert q.lpBps * amount <= (BasisPoints - 1) * amount by {
          MulMono(q.lpBps, BasisPoints - 1, amount);
        }
        assert cut * BasisPoints < amount * BasisPoints;
      }
    }
  }

  /** The LP cut grows with the deposit. */
  lemma LpCutMonotone(q: FeeQuote, m: FeeMethod, a1: nat, a2: nat)
    requires a1 <= a2
    ensures LpCut(q, m, a1) <= LpCut(q, m, a2)
  {
    if m != FlatNativeFee {
      MulMono(a1, a2, q.lpBps);
      LpCutFloor(q, m, a1);
      LpCutFloor(q, m, a2);
    }
  }

  lemma MulMono(a: nat, b: nat, c: nat)
    requires a <= b
    ensures a * c <= b * c
  {
  }
}
