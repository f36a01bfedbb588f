/** Fees of inner transactions: what the outer group paid beyond its minimum pays for inner ones. */
module InnerFees {
  import opened Limits

  /** What the fees of a group leave after paying the minimum for each of its transactions. */
  function FeeSum(fees: seq<nat>): nat {
    if fees == [] then 0 else FeeSum(fees[..|fees| - 1]) + fees[|fees| - 1]
  }

  lemma {:induction false} FeeSumFirst(fee: nat, rest: seq<nat>)
    ensures FeeSum([fee] + rest) == fee + FeeSum(rest)
  {
    var n := |rest|;
    if n == 0 {
      assert ([fee] + rest)[..n] == [];
    } else {
      assert ([fee] + rest)[..n] == [fee] + rest[..n - 1];
      FeeSumFirst(fee, rest[..n - 1]);
    }
  }

  datatype CreditFee = CreditFee(remainingFee: int, collectedFee: int, requiredFee: int)

  method CalculateFeeCredit(fees: seq<nat>) returns (c: CreditFee)
    ensures c == CreditFee(FeeSum(fees) - MIN_TX_FEE * |fees|, FeeSum(fees), MIN_TX_FEE * |fees|)
  {
    var collectedFee := 0;
    for i := 0 to |fees|
      invariant collectedFee == FeeSum(fees[..i])
    {
      assert fees[..i + 1][..i] == fees[..i];
      collectedFee := collectedFee + fees[i];
    }
    assert fees[..|fees|] == fees;
    var requiredFee := |fees| * MIN_TX_FEE;
    return CreditFee(collectedFee - requiredFee, collectedFee, requiredFee);
  }

  /** The credit of a group being built on top of what is left from outside. */
  function Credit(surplus: int, fees: seq<nat>): int {
    surplus + FeeSum(fees) - MIN_TX_FEE * |fees|
  }

  function DefaultFee(surplus: int, fees: seq<nat>): nat {
    if Credit(surplus, fees) >= MIN_TX_FEE then 0 else MIN_TX_FEE
  }

  /** The part of an interpreter and its context that accounts for inner transactions. */
  class InnerGroup {
    var remainingFee: int
    var fees: seq<nat>

    constructor (surplus: int)
      ensures remainingFee == surplus && fees == []
    {
      remainingFee, fees := surplus, [];
    }

    method CalculateInnerTxCredit() returns (c: CreditFee)
      ensures c.remainingFee == Credit(remainingFee, fees)
    {
      c := CalculateFeeCredit(fees);
      c := c.(collectedFee := c.collectedFee + remainingFee);
      c := c.(remainingFee := c.collectedFee - c.requiredFee);
    }

    method GetInnerTxDefaultFee() returns (fee: nat)
      ensures fee == DefaultFee(remainingFee, fees)
    {
      var credit := CalculateInnerTxCredit();
      return if credit.remainingFee >= MIN_TX_FEE then 0 else MIN_TX_FEE;
    }

    /** Appends an inner transaction with the fee it gets when the program sets none. */
    method AddInnerTransaction()
      modifies this`fees
      ensures fees == old(fees) + [DefaultFee(remainingFee, old(fees))]
    {
      var fee := GetInnerTxDefaultFee();
      fees := fees + [fee];
    }

    /** Submits the group: it must be covered, and what is left goes to the next one. */
    method Submit() returns (ok: bool)
      modifies this
      ensures ok == (Credit(old(remainingFee), old(fees)) >= 0)
      ensures ok ==> remainingFee == Credit(old(remainingFee), old(fees)) && fees == []
      ensures !ok ==> remainingFee == old(remainingFee) && fees == old(fees)
    {
      var credit := CalculateInnerTxCredit();
      if credit.remainingFee < 0 {
        return false;
      }
      remainingFee := credit.remainingFee;
      fees := [];
      return true;
    }
  }

  /** A group of `n` inner transactions that all take the default fee. */
  function DefaultFees(surplus: int, n: nat): seq<nat> {
    if n == 0 then []
    else
      var before := DefaultFees(surplus, n - 1);
      before + [DefaultFee(surplus, before)]
  }

  function Min(a: nat, b: nat): nat {
    if a < b then a else b
  }

  lemma CreditOfMore(surplus: int, fees: seq<nat>, fee: nat)
    ensures Credit(surplus, fees + [fee]) == Credit(surplus, fees) + fee - MIN_TX_FEE
  {
    assert (fees + [fee])[..|fees|] == fees;
  }

  /** The credit after `n` transactions, and whether it pays for one more. */
  lemma NextCredit(surplus: nat, n: nat, credit: int)
    requires credit == surplus - MIN_TX_FEE * Min(n, surplus / MIN_TX_FEE)
    ensures credit >= 0 && (credit >= MIN_TX_FEE <==> n < surplus / MIN_TX_FEE)
    ensures surplus - MIN_TX_FEE * Min(n + 1, surplus / MIN_TX_FEE)
            == credit - if n < surplus / MIN_TX_FEE then MIN_TX_FEE else 0
  {
    assert surplus == MIN_TX_FEE * (surplus / MIN_TX_FEE) + surplus % MIN_TX_FEE;
  }

  /** The surplus pays for exactly as many inner transactions as it covers, the first ones; each
      later one pays for itself, and the credit never falls below zero. */
  lemma {:induction false} DefaultFeesClosedForm(surplus: nat, n: nat)
    ensures var fees := DefaultFees(surplus, n);
            && |fees| == n
            && (forall i :: 0 <= i < n ==> fees[i] == if i < surplus / MIN_TX_FEE then 0 else MIN_TX_FEE)
            && Credit(surplus, fees) == surplus - MIN_TX_FEE * Min(n, surplus / MIN_TX_FEE)
            && Credit(surplus, fees) >= 0
  {
    if n > 0 {
      var before := DefaultFees(surplus, n - 1);
      DefaultFeesClosedForm(surplus, n - 1);
      NextCredit(surplus, n - 1, Credit(surplus, before));
      CreditOfMore(surplus, before, DefaultFee(surplus, before));
    }
    NextCredit(surplus, n, Credit(surplus, DefaultFees(surplus, n)));
  }

  lemma {:induction false} CreditIsLeft(surplus: nat, n: nat)
    ensures Credit(surplus, DefaultFees(surplus, n)) >= 0
  {
    DefaultFeesClosedForm(surplus, n);
  }

  // ----- several groups, one after the other -----

  function Total(sizes: seq<nat>): nat {
    if sizes == [] then 0 else sizes[0] + Total(sizes[1..])
  }

  /** The fees of all inner transactions, when groups of these sizes are submitted one by one. */
  function AllFees(surplus: int, sizes: seq<nat>): seq<nat>
    decreases |sizes|
  {
    if sizes == [] then []
    else
      var fees := DefaultFees(surplus, sizes[0]);
      fees + AllFees(Credit(surplus, fees), sizes[1..])
  }

  lemma LeftOver(surplus: nat, n: nat)
    ensures var left := surplus - MIN_TX_FEE * Min(n, surplus / MIN_TX_FEE);
            left >= 0 && left / MIN_TX_FEE == surplus / MIN_TX_FEE - Min(n, surplus / MIN_TX_FEE)
  {
  }

  /** What inner transaction `i` pays when a surplus is all there is to begin with. */
  function FeeOf(surplus: nat, i: nat): nat {
    if i < surplus / MIN_TX_FEE then 0 else MIN_TX_FEE
  }

  lemma {:induction false} FeeAt(surplus: nat, n: nat, i: nat)
    requires i < n
    ensures |DefaultFees(surplus, n)| == n && DefaultFees(surplus, n)[i] == FeeOf(surplus, i)
  {
    DefaultFeesClosedForm(surplus, n);
  }

  /** Transaction `i`, not among the first `n`, pays out of what those left what it would pay out of
      the whole surplus. */
  lemma {:induction false} PaidAlike(surplus: nat, n: nat, i: nat)
    requires n <= i
    ensures var left := Credit(surplus, DefaultFees(surplus, n)); left >= 0 && FeeOf(left, i - n) == FeeOf(surplus, i)
  {
    DefaultFeesClosedForm(surplus, n);
    LeftOver(surplus, n);
  }

  lemma {:induction false} OneFeeEach(surplus: int, n: nat)
    ensures |DefaultFees(surplus, n)| == n
  {
    if n > 0 {
      OneFeeEach(surplus, n - 1);
    }
  }

  /** The fees of `m` more transactions on what `n` transactions left are those of `m + n` in a row. */
  lemma {:induction false} DefaultFeesContinue(surplus: nat, n: nat, m: nat)
    ensures var fees := DefaultFees(surplus, n);
            fees + DefaultFees(Credit(surplus, fees), m) == DefaultFees(surplus, n + m)
  {
    var fees := DefaultFees(surplus, n);
    var left := Credit(surplus, fees);
    PaidAlike(surplus, n, n);
    var more, whole := DefaultFees(left, m), DefaultFees(surplus, n + m);
    OneFeeEach(surplus, n);
    OneFeeEach(left, m);
    OneFeeEach(surplus, n + m);
    forall i | 0 <= i < n + m
      ensures (fees + more)[i] == whole[i]
    {
      FeeAt(surplus, n + m, i);
      if i < n {
        FeeAt(surplus, n, i);
      } else {
        FeeAt(left, m, i - n);
        PaidAlike(surplus, n, i);
      }
    }
  }

  /** How the inner transactions are grouped makes no difference to what each one pays. */
  lemma {:induction false} GroupingDoesNotMatter(surplus: nat, sizes: seq<nat>)
    ensures AllFees(surplus, sizes) == DefaultFees(surplus, Total(sizes))
    decreases |sizes|
  {
    if sizes != [] {
      var fees, rest := DefaultFees(surplus, sizes[0]), sizes[1..];
      var left := Credit(surplus, fees);
      CreditIsLeft(surplus, sizes[0]);
      assert AllFees(surplus, sizes) == fees + AllFees(left, rest);
      GroupingDoesNotMatter(left, rest);
      DefaultFeesContinue(surplus, sizes[0], Total(rest));
    }
  }
}
