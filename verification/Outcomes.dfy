/** What a transaction comes to, in terms of its own fields and of the ledger before it: when it
    succeeds, and every field of the ledger it leaves. This part is about fees and payments. */
module Outcomes {
  import opened Wrappers
  import opened Accounts
  import opened Ledger
  import opened Effects

  // ----- the fee -----

  /** A flat fee is charged as it is declared, any other is raised to 1000. */
  function Due(tx: Tx): nat {
    match tx.fee
    case None => 0
    case Some(fee) => if tx.flatFee || fee >= 1000 then fee else 1000
  }

  /** When a transaction gets past its beginning. Only a payment must leave its sender the minimum
      balance. */
  predicate MayBegin(x: Session, tx: Tx) {
    && (tx.flatFee || tx.fee.Some?)
    && tx.sender in x.ledger.accounts && tx.authorized && x.slots > 0
    && var acc := x.ledger.accounts[tx.sender];
       acc.amount >= Due(tx) && (tx.body.Pay? ==> acc.amount - Due(tx) >= acc.minBalance)
  }

  /** The sender has less by the fee, nobody else is touched, and one transaction has been begun. */
  function Paid(x: Session, tx: Tx): Session
    requires tx.sender in x.ledger.accounts
  {
    var acc := x.ledger.accounts[tx.sender];
    var charged := acc.(amount := acc.amount - Due(tx));
    Session(x.ledger.(accounts := x.ledger.accounts[tx.sender := charged]),
            if x.slots > 0 then x.slots - 1 else 0, x.credit)
  }

  lemma BeginComesTo(x: Session, tx: Tx)
    ensures Apply(x, Begin(tx)).Success? <==> MayBegin(x, tx)
    ensures MayBegin(x, tx) ==> Apply(x, Begin(tx)) == Success(Paid(x, tx))
  {
  }

  /** Whoever the transaction is about, it begins by charging its fee. */
  lemma {:induction false} TxComesTo(x: Session, tx: Tx)
    ensures Perform(x, Steps(tx)).Success? ==> MayBegin(x, tx)
    ensures MayBegin(x, tx) ==> Perform(x, Steps(tx)) == Perform(Paid(x, tx), BodySteps(tx))
  {
    BeginComesTo(x, tx);
    PerformFirst(x, Begin(tx), BodySteps(tx));
  }

  // ----- payments -----

  /** A payment succeeds if it leaves the sender the minimum balance, and closes the account, if it
      does, to another one that exists. */
  predicate MayPay(s: State, tx: Tx)
    requires tx.body.Pay? && tx.sender in s.accounts
  {
    var acc, amount: int := s.accounts[tx.sender], tx.body.amount;
    && acc.amount + Gain(tx.sender, tx.body.to, amount, tx.sender) >= acc.minBalance
    && (tx.closeRemainderTo.Some? ==>
          var c := tx.closeRemainderTo.value; c != tx.sender && (c in s.accounts || c == tx.body.to))
  }

  /** The balance of `a` after the payment. */
  function AmountAfter(s: State, tx: Tx, a: Address): int
    requires tx.body.Pay?
  {
    After(BalanceIn(s), tx.sender, tx.body.to, tx.body.amount, tx.closeRemainderTo, a)
  }

  /** Balances move as `After` says; the receiver comes into being if it was missing. */
  function Transferred(s: State, tx: Tx): State
    requires tx.body.Pay?
  {
    s.(accounts := map a | a in s.accounts.Keys + {tx.body.to} ::
         (if a in s.accounts then s.accounts[a] else Account(0, 100000, map[], map[], map[], map[]))
         .(amount := AmountAfter(s, tx, a)))
  }

  lemma PayingIff(s: State, tx: Tx)
    requires tx.body.Pay? && tx.sender in s.accounts
    ensures ProcessPay(s, tx).Success? <==> MayPay(s, tx)
  {
    var s1 := CreateIfAbsent(s, tx.body.to);
    TwoAmounts(s1, tx.sender, tx.body.to, tx.body.amount, tx.sender);
  }

  lemma PayingFrame(s: State, tx: Tx)
    requires tx.body.Pay? && ProcessPay(s, tx).Success?
    ensures var u := ProcessPay(s, tx).value;
            u == s.(accounts := u.accounts) && u.accounts.Keys == s.accounts.Keys + {tx.body.to}
  {
  }

  lemma AmountComesTo(s: State, tx: Tx, a: Address)
    requires tx.body.Pay? && ProcessPay(s, tx).Success? && (a in s.accounts || a == tx.body.to)
    ensures a in ProcessPay(s, tx).value.accounts
    ensures ProcessPay(s, tx).value.accounts[a] ==
            (if a in s.accounts then s.accounts[a] else Account(0, 100000, map[], map[], map[], map[]))
            .(amount := AmountAfter(s, tx, a))
  {
    var s1 := CreateIfAbsent(s, tx.body.to);
    PaymentEffect(s1, PayTxn, tx.sender, tx.body.to, tx.body.amount, tx.closeRemainderTo, a);
    assert BalanceIn(s1)(a) == BalanceIn(s)(a) && BalanceIn(s1)(tx.sender) == BalanceIn(s)(tx.sender);
  }

  lemma PaymentComesTo(s: State, tx: Tx)
    requires tx.body.Pay? && ProcessPay(s, tx).Success?
    ensures ProcessPay(s, tx).value == Transferred(s, tx)
  {
    var u, v := ProcessPay(s, tx).value, Transferred(s, tx);
    PayingFrame(s, tx);
    assert v.accounts.Keys == u.accounts.Keys;
    forall a | a in u.accounts
      ensures u.accounts[a] == v.accounts[a]
    {
      AmountComesTo(s, tx, a);
    }
    assert u.accounts == v.accounts;
  }

  /** A payment, from its fee to its end. */
  lemma {:induction false} PayTxComesTo(x: Session, tx: Tx)
    requires tx.body.Pay?
    ensures Perform(x, Steps(tx)).Success? <==> MayBegin(x, tx) && MayPay(Paid(x, tx).ledger, tx)
    ensures Perform(x, Steps(tx)).Success? ==>
              var y := Paid(x, tx); Perform(x, Steps(tx)) == Success(y.(ledger := Transferred(y.ledger, tx)))
  {
    TxComesTo(x, tx);
    if MayBegin(x, tx) {
      var y := Paid(x, tx);
      PerformOne(y, DoPay(tx));
      PayingIff(y.ledger, tx);
      if ProcessPay(y.ledger, tx).Success? {
        PaymentComesTo(y.ledger, tx);
      }
    }
  }
}
