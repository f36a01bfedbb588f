/** The addresses of applications still to be deployed: nobody but a payer reaches them. */
module FreshAddresses {
  import opened Wrappers
  import opened Accounts
  import opened Ledger
  import AlgoConservation
  import AssetFrame
  import AssetInvariant
  import Effects

  /** An account that owns nothing but its balance. */
  predicate OwnsNothing(acc: Account) {
    acc == EmptyAccount(acc.amount)
  }

  /** Whatever account lives at the address of an application still to be deployed is blank. */
  ghost predicate BlankAhead(s: State) {
    forall n: nat :: n > s.appCounter && AppAddress(n) in s.accounts ==> OwnsNothing(s.accounts[AppAddress(n)])
  }

  /** None of them holds any Algos either. */
  ghost predicate UnfundedAhead(s: State) {
    forall n: nat :: n > s.appCounter && AppAddress(n) in s.accounts ==> s.accounts[AppAddress(n)].amount == 0
  }

  /** Not the address of an application still to be deployed. */
  predicate Known(s: State, a: Address) {
    a.AppAddress? ==> a.appId <= s.appCounter
  }

  /** Whose transaction a step belongs to, where that matters. */
  function Sender(step: Step): Option<Address> {
    match step
    case Begin(tx) => Some(tx.sender)
    case DoPay(tx) => Some(tx.sender)
    case DoAsset(tx) => Some(tx.sender)
    case Enter(from, _) => Some(from)
    case Finish(from, _) => Some(from)
    case Join(from, _) => Some(from)
    case Leave(from, _) => Some(from)
    case _ => None
  }

  predicate SenderKnown(s: State, step: Step) {
    Sender(step).Some? ==> Known(s, Sender(step).value)
  }

  /** A payment moves Algos between known addresses only. */
  predicate PartiesKnown(s: State, step: Step) {
    step.DoPay? && step.tx.body.Pay? ==>
      && Known(s, step.tx.sender) && Known(s, step.tx.body.to)
      && (step.tx.closeRemainderTo.Some? ==> Known(s, step.tx.closeRemainderTo.value))
  }

  // ----- which accounts come into being -----

  function NewAccounts(s: State, step: Step): set<Address> {
    match step
    case DoPay(tx) => if tx.body.Pay? then {tx.body.to} else {}
    case Finish(_, _) => {AppAddress(s.appCounter + 1)}
    case Look(account) => {account}
    case _ => {}
  }

  lemma TransferKeepsAccounts(s: State, t: TxnType, from: Address, to: Address, amount: nat, closeTo: Option<Address>)
    requires TransferAlgo(s, t, from, to, amount, closeTo).Success?
    ensures var u := TransferAlgo(s, t, from, to, amount, closeTo).value;
            u.accounts.Keys == s.accounts.Keys && u.appCounter == s.appCounter
  {
  }

  lemma FinishAddsAccount(s: State, from: Address, nameFree: bool)
    requires FinishApp(s, from, nameFree).Success?
    ensures var u := FinishApp(s, from, nameFree).value;
            && u.accounts.Keys == s.accounts.Keys + {AppAddress(s.appCounter + 1)}
            && u.appCounter == s.appCounter + 1
  {
    AlgoConservation.NumberAppKeepsAmounts(s, from);
  }

  lemma AlgolessKeepsCounter(s: State, step: Step)
    requires AlgoConservation.Algoless(step) && Change(s, step).Success?
    ensures Change(s, step).value.appCounter == s.appCounter
  {
    match step {
      case DoAsset(tx) => AssetFrame.BodyFrame(s, tx);
      case Enter(from, def) => AlgoConservation.EnterAppKeepsAmounts(s, ApplTxn, from, def);
      case _ =>
    }
  }

  lemma PayAddsAccount(s: State, tx: Tx)
    requires tx.body.Pay? && ProcessPay(s, tx).Success?
    ensures var u := ProcessPay(s, tx).value;
            u.accounts.Keys == s.accounts.Keys + {tx.body.to} && u.appCounter == s.appCounter
  {
    TransferKeepsAccounts(CreateIfAbsent(s, tx.body.to),
                          PayTxn, tx.sender, tx.body.to, tx.body.amount, tx.closeRemainderTo);
  }

  /** A step creates the account that is paid, that a program looks at, or that an application gets,
      and no step removes an account. The counter of applications moves with deployments only. */
  lemma AccountsAppear(s: State, step: Step)
    requires Change(s, step).Success?
    ensures Change(s, step).value.accounts.Keys == s.accounts.Keys + NewAccounts(s, step)
    ensures Change(s, step).value.appCounter == s.appCounter + if step.Finish? then 1 else 0
  {
    if AlgoConservation.Algoless(step) {
      AlgoConservation.AlgolessSame(s, step);
      AlgolessKeepsCounter(s, step);
    } else {
      match step {
        case DoPay(tx) => if tx.body.Pay? { PayAddsAccount(s, tx); }
        case Finish(from, nameFree) => FinishAddsAccount(s, from, nameFree);
        case Begin(_) =>
        case Look(_) =>
      }
    }
  }

  // ----- blank accounts stay blank -----

  lemma PayKeepsBlank(s: State, tx: Tx, a: Address)
    requires tx.body.Pay? && ProcessPay(s, tx).Success?
    requires a in s.accounts ==> OwnsNothing(s.accounts[a])
    requires a in ProcessPay(s, tx).value.accounts
    ensures OwnsNothing(ProcessPay(s, tx).value.accounts[a])
  {
    var s1 := CreateIfAbsent(s, tx.body.to);
    TransferKeepsAccounts(s1, PayTxn, tx.sender, tx.body.to, tx.body.amount, tx.closeRemainderTo);
    Effects.PaymentEffect(s1, PayTxn, tx.sender, tx.body.to, tx.body.amount, tx.closeRemainderTo, a);
  }

  lemma MoveKeepsBlank(s: State, id: nat, from: Address, to: Address, amount: nat, a: Address)
    requires MoveAsset(s, id, from, to, amount).Success? && a in s.accounts && OwnsNothing(s.accounts[a])
    ensures MoveAsset(s, id, from, to, amount).value.accounts[a] == s.accounts[a]
  {
  }

  lemma CloseKeepsBlank(s: State, id: nat, from: Address, closeTo: Address, a: Address)
    requires Holds(s, from, id) && CloseAssetTo(s, id, from, closeTo).Success?
    requires a in s.accounts && OwnsNothing(s.accounts[a])
    ensures CloseAssetTo(s, id, from, closeTo).value.accounts[a] == s.accounts[a]
  {
  }

  lemma BeforeKeepsOthers(s: State, t: TxnType, id: nat, from: Address, to: Address, amount: nat, a: Address)
    requires BeforeTransfer(s, t, id, from, to, amount).Success? && a in s.accounts && a != from
    ensures var u := BeforeTransfer(s, t, id, from, to, amount).value;
            a in u.accounts && u.accounts[a] == s.accounts[a]
  {
  }

  lemma TransferKeepsBlank(
      s: State, t: TxnType, id: nat, from: Address, to: Address, amount: nat, closeTo: Option<Address>, a: Address)
    requires TransferAsset(s, t, id, from, to, amount, closeTo).Success?
    requires a in s.accounts && a != from && OwnsNothing(s.accounts[a])
    ensures a in TransferAsset(s, t, id, from, to, amount, closeTo).value.accounts
    ensures TransferAsset(s, t, id, from, to, amount, closeTo).value.accounts[a] == s.accounts[a]
  {
    BeforeKeepsOthers(s, t, id, from, to, amount, a);
    var s1 := BeforeTransfer(s, t, id, from, to, amount).value;
    MoveKeepsBlank(s1, id, from, to, amount, a);
    if closeTo.Some? {
      CloseKeepsBlank(MoveAsset(s1, id, from, to, amount).value, id, from, closeTo.value, a);
    }
  }

  lemma DestroyKeepsBlank(s: State, id: nat, a: Address)
    requires DestroyAsset(s, id).Success? && a in s.accounts && OwnsNothing(s.accounts[a])
    ensures a in DestroyAsset(s, id).value.accounts && DestroyAsset(s, id).value.accounts[a] == s.accounts[a]
  {
    assert DropHolding(s.accounts[a], id) == s.accounts[a];
  }

  /** Assets reach only accounts that hold them already, or that opt in themselves. */
  lemma AssetKeepsBlank(s: State, tx: Tx, a: Address)
    requires ProcessAsset(s, tx).Success?
    requires a in s.accounts && a != tx.sender && OwnsNothing(s.accounts[a])
    ensures a in ProcessAsset(s, tx).value.accounts && ProcessAsset(s, tx).value.accounts[a] == s.accounts[a]
  {
    match tx.body {
      case AssetTransfer(id, to, amount) =>
        TransferKeepsBlank(s, AxferTxn, id, tx.sender, to, amount, tx.closeRemainderTo, a);
      case AssetRevoke(id, to, target, amount) =>
        AssetFrame.MoveFrame(s, id, target, to, amount);
        MoveKeepsBlank(s, id, target, to, amount, a);
      case AssetDestroy(id) => DestroyKeepsBlank(s, id, a);
      case _ =>
    }
  }

  lemma FinishKeepsBlank(s: State, from: Address, nameFree: bool, a: Address)
    requires FinishApp(s, from, nameFree).Success?
    requires a in s.accounts && a != from && OwnsNothing(s.accounts[a])
    ensures var u := FinishApp(s, from, nameFree).value; a in u.accounts && OwnsNothing(u.accounts[a])
  {
    FinishAddsAccount(s, from, nameFree);
  }

  /** No step of another sender makes a blank account own something. */
  lemma StepKeepsBlank(s: State, step: Step, a: Address)
    requires Change(s, step).Success? && a in Change(s, step).value.accounts
    requires a in s.accounts ==> OwnsNothing(s.accounts[a])
    requires Sender(step) != Some(a)
    ensures OwnsNothing(Change(s, step).value.accounts[a])
  {
    AccountsAppear(s, step);
    match step {
      case DoPay(tx) => if tx.body.Pay? { PayKeepsBlank(s, tx, a); }
      case DoAsset(tx) => AssetKeepsBlank(s, tx, a);
      case Finish(from, nameFree) => if a in s.accounts { FinishKeepsBlank(s, from, nameFree, a); }
      case _ =>
    }
  }

  lemma KeepsBlankAhead(s: State, step: Step)
    requires BlankAhead(s) && SenderKnown(s, step) && Change(s, step).Success?
    ensures BlankAhead(Change(s, step).value)
  {
    var u := Change(s, step).value;
    AccountsAppear(s, step);
    forall n: nat | n > u.appCounter && AppAddress(n) in u.accounts
      ensures OwnsNothing(u.accounts[AppAddress(n)])
    {
      StepKeepsBlank(s, step, AppAddress(n));
    }
  }

  /** So a deployment whose sender is known replaces at most a blank account. */
  lemma ReplacesNothing(s: State, step: Step)
    requires BlankAhead(s) && SenderKnown(s, step) && step.Finish?
    ensures var p := AppAddress(s.appCounter + 1);
            && step.from != p && AssetInvariant.Harmless(s, p)
            && (p in s.accounts ==> OwnsNothing(s.accounts[p]))
  {
  }

  // ----- unfunded accounts stay unfunded -----

  lemma PayKeepsUnfunded(s: State, tx: Tx, a: Address)
    requires tx.body.Pay? && ProcessPay(s, tx).Success? && a in ProcessPay(s, tx).value.accounts
    requires a in s.accounts && s.accounts[a].amount == 0
    requires a != tx.sender && a != tx.body.to && tx.closeRemainderTo != Some(a)
    ensures ProcessPay(s, tx).value.accounts[a].amount == 0
  {
    Effects.PaymentEffect(CreateIfAbsent(s, tx.body.to),
                          PayTxn, tx.sender, tx.body.to, tx.body.amount, tx.closeRemainderTo, a);
  }

  lemma StepKeepsUnfunded(s: State, step: Step, a: Address)
    requires Change(s, step).Success? && a in Change(s, step).value.accounts
    requires PartiesKnown(s, step) && !Known(s, a)
    requires a in s.accounts ==> s.accounts[a].amount == 0
    ensures Change(s, step).value.accounts[a].amount == 0
  {
    AccountsAppear(s, step);
    match step {
      case DoPay(tx) => if tx.body.Pay? { PayKeepsUnfunded(s, tx, a); }
      case Finish(from, _) => AlgoConservation.NumberAppKeepsAmounts(s, from);
      case Begin(_) =>
      case Look(_) =>
      case _ => AlgoConservation.AlgolessSame(s, step);
    }
  }

  /** While payments go between known addresses, nothing is lost by a deployment. */
  lemma KeepsUnfundedAhead(s: State, step: Step)
    requires UnfundedAhead(s) && PartiesKnown(s, step) && Change(s, step).Success?
    ensures UnfundedAhead(Change(s, step).value) && AlgoConservation.Overwritten(s, step) == 0
  {
    var u := Change(s, step).value;
    AccountsAppear(s, step);
    forall n: nat | n > u.appCounter && AppAddress(n) in u.accounts
      ensures u.accounts[AppAddress(n)].amount == 0
    {
      StepKeepsUnfunded(s, step, AppAddress(n));
    }
  }
}
