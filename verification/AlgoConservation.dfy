/** No group of transactions makes or loses Algos, except fees and what a deployment overwrites. */
module AlgoConservation {
  import opened Wrappers
  import opened Accounts
  import opened Ledger
  import AssetFrame
  import MapSums

  function Microalgos(acc: Account): int {
    acc.amount
  }

  ghost function TotalAlgos(s: State): int {
    MapSums.Total(s.accounts, Microalgos)
  }

  ghost function AmountAt(s: State, a: Address): int {
    if a in s.accounts then s.accounts[a].amount else 0
  }

  lemma PutTotal(s: State, a: Address, acc: Account)
    ensures TotalAlgos(Put(s, a, acc)) == TotalAlgos(s) - AmountAt(s, a) + acc.amount
  {
    MapSums.Put(s.accounts, Microalgos, a, acc);
  }

  lemma AddAmountTotal(s: State, a: Address, delta: int)
    requires a in s.accounts
    ensures TotalAlgos(AddAmount(s, a, delta)) == TotalAlgos(s) + delta
  {
    PutTotal(s, a, s.accounts[a].(amount := s.accounts[a].amount + delta));
  }

  lemma CloseKeepsTotal(s: State, from: Address, closeTo: Address)
    requires from in s.accounts && CloseRemainder(s, from, closeTo).Success?
    ensures TotalAlgos(CloseRemainder(s, from, closeTo).value) == TotalAlgos(s)
  {
    var left := s.accounts[from].amount;
    AddAmountTotal(s, closeTo, left);
    var s1 := AddAmount(s, closeTo, left);
    PutTotal(s1, from, s1.accounts[from].(amount := 0));
  }

  lemma TransferKeepsTotal(
      s: State, t: TxnType, from: Address, to: Address, amount: nat, closeTo: Option<Address>)
    requires TransferAlgo(s, t, from, to, amount, closeTo).Success?
    ensures TotalAlgos(TransferAlgo(s, t, from, to, amount, closeTo).value) == TotalAlgos(s)
  {
    var delta: int := amount;
    AddAmountTotal(s, from, -delta);
    var s1 := AddAmount(s, from, -delta);
    AddAmountTotal(s1, to, delta);
    if closeTo.Some? {
      CloseKeepsTotal(AddAmount(s1, to, delta), from, closeTo.value);
    }
  }

  lemma PayKeepsTotal(s: State, tx: Tx)
    requires tx.body.Pay? && ProcessPay(s, tx).Success?
    ensures TotalAlgos(ProcessPay(s, tx).value) == TotalAlgos(s)
  {
    var to := tx.body.to;
    PutTotal(s, to, EmptyAccount(0));
    TransferKeepsTotal(if to in s.accounts then s else Put(s, to, EmptyAccount(0)),
                       PayTxn, tx.sender, to, tx.body.amount, tx.closeRemainderTo);
  }

  /** Both ledgers have the same accounts with the same balances. */
  ghost predicate SameAmounts(s: State, t: State) {
    && t.accounts.Keys == s.accounts.Keys
    && (forall a :: a in s.accounts ==> t.accounts[a].amount == s.accounts[a].amount)
  }

  lemma SameTotal(s: State, t: State)
    requires SameAmounts(s, t)
    ensures TotalAlgos(t) == TotalAlgos(s)
  {
    MapSums.Pointwise(s.accounts, t.accounts, Microalgos);
  }

  lemma PutSame(s: State, a: Address, acc: Account)
    requires a in s.accounts && acc.amount == s.accounts[a].amount
    ensures SameAmounts(s, Put(s, a, acc))
  {
  }

  lemma EnterAppKeepsAmounts(s: State, t: TxnType, from: Address, def: AppDefinition)
    requires EnterApp(s, t, from, def).Success?
    ensures var u := EnterApp(s, t, from, def).value; SameAmounts(s, u) && u.appCounter == s.appCounter
  {
  }

  lemma NumberAppKeepsAmounts(s: State, from: Address)
    requires from in s.accounts && NumberApp(s, from).Success?
    ensures SameAmounts(s, NumberApp(s, from).value)
    ensures NumberApp(s, from).value.appCounter == s.appCounter + 1
  {
  }

  /** What a step loses by replacing the account at a new application's address. */
  ghost function Overwritten(s: State, step: Step): int {
    if step.Finish? then AmountAt(s, AppAddress(s.appCounter + 1)) else 0
  }

  /** The fee a step is charged, if it is defined. */
  function FeeOf(step: Step): nat {
    if step.Begin? && FeeDue(step.tx).Success? then FeeDue(step.tx).value else 0
  }

  lemma FinishTotal(s: State, from: Address, nameFree: bool)
    requires FinishApp(s, from, nameFree).Success?
    ensures TotalAlgos(FinishApp(s, from, nameFree).value)
            == TotalAlgos(s) - AmountAt(s, AppAddress(s.appCounter + 1))
  {
    NumberAppKeepsAmounts(s, from);
    var s1 := NumberApp(s, from).value;
    SameTotal(s, s1);
    PutTotal(s1, AppAddress(s1.appCounter), EmptyAccount(0));
  }

  /** The steps on application tables change one account's tables, or nothing. */
  lemma AppStepSame(s: State, step: Step)
    requires step.Join? || step.Leave? || step.Delete? || step.Replace?
    requires Change(s, step).Success?
    ensures SameAmounts(s, Change(s, step).value)
  {
    match step {
      case Join(from, id) =>
        PutSame(s, from, s.accounts[from].OptInToApp(id, GetApp(s, id).value.localSchema).value);
      case Leave(from, id) => PutSame(s, from, s.accounts[from].CloseApp(id).value);
      case Delete(id) => PutSame(s, s.globalApps[id], s.accounts[s.globalApps[id]].DeleteApp(id).value);
      case Replace(id, programs) =>
        PutSame(s, s.globalApps[id], s.accounts[s.globalApps[id]].ReplacePrograms(id, programs).value);
    }
  }

  /** The steps that are not about Algos. */
  predicate Algoless(step: Step) {
    !step.Begin? && !step.DoPay? && !step.Finish? && !step.Look?
  }

  lemma AlgolessSame(s: State, step: Step)
    requires Algoless(step) && Change(s, step).Success?
    ensures SameAmounts(s, Change(s, step).value)
  {
    match step {
      case DoAsset(tx) => AssetFrame.BodyFrame(s, tx);
      case Enter(from, def) => EnterAppKeepsAmounts(s, ApplTxn, from, def);
      case Find(_) =>
      case CheckPrograms(_) =>
      case Settle(_) =>
      case Verdict(_) =>
      case _ => AppStepSame(s, step);
    }
  }

  /** One step changes the sum of all balances by the fee it charges and the balance it overwrites. */
  lemma StepTotal(s: State, step: Step)
    requires Change(s, step).Success?
    ensures TotalAlgos(Change(s, step).value) == TotalAlgos(s) - FeeOf(step) - Overwritten(s, step)
  {
    match step {
      case Begin(tx) =>
        var fee: int := FeeDue(tx).value;
        AddAmountTotal(s, tx.sender, -fee);
      case DoPay(tx) => if tx.body.Pay? { PayKeepsTotal(s, tx); }
      case Finish(from, nameFree) => FinishTotal(s, from, nameFree);
      case Look(account) => PutTotal(s, account, EmptyAccount(0));
      case _ =>
        AlgolessSame(s, step);
        SameTotal(s, Change(s, step).value);
    }
  }

  // ----- groups -----

  /** All the fees that are charged, those of inner transactions included. */
  function Charged(steps: seq<Step>): nat {
    if steps == [] then 0 else FeeOf(steps[0]) + Charged(steps[1..])
  }

  /** What the deployments overwrite, each in the ledger it finds. */
  ghost function OverwrittenBy(x: Session, steps: seq<Step>): int
    decreases |steps|
  {
    if steps == [] || Apply(x, steps[0]).Failure? then 0
    else Overwritten(x.ledger, steps[0]) + OverwrittenBy(Apply(x, steps[0]).value, steps[1..])
  }

  lemma {:induction false} PerformTotal(x: Session, steps: seq<Step>)
    requires Perform(x, steps).Success?
    ensures TotalAlgos(Perform(x, steps).value.ledger) + Charged(steps) + OverwrittenBy(x, steps)
            == TotalAlgos(x.ledger)
    decreases |steps|
  {
    if steps != [] {
      StepTotal(x.ledger, steps[0]);
      PerformTotal(Apply(x, steps[0]).value, steps[1..]);
    }
  }

  /** The conservation law, for every group, whatever inner transactions its programs submit and
      however the addresses in it coincide. */
  lemma {:induction false} GroupConservesAlgos(s: State, txs: seq<Tx>)
    requires ProcessTransactions(s, txs).Success?
    ensures TotalAlgos(ProcessTransactions(s, txs).value)
            + Charged(GroupSteps(txs)) + OverwrittenBy(Fresh(s, txs), GroupSteps(txs))
            == TotalAlgos(s)
  {
    PerformTotal(Fresh(s, txs), GroupSteps(txs));
  }

  ghost predicate NoFinish(steps: seq<Step>) {
    forall step :: step in steps ==> !step.Finish?
  }

  lemma {:induction false} NothingOverwritten(x: Session, steps: seq<Step>)
    requires NoFinish(steps)
    ensures OverwrittenBy(x, steps) == 0
    decreases |steps|
  {
    if steps != [] && Apply(x, steps[0]).Success? {
      NothingOverwritten(Apply(x, steps[0]).value, steps[1..]);
    }
  }

  // Only an outer transaction can deploy: a program's groups hold no deployment.

  lemma {:induction false} TxFinishesNothing(tx: Tx)
    requires !tx.body.AppCreate?
    ensures NoFinish(Steps(tx))
    decreases tx, 1
  {
    match tx.body {
      case AppCall(_, run) => RunFinishesNothing(run);
      case AppOptIn(_, run) => RunFinishesNothing(run);
      case AppCloseOut(_, run) => RunFinishesNothing(run);
      case AppClear(_, run) => ClearFinishesNothing(run.actions);
      case AppDelete(_, run) => RunFinishesNothing(run);
      case AppUpdate(_, _, _, run) => RunFinishesNothing(run);
      case _ =>
    }
  }

  lemma {:induction false} ClearFinishesNothing(actions: seq<Action>)
    ensures NoFinish(ClearSteps(actions))
    decreases |actions|
  {
    if actions != [] && actions[0].LookAt? {
      ClearFinishesNothing(actions[1..]);
    }
  }

  lemma {:induction false} RunFinishesNothing(run: ProgramRun)
    ensures NoFinish(RunSteps(run))
    decreases run
  {
    ActionsFinishNothing(run.actions);
  }

  lemma {:induction false} ActionsFinishNothing(actions: seq<Action>)
    ensures NoFinish(ActionSteps(actions))
    decreases actions
  {
    if actions != [] {
      ActionFinishesNothing(actions[0]);
      ActionsFinishNothing(actions[1..]);
    }
  }

  lemma {:induction false} ActionFinishesNothing(action: Action)
    ensures NoFinish(StepsOf(action))
    decreases action
  {
    if action.Submit? && Submittable(action.group) {
      GroupFinishesNothing(action.group);
    }
  }

  lemma {:induction false} GroupFinishesNothing(txs: seq<Tx>)
    requires forall i :: 0 <= i < |txs| ==> !txs[i].body.AppCreate?
    ensures NoFinish(GroupSteps(txs))
    decreases txs
  {
    if txs != [] {
      TxFinishesNothing(txs[0]);
      GroupFinishesNothing(txs[1..]);
    }
  }

  /** Without deployments, exactly the fees leave the ledger. */
  lemma {:induction false} GroupWithoutDeployments(s: State, txs: seq<Tx>)
    requires forall i :: 0 <= i < |txs| ==> !txs[i].body.AppCreate?
    requires ProcessTransactions(s, txs).Success?
    ensures TotalAlgos(ProcessTransactions(s, txs).value) + Charged(GroupSteps(txs)) == TotalAlgos(s)
  {
    GroupConservesAlgos(s, txs);
    GroupFinishesNothing(txs);
    NothingOverwritten(Fresh(s, txs), GroupSteps(txs));
  }

  /** A deployment conserves Algos exactly when, as it ends, the new application's address holds none. */
  lemma DeployConservesIff(s: State, from: Address, nameFree: bool)
    requires FinishApp(s, from, nameFree).Success?
    ensures TotalAlgos(FinishApp(s, from, nameFree).value) == TotalAlgos(s)
            <==> AmountAt(s, AppAddress(s.appCounter + 1)) == 0
  {
    FinishTotal(s, from, nameFree);
  }
}
