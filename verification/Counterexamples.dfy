/** Inputs on which the code does not do what one would expect. */
module Counterexamples {
  import opened Wrappers
  import opened Accounts
  import opened Ledger
  import opened AlgoConservation
  import AppIndexInvariant
  import AssetInvariant
  import BalanceInvariant
  import InnerFees
  import Labels
  import MB = MinimumBalance

  // ----- jumps -----

  /** A branch to a label at the end of a program: the old scheme leaves the program, the new one stays
      where it is and goes on with the instruction after the branch. */
  lemma JumpsCanDisagree()
    ensures var ops := [Labels.Branch("end"), Labels.Plain(1), Labels.Label("end")];
            && Labels.DistinctLabels(ops)
            && Labels.JumpForward(ops, 0, "end") == Some(2) && Labels.JumpToLabel(ops, 0, "end") == Some(0)
  {
    var ops := [Labels.Branch("end"), Labels.Plain(1), Labels.Label("end")];
    Labels.FirstLabelIsFirst(ops, 1, "end");
    Labels.MappedLabelIsLast(ops, "end");
    Labels.EndOfLabelsEnds(ops, 2);
  }

  // ----- Algos can be lost -----

  const PAYER := Key("alice")
  const SMALL_APP := AppDefinition(true, true, Programs("approve", "clear"), Schema(0, 0), Schema(0, 0))

  /** The first payment that goes to an application still to be deployed, and its deployment. */
  const PREPAYMENT := Tx("pay", PAYER, Some(1000), true, None, 1, None, true, Pay(AppAddress(9), 200000))
  const DEPLOYMENT := Tx("deploy", PAYER, Some(1000), true, None, 1, None, true,
                         AppCreate(SMALL_APP, ProgramRun([], true)))

  const FUNDED := Put(NOTHING, PAYER, EmptyAccount(10000000))

  /** The ledger after the payment, whose sender was charged 1000. */
  const PREPAID := FUNDED.(accounts := map[PAYER := EmptyAccount(9799000), AppAddress(9) := EmptyAccount(200000)])

  lemma PaymentRuns(n: nat, c: int)
    ensures Perform(Session(FUNDED, n + 1, c), Steps(PREPAYMENT)) == Success(Session(PREPAID, n, c))
    ensures TotalAlgos(PREPAID) == TotalAlgos(FUNDED) - 1000
  {
    var s1 := AddAmount(FUNDED, PAYER, -1000);
    assert Apply(Session(FUNDED, n + 1, c), Begin(PREPAYMENT)) == Success(Session(s1, n, c));
    var s2 := Change(s1, DoPay(PREPAYMENT)).value;
    assert s2.accounts == PREPAID.accounts;
    PerformOne(Session(s1, n, c), DoPay(PREPAYMENT));
    PerformFirst(Session(FUNDED, n + 1, c), Begin(PREPAYMENT), [DoPay(PREPAYMENT)]);
    StepTotal(FUNDED, Begin(PREPAYMENT));
    StepTotal(s1, DoPay(PREPAYMENT));
  }

  /** Charging the deployment, and entering the application. */
  const CHARGED := Put(PREPAID, PAYER, EmptyAccount(9798000))
  const ENTERED :=
    Put(CHARGED, PAYER, EmptyAccount(9798000).AddApp(0, App(PAYER, Schema(0, 0), Schema(0, 0), SMALL_APP.programs)))
    .(globalApps := map[0 := PAYER])

  lemma DeploymentBegins()
    ensures Change(PREPAID, Begin(DEPLOYMENT)) == Success(CHARGED)
    ensures Change(CHARGED, Enter(PAYER, SMALL_APP)) == Success(ENTERED)
    ensures TotalAlgos(ENTERED) == TotalAlgos(PREPAID) - 1000
  {
    StepTotal(PREPAID, Begin(DEPLOYMENT));
    StepTotal(CHARGED, Enter(PAYER, SMALL_APP));
  }

  lemma DeploymentEnds()
    ensures Change(ENTERED, Finish(PAYER, true)).Success?
    ensures TotalAlgos(Change(ENTERED, Finish(PAYER, true)).value) == TotalAlgos(ENTERED) - 200000
  {
    assert GetApp(ENTERED.(appCounter := 9, globalApps := ENTERED.globalApps[9 := PAYER]), 0).Success?;
    StepTotal(ENTERED, Finish(PAYER, true));
  }

  /** A deployment whose program approves and does nothing else. */
  lemma {:induction false} PlainDeployment(x: Session, y: Session, tx: Tx)
    requires tx.body.AppCreate? && tx.body.run == ProgramRun([], true)
    requires Apply(x, Enter(tx.sender, tx.body.app)) == Success(y)
    ensures Perform(x, BodySteps(tx)) == Apply(y, Finish(tx.sender, tx.body.app.nameFree))
  {
    var enter, finish := Enter(tx.sender, tx.body.app), Finish(tx.sender, tx.body.app.nameFree);
    assert RunSteps(tx.body.run) == [Verdict(true)];
    PerformOne(y, Verdict(true));
    PerformAround(x, enter, [Verdict(true)], finish);
  }

  lemma DeploymentRuns(n: nat, c: int)
    ensures Perform(Session(PREPAID, n + 1, c), Steps(DEPLOYMENT)) == Apply(Session(ENTERED, n, c), Finish(PAYER, true))
  {
    DeploymentBegins();
    PlainDeployment(Session(CHARGED, n, c), Session(ENTERED, n, c), DEPLOYMENT);
    PerformFirst(Session(PREPAID, n + 1, c), Begin(DEPLOYMENT), BodySteps(DEPLOYMENT));
  }

  lemma BothPayTheMinimum()
    ensures Fresh(FUNDED, [PREPAYMENT, DEPLOYMENT]) == Session(FUNDED, MAX_GROUP_TXNS, 0)
  {
    assert DeclaredFees([PREPAYMENT, DEPLOYMENT]) == [1000, 1000];
    assert [1000, 1000][..1] == [1000] && [1000][..0] == [];
    assert InnerFees.FeeSum([1000, 1000]) == 1000 + InnerFees.FeeSum([1000]) == 2000;
  }

  /** A group that pays the address of the application it then deploys: it succeeds, and the payment
      is gone. */
  lemma DeployCanLoseAlgos()
    ensures var txs := [PREPAYMENT, DEPLOYMENT];
            && ProcessTransactions(FUNDED, txs).Success?
            && TotalAlgos(ProcessTransactions(FUNDED, txs).value) == TotalAlgos(FUNDED) - 2000 - 200000
  {
    var txs := [PREPAYMENT, DEPLOYMENT];
    PaymentRuns(MAX_GROUP_TXNS - 1, 0);
    DeploymentRuns(MAX_GROUP_TXNS - 2, 0);
    DeploymentBegins();
    DeploymentEnds();
    assert txs[1..] == [DEPLOYMENT] && txs[1..][1..] == [];
    BothPayTheMinimum();
    GroupFirst(Fresh(FUNDED, txs), txs);
    GroupFirst(Session(PREPAID, MAX_GROUP_TXNS - 1, 0), txs[1..]);
  }

  // ----- minimum balances can stay too high -----

  const HOLDER := Key("bob")
  const ASSET_OF_ALICE := AssetDef(5, false, Roles(Some(PAYER), None, None, None))

  /** Alice has created asset 9 and holds all of it, and Bob has opted in to it. */
  const OPTED_IN :=
    Put(Put(NOTHING, PAYER, EmptyAccount(0).AddAsset(PAYER, 9, ASSET_OF_ALICE)),
        HOLDER, EmptyAccount(0).OptInToASA(9, Holding(0, PAYER, false)))
    .(assetDefs := map[9 := PAYER], assetCounter := 9)

  /** Alice destroys the asset: Bob's empty holding goes, and its fee stays in his minimum balance. */
  lemma DestroyCanLeaveCharge()
    ensures DestroyAsset(OPTED_IN, 9).Success? && HOLDER in DestroyAsset(OPTED_IN, 9).value.accounts
    ensures MB.Exact(OPTED_IN.accounts[HOLDER])
    ensures MB.Excess(DestroyAsset(OPTED_IN, 9).value.accounts[HOLDER]) == 100000
  {
    MB.EmptyAccountIsExact(0);
    MB.ApplyExcess(EmptyAccount(0), HOLDER, MB.OptInToASA(9, Holding(0, PAYER, false)));
    BalanceInvariant.DestroyExcess(OPTED_IN, 9, HOLDER);
  }

  // ----- deployments can destroy accounts that are in use -----

  /** The address of application 10 has created asset 9, and Alice has opted in to it. */
  const IN_USE := AppAddress(10)
  const BEFORE := Put(Put(NOTHING, PAYER, EmptyAccount(0)), IN_USE, EmptyAccount(0))

  /** If somebody could sign for an address ahead of its application, the deployment would destroy what
      the address has created and others hold. */
  lemma DeployCanBreakAssets() returns (s: State)
    ensures AssetInvariant.Inv(s) && FinishApp(s, PAYER, true).Success?
    ensures !AssetInvariant.Inv(FinishApp(s, PAYER, true).value)
  {
    var start := BEFORE.(appCounter := 9);
    AssetInvariant.NoAssetsKeep(start);
    var s1 := DeployASA(start, AcfgTxn, IN_USE, ASSET_OF_ALICE, true).value;
    AssetInvariant.DeployKeeps(start, AcfgTxn, IN_USE, ASSET_OF_ALICE, true);
    assert GetAssetDef(s1, 9).Success?;
    var s2 := OptInToASA(s1, AxferTxn, 9, PAYER).value;
    AssetInvariant.OptInKeeps(s1, AxferTxn, 9, PAYER);
    s := EnterApp(s2, ApplTxn, PAYER, SMALL_APP).value;
    AssetInvariant.EnterAppKeeps(s2, ApplTxn, PAYER, SMALL_APP);
    assert GetApp(s.(appCounter := 10, globalApps := s.globalApps[10 := PAYER]), 0).Success?;
    assert 9 in s.accounts[IN_USE].createdAssets && 9 in s.accounts[PAYER].assets;
    AssetInvariant.DeployAppKeepsIff(s, PAYER, true);
  }

  /** And the index would go on naming the applications the address has created. */
  lemma DeployCanBreakIndex() returns (s: State)
    ensures AppIndexInvariant.Inv(s, AppIndexInvariant.Entered(PAYER)) && FinishApp(s, PAYER, true).Success?
    ensures !AppIndexInvariant.Inv(FinishApp(s, PAYER, true).value, AppIndexInvariant.Idle)
  {
    var app := NewApp(IN_USE, SMALL_APP);
    var s1 := Put(BEFORE, IN_USE, EmptyAccount(0).AddApp(9, app)).(globalApps := map[9 := IN_USE], appCounter := 9);
    assert AppIndexInvariant.Inv(s1, AppIndexInvariant.Idle);
    s := EnterApp(s1, ApplTxn, PAYER, SMALL_APP).value;
    AppIndexInvariant.EnterKeeps(s1, ApplTxn, PAYER, SMALL_APP);
    AppIndexInvariant.NumberKeeps(s, PAYER);
    assert 9 in s.accounts[IN_USE].createdApps;
    AppIndexInvariant.DeployKeepsIff(s, PAYER, true);
  }
}
