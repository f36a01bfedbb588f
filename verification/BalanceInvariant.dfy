/** In every ledger that transactions can produce, balances are not negative, and every recorded
    minimum balance lies above the closed form of `MinimumBalance` by exactly one asset fee for each
    holding that was dropped because somebody else destroyed the asset. */
module BalanceInvariant {
  import opened Wrappers
  import opened Accounts
  import opened Ledger
  import AlgoConservation
  import AppIndexInvariant
  import AssetFrame
  import AssetInvariant
  import MapSums
  import MB = MinimumBalance

  ghost predicate Covered(acc: Account) {
    MB.Excess(acc) >= 0
  }

  ghost predicate Inv(s: State) {
    forall a :: a in s.accounts ==> s.accounts[a].amount >= 0 && Covered(s.accounts[a])
  }

  /** The invariant, but for the balance at `a`. */
  ghost predicate InvBut(s: State, a: Address) {
    forall b :: b in s.accounts ==> (b == a || s.accounts[b].amount >= 0) && Covered(s.accounts[b])
  }

  lemma NewAccountKeeps(s: State, a: Address)
    requires Inv(s)
    ensures Inv(Put(s, a, EmptyAccount(0)))
  {
    MB.EmptyAccountIsExact(0);
  }

  lemma AmountKeepsCover(acc: Account, amount: int)
    ensures MB.Excess(acc.(amount := amount)) == MB.Excess(acc)
  {
  }

  lemma SetAmountKeeps(s: State, a: Address, amount: int)
    requires Inv(s) && a in s.accounts && amount >= 0
    ensures Inv(SetAmount(s, a, amount))
  {
    AmountKeepsCover(s.accounts[a], amount);
  }

  // ----- payments -----

  /** The balance check after the payment is what makes the payment safe, however its addresses coincide. */
  lemma MovementKeeps(s: State, from: Address, to: Address, delta: int)
    requires Inv(s) && from in s.accounts && to in s.accounts && delta >= 0
    requires AssertAccBalAboveMin(AddAmount(AddAmount(s, from, -delta), to, delta), PayTxn, from).Success?
    ensures Inv(AddAmount(AddAmount(s, from, -delta), to, delta))
  {
    var s1 := AddAmount(s, from, -delta);
    AmountKeepsCover(s.accounts[from], s1.accounts[from].amount);
    assert InvBut(s1, from);
    var s2 := AddAmount(s1, to, delta);
    AmountKeepsCover(s1.accounts[to], s2.accounts[to].amount);
    assert InvBut(s2, from);
    MB.RequiredIsPositive(s2.accounts[from]);
  }

  lemma CloseRemainderKeeps(s: State, from: Address, closeTo: Address)
    requires Inv(s) && from in s.accounts && CloseRemainder(s, from, closeTo).Success?
    ensures Inv(CloseRemainder(s, from, closeTo).value)
  {
    SetAmountKeeps(s, closeTo, s.accounts[closeTo].amount + s.accounts[from].amount);
    SetAmountKeeps(AddAmount(s, closeTo, s.accounts[from].amount), from, 0);
  }

  lemma TransferAlgoKeeps(s: State, from: Address, to: Address, amount: nat, closeTo: Option<Address>)
    requires Inv(s) && TransferAlgo(s, PayTxn, from, to, amount, closeTo).Success?
    ensures var u := TransferAlgo(s, PayTxn, from, to, amount, closeTo).value;
            && Inv(u) && from in u.accounts
            && (closeTo.None? ==> u.accounts[from].amount >= u.accounts[from].minBalance)
            && (closeTo.Some? ==> u.accounts[from].amount == 0)
  {
    var delta: int := amount;
    MovementKeeps(s, from, to, delta);
    if closeTo.Some? {
      CloseRemainderKeeps(AddAmount(AddAmount(s, from, -delta), to, delta), from, closeTo.value);
    }
  }

  /** After a payment the sender has at least its minimum balance, or has been closed to zero. */
  lemma PayKeeps(s: State, tx: Tx)
    requires tx.body.Pay? && Inv(s) && ProcessPay(s, tx).Success?
    ensures var u := ProcessPay(s, tx).value;
            && Inv(u) && tx.sender in u.accounts
            && (tx.closeRemainderTo.None? ==> u.accounts[tx.sender].amount >= u.accounts[tx.sender].minBalance)
            && (tx.closeRemainderTo.Some? ==> u.accounts[tx.sender].amount == 0)
  {
    var to := tx.body.to;
    NewAccountKeeps(s, to);
    TransferAlgoKeeps(if to in s.accounts then s else Put(s, to, EmptyAccount(0)),
                      tx.sender, to, tx.body.amount, tx.closeRemainderTo);
  }

  // ----- the distance above the closed form -----

  /** Every account of `s` is in `t` with the same excess, and new accounts are exact. */
  ghost predicate SameExcess(s: State, t: State) {
    && (forall a :: a in s.accounts ==> a in t.accounts && MB.Excess(t.accounts[a]) == MB.Excess(s.accounts[a]))
    && (forall a :: a in t.accounts && a !in s.accounts ==> MB.Excess(t.accounts[a]) == 0)
  }

  lemma SameTwice(s: State, t: State, u: State)
    requires SameExcess(s, t) && SameExcess(t, u)
    ensures SameExcess(s, u)
  {
  }

  lemma AddAmountSame(s: State, a: Address, delta: int)
    requires a in s.accounts
    ensures SameExcess(s, AddAmount(s, a, delta))
  {
    AmountKeepsCover(s.accounts[a], s.accounts[a].amount + delta);
  }

  lemma LookSame(s: State, a: Address)
    ensures SameExcess(s, CreateIfAbsent(s, a))
  {
    MB.EmptyAccountIsExact(0);
  }

  lemma CloseSame(s: State, from: Address, closeTo: Address)
    requires from in s.accounts && CloseRemainder(s, from, closeTo).Success?
    ensures SameExcess(s, CloseRemainder(s, from, closeTo).value)
  {
    var left := s.accounts[from].amount;
    AddAmountSame(s, closeTo, left);
    var s1 := AddAmount(s, closeTo, left);
    AddAmountSame(s1, from, -s1.accounts[from].amount);
    SameTwice(s, s1, SetAmount(s1, from, 0));
  }

  lemma TransferAlgoSame(s: State, t: TxnType, from: Address, to: Address, amount: nat, closeTo: Option<Address>)
    requires TransferAlgo(s, t, from, to, amount, closeTo).Success?
    ensures SameExcess(s, TransferAlgo(s, t, from, to, amount, closeTo).value)
  {
    var delta: int := amount;
    var s1 := AddAmount(s, from, -delta);
    var s2 := AddAmount(s1, to, delta);
    AddAmountSame(s, from, -delta);
    AddAmountSame(s1, to, delta);
    SameTwice(s, s1, s2);
    if closeTo.Some? {
      CloseSame(s2, from, closeTo.value);
      SameTwice(s, s2, CloseRemainder(s2, from, closeTo.value).value);
    }
  }

  lemma PaySame(s: State, tx: Tx)
    requires tx.body.Pay? && ProcessPay(s, tx).Success?
    ensures SameExcess(s, ProcessPay(s, tx).value)
  {
    var s1 := CreateIfAbsent(s, tx.body.to);
    LookSame(s, tx.body.to);
    TransferAlgoSame(s1, PayTxn, tx.sender, tx.body.to, tx.body.amount, tx.closeRemainderTo);
    SameTwice(s, s1, ProcessPay(s, tx).value);
  }

  /** An account operation that creates nothing keeps every excess. */
  lemma OpSame(s: State, a: Address, op: MB.Op)
    requires a in s.accounts && MB.Apply(s.accounts[a], a, op).Success? && MB.Overcharge(s.accounts[a], op) == 0
    ensures SameExcess(s, Put(s, a, MB.Apply(s.accounts[a], a, op).value))
  {
    MB.ApplyExcess(s.accounts[a], a, op);
  }

  lemma AddHoldingSame(s: State, a: Address, id: nat, delta: int)
    requires Holds(s, a, id)
    ensures SameExcess(s, AddHolding(s, a, id, delta))
  {
    var acc := s.accounts[a];
    MapSums.CountPut(acc.assets, id, acc.assets[id].(amount := acc.assets[id].amount + delta));
  }

  lemma BeforeTransferSame(s: State, t: TxnType, id: nat, from: Address, to: Address, amount: nat)
    requires BeforeTransfer(s, t, id, from, to, amount).Success?
    ensures SameExcess(s, BeforeTransfer(s, t, id, from, to, amount).value)
  {
    if amount == 0 && from == to {
      var params := GetAssetDef(s, id).value;
      OpSame(s, from, MB.OptInToASA(id, Holding(0, params.creator, params.defaultFrozen)));
    }
  }

  lemma MoveAssetSame(s: State, id: nat, from: Address, to: Address, amount: nat)
    requires MoveAsset(s, id, from, to, amount).Success?
    ensures SameExcess(s, MoveAsset(s, id, from, to, amount).value)
  {
    var delta: int := amount;
    var s1 := AddHolding(s, from, id, -delta);
    AddHoldingSame(s, from, id, -delta);
    AddHoldingSame(s1, to, id, delta);
    SameTwice(s, s1, AddHolding(s1, to, id, delta));
  }

  lemma CloseAssetSame(s: State, id: nat, from: Address, closeTo: Address)
    requires Holds(s, from, id) && CloseAssetTo(s, id, from, closeTo).Success?
    ensures SameExcess(s, CloseAssetTo(s, id, from, closeTo).value)
  {
    var left := s.accounts[from].assets[id].amount;
    var s1 := AddHolding(s, closeTo, id, left);
    AddHoldingSame(s, closeTo, id, left);
    OpSame(s1, from, MB.CloseAsset(id));
    SameTwice(s, s1, CloseAssetTo(s, id, from, closeTo).value);
  }

  lemma BeforeClosingSame(s: State, t: TxnType, id: nat, from: Address, to: Address, amount: nat)
    requires BeforeTransfer(s, t, id, from, to, amount).Success?
    requires MoveAsset(BeforeTransfer(s, t, id, from, to, amount).value, id, from, to, amount).Success?
    ensures SameExcess(s, MoveAsset(BeforeTransfer(s, t, id, from, to, amount).value, id, from, to, amount).value)
  {
    var s1 := BeforeTransfer(s, t, id, from, to, amount).value;
    BeforeTransferSame(s, t, id, from, to, amount);
    MoveAssetSame(s1, id, from, to, amount);
    SameTwice(s, s1, MoveAsset(s1, id, from, to, amount).value);
  }

  lemma TransferAssetSame(
      s: State, t: TxnType, id: nat, from: Address, to: Address, amount: nat, closeTo: Option<Address>)
    requires TransferAsset(s, t, id, from, to, amount, closeTo).Success?
    ensures SameExcess(s, TransferAsset(s, t, id, from, to, amount, closeTo).value)
  {
    BeforeClosingSame(s, t, id, from, to, amount);
    if closeTo.Some? {
      var s2 := MoveAsset(BeforeTransfer(s, t, id, from, to, amount).value, id, from, to, amount).value;
      CloseAssetSame(s2, id, from, closeTo.value);
      SameTwice(s, s2, CloseAssetTo(s2, id, from, closeTo.value).value);
    }
  }

  /** The steps that may move an account away from the closed form. */
  predicate Moves(step: Step) {
    || (step.DoAsset? && (step.tx.body.AssetCreate? || step.tx.body.AssetDestroy?))
    || step.Enter? || step.Finish?
  }

  lemma AssetSame(s: State, tx: Tx)
    requires !Moves(DoAsset(tx)) && ProcessAsset(s, tx).Success?
    ensures SameExcess(s, ProcessAsset(s, tx).value)
  {
    match tx.body {
      case AssetReconfigure(id, fields) => OpSame(s, s.assetDefs[id], MB.ModifyAsset(id, fields));
      case AssetTransfer(id, to, amount) =>
        TransferAssetSame(s, AxferTxn, id, tx.sender, to, amount, tx.closeRemainderTo);
      case AssetRevoke(id, to, target, amount) => MoveAssetSame(s, id, target, to, amount);
      case AssetFreeze(id, target, frozen) => OpSame(s, target, MB.SetFreezeState(id, frozen));
      case _ =>
    }
  }

  lemma AppSame(s: State, step: Step)
    requires step.Join? || step.Leave? || step.Delete? || step.Replace?
    requires Change(s, step).Success?
    ensures SameExcess(s, Change(s, step).value)
  {
    match step {
      case Join(from, id) => OpSame(s, from, MB.OptInToApp(id, GetApp(s, id).value.localSchema));
      case Leave(from, id) => OpSame(s, from, MB.CloseApp(id));
      case Delete(id) => OpSame(s, s.globalApps[id], MB.DeleteApp(id));
      case Replace(id, programs) => OpSame(s, s.globalApps[id], MB.ReplacePrograms(id, programs));
    }
  }

  lemma StepSame(s: State, step: Step)
    requires !Moves(step) && Change(s, step).Success?
    ensures SameExcess(s, Change(s, step).value)
  {
    match step {
      case Begin(tx) =>
        var fee: int := FeeDue(tx).value;
        AddAmountSame(s, tx.sender, -fee);
      case DoPay(tx) => if tx.body.Pay? { PaySame(s, tx); }
      case DoAsset(tx) => AssetSame(s, tx);
      case Look(account) => LookSame(s, account);
      case Find(_) =>
      case CheckPrograms(_) =>
      case Settle(_) =>
      case Verdict(_) =>
      case _ => AppSame(s, step);
    }
  }

  // ----- the steps that may move an account -----

  /** Losing a holding this way lowers what is required and leaves the recorded minimum. */
  lemma DropHoldingExcess(acc: Account, id: nat)
    ensures MB.Excess(DropHolding(acc, id)) == MB.Excess(acc) + (if id in acc.assets then ASSET_CREATION_FEE else 0)
  {
    if id in acc.assets {
      MapSums.CountRemove(acc.assets, id);
    } else {
      assert acc.assets - {id} == acc.assets;
    }
  }

  /** Destroying an asset moves every other account that held it, and no account else, one asset fee
      away from the closed form. */
  lemma DestroyExcess(s: State, id: nat, a: Address)
    requires DestroyAsset(s, id).Success? && a in s.accounts
    ensures var after := DestroyAsset(s, id).value.accounts[a];
            MB.Excess(after) == MB.Excess(s.accounts[a])
              + if a != s.assetDefs[id] && id in s.accounts[a].assets then ASSET_CREATION_FEE else 0
  {
    var creator := s.assetDefs[id];
    MB.ApplyExcess(s.accounts[creator], creator, MB.DestroyAsset(id));
    var acc := if a == creator then s.accounts[a].DestroyAsset(id).value else s.accounts[a];
    DropHoldingExcess(acc, id);
  }

  lemma MoveAppExcess(acc: Account, id: nat, app: App)
    requires 0 in acc.createdApps && app == acc.createdApps[0] && id != 0
    ensures MB.Excess(MoveApp(acc, id, app))
            == MB.Excess(acc) + if id in acc.createdApps then CreationFee(acc.createdApps[id]) else 0
  {
    MapSums.Remove(acc.createdApps, CreationFee, 0);
    MapSums.Put(acc.createdApps - {0}, CreationFee, id, app);
  }

  /** What a step adds to the excess of `a`. Only the destruction of an asset ever does so in a ledger
      whose ids are fresh. */
  ghost function Added(s: State, step: Step, a: Address): int
    requires a in s.accounts
  {
    match step
    case DoAsset(tx) =>
      (match tx.body
       case AssetCreate(_, _) =>
         if a == tx.sender && s.assetCounter + 1 in s.accounts[a].assets then ASSET_CREATION_FEE else 0
       case AssetDestroy(id) => if Drops(s, id, a) then ASSET_CREATION_FEE else 0
       case _ => 0)
    case Enter(from, _) => if a == from then Charge(s.accounts[a], 0) else 0
    case Finish(from, _) => if a == from then Charge(s.accounts[a], s.appCounter + 1) else 0
    case _ => 0
  }

  /** Destroying the asset drops a holding of `a`, who did not create it. */
  predicate Drops(s: State, id: nat, a: Address) {
    a in s.accounts && id in s.assetDefs && a != s.assetDefs[id] && id in s.accounts[a].assets
  }

  function Charge(acc: Account, id: nat): int {
    if id in acc.createdApps then CreationFee(acc.createdApps[id]) else 0
  }

  lemma CreateExcess(s: State, tx: Tx, a: Address)
    requires tx.body.AssetCreate? && ProcessAsset(s, tx).Success? && a in s.accounts
    ensures a in ProcessAsset(s, tx).value.accounts
    ensures MB.Excess(ProcessAsset(s, tx).value.accounts[a]) == MB.Excess(s.accounts[a]) + Added(s, DoAsset(tx), a)
  {
    MB.ApplyExcess(s.accounts[tx.sender], tx.sender, MB.AddAsset(s.assetCounter + 1, tx.body.def));
  }

  lemma AssetExcess(s: State, tx: Tx, a: Address)
    requires Moves(DoAsset(tx)) && ProcessAsset(s, tx).Success? && a in s.accounts
    ensures a in ProcessAsset(s, tx).value.accounts
    ensures MB.Excess(ProcessAsset(s, tx).value.accounts[a]) == MB.Excess(s.accounts[a]) + Added(s, DoAsset(tx), a)
  {
    if tx.body.AssetCreate? {
      CreateExcess(s, tx, a);
    } else {
      DestroyExcess(s, tx.body.id, a);
    }
  }

  lemma EnterExcess(s: State, from: Address, def: AppDefinition, a: Address)
    requires EnterApp(s, ApplTxn, from, def).Success? && a in s.accounts
    ensures a in EnterApp(s, ApplTxn, from, def).value.accounts
    ensures MB.Excess(EnterApp(s, ApplTxn, from, def).value.accounts[a])
            == MB.Excess(s.accounts[a]) + Added(s, Enter(from, def), a)
  {
    MB.ApplyExcess(s.accounts[from], from, MB.AddApp(0, NewApp(from, def)));
  }

  lemma NumberExcess(s: State, from: Address, a: Address)
    requires AppIndexInvariant.Inv(s, AppIndexInvariant.Entered(from)) && NumberApp(s, from).Success?
    requires a in s.accounts
    ensures var u := NumberApp(s, from).value;
            && a in u.accounts && u.appCounter == s.appCounter + 1
            && MB.Excess(u.accounts[a])
               == MB.Excess(s.accounts[a]) + if a == from then Charge(s.accounts[a], s.appCounter + 1) else 0
  {
    assert AppIndexInvariant.Owns(s, from, 0);
    MoveAppExcess(s.accounts[from], s.appCounter + 1, s.accounts[from].createdApps[0]);
  }

  lemma FinishExcess(s: State, from: Address, nameFree: bool, a: Address)
    requires AppIndexInvariant.Inv(s, AppIndexInvariant.Entered(from)) && FinishApp(s, from, nameFree).Success?
    requires a in s.accounts && a != AppAddress(s.appCounter + 1)
    ensures a in FinishApp(s, from, nameFree).value.accounts
    ensures MB.Excess(FinishApp(s, from, nameFree).value.accounts[a])
            == MB.Excess(s.accounts[a]) + Added(s, Finish(from, nameFree), a)
  {
    NumberExcess(s, from, a);
  }

  /** One step adds `Added` to the excess of every account that was there, but one that a deployment
      replaces, and nothing more. */
  lemma StepExcess(s: State, p: AppIndexInvariant.Phase, step: Step, a: Address)
    requires AppIndexInvariant.Inv(s, p) && AppIndexInvariant.NextPhase(p, step).Some?
    requires Change(s, step).Success? && a in s.accounts
    requires step.Finish? ==> a != AppAddress(s.appCounter + 1)
    ensures a in Change(s, step).value.accounts
    ensures MB.Excess(Change(s, step).value.accounts[a]) == MB.Excess(s.accounts[a]) + Added(s, step, a)
  {
    if !Moves(step) {
      StepSame(s, step);
    } else {
      match step {
        case DoAsset(tx) => AssetExcess(s, tx, a);
        case Enter(from, def) => EnterExcess(s, from, def, a);
        case Finish(from, nameFree) => FinishExcess(s, from, nameFree, a);
      }
    }
  }

  /** Accounts come into being at the closed form. */
  lemma NewAccountsExact(s: State, step: Step, a: Address)
    requires Change(s, step).Success? && a in Change(s, step).value.accounts
    requires a !in s.accounts || (step.Finish? && a == AppAddress(s.appCounter + 1))
    ensures MB.Exact(Change(s, step).value.accounts[a])
  {
    if !Moves(step) {
      StepSame(s, step);
    } else if step.Finish? {
      MB.EmptyAccountIsExact(0);
      AlgoConservation.NumberAppKeepsAmounts(s, step.from);
    } else if step.DoAsset? {
      AssetFrame.BodyFrame(s, step.tx);
    }
  }

  // ----- every step -----

  ghost predicate NonNegative(s: State) {
    forall a :: a in s.accounts ==> s.accounts[a].amount >= 0
  }

  lemma SameAmountsNonNegative(s: State, t: State)
    requires NonNegative(s) && AlgoConservation.SameAmounts(s, t)
    ensures NonNegative(t)
  {
  }

  lemma FinishNonNegative(s: State, from: Address, nameFree: bool)
    requires NonNegative(s) && FinishApp(s, from, nameFree).Success?
    ensures NonNegative(FinishApp(s, from, nameFree).value)
  {
    AlgoConservation.NumberAppKeepsAmounts(s, from);
    SameAmountsNonNegative(s, NumberApp(s, from).value);
  }

  lemma StepNonNegative(s: State, step: Step)
    requires Inv(s) && Change(s, step).Success?
    ensures NonNegative(Change(s, step).value)
  {
    match step {
      case Begin(tx) =>
      case DoPay(tx) => if tx.body.Pay? { PayKeeps(s, tx); }
      case Finish(from, nameFree) => FinishNonNegative(s, from, nameFree);
      case Look(_) =>
      case _ =>
        AlgoConservation.AlgolessSame(s, step);
        SameAmountsNonNegative(s, Change(s, step).value);
    }
  }

  lemma AddedIsNonNegative(s: State, step: Step, a: Address)
    requires a in s.accounts
    ensures Added(s, step, a) >= 0
  {
  }

  /** Every successful step keeps balances non-negative and recorded minimums at or above the closed form. */
  lemma StepKeeps(s: State, p: AppIndexInvariant.Phase, step: Step)
    requires Inv(s) && Change(s, step).Success?
    requires AppIndexInvariant.Inv(s, p) && AppIndexInvariant.NextPhase(p, step).Some?
    ensures Inv(Change(s, step).value)
  {
    StepNonNegative(s, step);
    forall a | a in Change(s, step).value.accounts
      ensures Covered(Change(s, step).value.accounts[a])
    {
      if a in s.accounts && !(step.Finish? && a == AppAddress(s.appCounter + 1)) {
        StepExcess(s, p, step, a);
        AddedIsNonNegative(s, step, a);
      } else {
        NewAccountsExact(s, step, a);
      }
    }
  }

  /** In a ledger whose ids are fresh, a step moves an account exactly when it destroys an asset that
      the account holds and did not create. */
  lemma OnlyDropsAdd(s: State, p: AppIndexInvariant.Phase, step: Step, a: Address)
    requires AssetInvariant.Inv(s)
    requires AppIndexInvariant.Inv(s, p) && AppIndexInvariant.NextPhase(p, step).Some?
    requires Change(s, step).Success? && a in s.accounts
    ensures Added(s, step, a)
            == if step.DoAsset? && step.tx.body.AssetDestroy? && Drops(s, step.tx.body.id, a)
               then ASSET_CREATION_FEE else 0
  {
    var asset, app := s.assetCounter + 1, s.appCounter + 1;
    assert Holds(s, a, asset) ==> AssetInvariant.Live(s, asset);
    assert AppIndexInvariant.Owns(s, a, 0) ==> 0 in s.globalApps;
    assert AppIndexInvariant.Owns(s, a, app) ==> app in s.globalApps;
  }
}
