/** Who can make whose property smaller, and who can change an asset's roles: every step of every
    transaction, whoever submitted it and however its addresses coincide, and whole groups. */
module Authority {
  import opened Wrappers
  import opened Accounts
  import opened Ledger
  import opened AssetInvariant
  import opened FreshAddresses
  import AlgoConservation
  import BalanceInvariant

  // ----- Algos -----

  /** No balance but possibly `a`'s is lower afterwards. */
  ghost predicate OnlyLowers(s: State, t: State, a: Address) {
    forall b :: b in s.accounts && b != a ==> b in t.accounts && t.accounts[b].amount >= s.accounts[b].amount
  }

  lemma CloseLowersSender(s: State, from: Address, closeTo: Address)
    requires from in s.accounts && s.accounts[from].amount >= 0 && CloseRemainder(s, from, closeTo).Success?
    ensures OnlyLowers(s, CloseRemainder(s, from, closeTo).value, from)
  {
  }

  lemma PaymentLowersSender(s: State, from: Address, to: Address, amount: nat, closeTo: Option<Address>)
    requires BalanceInvariant.Inv(s) && TransferAlgo(s, PayTxn, from, to, amount, closeTo).Success?
    ensures OnlyLowers(s, TransferAlgo(s, PayTxn, from, to, amount, closeTo).value, from)
  {
    var delta: int := amount;
    BalanceInvariant.MovementKeeps(s, from, to, delta);
    var s1 := AddAmount(AddAmount(s, from, -delta), to, delta);
    assert OnlyLowers(s, s1, from);
    if closeTo.Some? {
      CloseLowersSender(s1, from, closeTo.value);
    }
  }

  /** The step takes Algos from `a`: its own fee, its own payment, or the end of a deployment at its address. */
  predicate TakesFrom(s: State, step: Step, a: Address) {
    ((step.Begin? || step.DoPay?) && step.tx.sender == a) || (step.Finish? && a == AppAddress(s.appCounter + 1))
  }

  lemma PayLowersSender(s: State, tx: Tx, a: Address)
    requires tx.body.Pay? && BalanceInvariant.Inv(s) && ProcessPay(s, tx).Success?
    requires a in s.accounts && a != tx.sender
    ensures a in ProcessPay(s, tx).value.accounts
    ensures ProcessPay(s, tx).value.accounts[a].amount >= s.accounts[a].amount
  {
    BalanceInvariant.NewAccountKeeps(s, tx.body.to);
    var s1 := CreateIfAbsent(s, tx.body.to);
    PaymentLowersSender(s1, tx.sender, tx.body.to, tx.body.amount, tx.closeRemainderTo);
    assert s1.accounts[a] == s.accounts[a];
  }

  lemma FinishLowersReplaced(s: State, from: Address, nameFree: bool, a: Address)
    requires FinishApp(s, from, nameFree).Success?
    requires a in s.accounts && a != AppAddress(s.appCounter + 1)
    ensures a in FinishApp(s, from, nameFree).value.accounts
    ensures FinishApp(s, from, nameFree).value.accounts[a].amount == s.accounts[a].amount
  {
    AlgoConservation.NumberAppKeepsAmounts(s, from);
  }

  lemma BeginLowersSender(s: State, tx: Tx, a: Address)
    requires BeginTx(s, tx).Success? && a in s.accounts && a != tx.sender
    ensures a in BeginTx(s, tx).value.accounts && BeginTx(s, tx).value.accounts[a] == s.accounts[a]
  {
  }

  lemma LookLowersNothing(s: State, account: Address, a: Address)
    requires a in s.accounts
    ensures a in CreateIfAbsent(s, account).accounts && CreateIfAbsent(s, account).accounts[a] == s.accounts[a]
  {
  }

  lemma AlgolessLowersNothing(s: State, step: Step, a: Address)
    requires AlgoConservation.Algoless(step) && Change(s, step).Success? && a in s.accounts
    ensures a in Change(s, step).value.accounts && Change(s, step).value.accounts[a].amount == s.accounts[a].amount
  {
    AlgoConservation.AlgolessSame(s, step);
  }

  /** No step lowers a balance but that of its own sender, or of an account a deployment replaces. */
  lemma OnlySenderPays(s: State, step: Step, a: Address)
    requires BalanceInvariant.Inv(s) && Change(s, step).Success? && a in s.accounts && !TakesFrom(s, step, a)
    ensures a in Change(s, step).value.accounts
    ensures Change(s, step).value.accounts[a].amount >= s.accounts[a].amount
  {
    if AlgoConservation.Algoless(step) {
      AlgolessLowersNothing(s, step, a);
    } else {
      match step {
        case DoPay(tx) => if tx.body.Pay? { PayLowersSender(s, tx, a); }
        case Finish(from, nameFree) => FinishLowersReplaced(s, from, nameFree, a);
        case Begin(tx) => BeginLowersSender(s, tx, a);
        case Look(account) => LookLowersNothing(s, account, a);
      }
    }
  }

  // ----- assets -----

  /** No holding of an account but possibly `a`'s of asset `id` is lower afterwards. */
  ghost predicate OnlyLowersHolding(s: State, t: State, a: Address, id: nat) {
    && s.accounts.Keys <= t.accounts.Keys
    && (forall b, i :: b in s.accounts && !(b == a && i == id) ==>
          Held(t.accounts[b], i) >= Held(s.accounts[b], i))
  }

  ghost predicate LowersNoHolding(s: State, t: State) {
    && s.accounts.Keys <= t.accounts.Keys
    && (forall b, i :: b in s.accounts ==> Held(t.accounts[b], i) >= Held(s.accounts[b], i))
  }

  lemma MoveLowersSender(s: State, id: nat, from: Address, to: Address, amount: nat)
    requires MoveAsset(s, id, from, to, amount).Success?
    ensures OnlyLowersHolding(s, MoveAsset(s, id, from, to, amount).value, from, id)
  {
    var delta: int := amount;
    var s1 := AddHolding(s, from, id, -delta);
    assert OnlyLowersHolding(s, s1, from, id);
    assert LowersNoHolding(s1, AddHolding(s1, to, id, delta));
  }

  lemma CloseAssetLowersSender(s: State, id: nat, from: Address, closeTo: Address)
    requires Holds(s, from, id) && s.accounts[from].assets[id].amount >= 0
    requires CloseAssetTo(s, id, from, closeTo).Success?
    ensures OnlyLowersHolding(s, CloseAssetTo(s, id, from, closeTo).value, from, id)
  {
    var s1 := AddHolding(s, closeTo, id, s.accounts[from].assets[id].amount);
    assert LowersNoHolding(s, s1);
    assert OnlyLowersHolding(s1, CloseAssetTo(s, id, from, closeTo).value, from, id);
  }

  lemma BeforeLowersNone(s: State, t: TxnType, id: nat, from: Address, to: Address, amount: nat)
    requires Inv(s) && BeforeTransfer(s, t, id, from, to, amount).Success?
    ensures var s1 := BeforeTransfer(s, t, id, from, to, amount).value; Inv(s1) && LowersNoHolding(s, s1)
  {
    if amount == 0 && from == to {
      OptInKeeps(s, t, id, from);
    }
  }

  lemma LowersTwice(s: State, t: State, u: State, a: Address, id: nat)
    requires OnlyLowersHolding(s, t, a, id) && OnlyLowersHolding(t, u, a, id)
    ensures OnlyLowersHolding(s, u, a, id)
  {
  }

  lemma TransferLowersSender(
      s: State, t: TxnType, id: nat, from: Address, to: Address, amount: nat, closeTo: Option<Address>)
    requires Inv(s) && TransferAsset(s, t, id, from, to, amount, closeTo).Success?
    ensures OnlyLowersHolding(s, TransferAsset(s, t, id, from, to, amount, closeTo).value, from, id)
  {
    BeforeLowersNone(s, t, id, from, to, amount);
    var s1 := BeforeTransfer(s, t, id, from, to, amount).value;
    MoveAssetKeeps(s1, id, from, to, amount);
    MoveLowersSender(s1, id, from, to, amount);
    var s2 := MoveAsset(s1, id, from, to, amount).value;
    assert OnlyLowersHolding(s, s1, from, id);
    LowersTwice(s, s1, s2, from, id);
    if closeTo.Some? {
      assert Holds(s2, from, id);
      CloseAssetLowersSender(s2, id, from, closeTo.value);
      LowersTwice(s, s2, CloseAssetTo(s2, id, from, closeTo.value).value, from, id);
    }
  }

  /** Whether a step is entitled to lower the holding of asset `id` at `a`: the holder transfers it, the
      asset's clawback revokes it, the asset's manager destroys the asset, or a deployment replaces
      the holder. */
  predicate MayLower(s: State, step: Step, a: Address, id: nat) {
    match step
    case DoAsset(tx) =>
      (match tx.body
       case AssetTransfer(i, _, _) => i == id && tx.sender == a
       case AssetRevoke(i, _, target, _) =>
         i == id && target == a && Live(s, id) && Params(s, id).roles.clawback == Some(tx.sender)
       case AssetDestroy(i) => i == id && Live(s, id) && Params(s, id).roles.manager == Some(tx.sender)
       case _ => false)
    case Finish(_, _) => a == AppAddress(s.appCounter + 1)
    case _ => false
  }

  lemma AssetBodyLowers(s: State, tx: Tx, a: Address, id: nat)
    requires Inv(s) && ProcessAsset(s, tx).Success? && a in s.accounts && a in ProcessAsset(s, tx).value.accounts
    requires Held(ProcessAsset(s, tx).value.accounts[a], id) < Held(s.accounts[a], id)
    ensures MayLower(s, DoAsset(tx), a, id)
  {
    match tx.body {
      case AssetCreate(def, _) =>
        assert Holds(s, a, id);
      case AssetTransfer(i, to, amount) =>
        TransferLowersSender(s, AxferTxn, i, tx.sender, to, amount, tx.closeRemainderTo);
      case AssetRevoke(i, to, target, amount) =>
        MoveLowersSender(s, i, target, to, amount);
      case _ =>
    }
  }

  /** Every account of `s` is in `t` with the same assets, and new accounts have none. */
  ghost predicate KeepsAssets(s: State, t: State) {
    && t.assetDefs == s.assetDefs && t.assetCounter == s.assetCounter
    && (forall a :: a in s.accounts ==> a in t.accounts && SameAssetsIn(s.accounts[a], t.accounts[a]))
    && (forall a :: a in t.accounts && a !in s.accounts ==> SameAssetsIn(EmptyAccount(0), t.accounts[a]))
  }

  predicate SameAssetsIn(x: Account, y: Account) {
    y.assets == x.assets && y.createdAssets == x.createdAssets
  }

  lemma PutKeepsAssets(s: State, a: Address, acc: Account)
    requires SameAssetsIn(AccountAt(s, a), acc)
    ensures KeepsAssets(s, Put(s, a, acc))
  {
  }

  lemma KeepsAssetsTwice(s: State, t: State, u: State)
    requires KeepsAssets(s, t) && KeepsAssets(t, u)
    ensures KeepsAssets(s, u)
  {
  }

  lemma CloseKeepsAssets(s: State, from: Address, closeTo: Address)
    requires from in s.accounts && CloseRemainder(s, from, closeTo).Success?
    ensures KeepsAssets(s, CloseRemainder(s, from, closeTo).value)
  {
    var left := s.accounts[from].amount;
    var s1 := AddAmount(s, closeTo, left);
    PutKeepsAssets(s, closeTo, s1.accounts[closeTo]);
    PutKeepsAssets(s1, from, s1.accounts[from].(amount := 0));
    KeepsAssetsTwice(s, s1, SetAmount(s1, from, 0));
  }

  lemma TransferAlgoKeepsAssets(s: State, from: Address, to: Address, amount: nat, closeTo: Option<Address>)
    requires TransferAlgo(s, PayTxn, from, to, amount, closeTo).Success?
    ensures KeepsAssets(s, TransferAlgo(s, PayTxn, from, to, amount, closeTo).value)
  {
    var delta: int := amount;
    var s1 := AddAmount(s, from, -delta);
    var s2 := AddAmount(s1, to, delta);
    PutKeepsAssets(s, from, s1.accounts[from]);
    PutKeepsAssets(s1, to, s2.accounts[to]);
    KeepsAssetsTwice(s, s1, s2);
    if closeTo.Some? {
      CloseKeepsAssets(s2, from, closeTo.value);
      KeepsAssetsTwice(s, s2, CloseRemainder(s2, from, closeTo.value).value);
    }
  }

  lemma LookKeepsAssets(s: State, a: Address)
    ensures KeepsAssets(s, CreateIfAbsent(s, a))
  {
    if a !in s.accounts {
      PutKeepsAssets(s, a, EmptyAccount(0));
    }
  }

  lemma PayKeepsAssets(s: State, tx: Tx)
    requires tx.body.Pay? && ProcessPay(s, tx).Success?
    ensures KeepsAssets(s, ProcessPay(s, tx).value)
  {
    var s1 := CreateIfAbsent(s, tx.body.to);
    LookKeepsAssets(s, tx.body.to);
    TransferAlgoKeepsAssets(s1, tx.sender, tx.body.to, tx.body.amount, tx.closeRemainderTo);
    KeepsAssetsTwice(s, s1, ProcessPay(s, tx).value);
  }

  lemma AppStepKeepsAssets(s: State, step: Step)
    requires step.Join? || step.Leave? || step.Delete? || step.Replace?
    requires Change(s, step).Success?
    ensures KeepsAssets(s, Change(s, step).value)
  {
    match step {
      case Join(from, id) =>
        PutKeepsAssets(s, from, s.accounts[from].OptInToApp(id, GetApp(s, id).value.localSchema).value);
      case Leave(from, id) => PutKeepsAssets(s, from, s.accounts[from].CloseApp(id).value);
      case Delete(id) => PutKeepsAssets(s, s.globalApps[id], s.accounts[s.globalApps[id]].DeleteApp(id).value);
      case Replace(id, programs) =>
        PutKeepsAssets(s, s.globalApps[id], s.accounts[s.globalApps[id]].ReplacePrograms(id, programs).value);
    }
  }

  lemma EnterKeepsAssets(s: State, from: Address, def: AppDefinition)
    requires EnterApp(s, ApplTxn, from, def).Success?
    ensures KeepsAssets(s, EnterApp(s, ApplTxn, from, def).value)
  {
    PutKeepsAssets(s, from, s.accounts[from].AddApp(0, NewApp(from, def)));
  }

  /** No step but those of asset transactions and the end of a deployment touches assets. */
  lemma StepKeepsAssets(s: State, step: Step)
    requires !step.DoAsset? && !step.Finish? && Change(s, step).Success?
    ensures KeepsAssets(s, Change(s, step).value)
  {
    match step {
      case Begin(tx) => PutKeepsAssets(s, tx.sender, BeginTx(s, tx).value.accounts[tx.sender]);
      case DoPay(tx) => if tx.body.Pay? { PayKeepsAssets(s, tx); }
      case Enter(from, def) => EnterKeepsAssets(s, from, def);
      case Look(account) => LookKeepsAssets(s, account);
      case Find(_) =>
      case CheckPrograms(_) =>
      case Settle(_) =>
      case Verdict(_) =>
      case _ => AppStepKeepsAssets(s, step);
    }
  }

  /** The end of a deployment changes the assets of the replaced account only. */
  lemma FinishKeepsAssets(s: State, from: Address, nameFree: bool, a: Address)
    requires FinishApp(s, from, nameFree).Success? && a != AppAddress(s.appCounter + 1)
    ensures var u := FinishApp(s, from, nameFree).value;
            && u.assetDefs == s.assetDefs && u.assetCounter == s.assetCounter
            && (a in u.accounts <==> a in s.accounts)
            && (a in s.accounts ==> SameAssetsIn(s.accounts[a], u.accounts[a]))
  {
    FinishAddsAccount(s, from, nameFree);
  }

  /** A holding gets smaller only by a step entitled to that. */
  lemma OnlyTheEntitledLowerHoldings(s: State, step: Step, a: Address, id: nat)
    requires Inv(s) && Change(s, step).Success? && a in s.accounts && !MayLower(s, step, a, id)
    ensures a in Change(s, step).value.accounts
    ensures Held(Change(s, step).value.accounts[a], id) >= Held(s.accounts[a], id)
  {
    AccountsAppear(s, step);
    if step.DoAsset? {
      if Held(Change(s, step).value.accounts[a], id) < Held(s.accounts[a], id) {
        AssetBodyLowers(s, step.tx, a, id);
      }
    } else if step.Finish? {
      FinishKeepsAssets(s, step.from, step.nameFree, a);
    } else {
      StepKeepsAssets(s, step);
    }
  }

  // ----- freezing -----

  /** A transfer of a positive amount needs both holdings unfrozen; a frozen holding can only be
      closed out, by a transfer of nothing. */
  lemma FrozenHoldingStays(
      s: State, t: TxnType, id: nat, from: Address, to: Address, amount: nat, closeTo: Option<Address>)
    requires Inv(s) && Holds(s, from, id) && s.accounts[from].assets[id].frozen
    requires TransferAsset(s, t, id, from, to, amount, closeTo).Success?
    ensures amount == 0
    ensures closeTo.None? ==>
              TransferAsset(s, t, id, from, to, amount, closeTo).value.accounts[from] == s.accounts[from]
    ensures closeTo.Some? ==> !Holds(TransferAsset(s, t, id, from, to, amount, closeTo).value, from, id)
  {
    var s1 := BeforeTransfer(s, t, id, from, to, amount).value;
    assert s1.accounts[from] == s.accounts[from];
    MovingNothing(s1, id, from, to);
  }

  lemma MovingNothing(s: State, id: nat, from: Address, to: Address)
    requires MoveAsset(s, id, from, to, 0).Success?
    ensures from in MoveAsset(s, id, from, to, 0).value.accounts
    ensures MoveAsset(s, id, from, to, 0).value.accounts[from] == s.accounts[from]
  {
    var acc := s.accounts[from];
    assert acc.assets[id := acc.assets[id]] == acc.assets;
  }

  // ----- roles -----

  /** Nothing about an asset but its roles ever changes, only its manager changes them, and a
      role that is blank stays blank. */
  predicate RolesFollow(before: AssetParams, after: AssetParams, byManager: bool) {
    && after == before.(roles := after.roles)
    && (after.roles != before.roles ==> byManager)
    && (before.roles.manager.None? ==> after.roles.manager.None?)
    && (before.roles.reserve.None? ==> after.roles.reserve.None?)
    && (before.roles.freeze.None? ==> after.roles.freeze.None?)
    && (before.roles.clawback.None? ==> after.roles.clawback.None?)
  }

  lemma ModifyFollows(current: Roles, fields: RoleFields)
    requires ModifyRoles(current, fields).Success?
    ensures var after := ModifyRoles(current, fields).value;
            && (current.manager.None? ==> after.manager.None?) && (current.reserve.None? ==> after.reserve.None?)
            && (current.freeze.None? ==> after.freeze.None?) && (current.clawback.None? ==> after.clawback.None?)
  {
  }

  /** Both ledgers have the same assets, under the same conditions. */
  ghost predicate SameCreatedAssets(s: State, t: State) {
    && t.assetDefs == s.assetDefs && t.accounts.Keys == s.accounts.Keys
    && forall a :: a in s.accounts ==> t.accounts[a].createdAssets == s.accounts[a].createdAssets
  }

  lemma BeforeKeepsCreated(s: State, t: TxnType, id: nat, from: Address, to: Address, amount: nat)
    requires BeforeTransfer(s, t, id, from, to, amount).Success?
    ensures SameCreatedAssets(s, BeforeTransfer(s, t, id, from, to, amount).value)
  {
    if amount == 0 && from == to {
      var params := GetAssetDef(s, id).value;
      assert BeforeTransfer(s, t, id, from, to, amount).value
          == Put(s, from, s.accounts[from].OptInToASA(id, Holding(0, params.creator, params.defaultFrozen)));
    }
  }

  lemma MoveKeepsCreated(s: State, id: nat, from: Address, to: Address, amount: nat)
    requires MoveAsset(s, id, from, to, amount).Success?
    ensures SameCreatedAssets(s, MoveAsset(s, id, from, to, amount).value)
  {
  }

  lemma CloseKeepsCreated(s: State, id: nat, from: Address, closeTo: Address)
    requires Holds(s, from, id) && CloseAssetTo(s, id, from, closeTo).Success?
    ensures SameCreatedAssets(s, CloseAssetTo(s, id, from, closeTo).value)
  {
  }

  lemma TransferKeepsCreated(
      s: State, t: TxnType, id: nat, from: Address, to: Address, amount: nat, closeTo: Option<Address>)
    requires TransferAsset(s, t, id, from, to, amount, closeTo).Success?
    ensures SameCreatedAssets(s, TransferAsset(s, t, id, from, to, amount, closeTo).value)
  {
    BeforeKeepsCreated(s, t, id, from, to, amount);
    var s1 := BeforeTransfer(s, t, id, from, to, amount).value;
    MoveKeepsCreated(s1, id, from, to, amount);
    if closeTo.Some? {
      CloseKeepsCreated(MoveAsset(s1, id, from, to, amount).value, id, from, closeTo.value);
    }
  }

  lemma DestroyKeepsOthers(s: State, i: nat, id: nat)
    requires DestroyAsset(s, i).Success? && i != id
    ensures Live(DestroyAsset(s, i).value, id) <==> Live(s, id)
    ensures Live(s, id) ==> Params(DestroyAsset(s, i).value, id) == Params(s, id)
  {
  }

  predicate Reconfigures(s: State, step: Step, id: nat) {
    step.DoAsset? && step.tx.body.AssetReconfigure? && step.tx.body.id == id
    && Live(s, id) && Params(s, id).roles.manager == Some(step.tx.sender)
  }

  lemma CreateKeepsOthers(s: State, t: TxnType, from: Address, def: AssetDef, validDef: bool, id: nat)
    requires Inv(s) && id <= s.assetCounter && DeployASA(s, t, from, def, validDef).Success?
    ensures var u := DeployASA(s, t, from, def, validDef).value;
            (Live(u, id) <==> Live(s, id)) && (Live(s, id) ==> Params(u, id) == Params(s, id))
  {
  }

  lemma ReconfigureFollows(s: State, tx: Tx, id: nat)
    requires tx.body.AssetReconfigure? && ProcessReconfigure(s, tx).Success?
    ensures var u := ProcessReconfigure(s, tx).value;
            (Live(u, id) <==> Live(s, id))
            && (Live(s, id) ==> RolesFollow(Params(s, id), Params(u, id), Reconfigures(s, DoAsset(tx), id)))
  {
    if tx.body.id == id {
      ModifyFollows(Params(s, id).roles, tx.body.fields);
    }
  }

  /** Of an asset whose id is taken already, an asset transaction changes nothing but its roles, and
      those only as its manager's reconfiguration; a destroyed asset does not come back. */
  lemma AssetBodyFollows(s: State, tx: Tx, id: nat)
    requires Inv(s) && id <= s.assetCounter && ProcessAsset(s, tx).Success?
    requires Live(ProcessAsset(s, tx).value, id)
    ensures Live(s, id)
    ensures RolesFollow(Params(s, id), Params(ProcessAsset(s, tx).value, id), Reconfigures(s, DoAsset(tx), id))
  {
    match tx.body {
      case AssetCreate(def, validDef) => CreateKeepsOthers(s, AcfgTxn, tx.sender, def, validDef, id);
      case AssetReconfigure(_, _) => ReconfigureFollows(s, tx, id);
      case AssetDestroy(i) =>
        DestroyKeeps(s, i);
        DestroyKeepsOthers(s, i, id);
      case AssetTransfer(i, to, amount) =>
        TransferKeepsCreated(s, AxferTxn, i, tx.sender, to, amount, tx.closeRemainderTo);
      case AssetRevoke(i, to, target, amount) =>
        MoveKeepsCreated(s, i, target, to, amount);
      case _ =>
    }
  }

  /** While an asset lives, its roles change only by its manager's reconfiguration, whatever the
      step, and nothing else about it changes; and a dead asset stays dead. */
  lemma RolesChangeOnlyByManager(s: State, step: Step, id: nat)
    requires Inv(s) && id <= s.assetCounter && Change(s, step).Success? && Live(Change(s, step).value, id)
    ensures Live(s, id)
    ensures RolesFollow(Params(s, id), Params(Change(s, step).value, id), Reconfigures(s, step, id))
  {
    if step.DoAsset? {
      AssetBodyFollows(s, step.tx, id);
    } else if step.Finish? {
      FinishKeepsAssets(s, step.from, step.nameFree, Change(s, step).value.assetDefs[id]);
    } else {
      StepKeepsAssets(s, step);
    }
  }
}
