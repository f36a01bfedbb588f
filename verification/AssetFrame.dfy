/** What asset transactions leave alone: balances, applications, and every table but the assets'. */
module AssetFrame {
  import opened Wrappers
  import opened Accounts
  import opened Ledger

  predicate SameButAssets(x: Account, y: Account) {
    x.amount == y.amount && x.createdApps == y.createdApps && x.appsLocalState == y.appsLocalState
  }

  ghost predicate OnlyAssets(s: State, t: State) {
    && t.globalApps == s.globalApps && t.appCounter == s.appCounter && t.blocks == s.blocks
    && t.accounts.Keys == s.accounts.Keys
    && forall a :: a in s.accounts ==> SameButAssets(t.accounts[a], s.accounts[a])
  }

  lemma PutFrame(s: State, a: Address, acc: Account)
    requires a in s.accounts && SameButAssets(acc, s.accounts[a])
    ensures OnlyAssets(s, Put(s, a, acc))
  {
  }

  lemma AddHoldingFrame(s: State, a: Address, id: nat, delta: int)
    requires Holds(s, a, id)
    ensures OnlyAssets(s, AddHolding(s, a, id, delta))
  {
    var acc := s.accounts[a];
    PutFrame(s, a, acc.(assets := acc.assets[id := acc.assets[id].(amount := acc.assets[id].amount + delta)]));
  }

  lemma BeforeTransferFrame(s: State, t: TxnType, id: nat, from: Address, to: Address, amount: nat)
    requires BeforeTransfer(s, t, id, from, to, amount).Success?
    ensures OnlyAssets(s, BeforeTransfer(s, t, id, from, to, amount).value)
  {
    if amount == 0 && from == to {
      var params := GetAssetDef(s, id).value;
      PutFrame(s, from, s.accounts[from].OptInToASA(id, Holding(0, params.creator, params.defaultFrozen)));
    }
  }

  lemma MoveFrame(s: State, id: nat, from: Address, to: Address, amount: nat)
    requires MoveAsset(s, id, from, to, amount).Success?
    ensures OnlyAssets(s, MoveAsset(s, id, from, to, amount).value)
  {
    var delta: int := amount;
    AddHoldingFrame(s, from, id, -delta);
    AddHoldingFrame(AddHolding(s, from, id, -delta), to, id, delta);
  }

  lemma CloseFrame(s: State, id: nat, from: Address, closeTo: Address)
    requires Holds(s, from, id) && CloseAssetTo(s, id, from, closeTo).Success?
    ensures OnlyAssets(s, CloseAssetTo(s, id, from, closeTo).value)
  {
    var left := s.accounts[from].assets[id].amount;
    AddHoldingFrame(s, closeTo, id, left);
    var s1 := AddHolding(s, closeTo, id, left);
    PutFrame(s1, from, s1.accounts[from].CloseAsset(id));
  }

  lemma TransferFrame(
      s: State, t: TxnType, id: nat, from: Address, to: Address, amount: nat, closeTo: Option<Address>)
    requires TransferAsset(s, t, id, from, to, amount, closeTo).Success?
    ensures OnlyAssets(s, TransferAsset(s, t, id, from, to, amount, closeTo).value)
  {
    BeforeTransferFrame(s, t, id, from, to, amount);
    var s1 := BeforeTransfer(s, t, id, from, to, amount).value;
    MoveFrame(s1, id, from, to, amount);
    if closeTo.Some? {
      CloseFrame(MoveAsset(s1, id, from, to, amount).value, id, from, closeTo.value);
    }
  }

  lemma ConfigFrame(s: State, tx: Tx)
    requires tx.body.AssetCreate? || tx.body.AssetReconfigure? || tx.body.AssetDestroy?
    requires ProcessAsset(s, tx).Success?
    ensures OnlyAssets(s, ProcessAsset(s, tx).value)
  {
    match tx.body {
      case AssetCreate(def, _) =>
        PutFrame(s, tx.sender, s.accounts[tx.sender].AddAsset(tx.sender, s.assetCounter + 1, def));
      case AssetReconfigure(id, fields) =>
        PutFrame(s, s.assetDefs[id], s.accounts[s.assetDefs[id]].ModifyAsset(id, fields).value);
      case AssetDestroy(id) =>
        PutFrame(s, s.assetDefs[id], s.accounts[s.assetDefs[id]].DestroyAsset(id).value);
    }
  }

  lemma BodyFrame(s: State, tx: Tx)
    requires ProcessAsset(s, tx).Success?
    ensures OnlyAssets(s, ProcessAsset(s, tx).value)
  {
    match tx.body {
      case AssetCreate(_, _) => ConfigFrame(s, tx);
      case AssetReconfigure(_, _) => ConfigFrame(s, tx);
      case AssetDestroy(_) => ConfigFrame(s, tx);
      case AssetTransfer(id, to, amount) =>
        TransferFrame(s, AxferTxn, id, tx.sender, to, amount, tx.closeRemainderTo);
      case AssetRevoke(id, to, target, amount) =>
        MoveFrame(s, id, target, to, amount);
      case AssetFreeze(id, target, frozen) =>
        PutFrame(s, target, s.accounts[target].SetFreezeState(id, frozen).value);
      case _ =>
    }
  }
}
