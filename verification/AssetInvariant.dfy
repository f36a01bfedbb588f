/** In every ledger that transactions can produce, the holdings of each live asset add up to
    its total, and no holding is negative. */
module AssetInvariant {
  import opened Wrappers
  import opened Accounts
  import opened Ledger
  import MapSums

  function Held(acc: Account, id: nat): int {
    if id in acc.assets then acc.assets[id].amount else 0
  }

  function HeldOf(id: nat): Account -> int {
    (acc: Account) => Held(acc, id)
  }

  /** How much of asset `id` all accounts hold together. */
  ghost function Supply(s: State, id: nat): int {
    MapSums.Total(s.accounts, HeldOf(id))
  }

  /** The asset was created and has not been destroyed. */
  predicate Live(s: State, id: nat) {
    id in s.assetDefs && s.assetDefs[id] in s.accounts && id in s.accounts[s.assetDefs[id]].createdAssets
  }

  function Params(s: State, id: nat): AssetParams
    requires Live(s, id)
  {
    s.accounts[s.assetDefs[id]].createdAssets[id]
  }

  predicate Created(s: State, a: Address, id: nat) {
    a in s.accounts && id in s.accounts[a].createdAssets
  }

  /** Ids are never reused, and the asset index agrees with the accounts' own tables. */
  ghost predicate IndexOk(s: State) {
    && (forall id :: id in s.assetDefs ==> id <= s.assetCounter)
    && (forall a, id :: Created(s, a, id) ==> id in s.assetDefs && s.assetDefs[id] == a
                                              && s.accounts[a].createdAssets[id].creator == a)
  }

  ghost predicate HoldingsOk(s: State) {
    forall a, id :: Holds(s, a, id) ==>
      Live(s, id) && s.accounts[a].assets[id].amount >= 0 && s.accounts[a].assets[id].creator == s.assetDefs[id]
  }

  ghost predicate SupplyOk(s: State) {
    forall id :: Live(s, id) ==> Supply(s, id) == Params(s, id).total
  }

  ghost predicate Inv(s: State) {
    IndexOk(s) && HoldingsOk(s) && SupplyOk(s)
  }

  lemma NoAssetsKeep(s: State)
    requires forall a :: a in s.accounts ==> s.accounts[a].assets == map[] && s.accounts[a].createdAssets == map[]
    requires s.assetDefs == map[]
    ensures Inv(s)
  {
  }

  // ----- replacing one account -----

  function AccountAt(s: State, a: Address): Account {
    if a in s.accounts then s.accounts[a] else EmptyAccount(0)
  }

  lemma PutSupply(s: State, a: Address, acc: Account, id: nat)
    ensures Supply(Put(s, a, acc), id) == Supply(s, id) - Held(AccountAt(s, a), id) + Held(acc, id)
  {
    MapSums.Put(s.accounts, HeldOf(id), a, acc);
  }

  /** The same assets, up to who may manage them. */
  ghost predicate SameCreated(x: map<nat, AssetParams>, y: map<nat, AssetParams>) {
    && x.Keys == y.Keys
    && forall id :: id in x ==> x[id].total == y[id].total && x[id].creator == y[id].creator
  }

  /** The invariant while `off` units of asset `id` are on their way between two accounts. */
  ghost predicate InvOff(s: State, id: nat, off: int) {
    && IndexOk(s) && HoldingsOk(s)
    && forall i :: Live(s, i) ==> Supply(s, i) == Params(s, i).total + (if i == id then off else 0)
  }

  /** `acc` may replace the account at `a` as far as the holdings of assets other than `id` go,
      and holds `id`, if at all, as a live asset can be held. */
  ghost predicate MayReplace(s: State, a: Address, acc: Account, id: nat) {
    && SameCreated(acc.createdAssets, AccountAt(s, a).createdAssets)
    && (forall i :: i != id ==> (i in acc.assets <==> i in AccountAt(s, a).assets))
    && (forall i :: i != id && i in acc.assets ==> acc.assets[i] == AccountAt(s, a).assets[i])
    && (id in acc.assets ==> Live(s, id) && acc.assets[id].amount >= 0 && acc.assets[id].creator == s.assetDefs[id])
  }

  lemma PutKeepsIndex(s: State, a: Address, acc: Account)
    requires IndexOk(s)
    requires SameCreated(acc.createdAssets, AccountAt(s, a).createdAssets)
    ensures IndexOk(Put(s, a, acc))
    ensures forall i :: Live(Put(s, a, acc), i) <==> Live(s, i)
    ensures forall i :: Live(s, i) ==> Params(Put(s, a, acc), i).total == Params(s, i).total
  {
    var t := Put(s, a, acc);
    forall i
      ensures Live(t, i) <==> Live(s, i)
    {
      if i in s.assetDefs {
        assert Created(t, s.assetDefs[i], i) <==> Created(s, s.assetDefs[i], i);
      }
    }
    forall b, i | Created(t, b, i)
      ensures i in t.assetDefs && t.assetDefs[i] == b && t.accounts[b].createdAssets[i].creator == b
    {
      assert Created(s, b, i);
    }
  }

  lemma PutKeepsHoldings(s: State, a: Address, acc: Account, id: nat)
    requires IndexOk(s) && HoldingsOk(s) && MayReplace(s, a, acc, id)
    ensures HoldingsOk(Put(s, a, acc))
  {
    var t := Put(s, a, acc);
    PutKeepsIndex(s, a, acc);
    forall b, i | Holds(t, b, i)
      ensures Live(t, i) && t.accounts[b].assets[i].amount >= 0 && t.accounts[b].assets[i].creator == t.assetDefs[i]
    {
      if b != a || i != id {
        assert Holds(s, b, i);
      }
    }
  }

  /** Replacing one account moves the supply of `id` by what the account's holding moved. */
  lemma PutMoves(s: State, a: Address, acc: Account, id: nat, off: int)
    requires InvOff(s, id, off) && MayReplace(s, a, acc, id)
    ensures InvOff(Put(s, a, acc), id, off + Held(acc, id) - Held(AccountAt(s, a), id))
  {
    PutKeepsIndex(s, a, acc);
    PutKeepsHoldings(s, a, acc, id);
    forall i | Live(Put(s, a, acc), i)
      ensures Supply(Put(s, a, acc), i)
              == Params(Put(s, a, acc), i).total
                 + (if i == id then off + Held(acc, id) - Held(AccountAt(s, a), id) else 0)
    {
      PutSupply(s, a, acc, i);
    }
  }

  /** Replacing an account by one with the same assets changes nothing an asset can see. */
  lemma PutKeeps(s: State, a: Address, acc: Account)
    requires Inv(s)
    requires acc.assets == AccountAt(s, a).assets
    requires SameCreated(acc.createdAssets, AccountAt(s, a).createdAssets)
    ensures Inv(Put(s, a, acc))
  {
    var id := 0;
    assert MayReplace(s, a, acc, id) by {
      if id in acc.assets {
        assert Holds(s, a, id);
      }
    }
    PutMoves(s, a, acc, id, 0);
  }

  /** The tables of applications and blocks play no part. */
  lemma TablesKeep(s: State, t: State)
    requires Inv(s)
    requires t.accounts == s.accounts && t.assetDefs == s.assetDefs && t.assetCounter == s.assetCounter
    ensures Inv(t)
  {
    assert forall id :: Live(t, id) <==> Live(s, id);
    assert forall a, id :: Created(t, a, id) <==> Created(s, a, id);
    assert forall a, id :: Holds(t, a, id) <==> Holds(s, a, id);
    assert forall id :: Supply(t, id) == Supply(s, id);
  }

  // ----- moving an asset -----

  function Moved(acc: Account, id: nat, delta: int): Account
    requires id in acc.assets
  {
    acc.(assets := acc.assets[id := acc.assets[id].(amount := acc.assets[id].amount + delta)])
  }

  lemma MovedMayReplace(s: State, a: Address, id: nat, delta: int)
    requires HoldingsOk(s) && Holds(s, a, id) && s.accounts[a].assets[id].amount + delta >= 0
    ensures MayReplace(s, a, Moved(s.accounts[a], id, delta), id)
    ensures Held(Moved(s.accounts[a], id, delta), id) == Held(s.accounts[a], id) + delta
  {
  }

  lemma AddHoldingMoves(s: State, a: Address, id: nat, delta: int, off: int)
    requires InvOff(s, id, off) && Holds(s, a, id) && s.accounts[a].assets[id].amount + delta >= 0
    ensures InvOff(AddHolding(s, a, id, delta), id, off + delta)
  {
    MovedMayReplace(s, a, id, delta);
    var acc := Moved(s.accounts[a], id, delta);
    assert AddHolding(s, a, id, delta) == Put(s, a, acc);
    PutMoves(s, a, acc, id, off);
    assert off + Held(acc, id) - Held(AccountAt(s, a), id) == off + delta;
  }

  /** After taking from one holding, giving to another leaves nothing negative. */
  lemma AfterTaking(s: State, from: Address, id: nat, delta: int, to: Address)
    requires HoldingsOk(s) && Holds(s, from, id) && Holds(s, to, id)
    requires 0 <= delta <= s.accounts[from].assets[id].amount
    ensures var t := AddHolding(s, from, id, -delta); Holds(t, to, id) && t.accounts[to].assets[id].amount + delta >= 0
  {
    assert s.accounts[to].assets[id].amount >= 0;
  }

  lemma TwoHoldings(s: State, id: nat, from: Address, to: Address, delta: int)
    requires InvOff(s, id, 0) && Holds(s, from, id) && Holds(s, to, id)
    requires 0 <= delta <= s.accounts[from].assets[id].amount
    ensures Holds(AddHolding(s, from, id, -delta), to, id)
    ensures InvOff(AddHolding(AddHolding(s, from, id, -delta), to, id, delta), id, 0)
  {
    AfterTaking(s, from, id, delta, to);
    AddHoldingMoves(s, from, id, -delta, 0);
    AddHoldingMoves(AddHolding(s, from, id, -delta), to, id, delta, -delta);
  }

  lemma MoveAssetKeeps(s: State, id: nat, from: Address, to: Address, amount: nat)
    requires Inv(s) && MoveAsset(s, id, from, to, amount).Success?
    ensures Inv(MoveAsset(s, id, from, to, amount).value)
  {
    TwoHoldings(s, id, from, to, amount);
  }

  lemma CloseAssetKeeps(s: State, id: nat, from: Address, closeTo: Address)
    requires Inv(s) && Holds(s, from, id) && CloseAssetTo(s, id, from, closeTo).Success?
    ensures Inv(CloseAssetTo(s, id, from, closeTo).value)
  {
    var left := s.accounts[from].assets[id].amount;
    assert Holds(s, closeTo, id);
    AddHoldingMoves(s, closeTo, id, left, 0);
    var s1 := AddHolding(s, closeTo, id, left);
    PutMoves(s1, from, s1.accounts[from].CloseAsset(id), id, left);
  }

  lemma OptInKeeps(s: State, t: TxnType, id: nat, a: Address)
    requires Inv(s) && OptInToASA(s, t, id, a).Success?
    ensures Inv(OptInToASA(s, t, id, a).value)
  {
    var params := GetAssetDef(s, id).value;
    assert Created(s, s.assetDefs[id], id);
    var acc := s.accounts[a].OptInToASA(id, Holding(0, params.creator, params.defaultFrozen));
    assert MayReplace(s, a, acc, id) by {
      assert id in s.accounts[a].assets ==> Holds(s, a, id);
    }
    PutMoves(s, a, acc, id, 0);
  }

  lemma TransferAssetKeeps(
      s: State, t: TxnType, id: nat, from: Address, to: Address, amount: nat, closeTo: Option<Address>)
    requires Inv(s) && TransferAsset(s, t, id, from, to, amount, closeTo).Success?
    ensures Inv(TransferAsset(s, t, id, from, to, amount, closeTo).value)
  {
    if amount == 0 && from == to {
      OptInKeeps(s, t, id, from);
    }
    var s1 := BeforeTransfer(s, t, id, from, to, amount).value;
    MoveAssetKeeps(s1, id, from, to, amount);
    if closeTo.Some? {
      CloseAssetKeeps(MoveAsset(s1, id, from, to, amount).value, id, from, closeTo.value);
    }
  }

  lemma FreezeKeeps(s: State, id: nat, target: Address, frozen: bool)
    requires Inv(s) && FreezeAsset(s, id, target, frozen).Success?
    ensures Inv(FreezeAsset(s, id, target, frozen).value)
  {
    assert Holds(s, target, id);
    PutMoves(s, target, s.accounts[target].SetFreezeState(id, frozen).value, id, 0);
  }

  lemma ModifyKeeps(s: State, id: nat, fields: RoleFields)
    requires Inv(s) && ModifyAsset(s, id, fields).Success?
    ensures Inv(ModifyAsset(s, id, fields).value)
  {
    PutKeeps(s, s.assetDefs[id], s.accounts[s.assetDefs[id]].ModifyAsset(id, fields).value);
  }

  // ----- creating and destroying an asset -----

  lemma {:induction false} NobodyHolds(s: State, id: nat)
    requires forall a :: a in s.accounts ==> Held(s.accounts[a], id) == 0
    ensures Supply(s, id) == 0
  {
    MapSums.AllZero(s.accounts, HeldOf(id));
  }

  lemma DeployKeeps(s: State, t: TxnType, from: Address, def: AssetDef, validDef: bool)
    requires Inv(s) && DeployASA(s, t, from, def, validDef).Success?
    ensures Inv(DeployASA(s, t, from, def, validDef).value)
  {
    var id := s.assetCounter + 1;
    var u := DeployASA(s, t, from, def, validDef).value;
    var acc := s.accounts[from].AddAsset(from, id, def);
    assert id !in s.assetDefs;
    forall b, i | Created(u, b, i)
      ensures i in u.assetDefs && u.assetDefs[i] == b && u.accounts[b].createdAssets[i].creator == b
    {
      assert Created(s, b, i) || (b == from && i == id);
    }
    forall i
      ensures Live(u, i) <==> Live(s, i) || i == id
      ensures Live(s, i) ==> Live(u, i) && Params(u, i) == Params(s, i)
    {
      assert i in s.assetDefs ==> (Created(u, s.assetDefs[i], i) <==> Created(s, s.assetDefs[i], i));
    }
    forall b, i | Holds(u, b, i)
      ensures Live(u, i) && u.accounts[b].assets[i].amount >= 0 && u.accounts[b].assets[i].creator == u.assetDefs[i]
    {
      assert Holds(s, b, i) || (b == from && i == id);
    }
    forall i | Live(u, i)
      ensures Supply(u, i) == Params(u, i).total
    {
      PutSupply(s, from, acc, i);
      assert Supply(u, i) == Supply(Put(s, from, acc), i);
      if i == id {
        forall a | a in s.accounts
          ensures Held(s.accounts[a], id) == 0
        {
          assert !Holds(s, a, id);
        }
        NobodyHolds(s, id);
      }
    }
  }

  /** Destroying an asset is possible only when its creator holds all of it: every holding that
      the destruction deletes from another account is empty. */
  lemma DestroyDeletesNothing(s: State, id: nat, other: Address)
    requires Inv(s) && DestroyAsset(s, id).Success?
    requires other in s.accounts && other != s.assetDefs[id]
    ensures Held(s.accounts[other], id) == 0
  {
    var creator := s.assetDefs[id];
    assert Live(s, id);
    forall a | a in s.accounts
      ensures HeldOf(id)(s.accounts[a]) >= 0
    {
      assert id in s.accounts[a].assets ==> Holds(s, a, id);
    }
    MapSums.AllAtOneKey(s.accounts, HeldOf(id), creator, other);
  }

  lemma DestroyKeeps(s: State, id: nat)
    requires Inv(s) && DestroyAsset(s, id).Success?
    ensures Inv(DestroyAsset(s, id).value)
    ensures !Live(DestroyAsset(s, id).value, id)
    ensures forall a :: !Holds(DestroyAsset(s, id).value, a, id)
  {
    var u := DestroyAsset(s, id).value;
    forall b, i
      ensures Created(u, b, i) <==> Created(s, b, i) && i != id
    {
    }
    forall i
      ensures Live(u, i) <==> Live(s, i) && i != id
      ensures Live(u, i) ==> Params(u, i) == Params(s, i)
    {
      assert i in s.assetDefs ==> (Created(u, s.assetDefs[i], i) <==> Created(s, s.assetDefs[i], i) && i != id);
    }
    forall b, i
      ensures Holds(u, b, i) <==> Holds(s, b, i) && i != id
    {
    }
    forall i | Live(u, i)
      ensures Supply(u, i) == Params(u, i).total
    {
      MapSums.Pointwise(s.accounts, u.accounts, HeldOf(i));
    }
  }

  // ----- every step -----

  lemma AssetBodyKeeps(s: State, tx: Tx)
    requires Inv(s) && ProcessAsset(s, tx).Success?
    ensures Inv(ProcessAsset(s, tx).value)
  {
    match tx.body {
      case AssetCreate(def, validDef) => DeployKeeps(s, AcfgTxn, tx.sender, def, validDef);
      case AssetReconfigure(id, fields) => ModifyKeeps(s, id, fields);
      case AssetDestroy(id) => DestroyKeeps(s, id);
      case AssetTransfer(id, to, amount) =>
        TransferAssetKeeps(s, AxferTxn, id, tx.sender, to, amount, tx.closeRemainderTo);
      case AssetRevoke(id, to, target, amount) => MoveAssetKeeps(s, id, target, to, amount);
      case AssetFreeze(id, target, frozen) => FreezeKeeps(s, id, target, frozen);
      case _ =>
    }
  }

  lemma AddAmountKeeps(s: State, a: Address, delta: int)
    requires Inv(s) && a in s.accounts
    ensures Inv(AddAmount(s, a, delta))
  {
    PutKeeps(s, a, s.accounts[a].(amount := s.accounts[a].amount + delta));
  }

  lemma CloseRemainderKeeps(s: State, from: Address, closeTo: Address)
    requires Inv(s) && from in s.accounts && CloseRemainder(s, from, closeTo).Success?
    ensures Inv(CloseRemainder(s, from, closeTo).value)
  {
    AddAmountKeeps(s, closeTo, s.accounts[from].amount);
    var s1 := AddAmount(s, closeTo, s.accounts[from].amount);
    PutKeeps(s1, from, s1.accounts[from].(amount := 0));
  }

  lemma TransferAlgoKeeps(s: State, t: TxnType, from: Address, to: Address, amount: nat, closeTo: Option<Address>)
    requires Inv(s) && TransferAlgo(s, t, from, to, amount, closeTo).Success?
    ensures Inv(TransferAlgo(s, t, from, to, amount, closeTo).value)
  {
    var delta: int := amount;
    AddAmountKeeps(s, from, -delta);
    var s1 := AddAmount(s, from, -delta);
    AddAmountKeeps(s1, to, delta);
    if closeTo.Some? {
      CloseRemainderKeeps(AddAmount(s1, to, delta), from, closeTo.value);
    }
  }

  lemma PayKeeps(s: State, tx: Tx)
    requires tx.body.Pay? && Inv(s) && ProcessPay(s, tx).Success?
    ensures Inv(ProcessPay(s, tx).value)
  {
    var to := tx.body.to;
    if to !in s.accounts {
      PutKeeps(s, to, EmptyAccount(0));
    }
    TransferAlgoKeeps(if to in s.accounts then s else Put(s, to, EmptyAccount(0)),
                      PayTxn, tx.sender, to, tx.body.amount, tx.closeRemainderTo);
  }

  /** A step on the tables of an application changes one account's application tables, or nothing. */
  lemma AppStepKeeps(s: State, step: Step)
    requires step.Join? || step.Leave? || step.Delete? || step.Replace?
    requires Inv(s) && Change(s, step).Success?
    ensures Inv(Change(s, step).value)
  {
    match step {
      case Join(from, id) =>
        PutKeeps(s, from, s.accounts[from].OptInToApp(id, GetApp(s, id).value.localSchema).value);
      case Leave(from, id) => PutKeeps(s, from, s.accounts[from].CloseApp(id).value);
      case Delete(id) =>
        var a := s.globalApps[id];
        PutKeeps(s, a, s.accounts[a].DeleteApp(id).value);
        TablesKeep(Put(s, a, s.accounts[a].DeleteApp(id).value), DeleteApp(s, id).value);
      case Replace(id, programs) =>
        var a := s.globalApps[id];
        PutKeeps(s, a, s.accounts[a].ReplacePrograms(id, programs).value);
    }
  }

  // ----- deploying an application -----

  /** Whether the account at `p` may be replaced by an empty one: it holds nothing of what others
      created, and nobody else holds what it created. */
  predicate Harmless(s: State, p: Address) {
    p in s.accounts ==>
      (forall id :: id in s.accounts[p].assets && id !in s.accounts[p].createdAssets ==>
         s.accounts[p].assets[id].amount == 0) &&
      (forall id, b :: id in s.accounts[p].createdAssets && b in s.accounts && b != p ==>
         id !in s.accounts[b].assets)
  }

  lemma HarmlessReplacement(s: State, p: Address)
    requires Inv(s) && Harmless(s, p)
    ensures Inv(Put(s, p, EmptyAccount(0)))
  {
    var t := Put(s, p, EmptyAccount(0));
    assert forall b, i :: Created(t, b, i) <==> Created(s, b, i) && b != p;
    forall i | Live(t, i)
      ensures s.assetDefs[i] != p && Live(s, i) && Params(t, i) == Params(s, i)
      ensures Supply(t, i) == Params(t, i).total
    {
      assert Created(t, s.assetDefs[i], i);
      PutSupply(s, p, EmptyAccount(0), i);
    }
    forall b, i | Holds(t, b, i)
      ensures Live(t, i) && t.accounts[b].assets[i].amount >= 0 && t.accounts[b].assets[i].creator == t.assetDefs[i]
    {
      assert Holds(s, b, i) && b != p;
    }
  }

  lemma HarmfulReplacement(s: State, p: Address)
    requires Inv(s) && !Harmless(s, p)
    ensures !Inv(Put(s, p, EmptyAccount(0)))
  {
    var t := Put(s, p, EmptyAccount(0));
    var acc := s.accounts[p];
    if id :| id in acc.assets && id !in acc.createdAssets && acc.assets[id].amount != 0 {
      assert Holds(s, p, id) && Live(s, id);
      assert s.assetDefs[id] != p && Live(t, id);
      PutSupply(s, p, EmptyAccount(0), id);
      assert Supply(t, id) != Params(t, id).total;
    } else {
      var id, b :| id in acc.createdAssets && b in s.accounts && b != p && id in s.accounts[b].assets;
      assert Created(s, p, id) && Holds(t, b, id) && !Live(t, id);
    }
  }

  /** Both ledgers have the same accounts with the same assets. */
  ghost predicate SameAssets(s: State, t: State) {
    && t.accounts.Keys == s.accounts.Keys
    && (forall a :: a in s.accounts ==> t.accounts[a].assets == s.accounts[a].assets
                                        && t.accounts[a].createdAssets == s.accounts[a].createdAssets)
  }

  lemma SameAssetsSameHarm(s: State, t: State, p: Address)
    requires SameAssets(s, t)
    ensures Harmless(s, p) <==> Harmless(t, p)
  {
  }

  lemma EnterAppKeeps(s: State, t: TxnType, from: Address, def: AppDefinition)
    requires Inv(s) && EnterApp(s, t, from, def).Success?
    ensures var u := EnterApp(s, t, from, def).value; Inv(u) && SameAssets(s, u) && u.appCounter == s.appCounter
  {
    var acc := s.accounts[from].AddApp(0, NewApp(from, def));
    PutKeeps(s, from, acc);
    TablesKeep(Put(s, from, acc), EnterApp(s, t, from, def).value);
  }

  lemma NumberAppKeeps(s: State, from: Address)
    requires Inv(s) && from in s.accounts && NumberApp(s, from).Success?
    ensures var u := NumberApp(s, from).value; Inv(u) && SameAssets(s, u) && u.appCounter == s.appCounter + 1
  {
    var u := NumberApp(s, from).value;
    PutKeeps(s, from, u.accounts[from]);
    TablesKeep(Put(s, from, u.accounts[from]), u);
  }

  /** As a deployment ends, it keeps the accounting of assets exactly when the account it replaces is
      harmless. */
  lemma DeployAppKeepsIff(s: State, from: Address, nameFree: bool)
    requires Inv(s) && FinishApp(s, from, nameFree).Success?
    ensures Inv(FinishApp(s, from, nameFree).value) <==> Harmless(s, AppAddress(s.appCounter + 1))
  {
    NumberAppKeeps(s, from);
    var s1 := NumberApp(s, from).value;
    var p := AppAddress(s1.appCounter);
    SameAssetsSameHarm(s, s1, p);
    if Harmless(s1, p) {
      HarmlessReplacement(s1, p);
    } else {
      HarmfulReplacement(s1, p);
    }
  }

  lemma BeginKeeps(s: State, tx: Tx)
    requires Inv(s) && BeginTx(s, tx).Success?
    ensures Inv(BeginTx(s, tx).value)
  {
    var fee: int := FeeDue(tx).value;
    AddAmountKeeps(s, tx.sender, -fee);
  }

  lemma LookKeeps(s: State, a: Address)
    requires Inv(s)
    ensures Inv(CreateIfAbsent(s, a))
  {
    if a !in s.accounts {
      PutKeeps(s, a, EmptyAccount(0));
    }
  }

  /** Every successful step keeps the accounting of assets, the end of a deployment over a harmful
      account excepted. */
  lemma StepKeeps(s: State, step: Step)
    requires Inv(s) && Change(s, step).Success?
    requires step.Finish? ==> Harmless(s, AppAddress(s.appCounter + 1))
    ensures Inv(Change(s, step).value)
  {
    match step {
      case Begin(tx) => BeginKeeps(s, tx);
      case DoPay(tx) => if tx.body.Pay? { PayKeeps(s, tx); }
      case DoAsset(tx) => AssetBodyKeeps(s, tx);
      case Enter(from, def) => EnterAppKeeps(s, ApplTxn, from, def);
      case Finish(from, nameFree) => DeployAppKeepsIff(s, from, nameFree);
      case Look(account) => LookKeeps(s, account);
      case Find(_) =>
      case CheckPrograms(_) =>
      case Settle(_) =>
      case Verdict(_) =>
      case _ => AppStepKeeps(s, step);
    }
  }
}
