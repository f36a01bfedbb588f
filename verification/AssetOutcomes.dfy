/** What each asset transaction comes to: when it succeeds, and the ledger it leaves. */
module AssetOutcomes {
  import opened Wrappers
  import opened Accounts
  import opened Ledger
  import opened AssetInvariant
  import opened Effects
  import opened Outcomes
  import Authority

  /** The account with another amount of asset `id`, if it holds any. */
  function WithAmount(acc: Account, id: nat, amount: int): Account {
    if id !in acc.assets then acc
    else acc.(assets := acc.assets[id := Holding(amount, acc.assets[id].creator, acc.assets[id].frozen)])
  }

  /** The account without asset `id`, and one fee less to keep. */
  function WithoutAsset(acc: Account, id: nat): Account {
    acc.(assets := acc.assets - {id}, minBalance := acc.minBalance - 100000)
  }

  predicate Frozen(s: State, a: Address, id: nat)
    requires Holds(s, a, id)
  {
    s.accounts[a].assets[id].frozen
  }

  // ----- creating -----

  function Issued(s: State, from: Address, def: AssetDef): State
    requires from in s.accounts
  {
    var id, acc := s.assetCounter + 1, s.accounts[from];
    var params := AssetParams(from, def.total, def.defaultFrozen, def.roles);
    s.(assetCounter := id, assetDefs := s.assetDefs[id := from],
       accounts := s.accounts[from := acc.(minBalance := acc.minBalance + 100000,
                                           createdAssets := acc.createdAssets[id := params],
                                           assets := acc.assets[id := Holding(def.total, from, false)])])
  }

  lemma CreationComesTo(s: State, tx: Tx)
    requires tx.body.AssetCreate? && tx.sender in s.accounts
    ensures ProcessAsset(s, tx).Success? <==> tx.body.validDef
    ensures tx.body.validDef ==> ProcessAsset(s, tx) == Success(Issued(s, tx.sender, tx.body.def))
  {
  }

  // ----- changing roles -----

  function RoleAfter(role: Option<Address>, field: RoleField): Option<Address> {
    match field
    case Unset => role
    case Blank => None
    case To(a) => Some(a)
  }

  predicate MayReconfigure(s: State, tx: Tx)
    requires tx.body.AssetReconfigure?
  {
    var id, f := tx.body.id, tx.body.fields;
    && Live(s, id)
    && var r := Params(s, id).roles;
       && r.manager == Some(tx.sender)
       && (f.reserve.To? ==> r.reserve.Some?)
       && (f.freeze.To? ==> r.freeze.Some?)
       && (f.clawback.To? ==> r.clawback.Some?)
  }

  function Reconfigured(s: State, id: nat, f: RoleFields): State
    requires Live(s, id)
  {
    var creator := s.assetDefs[id];
    var acc, r := s.accounts[creator], Params(s, id).roles;
    var roles := Roles(RoleAfter(r.manager, f.manager), RoleAfter(r.reserve, f.reserve),
                       RoleAfter(r.freeze, f.freeze), RoleAfter(r.clawback, f.clawback));
    s.(accounts := s.accounts[creator :=
         acc.(createdAssets := acc.createdAssets[id := acc.createdAssets[id].(roles := roles)])])
  }

  lemma ReconfigurationComesTo(s: State, tx: Tx)
    requires tx.body.AssetReconfigure?
    ensures ProcessAsset(s, tx).Success? <==> MayReconfigure(s, tx)
    ensures MayReconfigure(s, tx) ==> ProcessAsset(s, tx) == Success(Reconfigured(s, tx.body.id, tx.body.fields))
  {
  }

  // ----- destroying -----

  /** Only the manager destroys an asset, and only while its creator holds all of it. */
  predicate MayDestroy(s: State, tx: Tx)
    requires tx.body.AssetDestroy?
  {
    var id := tx.body.id;
    && Live(s, id) && Params(s, id).roles.manager == Some(tx.sender)
    && Holds(s, s.assetDefs[id], id)
    && s.accounts[s.assetDefs[id]].assets[id].amount == Params(s, id).total
  }

  /** Every holding goes; the creator alone gets its fee back. The index keeps the creator. */
  function Destroyed(s: State, id: nat): State
    requires id in s.assetDefs
  {
    s.(accounts := map a | a in s.accounts ::
         var acc := s.accounts[a].(assets := s.accounts[a].assets - {id});
         if a != s.assetDefs[id] then acc
         else acc.(minBalance := acc.minBalance - 100000, createdAssets := acc.createdAssets - {id}))
  }

  lemma DestroyedAt(s: State, id: nat, a: Address)
    requires DestroyAsset(s, id).Success? && a in s.accounts
    ensures a in DestroyAsset(s, id).value.accounts
    ensures DestroyAsset(s, id).value.accounts[a] == Destroyed(s, id).accounts[a]
  {
    var had := s.accounts[a].assets;
    assert had - {id} - {id} == had - {id};
  }

  lemma DestructionComesTo(s: State, tx: Tx)
    requires tx.body.AssetDestroy?
    ensures ProcessAsset(s, tx).Success? <==> MayDestroy(s, tx)
    ensures MayDestroy(s, tx) ==> ProcessAsset(s, tx) == Success(Destroyed(s, tx.body.id))
  {
    if MayDestroy(s, tx) {
      var u, v := ProcessAsset(s, tx).value, Destroyed(s, tx.body.id);
      forall a | a in s.accounts
        ensures u.accounts[a] == v.accounts[a]
      {
        DestroyedAt(s, tx.body.id, a);
      }
      assert u.accounts == v.accounts;
    }
  }

  // ----- freezing -----

  predicate MayFreeze(s: State, tx: Tx)
    requires tx.body.AssetFreeze?
  {
    && Live(s, tx.body.id) && Params(s, tx.body.id).roles.freeze == Some(tx.sender)
    && Holds(s, tx.body.target, tx.body.id)
  }

  function FrozenAs(s: State, id: nat, a: Address, frozen: bool): State
    requires Holds(s, a, id)
  {
    var acc := s.accounts[a];
    var holding := Holding(acc.assets[id].amount, acc.assets[id].creator, frozen);
    s.(accounts := s.accounts[a := acc.(assets := acc.assets[id := holding])])
  }

  lemma FreezingComesTo(s: State, tx: Tx)
    requires tx.body.AssetFreeze?
    ensures ProcessAsset(s, tx).Success? <==> MayFreeze(s, tx)
    ensures MayFreeze(s, tx) ==>
              ProcessAsset(s, tx) == Success(FrozenAs(s, tx.body.id, tx.body.target, tx.body.frozen))
  {
  }

  // ----- moving -----

  /** Every account keeps its holding and has its gain. */
  function Shifted(s: State, id: nat, from: Address, to: Address, amount: int): State {
    s.(accounts := map a | a in s.accounts ::
         WithAmount(s.accounts[a], id, HoldingIn(s, id)(a) + Gain(from, to, amount, a)))
  }

  lemma MoveAt(s: State, id: nat, from: Address, to: Address, amount: nat, a: Address)
    requires MoveAsset(s, id, from, to, amount).Success? && a in s.accounts
    ensures a in MoveAsset(s, id, from, to, amount).value.accounts
    ensures MoveAsset(s, id, from, to, amount).value.accounts[a] ==
            WithAmount(s.accounts[a], id, HoldingIn(s, id)(a) + Gain(from, to, amount, a))
  {
    var acc := s.accounts[a];
    if id in acc.assets {
      assert acc.assets[id := acc.assets[id]] == acc.assets;
    }
  }

  lemma MoveFrame(s: State, id: nat, from: Address, to: Address, amount: nat)
    ensures MoveAsset(s, id, from, to, amount).Success? <==>
            Holds(s, from, id) && Holds(s, to, id) && s.accounts[from].assets[id].amount >= amount
    ensures MoveAsset(s, id, from, to, amount).Success? ==>
              var u := MoveAsset(s, id, from, to, amount).value;
              u == s.(accounts := u.accounts) && u.accounts.Keys == s.accounts.Keys
  {
  }

  lemma SameLedger(s: State, u: State, v: State)
    requires u == s.(accounts := u.accounts) && v == s.(accounts := v.accounts)
    requires u.accounts.Keys == s.accounts.Keys == v.accounts.Keys
    requires forall a :: a in s.accounts ==> u.accounts[a] == v.accounts[a]
    ensures u == v
  {
    assert u.accounts == v.accounts;
  }

  lemma MoveComesTo(s: State, id: nat, from: Address, to: Address, amount: nat)
    ensures MoveAsset(s, id, from, to, amount).Success? <==>
            Holds(s, from, id) && Holds(s, to, id) && s.accounts[from].assets[id].amount >= amount
    ensures MoveAsset(s, id, from, to, amount).Success? ==>
              MoveAsset(s, id, from, to, amount).value == Shifted(s, id, from, to, amount)
  {
    MoveFrame(s, id, from, to, amount);
    if MoveAsset(s, id, from, to, amount).Success? {
      var u, v := MoveAsset(s, id, from, to, amount).value, Shifted(s, id, from, to, amount);
      forall a | a in s.accounts
        ensures u.accounts[a] == v.accounts[a]
      {
        MoveAt(s, id, from, to, amount, a);
      }
      SameLedger(s, u, v);
    }
  }

  /** The clawback moves what it likes, frozen or not, but cannot close a holding. */
  predicate MayRevoke(s: State, tx: Tx)
    requires tx.body.AssetRevoke?
  {
    && Live(s, tx.body.id) && Params(s, tx.body.id).roles.clawback == Some(tx.sender)
    && tx.closeRemainderTo.None?
    && Holds(s, tx.body.target, tx.body.id) && Holds(s, tx.body.to, tx.body.id)
    && s.accounts[tx.body.target].assets[tx.body.id].amount >= tx.body.amount
  }

  lemma RevocationComesTo(s: State, tx: Tx)
    requires tx.body.AssetRevoke?
    ensures ProcessAsset(s, tx).Success? <==> MayRevoke(s, tx)
    ensures MayRevoke(s, tx) ==>
              ProcessAsset(s, tx) == Success(Shifted(s, tx.body.id, tx.body.target, tx.body.to, tx.body.amount))
  {
    MoveComesTo(s, tx.body.id, tx.body.target, tx.body.to, tx.body.amount);
  }

  // ----- transferring -----

  predicate IsOptIn(tx: Tx)
    requires tx.body.AssetTransfer?
  {
    tx.body.amount == 0 && tx.body.to == tx.sender
  }

  /** Opting in opens an empty holding, frozen if the asset says so, unless there is one. */
  function Opened(s: State, tx: Tx): State
    requires tx.body.AssetTransfer? && tx.sender in s.accounts && (IsOptIn(tx) ==> Live(s, tx.body.id))
  {
    var id, acc := tx.body.id, s.accounts[tx.sender];
    if !IsOptIn(tx) || id in acc.assets then s
    else
      var empty := Holding(0, Params(s, id).creator, Params(s, id).defaultFrozen);
      s.(accounts := s.accounts[tx.sender := acc.(assets := acc.assets[id := empty],
                                                  minBalance := acc.minBalance + 100000)])
  }

  lemma OpeningComesTo(s: State, tx: Tx)
    requires tx.body.AssetTransfer? && IsOptIn(tx) && tx.sender in s.accounts
    ensures OptInToASA(s, AxferTxn, tx.body.id, tx.sender).Success? <==> Live(s, tx.body.id)
    ensures Live(s, tx.body.id) ==> OptInToASA(s, AxferTxn, tx.body.id, tx.sender) == Success(Opened(s, tx))
  {
    if Live(s, tx.body.id) && tx.body.id in s.accounts[tx.sender].assets {
      assert s.accounts[tx.sender := s.accounts[tx.sender]] == s.accounts;
    }
  }

  /** Both ends hold the asset, unfrozen if anything moves, and the sender has enough. */
  predicate MayMove(s: State, tx: Tx)
    requires tx.body.AssetTransfer?
  {
    var id, from, to, amount := tx.body.id, tx.sender, tx.body.to, tx.body.amount;
    && Holds(s, from, id) && Holds(s, to, id)
    && (amount != 0 ==> !Frozen(s, from, id) && !Frozen(s, to, id))
    && s.accounts[from].assets[id].amount >= amount
  }

  /** The rest may go to another account with an unfrozen holding, unless the sender is the creator. */
  predicate MayClose(s: State, id: nat, from: Address, closeTo: Address)
    requires Holds(s, from, id)
  {
    closeTo != from && s.accounts[from].assets[id].creator != from
    && Holds(s, closeTo, id) && !Frozen(s, closeTo, id)
  }

  predicate MayTransfer(s: State, tx: Tx)
    requires tx.body.AssetTransfer? && tx.sender in s.accounts
  {
    && (IsOptIn(tx) ==> Live(s, tx.body.id))
    && MayMove(Opened(s, tx), tx)
    && (tx.closeRemainderTo.Some? ==> MayClose(Opened(s, tx), tx.body.id, tx.sender, tx.closeRemainderTo.value))
  }

  /** Holdings move as `After` says, and keep their frozen flag; closing removes the sender's. */
  function Exchanged(s: State, tx: Tx): State
    requires tx.body.AssetTransfer?
  {
    var id, from, c := tx.body.id, tx.sender, tx.closeRemainderTo;
    s.(accounts := map a | a in s.accounts ::
         if a == from && c.Some? then WithoutAsset(s.accounts[a], id)
         else WithAmount(s.accounts[a], id, After(HoldingIn(s, id), from, tx.body.to, tx.body.amount, c, a)))
  }

  lemma ClosingComesTo(s: State, id: nat, from: Address, closeTo: Address)
    requires Holds(s, from, id)
    ensures CloseAssetTo(s, id, from, closeTo).Success? <==> MayClose(s, id, from, closeTo)
  {
  }

  /** What closing leaves one account with. */
  function Closed(m: State, id: nat, from: Address, c: Address, a: Address): Account
    requires a in m.accounts
  {
    if a == from then WithoutAsset(m.accounts[a], id)
    else WithAmount(m.accounts[a], id, HoldingIn(m, id)(a) + if a == c then HoldingIn(m, id)(from) else 0)
  }

  lemma ClosingAt(s: State, id: nat, from: Address, closeTo: Address, a: Address)
    requires Holds(s, from, id) && CloseAssetTo(s, id, from, closeTo).Success? && a in s.accounts
    ensures var u := CloseAssetTo(s, id, from, closeTo).value;
            && u == s.(accounts := u.accounts) && u.accounts.Keys == s.accounts.Keys
            && u.accounts[a] == Closed(s, id, from, closeTo, a)
  {
    var acc := s.accounts[a];
    if id in acc.assets {
      assert acc.assets[id := acc.assets[id]] == acc.assets;
    }
  }

  lemma TransferStages(s: State, tx: Tx)
    requires tx.body.AssetTransfer? && tx.sender in s.accounts
    ensures BeforeTransfer(s, AxferTxn, tx.body.id, tx.sender, tx.body.to, tx.body.amount).Success? <==>
            if IsOptIn(tx) then Live(s, tx.body.id)
            else tx.body.amount != 0 ==>
                   && Holds(s, tx.sender, tx.body.id) && !Frozen(s, tx.sender, tx.body.id)
                   && Holds(s, tx.body.to, tx.body.id) && !Frozen(s, tx.body.to, tx.body.id)
    ensures BeforeTransfer(s, AxferTxn, tx.body.id, tx.sender, tx.body.to, tx.body.amount).Success? ==>
              BeforeTransfer(s, AxferTxn, tx.body.id, tx.sender, tx.body.to, tx.body.amount).value == Opened(s, tx)
  {
    if IsOptIn(tx) {
      OpeningComesTo(s, tx);
    }
  }

  lemma AmountTwice(acc: Account, id: nat, n: int, k: int)
    ensures WithAmount(WithAmount(acc, id, n), id, k) == WithAmount(acc, id, k)
    ensures WithoutAsset(WithAmount(acc, id, n), id) == WithoutAsset(acc, id)
    ensures id in acc.assets ==> Held(WithAmount(acc, id, n), id) == n
    ensures id !in acc.assets ==> WithAmount(acc, id, n) == acc && Held(acc, id) == 0
  {
    if id in acc.assets {
      var h, h' := Holding(n, acc.assets[id].creator, acc.assets[id].frozen),
                   Holding(k, acc.assets[id].creator, acc.assets[id].frozen);
      assert acc.assets[id := h][id := h'] == acc.assets[id := h'];
      assert acc.assets[id := h] - {id} == acc.assets - {id};
    }
  }

  lemma LastAmount(acc: Account, id: nat, n: int, k: int, l: int)
    requires id in acc.assets ==> k == l
    ensures WithAmount(WithAmount(acc, id, n), id, k) == WithAmount(acc, id, l)
  {
    AmountTwice(acc, id, n, k);
  }

  lemma ShiftedAt(o: State, id: nat, from: Address, to: Address, amount: int, a: Address)
    requires a in o.accounts
    ensures var m := Shifted(o, id, from, to, amount);
            && a in m.accounts
            && m.accounts[a] == WithAmount(o.accounts[a], id, HoldingIn(o, id)(a) + Gain(from, to, amount, a))
            && (Holds(o, a, id) ==> HoldingIn(m, id)(a) == HoldingIn(o, id)(a) + Gain(from, to, amount, a))
  {
    AmountTwice(o.accounts[a], id, HoldingIn(o, id)(a) + Gain(from, to, amount, a), 0);
  }

  lemma ShiftKeepsHolding(o: State, id: nat, from: Address, to: Address, amount: int, a: Address)
    ensures Holds(Shifted(o, id, from, to, amount), a, id) <==> Holds(o, a, id)
    ensures Holds(o, a, id) ==>
              var h := Shifted(o, id, from, to, amount).accounts[a].assets[id];
              h.frozen == o.accounts[a].assets[id].frozen && h.creator == o.accounts[a].assets[id].creator
  {
  }

  /** What moved before does not matter to whether the rest may be closed out. */
  lemma ShiftKeepsClosing(o: State, id: nat, from: Address, to: Address, amount: int, c: Address)
    requires Holds(o, from, id)
    ensures Holds(Shifted(o, id, from, to, amount), from, id)
    ensures MayClose(Shifted(o, id, from, to, amount), id, from, c) <==> MayClose(o, id, from, c)
  {
    ShiftKeepsHolding(o, id, from, to, amount, from);
    ShiftKeepsHolding(o, id, from, to, amount, c);
  }

  lemma ShiftThenCloseHolder(o: State, id: nat, from: Address, to: Address, amount: int, c: Address, a: Address)
    requires Holds(o, from, id) && Holds(o, a, id) && a != from
    ensures var m := Shifted(o, id, from, to, amount);
            HoldingIn(m, id)(a) + (if a == c then HoldingIn(m, id)(from) else 0)
            == After(HoldingIn(o, id), from, to, amount, Some(c), a)
  {
    ShiftedAt(o, id, from, to, amount, a);
    ShiftedAt(o, id, from, to, amount, from);
  }

  /** Moving and then closing, seen from one account. */
  lemma ShiftThenClose(o: State, id: nat, from: Address, to: Address, amount: int, c: Address, a: Address)
    requires Holds(o, from, id) && a in o.accounts && a != from
    ensures Closed(Shifted(o, id, from, to, amount), id, from, c, a)
            == WithAmount(o.accounts[a], id, After(HoldingIn(o, id), from, to, amount, Some(c), a))
  {
    var m := Shifted(o, id, from, to, amount);
    var n := HoldingIn(o, id)(a) + Gain(from, to, amount, a);
    var k := HoldingIn(m, id)(a) + if a == c then HoldingIn(m, id)(from) else 0;
    var l := After(HoldingIn(o, id), from, to, amount, Some(c), a);
    if Holds(o, a, id) {
      ShiftThenCloseHolder(o, id, from, to, amount, c, a);
    }
    LastAmount(o.accounts[a], id, n, k, l);
  }

  lemma ShiftThenCloseSender(o: State, id: nat, from: Address, to: Address, amount: int, c: Address)
    requires Holds(o, from, id)
    ensures Closed(Shifted(o, id, from, to, amount), id, from, c, from) == WithoutAsset(o.accounts[from], id)
  {
    AmountTwice(o.accounts[from], id, HoldingIn(o, id)(from) + Gain(from, to, amount, from), 0);
  }

  lemma TransferringIff(s: State, tx: Tx)
    requires tx.body.AssetTransfer? && tx.sender in s.accounts
    ensures ProcessAsset(s, tx).Success? <==> MayTransfer(s, tx)
  {
    var id, from, to, amount := tx.body.id, tx.sender, tx.body.to, tx.body.amount;
    TransferStages(s, tx);
    if IsOptIn(tx) ==> Live(s, id) {
      var o := Opened(s, tx);
      MoveComesTo(o, id, from, to, amount);
      if tx.closeRemainderTo.Some? && MoveAsset(o, id, from, to, amount).Success? {
        var c := tx.closeRemainderTo.value;
        ShiftKeepsClosing(o, id, from, to, amount, c);
        ClosingComesTo(Shifted(o, id, from, to, amount), id, from, c);
      }
    }
  }

  /** The part after the opt-in, when the rest goes to `c`. */
  lemma CloseOn(o: State, tx: Tx, c: Address)
    requires tx.body.AssetTransfer? && tx.closeRemainderTo == Some(c)
    requires MayMove(o, tx) && MayClose(o, tx.body.id, tx.sender, c)
    ensures var m := Shifted(o, tx.body.id, tx.sender, tx.body.to, tx.body.amount);
            && Holds(m, tx.sender, tx.body.id)
            && CloseAssetTo(m, tx.body.id, tx.sender, c) == Success(Exchanged(o, tx))
  {
    var id, from, to, amount := tx.body.id, tx.sender, tx.body.to, tx.body.amount;
    var m, v := Shifted(o, id, from, to, amount), Exchanged(o, tx);
    ShiftKeepsClosing(o, id, from, to, amount, c);
    ClosingComesTo(m, id, from, c);
    var u := CloseAssetTo(m, id, from, c).value;
    ClosingAt(m, id, from, c, from);
    forall a | a in o.accounts
      ensures u.accounts[a] == v.accounts[a]
    {
      ClosingAt(m, id, from, c, a);
      if a == from {
        ShiftThenCloseSender(o, id, from, to, amount, c);
      } else {
        ShiftThenClose(o, id, from, to, amount, c, a);
      }
    }
    SameLedger(o, u, v);
  }

  lemma TransferOn(o: State, tx: Tx)
    requires tx.body.AssetTransfer? && tx.closeRemainderTo.None?
    ensures Shifted(o, tx.body.id, tx.sender, tx.body.to, tx.body.amount) == Exchanged(o, tx)
  {
  }

  lemma TransferComesTo(s: State, tx: Tx)
    requires tx.body.AssetTransfer? && tx.sender in s.accounts && ProcessAsset(s, tx).Success?
    ensures MayTransfer(s, tx) && ProcessAsset(s, tx).value == Exchanged(Opened(s, tx), tx)
  {
    TransferringIff(s, tx);
    TransferStages(s, tx);
    var o := Opened(s, tx);
    MoveComesTo(o, tx.body.id, tx.sender, tx.body.to, tx.body.amount);
    match tx.closeRemainderTo
    case None => TransferOn(o, tx);
    case Some(c) => CloseOn(o, tx, c);
  }

  // ----- whole transactions -----

  /** When an asset transaction, or one that does nothing, succeeds after its fee was paid. */
  predicate MayAct(s: State, tx: Tx)
    requires tx.body.Type() != ApplTxn && !tx.body.Pay? && tx.sender in s.accounts
  {
    match tx.body
    case AssetCreate(_, validDef) => validDef
    case AssetReconfigure(_, _) => MayReconfigure(s, tx)
    case AssetDestroy(_) => MayDestroy(s, tx)
    case AssetTransfer(_, _, _) => MayTransfer(s, tx)
    case AssetRevoke(_, _, _, _) => MayRevoke(s, tx)
    case AssetFreeze(_, _, _) => MayFreeze(s, tx)
    case _ => true
  }

  function Acted(s: State, tx: Tx): State
    requires tx.body.Type() != ApplTxn && !tx.body.Pay? && tx.sender in s.accounts && MayAct(s, tx)
  {
    match tx.body
    case AssetCreate(def, _) => Issued(s, tx.sender, def)
    case AssetReconfigure(id, fields) => Reconfigured(s, id, fields)
    case AssetDestroy(id) => Destroyed(s, id)
    case AssetTransfer(_, _, _) => Exchanged(Opened(s, tx), tx)
    case AssetRevoke(id, to, target, amount) => Shifted(s, id, target, to, amount)
    case AssetFreeze(id, target, frozen) => FrozenAs(s, id, target, frozen)
    case _ => s
  }

  lemma ActionComesTo(s: State, tx: Tx)
    requires tx.body.Type() != ApplTxn && !tx.body.Pay? && tx.sender in s.accounts
    ensures ProcessAsset(s, tx).Success? <==> MayAct(s, tx)
    ensures MayAct(s, tx) ==> ProcessAsset(s, tx) == Success(Acted(s, tx))
  {
    match tx.body
    case AssetCreate(_, _) => CreationComesTo(s, tx);
    case AssetReconfigure(_, _) => ReconfigurationComesTo(s, tx);
    case AssetDestroy(_) => DestructionComesTo(s, tx);
    case AssetTransfer(_, _, _) =>
      TransferringIff(s, tx);
      if MayTransfer(s, tx) {
        TransferComesTo(s, tx);
      }
    case AssetRevoke(_, _, _, _) => RevocationComesTo(s, tx);
    case AssetFreeze(_, _, _) => FreezingComesTo(s, tx);
    case _ =>
  }

  /** An asset transaction, from its fee to its end. */
  lemma {:induction false} AssetTxComesTo(x: Session, tx: Tx)
    requires tx.body.Type() != ApplTxn && !tx.body.Pay?
    ensures Perform(x, Steps(tx)).Success? <==> MayBegin(x, tx) && MayAct(Paid(x, tx).ledger, tx)
    ensures Perform(x, Steps(tx)).Success? ==>
              var y := Paid(x, tx); Perform(x, Steps(tx)) == Success(y.(ledger := Acted(y.ledger, tx)))
  {
    TxComesTo(x, tx);
    if MayBegin(x, tx) {
      ActionComesTo(Paid(x, tx).ledger, tx);
      if !tx.body.KeyReg? {
        PerformOne(Paid(x, tx), DoAsset(tx));
      }
    }
  }

  // ----- frozen holdings -----

  /** A new holding is empty, names the creator the index has, and is frozen exactly if the asset says so. */
  lemma OptInOpens(s: State, tx: Tx)
    requires Inv(s) && tx.body.AssetTransfer? && IsOptIn(tx) && tx.closeRemainderTo.None?
    requires !Holds(s, tx.sender, tx.body.id) && ProcessAsset(s, tx).Success?
    ensures var u, id := ProcessAsset(s, tx).value, tx.body.id;
            && Live(s, id) && Holds(u, tx.sender, id)
            && u.accounts[tx.sender].assets[id] == Holding(0, s.assetDefs[id], Params(s, id).defaultFrozen)
            && u.accounts[tx.sender].minBalance == s.accounts[tx.sender].minBalance + 100000
  {
    assert Created(s, s.assetDefs[tx.body.id], tx.body.id);
    TransferComesTo(s, tx);
  }

  /** The only step that can change whether a holding is frozen, and what it makes of it. */
  predicate Freezes(s: State, step: Step, a: Address, id: nat, frozen: bool) {
    && step.DoAsset? && step.tx.body == AssetFreeze(id, a, frozen)
    && Live(s, id) && Params(s, id).roles.freeze == Some(step.tx.sender)
  }

  lemma TransferKeepsFrozen(s: State, tx: Tx, a: Address)
    requires tx.body.AssetTransfer? && ProcessAsset(s, tx).Success?
    requires Holds(s, a, tx.body.id) && Holds(ProcessAsset(s, tx).value, a, tx.body.id)
    ensures Frozen(ProcessAsset(s, tx).value, a, tx.body.id) == Frozen(s, a, tx.body.id)
  {
    TransferComesTo(s, tx);
    assert Opened(s, tx).accounts[a].assets[tx.body.id] == s.accounts[a].assets[tx.body.id];
  }

  /** The same holding of asset `id`, or none. */
  predicate SameHolding(x: Account, y: Account, id: nat) {
    (id in x.assets <==> id in y.assets) && (id in x.assets ==> y.assets[id] == x.assets[id])
  }

  lemma OpenedKeepsOthers(s: State, tx: Tx, a: Address, id: nat)
    requires tx.body.AssetTransfer? && tx.sender in s.accounts && (IsOptIn(tx) ==> Live(s, tx.body.id))
    requires a in s.accounts && id != tx.body.id
    ensures a in Opened(s, tx).accounts && SameHolding(s.accounts[a], Opened(s, tx).accounts[a], id)
  {
  }

  lemma ExchangedKeepsOthers(o: State, tx: Tx, a: Address, id: nat)
    requires tx.body.AssetTransfer? && a in o.accounts && id != tx.body.id
    ensures SameHolding(o.accounts[a], Exchanged(o, tx).accounts[a], id)
  {
  }

  lemma TransferKeepsOthers(s: State, tx: Tx, a: Address, id: nat)
    requires tx.body.AssetTransfer? && ProcessAsset(s, tx).Success? && a in s.accounts && id != tx.body.id
    ensures a in ProcessAsset(s, tx).value.accounts
    ensures SameHolding(s.accounts[a], ProcessAsset(s, tx).value.accounts[a], id)
  {
    TransferComesTo(s, tx);
    OpenedKeepsOthers(s, tx, a, id);
    ExchangedKeepsOthers(Opened(s, tx), tx, a, id);
  }

  lemma ConfigKeepsFrozen(s: State, tx: Tx, a: Address, id: nat)
    requires tx.body.AssetCreate? || tx.body.AssetReconfigure? || tx.body.AssetDestroy?
    requires Inv(s) && ProcessAsset(s, tx).Success? && Holds(s, a, id) && Holds(ProcessAsset(s, tx).value, a, id)
    ensures Frozen(ProcessAsset(s, tx).value, a, id) == Frozen(s, a, id)
  {
    match tx.body
    case AssetCreate(_, _) => CreationComesTo(s, tx);
    case AssetReconfigure(_, _) => ReconfigurationComesTo(s, tx);
    case AssetDestroy(_) => DestructionComesTo(s, tx);
  }

  lemma ActionKeepsFrozen(s: State, tx: Tx, a: Address, id: nat)
    requires Inv(s) && ProcessAsset(s, tx).Success? && Holds(s, a, id) && Holds(ProcessAsset(s, tx).value, a, id)
    requires !tx.body.AssetFreeze?
    ensures Frozen(ProcessAsset(s, tx).value, a, id) == Frozen(s, a, id)
  {
    match tx.body
    case AssetCreate(_, _) => ConfigKeepsFrozen(s, tx, a, id);
    case AssetReconfigure(_, _) => ConfigKeepsFrozen(s, tx, a, id);
    case AssetDestroy(_) => ConfigKeepsFrozen(s, tx, a, id);
    case AssetTransfer(i, _, _) =>
      if i == id {
        TransferKeepsFrozen(s, tx, a);
      } else {
        TransferKeepsOthers(s, tx, a, id);
      }
    case AssetRevoke(i, to, target, amount) =>
      RevocationComesTo(s, tx);
      ShiftKeepsHolding(s, i, target, to, amount, a);
    case _ =>
  }

  /** Whether a holding is frozen changes only by a freeze that the asset's freeze address sends, to
      what that transaction says; nobody else freezes or thaws. */
  lemma OnlyFreezingFreezes(s: State, step: Step, a: Address, id: nat)
    requires Inv(s) && Change(s, step).Success? && Holds(s, a, id) && Holds(Change(s, step).value, a, id)
    ensures Frozen(Change(s, step).value, a, id) != Frozen(s, a, id) ==>
              Freezes(s, step, a, id, Frozen(Change(s, step).value, a, id))
  {
    if step.DoAsset? && step.tx.body.AssetFreeze? {
      FreezingComesTo(s, step.tx);
    } else if step.DoAsset? {
      ActionKeepsFrozen(s, step.tx, a, id);
    } else if step.Finish? {
      Authority.FinishKeepsAssets(s, step.from, step.nameFree, a);
    } else {
      Authority.StepKeepsAssets(s, step);
    }
  }
}
