/** The objects behind the ledger: a store of account objects, and the context that runs a
    group of transactions on a store, changing accounts in place.

    Every method is proved to change the store exactly as the function of the same name in
    `Ledger` says, under any aliasing of the accounts it looks up. */
module Context {
  import opened Wrappers
  import opened Accounts
  import opened Ledger
  import opened Limits
  import InnerFees

  /** The addresses and values of account objects. */
  ghost function Values(given: seq<AccountStore>): seq<(Address, Account)>
    reads given
  {
    seq(|given|, i requires 0 <= i < |given| reads given => (given[i].address, given[i].View()))
  }

  class Store {
    var accounts: map<Address, AccountStore>
    var globalApps: map<nat, Address>
    var assetDefs: map<nat, Address>
    var appCounter: nat
    var assetCounter: nat
    var blocks: map<nat, Block>

    /** The ledger this store represents. */
    ghost var contents: State
    /** The account objects of this store. */
    ghost var repr: set<AccountStore>

    /** The account object at `a`, if any, is stored under its own address and holds what `contents` says. */
    ghost predicate Mirrors(a: Address)
      reads this, repr
    {
      && (a in accounts <==> a in contents.accounts)
      && (a in accounts ==>
            accounts[a] in repr && accounts[a].address == a && accounts[a].View() == contents.accounts[a])
    }

    ghost predicate Valid()
      reads this, repr
    {
      && (forall a :: Mirrors(a))
      && contents.globalApps == globalApps && contents.assetDefs == assetDefs
      && contents.appCounter == appCounter && contents.assetCounter == assetCounter
      && contents.blocks == blocks
    }

    /** `account` is the object stored under its address. */
    ghost predicate Owns(account: AccountStore)
      reads this
    {
      account in repr && account.address in accounts && accounts[account.address] == account
    }

    /** After one account object changed, recording its new value at its address restores validity:
        no other address shares the object. */
    twostate lemma Recorded(account: AccountStore)
      requires old(Valid()) && old(Owns(account))
      requires repr == old(repr) && accounts == old(accounts)
      requires contents == State(old(contents.accounts)[account.address := account.View()],
                                 globalApps, assetDefs, appCounter, assetCounter, blocks)
      requires forall o :: o in repr && o != account ==> unchanged(o)
      ensures Valid()
    {
      forall a
        ensures Mirrors(a)
      {
        assert old(Mirrors(a));
      }
    }

    /** Changing the tables beside the accounts keeps validity when `contents` follows. */
    twostate lemma TablesChanged()
      requires old(Valid())
      requires repr == old(repr) && accounts == old(accounts)
      requires contents == State(old(contents.accounts), globalApps, assetDefs, appCounter, assetCounter, blocks)
      requires forall o :: o in repr ==> unchanged(o)
      ensures Valid()
    {
      forall a
        ensures Mirrors(a)
      {
        assert old(Mirrors(a));
      }
    }

    /** Stores a new account object under its address, replacing any object stored there. */
    method SetAccount(account: AccountStore)
      requires Valid() && account !in repr
      modifies this
      ensures Valid() && repr == old(repr) + {account}
      ensures contents == Put(old(contents), account.address, account.View())
    {
      accounts := accounts[account.address := account];
      repr := repr + {account};
      contents := Put(contents, account.address, account.View());
      forall a
        ensures Mirrors(a)
      {
        assert old(Mirrors(a));
      }
    }

    /** The empty store. */
    constructor ()
      ensures Valid() && contents == NOTHING
      ensures repr == {}
    {
      accounts, globalApps, assetDefs, blocks := map[], map[], map[], map[];
      appCounter, assetCounter := FIRST_FREE_ID, FIRST_FREE_ID;
      contents, repr := NOTHING, {};
    }

    static method IndexAll(index: map<nat, Address>, ids: set<nat>, a: Address) returns (out: map<nat, Address>)
      ensures out == index + map id | id in ids :: a
    {
      out := index;
      var todo := ids;
      while todo != {}
        invariant todo <= ids
        invariant out == index + map id | id in ids - todo :: a
      {
        var id :| id in todo;
        out := out[id := a];
        todo := todo - {id};
      }
    }

    /** Stores an account object under its address and indexes what it has created. No two addresses
        can share an object, because an object is stored under its own address only. */
    method Enroll(account: AccountStore)
      requires Valid()
      modifies this
      ensures Valid()
      ensures contents == Ledger.Enroll(old(contents), account.address, account.View())
    {
      globalApps := IndexAll(globalApps, account.createdApps.Keys, account.address);
      assetDefs := IndexAll(assetDefs, account.createdAssets.Keys, account.address);
      accounts := accounts[account.address := account];
      repr := repr + {account};
      contents := Ledger.Enroll(contents, account.address, account.View());
      forall a
        ensures Mirrors(a)
      {
        assert old(Mirrors(a));
      }
    }

    /** Enters the given account objects in order, and then the fee sink. */
    method InitializeAccounts(given: seq<AccountStore>)
      requires Valid()
      modifies this
      ensures Valid()
      ensures contents == Ledger.InitializeAccounts(old(contents), Values(given))
    {
      ghost var who := Values(given);
      for i := 0 to |given|
        invariant Valid() && Values(given) == who
        invariant contents == EnrollAll(old(contents), who[..i])
      {
        assert who[..i + 1][..i] == who[..i];
        Enroll(given[i]);
      }
      assert who[..|given|] == who;
      var feeSink := new AccountStore(ACCOUNT_MIN_BALANCE, FEE_SINK);
      SetAccount(feeSink);
    }

    /** A deep copy: same contents, no account object in common. */
    constructor Clone(other: Store)
      requires other.Valid()
      ensures Valid() && contents == other.contents
      ensures fresh(repr)
    {
      var todo := other.accounts.Keys;
      var copies: map<Address, AccountStore> := map[];
      ghost var objects: set<AccountStore> := {};
      while todo != {}
        invariant todo <= other.accounts.Keys
        invariant copies.Keys == other.accounts.Keys - todo
        invariant forall a :: a in copies ==> copies[a] in objects && copies[a].View() == other.accounts[a].View()
        invariant forall a :: a in copies ==> copies[a].address == other.accounts[a].address
        invariant fresh(objects)
      {
        var a :| a in todo;
        var copy := new AccountStore.Clone(other.accounts[a]);
        copies, objects := copies[a := copy], objects + {copy};
        todo := todo - {a};
      }
      accounts, repr := copies, objects;
      globalApps, assetDefs := other.globalApps, other.assetDefs;
      appCounter, assetCounter, blocks := other.appCounter, other.assetCounter, other.blocks;
      contents := other.contents;
      new;
      forall a
        ensures Mirrors(a)
      {
        assert other.Mirrors(a);
      }
    }
  }

  class Ctx {
    const state: Store
    var gtxs: seq<Tx>
    var txnType: TxnType
    var remainingTxns: nat
    var remainingFee: int
    var isInnerTx: bool

    constructor (state: Store, gtxs: seq<Tx>)
      ensures this.state == state && this.gtxs == gtxs && remainingTxns == MAX_GROUP_TXNS && !isInnerTx
    {
      this.state, this.gtxs := state, gtxs;
      txnType, remainingTxns, remainingFee, isInnerTx := PayTxn, MAX_GROUP_TXNS, 0, false;
    }

    ghost predicate Valid()
      reads this, state, state.repr
    {
      state.Valid()
    }

    ghost function View(): State
      reads state
    {
      state.contents
    }

    ghost function Now(): Session
      reads this, state
    {
      Session(View(), remainingTxns, remainingFee)
    }

    method GetAccount(a: Address) returns (r: Result<AccountStore, Error>)
      requires Valid()
      ensures match Ledger.GetAccount(View(), a)
              case Success(acc) =>
                r.Success? && state.Owns(r.value) && r.value.address == a && r.value.View() == acc
              case Failure(e) => r == Failure(e)
    {
      assert state.Mirrors(a);
      if a !in state.accounts {
        return Failure(AccountDoesNotExist);
      }
      return Success(state.accounts[a]);
    }

    method AssertAccBalAboveMin(a: Address) returns (r: Check)
      requires Valid()
      ensures r == Ledger.AssertAccBalAboveMin(View(), txnType, a)
    {
      var account :- GetAccount(a);
      if account.amount < account.minBalance && txnType == PayTxn {
        return Failure(InsufficientBalance);
      }
      return Ok;
    }

    method GetAssetAccount(id: nat) returns (r: Result<AccountStore, Error>)
      requires Valid()
      ensures match Ledger.GetAssetAccount(View(), id)
              case Success(a) =>
                r.Success? && state.Owns(r.value) && r.value.address == a && r.value.View() == View().accounts[a]
              case Failure(e) => r == Failure(e)
    {
      if id !in state.assetDefs {
        return Failure(AssetNotFound);
      }
      r := GetAccount(state.assetDefs[id]);
    }

    method GetAssetDef(id: nat) returns (r: Result<AssetParams, Error>)
      requires Valid()
      ensures r == Ledger.GetAssetDef(View(), id)
    {
      var creatorAcc :- GetAssetAccount(id);
      if id !in creatorAcc.createdAssets {
        return Failure(AssetNotFound);
      }
      return Success(creatorAcc.createdAssets[id]);
    }

    method GetAssetHolding(id: nat, a: Address) returns (r: Result<Holding, Error>)
      requires Valid()
      ensures r == Ledger.GetAssetHolding(View(), id, a)
    {
      var account :- GetAccount(a);
      if id !in account.assets {
        return Failure(AssetNotOptedIn);
      }
      return Success(account.assets[id]);
    }

    method GetApp(id: nat) returns (r: Result<App, Error>)
      requires Valid()
      ensures r == Ledger.GetApp(View(), id)
    {
      if id !in state.globalApps {
        return Failure(AppNotFound);
      }
      var account :- GetAccount(state.globalApps[id]);
      if id !in account.createdApps {
        return Failure(AppNotFound);
      }
      return Success(account.createdApps[id]);
    }

    method AssertAssetNotFrozen(id: nat, a: Address) returns (r: Check)
      requires Valid()
      ensures r == Ledger.AssertAssetNotFrozen(View(), id, a)
    {
      var holding :- GetAssetHolding(id, a);
      if holding.frozen {
        return Failure(AssetFrozen);
      }
      return Ok;
    }

    /** Sets the balance of an account object, which may have been looked up under several names. */
    method SetAmount(account: AccountStore, amount: int)
      requires Valid() && state.Owns(account)
      modifies state, state.repr
      ensures Valid() && state.repr == old(state.repr) && state.accounts == old(state.accounts)
      ensures account.address in old(View()).accounts
      ensures View() == Ledger.SetAmount(old(View()), account.address, amount)
      ensures account.amount == amount
    {
      assert state.Mirrors(account.address);
      account.amount := amount;
      state.contents := Ledger.SetAmount(View(), account.address, amount);
      state.Recorded(account);
    }

    method Credit(account: AccountStore, delta: int)
      requires Valid() && state.Owns(account)
      modifies state, state.repr
      ensures Valid() && state.repr == old(state.repr) && state.accounts == old(state.accounts)
      ensures account.address in old(View()).accounts
      ensures View() == AddAmount(old(View()), account.address, delta)
    {
      assert state.Mirrors(account.address);
      SetAmount(account, account.amount + delta);
    }

    /** Adds to a holding of an account object, which may have been looked up under several names. */
    method CreditAsset(account: AccountStore, id: nat, delta: int)
      requires Valid() && state.Owns(account) && id in account.assets
      modifies state, state.repr
      ensures Valid() && state.repr == old(state.repr) && state.accounts == old(state.accounts)
      ensures Holds(old(View()), account.address, id)
      ensures View() == AddHolding(old(View()), account.address, id, delta)
    {
      assert state.Mirrors(account.address);
      var holding := account.assets[id];
      account.assets := account.assets[id := holding.(amount := holding.amount + delta)];
      state.contents := AddHolding(View(), account.address, id, delta);
      state.Recorded(account);
    }

    method DeductFee(sender: Address, index: nat) returns (r: Check)
      requires Valid() && index < |gtxs| && gtxs[index].sender == sender
      requires txnType == gtxs[index].body.Type()
      modifies state, state.repr
      ensures Valid() && state.repr == old(state.repr)
      ensures Reaches(r, View(), Ledger.DeductFee(old(View()), gtxs[index]))
    {
      var tx := gtxs[index];
      var fee := if tx.fee.Some? then tx.fee.value else 0;
      if !tx.flatFee {
        if tx.fee.None? {
          return Failure(FeeUndefined);
        }
        fee := if fee < MIN_TX_FEE then MIN_TX_FEE else fee;
      }
      var fromAccount :- GetAccount(sender);
      if fromAccount.amount < fee {
        return Failure(InsufficientBalance);
      }
      Credit(fromAccount, 0 - fee);
      r := AssertAccBalAboveMin(sender);
    }

    /** The part of a payment that closes the sender's account. */
    method CloseRemainder(from: Address, closeTo: Address) returns (r: Check)
      requires Valid() && from in View().accounts
      modifies state, state.repr
      ensures Valid() && state.repr == old(state.repr)
      ensures Reaches(r, View(), Ledger.CloseRemainder(old(View()), from, closeTo))
    {
      if closeTo == from {
        return Failure(InvalidCloseRemainderTo);
      }
      assert state.Mirrors(from);
      var fromAccount := state.accounts[from];
      var closeAccount :- GetAccount(closeTo);
      Credit(closeAccount, fromAccount.amount);
      SetAmount(fromAccount, 0);
      return Ok;
    }

    method TransferAlgo(from: Address, to: Address, amount: nat, closeTo: Option<Address>) returns (r: Check)
      requires Valid()
      modifies state, state.repr
      ensures Valid() && state.repr == old(state.repr)
      ensures Reaches(r, View(), Ledger.TransferAlgo(old(View()), txnType, from, to, amount, closeTo))
    {
      var fromAccount :- GetAccount(from);
      var toAccount :- GetAccount(to);
      Credit(fromAccount, 0 - amount);
      Credit(toAccount, amount);
      assert View() == AddAmount(AddAmount(old(View()), from, 0 - amount), to, amount);
      var _ :- AssertAccBalAboveMin(from);
      if closeTo.None? {
        return Ok;
      }
      r := CloseRemainder(from, closeTo.value);
    }

    /** Takes the next asset id and gives the new asset to its creator. */
    method AddNextAsset(senderAcc: AccountStore, def: AssetDef)
      requires Valid() && state.Owns(senderAcc)
      modifies state, state.repr
      ensures Valid() && state.repr == old(state.repr) && state.Owns(senderAcc)
      ensures senderAcc.address in old(View()).accounts
      ensures var id, from := old(View()).assetCounter + 1, senderAcc.address;
              View() == Put(old(View()), from, old(View()).accounts[from].AddAsset(from, id, def)).(assetCounter := id)
    {
      assert state.Mirrors(senderAcc.address);
      state.assetCounter := state.assetCounter + 1;
      senderAcc.AddAsset(state.assetCounter, def);
      state.contents := Put(View(), senderAcc.address, senderAcc.View()).(assetCounter := state.assetCounter);
      state.Recorded(senderAcc);
    }

    method DeployASA(from: Address, def: AssetDef, validDef: bool) returns (r: Check)
      requires Valid()
      modifies state, state.repr
      ensures Valid() && state.repr == old(state.repr)
      ensures Reaches(r, View(), Ledger.DeployASA(old(View()), txnType, from, def, validDef))
    {
      var senderAcc :- GetAccount(from);
      if !validDef {
        return Failure(InvalidDefinition);
      }
      AddNextAsset(senderAcc, def);
      var _ :- AssertAccBalAboveMin(from);
      label Added:
      state.assetDefs := state.assetDefs[state.assetCounter := senderAcc.address];
      state.contents := View().(assetDefs := state.assetDefs);
      state.TablesChanged@Added();
      return Ok;
    }

    method OptInToASA(id: nat, a: Address) returns (r: Check)
      requires Valid()
      modifies state, state.repr
      ensures Valid() && state.repr == old(state.repr)
      ensures Reaches(r, View(), Ledger.OptInToASA(old(View()), txnType, id, a))
    {
      var params :- GetAssetDef(id);
      var account :- GetAccount(a);
      account.OptInToASA(id, Holding(0, params.creator, params.defaultFrozen));
      state.contents := Put(View(), a, account.View());
      state.Recorded(account);
      r := AssertAccBalAboveMin(a);
    }

    /** The part of a transfer before anything moves. */
    method BeforeTransfer(id: nat, from: Address, to: Address, amount: nat) returns (r: Check)
      requires Valid()
      modifies state, state.repr
      ensures Valid() && state.repr == old(state.repr)
      ensures Reaches(r, View(), Ledger.BeforeTransfer(old(View()), txnType, id, from, to, amount))
    {
      if amount == 0 && from == to {
        r := OptInToASA(id, from);
      } else if amount != 0 {
        var _ :- AssertAssetNotFrozen(id, from);
        r := AssertAssetNotFrozen(id, to);
      } else {
        return Ok;
      }
    }

    /** The movement shared by a transfer and a revocation. */
    method MoveAsset(id: nat, from: Address, to: Address, amount: nat) returns (r: Check)
      requires Valid()
      modifies state, state.repr
      ensures Valid() && state.repr == old(state.repr)
      ensures Reaches(r, View(), Ledger.MoveAsset(old(View()), id, from, to, amount))
    {
      var fromHolding :- GetAssetHolding(id, from);
      var _ :- GetAssetHolding(id, to);
      assert state.Mirrors(from) && state.Mirrors(to);
      var fromAccount, toAccount := state.accounts[from], state.accounts[to];
      if fromHolding.amount - amount < 0 {
        return Failure(InsufficientAssets);
      }
      CreditAsset(fromAccount, id, 0 - amount);
      assert state.Mirrors(to);
      CreditAsset(toAccount, id, amount);
      return Ok;
    }

    /** The part of a transfer that closes the sender's holding. */
    method CloseAssetTo(id: nat, from: Address, closeTo: Address) returns (r: Check)
      requires Valid() && Holds(View(), from, id)
      modifies state, state.repr
      ensures Valid() && state.repr == old(state.repr)
      ensures Reaches(r, View(), Ledger.CloseAssetTo(old(View()), id, from, closeTo))
    {
      assert state.Mirrors(from);
      var fromAccount := state.accounts[from];
      var fromHolding := fromAccount.assets[id];
      if closeTo == from {
        return Failure(InvalidCloseRemainderTo);
      }
      if from == fromHolding.creator {
        return Failure(CannotCloseByCreator);
      }
      var _ :- AssertAssetNotFrozen(id, closeTo);
      assert state.Mirrors(closeTo);
      var closeAccount := state.accounts[closeTo];
      CreditAsset(closeAccount, id, fromHolding.amount);
      label Moved:
      assert state.Mirrors(from);
      fromAccount.CloseAsset(id);
      state.contents := Put(View(), from, fromAccount.View());
      state.Recorded@Moved(fromAccount);
      return Ok;
    }

    method TransferAsset(id: nat, from: Address, to: Address, amount: nat, closeTo: Option<Address>) returns (r: Check)
      requires Valid()
      modifies state, state.repr
      ensures Valid() && state.repr == old(state.repr)
      ensures Reaches(r, View(), Ledger.TransferAsset(old(View()), txnType, id, from, to, amount, closeTo))
    {
      var _ :- BeforeTransfer(id, from, to, amount);
      var _ :- MoveAsset(id, from, to, amount);
      if closeTo.Some? {
        r := CloseAssetTo(id, from, closeTo.value);
      } else {
        return Ok;
      }
    }

    method ModifyAsset(id: nat, fields: RoleFields) returns (r: Check)
      requires Valid()
      modifies state, state.repr
      ensures Valid() && state.repr == old(state.repr)
      ensures Reaches(r, View(), Ledger.ModifyAsset(old(View()), id, fields))
    {
      var creatorAcc :- GetAssetAccount(id);
      r := creatorAcc.ModifyAsset(id, fields);
      state.contents := Put(View(), creatorAcc.address, creatorAcc.View());
      state.Recorded(creatorAcc);
    }

    method FreezeAsset(id: nat, target: Address, frozen: bool) returns (r: Check)
      requires Valid()
      modifies state, state.repr
      ensures Valid() && state.repr == old(state.repr)
      ensures Reaches(r, View(), Ledger.FreezeAsset(old(View()), id, target, frozen))
    {
      var account :- GetAccount(target);
      r := account.SetFreezeState(id, frozen);
      state.contents := Put(View(), target, account.View());
      state.Recorded(account);
    }

    method RevokeAsset(recipient: Address, id: nat, target: Address, amount: nat) returns (r: Check)
      requires Valid()
      modifies state, state.repr
      ensures Valid() && state.repr == old(state.repr)
      ensures Reaches(r, View(), Ledger.MoveAsset(old(View()), id, target, recipient, amount))
    {
      r := MoveAsset(id, target, recipient, amount);
    }

    /** Removes one asset's holding from one account object. */
    method DropHolding(account: AccountStore, id: nat)
      requires Valid() && state.Owns(account)
      modifies state, state.repr
      ensures Valid() && state.repr == old(state.repr) && state.accounts == old(state.accounts)
      ensures account.address in old(View()).accounts
      ensures View() == Put(old(View()), account.address, Ledger.DropHolding(old(View()).accounts[account.address], id))
    {
      assert state.Mirrors(account.address);
      account.assets := account.assets - {id};
      state.contents := Put(View(), account.address, Ledger.DropHolding(View().accounts[account.address], id));
      state.Recorded(account);
    }

    /** Removes one asset's holding from every account. */
    method DropAllHoldings(id: nat)
      requires Valid()
      modifies state, state.repr
      ensures Valid() && state.repr == old(state.repr)
      ensures View() == DropHoldings(old(View()), id, old(View()).accounts.Keys)
    {
      ghost var before := View();
      forall a
        ensures a in before.accounts <==> a in state.accounts
      {
        assert state.Mirrors(a);
      }
      var todo := state.accounts.Keys;
      assert DropHoldings(before, id, state.accounts.Keys - todo) == before;
      while todo != {}
        invariant Valid() && state.repr == old(state.repr) && state.accounts == old(state.accounts)
        invariant todo <= state.accounts.Keys
        invariant View() == DropHoldings(before, id, state.accounts.Keys - todo)
      {
        var a :| a in todo;
        assert state.Mirrors(a);
        DropOneMore(before, id, state.accounts.Keys - todo, a);
        DropHolding(state.accounts[a], id);
        assert state.accounts.Keys - todo + {a} == state.accounts.Keys - (todo - {a});
        todo := todo - {a};
      }
      assert state.accounts.Keys - todo == before.accounts.Keys;
    }

    method DestroyAsset(id: nat) returns (r: Check)
      requires Valid()
      modifies state, state.repr
      ensures Valid() && state.repr == old(state.repr)
      ensures Reaches(r, View(), Ledger.DestroyAsset(old(View()), id))
    {
      var creatorAcc :- GetAssetAccount(id);
      r := creatorAcc.DestroyAsset(id);
      state.contents := Put(View(), creatorAcc.address, creatorAcc.View());
      state.Recorded(creatorAcc);
      if r.Success? {
        DropAllHoldings(id);
      }
    }

    /** The part of a deployment before the approval program runs. */
    method EnterApp(from: Address, def: AppDefinition) returns (r: Check)
      requires Valid()
      modifies state, state.repr
      ensures Valid() && state.repr == old(state.repr)
      ensures Reaches(r, View(), Ledger.EnterApp(old(View()), txnType, from, def))
    {
      var senderAcc :- GetAccount(from);
      if !def.validPrograms {
        return Failure(InvalidDefinition);
      }
      if SchemaTooLarge(def) {
        return Failure(MaxSchemaEntriesExceeded);
      }
      senderAcc.AddApp(0, NewApp(from, def));
      state.contents := Put(View(), from, senderAcc.View());
      state.Recorded(senderAcc);
      var _ :- AssertAccBalAboveMin(from);
      label Added:
      state.globalApps := state.globalApps[0 := senderAcc.address];
      state.contents := View().(globalApps := state.globalApps);
      state.TablesChanged@Added();
      return Ok;
    }

    /** The part of a deployment that gives the application its id. */
    method NumberApp(from: Address) returns (r: Check)
      requires Valid() && from in View().accounts
      modifies state, state.repr
      ensures Valid() && state.repr == old(state.repr)
      ensures Reaches(r, View(), Ledger.NumberApp(old(View()), from))
    {
      assert state.Mirrors(from);
      var senderAcc := state.accounts[from];
      state.appCounter := state.appCounter + 1;
      state.globalApps := state.globalApps[state.appCounter := senderAcc.address];
      state.contents := View().(appCounter := state.appCounter, globalApps := state.globalApps);
      state.TablesChanged();
      var attributes :- GetApp(0);
      label Numbered:
      senderAcc.createdApps := senderAcc.createdApps - {0};
      state.globalApps := state.globalApps - {0};
      senderAcc.createdApps := senderAcc.createdApps[state.appCounter := attributes];
      state.contents := Put(View(), from, senderAcc.View()).(globalApps := state.globalApps);
      state.Recorded@Numbered(senderAcc);
      return Ok;
    }

    /** The part of a deployment after the approval program has run. */
    method FinishApp(from: Address, nameFree: bool) returns (r: Check)
      requires Valid()
      modifies state, state.repr
      ensures Valid() && fresh(state.repr - old(state.repr))
      ensures Reaches(r, View(), Ledger.FinishApp(old(View()), from, nameFree))
    {
      var _ :- GetAccount(from);
      var _ :- NumberApp(from);
      if !nameFree {
        return Failure(AppNameAlreadyUsed);
      }
      var acc := new AccountStore(0, AppAddress(state.appCounter));
      state.SetAccount(acc);
      return Ok;
    }

    method FindApp(id: nat) returns (r: Check)
      requires Valid()
      ensures Reaches(r, View(), Ledger.FindApp(View(), id))
    {
      var _ :- GetApp(id);
      return Ok;
    }

    method OptInToApp(a: Address, id: nat) returns (r: Check)
      requires Valid()
      modifies state, state.repr
      ensures Valid() && state.repr == old(state.repr)
      ensures Reaches(r, View(), Ledger.OptInToApp(old(View()), txnType, a, id))
    {
      var appParams :- GetApp(id);
      var account :- GetAccount(a);
      var opted := account.OptInToApp(id, appParams.localSchema);
      state.contents := Put(View(), a, account.View());
      state.Recorded(account);
      if opted.Failure? {
        return opted;
      }
      r := AssertAccBalAboveMin(a);
    }

    method CloseApp(sender: Address, id: nat) returns (r: Check)
      requires Valid()
      modifies state, state.repr
      ensures Valid() && state.repr == old(state.repr)
      ensures Reaches(r, View(), Ledger.CloseApp(old(View()), sender, id))
    {
      var fromAccount :- GetAccount(sender);
      var _ :- GetApp(id);
      r := fromAccount.CloseApp(id);
      state.contents := Put(View(), sender, fromAccount.View());
      state.Recorded(fromAccount);
    }

    method DeleteApp(id: nat) returns (r: Check)
      requires Valid()
      modifies state, state.repr
      ensures Valid() && state.repr == old(state.repr)
      ensures Reaches(r, View(), Ledger.DeleteApp(old(View()), id))
    {
      if id !in state.globalApps {
        return Failure(AppNotFound);
      }
      var account :- GetAccount(state.globalApps[id]);
      r := account.DeleteApp(id);
      state.contents := Put(View(), account.address, account.View());
      state.Recorded(account);
      if r.Success? {
        label Deleted:
        state.globalApps := state.globalApps - {id};
        state.contents := View().(globalApps := state.globalApps);
        state.TablesChanged@Deleted();
      }
    }

    /** Stores new programs with the application, in the table of its creator. */
    method ReplacePrograms(id: nat, programs: Programs) returns (r: Check)
      requires Valid()
      modifies state, state.repr
      ensures Valid() && state.repr == old(state.repr)
      ensures Reaches(r, View(), Ledger.ReplacePrograms(old(View()), id, programs))
    {
      var updatedApp :- GetApp(id);
      assert state.Mirrors(state.globalApps[id]);
      var account := state.accounts[state.globalApps[id]];
      account.createdApps := account.createdApps[id := updatedApp.(programs := programs)];
      state.contents := Put(View(), account.address, account.View());
      state.Recorded(account);
      return Ok;
    }

    /** Looks an account up and creates it if it is missing. */
    method CreateAccountIfAbsent(a: Address)
      requires Valid()
      modifies state
      ensures Valid() && fresh(state.repr - old(state.repr))
      ensures View() == CreateIfAbsent(old(View()), a)
    {
      assert state.Mirrors(a);
      if a !in state.accounts {
        var account := new AccountStore(0, a);
        state.SetAccount(account);
      }
    }

    /** Checks the fees of an outer group, and keeps what they leave. */
    method VerifyMinimumFees() returns (r: Check)
      modifies this`remainingFee
      ensures isInnerTx ==> r == Ok && remainingFee == old(remainingFee)
      ensures !isInnerTx ==> r == Ledger.VerifyMinimumFees(gtxs)
      ensures !isInnerTx ==> remainingFee == InnerFees.Credit(0, DeclaredFees(gtxs))
    {
      if isInnerTx {
        return Ok;
      }
      var credit := InnerFees.CalculateFeeCredit(DeclaredFees(gtxs));
      remainingFee := credit.remainingFee;
      if credit.remainingFee < 0 {
        return Failure(FeesNotEnough);
      }
      return Ok;
    }

    // ----- transactions that run no program -----

    method ProcessPay(tx: Tx) returns (r: Check)
      requires Valid() && tx.body.Pay? && txnType == PayTxn
      modifies state, state.repr
      ensures Valid() && fresh(state.repr - old(state.repr))
      ensures Reaches(r, View(), Ledger.ProcessPay(old(View()), tx))
    {
      CreateAccountIfAbsent(tx.body.to);
      r := TransferAlgo(tx.sender, tx.body.to, tx.body.amount, tx.closeRemainderTo);
    }

    method ProcessAssetConfig(tx: Tx) returns (r: Check)
      requires Valid() && txnType == AcfgTxn == tx.body.Type()
      modifies state, state.repr
      ensures Valid() && state.repr == old(state.repr)
      ensures Reaches(r, View(), Ledger.ProcessAsset(old(View()), tx))
    {
      match tx.body {
        case AssetCreate(def, validDef) =>
          r := DeployASA(tx.sender, def, validDef);
        case AssetReconfigure(id, fields) =>
          var asset :- GetAssetDef(id);
          var _ :- RequireRole(asset.roles.manager, tx.sender, ManagerError);
          r := ModifyAsset(id, fields);
        case AssetDestroy(id) =>
          var asset :- GetAssetDef(id);
          var _ :- RequireRole(asset.roles.manager, tx.sender, ManagerError);
          r := DestroyAsset(id);
        case AssetConfigNothing =>
          return Ok;
      }
    }

    method ProcessAssetTransfer(tx: Tx) returns (r: Check)
      requires Valid() && txnType == tx.body.Type() && (txnType == AxferTxn || txnType == AfrzTxn)
      modifies state, state.repr
      ensures Valid() && state.repr == old(state.repr)
      ensures Reaches(r, View(), Ledger.ProcessAsset(old(View()), tx))
    {
      match tx.body {
        case AssetTransfer(id, to, amount) =>
          r := TransferAsset(id, tx.sender, to, amount, tx.closeRemainderTo);
        case AssetRevoke(id, to, target, amount) =>
          var asset :- GetAssetDef(id);
          var _ :- RequireRole(asset.roles.clawback, tx.sender, ClawbackError);
          if tx.closeRemainderTo.Some? {
            return Failure(CannotCloseByClawback);
          }
          r := RevokeAsset(to, id, target, amount);
        case AssetFreeze(id, target, frozen) =>
          var asset :- GetAssetDef(id);
          var _ :- RequireRole(asset.roles.freeze, tx.sender, FreezeError);
          r := FreezeAsset(id, target, frozen);
      }
    }

    // ----- application transactions -----

    method ProcessCreate(tx: Tx) returns (r: Check)
      requires Valid() && tx.body.AppCreate? && txnType == ApplTxn
      modifies this, state, state.repr
      ensures Valid() && fresh(state.repr - old(state.repr))
      ensures Leads(r, Now(), Perform(old(Now()), BodySteps(tx)))
      ensures r.Success? ==> gtxs == old(gtxs)
      decreases tx, 0
    {
      var def, run := tx.body.app, tx.body.run;
      PerformAround(Now(), Enter(tx.sender, def), RunSteps(run), Finish(tx.sender, def.nameFree));
      var _ :- EnterApp(tx.sender, def);
      var _ :- RunProgram(run);
      r := FinishApp(tx.sender, def.nameFree);
    }

    method ProcessOptIn(tx: Tx) returns (r: Check)
      requires Valid() && tx.body.AppOptIn? && txnType == ApplTxn
      modifies this, state, state.repr
      ensures Valid() && fresh(state.repr - old(state.repr))
      ensures Leads(r, Now(), Perform(old(Now()), BodySteps(tx)))
      ensures r.Success? ==> gtxs == old(gtxs)
      decreases tx, 0
    {
      PerformFirst(Now(), Join(tx.sender, tx.body.id), RunSteps(tx.body.run));
      var _ :- OptInToApp(tx.sender, tx.body.id);
      r := RunProgram(tx.body.run);
    }

    method ProcessCall(tx: Tx) returns (r: Check)
      requires Valid() && tx.body.AppCall?
      modifies this, state, state.repr
      ensures Valid() && fresh(state.repr - old(state.repr))
      ensures Leads(r, Now(), Perform(old(Now()), BodySteps(tx)))
      ensures r.Success? ==> gtxs == old(gtxs)
      decreases tx, 0
    {
      PerformFirst(Now(), Find(tx.body.id), RunSteps(tx.body.run));
      var _ :- FindApp(tx.body.id);
      r := RunProgram(tx.body.run);
    }

    method ProcessCloseOut(tx: Tx) returns (r: Check)
      requires Valid() && tx.body.AppCloseOut?
      modifies this, state, state.repr
      ensures Valid() && fresh(state.repr - old(state.repr))
      ensures Leads(r, Now(), Perform(old(Now()), BodySteps(tx)))
      ensures r.Success? ==> gtxs == old(gtxs)
      decreases tx, 0
    {
      PerformAround(Now(), Find(tx.body.id), RunSteps(tx.body.run), Leave(tx.sender, tx.body.id));
      var _ :- FindApp(tx.body.id);
      var _ :- RunProgram(tx.body.run);
      r := CloseApp(tx.sender, tx.body.id);
    }

    method ProcessDelete(tx: Tx) returns (r: Check)
      requires Valid() && tx.body.AppDelete?
      modifies this, state, state.repr
      ensures Valid() && fresh(state.repr - old(state.repr))
      ensures Leads(r, Now(), Perform(old(Now()), BodySteps(tx)))
      ensures r.Success? ==> gtxs == old(gtxs)
      decreases tx, 0
    {
      PerformAround(Now(), Find(tx.body.id), RunSteps(tx.body.run), Step.Delete(tx.body.id));
      var _ :- FindApp(tx.body.id);
      var _ :- RunProgram(tx.body.run);
      r := DeleteApp(tx.body.id);
    }

    method ProcessUpdate(tx: Tx) returns (r: Check)
      requires Valid() && tx.body.AppUpdate?
      modifies this, state, state.repr
      ensures Valid() && fresh(state.repr - old(state.repr))
      ensures Leads(r, Now(), Perform(old(Now()), BodySteps(tx)))
      ensures r.Success? ==> gtxs == old(gtxs)
      decreases tx, 0
    {
      var id, programs := tx.body.id, tx.body.programs;
      UpdateInOrder(Now(), tx);
      if !tx.body.validPrograms {
        return Failure(InvalidDefinition);
      }
      var _ :- FindApp(id);
      var _ :- RunProgram(tx.body.run);
      r := ReplacePrograms(id, programs);
    }

    /** Whatever the clear-state program does, the account leaves the application. */
    method ProcessClear(tx: Tx) returns (r: Check)
      requires Valid() && tx.body.AppClear?
      modifies this, state, state.repr
      ensures Valid() && fresh(state.repr - old(state.repr))
      ensures Leads(r, Now(), Perform(old(Now()), BodySteps(tx)))
      ensures r.Success? ==> gtxs == old(gtxs)
      decreases tx, 0
    {
      PerformAround(Now(), Find(tx.body.id), ClearSteps(tx.body.run.actions), Leave(tx.sender, tx.body.id));
      var _ :- FindApp(tx.body.id);
      RunClear(tx.body.run);
      r := CloseApp(tx.sender, tx.body.id);
    }

    method RunClear(run: ProgramRun)
      requires Valid()
      modifies state
      ensures Valid() && fresh(state.repr - old(state.repr))
      ensures Perform(old(Now()), ClearSteps(run.actions)) == Success(Now())
    {
      var i := 0;
      while i < |run.actions| && run.actions[i].LookAt?
        invariant 0 <= i <= |run.actions|
        invariant Valid() && fresh(state.repr - old(state.repr))
        invariant Perform(old(Now()), ClearSteps(run.actions)) == Perform(Now(), ClearSteps(run.actions[i..]))
      {
        LookFirst(Now(), run.actions[i..]);
        CreateAccountIfAbsent(run.actions[i].account);
        i := i + 1;
      }
    }

    /** Runs a program: its actions in order, then its verdict. */
    method RunProgram(run: ProgramRun) returns (r: Check)
      requires Valid()
      modifies this, state, state.repr
      ensures Valid() && fresh(state.repr - old(state.repr))
      ensures Leads(r, Now(), Perform(old(Now()), RunSteps(run)))
      ensures r.Success? ==> gtxs == old(gtxs)
      decreases run
    {
      PerformLast(Now(), ActionSteps(run.actions), Verdict(run.approved));
      for i := 0 to |run.actions|
        invariant Valid() && fresh(state.repr - old(state.repr)) && gtxs == old(gtxs)
        invariant Perform(old(Now()), ActionSteps(run.actions)) == Perform(Now(), ActionSteps(run.actions[i..]))
      {
        ActionFirst(Now(), run.actions[i..]);
        assert run.actions[i..][0] == run.actions[i] && run.actions[i..][1..] == run.actions[i + 1..];
        var _ :- Act(run.actions[i]);
      }
      return if run.approved then Ok else Failure(RejectedByLogic);
    }

    method Act(action: Action) returns (r: Check)
      requires Valid()
      modifies this, state, state.repr
      ensures Valid() && fresh(state.repr - old(state.repr))
      ensures Leads(r, Now(), Perform(old(Now()), StepsOf(action)))
      ensures r.Success? ==> gtxs == old(gtxs)
      decreases action, 1
    {
      match action {
        case LookAt(a) =>
          CreateAccountIfAbsent(a);
          return Ok;
        case Submit(group) =>
          r := SubmitGroup(group);
      }
    }

    /** Submits a group of inner transactions on the same ledger, if the credit covers them, and unless
        the group is of a kind that is not supported. */
    method SubmitGroup(group: seq<Tx>) returns (r: Check)
      requires Valid()
      modifies this, state, state.repr
      ensures Valid() && fresh(state.repr - old(state.repr))
      ensures Leads(r, Now(), Perform(old(Now()), StepsOf(Submit(group))))
      ensures r.Success? ==> gtxs == old(gtxs)
      decreases group, 3
    {
      PerformFirst(Now(), Settle(group), if Submittable(group) then GroupSteps(group) else []);
      var credit := InnerFees.CalculateFeeCredit(DeclaredFees(group));
      if credit.remainingFee + remainingFee < 0 {
        return Failure(FeesNotEnough);
      }
      for i := 0 to |group|
        invariant Submittable(group[..i])
      {
        assert group[..i + 1][i] == group[i];
        if group[i].body.Type() == ApplTxn && !group[i].body.AppCall? {
          return Ok;
        }
      }
      assert group[..|group|] == group;
      var baseCurrTxGrp := gtxs;
      remainingFee := credit.remainingFee + remainingFee;
      gtxs, isInnerTx := group, true;
      var _ :- ProcessTransactions(group);
      gtxs, isInnerTx := baseCurrTxGrp, false;
      return Ok;
    }

    // ----- transactions and groups -----

    method ProcessBody(tx: Tx) returns (r: Check)
      requires Valid() && txnType == tx.body.Type()
      modifies this, state, state.repr
      ensures Valid() && fresh(state.repr - old(state.repr))
      ensures Leads(r, Now(), Perform(old(Now()), BodySteps(tx)))
      ensures r.Success? ==> gtxs == old(gtxs)
      decreases tx, 1
    {
      match txnType {
        case PayTxn => r := ProcessPay(tx);
        case KeyregTxn => return Ok;
        case ApplTxn => r := ProcessApplication(tx);
        case AcfgTxn => r := ProcessAssetConfig(tx);
        case AxferTxn => r := ProcessAssetTransfer(tx);
        case AfrzTxn => r := ProcessAssetTransfer(tx);
      }
    }

    method ProcessApplication(tx: Tx) returns (r: Check)
      requires Valid() && txnType == ApplTxn == tx.body.Type()
      modifies this, state, state.repr
      ensures Valid() && fresh(state.repr - old(state.repr))
      ensures Leads(r, Now(), Perform(old(Now()), BodySteps(tx)))
      ensures r.Success? ==> gtxs == old(gtxs)
      decreases tx, 1, 0
    {
      match tx.body {
        case AppCreate(_, _) => r := ProcessCreate(tx);
        case AppCall(_, _) => r := ProcessCall(tx);
        case AppOptIn(_, _) => r := ProcessOptIn(tx);
        case AppCloseOut(_, _) => r := ProcessCloseOut(tx);
        case AppClear(_, _) => r := ProcessClear(tx);
        case AppDelete(_, _) => r := ProcessDelete(tx);
        case AppUpdate(_, _, _, _) => r := ProcessUpdate(tx);
      }
    }

    /** Fee, signature, and one of the transactions a context may begin. */
    method BeginTx(index: nat) returns (r: Check)
      requires Valid() && index < |gtxs| && txnType == gtxs[index].body.Type()
      modifies this`remainingTxns, state, state.repr
      ensures Valid() && state.repr == old(state.repr)
      ensures Leads(r, Now(), Apply(old(Now()), Begin(gtxs[index])))
    {
      var tx := gtxs[index];
      var _ :- DeductFee(tx.sender, index);
      if !tx.authorized {
        return Failure(InvalidSignature);
      }
      if remainingTxns == 0 {
        return Failure(TooManyTransactions);
      }
      remainingTxns := remainingTxns - 1;
      return Ok;
    }

    method ProcessTx(index: nat) returns (r: Check)
      requires Valid() && index < |gtxs|
      modifies this, state, state.repr
      ensures Valid() && fresh(state.repr - old(state.repr))
      ensures Leads(r, Now(), Perform(old(Now()), Steps(old(gtxs)[index])))
      ensures r.Success? ==> gtxs == old(gtxs)
      decreases gtxs[index], 2
    {
      var tx := gtxs[index];
      PerformFirst(Now(), Begin(tx), BodySteps(tx));
      txnType := tx.body.Type();
      var _ :- BeginTx(index);
      r := ProcessBody(tx);
    }

    /** Where a group starts: an outer group with a credit of its own, an inner one with the credit its
        submission left. */
    ghost function Begun(signed: seq<Tx>): Session
      reads this, state
    {
      if isInnerTx then Now() else Now().(credit := InnerFees.Credit(0, DeclaredFees(signed)))
    }

    /** Runs the whole group, which is also the current one; the first error stops it. Fees are pooled
        over an outer group; those of an inner group are checked where it is submitted. */
    method ProcessTransactions(signed: seq<Tx>) returns (r: Check)
      requires Valid() && gtxs == signed
      modifies this, state, state.repr
      ensures Valid() && fresh(state.repr - old(state.repr))
      ensures if !old(isInnerTx) && Ledger.VerifyMinimumFees(signed).Failure?
              then r == Failure(FeesNotEnough)
              else Leads(r, Now(), Perform(old(Begun(signed)), GroupSteps(signed))) && (r.Success? ==> gtxs == signed)
      decreases signed, 2
    {
      var _ :- VerifyMinimumFees();
      for i := 0 to |signed|
        invariant Valid() && fresh(state.repr - old(state.repr)) && gtxs == signed
        invariant Perform(old(Begun(signed)), GroupSteps(signed)) == Perform(Now(), GroupSteps(signed[i..]))
      {
        GroupFirst(Now(), signed[i..]);
        assert signed[i..][0] == signed[i] && signed[i..][1..] == signed[i + 1..];
        var _ :- ProcessTx(i);
      }
      return Ok;
    }
  }
}
