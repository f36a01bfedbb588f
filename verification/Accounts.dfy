/** One Algorand account: its balance, its asset holdings and its applications.

    `Account` is the value an account has at one moment, with the effect of each account
    operation as a function; `AccountStore` is the object the simulator updates in place, and
    each of its methods is proved to have exactly that effect. */
module Accounts {
  import opened Wrappers

  const ACCOUNT_MIN_BALANCE := 100000
  const ASSET_CREATION_FEE := 100000
  const APPLICATION_BASE_FEE := 100000
  const VALUE_UINT_FEE := 28500
  const VALUE_BYTES_FEE := 50000

  /** The address of an application is a hash of its id, taken here to be injective and
      never equal to an address somebody holds a key for. */
  datatype Address = Key(name: string) | AppAddress(appId: nat)

  datatype Error =
    | AccountDoesNotExist
    | InsufficientBalance
    | InvalidCloseRemainderTo
    | FeesNotEnough
    | FeeUndefined
    | InvalidSignature
    | TooManyTransactions
    | AssetNotFound
    | AssetNotOptedIn
    | AssetFrozen
    | InsufficientAssets
    | CannotCloseByCreator
    | CannotCloseByClawback
    | AssetTotalError
    | BlankAddressError
    | ManagerError
    | ClawbackError
    | FreezeError
    | InvalidDefinition
    | AppNotFound
    | AlreadyOptedIn
    | MaxSchemaEntriesExceeded
    | InvalidSchema
    | AppNameAlreadyUsed
    | RejectedByLogic
    | InvalidRound
    | DuplicateTransaction
    | BlockNotProduced
    | InvalidBlock
    | RoundNotAvailable

  /** The outcome of an operation that may throw and returns nothing. */
  type Check = Result<(), Error>

  const Ok: Check := Success(())

  /** The four addresses an asset's manager may change; `None` is a blank role. */
  datatype Roles = Roles(
    manager: Option<Address>, reserve: Option<Address>, freeze: Option<Address>, clawback: Option<Address>)

  datatype AssetDef = AssetDef(total: nat, defaultFrozen: bool, roles: Roles)
  datatype AssetParams = AssetParams(creator: Address, total: int, defaultFrozen: bool, roles: Roles)
  datatype Holding = Holding(amount: int, creator: Address, frozen: bool)

  datatype Schema = Schema(uints: nat, byteSlices: nat)
  datatype Programs = Programs(approval: string, clear: string)
  datatype App = App(creator: Address, globalSchema: Schema, localSchema: Schema, programs: Programs)

  function SchemaFee(s: Schema): int {
    APPLICATION_BASE_FEE + VALUE_UINT_FEE * s.uints + VALUE_BYTES_FEE * s.byteSlices
  }

  function CreationFee(app: App): int {
    SchemaFee(app.globalSchema)
  }

  /** What a reconfiguration says about a role: nothing, that it becomes blank, or who gets it. A
      transaction says something about every role: one that it leaves out becomes blank. */
  datatype RoleField = Unset | Blank | To(address: Address)

  datatype RoleFields = RoleFields(manager: RoleField, reserve: RoleField, freeze: RoleField, clawback: RoleField)

  /** Giving a blank role to someone is an error; nothing else is. */
  function ModifyRole(current: Option<Address>, field: RoleField): Result<Option<Address>, Error> {
    if field.To? && current.None? then Failure(BlankAddressError)
    else if !field.Unset? && current.Some? then Success(if field.To? then Some(field.address) else None)
    else Success(current)
  }

  function ModifyRoles(current: Roles, fields: RoleFields): Result<Roles, Error> {
    var manager :- ModifyRole(current.manager, fields.manager);
    var reserve :- ModifyRole(current.reserve, fields.reserve);
    var freeze :- ModifyRole(current.freeze, fields.freeze);
    var clawback :- ModifyRole(current.clawback, fields.clawback);
    Success(Roles(manager, reserve, freeze, clawback))
  }

  datatype Account = Account(
    amount: int,
    minBalance: int,
    assets: map<nat, Holding>,
    createdAssets: map<nat, AssetParams>,
    createdApps: map<nat, App>,
    appsLocalState: map<nat, Schema>)
  {
    function AddAsset(self: Address, id: nat, def: AssetDef): Account {
      this.(minBalance := minBalance + ASSET_CREATION_FEE,
            createdAssets := createdAssets[id := AssetParams(self, def.total, def.defaultFrozen, def.roles)],
            assets := assets[id := Holding(def.total, self, false)])
    }

    function ModifyAsset(id: nat, fields: RoleFields): Result<Account, Error> {
      if id !in createdAssets then Failure(AssetNotFound)
      else
        var roles :- ModifyRoles(createdAssets[id].roles, fields);
        Success(this.(createdAssets := createdAssets[id := createdAssets[id].(roles := roles)]))
    }

    function CloseAsset(id: nat): Account {
      if id in assets then
        this.(minBalance := minBalance - ASSET_CREATION_FEE, assets := assets - {id})
      else this
    }

    function SetFreezeState(id: nat, frozen: bool): Result<Account, Error> {
      if id !in assets then Failure(AssetNotOptedIn)
      else Success(this.(assets := assets[id := assets[id].(frozen := frozen)]))
    }

    function DestroyAsset(id: nat): Result<Account, Error> {
      if id !in assets || id !in createdAssets then Failure(AssetNotFound)
      else if assets[id].amount != createdAssets[id].total then Failure(AssetTotalError)
      else Success(this.(minBalance := minBalance - ASSET_CREATION_FEE,
                         createdAssets := createdAssets - {id},
                         assets := assets - {id}))
    }

    function OptInToASA(id: nat, holding: Holding): Account {
      if id in assets then this
      else this.(minBalance := minBalance + ASSET_CREATION_FEE, assets := assets[id := holding])
    }

    function AddApp(id: nat, app: App): Account {
      this.(minBalance := minBalance + SchemaFee(app.globalSchema), createdApps := createdApps[id := app])
    }

    function DeleteApp(id: nat): Result<Account, Error> {
      if id !in createdApps then Failure(AppNotFound)
      else Success(this.(minBalance := minBalance - SchemaFee(createdApps[id].globalSchema),
                         createdApps := createdApps - {id}))
    }

    /** Only the programs of an application may be replaced. */
    function ReplacePrograms(id: nat, programs: Programs): Result<Account, Error> {
      if id !in createdApps then Failure(AppNotFound)
      else Success(this.(createdApps := createdApps[id := createdApps[id].(programs := programs)]))
    }

    function OptInToApp(id: nat, schema: Schema): Result<Account, Error> {
      if id in appsLocalState then Failure(AlreadyOptedIn)
      else Success(this.(minBalance := minBalance + SchemaFee(schema),
                         appsLocalState := appsLocalState[id := schema]))
    }

    function CloseApp(id: nat): Result<Account, Error> {
      if id !in appsLocalState then Failure(AppNotFound)
      else Success(this.(minBalance := minBalance - SchemaFee(appsLocalState[id]),
                         appsLocalState := appsLocalState - {id}))
    }
  }

  function EmptyAccount(balance: int): Account {
    Account(balance, ACCOUNT_MIN_BALANCE, map[], map[], map[], map[])
  }

  /** What a call that may throw left behind: the value the specification predicts, or its error. */
  predicate Meets(r: Check, now: Account, spec: Result<Account, Error>) {
    match spec
    case Success(expected) => r == Ok && now == expected
    case Failure(e) => r == Failure(e)
  }

  class AccountStore {
    const address: Address
    var amount: int
    var minBalance: int
    var assets: map<nat, Holding>
    var createdAssets: map<nat, AssetParams>
    var createdApps: map<nat, App>
    var appsLocalState: map<nat, Schema>

    constructor (balance: int, address: Address)
      ensures View() == EmptyAccount(balance) && this.address == address
    {
      this.address := address;
      amount, minBalance := balance, ACCOUNT_MIN_BALANCE;
      assets, createdAssets, createdApps, appsLocalState := map[], map[], map[], map[];
    }

    /** A deep copy of `other`. */
    constructor Clone(other: AccountStore)
      ensures View() == other.View() && address == other.address
    {
      address := other.address;
      amount, minBalance := other.amount, other.minBalance;
      assets, createdAssets := other.assets, other.createdAssets;
      createdApps, appsLocalState := other.createdApps, other.appsLocalState;
    }

    ghost function View(): Account
      reads this
    {
      Account(amount, minBalance, assets, createdAssets, createdApps, appsLocalState)
    }

    method AddAsset(id: nat, def: AssetDef)
      modifies this
      ensures View() == old(View()).AddAsset(address, id, def)
    {
      minBalance := minBalance + ASSET_CREATION_FEE;
      createdAssets := createdAssets[id := AssetParams(address, def.total, def.defaultFrozen, def.roles)];
      assets := assets[id := Holding(def.total, address, false)];
    }

    method ModifyAsset(id: nat, fields: RoleFields) returns (r: Check)
      modifies this
      ensures Meets(r, View(), old(View()).ModifyAsset(id, fields))
    {
      if id !in createdAssets {
        return Failure(AssetNotFound);
      }
      var params := createdAssets[id];
      match ModifyRoles(params.roles, fields) {
        case Failure(e) =>
          return Failure(e);
        case Success(roles) =>
          createdAssets := createdAssets[id := params.(roles := roles)];
          return Ok;
      }
    }

    method CloseAsset(id: nat)
      modifies this
      ensures View() == old(View()).CloseAsset(id)
    {
      if id in assets {
        minBalance := minBalance - ASSET_CREATION_FEE;
        assets := assets - {id};
      }
    }

    method SetFreezeState(id: nat, frozen: bool) returns (r: Check)
      modifies this
      ensures Meets(r, View(), old(View()).SetFreezeState(id, frozen))
    {
      if id !in assets {
        return Failure(AssetNotOptedIn);
      }
      assets := assets[id := assets[id].(frozen := frozen)];
      return Ok;
    }

    method DestroyAsset(id: nat) returns (r: Check)
      modifies this
      ensures Meets(r, View(), old(View()).DestroyAsset(id))
    {
      if id !in assets || id !in createdAssets {
        return Failure(AssetNotFound);
      }
      if assets[id].amount != createdAssets[id].total {
        return Failure(AssetTotalError);
      }
      minBalance := minBalance - ASSET_CREATION_FEE;
      createdAssets := createdAssets - {id};
      assets := assets - {id};
      return Ok;
    }

    method OptInToASA(id: nat, holding: Holding)
      modifies this
      ensures View() == old(View()).OptInToASA(id, holding)
    {
      if id !in assets {
        minBalance := minBalance + ASSET_CREATION_FEE;
        assets := assets[id := holding];
      }
    }

    method AddApp(id: nat, app: App)
      modifies this
      ensures View() == old(View()).AddApp(id, app)
    {
      minBalance := minBalance + APPLICATION_BASE_FEE
        + VALUE_UINT_FEE * app.globalSchema.uints + VALUE_BYTES_FEE * app.globalSchema.byteSlices;
      createdApps := createdApps[id := app];
    }

    method DeleteApp(id: nat) returns (r: Check)
      modifies this
      ensures Meets(r, View(), old(View()).DeleteApp(id))
    {
      if id !in createdApps {
        return Failure(AppNotFound);
      }
      minBalance := minBalance - SchemaFee(createdApps[id].globalSchema);
      createdApps := createdApps - {id};
      return Ok;
    }

    method OptInToApp(id: nat, schema: Schema) returns (r: Check)
      modifies this
      ensures Meets(r, View(), old(View()).OptInToApp(id, schema))
    {
      if id in appsLocalState {
        return Failure(AlreadyOptedIn);
      }
      minBalance := minBalance + SchemaFee(schema);
      appsLocalState := appsLocalState[id := schema];
      return Ok;
    }

    method CloseApp(id: nat) returns (r: Check)
      modifies this
      ensures Meets(r, View(), old(View()).CloseApp(id))
    {
      if id !in appsLocalState {
        return Failure(AppNotFound);
      }
      minBalance := minBalance - SchemaFee(appsLocalState[id]);
      appsLocalState := appsLocalState - {id};
      return Ok;
    }
  }
}

/** The minimum balance of an account is a closed form of what the account holds. */
module MinimumBalance {
  import opened Wrappers
  import opened Accounts
  import MapSums

  /** What an account must keep: a base amount, one fee per asset holding, and one fee per
      application it created or opted in to, by the size of the schema. */
  ghost function Required(acc: Account): int {
    ACCOUNT_MIN_BALANCE + ASSET_CREATION_FEE * |acc.assets|
    + MapSums.Total(acc.createdApps, CreationFee) + MapSums.Total(acc.appsLocalState, SchemaFee)
  }

  ghost predicate Exact(acc: Account) {
    acc.minBalance == Required(acc)
  }

  lemma RequiredIsPositive(acc: Account)
    ensures Required(acc) >= ACCOUNT_MIN_BALANCE
  {
    MapSums.NonNegative(acc.createdApps, CreationFee);
    MapSums.NonNegative(acc.appsLocalState, SchemaFee);
  }

  /** How far the recorded minimum lies above the closed form. */
  ghost function Excess(acc: Account): int {
    acc.minBalance - Required(acc)
  }

  datatype Op =
    | AddAsset(id: nat, def: AssetDef)
    | OptInToASA(id: nat, holding: Holding)
    | CloseAsset(id: nat)
    | DestroyAsset(id: nat)
    | SetFreezeState(id: nat, frozen: bool)
    | ModifyAsset(id: nat, fields: RoleFields)
    | AddApp(id: nat, app: App)
    | DeleteApp(id: nat)
    | ReplacePrograms(id: nat, programs: Programs)
    | OptInToApp(id: nat, schema: Schema)
    | CloseApp(id: nat)

  function Apply(acc: Account, self: Address, op: Op): Result<Account, Error> {
    match op
    case AddAsset(id, def) => Success(acc.AddAsset(self, id, def))
    case OptInToASA(id, holding) => Success(acc.OptInToASA(id, holding))
    case CloseAsset(id) => Success(acc.CloseAsset(id))
    case DestroyAsset(id) => acc.DestroyAsset(id)
    case SetFreezeState(id, frozen) => acc.SetFreezeState(id, frozen)
    case ModifyAsset(id, fields) => acc.ModifyAsset(id, fields)
    case AddApp(id, app) => Success(acc.AddApp(id, app))
    case DeleteApp(id) => acc.DeleteApp(id)
    case ReplacePrograms(id, programs) => acc.ReplacePrograms(id, programs)
    case OptInToApp(id, schema) => acc.OptInToApp(id, schema)
    case CloseApp(id) => acc.CloseApp(id)
  }

  /** Creating under an id the account already uses replaces the entry but charges for a second one. */
  ghost function Overcharge(acc: Account, op: Op): int {
    match op
    case AddAsset(id, _) => if id in acc.assets then ASSET_CREATION_FEE else 0
    case AddApp(id, _) => if id in acc.createdApps then CreationFee(acc.createdApps[id]) else 0
    case _ => 0
  }

  lemma AssetExcess(acc: Account, self: Address, op: Op)
    requires op.AddAsset? || op.OptInToASA? || op.CloseAsset? || op.DestroyAsset? || op.SetFreezeState?
             || op.ModifyAsset?
    requires Apply(acc, self, op).Success?
    ensures Excess(Apply(acc, self, op).value) == Excess(acc) + Overcharge(acc, op)
  {
    match op
    case AddAsset(id, def) =>
      MapSums.CountPut(acc.assets, id, Holding(def.total, self, false));
    case OptInToASA(id, holding) =>
      MapSums.CountPut(acc.assets, id, holding);
    case CloseAsset(id) =>
      if id in acc.assets {
        MapSums.CountRemove(acc.assets, id);
      }
    case DestroyAsset(id) =>
      MapSums.CountRemove(acc.assets, id);
    case SetFreezeState(id, frozen) =>
      MapSums.CountPut(acc.assets, id, acc.assets[id].(frozen := frozen));
    case ModifyAsset(_, _) =>
  }

  lemma AppExcess(acc: Account, self: Address, op: Op)
    requires op.AddApp? || op.DeleteApp? || op.ReplacePrograms? || op.OptInToApp? || op.CloseApp?
    requires Apply(acc, self, op).Success?
    ensures Excess(Apply(acc, self, op).value) == Excess(acc) + Overcharge(acc, op)
  {
    match op
    case AddApp(id, app) =>
      MapSums.Put(acc.createdApps, CreationFee, id, app);
    case DeleteApp(id) =>
      MapSums.Remove(acc.createdApps, CreationFee, id);
    case ReplacePrograms(id, programs) =>
      MapSums.Put(acc.createdApps, CreationFee, id, acc.createdApps[id].(programs := programs));
    case OptInToApp(id, schema) =>
      MapSums.Put(acc.appsLocalState, SchemaFee, id, schema);
    case CloseApp(id) =>
      MapSums.Remove(acc.appsLocalState, SchemaFee, id);
  }

  /** One operation moves the recorded minimum and the closed form together, but for an overcharge. */
  lemma ApplyExcess(acc: Account, self: Address, op: Op)
    requires Apply(acc, self, op).Success?
    ensures Excess(Apply(acc, self, op).value) == Excess(acc) + Overcharge(acc, op)
  {
    if op.AddApp? || op.DeleteApp? || op.ReplacePrograms? || op.OptInToApp? || op.CloseApp? {
      AppExcess(acc, self, op);
    } else {
      AssetExcess(acc, self, op);
    }
  }

  /** Runs `ops` in order; an operation that throws leaves the account as it was. */
  function Run(acc: Account, self: Address, ops: seq<Op>): Account
    decreases |ops|
  {
    if ops == [] then acc
    else
      var next := match Apply(acc, self, ops[0]) case Success(after) => after case Failure(_) => acc;
      Run(next, self, ops[1..])
  }

  /** Every creation in the run uses an id the account does not hold at that moment. */
  predicate FreshIds(acc: Account, self: Address, ops: seq<Op>)
    decreases |ops|
  {
    ops == [] ||
    ((ops[0].AddAsset? ==> ops[0].id !in acc.assets) &&
     (ops[0].AddApp? ==> ops[0].id !in acc.createdApps) &&
     var next := match Apply(acc, self, ops[0]) case Success(after) => after case Failure(_) => acc;
     FreshIds(next, self, ops[1..]))
  }

  lemma {:induction false} RunMovesExcessUp(acc: Account, self: Address, ops: seq<Op>)
    ensures Excess(Run(acc, self, ops)) >= Excess(acc)
    ensures Excess(Run(acc, self, ops)) == Excess(acc) <==> FreshIds(acc, self, ops)
    decreases |ops|
  {
    if ops != [] {
      var next := match Apply(acc, self, ops[0]) case Success(after) => after case Failure(_) => acc;
      if Apply(acc, self, ops[0]).Success? {
        ApplyExcess(acc, self, ops[0]);
      }
      RunMovesExcessUp(next, self, ops[1..]);
    }
  }

  lemma EmptyAccountIsExact(balance: int)
    ensures Exact(EmptyAccount(balance))
  {
  }

  /** From a new account, the recorded minimum balance is the closed form after any run of
      account operations exactly when every creation used a fresh id, and is never below it. */
  lemma {:induction false} MinBalanceClosedForm(balance: int, self: Address, ops: seq<Op>)
    ensures var end := Run(EmptyAccount(balance), self, ops);
            && end.minBalance >= Required(end)
            && (Exact(end) <==> FreshIds(EmptyAccount(balance), self, ops))
  {
    EmptyAccountIsExact(balance);
    RunMovesExcessUp(EmptyAccount(balance), self, ops);
  }
}
