/** The ledger as a value, and what each transaction does to it.

    A transaction is a list of steps. The steps of a program's inner transactions stand where the
    program submits them, so that a group, however deeply its programs call each other, is one
    list. Every function on ledgers takes the ledger before a step and gives the ledger after it,
    or the error the step throws; checks are made in the order the simulator makes them. */
module Ledger {
  import opened Wrappers
  import opened Accounts
  import opened Limits
  import InnerFees

  const MAX_GROUP_TXNS := 256
  const MAX_GLOBAL_SCHEMA_ENTRIES := 64
  const MAX_LOCAL_SCHEMA_ENTRIES := 16
  const FIRST_FREE_ID := 8

  datatype Block = Block(timestamp: int)

  datatype State = State(
    accounts: map<Address, Account>,
    globalApps: map<nat, Address>,
    assetDefs: map<nat, Address>,
    appCounter: nat,
    assetCounter: nat,
    blocks: map<nat, Block>)

  datatype TxnType = PayTxn | KeyregTxn | ApplTxn | AcfgTxn | AxferTxn | AfrzTxn

  /** `validPrograms` stands for the checks on the two program texts, `nameFree` for the check
      on the application's name. */
  datatype AppDefinition = AppDefinition(
    validPrograms: bool, nameFree: bool, programs: Programs, globalSchema: Schema, localSchema: Schema)

  /** What a program does to the ledger: it may look at an account, which creates the account if it
      is missing, and submit groups of inner transactions. */
  datatype Action = LookAt(account: Address) | Submit(group: seq<Tx>)

  /** One run of a program. `approved` is its verdict, and false as well if it fails. */
  datatype ProgramRun = ProgramRun(actions: seq<Action>, approved: bool)

  datatype TxBody =
    | Pay(to: Address, amount: nat)
    | KeyReg
    | AssetCreate(def: AssetDef, validDef: bool)
    | AssetReconfigure(id: nat, fields: RoleFields)
    | AssetDestroy(id: nat)
    | AssetConfigNothing
    | AssetTransfer(id: nat, to: Address, amount: nat)
    | AssetRevoke(id: nat, to: Address, target: Address, amount: nat)
    | AssetFreeze(id: nat, target: Address, frozen: bool)
    | AppCreate(app: AppDefinition, run: ProgramRun)
    | AppCall(id: nat, run: ProgramRun)
    | AppOptIn(id: nat, run: ProgramRun)
    | AppCloseOut(id: nat, run: ProgramRun)
    | AppClear(id: nat, run: ProgramRun)
    | AppDelete(id: nat, run: ProgramRun)
    | AppUpdate(id: nat, programs: Programs, validPrograms: bool, run: ProgramRun)
  {
    function Type(): TxnType {
      match this
      case Pay(_, _) => PayTxn
      case KeyReg => KeyregTxn
      case AssetCreate(_, _) => AcfgTxn
      case AssetReconfigure(_, _) => AcfgTxn
      case AssetDestroy(_) => AcfgTxn
      case AssetConfigNothing => AcfgTxn
      case AssetTransfer(_, _, _) => AxferTxn
      case AssetRevoke(_, _, _, _) => AxferTxn
      case AssetFreeze(_, _, _) => AfrzTxn
      case _ => ApplTxn
    }
  }

  /** `authorized` is the verdict of the signature, multisignature or logic signature check. */
  datatype Tx = Tx(
    txID: string,
    sender: Address,
    fee: Option<nat>,
    flatFee: bool,
    firstValid: Option<nat>,
    lastValid: nat,
    closeRemainderTo: Option<Address>,
    authorized: bool,
    body: TxBody)

  /** What a call that may throw left behind: the ledger the specification predicts, or its error. */
  predicate Reaches(r: Check, now: State, spec: Result<State, Error>) {
    match spec
    case Success(expected) => r == Ok && now == expected
    case Failure(e) => r == Failure(e)
  }

  // ----- the first ledger -----

  const FEE_SINK := Key("AAAAAAAAAAAAAAAAAAAAAAAAAAAAAAAAAAAAAAAAAAAAAAAAAAAAY5HFKQ")

  const NOTHING := State(map[], map[], map[], FIRST_FREE_ID, FIRST_FREE_ID, map[])

  /** Enters an account with everything it has created. */
  function Enroll(s: State, a: Address, acc: Account): State {
    Put(s, a, acc).(globalApps := s.globalApps + map id | id in acc.createdApps :: a,
                    assetDefs := s.assetDefs + map id | id in acc.createdAssets :: a)
  }

  function EnrollAll(s: State, who: seq<(Address, Account)>): State {
    if who == [] then s
    else
      var n := |who| - 1;
      Enroll(EnrollAll(s, who[..n]), who[n].0, who[n].1)
  }

  /** Enters the accounts in order, and then the account that stands for the fee sink. */
  function InitializeAccounts(s: State, who: seq<(Address, Account)>): State {
    Put(EnrollAll(s, who), FEE_SINK, EmptyAccount(ACCOUNT_MIN_BALANCE))
  }

  // ----- reading -----

  function GetAccount(s: State, a: Address): Result<Account, Error> {
    if a in s.accounts then Success(s.accounts[a]) else Failure(AccountDoesNotExist)
  }

  function GetAssetAccount(s: State, id: nat): Result<Address, Error> {
    if id !in s.assetDefs then Failure(AssetNotFound)
    else if s.assetDefs[id] !in s.accounts then Failure(AccountDoesNotExist)
    else Success(s.assetDefs[id])
  }

  function GetAssetDef(s: State, id: nat): Result<AssetParams, Error> {
    var creator :- GetAssetAccount(s, id);
    if id in s.accounts[creator].createdAssets then Success(s.accounts[creator].createdAssets[id])
    else Failure(AssetNotFound)
  }

  function GetAssetHolding(s: State, id: nat, a: Address): Result<Holding, Error> {
    var acc :- GetAccount(s, a);
    if id in acc.assets then Success(acc.assets[id]) else Failure(AssetNotOptedIn)
  }

  function GetApp(s: State, id: nat): Result<App, Error> {
    if id !in s.globalApps then Failure(AppNotFound)
    else
      var acc :- GetAccount(s, s.globalApps[id]);
      if id in acc.createdApps then Success(acc.createdApps[id]) else Failure(AppNotFound)
  }

  function AssertAccBalAboveMin(s: State, t: TxnType, a: Address): Check {
    var acc :- GetAccount(s, a);
    if acc.amount < acc.minBalance && t == PayTxn then Failure(InsufficientBalance) else Ok
  }

  function AssertAssetNotFrozen(s: State, id: nat, a: Address): Check {
    var h :- GetAssetHolding(s, id, a);
    if h.frozen then Failure(AssetFrozen) else Ok
  }

  // ----- writing one account -----

  function Put(s: State, a: Address, acc: Account): State {
    s.(accounts := s.accounts[a := acc])
  }

  function SetAmount(s: State, a: Address, amount: int): State
    requires a in s.accounts
  {
    Put(s, a, s.accounts[a].(amount := amount))
  }

  function AddAmount(s: State, a: Address, delta: int): State
    requires a in s.accounts
  {
    SetAmount(s, a, s.accounts[a].amount + delta)
  }

  predicate Holds(s: State, a: Address, id: nat) {
    a in s.accounts && id in s.accounts[a].assets
  }

  function AddHolding(s: State, a: Address, id: nat, delta: int): State
    requires Holds(s, a, id)
  {
    var acc := s.accounts[a];
    Put(s, a, acc.(assets := acc.assets[id := acc.assets[id].(amount := acc.assets[id].amount + delta)]))
  }

  // ----- Algos -----

  /** The fee a transaction is charged: what it declares, raised to the minimum unless it is flat. */
  function FeeDue(tx: Tx): Result<nat, Error> {
    if tx.flatFee then Success(match tx.fee case Some(f) => f case None => 0)
    else
      match tx.fee
      case None => Failure(FeeUndefined)
      case Some(f) => Success(if f < MIN_TX_FEE then MIN_TX_FEE else f)
  }

  function DeductFee(s: State, tx: Tx): Result<State, Error> {
    var fee :- FeeDue(tx);
    var acc :- GetAccount(s, tx.sender);
    if acc.amount < fee then Failure(InsufficientBalance)
    else
      var s1 := AddAmount(s, tx.sender, 0 - fee);
      var _ :- AssertAccBalAboveMin(s1, tx.body.Type(), tx.sender);
      Success(s1)
  }

  /** Empties the sender's account into `closeTo`. */
  function CloseRemainder(s: State, from: Address, closeTo: Address): Result<State, Error>
    requires from in s.accounts
  {
    if closeTo == from then Failure(InvalidCloseRemainderTo)
    else
      var _ :- GetAccount(s, closeTo);
      var s1 := AddAmount(s, closeTo, s.accounts[from].amount);
      Success(SetAmount(s1, from, 0))
  }

  function TransferAlgo(
      s: State, t: TxnType, from: Address, to: Address, amount: nat, closeTo: Option<Address>): Result<State, Error>
  {
    var _ :- GetAccount(s, from);
    var _ :- GetAccount(s, to);
    var s1 := AddAmount(AddAmount(s, from, 0 - amount), to, amount);
    var _ :- AssertAccBalAboveMin(s1, t, from);
    match closeTo
    case None => Success(s1)
    case Some(c) => CloseRemainder(s1, from, c)
  }

  function ProcessPay(s: State, tx: Tx): Result<State, Error>
    requires tx.body.Pay?
  {
    var to := tx.body.to;
    var s1 := if to in s.accounts then s else Put(s, to, EmptyAccount(0));
    TransferAlgo(s1, PayTxn, tx.sender, to, tx.body.amount, tx.closeRemainderTo)
  }

  // ----- assets -----

  function DeployASA(s: State, t: TxnType, from: Address, def: AssetDef, validDef: bool): Result<State, Error> {
    var acc :- GetAccount(s, from);
    if !validDef then Failure(InvalidDefinition)
    else
      var id := s.assetCounter + 1;
      var s1 := Put(s, from, acc.AddAsset(from, id, def)).(assetCounter := id);
      var _ :- AssertAccBalAboveMin(s1, t, from);
      Success(s1.(assetDefs := s1.assetDefs[id := from]))
  }

  function OptInToASA(s: State, t: TxnType, id: nat, a: Address): Result<State, Error> {
    var params :- GetAssetDef(s, id);
    var acc :- GetAccount(s, a);
    var s1 := Put(s, a, acc.OptInToASA(id, Holding(0, params.creator, params.defaultFrozen)));
    var _ :- AssertAccBalAboveMin(s1, t, a);
    Success(s1)
  }

  /** Opting in is a transfer of nothing to oneself; moving something needs both ends unfrozen. */
  function BeforeTransfer(
      s: State, t: TxnType, id: nat, from: Address, to: Address, amount: nat): Result<State, Error>
  {
    if amount == 0 && from == to then OptInToASA(s, t, id, from)
    else if amount != 0 then
      var _ :- AssertAssetNotFrozen(s, id, from);
      var _ :- AssertAssetNotFrozen(s, id, to);
      Success(s)
    else Success(s)
  }

  function MoveAsset(s: State, id: nat, from: Address, to: Address, amount: nat): Result<State, Error> {
    var fromHolding :- GetAssetHolding(s, id, from);
    var _ :- GetAssetHolding(s, id, to);
    if fromHolding.amount - amount < 0 then Failure(InsufficientAssets)
    else Success(AddHolding(AddHolding(s, from, id, 0 - amount), to, id, amount))
  }

  function CloseAssetTo(s: State, id: nat, from: Address, closeTo: Address): Result<State, Error>
    requires Holds(s, from, id)
  {
    if closeTo == from then Failure(InvalidCloseRemainderTo)
    else if from == s.accounts[from].assets[id].creator then Failure(CannotCloseByCreator)
    else
      var _ :- AssertAssetNotFrozen(s, id, closeTo);
      var s1 := AddHolding(s, closeTo, id, s.accounts[from].assets[id].amount);
      Success(Put(s1, from, s1.accounts[from].CloseAsset(id)))
  }

  function TransferAsset(
      s: State, t: TxnType, id: nat, from: Address, to: Address, amount: nat, closeTo: Option<Address>)
    : Result<State, Error>
  {
    var s1 :- BeforeTransfer(s, t, id, from, to, amount);
    var s2 :- MoveAsset(s1, id, from, to, amount);
    match closeTo
    case None => Success(s2)
    case Some(c) => CloseAssetTo(s2, id, from, c)
  }

  function ModifyAsset(s: State, id: nat, fields: RoleFields): Result<State, Error> {
    var creator :- GetAssetAccount(s, id);
    var acc :- s.accounts[creator].ModifyAsset(id, fields);
    Success(Put(s, creator, acc))
  }

  function FreezeAsset(s: State, id: nat, target: Address, frozen: bool): Result<State, Error> {
    var acc :- GetAccount(s, target);
    var acc1 :- acc.SetFreezeState(id, frozen);
    Success(Put(s, target, acc1))
  }

  function DropHolding(acc: Account, id: nat): Account {
    acc.(assets := acc.assets - {id})
  }

  /** Removes one asset's holding from the accounts in `who`. */
  function DropHoldings(s: State, id: nat, who: set<Address>): State {
    s.(accounts := map a | a in s.accounts ::
         if a in who then DropHolding(s.accounts[a], id) else s.accounts[a])
  }

  lemma DropOneMore(s: State, id: nat, who: set<Address>, a: Address)
    requires a in s.accounts && a !in who
    ensures Put(DropHoldings(s, id, who), a, DropHolding(s.accounts[a], id)) == DropHoldings(s, id, who + {a})
  {
  }

  function DestroyAsset(s: State, id: nat): Result<State, Error> {
    var creator :- GetAssetAccount(s, id);
    var acc :- s.accounts[creator].DestroyAsset(id);
    var s1 := Put(s, creator, acc);
    Success(DropHoldings(s1, id, s1.accounts.Keys))
  }

  // ----- applications -----

  predicate SchemaTooLarge(app: AppDefinition) {
    app.localSchema.uints + app.localSchema.byteSlices > MAX_LOCAL_SCHEMA_ENTRIES ||
    app.globalSchema.uints + app.globalSchema.byteSlices > MAX_GLOBAL_SCHEMA_ENTRIES
  }

  function NewApp(from: Address, def: AppDefinition): App {
    App(from, def.globalSchema, def.localSchema, def.programs)
  }

  /** Enters the application under id 0, where its approval program runs. */
  function EnterApp(s: State, t: TxnType, from: Address, def: AppDefinition): Result<State, Error> {
    var acc :- GetAccount(s, from);
    if !def.validPrograms then Failure(InvalidDefinition)
    else if SchemaTooLarge(def) then Failure(MaxSchemaEntriesExceeded)
    else
      var s1 := Put(s, from, acc.AddApp(0, NewApp(from, def)));
      var _ :- AssertAccBalAboveMin(s1, t, from);
      Success(s1.(globalApps := s1.globalApps[0 := from]))
  }

  function MoveApp(acc: Account, id: nat, app: App): Account {
    acc.(createdApps := (acc.createdApps - {0})[id := app])
  }

  /** Moves the application entered under id 0 to the next free id. */
  function NumberApp(s: State, from: Address): Result<State, Error>
    requires from in s.accounts
  {
    var id := s.appCounter + 1;
    var s1 := s.(appCounter := id, globalApps := s.globalApps[id := from]);
    var app :- GetApp(s1, 0);
    Success(Put(s1, from, MoveApp(s1.accounts[from], id, app)).(globalApps := s1.globalApps - {0}))
  }

  /** Ends a deployment: the application gets its id, and an account of its own, which replaces any
      account at its address. */
  function FinishApp(s: State, from: Address, nameFree: bool): Result<State, Error> {
    var _ :- GetAccount(s, from);
    var s1 :- NumberApp(s, from);
    if !nameFree then Failure(AppNameAlreadyUsed)
    else Success(Put(s1, AppAddress(s1.appCounter), EmptyAccount(0)))
  }

  function FindApp(s: State, id: nat): Result<State, Error> {
    var _ :- GetApp(s, id);
    Success(s)
  }

  function OptInToApp(s: State, t: TxnType, a: Address, id: nat): Result<State, Error> {
    var app :- GetApp(s, id);
    var acc :- GetAccount(s, a);
    var acc1 :- acc.OptInToApp(id, app.localSchema);
    var s1 := Put(s, a, acc1);
    var _ :- AssertAccBalAboveMin(s1, t, a);
    Success(s1)
  }

  function CloseApp(s: State, a: Address, id: nat): Result<State, Error> {
    var acc :- GetAccount(s, a);
    var _ :- GetApp(s, id);
    var acc1 :- acc.CloseApp(id);
    Success(Put(s, a, acc1))
  }

  function DeleteApp(s: State, id: nat): Result<State, Error> {
    if id !in s.globalApps then Failure(AppNotFound)
    else
      var acc :- GetAccount(s, s.globalApps[id]);
      var acc1 :- acc.DeleteApp(id);
      Success(Put(s, s.globalApps[id], acc1).(globalApps := s.globalApps - {id}))
  }

  function ReplacePrograms(s: State, id: nat, programs: Programs): Result<State, Error> {
    var _ :- GetApp(s, id);
    var acc :- s.accounts[s.globalApps[id]].ReplacePrograms(id, programs);
    Success(Put(s, s.globalApps[id], acc))
  }

  function CreateIfAbsent(s: State, a: Address): State {
    if a in s.accounts then s else Put(s, a, EmptyAccount(0))
  }

  // ----- transactions that run no program -----

  /** Only the holder of `role` may act; a blank role is held by nobody. */
  function RequireRole(role: Option<Address>, sender: Address, e: Error): Check {
    if role == Some(sender) then Ok else Failure(e)
  }

  function ProcessReconfigure(s: State, tx: Tx): Result<State, Error>
    requires tx.body.AssetReconfigure?
  {
    var params :- GetAssetDef(s, tx.body.id);
    var _ :- RequireRole(params.roles.manager, tx.sender, ManagerError);
    ModifyAsset(s, tx.body.id, tx.body.fields)
  }

  function ProcessDestroy(s: State, tx: Tx): Result<State, Error>
    requires tx.body.AssetDestroy?
  {
    var params :- GetAssetDef(s, tx.body.id);
    var _ :- RequireRole(params.roles.manager, tx.sender, ManagerError);
    DestroyAsset(s, tx.body.id)
  }

  function ProcessRevoke(s: State, tx: Tx): Result<State, Error>
    requires tx.body.AssetRevoke?
  {
    var params :- GetAssetDef(s, tx.body.id);
    var _ :- RequireRole(params.roles.clawback, tx.sender, ClawbackError);
    if tx.closeRemainderTo.Some? then Failure(CannotCloseByClawback)
    else MoveAsset(s, tx.body.id, tx.body.target, tx.body.to, tx.body.amount)
  }

  function ProcessFreeze(s: State, tx: Tx): Result<State, Error>
    requires tx.body.AssetFreeze?
  {
    var params :- GetAssetDef(s, tx.body.id);
    var _ :- RequireRole(params.roles.freeze, tx.sender, FreezeError);
    FreezeAsset(s, tx.body.id, tx.body.target, tx.body.frozen)
  }

  function ProcessAsset(s: State, tx: Tx): Result<State, Error> {
    var t := tx.body.Type();
    match tx.body
    case AssetCreate(def, validDef) => DeployASA(s, t, tx.sender, def, validDef)
    case AssetReconfigure(_, _) => ProcessReconfigure(s, tx)
    case AssetDestroy(_) => ProcessDestroy(s, tx)
    case AssetTransfer(id, to, amount) => TransferAsset(s, t, id, tx.sender, to, amount, tx.closeRemainderTo)
    case AssetRevoke(_, _, _, _) => ProcessRevoke(s, tx)
    case AssetFreeze(_, _, _) => ProcessFreeze(s, tx)
    case _ => Success(s)
  }

  // ----- steps -----

  datatype Step =
    | Begin(tx: Tx)
    | DoPay(tx: Tx)
    | DoAsset(tx: Tx)
    | Enter(from: Address, def: AppDefinition)
    | Finish(from: Address, nameFree: bool)
    | Find(id: nat)
    | Join(from: Address, id: nat)
    | Leave(from: Address, id: nat)
    | Delete(id: nat)
    | CheckPrograms(valid: bool)
    | Replace(id: nat, programs: Programs)
    | Look(account: Address)
    | Settle(group: seq<Tx>)
    | Verdict(approved: bool)

  /** The fee is taken before the signature is looked at. */
  function BeginTx(s: State, tx: Tx): Result<State, Error> {
    var s1 :- DeductFee(s, tx);
    if tx.authorized then Success(s1) else Failure(InvalidSignature)
  }

  /** What a step does to the ledger. */
  function Change(s: State, step: Step): Result<State, Error> {
    match step
    case Begin(tx) => BeginTx(s, tx)
    case DoPay(tx) => if tx.body.Pay? then ProcessPay(s, tx) else Success(s)
    case DoAsset(tx) => ProcessAsset(s, tx)
    case Enter(from, def) => EnterApp(s, ApplTxn, from, def)
    case Finish(from, nameFree) => FinishApp(s, from, nameFree)
    case Find(id) => FindApp(s, id)
    case Join(from, id) => OptInToApp(s, ApplTxn, from, id)
    case Leave(from, id) => CloseApp(s, from, id)
    case Delete(id) => DeleteApp(s, id)
    case CheckPrograms(valid) => if valid then Success(s) else Failure(InvalidDefinition)
    case Replace(id, programs) => ReplacePrograms(s, id, programs)
    case Look(account) => Success(CreateIfAbsent(s, account))
    case Settle(_) => Success(s)
    case Verdict(approved) => if approved then Success(s) else Failure(RejectedByLogic)
  }

  /** What a context works on: a ledger, how many more transactions it may begin, and what the fees
      declared so far leave for inner transactions. */
  datatype Session = Session(ledger: State, slots: nat, credit: int)

  /** What a call that may throw left behind: the session the specification predicts, or its error. */
  predicate Leads(r: Check, now: Session, spec: Result<Session, Error>) {
    match spec
    case Success(expected) => r == Ok && now == expected
    case Failure(e) => r == Failure(e)
  }

  function Declared(tx: Tx): nat {
    match tx.fee case Some(f) => f case None => 0
  }

  function DeclaredFees(txs: seq<Tx>): seq<nat> {
    seq(|txs|, i requires 0 <= i < |txs| => Declared(txs[i]))
  }

  /** Of application transactions, a program can submit only plain calls; a group with another one is
      left alone. */
  predicate Submittable(group: seq<Tx>) {
    forall i :: 0 <= i < |group| ==> group[i].body.Type() == ApplTxn ==> group[i].body.AppCall?
  }

  /** Before a program's group runs, the credit must cover it; a group that is left alone leaves the
      credit alone. */
  function SettleGroup(x: Session, group: seq<Tx>): Result<Session, Error> {
    var credit := InnerFees.Credit(x.credit, DeclaredFees(group));
    if credit < 0 then Failure(FeesNotEnough)
    else Success(if Submittable(group) then x.(credit := credit) else x)
  }

  function Apply(x: Session, step: Step): Result<Session, Error> {
    var s :- Change(x.ledger, step);
    match step
    case Begin(_) =>
      if x.slots == 0 then Failure(TooManyTransactions) else Success(Session(s, x.slots - 1, x.credit))
    case Settle(group) => SettleGroup(x, group)
    case _ => Success(Session(s, x.slots, x.credit))
  }

  function Perform(x: Session, steps: seq<Step>): Result<Session, Error>
    decreases |steps|
  {
    if steps == [] then Success(x)
    else
      var y :- Apply(x, steps[0]);
      Perform(y, steps[1..])
  }

  /** Goes on with `steps` where `r` succeeded. */
  function Then(r: Result<Session, Error>, steps: seq<Step>): Result<Session, Error> {
    if r.Failure? then r else Perform(r.value, steps)
  }

  lemma {:induction false} PerformFirst(x: Session, step: Step, rest: seq<Step>)
    ensures Perform(x, [step] + rest) == Then(Apply(x, step), rest)
  {
    assert ([step] + rest)[1..] == rest;
  }

  lemma {:induction false} PerformOne(x: Session, step: Step)
    ensures Perform(x, [step]) == Apply(x, step)
  {
    assert [step] + [] == [step];
    PerformFirst(x, step, []);
  }

  lemma {:induction false} PerformAppend(x: Session, a: seq<Step>, b: seq<Step>)
    ensures Perform(x, a + b) == Then(Perform(x, a), b)
    decreases |a|
  {
    if a == [] {
      assert a + b == b;
    } else {
      assert (a + b)[0] == a[0] && (a + b)[1..] == a[1..] + b;
      if Apply(x, a[0]).Success? {
        PerformAppend(Apply(x, a[0]).value, a[1..], b);
      }
    }
  }

  /** Takes one more step where `r` succeeded. */
  function ThenStep(r: Result<Session, Error>, step: Step): Result<Session, Error> {
    if r.Failure? then r else Apply(r.value, step)
  }

  lemma {:induction false} PerformLast(x: Session, steps: seq<Step>, last: Step)
    ensures Perform(x, steps + [last]) == ThenStep(Perform(x, steps), last)
  {
    PerformAppend(x, steps, [last]);
    if Perform(x, steps).Success? {
      PerformOne(Perform(x, steps).value, last);
    }
  }

  lemma {:induction false} PerformAround(x: Session, first: Step, mid: seq<Step>, last: Step)
    ensures Perform(x, [first] + mid + [last]) == ThenStep(Then(Apply(x, first), mid), last)
  {
    PerformLast(x, [first] + mid, last);
    PerformFirst(x, first, mid);
  }

  // ----- the steps of a transaction -----

  function Steps(tx: Tx): seq<Step>
    decreases tx, 1
  {
    [Begin(tx)] + BodySteps(tx)
  }

  function BodySteps(tx: Tx): seq<Step>
    decreases tx, 0
  {
    match tx.body
    case Pay(_, _) => [DoPay(tx)]
    case KeyReg => []
    case AppCreate(def, run) => [Enter(tx.sender, def)] + RunSteps(run) + [Finish(tx.sender, def.nameFree)]
    case AppCall(id, run) => [Find(id)] + RunSteps(run)
    case AppOptIn(id, run) => [Join(tx.sender, id)] + RunSteps(run)
    case AppCloseOut(id, run) => [Find(id)] + RunSteps(run) + [Leave(tx.sender, id)]
    case AppClear(id, run) => [Find(id)] + ClearSteps(run.actions) + [Leave(tx.sender, id)]
    case AppDelete(id, run) => [Find(id)] + RunSteps(run) + [Delete(id)]
    case AppUpdate(id, programs, valid, run) =>
      [CheckPrograms(valid)] + ([Find(id)] + RunSteps(run) + [Replace(id, programs)])
    case _ => [DoAsset(tx)]
  }

  function RunSteps(run: ProgramRun): seq<Step>
    decreases run
  {
    ActionSteps(run.actions) + [Verdict(run.approved)]
  }

  function ActionSteps(actions: seq<Action>): seq<Step>
    decreases actions
  {
    if actions == [] then [] else StepsOf(actions[0]) + ActionSteps(actions[1..])
  }

  function StepsOf(action: Action): seq<Step>
    decreases action
  {
    match action
    case LookAt(a) => [Look(a)]
    case Submit(group) => [Settle(group)] + (if Submittable(group) then GroupSteps(group) else [])
  }

  /** A clear-state program cannot submit anything, and its verdict and errors are ignored. */
  function ClearSteps(actions: seq<Action>): seq<Step> {
    if actions == [] || actions[0].Submit? then [] else [Look(actions[0].account)] + ClearSteps(actions[1..])
  }

  function GroupSteps(txs: seq<Tx>): seq<Step>
    decreases txs
  {
    if txs == [] then [] else Steps(txs[0]) + GroupSteps(txs[1..])
  }

  /** An update checks the new programs, runs the old one, and replaces it. */
  lemma {:induction false} UpdateInOrder(x: Session, tx: Tx)
    requires tx.body.AppUpdate?
    ensures Perform(x, BodySteps(tx)) ==
            if !tx.body.validPrograms then Failure(InvalidDefinition)
            else ThenStep(Then(Apply(x, Find(tx.body.id)), RunSteps(tx.body.run)),
                          Replace(tx.body.id, tx.body.programs))
  {
    var find, run, replace := Find(tx.body.id), RunSteps(tx.body.run), Replace(tx.body.id, tx.body.programs);
    PerformFirst(x, CheckPrograms(tx.body.validPrograms), [find] + run + [replace]);
    PerformAround(x, find, run, replace);
  }

  lemma {:induction false} GroupFirst(x: Session, txs: seq<Tx>)
    requires txs != []
    ensures Perform(x, GroupSteps(txs)) == Then(Perform(x, Steps(txs[0])), GroupSteps(txs[1..]))
  {
    PerformAppend(x, Steps(txs[0]), GroupSteps(txs[1..]));
  }

  lemma {:induction false} ActionFirst(x: Session, actions: seq<Action>)
    requires actions != []
    ensures Perform(x, ActionSteps(actions)) == Then(Perform(x, StepsOf(actions[0])), ActionSteps(actions[1..]))
  {
    PerformAppend(x, StepsOf(actions[0]), ActionSteps(actions[1..]));
  }

  lemma {:induction false} LookFirst(x: Session, actions: seq<Action>)
    requires actions != [] && actions[0].LookAt?
    ensures Perform(x, ClearSteps(actions)) == Then(Apply(x, Look(actions[0].account)), ClearSteps(actions[1..]))
  {
    PerformFirst(x, Look(actions[0].account), ClearSteps(actions[1..]));
  }

  // ----- groups -----

  /** Fees are pooled: the group as a whole must declare the minimum fee once per transaction. */
  function VerifyMinimumFees(txs: seq<Tx>): Check {
    if InnerFees.Credit(0, DeclaredFees(txs)) < 0 then Failure(FeesNotEnough) else Ok
  }

  /** The session in which an outer group runs: what it declares beyond the minimum is left for the
      inner transactions of its programs. */
  function Fresh(s: State, txs: seq<Tx>): Session {
    Session(s, MAX_GROUP_TXNS, InnerFees.Credit(0, DeclaredFees(txs)))
  }

  function ProcessTransactions(s: State, txs: seq<Tx>): Result<State, Error> {
    var _ :- VerifyMinimumFees(txs);
    var end :- Perform(Fresh(s, txs), GroupSteps(txs));
    Success(end.ledger)
  }

  // ----- submitting a group -----

  predicate RoundOk(tx: Tx, round: nat) {
    !(tx.firstValid.Some? && tx.firstValid.value >= round) && tx.lastValid > round
  }

  predicate HasDuplicate(txs: seq<Tx>) {
    exists i, j :: 0 <= i < j < |txs| && txs[i].txID == txs[j].txID
  }

  function ExecuteGroup(s: State, round: nat, txs: seq<Tx>): Result<State, Error> {
    if exists i :: 0 <= i < |txs| && !RoundOk(txs[i], round) then Failure(InvalidRound)
    else if HasDuplicate(txs) then Failure(DuplicateTransaction)
    else ProcessTransactions(s, txs)
  }

  /** What a submitted group leaves in the store: its effect if every step succeeds, else nothing. */
  function Commit(s: State, round: nat, txs: seq<Tx>): State {
    match ExecuteGroup(s, round, txs)
    case Success(after) => after
    case Failure(_) => s
  }
}
