/** What each application transaction comes to, whatever its program submits: when it succeeds, and
    the ledger it leaves, given what the program leaves. */
module AppOutcomes {
  import opened Wrappers
  import opened Accounts
  import opened Ledger
  import opened Outcomes
  import AssetFrame
  import InnerFees

  /** What an account must keep for an application with this schema. */
  function Deposit(schema: Schema): int {
    100000 + 28500 * schema.uints + 50000 * schema.byteSlices
  }

  /** An application is found by its index entry, in the table of its creator. */
  predicate HasApp(s: State, id: nat) {
    id in s.globalApps && s.globalApps[id] in s.accounts && id in s.accounts[s.globalApps[id]].createdApps
  }

  function AppOf(s: State, id: nat): App
    requires HasApp(s, id)
  {
    s.accounts[s.globalApps[id]].createdApps[id]
  }

  lemma FindComesTo(x: Session, id: nat)
    ensures Apply(x, Find(id)).Success? <==> HasApp(x.ledger, id)
    ensures HasApp(x.ledger, id) ==> Apply(x, Find(id)) == Success(x)
  {
  }

  // ----- opting in -----

  predicate MayJoin(s: State, a: Address, id: nat) {
    HasApp(s, id) && a in s.accounts && id !in s.accounts[a].appsLocalState
  }

  function Joined(s: State, a: Address, id: nat): State
    requires MayJoin(s, a, id)
  {
    var acc, schema := s.accounts[a], AppOf(s, id).localSchema;
    s.(accounts := s.accounts[a := acc.(minBalance := acc.minBalance + Deposit(schema),
                                        appsLocalState := acc.appsLocalState[id := schema])])
  }

  lemma JoinComesTo(x: Session, a: Address, id: nat)
    ensures Apply(x, Join(a, id)).Success? <==> MayJoin(x.ledger, a, id)
    ensures MayJoin(x.ledger, a, id) ==> Apply(x, Join(a, id)) == Success(x.(ledger := Joined(x.ledger, a, id)))
  {
  }

  // ----- leaving -----

  predicate MayLeave(s: State, a: Address, id: nat) {
    a in s.accounts && HasApp(s, id) && id in s.accounts[a].appsLocalState
  }

  function WithoutApp(s: State, a: Address, id: nat): State
    requires MayLeave(s, a, id)
  {
    var acc := s.accounts[a];
    s.(accounts := s.accounts[a := acc.(minBalance := acc.minBalance - Deposit(acc.appsLocalState[id]),
                                        appsLocalState := acc.appsLocalState - {id})])
  }

  lemma LeaveComesTo(x: Session, a: Address, id: nat)
    ensures Apply(x, Leave(a, id)).Success? <==> MayLeave(x.ledger, a, id)
    ensures MayLeave(x.ledger, a, id) ==>
              Apply(x, Leave(a, id)) == Success(x.(ledger := WithoutApp(x.ledger, a, id)))
  {
  }

  // ----- deleting and updating -----

  function Deleted(s: State, id: nat): State
    requires HasApp(s, id)
  {
    var creator := s.globalApps[id];
    var acc := s.accounts[creator];
    s.(globalApps := s.globalApps - {id},
       accounts := s.accounts[creator := acc.(minBalance := acc.minBalance - Deposit(AppOf(s, id).globalSchema),
                                              createdApps := acc.createdApps - {id})])
  }

  lemma DeleteComesTo(x: Session, id: nat)
    ensures Apply(x, Step.Delete(id)).Success? <==> HasApp(x.ledger, id)
    ensures HasApp(x.ledger, id) ==> Apply(x, Step.Delete(id)) == Success(x.(ledger := Deleted(x.ledger, id)))
  {
  }

  function Updated(s: State, id: nat, programs: Programs): State
    requires HasApp(s, id)
  {
    var creator, app := s.globalApps[id], AppOf(s, id);
    var acc := s.accounts[creator];
    var changed := App(app.creator, app.globalSchema, app.localSchema, programs);
    s.(accounts := s.accounts[creator := acc.(createdApps := acc.createdApps[id := changed])])
  }

  lemma ReplaceComesTo(x: Session, id: nat, programs: Programs)
    ensures Apply(x, Replace(id, programs)).Success? <==> HasApp(x.ledger, id)
    ensures HasApp(x.ledger, id) ==>
              Apply(x, Replace(id, programs)) == Success(x.(ledger := Updated(x.ledger, id, programs)))
  {
  }

  // ----- creating -----

  predicate MayCreate(def: AppDefinition) {
    && def.validPrograms
    && def.localSchema.uints + def.localSchema.byteSlices <= 16
    && def.globalSchema.uints + def.globalSchema.byteSlices <= 64
  }

  /** While its program runs for the first time, an application has the id 0. */
  function Begun(s: State, from: Address, def: AppDefinition): State
    requires from in s.accounts
  {
    var acc, app := s.accounts[from], App(from, def.globalSchema, def.localSchema, def.programs);
    s.(globalApps := s.globalApps[0 := from],
       accounts := s.accounts[from := acc.(minBalance := acc.minBalance + Deposit(def.globalSchema),
                                           createdApps := acc.createdApps[0 := app])])
  }

  lemma EnterComesTo(x: Session, from: Address, def: AppDefinition)
    requires from in x.ledger.accounts
    ensures Apply(x, Enter(from, def)).Success? <==> MayCreate(def)
    ensures MayCreate(def) ==> Apply(x, Enter(from, def)) == Success(x.(ledger := Begun(x.ledger, from, def)))
  {
  }

  predicate MayFinish(s: State, from: Address, nameFree: bool) {
    HasApp(s, 0) && from in s.accounts && nameFree
  }

  /** Then it gets the next id, and an empty account at the address of that id. */
  function Numbered(s: State, from: Address): State
    requires HasApp(s, 0) && from in s.accounts
  {
    var id, acc := s.appCounter + 1, s.accounts[from];
    var creator := acc.(createdApps := (acc.createdApps - {0})[id := AppOf(s, 0)]);
    s.(appCounter := id, globalApps := s.globalApps[id := from] - {0},
       accounts := s.accounts[from := creator]
                             [AppAddress(id) := Account(0, 100000, map[], map[], map[], map[])])
  }

  lemma FinishComesTo(x: Session, from: Address, nameFree: bool)
    ensures Apply(x, Finish(from, nameFree)).Success? <==> MayFinish(x.ledger, from, nameFree)
    ensures MayFinish(x.ledger, from, nameFree) ==>
              Apply(x, Finish(from, nameFree)) == Success(x.(ledger := Numbered(x.ledger, from)))
  {
    var s := x.ledger;
    var s1 := s.(appCounter := s.appCounter + 1, globalApps := s.globalApps[s.appCounter + 1 := from]);
    assert GetApp(s1, 0).Success? <==> HasApp(s, 0);
  }

  // ----- programs -----

  /** The ledger with an account at `a`, an empty one if there was none. */
  function WithAccount(s: State, a: Address): State {
    if a in s.accounts then s
    else s.(accounts := s.accounts[a := Account(0, 100000, map[], map[], map[], map[])])
  }

  /** The credit left after a group of inner transactions. */
  function CreditAfter(x: Session, group: seq<Tx>): int {
    x.credit + Total(group) - 1000 * |group|
  }

  function Total(group: seq<Tx>): nat {
    if group == [] then 0
    else (match group[0].fee case None => 0 case Some(fee) => fee) + Total(group[1..])
  }

  lemma {:induction false} TotalIsSum(group: seq<Tx>)
    ensures InnerFees.FeeSum(DeclaredFees(group)) == Total(group)
  {
    if group != [] {
      TotalIsSum(group[1..]);
      assert DeclaredFees(group) == [Declared(group[0])] + DeclaredFees(group[1..]);
      InnerFees.FeeSumFirst(Declared(group[0]), DeclaredFees(group[1..]));
    }
  }

  /** A group may be submitted unless it creates an application, or changes what is opted in or stored. */
  predicate OnlyCalls(group: seq<Tx>) {
    forall tx :: tx in group ==>
      !tx.body.AppCreate? && !tx.body.AppOptIn? && !tx.body.AppCloseOut? && !tx.body.AppClear?
      && !tx.body.AppDelete? && !tx.body.AppUpdate?
  }

  /** A program does one thing after the other: it looks at accounts, which makes them exist, and
      submits groups, which fail if they are not covered, run in full if they are of a supported kind,
      and do nothing if not. In the end it approves or the transaction fails. */
  lemma {:induction false} ProgramComesTo(x: Session, run: ProgramRun)
    ensures run.actions == [] ==>
              (Perform(x, RunSteps(run)).Success? <==> run.approved)
              && (run.approved ==> Perform(x, RunSteps(run)) == Success(x))
    ensures run.actions != [] ==>
              var rest := RunSteps(ProgramRun(run.actions[1..], run.approved));
              match run.actions[0]
              case LookAt(a) => Perform(x, RunSteps(run)) == Perform(x.(ledger := WithAccount(x.ledger, a)), rest)
              case Submit(group) =>
                if CreditAfter(x, group) < 0 then Perform(x, RunSteps(run)).Failure?
                else if OnlyCalls(group) then
                  Perform(x, RunSteps(run)) ==
                  Then(Perform(x.(credit := CreditAfter(x, group)), GroupSteps(group)), rest)
                else Perform(x, RunSteps(run)) == Perform(x, rest)
  {
    if run.actions == [] {
      assert RunSteps(run) == [Verdict(run.approved)];
      PerformOne(x, Verdict(run.approved));
    } else {
      var steps, rest := StepsOf(run.actions[0]), RunSteps(ProgramRun(run.actions[1..], run.approved));
      assert RunSteps(run) == steps + rest;
      PerformAppend(x, steps, rest);
      match run.actions[0]
      case LookAt(a) => PerformOne(x, Look(a));
      case Submit(group) => SubmissionComesTo(x, group);
    }
  }

  lemma {:induction false} SubmissionComesTo(x: Session, group: seq<Tx>)
    ensures if CreditAfter(x, group) < 0 then Perform(x, StepsOf(Submit(group))).Failure?
            else if OnlyCalls(group) then
              Perform(x, StepsOf(Submit(group)))
              == Perform(x.(credit := CreditAfter(x, group)), GroupSteps(group))
            else Perform(x, StepsOf(Submit(group))) == Success(x)
  {
    TotalIsSum(group);
    CallsOnlyIff(group);
    PerformFirst(x, Settle(group), if Submittable(group) then GroupSteps(group) else []);
  }

  lemma CallsOnlyIff(group: seq<Tx>)
    ensures Submittable(group) <==> OnlyCalls(group)
  {
    if OnlyCalls(group) {
      forall i | 0 <= i < |group|
        ensures group[i].body.Type() == ApplTxn ==> group[i].body.AppCall?
      {
        assert group[i] in group;
      }
    }
  }

  /** A group runs its transactions one after the other, each on what the ones before it left. */
  lemma {:induction false} GroupComesTo(x: Session, txs: seq<Tx>)
    ensures txs == [] ==> Perform(x, GroupSteps(txs)) == Success(x)
    ensures txs != [] ==>
              Perform(x, GroupSteps(txs)) == Then(Perform(x, Steps(txs[0])), GroupSteps(txs[1..]))
  {
    if txs != [] {
      GroupFirst(x, txs);
    }
  }

  // ----- whole transactions -----

  /** What a program leaves when it starts from `s` in the session `x`. */
  function Ran(x: Session, s: State, run: ProgramRun): Result<Session, Error> {
    Perform(x.(ledger := s), RunSteps(run))
  }

  /** A call: the application must exist, and its program runs. */
  lemma {:induction false} CallComesTo(x: Session, tx: Tx)
    requires tx.body.AppCall?
    ensures Perform(x, Steps(tx)).Success? <==>
            && MayBegin(x, tx)
            && var y := Paid(x, tx); HasApp(y.ledger, tx.body.id) && Ran(y, y.ledger, tx.body.run).Success?
    ensures Perform(x, Steps(tx)).Success? ==>
              var y := Paid(x, tx); Perform(x, Steps(tx)) == Ran(y, y.ledger, tx.body.run)
  {
    TxComesTo(x, tx);
    if MayBegin(x, tx) {
      var y := Paid(x, tx);
      FindComesTo(y, tx.body.id);
      PerformFirst(y, Find(tx.body.id), RunSteps(tx.body.run));
    }
  }

  /** Opting in: the program already finds the sender opted in. */
  lemma {:induction false} OptInComesTo(x: Session, tx: Tx)
    requires tx.body.AppOptIn?
    ensures Perform(x, Steps(tx)).Success? <==>
            && MayBegin(x, tx)
            && var y := Paid(x, tx);
               && MayJoin(y.ledger, tx.sender, tx.body.id)
               && Ran(y, Joined(y.ledger, tx.sender, tx.body.id), tx.body.run).Success?
    ensures Perform(x, Steps(tx)).Success? ==>
              var y := Paid(x, tx);
              Perform(x, Steps(tx)) == Ran(y, Joined(y.ledger, tx.sender, tx.body.id), tx.body.run)
  {
    TxComesTo(x, tx);
    if MayBegin(x, tx) {
      var y := Paid(x, tx);
      JoinComesTo(y, tx.sender, tx.body.id);
      PerformFirst(y, Join(tx.sender, tx.body.id), RunSteps(tx.body.run));
    }
  }

  /** Closing out: what the program leaves, without the sender's local state. */
  lemma {:induction false} CloseOutComesTo(x: Session, tx: Tx)
    requires tx.body.AppCloseOut?
    ensures Perform(x, Steps(tx)).Success? <==>
            && MayBegin(x, tx)
            && var y := Paid(x, tx);
               && HasApp(y.ledger, tx.body.id) && Ran(y, y.ledger, tx.body.run).Success?
               && MayLeave(Ran(y, y.ledger, tx.body.run).value.ledger, tx.sender, tx.body.id)
    ensures Perform(x, Steps(tx)).Success? ==>
              var y := Paid(x, tx); var z := Ran(y, y.ledger, tx.body.run).value;
              Perform(x, Steps(tx)) == Success(z.(ledger := WithoutApp(z.ledger, tx.sender, tx.body.id)))
  {
    TxComesTo(x, tx);
    if MayBegin(x, tx) {
      var y := Paid(x, tx);
      FindComesTo(y, tx.body.id);
      PerformAround(y, Find(tx.body.id), RunSteps(tx.body.run), Leave(tx.sender, tx.body.id));
      if Ran(y, y.ledger, tx.body.run).Success? {
        LeaveComesTo(Ran(y, y.ledger, tx.body.run).value, tx.sender, tx.body.id);
      }
    }
  }

  /** The accounts a clear-state program looked at before it ended or tried to submit something. */
  function Looked(s: State, actions: seq<Action>): State
    decreases |actions|
  {
    if actions == [] || actions[0].Submit? then s else Looked(WithAccount(s, actions[0].account), actions[1..])
  }

  lemma {:induction false} ClearingComesTo(x: Session, actions: seq<Action>)
    ensures Perform(x, ClearSteps(actions)) == Success(x.(ledger := Looked(x.ledger, actions)))
    decreases |actions|
  {
    if actions != [] && actions[0].LookAt? {
      LookFirst(x, actions);
      ClearingComesTo(x.(ledger := WithAccount(x.ledger, actions[0].account)), actions[1..]);
    }
  }

  lemma {:induction false} ClearingThenLeaving(y: Session, tx: Tx)
    requires tx.body.AppClear? && HasApp(y.ledger, tx.body.id)
    ensures var z := y.(ledger := Looked(y.ledger, tx.body.run.actions));
            Perform(y, BodySteps(tx)) == Apply(z, Leave(tx.sender, tx.body.id))
  {
    FindComesTo(y, tx.body.id);
    PerformAround(y, Find(tx.body.id), ClearSteps(tx.body.run.actions), Leave(tx.sender, tx.body.id));
    ClearingComesTo(y, tx.body.run.actions);
  }

  lemma {:induction false} ClearingWithoutApp(y: Session, tx: Tx)
    requires tx.body.AppClear? && !HasApp(y.ledger, tx.body.id)
    ensures Perform(y, BodySteps(tx)).Failure?
  {
    FindComesTo(y, tx.body.id);
    PerformAround(y, Find(tx.body.id), ClearSteps(tx.body.run.actions), Leave(tx.sender, tx.body.id));
  }

  /** Clearing: the sender leaves, whatever its program would submit and whether it approves or not. */
  lemma {:induction false} ClearComesTo(x: Session, tx: Tx)
    requires tx.body.AppClear?
    ensures Perform(x, Steps(tx)).Success? <==>
            && MayBegin(x, tx)
            && var s := Paid(x, tx).ledger;
               HasApp(s, tx.body.id) && MayLeave(Looked(s, tx.body.run.actions), tx.sender, tx.body.id)
    ensures Perform(x, Steps(tx)).Success? ==>
              var y := Paid(x, tx); var s := Looked(y.ledger, tx.body.run.actions);
              Perform(x, Steps(tx)) == Success(y.(ledger := WithoutApp(s, tx.sender, tx.body.id)))
  {
    TxComesTo(x, tx);
    if MayBegin(x, tx) {
      var y := Paid(x, tx);
      if HasApp(y.ledger, tx.body.id) {
        ClearingThenLeaving(y, tx);
        LeaveComesTo(y.(ledger := Looked(y.ledger, tx.body.run.actions)), tx.sender, tx.body.id);
      } else {
        ClearingWithoutApp(y, tx);
      }
    }
  }

  /** Deleting: what the program leaves, without the application. */
  lemma {:induction false} DeletionComesTo(x: Session, tx: Tx)
    requires tx.body.AppDelete?
    ensures Perform(x, Steps(tx)).Success? <==>
            && MayBegin(x, tx)
            && var y := Paid(x, tx);
               && HasApp(y.ledger, tx.body.id) && Ran(y, y.ledger, tx.body.run).Success?
               && HasApp(Ran(y, y.ledger, tx.body.run).value.ledger, tx.body.id)
    ensures Perform(x, Steps(tx)).Success? ==>
              var y := Paid(x, tx); var z := Ran(y, y.ledger, tx.body.run).value;
              Perform(x, Steps(tx)) == Success(z.(ledger := Deleted(z.ledger, tx.body.id)))
  {
    TxComesTo(x, tx);
    if MayBegin(x, tx) {
      var y := Paid(x, tx);
      FindComesTo(y, tx.body.id);
      PerformAround(y, Find(tx.body.id), RunSteps(tx.body.run), Step.Delete(tx.body.id));
      if Ran(y, y.ledger, tx.body.run).Success? {
        DeleteComesTo(Ran(y, y.ledger, tx.body.run).value, tx.body.id);
      }
    }
  }

  /** Updating: the new programs must be valid, the old one approves, and then they replace it. */
  lemma {:induction false} UpdateComesTo(x: Session, tx: Tx)
    requires tx.body.AppUpdate?
    ensures Perform(x, Steps(tx)).Success? <==>
            && MayBegin(x, tx) && tx.body.validPrograms
            && var y := Paid(x, tx);
               && HasApp(y.ledger, tx.body.id) && Ran(y, y.ledger, tx.body.run).Success?
               && HasApp(Ran(y, y.ledger, tx.body.run).value.ledger, tx.body.id)
    ensures Perform(x, Steps(tx)).Success? ==>
              var y := Paid(x, tx); var z := Ran(y, y.ledger, tx.body.run).value;
              Perform(x, Steps(tx)) == Success(z.(ledger := Updated(z.ledger, tx.body.id, tx.body.programs)))
  {
    TxComesTo(x, tx);
    if MayBegin(x, tx) {
      var y := Paid(x, tx);
      FindComesTo(y, tx.body.id);
      UpdateInOrder(y, tx);
      if Ran(y, y.ledger, tx.body.run).Success? {
        ReplaceComesTo(Ran(y, y.ledger, tx.body.run).value, tx.body.id, tx.body.programs);
      }
    }
  }

  /** Creating: the program runs under id 0, and what it leaves gets the next id. */
  lemma {:induction false} CreateComesTo(x: Session, tx: Tx)
    requires tx.body.AppCreate?
    ensures Perform(x, Steps(tx)).Success? <==>
            && MayBegin(x, tx) && MayCreate(tx.body.app)
            && var y := Paid(x, tx);
               var r := Ran(y, Begun(y.ledger, tx.sender, tx.body.app), tx.body.run);
               r.Success? && MayFinish(r.value.ledger, tx.sender, tx.body.app.nameFree)
    ensures Perform(x, Steps(tx)).Success? ==>
              var y := Paid(x, tx);
              var z := Ran(y, Begun(y.ledger, tx.sender, tx.body.app), tx.body.run).value;
              Perform(x, Steps(tx)) == Success(z.(ledger := Numbered(z.ledger, tx.sender)))
  {
    TxComesTo(x, tx);
    if MayBegin(x, tx) {
      var y, def := Paid(x, tx), tx.body.app;
      EnterComesTo(y, tx.sender, def);
      PerformAround(y, Enter(tx.sender, def), RunSteps(tx.body.run), Finish(tx.sender, def.nameFree));
      if MayCreate(def) {
        var r := Ran(y, Begun(y.ledger, tx.sender, def), tx.body.run);
        if r.Success? {
          FinishComesTo(r.value, tx.sender, def.nameFree);
        }
      }
    }
  }

  // ----- what a program cannot do -----

  /** The same applications, and the same local states, as far as accounts go on existing. */
  ghost predicate SameTables(s: State, t: State) {
    && t.globalApps == s.globalApps && t.appCounter == s.appCounter
    && s.accounts.Keys <= t.accounts.Keys
    && (forall a :: a in s.accounts ==> SameApps(s.accounts[a], t.accounts[a]))
    && (forall a :: a in t.accounts && a !in s.accounts ==> SameApps(EmptyAccount(0), t.accounts[a]))
  }

  predicate SameApps(x: Account, y: Account) {
    y.createdApps == x.createdApps && y.appsLocalState == x.appsLocalState
  }

  lemma TablesTwice(s: State, t: State, u: State)
    requires SameTables(s, t) && SameTables(t, u)
    ensures SameTables(s, u)
  {
  }

  /** The steps that programs take. */
  predicate Inner(step: Step) {
    step.Begin? || step.DoPay? || step.DoAsset? || step.Find? || step.Look? || step.Settle? || step.Verdict?
  }

  ghost predicate AllInner(steps: seq<Step>) {
    forall step :: step in steps ==> Inner(step)
  }

  lemma PayKeepsTables(s: State, tx: Tx)
    requires tx.body.Pay? && ProcessPay(s, tx).Success?
    ensures SameTables(s, ProcessPay(s, tx).value)
  {
    PaymentComesTo(s, tx);
  }

  lemma InnerKeepsTables(x: Session, step: Step)
    requires Inner(step) && Apply(x, step).Success?
    ensures SameTables(x.ledger, Apply(x, step).value.ledger)
  {
    match step {
      case Begin(tx) => BeginComesTo(x, tx);
      case DoPay(tx) => if tx.body.Pay? { PayKeepsTables(x.ledger, tx); }
      case DoAsset(tx) => AssetFrame.BodyFrame(x.ledger, tx);
      case _ =>
    }
  }

  lemma {:induction false} PerformKeepsTables(x: Session, steps: seq<Step>)
    requires AllInner(steps) && Perform(x, steps).Success?
    ensures SameTables(x.ledger, Perform(x, steps).value.ledger)
    decreases |steps|
  {
    if steps != [] {
      var y := Apply(x, steps[0]).value;
      InnerKeepsTables(x, steps[0]);
      PerformKeepsTables(y, steps[1..]);
      TablesTwice(x.ledger, y.ledger, Perform(x, steps).value.ledger);
    }
  }

  lemma {:induction false} RunIsInner(run: ProgramRun)
    ensures AllInner(RunSteps(run))
    decreases run
  {
    ActionsAreInner(run.actions);
  }

  lemma {:induction false} ActionsAreInner(actions: seq<Action>)
    ensures AllInner(ActionSteps(actions))
    decreases actions
  {
    if actions != [] {
      if actions[0].Submit? && Submittable(actions[0].group) {
        GroupIsInner(actions[0].group);
      }
      ActionsAreInner(actions[1..]);
    }
  }

  lemma {:induction false} GroupIsInner(txs: seq<Tx>)
    requires Submittable(txs)
    ensures AllInner(GroupSteps(txs))
    decreases txs
  {
    if txs != [] {
      if txs[0].body.AppCall? {
        RunIsInner(txs[0].body.run);
      }
      assert AllInner(BodySteps(txs[0]));
      GroupIsInner(txs[1..]);
    }
  }

  /** Whatever a program submits, it leaves the tables of applications and local states alone. */
  lemma {:induction false} ProgramKeepsTables(x: Session, s: State, run: ProgramRun)
    requires Ran(x, s, run).Success?
    ensures SameTables(s, Ran(x, s, run).value.ledger)
  {
    RunIsInner(run);
    PerformKeepsTables(x.(ledger := s), RunSteps(run));
  }

  lemma {:induction false} LookingKeepsTables(s: State, actions: seq<Action>)
    ensures SameTables(s, Looked(s, actions))
    decreases |actions|
  {
    if actions != [] && actions[0].LookAt? {
      LookingKeepsTables(WithAccount(s, actions[0].account), actions[1..]);
      TablesTwice(s, WithAccount(s, actions[0].account), Looked(s, actions));
    }
  }

  /** `t` differs from `s` in the tables only at `a`, where the account's tables are these. */
  ghost predicate TablesBut(s: State, t: State, a: Address, created: map<nat, App>, local: map<nat, Schema>) {
    && (forall b :: b in s.accounts ==> b in t.accounts && (b != a ==> SameApps(s.accounts[b], t.accounts[b])))
    && a in t.accounts && t.accounts[a].createdApps == created && t.accounts[a].appsLocalState == local
  }

  /** Programs and fees find the same applications before and after. */
  lemma TablesAgree(s: State, t: State, id: nat)
    requires SameTables(s, t)
    ensures HasApp(s, id) <==> HasApp(t, id)
    ensures HasApp(s, id) ==> AppOf(t, id) == AppOf(s, id) && SameApps(s.accounts[s.globalApps[id]],
                                                                       t.accounts[s.globalApps[id]])
  {
  }

  lemma PaidKeepsTables(x: Session, tx: Tx)
    requires tx.sender in x.ledger.accounts
    ensures SameTables(x.ledger, Paid(x, tx).ledger)
  {
  }

  lemma LeftFrom(s: State, z: State, a: Address, id: nat)
    requires SameTables(s, z) && MayLeave(z, a, id)
    ensures MayLeave(s, a, id)
    ensures TablesBut(s, WithoutApp(z, a, id), a, s.accounts[a].createdApps, s.accounts[a].appsLocalState - {id})
  {
    TablesAgree(s, z, id);
  }

  lemma JoinedFrom(s: State, y: State, z: State, a: Address, id: nat)
    requires SameTables(s, y) && MayJoin(y, a, id) && a in s.accounts && SameTables(Joined(y, a, id), z)
    ensures MayJoin(s, a, id)
    ensures TablesBut(s, z, a, s.accounts[a].createdApps, s.accounts[a].appsLocalState[id := AppOf(s, id).localSchema])
  {
    TablesAgree(s, y, id);
  }

  lemma DeletedFrom(s: State, z: State, id: nat)
    requires SameTables(s, z) && HasApp(z, id)
    ensures HasApp(s, id)
    ensures var a := s.globalApps[id];
            TablesBut(s, Deleted(z, id), a, s.accounts[a].createdApps - {id}, s.accounts[a].appsLocalState)
  {
    TablesAgree(s, z, id);
  }

  lemma UpdatedFrom(s: State, z: State, id: nat, programs: Programs)
    requires SameTables(s, z) && HasApp(z, id)
    ensures HasApp(s, id)
    ensures var a, app := s.globalApps[id], AppOf(s, id);
            TablesBut(s, Updated(z, id, programs), a,
                      s.accounts[a].createdApps[id := app.(programs := programs)], s.accounts[a].appsLocalState)
  {
    TablesAgree(s, z, id);
  }

  // ----- and what a transaction does to the tables -----

  /** After closing out or clearing, the sender's local state of the application is gone; it was there
      before; nothing else in the tables has changed. */
  lemma {:induction false} LeavingIsSeen(x: Session, tx: Tx)
    requires (tx.body.AppCloseOut? || tx.body.AppClear?) && Perform(x, Steps(tx)).Success?
    ensures var s, u, a, id := x.ledger, Perform(x, Steps(tx)).value.ledger, tx.sender, tx.body.id;
            && MayLeave(s, a, id) && u.globalApps == s.globalApps && u.appCounter == s.appCounter
            && TablesBut(s, u, a, s.accounts[a].createdApps, s.accounts[a].appsLocalState - {id})
  {
    var y := Paid(x, tx);
    TxComesTo(x, tx);
    PaidKeepsTables(x, tx);
    if tx.body.AppClear? {
      ClearComesTo(x, tx);
      var z := Looked(y.ledger, tx.body.run.actions);
      LookingKeepsTables(y.ledger, tx.body.run.actions);
      TablesTwice(x.ledger, y.ledger, z);
      LeftFrom(x.ledger, z, tx.sender, tx.body.id);
    } else {
      CloseOutComesTo(x, tx);
      var z := Ran(y, y.ledger, tx.body.run).value.ledger;
      ProgramKeepsTables(y, y.ledger, tx.body.run);
      TablesTwice(x.ledger, y.ledger, z);
      LeftFrom(x.ledger, z, tx.sender, tx.body.id);
    }
  }

  /** After opting in, the sender has local state of the schema the application asks for, and had none. */
  lemma {:induction false} JoiningIsSeen(x: Session, tx: Tx)
    requires tx.body.AppOptIn? && Perform(x, Steps(tx)).Success?
    ensures var s, u, a, id := x.ledger, Perform(x, Steps(tx)).value.ledger, tx.sender, tx.body.id;
            && MayJoin(s, a, id) && u.globalApps == s.globalApps && u.appCounter == s.appCounter
            && TablesBut(s, u, a, s.accounts[a].createdApps,
                         s.accounts[a].appsLocalState[id := AppOf(s, id).localSchema])
  {
    var y := Paid(x, tx);
    TxComesTo(x, tx);
    PaidKeepsTables(x, tx);
    OptInComesTo(x, tx);
    var t := Joined(y.ledger, tx.sender, tx.body.id);
    ProgramKeepsTables(y, t, tx.body.run);
    JoinedFrom(x.ledger, y.ledger, Ran(y, t, tx.body.run).value.ledger, tx.sender, tx.body.id);
  }

  /** After a deletion the id is neither in the index nor in its creator's table. */
  lemma {:induction false} DeletionIsSeen(x: Session, tx: Tx)
    requires tx.body.AppDelete? && Perform(x, Steps(tx)).Success?
    ensures var s, u, id := x.ledger, Perform(x, Steps(tx)).value.ledger, tx.body.id;
            && HasApp(s, id) && u.globalApps == s.globalApps - {id} && u.appCounter == s.appCounter
            && var a := s.globalApps[id];
               TablesBut(s, u, a, s.accounts[a].createdApps - {id}, s.accounts[a].appsLocalState)
  {
    var y := Paid(x, tx);
    TxComesTo(x, tx);
    PaidKeepsTables(x, tx);
    DeletionComesTo(x, tx);
    var z := Ran(y, y.ledger, tx.body.run).value.ledger;
    ProgramKeepsTables(y, y.ledger, tx.body.run);
    TablesTwice(x.ledger, y.ledger, z);
    DeletedFrom(x.ledger, z, tx.body.id);
  }

  /** After an update the application has the new programs, and is otherwise as it was. */
  lemma {:induction false} UpdateIsSeen(x: Session, tx: Tx)
    requires tx.body.AppUpdate? && Perform(x, Steps(tx)).Success?
    ensures var s, u, id := x.ledger, Perform(x, Steps(tx)).value.ledger, tx.body.id;
            && HasApp(s, id) && u.globalApps == s.globalApps && u.appCounter == s.appCounter
            && var a, app := s.globalApps[id], AppOf(s, id);
               TablesBut(s, u, a, s.accounts[a].createdApps[id := app.(programs := tx.body.programs)],
                         s.accounts[a].appsLocalState)
  {
    var y := Paid(x, tx);
    TxComesTo(x, tx);
    PaidKeepsTables(x, tx);
    UpdateComesTo(x, tx);
    var z := Ran(y, y.ledger, tx.body.run).value.ledger;
    ProgramKeepsTables(y, y.ledger, tx.body.run);
    TablesTwice(x.ledger, y.ledger, z);
    UpdatedFrom(x.ledger, z, tx.body.id, tx.body.programs);
  }

  /** No application has the id 0, and none the next one. */
  predicate FreshFor(s: State, a: Address) {
    && 0 !in s.globalApps && a in s.accounts && 0 !in s.accounts[a].createdApps
    && a != AppAddress(s.appCounter + 1)
  }

  /** What a new application looks like in the tables. */
  ghost predicate HasCreated(s: State, u: State, a: Address, def: AppDefinition)
    requires a in s.accounts
  {
    var id := s.appCounter + 1;
    && u.appCounter == id && u.globalApps == s.globalApps[id := a]
    && a in u.accounts
    && u.accounts[a].createdApps ==
       s.accounts[a].createdApps[id := App(a, def.globalSchema, def.localSchema, def.programs)]
    && AppAddress(id) in u.accounts && u.accounts[AppAddress(id)] == EmptyAccount(0)
  }

  lemma BegunTables(s: State, a: Address, def: AppDefinition)
    requires FreshFor(s, a)
    ensures var t := Begun(s, a, def);
            && HasApp(t, 0) && AppOf(t, 0) == App(a, def.globalSchema, def.localSchema, def.programs)
            && t.globalApps - {0} == s.globalApps && t.appCounter == s.appCounter
            && t.accounts[a].createdApps - {0} == s.accounts[a].createdApps
  {
  }

  lemma NumberedTables(z: State, a: Address)
    requires HasApp(z, 0) && a in z.accounts && a != AppAddress(z.appCounter + 1)
    ensures var u, id := Numbered(z, a), z.appCounter + 1;
            && u.appCounter == id && u.globalApps == (z.globalApps - {0})[id := a]
            && a in u.accounts && u.accounts[a].createdApps == (z.accounts[a].createdApps - {0})[id := AppOf(z, 0)]
            && AppAddress(id) in u.accounts && u.accounts[AppAddress(id)] == EmptyAccount(0)
  {
  }

  lemma CreatedFrom(s: State, z: State, a: Address, def: AppDefinition)
    requires FreshFor(s, a) && SameTables(Begun(s, a, def), z)
    ensures MayFinish(z, a, true) && HasCreated(s, Numbered(z, a), a, def)
  {
    BegunTables(s, a, def);
    TablesAgree(Begun(s, a, def), z, 0);
    NumberedTables(z, a);
  }

  /** After a creation the application has the next id, and its sender has created it. */
  lemma {:induction false} CreationIsSeen(x: Session, tx: Tx)
    requires tx.body.AppCreate? && Perform(x, Steps(tx)).Success? && FreshFor(x.ledger, tx.sender)
    ensures HasCreated(x.ledger, Perform(x, Steps(tx)).value.ledger, tx.sender, tx.body.app)
  {
    var y := Paid(x, tx);
    TxComesTo(x, tx);
    CreateComesTo(x, tx);
    var t := Begun(y.ledger, tx.sender, tx.body.app);
    ProgramKeepsTables(y, t, tx.body.run);
    CreatedFrom(y.ledger, Ran(y, t, tx.body.run).value.ledger, tx.sender, tx.body.app);
  }

  // ----- groups sent to the simulator -----

  predicate InTime(tx: Tx, round: nat) {
    (tx.firstValid.Some? ==> tx.firstValid.value < round) && round < tx.lastValid
  }

  predicate DifferentIds(txs: seq<Tx>) {
    forall i, j :: 0 <= i < j < |txs| ==> txs[i].txID != txs[j].txID
  }

  /** A group takes effect exactly if all its transactions are in time and have different ids, they
      declare 1000 each on the whole, and every step of theirs succeeds, on what the steps before it
      left; at most 256 transactions are begun. Otherwise the ledger stays as it was. */
  lemma {:induction false} SentGroupComesTo(s: State, round: nat, txs: seq<Tx>)
    ensures var surplus := Total(txs) - 1000 * |txs|;
            var end := Perform(Session(s, 256, surplus), GroupSteps(txs));
            var ok := && (forall tx :: tx in txs ==> InTime(tx, round)) && DifferentIds(txs)
                      && surplus >= 0 && end.Success?;
            && (ExecuteGroup(s, round, txs).Success? <==> ok)
            && (ok ==> ExecuteGroup(s, round, txs) == Success(end.value.ledger))
            && Commit(s, round, txs) == if ok then end.value.ledger else s
  {
    TotalIsSum(txs);
    RoundsIff(txs, round);
  }

  lemma RoundsIff(txs: seq<Tx>, round: nat)
    ensures (forall tx :: tx in txs ==> InTime(tx, round)) <==>
            !exists i :: 0 <= i < |txs| && !RoundOk(txs[i], round)
  {
    if forall tx :: tx in txs ==> InTime(tx, round) {
      forall i | 0 <= i < |txs|
        ensures RoundOk(txs[i], round)
      {
        assert txs[i] in txs;
      }
    } else {
      var tx :| tx in txs && !InTime(tx, round);
      var i :| 0 <= i < |txs| && txs[i] == tx;
      assert !RoundOk(txs[i], round);
    }
  }
}
