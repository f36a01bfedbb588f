/** Who sends transactions: the holders of keys, and the running applications themselves. */
module Signers {
  import opened Wrappers
  import opened Accounts
  import opened Ledger
  import opened Chains
  import opened AlgoConservation
  import opened AppIndexInvariant
  import opened FreshAddresses
  import opened Reachability
  import AssetFrame
  import AssetInvariant
  import MB = MinimumBalance

  /** The sender holds a key, or is the application whose program submits the transaction, and the same
      is true of everything the transaction's own program submits. An application that is being created
      runs under id 0. */
  predicate Owned(tx: Tx, app: Option<nat>)
    decreases tx
  {
    && (tx.sender.Key? || (app.Some? && tx.sender == AppAddress(app.value)))
    && match tx.body
       case AppCreate(_, run) => RunOwned(run, 0)
       case AppCall(id, run) => RunOwned(run, id)
       case AppOptIn(id, run) => RunOwned(run, id)
       case AppCloseOut(id, run) => RunOwned(run, id)
       case AppDelete(id, run) => RunOwned(run, id)
       case AppUpdate(id, _, _, run) => RunOwned(run, id)
       case _ => true
  }

  predicate RunOwned(run: ProgramRun, app: nat)
    decreases run
  {
    ActionsOwned(run.actions, app)
  }

  predicate ActionsOwned(actions: seq<Action>, app: nat)
    decreases actions
  {
    actions == [] || (ActionOwned(actions[0], app) && ActionsOwned(actions[1..], app))
  }

  predicate ActionOwned(action: Action, app: nat)
    decreases action
  {
    action.Submit? ==> GroupOwned(action.group, Some(app))
  }

  predicate GroupOwned(txs: seq<Tx>, app: Option<nat>)
    decreases txs
  {
    txs == [] || (Owned(txs[0], app) && GroupOwned(txs[1..], app))
  }

  predicate RunSigned(events: seq<Event>) {
    forall i :: 0 <= i < |events| && events[i].Execute? ==> GroupOwned(events[i].txs, None)
  }

  // ----- the senders of such transactions are known -----

  ghost predicate IdsOk(s: State) {
    forall id :: id in s.globalApps ==> id <= s.appCounter
  }

  lemma PayKeepsIds(s: State, tx: Tx)
    requires tx.body.Pay? && ProcessPay(s, tx).Success?
    ensures ProcessPay(s, tx).value.globalApps == s.globalApps
  {
    var s1 := CreateIfAbsent(s, tx.body.to);
    PaySame(s1, PayTxn, tx.sender, tx.body.to, tx.body.amount, tx.closeRemainderTo);
  }

  lemma StepKeepsIds(s: State, step: Step)
    requires IdsOk(s) && Change(s, step).Success?
    ensures IdsOk(Change(s, step).value) && Change(s, step).value.appCounter >= s.appCounter
  {
    AccountsAppear(s, step);
    match step {
      case DoPay(tx) => if tx.body.Pay? { PayKeepsIds(s, tx); }
      case DoAsset(tx) => AssetFrame.BodyFrame(s, tx);
      case _ =>
    }
  }

  lemma {:induction false} PerformKeepsIds(x: Session, steps: seq<Step>)
    requires IdsOk(x.ledger) && Perform(x, steps).Success?
    ensures var y := Perform(x, steps).value; IdsOk(y.ledger) && y.ledger.appCounter >= x.ledger.appCounter
    decreases |steps|
  {
    if steps != [] {
      StepKeepsIds(x.ledger, steps[0]);
      PerformKeepsIds(Apply(x, steps[0]).value, steps[1..]);
    }
  }

  lemma {:induction false} AlongFirst(x: Session, step: Step, rest: seq<Step>, ok: (State, Step) -> bool)
    ensures Along(x, [step] + rest, ok)
            <==> Apply(x, step).Failure? || (ok(x.ledger, step) && Along(Apply(x, step).value, rest, ok))
  {
    assert ([step] + rest)[1..] == rest;
  }

  lemma {:induction false} AlongAppend(x: Session, a: seq<Step>, b: seq<Step>, ok: (State, Step) -> bool)
    requires Along(x, a, ok)
    requires Perform(x, a).Success? ==> Along(Perform(x, a).value, b, ok)
    ensures Along(x, a + b, ok)
    decreases |a|
  {
    if a == [] {
      assert a + b == b;
    } else {
      assert (a + b)[0] == a[0] && (a + b)[1..] == a[1..] + b;
      if Apply(x, a[0]).Success? {
        AlongAppend(Apply(x, a[0]).value, a[1..], b, ok);
      }
    }
  }

  lemma {:induction false} AlongOne(x: Session, step: Step, ok: (State, Step) -> bool)
    requires ok(x.ledger, step)
    ensures Along(x, [step], ok)
  {
    assert [step] + [] == [step];
    AlongFirst(x, step, [], ok);
  }

  /** `a` is known now, and so it is after any steps. */
  lemma {:induction false} StaysKnown(x: Session, steps: seq<Step>, a: Address)
    requires IdsOk(x.ledger) && Known(x.ledger, a) && Perform(x, steps).Success?
    ensures Known(Perform(x, steps).value.ledger, a)
  {
    PerformKeepsIds(x, steps);
  }

  ghost predicate AppKnown(x: Session, app: Option<nat>) {
    app.Some? ==> app.value <= x.ledger.appCounter
  }

  lemma {:induction false} GroupKnown(x: Session, txs: seq<Tx>, app: Option<nat>)
    requires IdsOk(x.ledger) && GroupOwned(txs, app) && AppKnown(x, app)
    ensures Along(x, GroupSteps(txs), SenderKnown)
    decreases txs
  {
    if txs != [] {
      TxKnown(x, txs[0], app);
      if Perform(x, Steps(txs[0])).Success? {
        PerformKeepsIds(x, Steps(txs[0]));
        GroupKnown(Perform(x, Steps(txs[0])).value, txs[1..], app);
      }
      AlongAppend(x, Steps(txs[0]), GroupSteps(txs[1..]), SenderKnown);
    }
  }

  lemma {:induction false} TxKnown(x: Session, tx: Tx, app: Option<nat>)
    requires IdsOk(x.ledger) && Owned(tx, app) && AppKnown(x, app)
    ensures Along(x, Steps(tx), SenderKnown)
    decreases tx, 1
  {
    AlongFirst(x, Begin(tx), BodySteps(tx), SenderKnown);
    if Apply(x, Begin(tx)).Success? {
      StepKeepsIds(x.ledger, Begin(tx));
      BodyKnown(Apply(x, Begin(tx)).value, tx, app);
    }
  }

  /** A program runs between two steps of its transaction, the first of which finds its application. */
  lemma {:induction false} AroundKnown(
      x: Session, first: Step, run: ProgramRun, app: nat, last: seq<Step>, sender: Address)
    requires IdsOk(x.ledger) && RunOwned(run, app) && SenderKnown(x.ledger, first) && Known(x.ledger, sender)
    requires Apply(x, first).Success? ==> app <= Apply(x, first).value.ledger.appCounter
    requires |last| <= 1 && (last != [] ==> Sender(last[0]) == None || Sender(last[0]) == Some(sender))
    ensures Along(x, [first] + RunSteps(run) + last, SenderKnown)
    decreases run, 1
  {
    AlongFirst(x, first, RunSteps(run) + last, SenderKnown);
    assert [first] + RunSteps(run) + last == [first] + (RunSteps(run) + last);
    if Apply(x, first).Success? {
      var y := Apply(x, first).value;
      StepKeepsIds(x.ledger, first);
      RunKnown(y, run, app);
      if Perform(y, RunSteps(run)).Success? {
        StaysKnown(y, RunSteps(run), sender);
      }
      AlongAppend(y, RunSteps(run), last, SenderKnown);
    }
  }

  lemma {:induction false} UpdateKnown(
      x: Session, check: Step, first: Step, run: ProgramRun, app: nat, last: Step, sender: Address)
    requires IdsOk(x.ledger) && RunOwned(run, app) && Known(x.ledger, sender)
    requires check.CheckPrograms? && first == Find(app) && last.Replace?
    ensures Along(x, [check] + ([first] + RunSteps(run) + [last]), SenderKnown)
    decreases run, 2
  {
    AroundKnown(x, first, run, app, [last], sender);
    AlongFirst(x, check, [first] + RunSteps(run) + [last], SenderKnown);
  }

  lemma {:induction false} BodyKnown(x: Session, tx: Tx, app: Option<nat>)
    requires IdsOk(x.ledger) && Owned(tx, app) && AppKnown(x, app)
    ensures Along(x, BodySteps(tx), SenderKnown)
    decreases tx, 0
  {
    match tx.body
    case AppCreate(def, run) =>
      AroundKnown(x, Enter(tx.sender, def), run, 0, [Finish(tx.sender, def.nameFree)], tx.sender);
    case AppCall(id, run) =>
      AroundKnown(x, Find(id), run, id, [], tx.sender);
      assert [Find(id)] + RunSteps(run) + [] == [Find(id)] + RunSteps(run);
    case AppOptIn(id, run) =>
      AroundKnown(x, Join(tx.sender, id), run, id, [], tx.sender);
      assert [Join(tx.sender, id)] + RunSteps(run) + [] == [Join(tx.sender, id)] + RunSteps(run);
    case AppCloseOut(id, run) => AroundKnown(x, Find(id), run, id, [Leave(tx.sender, id)], tx.sender);
    case AppDelete(id, run) => AroundKnown(x, Find(id), run, id, [Delete(id)], tx.sender);
    case AppUpdate(id, programs, valid, run) =>
      UpdateKnown(x, CheckPrograms(valid), Find(id), run, id, Replace(id, programs), tx.sender);
    case AppClear(id, run) => ClearKnown(x, tx);
    case KeyReg =>
    case _ => AlongOne(x, BodySteps(tx)[0], SenderKnown);
  }

  lemma {:induction false} LooksKnown(x: Session, actions: seq<Action>)
    requires IdsOk(x.ledger)
    ensures Along(x, ClearSteps(actions), SenderKnown)
    decreases |actions|
  {
    if actions != [] && actions[0].LookAt? {
      AlongFirst(x, Look(actions[0].account), ClearSteps(actions[1..]), SenderKnown);
      StepKeepsIds(x.ledger, Look(actions[0].account));
      LooksKnown(Apply(x, Look(actions[0].account)).value, actions[1..]);
    }
  }

  lemma {:induction false} ClearKnown(x: Session, tx: Tx)
    requires IdsOk(x.ledger) && tx.body.AppClear? && Known(x.ledger, tx.sender)
    ensures Along(x, BodySteps(tx), SenderKnown)
  {
    var find, mid, last := Find(tx.body.id), ClearSteps(tx.body.run.actions), Leave(tx.sender, tx.body.id);
    assert [find] + mid + [last] == [find] + (mid + [last]);
    AlongFirst(x, find, mid + [last], SenderKnown);
    LooksKnown(x, tx.body.run.actions);
    if Perform(x, mid).Success? {
      StaysKnown(x, mid, tx.sender);
      AlongOne(Perform(x, mid).value, last, SenderKnown);
    }
    AlongAppend(x, mid, [last], SenderKnown);
  }

  lemma {:induction false} RunKnown(x: Session, run: ProgramRun, app: nat)
    requires IdsOk(x.ledger) && RunOwned(run, app) && app <= x.ledger.appCounter
    ensures Along(x, RunSteps(run), SenderKnown)
    decreases run, 0
  {
    ActionsKnown(x, run.actions, app);
    if Perform(x, ActionSteps(run.actions)).Success? {
      AlongOne(Perform(x, ActionSteps(run.actions)).value, Verdict(run.approved), SenderKnown);
    }
    AlongAppend(x, ActionSteps(run.actions), [Verdict(run.approved)], SenderKnown);
  }

  lemma {:induction false} ActionsKnown(x: Session, actions: seq<Action>, app: nat)
    requires IdsOk(x.ledger) && ActionsOwned(actions, app) && app <= x.ledger.appCounter
    ensures Along(x, ActionSteps(actions), SenderKnown)
    decreases actions
  {
    if actions != [] {
      var steps := StepsOf(actions[0]);
      ActionKnown(x, actions[0], app);
      if Perform(x, steps).Success? {
        PerformKeepsIds(x, steps);
        ActionsKnown(Perform(x, steps).value, actions[1..], app);
      }
      AlongAppend(x, steps, ActionSteps(actions[1..]), SenderKnown);
    }
  }

  lemma {:induction false} ActionKnown(x: Session, action: Action, app: nat)
    requires IdsOk(x.ledger) && ActionOwned(action, app) && app <= x.ledger.appCounter
    ensures Along(x, StepsOf(action), SenderKnown)
    decreases action
  {
    match action
    case LookAt(a) => AlongOne(x, Look(a), SenderKnown);
    case Submit(group) =>
      AlongFirst(x, Settle(group), if Submittable(group) then GroupSteps(group) else [], SenderKnown);
      if Submittable(group) && Apply(x, Settle(group)).Success? {
        GroupKnown(Apply(x, Settle(group)).value, group, Some(app));
      }
  }

  // ----- every run from the start -----

  lemma {:induction false} RunIsKnown(c: Chain, t0: int, events: seq<Event>)
    requires IdsOk(c.store) && BlocksOk(c, t0) && RunSigned(events)
    ensures RunAlong(c, events, SenderKnown)
    decreases |events|
  {
    if events != [] {
      NextKeepsBlocks(c, t0, events[0]);
      if Succeeds(c, events[0]) {
        GroupKnown(Fresh(c.store, events[0].txs), events[0].txs, None);
        PerformKeepsIds(Fresh(c.store, events[0].txs), GroupSteps(events[0].txs));
      }
      assert RunSigned(events[1..]) by {
        forall i | 0 <= i < |events[1..]| && events[1..][i].Execute?
          ensures GroupOwned(events[1..][i].txs, None)
        {
          assert events[1..][i] == events[i + 1];
        }
      }
      RunIsKnown(Next(c, events[0]), t0, events[1..]);
    }
  }

  /** Funded accounts that own nothing yet. */
  predicate Funded(who: seq<(Address, Account)>) {
    forall i :: 0 <= i < |who| ==> who[i].1.amount >= 0 && OwnsNothing(who[i].1)
  }

  ghost predicate OnlyFunded(s: State) {
    && s.globalApps == map[] && s.assetDefs == map[]
    && forall a :: a in s.accounts ==> s.accounts[a].amount >= 0 && OwnsNothing(s.accounts[a])
  }

  lemma EnrollingOne(s: State, a: Address, acc: Account)
    requires OnlyFunded(s) && acc.amount >= 0 && OwnsNothing(acc)
    ensures OnlyFunded(Enroll(s, a, acc))
  {
    assert Enroll(s, a, acc).globalApps.Keys == {} && Enroll(s, a, acc).assetDefs.Keys == {};
  }

  lemma {:induction false} EnrollingKeepsFunded(s: State, who: seq<(Address, Account)>)
    requires OnlyFunded(s) && Funded(who)
    ensures OnlyFunded(EnrollAll(s, who))
    decreases |who|
  {
    if who != [] {
      var n := |who| - 1;
      EnrollingKeepsFunded(s, who[..n]);
      EnrollingOne(EnrollAll(s, who[..n]), who[n].0, who[n].1);
    }
  }

  lemma FundedIsSound(s: State)
    requires OnlyFunded(s)
    ensures Sound(s, Idle) && AllExact(s) && IdsOk(s)
  {
    AssetInvariant.NoAssetsKeep(s);
    NoAppsKeep(s);
    forall a | a in s.accounts
      ensures MB.Exact(s.accounts[a])
    {
      MB.EmptyAccountIsExact(s.accounts[a].amount);
    }
  }

  lemma FirstStoreFunded(defaults: seq<Address>, given: seq<(Address, Account)>)
    requires Funded(given)
    ensures OnlyFunded(FirstStore(DefaultAccounts(defaults), given))
  {
    var who := DefaultAccounts(defaults);
    assert Funded(who) by {
      forall i | 0 <= i < |who|
        ensures who[i].1 == EmptyAccount(DEFAULT_BALANCE)
      {
      }
    }
    EnrollingKeepsFunded(NOTHING, who);
    EnrollingKeepsFunded(InitializeAccounts(NOTHING, who), given);
  }

  /** A simulator started with funded accounts starts sound, with every minimum balance exact. */
  lemma StartIsSound(defaults: seq<Address>, given: seq<(Address, Account)>, clock: int)
    requires clock > 0 && Funded(given)
    ensures var c := Start(DefaultAccounts(defaults), given, clock);
            Sound(c.store, Idle) && AllExact(c.store) && IdsOk(c.store) && BlocksOk(c, clock)
  {
    StartSucceeds(DefaultAccounts(defaults), given, clock);
    FirstStoreFunded(defaults, given);
    FundedIsSound(Start(DefaultAccounts(defaults), given, clock).store);
  }

  /** Every run of payments between known addresses loses nothing by deployments. */
  lemma {:induction false} NothingIsLost(
      defaults: seq<Address>, given: seq<(Address, Account)>, clock: int,
      events: seq<Event>)
    requires clock > 0 && Funded(given)
    requires var c := Start(DefaultAccounts(defaults), given, clock);
             UnfundedAhead(c.store) && RunAlong(c, events, PartiesKnown)
    ensures var c := Start(DefaultAccounts(defaults), given, clock);
            TotalAlgos(Run(c, events).store) + Fees(c, events) == TotalAlgos(c.store)
  {
    StartIsSound(defaults, given, clock);
    var c := Start(DefaultAccounts(defaults), given, clock);
    RunConservesAlgos(c, clock, events);
    RunLosesNothing(c, clock, events);
  }

  /** The simulator as a whole. Start it with any funded accounts, and let it run any events in which no
      application still to be deployed sends a transaction: every ledger it reaches is sound; the minimum
      balances are exact unless an asset was destroyed that somebody else held; and the balances, the
      fees and what deployments overwrote add up to the funds. */
  lemma {:induction false} EveryRunFromStart(
      defaults: seq<Address>, given: seq<(Address, Account)>, clock: int,
      events: seq<Event>)
    requires clock > 0 && Funded(given)
    requires RunAlong(Start(DefaultAccounts(defaults), given, clock), events, SenderKnown)
    ensures var c := Start(DefaultAccounts(defaults), given, clock);
            var end := Run(c, events);
            && Sound(end.store, Idle) && BlocksOk(end, clock)
            && (AllExact(end.store) <==> RunAlong(c, events, DropsNothing))
            && TotalAlgos(end.store) + Fees(c, events) + Lost(c, events) == TotalAlgos(c.store)
  {
    StartIsSound(defaults, given, clock);
    var c := Start(DefaultAccounts(defaults), given, clock);
    RunKeepsSound(c, clock, events);
    RunExactIff(c, clock, events);
    RunConservesAlgos(c, clock, events);
  }

  /** In particular, so it is in every run in which holders of keys send the groups, and programs submit
      transactions of their own application or of holders of keys. */
  lemma {:induction false} EverySignedRun(
      defaults: seq<Address>, given: seq<(Address, Account)>, clock: int,
      events: seq<Event>)
    requires clock > 0 && Funded(given) && RunSigned(events)
    ensures var c := Start(DefaultAccounts(defaults), given, clock);
            && RunAlong(c, events, SenderKnown) && Sound(Run(c, events).store, Idle)
  {
    StartIsSound(defaults, given, clock);
    RunIsKnown(Start(DefaultAccounts(defaults), given, clock), clock, events);
    EveryRunFromStart(defaults, given, clock, events);
  }
}
