/** What holds of the ledger over every run of groups and blocks. */
module Reachability {
  import opened Wrappers
  import opened Accounts
  import opened Ledger
  import opened Chains
  import opened AlgoConservation
  import opened AppIndexInvariant
  import opened FreshAddresses
  import AssetFrame
  import AssetInvariant
  import BalanceInvariant
  import MB = MinimumBalance

  /** All the invariants of a ledger together. */
  ghost predicate Sound(s: State, p: Phase) {
    AssetInvariant.Inv(s) && BalanceInvariant.Inv(s) && AppIndexInvariant.Inv(s, p) && BlankAhead(s)
  }

  // ----- one step -----

  /** Every step of a known sender keeps the ledger sound; no condition is needed on what a deployment
      replaces, because nothing but Algos can be at an address ahead of its application. */
  lemma StepKeepsSound(s: State, p: Phase, step: Step)
    requires Sound(s, p) && NextPhase(p, step).Some? && SenderKnown(s, step) && Change(s, step).Success?
    ensures Sound(Change(s, step).value, NextPhase(p, step).value)
  {
    if step.Finish? {
      ReplacesNothing(s, step);
    }
    AssetInvariant.StepKeeps(s, step);
    BalanceInvariant.StepKeeps(s, p, step);
    AppIndexInvariant.StepKeeps(s, p, step);
    KeepsBlankAhead(s, step);
  }

  /** The destruction of an asset takes a holding from an account that did not create it. */
  ghost predicate DropsSomething(s: State, step: Step) {
    step.DoAsset? && step.tx.body.AssetDestroy? && exists a :: BalanceInvariant.Drops(s, step.tx.body.id, a)
  }

  /** In a sound ledger, a step moves the recorded minimum of an account away from the closed form by
      one asset fee if it destroys an asset that the account holds and did not create, and by nothing
      else. */
  lemma StepMovesOnlyDropped(s: State, p: Phase, step: Step, a: Address)
    requires Sound(s, p) && NextPhase(p, step).Some? && SenderKnown(s, step) && Change(s, step).Success?
    requires a in s.accounts
    ensures a in Change(s, step).value.accounts
    ensures MB.Excess(Change(s, step).value.accounts[a])
            == MB.Excess(s.accounts[a])
               + if step.DoAsset? && step.tx.body.AssetDestroy? && BalanceInvariant.Drops(s, step.tx.body.id, a)
                 then ASSET_CREATION_FEE else 0
  {
    if step.Finish? && a == AppAddress(s.appCounter + 1) {
      ReplacesNothing(s, step);
      MB.EmptyAccountIsExact(s.accounts[a].amount);
      FinishAddsAccount(s, step.from, step.nameFree);
      BalanceInvariant.NewAccountsExact(s, step, a);
    } else {
      BalanceInvariant.StepExcess(s, p, step, a);
      BalanceInvariant.OnlyDropsAdd(s, p, step, a);
    }
  }

  ghost predicate AllExact(s: State) {
    forall a :: a in s.accounts ==> MB.Exact(s.accounts[a])
  }

  lemma StepExactIff(s: State, p: Phase, step: Step)
    requires Sound(s, p) && NextPhase(p, step).Some? && SenderKnown(s, step) && Change(s, step).Success?
    ensures AllExact(Change(s, step).value) <==> AllExact(s) && !DropsSomething(s, step)
  {
    var u := Change(s, step).value;
    forall a | a in s.accounts
      ensures a in u.accounts
      ensures MB.Exact(u.accounts[a]) <==>
              MB.Exact(s.accounts[a])
              && !(step.DoAsset? && step.tx.body.AssetDestroy? && BalanceInvariant.Drops(s, step.tx.body.id, a))
    {
      StepMovesOnlyDropped(s, p, step, a);
      assert BalanceInvariant.Covered(s.accounts[a]);
    }
    forall a | a in u.accounts && a !in s.accounts
      ensures MB.Exact(u.accounts[a])
    {
      BalanceInvariant.NewAccountsExact(s, step, a);
    }
    if DropsSomething(s, step) {
      var a :| BalanceInvariant.Drops(s, step.tx.body.id, a);
      assert !MB.Exact(u.accounts[a]);
    }
  }

  // ----- many steps -----

  /** `ok` holds of every step that is taken, in the ledger it finds. */
  ghost predicate Along(x: Session, steps: seq<Step>, ok: (State, Step) -> bool)
    decreases |steps|
  {
    steps == [] || Apply(x, steps[0]).Failure?
    || (ok(x.ledger, steps[0]) && Along(Apply(x, steps[0]).value, steps[1..], ok))
  }

  lemma {:induction false} FirstTaken(x: Session, p: Phase, steps: seq<Step>)
    requires PhaseAfter(p, steps).Some? && Along(x, steps, SenderKnown)
    requires Perform(x, steps).Success? && steps != []
    ensures Apply(x, steps[0]).Success? && NextPhase(p, steps[0]).Some? && SenderKnown(x.ledger, steps[0])
    ensures var y, q, rest := Apply(x, steps[0]).value, NextPhase(p, steps[0]).value, steps[1..];
            && Change(x.ledger, steps[0]) == Success(y.ledger)
            && PhaseAfter(q, rest) == PhaseAfter(p, steps) && Along(y, rest, SenderKnown)
            && Perform(y, rest) == Perform(x, steps)
  {
  }

  /** The first of many steps, and the rest. */
  lemma {:induction false} FirstStep(x: Session, p: Phase, steps: seq<Step>)
    requires Sound(x.ledger, p) && PhaseAfter(p, steps).Some? && Along(x, steps, SenderKnown)
    requires Perform(x, steps).Success? && steps != []
    ensures Apply(x, steps[0]).Success? && NextPhase(p, steps[0]).Some? && SenderKnown(x.ledger, steps[0])
    ensures var y, q, rest := Apply(x, steps[0]).value, NextPhase(p, steps[0]).value, steps[1..];
            && Sound(y.ledger, q) && Change(x.ledger, steps[0]) == Success(y.ledger)
            && PhaseAfter(q, rest) == PhaseAfter(p, steps) && Along(y, rest, SenderKnown)
            && Perform(y, rest) == Perform(x, steps)
  {
    FirstTaken(x, p, steps);
    StepKeepsSound(x.ledger, p, steps[0]);
  }

  lemma {:induction false} PerformKeepsSound(x: Session, p: Phase, steps: seq<Step>)
    requires Sound(x.ledger, p) && PhaseAfter(p, steps).Some? && Along(x, steps, SenderKnown)
    requires Perform(x, steps).Success?
    ensures Sound(Perform(x, steps).value.ledger, PhaseAfter(p, steps).value)
    decreases |steps|
  {
    if steps != [] {
      FirstStep(x, p, steps);
      PerformKeepsSound(Apply(x, steps[0]).value, NextPhase(p, steps[0]).value, steps[1..]);
    }
  }

  ghost predicate DropsNothing(s: State, step: Step) {
    !DropsSomething(s, step)
  }

  lemma {:induction false} PerformExactIff(x: Session, p: Phase, steps: seq<Step>)
    requires Sound(x.ledger, p) && PhaseAfter(p, steps).Some? && Along(x, steps, SenderKnown)
    requires Perform(x, steps).Success?
    ensures AllExact(Perform(x, steps).value.ledger) <==> AllExact(x.ledger) && Along(x, steps, DropsNothing)
    decreases |steps|
  {
    if steps != [] {
      var y, q := Apply(x, steps[0]).value, NextPhase(p, steps[0]).value;
      FirstStep(x, p, steps);
      StepExactIff(x.ledger, p, steps[0]);
      PerformExactIff(y, q, steps[1..]);
    }
  }

  lemma {:induction false} PerformOverwritesNothing(x: Session, steps: seq<Step>)
    requires UnfundedAhead(x.ledger) && Along(x, steps, PartiesKnown) && Perform(x, steps).Success?
    ensures UnfundedAhead(Perform(x, steps).value.ledger) && OverwrittenBy(x, steps) == 0
    decreases |steps|
  {
    if steps != [] {
      KeepsUnfundedAhead(x.ledger, steps[0]);
      PerformOverwritesNothing(Apply(x, steps[0]).value, steps[1..]);
    }
  }

  // ----- the part of a ledger that transactions leave alone -----

  lemma PayKeepsBlocks(s: State, tx: Tx)
    requires tx.body.Pay? && ProcessPay(s, tx).Success?
    ensures ProcessPay(s, tx).value.blocks == s.blocks
  {
  }

  lemma FinishKeepsBlocks(s: State, from: Address, nameFree: bool)
    requires FinishApp(s, from, nameFree).Success?
    ensures FinishApp(s, from, nameFree).value.blocks == s.blocks
  {
  }

  lemma StepKeepsBlocks(s: State, step: Step)
    requires Change(s, step).Success?
    ensures Change(s, step).value.blocks == s.blocks
  {
    match step {
      case DoPay(tx) => if tx.body.Pay? { PayKeepsBlocks(s, tx); }
      case DoAsset(tx) => AssetFrame.BodyFrame(s, tx);
      case Finish(from, nameFree) => FinishKeepsBlocks(s, from, nameFree);
      case _ =>
    }
  }

  lemma {:induction false} PerformKeepsBlocks(x: Session, steps: seq<Step>)
    requires Perform(x, steps).Success?
    ensures Perform(x, steps).value.ledger.blocks == x.ledger.blocks
    decreases |steps|
  {
    if steps != [] {
      StepKeepsBlocks(x.ledger, steps[0]);
      PerformKeepsBlocks(Apply(x, steps[0]).value, steps[1..]);
    }
  }

  // ----- runs -----

  predicate Succeeds(c: Chain, e: Event) {
    e.Execute? && ExecuteGroup(c.store, c.round, e.txs).Success?
  }

  ghost predicate EventAlong(c: Chain, e: Event, ok: (State, Step) -> bool) {
    Succeeds(c, e) ==> Along(Fresh(c.store, e.txs), GroupSteps(e.txs), ok)
  }

  /** `ok` holds of every step of every successful group of a run. */
  ghost predicate RunAlong(c: Chain, events: seq<Event>, ok: (State, Step) -> bool)
    decreases |events|
  {
    events == [] || (EventAlong(c, events[0], ok) && RunAlong(Next(c, events[0]), events[1..], ok))
  }

  lemma OnlyBlocksChange(s: State, t: State)
    requires t == s.(blocks := t.blocks)
    ensures Sound(s, Idle) ==> Sound(t, Idle)
    ensures TotalAlgos(t) == TotalAlgos(s) && (AllExact(t) <==> AllExact(s)) && (UnfundedAhead(s) ==> UnfundedAhead(t))
  {
    if Sound(s, Idle) {
      AssetInvariant.TablesKeep(s, t);
      SameAppsKeep(s, Idle, t);
    }
  }

  lemma NextKeepsBlocks(c: Chain, t0: int, e: Event)
    requires BlocksOk(c, t0)
    ensures BlocksOk(Next(c, e), t0)
    ensures !Succeeds(c, e) ==> Next(c, e).store == c.store.(blocks := Next(c, e).store.blocks)
  {
    match e
    case Execute(txs) =>
      if Succeeds(c, e) {
        PerformKeepsBlocks(Fresh(c.store, txs), GroupSteps(txs));
      }
    case Produce(clock, n) =>
      ProducingKeepsBlocks(c, t0, clock, n);
  }

  lemma NextKeepsSound(c: Chain, t0: int, e: Event)
    requires Sound(c.store, Idle) && BlocksOk(c, t0) && EventAlong(c, e, SenderKnown)
    ensures Sound(Next(c, e).store, Idle) && BlocksOk(Next(c, e), t0)
    ensures AllExact(Next(c, e).store) <==> AllExact(c.store) && EventAlong(c, e, DropsNothing)
  {
    NextKeepsBlocks(c, t0, e);
    if Succeeds(c, e) {
      GroupPhase(e.txs);
      PerformKeepsSound(Fresh(c.store, e.txs), Idle, GroupSteps(e.txs));
      PerformExactIff(Fresh(c.store, e.txs), Idle, GroupSteps(e.txs));
    } else {
      OnlyBlocksChange(c.store, Next(c, e).store);
    }
  }

  /** Every ledger reached from a sound one is sound, over any run of successful and failing groups
      and of blocks in which no application still to be deployed sends a transaction. */
  lemma {:induction false} RunKeepsSound(c: Chain, t0: int, events: seq<Event>)
    requires Sound(c.store, Idle) && BlocksOk(c, t0) && RunAlong(c, events, SenderKnown)
    ensures Sound(Run(c, events).store, Idle) && BlocksOk(Run(c, events), t0)
    decreases |events|
  {
    if events != [] {
      NextKeepsSound(c, t0, events[0]);
      RunKeepsSound(Next(c, events[0]), t0, events[1..]);
    }
  }

  /** All recorded minimum balances are the closed form after a run exactly when they were before it
      and no asset was destroyed that somebody else still held. */
  lemma {:induction false} RunExactIff(c: Chain, t0: int, events: seq<Event>)
    requires Sound(c.store, Idle) && BlocksOk(c, t0) && RunAlong(c, events, SenderKnown)
    ensures AllExact(Run(c, events).store) <==> AllExact(c.store) && RunAlong(c, events, DropsNothing)
    decreases |events|
  {
    if events != [] {
      NextKeepsSound(c, t0, events[0]);
      RunExactIff(Next(c, events[0]), t0, events[1..]);
    }
  }

  /** What a run charges in fees, those of inner transactions included, over its successful groups. */
  ghost function Fees(c: Chain, events: seq<Event>): int
    decreases |events|
  {
    if events == [] then 0
    else
      (if Succeeds(c, events[0]) then Charged(GroupSteps(events[0].txs)) else 0)
      + Fees(Next(c, events[0]), events[1..])
  }

  /** What a run overwrites by deployments. */
  ghost function Lost(c: Chain, events: seq<Event>): int
    decreases |events|
  {
    if events == [] then 0
    else
      (if Succeeds(c, events[0]) then OverwrittenBy(Fresh(c.store, events[0].txs), GroupSteps(events[0].txs)) else 0)
      + Lost(Next(c, events[0]), events[1..])
  }

  /** Over any run at all, Algos leave the ledger only as fees or by being overwritten. */
  lemma {:induction false} RunConservesAlgos(c: Chain, t0: int, events: seq<Event>)
    requires BlocksOk(c, t0)
    ensures TotalAlgos(Run(c, events).store) + Fees(c, events) + Lost(c, events) == TotalAlgos(c.store)
    decreases |events|
  {
    if events != [] {
      NextKeepsBlocks(c, t0, events[0]);
      if Succeeds(c, events[0]) {
        GroupConservesAlgos(c.store, events[0].txs);
      } else {
        OnlyBlocksChange(c.store, Next(c, events[0]).store);
      }
      RunConservesAlgos(Next(c, events[0]), t0, events[1..]);
    }
  }

  /** Nothing is overwritten while payments go between known addresses only. */
  lemma {:induction false} RunLosesNothing(c: Chain, t0: int, events: seq<Event>)
    requires UnfundedAhead(c.store) && BlocksOk(c, t0) && RunAlong(c, events, PartiesKnown)
    ensures Lost(c, events) == 0
    decreases |events|
  {
    if events != [] {
      NextKeepsBlocks(c, t0, events[0]);
      if Succeeds(c, events[0]) {
        PerformOverwritesNothing(Fresh(c.store, events[0].txs), GroupSteps(events[0].txs));
      } else {
        OnlyBlocksChange(c.store, Next(c, events[0]).store);
      }
      RunLosesNothing(Next(c, events[0]), t0, events[1..]);
    }
  }
}
