/** Fees are pooled over a group and everything its programs submit: no transaction runs unpaid. */
module FeePools {
  import opened Wrappers
  import opened Accounts
  import opened Ledger
  import opened Limits
  import opened AlgoConservation
  import InnerFees

  /** How many transactions the steps begin, outer and inner ones. */
  function Begins(steps: seq<Step>): nat {
    if steps == [] then 0 else (if steps[0].Begin? then 1 else 0) + Begins(steps[1..])
  }

  /** The fees these transactions declare. */
  function DeclaredBy(steps: seq<Step>): nat {
    if steps == [] then 0 else (if steps[0].Begin? then Declared(steps[0].tx) else 0) + DeclaredBy(steps[1..])
  }

  /** How a step moves the credit. */
  function SettledBy(step: Step): int {
    if step.Settle? && Submittable(step.group) then InnerFees.Credit(0, DeclaredFees(step.group)) else 0
  }

  function Settled(steps: seq<Step>): int {
    if steps == [] then 0 else SettledBy(steps[0]) + Settled(steps[1..])
  }

  /** What the transactions declare beyond the minimum and no submission has counted yet. */
  function Unsettled(steps: seq<Step>): int {
    DeclaredBy(steps) - MIN_TX_FEE * Begins(steps) - Settled(steps)
  }

  lemma {:induction false} SumsAppend(a: seq<Step>, b: seq<Step>)
    ensures Begins(a + b) == Begins(a) + Begins(b)
    ensures Unsettled(a + b) == Unsettled(a) + Unsettled(b)
  {
    if a == [] {
      assert a + b == b;
    } else {
      assert (a + b)[0] == a[0] && (a + b)[1..] == a[1..] + b;
      SumsAppend(a[1..], b);
    }
  }

  lemma {:induction false} OneUnsettled(step: Step)
    ensures Begins([step]) == if step.Begin? then 1 else 0
    ensures Unsettled([step]) == (if step.Begin? then Declared(step.tx) - MIN_TX_FEE else 0) - SettledBy(step)
  {
    assert [step][1..] == [];
    assert Settled([step]) == SettledBy(step);
    assert DeclaredBy([step]) == if step.Begin? then Declared(step.tx) else 0;
    assert Begins([step]) == if step.Begin? then 1 else 0;
  }

  lemma {:induction false} CreditOfFirst(txs: seq<Tx>)
    requires txs != []
    ensures InnerFees.Credit(0, DeclaredFees(txs))
            == Declared(txs[0]) - MIN_TX_FEE + InnerFees.Credit(0, DeclaredFees(txs[1..]))
  {
    assert DeclaredFees(txs) == [Declared(txs[0])] + DeclaredFees(txs[1..]);
    InnerFees.FeeSumFirst(Declared(txs[0]), DeclaredFees(txs[1..]));
  }

  // ----- a submission counts exactly what it runs -----

  lemma {:induction false} GroupUnsettled(txs: seq<Tx>)
    ensures Unsettled(GroupSteps(txs)) == InnerFees.Credit(0, DeclaredFees(txs))
    decreases txs
  {
    if txs != [] {
      TxUnsettled(txs[0]);
      GroupUnsettled(txs[1..]);
      SumsAppend(Steps(txs[0]), GroupSteps(txs[1..]));
      CreditOfFirst(txs);
    }
  }

  lemma {:induction false} TxUnsettled(tx: Tx)
    ensures Unsettled(Steps(tx)) == Declared(tx) - MIN_TX_FEE
    decreases tx, 1
  {
    OneUnsettled(Begin(tx));
    SumsAppend([Begin(tx)], BodySteps(tx));
    BodySettled(tx);
  }

  /** A step that neither begins a transaction nor submits a group. */
  predicate Free(step: Step) {
    !step.Begin? && !step.Settle?
  }

  lemma {:induction false} AroundSettled(first: Step, mid: seq<Step>, last: seq<Step>)
    requires Unsettled(mid) == 0 && Free(first) && |last| <= 1 && (last != [] ==> Free(last[0]))
    ensures Unsettled([first] + mid) == 0 && Unsettled([first] + mid + last) == 0
  {
    OneUnsettled(first);
    SumsAppend([first], mid);
    if last != [] {
      assert last == [last[0]];
      OneUnsettled(last[0]);
    }
    SumsAppend([first] + mid, last);
  }

  lemma {:induction false} BodySettled(tx: Tx)
    ensures Unsettled(BodySteps(tx)) == 0
    decreases tx, 0
  {
    match tx.body
    case AppCreate(def, run) =>
      RunSettled(run);
      AroundSettled(Enter(tx.sender, def), RunSteps(run), [Finish(tx.sender, def.nameFree)]);
    case AppCall(id, run) =>
      RunSettled(run);
      AroundSettled(Find(id), RunSteps(run), []);
    case AppOptIn(id, run) =>
      RunSettled(run);
      AroundSettled(Join(tx.sender, id), RunSteps(run), []);
    case AppCloseOut(id, run) =>
      RunSettled(run);
      AroundSettled(Find(id), RunSteps(run), [Leave(tx.sender, id)]);
    case AppClear(id, run) =>
      ClearSettled(run.actions);
      AroundSettled(Find(id), ClearSteps(run.actions), [Leave(tx.sender, id)]);
    case AppDelete(id, run) =>
      RunSettled(run);
      AroundSettled(Find(id), RunSteps(run), [Step.Delete(id)]);
    case AppUpdate(id, programs, valid, run) =>
      RunSettled(run);
      AroundSettled(Find(id), RunSteps(run), [Replace(id, programs)]);
      AroundSettled(CheckPrograms(valid), [Find(id)] + RunSteps(run) + [Replace(id, programs)], []);
    case KeyReg =>
    case _ => OneUnsettled(BodySteps(tx)[0]);
  }

  lemma {:induction false} ClearSettled(actions: seq<Action>)
    ensures Unsettled(ClearSteps(actions)) == 0
    decreases |actions|
  {
    if actions != [] && actions[0].LookAt? {
      ClearSettled(actions[1..]);
      OneUnsettled(Look(actions[0].account));
      SumsAppend([Look(actions[0].account)], ClearSteps(actions[1..]));
    }
  }

  lemma {:induction false} RunSettled(run: ProgramRun)
    ensures Unsettled(RunSteps(run)) == 0
    decreases run
  {
    ActionsSettled(run.actions);
    OneUnsettled(Verdict(run.approved));
    SumsAppend(ActionSteps(run.actions), [Verdict(run.approved)]);
  }

  lemma {:induction false} ActionsSettled(actions: seq<Action>)
    ensures Unsettled(ActionSteps(actions)) == 0
    decreases actions
  {
    if actions != [] {
      ActionSettled(actions[0]);
      ActionsSettled(actions[1..]);
      SumsAppend(StepsOf(actions[0]), ActionSteps(actions[1..]));
    }
  }

  lemma {:induction false} ActionSettled(action: Action)
    ensures Unsettled(StepsOf(action)) == 0
    decreases action
  {
    match action
    case LookAt(a) => OneUnsettled(Look(a));
    case Submit(group) =>
      var rest := if Submittable(group) then GroupSteps(group) else [];
      OneUnsettled(Settle(group));
      SumsAppend([Settle(group)], rest);
      if Submittable(group) {
        GroupUnsettled(group);
      }
  }

  // ----- and is refused if that is too little -----

  lemma {:induction false} PerformCounts(x: Session, steps: seq<Step>)
    requires Perform(x, steps).Success?
    ensures var y := Perform(x, steps).value;
            && y.slots == x.slots - Begins(steps) && y.credit == x.credit + Settled(steps)
            && (x.credit >= 0 ==> y.credit >= 0)
    decreases |steps|
  {
    if steps != [] {
      PerformCounts(Apply(x, steps[0]).value, steps[1..]);
    }
  }

  /** Every transaction that is begun is charged what it declares, or more. */
  lemma {:induction false} ChargedCoversDeclared(x: Session, steps: seq<Step>)
    requires Perform(x, steps).Success?
    ensures Charged(steps) >= DeclaredBy(steps)
    decreases |steps|
  {
    if steps != [] {
      ChargedCoversDeclared(Apply(x, steps[0]).value, steps[1..]);
    }
  }

  /** What the transactions declare less than 1000, where the fee is not flat: they are charged it all
      the same. */
  function Shortfalls(steps: seq<Step>): nat {
    if steps == [] then 0 else Shortfall(steps[0]) + Shortfalls(steps[1..])
  }

  function Shortfall(step: Step): nat {
    if step.Begin? && !step.tx.flatFee && step.tx.fee.Some? && step.tx.fee.value < 1000
    then 1000 - step.tx.fee.value else 0
  }

  /** The charge is what is declared and the shortfalls, neither more nor less. */
  lemma {:induction false} ChargedExactly(x: Session, steps: seq<Step>)
    requires Perform(x, steps).Success?
    ensures Charged(steps) == DeclaredBy(steps) + Shortfalls(steps)
    decreases |steps|
  {
    if steps != [] {
      ChargedExactly(Apply(x, steps[0]).value, steps[1..]);
    }
  }

  /** So this is what a successful group takes out of the ledger, apart from what deployments overwrite. */
  lemma {:induction false} GroupLosesExactly(s: State, txs: seq<Tx>)
    requires ProcessTransactions(s, txs).Success?
    ensures TotalAlgos(ProcessTransactions(s, txs).value)
            + DeclaredBy(GroupSteps(txs)) + Shortfalls(GroupSteps(txs)) + OverwrittenBy(Fresh(s, txs), GroupSteps(txs))
            == TotalAlgos(s)
  {
    GroupConservesAlgos(s, txs);
    ChargedExactly(Fresh(s, txs), GroupSteps(txs));
  }

  lemma {:induction false} GroupBegins(txs: seq<Tx>)
    ensures Begins(GroupSteps(txs)) >= |txs|
    decreases |txs|
  {
    if txs != [] {
      GroupBegins(txs[1..]);
      OneUnsettled(Begin(txs[0]));
      SumsAppend([Begin(txs[0])], BodySteps(txs[0]));
      SumsAppend(Steps(txs[0]), GroupSteps(txs[1..]));
    }
  }

  /** However a successful group nests its inner transactions and wherever their fees are declared: the
      group is charged the minimum fee for every transaction it begins, outer and inner; what it
      declares beyond that is the credit it ends with; and it begins at most 256 of them. */
  lemma {:induction false} GroupPaysMinimumFees(s: State, txs: seq<Tx>)
    requires ProcessTransactions(s, txs).Success?
    ensures var begun := Begins(GroupSteps(txs));
            && |txs| <= begun <= MAX_GROUP_TXNS
            && Charged(GroupSteps(txs)) >= MIN_TX_FEE * begun
    ensures var end := Perform(Fresh(s, txs), GroupSteps(txs)).value;
            && end.slots == MAX_GROUP_TXNS - Begins(GroupSteps(txs))
            && end.credit == DeclaredBy(GroupSteps(txs)) - MIN_TX_FEE * Begins(GroupSteps(txs)) >= 0
  {
    GroupBegins(txs);
    GroupUnsettled(txs);
    PerformCounts(Fresh(s, txs), GroupSteps(txs));
    ChargedCoversDeclared(Fresh(s, txs), GroupSteps(txs));
  }

  /** A group whose transactions all take the default fee is never refused for its fees. */
  lemma {:induction false} DefaultFeesAreEnough(x: Session, group: seq<Tx>)
    requires x.credit >= 0 && DeclaredFees(group) == InnerFees.DefaultFees(x.credit, |group|)
    ensures Apply(x, Settle(group)).Success?
  {
    InnerFees.DefaultFeesClosedForm(x.credit, |group|);
  }
}
