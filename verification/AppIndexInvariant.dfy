/** In every ledger that transactions can produce, the index of applications agrees with the
    accounts' own tables. */
module AppIndexInvariant {
  import opened Wrappers
  import opened Accounts
  import opened Ledger
  import AssetFrame

  /** While the approval program of a deployment runs, the new application has the id 0. */
  datatype Phase = Idle | Entered(from: Address)

  /** The phase after a step, if the step can be taken in phase `p`. */
  function NextPhase(p: Phase, step: Step): Option<Phase> {
    match step
    case Enter(from, _) => if p.Idle? then Some(Entered(from)) else None
    case Finish(from, _) => if p == Entered(from) then Some(Idle) else None
    case Delete(_) => if p.Idle? then Some(p) else None
    case _ => Some(p)
  }

  predicate Owns(s: State, a: Address, id: nat) {
    a in s.accounts && id in s.accounts[a].createdApps
  }

  ghost predicate Inv(s: State, p: Phase) {
    && (forall id :: id in s.globalApps ==> id <= s.appCounter && Owns(s, s.globalApps[id], id))
    && (forall a, id :: Owns(s, a, id) ==> id in s.globalApps && s.globalApps[id] == a)
    && (match p case Idle => 0 !in s.globalApps case Entered(from) => Owns(s, from, 0))
  }

  lemma NoAppsKeep(s: State)
    requires forall a :: a in s.accounts ==> s.accounts[a].createdApps == map[]
    requires s.globalApps == map[]
    ensures Inv(s, Idle)
  {
  }

  /** Between transactions, an id is indexed at `a` exactly when `a` is the one account that created
      it; id 0 is indexed nowhere, and looking up an id succeeds exactly when it is indexed. */
  lemma IndexAgrees(s: State, id: nat, a: Address)
    requires Inv(s, Idle)
    ensures (id in s.globalApps && s.globalApps[id] == a)
            <==> (Owns(s, a, id) && forall b :: Owns(s, b, id) ==> b == a)
    ensures id in s.globalApps <==> GetApp(s, id).Success?
    ensures 0 !in s.globalApps && !Owns(s, a, 0)
  {
    assert Owns(s, a, 0) ==> 0 in s.globalApps;
  }

  lemma PutKeeps(s: State, p: Phase, a: Address, acc: Account)
    requires Inv(s, p)
    requires acc.createdApps.Keys == if a in s.accounts then s.accounts[a].createdApps.Keys else {}
    ensures Inv(Put(s, a, acc), p)
  {
    assert forall b, id :: Owns(Put(s, a, acc), b, id) <==> Owns(s, b, id);
  }

  /** Both ledgers have the same accounts with the same applications. */
  ghost predicate SameApps(s: State, t: State) {
    && t.globalApps == s.globalApps && t.appCounter == s.appCounter
    && t.accounts.Keys == s.accounts.Keys
    && forall a :: a in s.accounts ==> t.accounts[a].createdApps == s.accounts[a].createdApps
  }

  lemma SameAppsKeep(s: State, p: Phase, t: State)
    requires Inv(s, p) && SameApps(s, t)
    ensures Inv(t, p)
  {
    assert forall a, id :: Owns(t, a, id) <==> Owns(s, a, id);
  }

  lemma AddAmountSame(s: State, a: Address, delta: int)
    requires a in s.accounts
    ensures SameApps(s, AddAmount(s, a, delta))
  {
  }

  lemma CloseRemainderSame(s: State, from: Address, closeTo: Address)
    requires from in s.accounts && CloseRemainder(s, from, closeTo).Success?
    ensures SameApps(s, CloseRemainder(s, from, closeTo).value)
  {
    AddAmountSame(s, closeTo, s.accounts[from].amount);
    var s1 := AddAmount(s, closeTo, s.accounts[from].amount);
    AddAmountSame(s1, from, -s1.accounts[from].amount);
  }

  lemma PaySame(s: State, t: TxnType, from: Address, to: Address, amount: nat, closeTo: Option<Address>)
    requires TransferAlgo(s, t, from, to, amount, closeTo).Success?
    ensures SameApps(s, TransferAlgo(s, t, from, to, amount, closeTo).value)
  {
    var delta: int := amount;
    AddAmountSame(s, from, -delta);
    AddAmountSame(AddAmount(s, from, -delta), to, delta);
    if closeTo.Some? {
      CloseRemainderSame(AddAmount(AddAmount(s, from, -delta), to, delta), from, closeTo.value);
    }
  }

  lemma LookKeeps(s: State, p: Phase, a: Address)
    requires Inv(s, p)
    ensures Inv(CreateIfAbsent(s, a), p)
  {
    if a !in s.accounts {
      PutKeeps(s, p, a, EmptyAccount(0));
    }
  }

  lemma PayKeeps(s: State, p: Phase, tx: Tx)
    requires tx.body.Pay? && Inv(s, p) && ProcessPay(s, tx).Success?
    ensures Inv(ProcessPay(s, tx).value, p)
  {
    LookKeeps(s, p, tx.body.to);
    var s1 := CreateIfAbsent(s, tx.body.to);
    PaySame(s1, PayTxn, tx.sender, tx.body.to, tx.body.amount, tx.closeRemainderTo);
    SameAppsKeep(s1, p, ProcessPay(s, tx).value);
  }

  lemma BeginKeeps(s: State, p: Phase, tx: Tx)
    requires Inv(s, p) && BeginTx(s, tx).Success?
    ensures Inv(BeginTx(s, tx).value, p)
  {
    var fee: int := FeeDue(tx).value;
    AddAmountSame(s, tx.sender, -fee);
    SameAppsKeep(s, p, BeginTx(s, tx).value);
  }

  lemma AssetKeeps(s: State, p: Phase, tx: Tx)
    requires Inv(s, p) && ProcessAsset(s, tx).Success?
    ensures Inv(ProcessAsset(s, tx).value, p)
  {
    AssetFrame.BodyFrame(s, tx);
    SameAppsKeep(s, p, ProcessAsset(s, tx).value);
  }

  lemma DeleteKeeps(s: State, id: nat)
    requires Inv(s, Idle) && DeleteApp(s, id).Success?
    ensures Inv(DeleteApp(s, id).value, Idle) && id !in DeleteApp(s, id).value.globalApps
  {
    var u := DeleteApp(s, id).value;
    forall a, i
      ensures Owns(u, a, i) <==> Owns(s, a, i) && i != id
    {
      assert Owns(s, a, i) ==> s.globalApps[i] == a;
    }
  }

  // ----- deploying -----

  lemma EnterKeeps(s: State, t: TxnType, from: Address, def: AppDefinition)
    requires Inv(s, Idle) && EnterApp(s, t, from, def).Success?
    ensures Inv(EnterApp(s, t, from, def).value, Entered(from))
  {
    var u := EnterApp(s, t, from, def).value;
    assert forall a, id :: Owns(u, a, id) <==> Owns(s, a, id) || (a == from && id == 0);
  }

  lemma NumberKeeps(s: State, from: Address)
    requires Inv(s, Entered(from))
    ensures NumberApp(s, from).Success?
    ensures var u := NumberApp(s, from).value;
            && Inv(u, Idle) && u.appCounter == s.appCounter + 1 && u.accounts.Keys == s.accounts.Keys
            && Owns(u, from, u.appCounter)
            && forall a :: a in s.accounts && a != from ==> u.accounts[a] == s.accounts[a]
  {
    var u := NumberApp(s, from).value;
    var id := s.appCounter + 1;
    assert id !in s.globalApps;
    forall a, i
      ensures Owns(u, a, i) <==> (Owns(s, a, i) && i != 0) || (a == from && i == id)
    {
      assert Owns(s, a, i) ==> s.globalApps[i] == a;
    }
  }

  predicate CreatedNone(s: State, p: Address) {
    p in s.accounts ==> s.accounts[p].createdApps == map[]
  }

  lemma OverwriteKeepsIff(s: State, a: Address)
    requires Inv(s, Idle)
    ensures Inv(Put(s, a, EmptyAccount(0)), Idle) <==> CreatedNone(s, a)
  {
    var t := Put(s, a, EmptyAccount(0));
    if a in s.accounts && s.accounts[a].createdApps != map[] {
      var id :| id in s.accounts[a].createdApps;
      assert Owns(s, a, id) && !Owns(t, a, id);
    } else {
      PutKeeps(s, Idle, a, EmptyAccount(0));
    }
  }

  /** As a deployment ends, it restores the agreement of index and tables exactly when it replaces no
      account that created applications; its own sender is one by then. */
  lemma DeployKeepsIff(s: State, from: Address, nameFree: bool)
    requires Inv(s, Entered(from)) && FinishApp(s, from, nameFree).Success?
    ensures var p := AppAddress(s.appCounter + 1);
            Inv(FinishApp(s, from, nameFree).value, Idle) <==> from != p && CreatedNone(s, p)
  {
    NumberKeeps(s, from);
    var u := NumberApp(s, from).value;
    assert u.appCounter in u.accounts[from].createdApps;
    OverwriteKeepsIff(u, AppAddress(u.appCounter));
  }

  // ----- every step -----

  lemma AppStepKeeps(s: State, p: Phase, step: Step)
    requires step.Join? || step.Leave? || step.Replace?
    requires Inv(s, p) && Change(s, step).Success?
    ensures Inv(Change(s, step).value, p)
  {
    match step {
      case Join(from, id) =>
        PutKeeps(s, p, from, s.accounts[from].OptInToApp(id, GetApp(s, id).value.localSchema).value);
      case Leave(from, id) => PutKeeps(s, p, from, s.accounts[from].CloseApp(id).value);
      case Replace(id, programs) => ReplaceKeeps(s, p, id, programs);
    }
  }

  lemma ReplaceKeeps(s: State, p: Phase, id: nat, programs: Programs)
    requires Inv(s, p) && ReplacePrograms(s, id, programs).Success?
    ensures Inv(ReplacePrograms(s, id, programs).value, p)
  {
    PutKeeps(s, p, s.globalApps[id], s.accounts[s.globalApps[id]].ReplacePrograms(id, programs).value);
  }

  lemma PlainStepKeeps(s: State, p: Phase, step: Step)
    requires !step.Enter? && !step.Finish? && !step.Delete?
    requires Inv(s, p) && Change(s, step).Success?
    ensures Inv(Change(s, step).value, p)
  {
    match step {
      case Begin(tx) => BeginKeeps(s, p, tx);
      case DoPay(tx) => if tx.body.Pay? { PayKeeps(s, p, tx); }
      case DoAsset(tx) => AssetKeeps(s, p, tx);
      case Look(account) => LookKeeps(s, p, account);
      case Find(_) =>
      case CheckPrograms(_) =>
      case Settle(_) =>
      case Verdict(_) =>
      case _ => AppStepKeeps(s, p, step);
    }
  }

  /** Every successful step keeps index and tables in agreement, the end of a deployment over an
      account with applications excepted. */
  lemma StepKeeps(s: State, p: Phase, step: Step)
    requires Inv(s, p) && NextPhase(p, step).Some? && Change(s, step).Success?
    requires step.Finish? ==>
      var a := AppAddress(s.appCounter + 1); step.from != a && CreatedNone(s, a)
    ensures Inv(Change(s, step).value, NextPhase(p, step).value)
  {
    match step {
      case Enter(from, def) => EnterKeeps(s, ApplTxn, from, def);
      case Finish(from, nameFree) => DeployKeepsIff(s, from, nameFree);
      case Delete(id) => DeleteKeeps(s, id);
      case _ => PlainStepKeeps(s, p, step);
    }
  }

  // ----- the phases of a transaction -----

  function PhaseAfter(p: Phase, steps: seq<Step>): Option<Phase>
    decreases |steps|
  {
    if steps == [] then Some(p)
    else
      match NextPhase(p, steps[0])
      case None => None
      case Some(q) => PhaseAfter(q, steps[1..])
  }

  lemma {:induction false} PhaseAppend(p: Phase, a: seq<Step>, b: seq<Step>)
    requires PhaseAfter(p, a).Some?
    ensures PhaseAfter(p, a + b) == PhaseAfter(PhaseAfter(p, a).value, b)
    decreases |a|
  {
    if a == [] {
      assert a + b == b;
    } else {
      assert (a + b)[0] == a[0] && (a + b)[1..] == a[1..] + b;
      PhaseAppend(NextPhase(p, a[0]).value, a[1..], b);
    }
  }

  lemma {:induction false} PhaseFirst(p: Phase, step: Step, rest: seq<Step>)
    requires NextPhase(p, step).Some?
    ensures PhaseAfter(p, [step] + rest) == PhaseAfter(NextPhase(p, step).value, rest)
  {
    assert ([step] + rest)[1..] == rest;
  }

  lemma {:induction false} PhaseAround(p: Phase, first: Step, mid: seq<Step>, last: Step)
    requires NextPhase(p, first).Some?
    requires PhaseAfter(NextPhase(p, first).value, mid) == NextPhase(p, first)
    requires NextPhase(NextPhase(p, first).value, last) == Some(p)
    ensures PhaseAfter(p, [first] + mid + [last]) == Some(p)
  {
    var q := NextPhase(p, first).value;
    assert [last] + [] == [last];
    PhaseFirst(q, last, []);
    PhaseAppend(q, mid, [last]);
    PhaseFirst(p, first, mid + [last]);
    assert [first] + mid + [last] == [first] + (mid + [last]);
  }

  /** Whatever a program submits can be run in every phase, and leaves it. */
  lemma {:induction false} RunPhase(p: Phase, run: ProgramRun)
    ensures PhaseAfter(p, RunSteps(run)) == Some(p)
    decreases run
  {
    ActionsPhase(p, run.actions);
    PhaseAppend(p, ActionSteps(run.actions), [Verdict(run.approved)]);
    PhaseFirst(p, Verdict(run.approved), []);
    assert [Verdict(run.approved)] + [] == [Verdict(run.approved)];
  }

  lemma {:induction false} ActionsPhase(p: Phase, actions: seq<Action>)
    ensures PhaseAfter(p, ActionSteps(actions)) == Some(p)
    decreases actions
  {
    if actions != [] {
      ActionPhase(p, actions[0]);
      ActionsPhase(p, actions[1..]);
      PhaseAppend(p, StepsOf(actions[0]), ActionSteps(actions[1..]));
    }
  }

  lemma {:induction false} ActionPhase(p: Phase, action: Action)
    ensures PhaseAfter(p, StepsOf(action)) == Some(p)
    decreases action
  {
    match action
    case LookAt(a) =>
      assert [Look(a)] + [] == [Look(a)];
      PhaseFirst(p, Look(a), []);
    case Submit(group) =>
      PhaseFirst(p, Settle(group), if Submittable(group) then GroupSteps(group) else []);
      if Submittable(group) {
        InnerPhase(p, group);
      }
  }

  lemma {:induction false} InnerPhase(p: Phase, txs: seq<Tx>)
    requires Submittable(txs)
    ensures PhaseAfter(p, GroupSteps(txs)) == Some(p)
    decreases txs
  {
    if txs != [] {
      InnerTxPhase(p, txs[0]);
      InnerPhase(p, txs[1..]);
      PhaseAppend(p, Steps(txs[0]), GroupSteps(txs[1..]));
    }
  }

  lemma {:induction false} InnerTxPhase(p: Phase, tx: Tx)
    requires tx.body.Type() == ApplTxn ==> tx.body.AppCall?
    ensures PhaseAfter(p, Steps(tx)) == Some(p)
    decreases tx
  {
    PhaseFirst(p, Begin(tx), BodySteps(tx));
    match tx.body
    case AppCall(id, run) =>
      RunPhase(p, run);
      PhaseFirst(p, Find(id), RunSteps(run));
    case KeyReg =>
    case _ =>
      assert BodySteps(tx) == [BodySteps(tx)[0]] + [];
      PhaseFirst(p, BodySteps(tx)[0], []);
  }

  lemma {:induction false} ClearPhase(p: Phase, actions: seq<Action>)
    ensures PhaseAfter(p, ClearSteps(actions)) == Some(p)
    decreases |actions|
  {
    if actions != [] && actions[0].LookAt? {
      ClearPhase(p, actions[1..]);
      PhaseFirst(p, Look(actions[0].account), ClearSteps(actions[1..]));
    }
  }

  /** A transaction can be run between transactions, and ends between transactions. */
  lemma {:induction false} TxPhase(tx: Tx)
    ensures PhaseAfter(Idle, Steps(tx)) == Some(Idle)
  {
    PhaseFirst(Idle, Begin(tx), BodySteps(tx));
    match tx.body
    case AppCreate(def, run) =>
      RunPhase(Entered(tx.sender), run);
      PhaseAround(Idle, Enter(tx.sender, def), RunSteps(run), Finish(tx.sender, def.nameFree));
    case AppOptIn(id, run) =>
      RunPhase(Idle, run);
      PhaseFirst(Idle, Join(tx.sender, id), RunSteps(run));
    case AppCloseOut(id, run) =>
      RunPhase(Idle, run);
      PhaseAround(Idle, Find(id), RunSteps(run), Leave(tx.sender, id));
    case AppClear(id, run) =>
      ClearPhase(Idle, run.actions);
      PhaseAround(Idle, Find(id), ClearSteps(run.actions), Leave(tx.sender, id));
    case AppDelete(id, run) =>
      RunPhase(Idle, run);
      PhaseAround(Idle, Find(id), RunSteps(run), Delete(id));
    case AppUpdate(id, programs, valid, run) =>
      RunPhase(Idle, run);
      PhaseAround(Idle, Find(id), RunSteps(run), Replace(id, programs));
      PhaseFirst(Idle, CheckPrograms(valid), [Find(id)] + RunSteps(run) + [Replace(id, programs)]);
    case _ => InnerTxPhase(Idle, tx);
  }

  lemma {:induction false} GroupPhase(txs: seq<Tx>)
    ensures PhaseAfter(Idle, GroupSteps(txs)) == Some(Idle)
    decreases |txs|
  {
    if txs != [] {
      TxPhase(txs[0]);
      GroupPhase(txs[1..]);
      PhaseAppend(Idle, Steps(txs[0]), GroupSteps(txs[1..]));
    }
  }
}
