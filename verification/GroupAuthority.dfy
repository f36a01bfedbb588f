/** Whole groups: whoever has less afterwards has signed for it, whether the transaction that took it
    was sent to the simulator or submitted by a program. */
module GroupAuthority {
  import opened Wrappers
  import opened Accounts
  import opened Ledger
  import opened AlgoConservation
  import opened AppIndexInvariant
  import opened Authority
  import opened FreshAddresses
  import opened Reachability
  import AssetInvariant

  // ----- every step of a transaction stands behind its signature check -----

  ghost predicate Begun(steps: seq<Step>) {
    forall step :: step in steps && (step.DoPay? || step.DoAsset?) ==> Begin(step.tx) in steps
  }

  lemma BegunAppend(a: seq<Step>, b: seq<Step>)
    requires Begun(a) && Begun(b)
    ensures Begun(a + b)
  {
  }

  lemma {:induction false} GroupBegun(txs: seq<Tx>)
    ensures Begun(GroupSteps(txs))
    decreases txs
  {
    if txs != [] {
      TxBegun(txs[0]);
      GroupBegun(txs[1..]);
      BegunAppend(Steps(txs[0]), GroupSteps(txs[1..]));
    }
  }

  lemma {:induction false} TxBegun(tx: Tx)
    ensures Begun(Steps(tx))
    decreases tx, 1
  {
    match tx.body {
      case AppCreate(_, run) => RunBegun(run);
      case AppCall(_, run) => RunBegun(run);
      case AppOptIn(_, run) => RunBegun(run);
      case AppCloseOut(_, run) => RunBegun(run);
      case AppClear(_, run) => ClearBegun(run.actions);
      case AppDelete(_, run) => RunBegun(run);
      case AppUpdate(_, _, _, run) => RunBegun(run);
      case _ =>
    }
  }

  lemma {:induction false} ClearBegun(actions: seq<Action>)
    ensures forall step :: step in ClearSteps(actions) ==> step.Look?
    decreases |actions|
  {
    if actions != [] && actions[0].LookAt? {
      ClearBegun(actions[1..]);
    }
  }

  lemma {:induction false} RunBegun(run: ProgramRun)
    ensures Begun(RunSteps(run))
    decreases run
  {
    ActionsBegun(run.actions);
    BegunAppend(ActionSteps(run.actions), [Verdict(run.approved)]);
  }

  lemma {:induction false} ActionsBegun(actions: seq<Action>)
    ensures Begun(ActionSteps(actions))
    decreases actions
  {
    if actions != [] {
      if actions[0].Submit? {
        GroupBegun(actions[0].group);
      }
      ActionsBegun(actions[1..]);
      BegunAppend(StepsOf(actions[0]), ActionSteps(actions[1..]));
    }
  }

  lemma {:induction false} BegunAreAuthorized(x: Session, steps: seq<Step>, tx: Tx)
    requires Perform(x, steps).Success? && Begin(tx) in steps
    ensures tx.authorized
    decreases |steps|
  {
    if steps[0] != Begin(tx) {
      BegunAreAuthorized(Apply(x, steps[0]).value, steps[1..], tx);
    }
  }

  /** Step `k` of the group stands in a transaction whose signature was accepted. */
  lemma {:induction false} Authorized(x: Session, txs: seq<Tx>, k: nat)
    requires Perform(x, GroupSteps(txs)).Success? && k < |GroupSteps(txs)|
    requires GroupSteps(txs)[k].Begin? || GroupSteps(txs)[k].DoPay? || GroupSteps(txs)[k].DoAsset?
    ensures GroupSteps(txs)[k].tx.authorized
  {
    GroupBegun(txs);
    BegunAreAuthorized(x, GroupSteps(txs), GroupSteps(txs)[k].tx);
  }

  // ----- the step that did it -----

  /** The ledger that step `k` finds. */
  function Found(x: Session, steps: seq<Step>, k: nat): State
    requires k <= |steps| && Perform(x, steps[..k]).Success?
  {
    Perform(x, steps[..k]).value.ledger
  }

  lemma {:induction false} OneLater(x: Session, steps: seq<Step>, k: nat)
    requires steps != [] && k < |steps[1..]| && Apply(x, steps[0]).Success?
    requires Perform(Apply(x, steps[0]).value, steps[1..][..k]).Success?
    ensures steps[k + 1] == steps[1..][k] && Perform(x, steps[..k + 1]).Success?
    ensures Found(x, steps, k + 1) == Found(Apply(x, steps[0]).value, steps[1..], k)
  {
    assert steps[..k + 1] == [steps[0]] + steps[1..][..k];
    PerformFirst(x, steps[0], steps[1..][..k]);
  }

  lemma StepPays(s: State, p: Phase, step: Step, a: Address)
    requires Sound(s, p) && Change(s, step).Success? && a in s.accounts && !TakesFrom(s, step, a)
    ensures var t := Change(s, step).value; a in t.accounts && t.accounts[a].amount >= s.accounts[a].amount
  {
    OnlySenderPays(s, step, a);
  }

  lemma {:induction false} WhoTook(x: Session, p: Phase, steps: seq<Step>, a: Address) returns (k: nat)
    requires Sound(x.ledger, p) && PhaseAfter(p, steps).Some? && Along(x, steps, SenderKnown)
    requires Perform(x, steps).Success? && a in x.ledger.accounts
    requires a in Perform(x, steps).value.ledger.accounts ==>
               Perform(x, steps).value.ledger.accounts[a].amount < x.ledger.accounts[a].amount
    ensures k < |steps| && Perform(x, steps[..k]).Success? && TakesFrom(Found(x, steps, k), steps[k], a)
    decreases |steps|
  {
    FirstStep(x, p, steps);
    if TakesFrom(x.ledger, steps[0], a) {
      assert steps[..0] == [];
      k := 0;
    } else {
      var y, q := Apply(x, steps[0]).value, NextPhase(p, steps[0]).value;
      StepPays(x.ledger, p, steps[0], a);
      k := WhoTook(y, q, steps[1..], a);
      OneLater(x, steps, k);
      k := k + 1;
    }
  }

  /** If a successful group leaves an account with less, then a step of the group takes from this very
      account in the ledger it finds: a payment or a fee of a transaction, outer or inner, that the account
      itself sent and whose signature was accepted, or the deployment of the application whose address
      the account has. The holder of a key loses nothing to any deployment. */
  lemma WhoeverPaidSigned(s: State, txs: seq<Tx>, a: Address) returns (k: nat)
    requires Sound(s, Idle) && Along(Fresh(s, txs), GroupSteps(txs), SenderKnown)
    requires Perform(Fresh(s, txs), GroupSteps(txs)).Success? && a in s.accounts
    requires var after := Perform(Fresh(s, txs), GroupSteps(txs)).value.ledger;
             a in after.accounts ==> after.accounts[a].amount < s.accounts[a].amount
    ensures k < |GroupSteps(txs)| && Perform(Fresh(s, txs), GroupSteps(txs)[..k]).Success?
    ensures TakesFrom(Found(Fresh(s, txs), GroupSteps(txs), k), GroupSteps(txs)[k], a)
    ensures !GroupSteps(txs)[k].Finish? ==> GroupSteps(txs)[k].tx.sender == a && GroupSteps(txs)[k].tx.authorized
    ensures a.Key? ==> !GroupSteps(txs)[k].Finish?
  {
    GroupPhase(txs);
    k := WhoTook(Fresh(s, txs), Idle, GroupSteps(txs), a);
    if !GroupSteps(txs)[k].Finish? {
      Authorized(Fresh(s, txs), txs, k);
    }
  }

  lemma StepLowers(s: State, p: Phase, step: Step, a: Address, id: nat)
    requires Sound(s, p) && Change(s, step).Success? && a in s.accounts && !MayLower(s, step, a, id)
    ensures var t := Change(s, step).value;
            a in t.accounts && AssetInvariant.Held(t.accounts[a], id) >= AssetInvariant.Held(s.accounts[a], id)
  {
    OnlyTheEntitledLowerHoldings(s, step, a, id);
  }

  lemma {:induction false} WhoLowered(x: Session, p: Phase, steps: seq<Step>, a: Address, id: nat) returns (k: nat)
    requires Sound(x.ledger, p) && PhaseAfter(p, steps).Some? && Along(x, steps, SenderKnown)
    requires Perform(x, steps).Success? && a in x.ledger.accounts
    requires var after := Perform(x, steps).value.ledger;
             a in after.accounts ==>
               AssetInvariant.Held(after.accounts[a], id) < AssetInvariant.Held(x.ledger.accounts[a], id)
    ensures k < |steps| && Perform(x, steps[..k]).Success? && MayLower(Found(x, steps, k), steps[k], a, id)
    decreases |steps|
  {
    FirstStep(x, p, steps);
    if MayLower(x.ledger, steps[0], a, id) {
      assert steps[..0] == [];
      k := 0;
    } else {
      var y, q := Apply(x, steps[0]).value, NextPhase(p, steps[0]).value;
      StepLowers(x.ledger, p, steps[0], a, id);
      k := WhoLowered(y, q, steps[1..], a, id);
      OneLater(x, steps, k);
      k := k + 1;
    }
  }

  /** If a successful group leaves an account with less of an asset, then at some point of the group the
      holder, the clawback or the manager the asset had then signed for it, or a deployment replaced
      the account. */
  lemma WhoeverLoweredWasEntitled(s: State, txs: seq<Tx>, a: Address, id: nat) returns (k: nat)
    requires Sound(s, Idle) && Along(Fresh(s, txs), GroupSteps(txs), SenderKnown)
    requires Perform(Fresh(s, txs), GroupSteps(txs)).Success? && a in s.accounts
    requires var after := Perform(Fresh(s, txs), GroupSteps(txs)).value.ledger;
             a in after.accounts ==>
               AssetInvariant.Held(after.accounts[a], id) < AssetInvariant.Held(s.accounts[a], id)
    ensures k < |GroupSteps(txs)| && Perform(Fresh(s, txs), GroupSteps(txs)[..k]).Success?
    ensures MayLower(Found(Fresh(s, txs), GroupSteps(txs), k), GroupSteps(txs)[k], a, id)
    ensures GroupSteps(txs)[k].DoAsset? ==> GroupSteps(txs)[k].tx.authorized
    ensures a.Key? ==> !GroupSteps(txs)[k].Finish?
  {
    GroupPhase(txs);
    k := WhoLowered(Fresh(s, txs), Idle, GroupSteps(txs), a, id);
    if GroupSteps(txs)[k].DoAsset? {
      Authorized(Fresh(s, txs), txs, k);
    }
  }

  lemma TransferKeepsCounter(
      s: State, t: TxnType, id: nat, from: Address, to: Address, amount: nat, closeTo: Option<Address>)
    requires TransferAsset(s, t, id, from, to, amount, closeTo).Success?
    ensures TransferAsset(s, t, id, from, to, amount, closeTo).value.assetCounter == s.assetCounter
  {
  }

  lemma AssetCounterGrows(s: State, tx: Tx)
    requires ProcessAsset(s, tx).Success?
    ensures ProcessAsset(s, tx).value.assetCounter >= s.assetCounter
  {
    if tx.body.AssetTransfer? {
      TransferKeepsCounter(s, AxferTxn, tx.body.id, tx.sender, tx.body.to, tx.body.amount, tx.closeRemainderTo);
    }
  }

  lemma StepKeepsAssetCounter(s: State, step: Step)
    requires Change(s, step).Success?
    ensures Change(s, step).value.assetCounter >= s.assetCounter
  {
    if step.Finish? {
      FinishKeepsAssets(s, step.from, step.nameFree, AppAddress(0));
    } else if step.DoAsset? {
      AssetCounterGrows(s, step.tx);
    } else {
      StepKeepsAssets(s, step);
    }
  }

  ghost predicate ReconfiguresAt(x: Session, steps: seq<Step>, k: int, id: nat) {
    0 <= k < |steps| && Perform(x, steps[..k]).Success? && Reconfigures(Found(x, steps, k), steps[k], id)
  }

  ghost predicate Reconfigured(x: Session, steps: seq<Step>, id: nat) {
    exists k :: ReconfiguresAt(x, steps, k, id)
  }

  lemma ReconfiguredFirst(x: Session, steps: seq<Step>, id: nat)
    requires steps != [] && Apply(x, steps[0]).Success?
    ensures Reconfigures(x.ledger, steps[0], id) ==> Reconfigured(x, steps, id)
    ensures Reconfigured(Apply(x, steps[0]).value, steps[1..], id) ==> Reconfigured(x, steps, id)
  {
    if Reconfigures(x.ledger, steps[0], id) {
      assert ReconfiguresAt(x, steps, 0, id);
    }
    if k :| ReconfiguresAt(Apply(x, steps[0]).value, steps[1..], k, id) {
      OneLater(x, steps, k);
      assert ReconfiguresAt(x, steps, k + 1, id);
    }
  }

  lemma FollowTwice(x: AssetParams, y: AssetParams, z: AssetParams, first: bool, second: bool)
    requires RolesFollow(x, y, first) && RolesFollow(y, z, second)
    ensures RolesFollow(x, z, first || second)
  {
  }

  /** Over a whole group, an asset that is alive before and after it keeps everything but its roles,
      these change only by a reconfiguration of the manager of the moment, and blank roles stay blank. */
  lemma {:induction false} RolesFollowOverGroup(x: Session, p: Phase, steps: seq<Step>, id: nat)
    requires Sound(x.ledger, p) && PhaseAfter(p, steps).Some? && Along(x, steps, SenderKnown)
    requires Perform(x, steps).Success? && id <= x.ledger.assetCounter
    requires AssetInvariant.Live(Perform(x, steps).value.ledger, id)
    ensures AssetInvariant.Live(x.ledger, id)
    ensures RolesFollow(AssetInvariant.Params(x.ledger, id), AssetInvariant.Params(Perform(x, steps).value.ledger, id),
                        Reconfigured(x, steps, id))
    decreases |steps|
  {
    if steps != [] {
      var y, q := Apply(x, steps[0]).value, NextPhase(p, steps[0]).value;
      FirstStep(x, p, steps);
      StepKeepsAssetCounter(x.ledger, steps[0]);
      RolesFollowOverGroup(y, q, steps[1..], id);
      RolesChangeOnlyByManager(x.ledger, steps[0], id);
      FollowTwice(AssetInvariant.Params(x.ledger, id), AssetInvariant.Params(y.ledger, id),
                  AssetInvariant.Params(Perform(x, steps).value.ledger, id),
                  Reconfigures(x.ledger, steps[0], id), Reconfigured(y, steps[1..], id));
      ReconfiguredFirst(x, steps, id);
    }
  }
}
