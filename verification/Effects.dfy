/** What payments and transfers come to for any one account, however their addresses coincide. */
module Effects {
  import opened Wrappers
  import opened Accounts
  import opened Ledger
  import opened AssetInvariant

  /** What `b` gains when `amount` goes from `from` to `to`. */
  function Gain(from: Address, to: Address, amount: int, b: Address): int {
    (if b == to then amount else 0) - (if b == from then amount else 0)
  }

  /** What `b` has after `amount` went from `from` to `to` and the rest of `from`, if asked for, to
      `closeTo`; `had` is what each account had before. */
  function After(
      had: Address -> int, from: Address, to: Address, amount: int, closeTo: Option<Address>, b: Address): int
  {
    var left := had(from) + Gain(from, to, amount, from);
    if closeTo.None? then had(b) + Gain(from, to, amount, b)
    else if b == from then 0
    else had(b) + Gain(from, to, amount, b) + (if b == closeTo.value then left else 0)
  }

  // ----- Algos -----

  function BalanceIn(s: State): Address -> int {
    (a: Address) => if a in s.accounts then s.accounts[a].amount else 0
  }

  lemma TwoAmounts(s: State, from: Address, to: Address, delta: int, b: Address)
    requires from in s.accounts && to in s.accounts && b in s.accounts
    ensures var t := AddAmount(AddAmount(s, from, -delta), to, delta);
            b in t.accounts
            && t.accounts[b] == s.accounts[b].(amount := s.accounts[b].amount + Gain(from, to, delta, b))
  {
  }

  lemma ClosingEffect(s: State, from: Address, closeTo: Address, b: Address)
    requires from in s.accounts && b in s.accounts && CloseRemainder(s, from, closeTo).Success?
    ensures var t := CloseRemainder(s, from, closeTo).value;
            b in t.accounts
            && t.accounts[b] == s.accounts[b].(amount :=
                 if b == from then 0
                 else s.accounts[b].amount + (if b == closeTo then s.accounts[from].amount else 0))
  {
  }

  /** A payment changes nothing of any account but its balance, and that as `After` says. */
  lemma PaymentEffect(
      s: State, t: TxnType, from: Address, to: Address, amount: nat, closeTo: Option<Address>, b: Address)
    requires TransferAlgo(s, t, from, to, amount, closeTo).Success? && b in s.accounts
    ensures var u := TransferAlgo(s, t, from, to, amount, closeTo).value;
            b in u.accounts
            && u.accounts[b] == s.accounts[b].(amount := After(BalanceIn(s), from, to, amount, closeTo, b))
  {
    var delta: int := amount;
    TwoAmounts(s, from, to, delta, b);
    if closeTo.Some? {
      TwoAmounts(s, from, to, delta, from);
      ClosingEffect(AddAmount(AddAmount(s, from, -delta), to, delta), from, closeTo.value, b);
    }
  }

  // ----- assets -----

  function HoldingIn(s: State, id: nat): Address -> int {
    (a: Address) => if a in s.accounts then Held(s.accounts[a], id) else 0
  }

  /** The same holdings, up to the amount of asset `id` and to whether there is a holding of it. */
  ghost predicate SameBut(x: Account, y: Account, id: nat) {
    && x.assets - {id} == y.assets - {id}
    && (id in x.assets && id in y.assets ==> y.assets[id] == x.assets[id].(amount := y.assets[id].amount))
  }

  ghost predicate OnlyAmounts(s: State, t: State, id: nat) {
    t.accounts.Keys == s.accounts.Keys && forall b :: b in s.accounts ==> SameBut(s.accounts[b], t.accounts[b], id)
  }

  ghost predicate KeepsHolders(s: State, t: State, id: nat) {
    forall b :: Holds(s, b, id) ==> Holds(t, b, id)
  }

  lemma SameTwice(x: Account, y: Account, z: Account, id: nat)
    requires SameBut(x, y, id) && SameBut(y, z, id) && (id in x.assets ==> id in y.assets)
    ensures SameBut(x, z, id)
  {
  }

  lemma Twice(s: State, t: State, u: State, id: nat)
    requires OnlyAmounts(s, t, id) && KeepsHolders(s, t, id) && OnlyAmounts(t, u, id)
    ensures OnlyAmounts(s, u, id)
  {
    forall b | b in s.accounts
      ensures SameBut(s.accounts[b], u.accounts[b], id)
    {
      assert Holds(s, b, id) ==> Holds(t, b, id);
      SameTwice(s.accounts[b], t.accounts[b], u.accounts[b], id);
    }
  }

  lemma HoldersTwice(s: State, t: State, u: State, id: nat)
    requires KeepsHolders(s, t, id) && KeepsHolders(t, u, id)
    ensures KeepsHolders(s, u, id)
  {
  }

  lemma PutOnly(s: State, a: Address, acc: Account, id: nat)
    requires a in s.accounts && SameBut(s.accounts[a], acc, id)
    ensures OnlyAmounts(s, Put(s, a, acc), id)
    ensures (id in s.accounts[a].assets ==> id in acc.assets) ==> KeepsHolders(s, Put(s, a, acc), id)
  {
  }

  lemma MovedSameBut(acc: Account, id: nat, delta: int)
    requires id in acc.assets
    ensures SameBut(acc, Moved(acc, id, delta), id) && Held(Moved(acc, id, delta), id) == Held(acc, id) + delta
  {
  }

  lemma AddFrame(s: State, t: State, a: Address, id: nat, delta: int)
    requires Holds(s, a, id) && t == AddHolding(s, a, id, delta)
    ensures OnlyAmounts(s, t, id) && KeepsHolders(s, t, id)
  {
    var moved := Moved(s.accounts[a], id, delta);
    MovedSameBut(s.accounts[a], id, delta);
    PutOnly(s, a, moved, id);
    assert t == Put(s, a, moved);
  }

  lemma AddGain(s: State, a: Address, id: nat, delta: int, b: Address)
    requires Holds(s, a, id)
    ensures Holds(AddHolding(s, a, id, delta), b, id) <==> Holds(s, b, id)
    ensures HoldingIn(AddHolding(s, a, id, delta), id)(b) == HoldingIn(s, id)(b) + (if b == a then delta else 0)
  {
  }

  lemma TwoGains(s: State, id: nat, from: Address, to: Address, delta: int, b: Address)
    requires Holds(s, from, id) && Holds(s, to, id)
    ensures var s1 := AddHolding(s, from, id, -delta);
            && Holds(s1, to, id)
            && (Holds(AddHolding(s1, to, id, delta), b, id) <==> Holds(s, b, id))
            && HoldingIn(AddHolding(s1, to, id, delta), id)(b) == HoldingIn(s, id)(b) + Gain(from, to, delta, b)
  {
    AddGain(s, from, id, -delta, b);
    AddGain(AddHolding(s, from, id, -delta), to, id, delta, b);
  }

  lemma TwoFrames(s: State, s1: State, t: State, id: nat)
    requires OnlyAmounts(s, s1, id) && KeepsHolders(s, s1, id)
    requires OnlyAmounts(s1, t, id) && KeepsHolders(s1, t, id)
    ensures OnlyAmounts(s, t, id) && KeepsHolders(s, t, id)
  {
    Twice(s, s1, t, id);
    HoldersTwice(s, s1, t, id);
  }

  lemma MoveFrame(s: State, s1: State, t: State, id: nat, from: Address, to: Address, delta: int)
    requires Holds(s, from, id) && s1 == AddHolding(s, from, id, -delta)
    requires Holds(s1, to, id) && t == AddHolding(s1, to, id, delta)
    ensures OnlyAmounts(s, t, id) && KeepsHolders(s, t, id)
  {
    AddFrame(s, s1, from, id, -delta);
    AddFrame(s1, t, to, id, delta);
    TwoFrames(s, s1, t, id);
  }

  lemma MoveEffect(s: State, id: nat, from: Address, to: Address, amount: nat, b: Address)
    requires MoveAsset(s, id, from, to, amount).Success?
    ensures var t := MoveAsset(s, id, from, to, amount).value;
            && OnlyAmounts(s, t, id) && KeepsHolders(s, t, id) && Holds(t, from, id) && Holds(t, to, id)
            && (Holds(t, b, id) <==> Holds(s, b, id))
            && HoldingIn(t, id)(b) == HoldingIn(s, id)(b) + Gain(from, to, amount, b)
  {
    assert Holds(s, from, id) && Holds(s, to, id);
    TwoGains(s, id, from, to, amount, b);
    var delta: int := amount;
    var s1 := AddHolding(s, from, id, -delta);
    MoveFrame(s, s1, AddHolding(s1, to, id, delta), id, from, to, delta);
  }

  lemma CloseOutEffect(s: State, id: nat, from: Address, closeTo: Address, b: Address)
    requires Holds(s, from, id) && CloseAssetTo(s, id, from, closeTo).Success?
    ensures var t := CloseAssetTo(s, id, from, closeTo).value;
            && OnlyAmounts(s, t, id) && !Holds(t, from, id)
            && (b != from ==> (Holds(t, b, id) <==> Holds(s, b, id)))
            && HoldingIn(t, id)(b) == if b == from then 0
                                      else HoldingIn(s, id)(b) + (if b == closeTo then HoldingIn(s, id)(from) else 0)
  {
    var left := s.accounts[from].assets[id].amount;
    assert Holds(s, closeTo, id);
    AddFrame(s, AddHolding(s, closeTo, id, left), closeTo, id, left);
    AddGain(s, closeTo, id, left, b);
    var s1 := AddHolding(s, closeTo, id, left);
    PutOnly(s1, from, s1.accounts[from].CloseAsset(id), id);
    Twice(s, s1, CloseAssetTo(s, id, from, closeTo).value, id);
  }

  lemma OptInEffect(s: State, t: TxnType, id: nat, a: Address, b: Address)
    requires OptInToASA(s, t, id, a).Success?
    ensures var u := OptInToASA(s, t, id, a).value;
            && OnlyAmounts(s, u, id) && KeepsHolders(s, u, id) && Holds(u, a, id)
            && (b != a ==> (Holds(u, b, id) <==> Holds(s, b, id)))
            && HoldingIn(u, id)(b) == HoldingIn(s, id)(b)
  {
    var params := GetAssetDef(s, id).value;
    PutOnly(s, a, s.accounts[a].OptInToASA(id, Holding(0, params.creator, params.defaultFrozen)), id);
  }

  lemma BeforeEffect(s: State, t: TxnType, id: nat, from: Address, to: Address, amount: nat, b: Address)
    requires BeforeTransfer(s, t, id, from, to, amount).Success?
    ensures var u := BeforeTransfer(s, t, id, from, to, amount).value;
            && OnlyAmounts(s, u, id) && KeepsHolders(s, u, id) && HoldingIn(u, id)(b) == HoldingIn(s, id)(b)
            && (b != from ==> (Holds(u, b, id) <==> Holds(s, b, id)))
  {
    if amount == 0 && from == to {
      OptInEffect(s, t, id, from, b);
    }
  }

  lemma TransferFrame(
      s: State, t: TxnType, id: nat, from: Address, to: Address, amount: nat, closeTo: Option<Address>)
    requires TransferAsset(s, t, id, from, to, amount, closeTo).Success?
    ensures OnlyAmounts(s, TransferAsset(s, t, id, from, to, amount, closeTo).value, id)
  {
    var s1 := BeforeTransfer(s, t, id, from, to, amount).value;
    var s2 := MoveAsset(s1, id, from, to, amount).value;
    BeforeEffect(s, t, id, from, to, amount, from);
    MoveEffect(s1, id, from, to, amount, from);
    Twice(s, s1, s2, id);
    if closeTo.Some? {
      CloseOutEffect(s2, id, from, closeTo.value, from);
      Twice(s, s2, CloseAssetTo(s2, id, from, closeTo.value).value, id);
    }
  }

  lemma BeforeClosing(s: State, t: TxnType, id: nat, from: Address, to: Address, amount: nat, b: Address)
    requires BeforeTransfer(s, t, id, from, to, amount).Success?
    requires MoveAsset(BeforeTransfer(s, t, id, from, to, amount).value, id, from, to, amount).Success?
    ensures var u := MoveAsset(BeforeTransfer(s, t, id, from, to, amount).value, id, from, to, amount).value;
            && Holds(u, from, id) && Holds(u, to, id) && (b != from ==> (Holds(u, b, id) <==> Holds(s, b, id)))
            && HoldingIn(u, id)(b) == HoldingIn(s, id)(b) + Gain(from, to, amount, b)
  {
    BeforeEffect(s, t, id, from, to, amount, b);
    MoveEffect(BeforeTransfer(s, t, id, from, to, amount).value, id, from, to, amount, b);
  }

  /** A transfer moves only the one asset, and that as `After` says; opting in moves nothing. Nobody but
      the sender gets or loses a holding. */
  lemma TransferEffect(
      s: State, t: TxnType, id: nat, from: Address, to: Address, amount: nat, closeTo: Option<Address>, b: Address)
    requires TransferAsset(s, t, id, from, to, amount, closeTo).Success?
    ensures var u := TransferAsset(s, t, id, from, to, amount, closeTo).value;
            && OnlyAmounts(s, u, id) && (b != from ==> (Holds(u, b, id) <==> Holds(s, b, id)))
            && HoldingIn(u, id)(b) == After(HoldingIn(s, id), from, to, amount, closeTo, b)
            && (if closeTo.None? then Holds(u, from, id) && Holds(u, to, id) else !Holds(u, from, id))
  {
    TransferFrame(s, t, id, from, to, amount, closeTo);
    BeforeClosing(s, t, id, from, to, amount, b);
    if closeTo.Some? {
      BeforeClosing(s, t, id, from, to, amount, from);
      CloseOutEffect(MoveAsset(BeforeTransfer(s, t, id, from, to, amount).value, id, from, to, amount).value,
                     id, from, closeTo.value, b);
    }
  }
}
