/** The simulator's chain: a store that whole groups either replace or leave alone, and blocks. */
module Chains {
  import opened Wrappers
  import opened Accounts
  import opened Ledger

  const BLOCK_FINALISATION_TIME := 4
  const INITIAL_BLOCKS := 2000
  const MAX_TXN_LIFE := 1000

  const DEFAULT_BALANCE := 100000000

  datatype Chain = Chain(store: State, round: nat)

  /** The funded accounts that every simulator starts with. */
  function DefaultAccounts(defaults: seq<Address>): seq<(Address, Account)> {
    seq(|defaults|, i requires 0 <= i < |defaults| => (defaults[i], EmptyAccount(DEFAULT_BALANCE)))
  }

  /** The store a new simulator has before its first block. */
  function FirstStore(defaults: seq<(Address, Account)>, given: seq<(Address, Account)>): State {
    InitializeAccounts(InitializeAccounts(NOTHING, defaults), given)
  }

  /** A new simulator, with its initial blocks. */
  function Start(defaults: seq<(Address, Account)>, given: seq<(Address, Account)>, clock: int): Chain
    requires clock > 0
  {
    var s := FirstStore(defaults, given);
    FirstStoreHasNoBlocks(defaults, given);
    FirstBlocks(s, clock, INITIAL_BLOCKS);
    ProduceBlocks(Chain(s, 0), clock, INITIAL_BLOCKS).value
  }

  /** A new simulator has the blocks of rounds 0 to 1999, and nothing else than its accounts. */
  lemma {:induction false} StartSucceeds(defaults: seq<(Address, Account)>, given: seq<(Address, Account)>, clock: int)
    requires clock > 0
    ensures var c := Start(defaults, given, clock);
            && ProduceBlocks(Chain(FirstStore(defaults, given), 0), clock, INITIAL_BLOCKS) == Success(c)
            && BlocksOk(c, clock) && c.round == INITIAL_BLOCKS - 1
            && c.store == FirstStore(defaults, given).(blocks := c.store.blocks)
  {
    FirstStoreHasNoBlocks(defaults, given);
    FirstBlocks(FirstStore(defaults, given), clock, INITIAL_BLOCKS);
  }

  lemma {:induction false} EnrollingKeepsBlocks(s: State, who: seq<(Address, Account)>)
    ensures EnrollAll(s, who).blocks == s.blocks
    decreases |who|
  {
    if who != [] {
      EnrollingKeepsBlocks(s, who[..|who| - 1]);
    }
  }

  lemma FirstStoreHasNoBlocks(defaults: seq<(Address, Account)>, given: seq<(Address, Account)>)
    ensures FirstStore(defaults, given).blocks == map[]
  {
    EnrollingKeepsBlocks(NOTHING, defaults);
    EnrollingKeepsBlocks(InitializeAccounts(NOTHING, defaults), given);
  }

  /** The last account given under an address. */
  function LastOf(who: seq<(Address, Account)>, a: Address): Option<Account> {
    if who == [] then None
    else
      var n := |who| - 1;
      if who[n].0 == a then Some(who[n].1) else LastOf(who[..n], a)
  }

  /** The address of the last account given that has created something under an id. */
  function LastWith(who: seq<(Address, Account)>, id: nat, created: (Account, nat) -> bool): Option<Address> {
    if who == [] then None
    else
      var n := |who| - 1;
      if created(who[n].1, id) then Some(who[n].0) else LastWith(who[..n], id, created)
  }

  predicate CreatedApp(acc: Account, id: nat) {
    id in acc.createdApps
  }

  predicate CreatedAsset(acc: Account, id: nat) {
    id in acc.createdAssets
  }

  lemma {:induction false} EnrolledAt(s: State, who: seq<(Address, Account)>, a: Address, id: nat)
    ensures var u := EnrollAll(s, who);
            && (a in u.accounts <==> a in s.accounts || LastOf(who, a).Some?)
            && (a in u.accounts ==>
                  u.accounts[a] == match LastOf(who, a) case Some(acc) => acc case None => s.accounts[a])
            && (id in u.globalApps <==> id in s.globalApps || LastWith(who, id, CreatedApp).Some?)
            && (id in u.globalApps ==>
                  u.globalApps[id]
                  == match LastWith(who, id, CreatedApp) case Some(b) => b case None => s.globalApps[id])
            && (id in u.assetDefs <==> id in s.assetDefs || LastWith(who, id, CreatedAsset).Some?)
            && (id in u.assetDefs ==>
                  u.assetDefs[id]
                  == match LastWith(who, id, CreatedAsset) case Some(b) => b case None => s.assetDefs[id])
            && u == s.(accounts := u.accounts, globalApps := u.globalApps, assetDefs := u.assetDefs)
    decreases |who|
  {
    if who != [] {
      EnrolledAt(s, who[..|who| - 1], a, id);
    }
  }

  lemma {:induction false} DefaultsAt(defaults: seq<Address>, a: Address, id: nat)
    ensures LastOf(DefaultAccounts(defaults), a)
            == if a in defaults then Some(Account(100000000, 100000, map[], map[], map[], map[])) else None
    ensures LastWith(DefaultAccounts(defaults), id, CreatedApp) == None
    ensures LastWith(DefaultAccounts(defaults), id, CreatedAsset) == None
    decreases |defaults|
  {
    if defaults != [] {
      var n, who := |defaults| - 1, DefaultAccounts(defaults);
      assert |who| == n + 1 && who[n] == (defaults[n], EmptyAccount(DEFAULT_BALANCE));
      assert who[..n] == DefaultAccounts(defaults[..n]);
      assert defaults == defaults[..n] + [defaults[n]];
      DefaultsAt(defaults[..n], a, id);
    }
  }

  /** The ledger a new simulator starts with: the fee sink with 100000, the accounts it was given, the
      later one where two have an address, and the default accounts with 100000000 each; everything
      the given accounts have created is in the indexes; and 2000 blocks, four seconds apart. */
  lemma {:induction false} StartHolds(
      defaults: seq<Address>, given: seq<(Address, Account)>, clock: int, a: Address, id: nat)
    requires clock > 0
    ensures var c := Start(DefaultAccounts(defaults), given, clock);
            var s := c.store;
            && (a in s.accounts <==> a == FEE_SINK || a in defaults || LastOf(given, a).Some?)
            && (a in s.accounts ==>
                  s.accounts[a] ==
                  if a == FEE_SINK then Account(100000, 100000, map[], map[], map[], map[])
                  else match LastOf(given, a)
                       case Some(acc) => acc
                       case None => Account(100000000, 100000, map[], map[], map[], map[]))
            && (id in s.globalApps <==> LastWith(given, id, CreatedApp).Some?)
            && (id in s.globalApps ==> Some(s.globalApps[id]) == LastWith(given, id, CreatedApp))
            && (id in s.assetDefs <==> LastWith(given, id, CreatedAsset).Some?)
            && (id in s.assetDefs ==> Some(s.assetDefs[id]) == LastWith(given, id, CreatedAsset))
            && s.appCounter == 8 && s.assetCounter == 8 && c.round == 1999
            && (id in s.blocks <==> id <= 1999) && (id <= 1999 ==> s.blocks[id] == Block(clock + 4 * id))
  {
    var who := DefaultAccounts(defaults);
    StartSucceeds(who, given, clock);
    EnrolledAt(NOTHING, who, a, id);
    DefaultsAt(defaults, a, id);
    EnrolledAt(InitializeAccounts(NOTHING, who), given, a, id);
  }

  /** The first block takes its time from the clock; every later one follows the block of the
      current round. A block at time zero counts as missing. */
  function ProduceBlock(c: Chain, clock: int): Result<Chain, Error> {
    if c.store.blocks == map[] then
      if clock == 0 then Failure(BlockNotProduced)
      else Success(c.(store := c.store.(blocks := map[c.round := Block(clock)])))
    else if c.round !in c.store.blocks then Failure(BlockNotProduced)
    else
      var timestamp := c.store.blocks[c.round].timestamp + BLOCK_FINALISATION_TIME;
      if timestamp == 0 then Failure(BlockNotProduced)
      else Success(Chain(c.store.(blocks := c.store.blocks[c.round + 1 := Block(timestamp)]), c.round + 1))
  }

  function ProduceBlocks(c: Chain, clock: int, n: nat): Result<Chain, Error>
    decreases n
  {
    if n == 0 then Success(c)
    else
      var c1 :- ProduceBlock(c, clock);
      ProduceBlocks(c1, clock, n - 1)
  }

  function GetBlock(c: Chain, round: nat): Result<Block, Error> {
    if round in c.store.blocks then Success(c.store.blocks[round]) else Failure(InvalidBlock)
  }

  /** Whether a program run by `tx` may ask for the block of `round`. */
  function AssertRoundIsAvailable(tx: Tx, round: int): Check {
    var first := tx.lastValid - MAX_TXN_LIFE - 1;
    var firstAvail := if first > tx.lastValid || first == 0 then 1 else first;
    var lastAvail := if tx.firstValid.None? then 0 else tx.firstValid.value - 1;
    if firstAvail > round || round > lastAvail || round == 0 then Failure(RoundNotAvailable) else Ok
  }

  datatype Event = Execute(txs: seq<Tx>) | Produce(clock: int, n: nat)

  function Next(c: Chain, e: Event): Chain {
    match e
    case Execute(txs) => c.(store := Commit(c.store, c.round, txs))
    case Produce(clock, n) =>
      match ProduceBlocks(c, clock, n)
      case Success(after) => after
      case Failure(_) => c
  }

  function Run(c: Chain, events: seq<Event>): Chain
    decreases |events|
  {
    if events == [] then c else Run(Next(c, events[0]), events[1..])
  }

  /** The chain has exactly the blocks up to the current round, four seconds apart. */
  ghost predicate BlocksOk(c: Chain, t0: int) {
    && t0 > 0
    && (forall r: nat :: r in c.store.blocks <==> r <= c.round)
    && (forall r :: r in c.store.blocks ==> c.store.blocks[r] == Block(t0 + BLOCK_FINALISATION_TIME * r))
  }

  lemma {:induction false} ProducingKeepsBlocks(c: Chain, t0: int, clock: int, n: nat)
    requires BlocksOk(c, t0)
    ensures ProduceBlocks(c, clock, n).Success?
    ensures var d := ProduceBlocks(c, clock, n).value;
            && BlocksOk(d, t0) && d.round == c.round + n && d.store == c.store.(blocks := d.store.blocks)
    decreases n
  {
    if n > 0 {
      assert c.round in c.store.blocks;
      ProducingKeepsBlocks(ProduceBlock(c, clock).value, t0, clock, n - 1);
    }
  }

  /** From nothing, `n` blocks make a chain whose last round is `n - 1`. */
  lemma {:induction false} FirstBlocks(s: State, clock: int, n: nat)
    requires s.blocks == map[] && clock > 0 && n > 0
    ensures ProduceBlocks(Chain(s, 0), clock, n).Success?
    ensures var d := ProduceBlocks(Chain(s, 0), clock, n).value;
            BlocksOk(d, clock) && d.round == n - 1 && d.store == s.(blocks := d.store.blocks)
  {
    ProducingKeepsBlocks(ProduceBlock(Chain(s, 0), clock).value, clock, clock, n - 1);
  }

  /** The rounds a program may ask about: not 0, before the first valid round of its transaction, and at
      most 1000 rounds before the one that precedes its last valid one. */
  lemma RoundIsAvailableIff(tx: Tx, round: int)
    ensures AssertRoundIsAvailable(tx, round).Success? <==>
            && round != 0 && round < (if tx.firstValid.Some? then tx.firstValid.value else 1)
            && round >= (if tx.lastValid == 1001 then 1 else tx.lastValid - 1001)
  {
  }

  /** A program may ask only for blocks that exist: the check on the rounds a transaction is
      valid for covers the check on the round a program asks about. */
  lemma AvailableRoundHasBlock(c: Chain, t0: int, tx: Tx, round: nat)
    requires BlocksOk(c, t0) && RoundOk(tx, c.round) && AssertRoundIsAvailable(tx, round).Success?
    ensures 0 < round < c.round
    ensures GetBlock(c, round) == Success(Block(t0 + BLOCK_FINALISATION_TIME * round))
  {
    assert round in c.store.blocks;
  }
}

/** The simulator object. */
module Runtimes {
  import opened Wrappers
  import opened Accounts
  import opened Ledger
  import opened Chains
  import opened Context

  class Runtime {
    var store: Store
    var round: nat

    ghost predicate Valid()
      reads this, store, store.repr
    {
      store.Valid()
    }

    ghost function View(): Chain
      reads this, store
    {
      Chain(store.contents, round)
    }

    /** A new simulator: the default accounts, the given ones, and the initial blocks. It takes over
        the given account objects, which may replace each other and default accounts. */
    constructor (defaults: seq<Address>, given: seq<AccountStore>, clock: int)
      requires clock > 0
      ensures Valid() && fresh(store)
      ensures View() == Start(DefaultAccounts(defaults), Values(given), clock)
    {
      store := new Store();
      round := 0;
      new;
      SetupDefaultAccounts(defaults);
      store.InitializeAccounts(given);
      StartSucceeds(DefaultAccounts(defaults), Values(given), clock);
      var _ := ProduceBlocks(clock, INITIAL_BLOCKS);
    }

    method SetupDefaultAccounts(defaults: seq<Address>)
      requires Valid()
      modifies store
      ensures Valid() && unchanged(`round)
      ensures store.contents == InitializeAccounts(old(store.contents), DefaultAccounts(defaults))
    {
      var accounts: seq<AccountStore> := [];
      for i := 0 to |defaults|
        invariant Valid() && unchanged(store) && unchanged(`round)
        invariant |accounts| == i
        invariant forall k :: 0 <= k < i ==>
                    accounts[k].address == defaults[k] && accounts[k].View() == EmptyAccount(DEFAULT_BALANCE)
      {
        var account := new AccountStore(DEFAULT_BALANCE, defaults[i]);
        accounts := accounts + [account];
      }
      assert Values(accounts) == DefaultAccounts(defaults);
      store.InitializeAccounts(accounts);
    }

    method ValidateTxRound(txs: seq<Tx>) returns (r: Check)
      ensures r == if exists i :: 0 <= i < |txs| && !RoundOk(txs[i], round) then Failure(InvalidRound) else Ok
    {
      for i := 0 to |txs|
        invariant forall k :: 0 <= k < i ==> RoundOk(txs[k], round)
      {
        if (txs[i].firstValid.Some? && txs[i].firstValid.value >= round) || txs[i].lastValid <= round {
          return Failure(InvalidRound);
        }
      }
      return Ok;
    }

    /** Counts, for every transaction, the transactions of the group with its id. */
    method AssertNoDuplicateTransaction(txs: seq<Tx>) returns (r: Check)
      ensures r == if HasDuplicate(txs) then Failure(DuplicateTransaction) else Ok
    {
      for i := 0 to |txs|
        invariant forall k, j :: 0 <= k < i && 0 <= j < |txs| && j != k ==> txs[j].txID != txs[k].txID
      {
        var count := 0;
        for j := 0 to |txs|
          invariant count >= 0
          invariant j <= i ==> (count == 0 <==> forall k :: 0 <= k < j ==> txs[k].txID != txs[i].txID)
          invariant j > i ==> count >= 1
          invariant j > i ==> (count == 1 <==> forall k :: 0 <= k < j && k != i ==> txs[k].txID != txs[i].txID)
        {
          if txs[j].txID == txs[i].txID {
            count := count + 1;
          }
        }
        if count > 1 {
          return Failure(DuplicateTransaction);
        }
      }
      return Ok;
    }

    /** Runs a group on a deep copy of the store, which becomes the store if every transaction
        succeeds. Whatever happens, the objects of the old store are not touched. */
    method ExecuteTx(txs: seq<Tx>) returns (r: Check)
      requires Valid()
      modifies this`store
      ensures Valid()
      ensures Reaches(r, store.contents, ExecuteGroup(old(store.contents), round, txs))
      ensures if r.Success? then fresh(store) && fresh(store.repr) else store == old(store)
      ensures View() == Next(old(View()), Execute(txs))
    {
      var _ :- ValidateTxRound(txs);
      var _ :- AssertNoDuplicateTransaction(txs);
      var copy := new Store.Clone(store);
      var ctx := new Ctx(copy, txs);
      var _ :- ctx.ProcessTransactions(txs);
      store := ctx.state;
      return Ok;
    }

    method ProduceBlock(clock: int) returns (r: Check)
      requires Valid()
      modifies this`round, store
      ensures Valid() && store.repr == old(store.repr)
      ensures match Chains.ProduceBlock(old(View()), clock)
              case Success(after) => r == Ok && View() == after
              case Failure(e) => r == Failure(e)
    {
      var timestamp := 0;
      if store.blocks == map[] {
        timestamp := clock;
      } else if round in store.blocks {
        timestamp := store.blocks[round].timestamp + BLOCK_FINALISATION_TIME;
        round := round + 1;
      }
      if timestamp == 0 {
        return Failure(BlockNotProduced);
      }
      store.blocks := store.blocks[round := Block(timestamp)];
      store.contents := store.contents.(blocks := store.blocks);
      store.TablesChanged();
      return Ok;
    }

    method ProduceBlocks(clock: int, n: nat) returns (r: Check)
      requires Valid()
      modifies this`round, store
      ensures Valid() && store.repr == old(store.repr)
      ensures match Chains.ProduceBlocks(old(View()), clock, n)
              case Success(after) => r == Ok && View() == after
              case Failure(e) => r == Failure(e)
    {
      var blockN := 1;
      while blockN <= n
        invariant 1 <= blockN <= n + 1
        invariant Valid() && store.repr == old(store.repr)
        invariant Chains.ProduceBlocks(old(View()), clock, n) == Chains.ProduceBlocks(View(), clock, n + 1 - blockN)
        decreases n - blockN
      {
        var _ :- ProduceBlock(clock);
        blockN := blockN + 1;
      }
      return Ok;
    }

    method GetBlock(r: nat) returns (b: Result<Block, Error>)
      requires Valid()
      ensures b == Chains.GetBlock(View(), r)
    {
      if r in store.blocks {
        return Success(store.blocks[r]);
      }
      return Failure(InvalidBlock);
    }
  }
}
