# A verified model of the Algorand simulator, its checkpoints and a voting contract

This Dafny project models the core of `packages/runtime`, a simulator of the Algorand ledger and of
the TEAL machine, together with the deployment checkpoints of `packages/algob` and the
permissioned-voting example contract. `dafny verify dfyconfig.toml` checks all of it.

Code that updates objects in place is modelled by classes whose methods do the same updates. Each
method is proved to change its object exactly as a function on values says, and what the code is
for is then proved about these functions, one step at a time and over whole runs.

| part | files |
|---|---|
| accounts and their minimum balance | `Accounts.dfy`, `MapSums.dfy` |
| the ledger as a value, transactions as steps, and the objects that hold the ledger | `Ledger.dfy`, `Ctx.dfy`, `Limits.dfy` |
| what every transaction comes to: when it succeeds, and the ledger it leaves | `Outcomes.dfy`, `AssetOutcomes.dfy`, `AppOutcomes.dfy` |
| conservation of Algos, and fees pooled over a group and its inner transactions | `AlgoConservation.dfy`, `FeePools.dfy` |
| supply of assets, balances, application index | `AssetInvariant.dfy`, `BalanceInvariant.dfy`, `AppIndexInvariant.dfy`, `AssetFrame.dfy` |
| what each account ends up with, and who may make whose property smaller | `Effects.dfy`, `Authority.dfy`, `GroupAuthority.dfy` |
| addresses of applications still to be deployed, and who signs | `FreshAddresses.dfy`, `Signers.dfy` |
| atomic groups, blocks, and all invariants over whole runs | `Runtime.dfy`, `Reachability.dfy` |
| inputs on which the code does not do what one would expect | `Counterexamples.dfy` |
| jumps, the main loop and its budget | `Labels.dfy`, `Interpreter.dfy`, `Executions.dfy` |
| splitting a TEAL line into words | `Tokenizer.dfy`, `TokenizerRoundTrip.dfy`, `TokenizerCover.dfy` |
| integer square root, big-endian bytes | `BigintSqrt.dfy`, `BigEndian.dfy` |
| application state, fees of inner transactions | `StateSchema.dfy`, `InnerFees.dfy` |
| checkpoints | `Checkpoints.dfy` |
| multisignatures, voting | `Multisig.dfy`, `Voting.dfy` |

How the ledger fits together: `Ledger` turns a transaction into a list of steps and gives the
ledger before and after every step as functions. The inner transactions a program submits are
steps in the middle of its own transaction, so that a group is one list however deeply programs
call each other. `Context.Ctx` runs groups the way the simulator does, recursively and on account
objects that several variables may refer to at once, and is proved to have the effect of that list;
its ghost field `contents` is the ledger the objects hold, and `Valid` says that no two addresses
share an object. `Runtimes.Runtime.ExecuteTx` runs a group on a deep copy and installs it on
success. `Reachability.Sound` is the conjunction of all ledger invariants, each of them kept by
every step. The `…Outcomes` modules say of each kind of transaction, in terms of its own fields and
without the functions `Ledger` is made of, exactly when it succeeds and what every account and table is
afterwards, given what its program left. `Signers.EveryRunFromStart` is the statement about the
simulator as a whole.

## Where the code does not do what one would expect

Each of these is in the model as it is in the code. Where a property fails, a lemma gives the exact
condition under which it holds.

- `bigintSqrt` is one short exactly for (2^52-1)^2 <= v < 2^104-4 (`BigintSqrt.StopsAtSeedIff`).
- `jumpToLabel` leaves the index where it is when nothing but labels follows the target, so it
  agrees with `jumpForward` exactly when some other instruction follows (`Labels.JumpsAgreeIff`,
  `Counterexamples.JumpsCanDisagree`).
- `switch` goes on to the next instruction for an operand above the number of labels, as its comment
  says, but an operand equal to that number throws (`Machines.SwitchGoesOnIff`).
- `destroyAsset` removes other accounts' holdings and leaves their minimum balances, which then lie
  above the closed form; nothing else moves them off it (`Reachability.StepMovesOnlyDropped`,
  `Reachability.RunExactIff`, `Counterexamples.DestroyCanLeaveCharge`).
- `deployApp` replaces any account at the new application's address. Algos, assets and the
  application index survive exactly under the conditions of `AlgoConservation.DeployConservesIff`,
  `AssetInvariant.DeployAppKeepsIff` and `AppIndexInvariant.DeployKeepsIff`. Assets and index are safe
  in every run in which no application still to be deployed sends (`Signers.EveryRunFromStart`); Algos
  sent ahead of a deployment are lost (`Counterexamples.DeployCanLoseAlgos`).
- `appendToCheckpoint` joins its two tests with `??`, so an application whose name is also an equal
  asset may be replaced without an error (`Checkpoints.MergeKeepsAppIff`).
- A script with the empty name owns nothing, because its claim counts as none; every other script owns
  what it merges (`Checkpoints.ExclusiveIff`, `Checkpoints.SingleOwner`,
  `Checkpoints.NamelessOwnsNothing`).
- The empty state key is read back as one zero byte, so it counts as one byte against the length
  limit (`StateSchema.DecodeKeyText`, `StateSchema.LengthCheckIff`).
- A reconfiguration blanks every role it leaves out (`packages/web/src/lib/txn.ts:503-525`), and a blank
  role can never be given to anyone again (`Authority.RolesChangeOnlyByManager`).
- A frozen holding can be closed out by a transfer of nothing (`Authority.FrozenHoldingStays`).
- A second vote is rejected (`Voting.TallyGrowsOnlyByVote`), although the contract's comment says that it
  is accepted without effect; an account can still be counted twice by clearing its state, exactly when
  some round lies in both the registration and the voting window (`Voting.OneVotePerAccountIff`).

## Model

| member | source | states |
|---|---|---|
| `Accounts.AccountStore.constructor` | packages/runtime/src/account.ts:76-96 | a new account has the given balance, the base minimum balance and empty tables |
| `Accounts.AccountStore.AddAsset` | packages/runtime/src/account.ts:240-254 | records the asset with its creator, gives the whole supply to the creator unfrozen, raises the minimum balance by one asset fee, and touches nothing else |
| `Accounts.AccountStore.ModifyAsset` | packages/runtime/src/account.ts:261-268 | replaces or blanks the roles that the fields name; an asset that was not created here, or a blank role that would get an address, is an error |
| `Accounts.AccountStore.CloseAsset` | packages/runtime/src/account.ts:274-285 | drops the holding and one asset fee of the minimum balance; without a holding nothing changes |
| `Accounts.AccountStore.SetFreezeState` | packages/runtime/src/account.ts:292-301 | changes the frozen flag of one holding only; without a holding it is an error |
| `Accounts.AccountStore.DestroyAsset` | packages/runtime/src/account.ts:307-319 | possible exactly when the account created the asset and holds its whole total; then asset, holding and one asset fee go |
| `Accounts.AccountStore.OptInToASA` | packages/runtime/src/account.ts:362-370 | adds a holding and one asset fee, unless there is a holding already, which then stays |
| `Accounts.AccountStore.AddApp` | packages/runtime/src/account.ts:327-337 | records the application and raises the minimum balance by the fee of its global schema |
| `Accounts.AccountStore.DeleteApp` | packages/runtime/src/account.ts:373-388 | gives back the fee of the global schema; an application not created here is an error |
| `Accounts.AccountStore.OptInToApp` | packages/runtime/src/account.ts:340-359 | raises the minimum balance by the fee of the local schema; opting in twice is an error |
| `Accounts.AccountStore.CloseApp` | packages/runtime/src/account.ts:391-407 | gives back the fee of the local schema; without opt-in it is an error |
| `MinimumBalance.ApplyExcess` | packages/runtime/src/account.ts:240-407 | one account operation moves the recorded minimum balance and the closed form by the same amount, but for the fee of an entry it replaces |
| `MinimumBalance.RunMovesExcessUp` | packages/runtime/src/account.ts:240-407 | over any run of account operations the distance of the recorded minimum above the closed form never shrinks, and stays the same exactly when every creation used a fresh id |
| `MinimumBalance.MinBalanceClosedForm` | packages/runtime/src/account.ts:240-407 | from a new account, after any run of operations, the minimum balance is 100000 + 100000 per holding + the schema fees of created and joined applications exactly when every creation used a fresh id, and is never less |
| `Context.Ctx.GetAccount` | packages/runtime/src/ctx.ts:177-180 | gives the object stored under the address, or the error for an unknown account |
| `Context.Ctx.GetAssetAccount` | packages/runtime/src/ctx.ts:186-192 | gives the object of the asset's creator, or the error for an unknown asset |
| `Context.Ctx.GetAssetDef` | packages/runtime/src/ctx.ts:198-202 | gives the parameters in the creator's table, or the error for an unknown asset |
| `Context.Ctx.GetAssetHolding` | packages/runtime/src/ctx.ts:209-222 | gives the holding of the account, or the error for one that has not opted in |
| `Context.Ctx.GetApp` | packages/runtime/src/ctx.ts:229-243 | gives the application in the table of its indexed creator, or an error |
| `Context.Ctx.AssertAccBalAboveMin` | packages/runtime/src/ctx.ts:113-122 | throws exactly for a payment transaction whose account is below its minimum balance |
| `Context.Ctx.AssertAssetNotFrozen` | packages/runtime/src/ctx.ts:125-133 | throws exactly for a frozen or missing holding |
| `Context.Ctx.DeductFee` | packages/runtime/src/ctx.ts:582-598 | takes the declared fee, raised to the minimum unless the fee is flat, from the sender alone; a balance that does not cover it is an error |
| `Context.Ctx.CloseRemainder` | packages/runtime/src/ctx.ts:269-277 | moves the whole balance to another existing account; closing to oneself is an error |
| `Context.Ctx.TransferAlgo` | packages/runtime/src/ctx.ts:262-278 | its effect on the ledger under any aliasing of sender, receiver and close-to, with the balance check between movement and close-out |
| `Context.Ctx.DeployASA` | packages/runtime/src/ctx.ts:303-331 | gives the next asset id to the sender and indexes it after the balance check |
| `Context.Ctx.OptInToASA` | packages/runtime/src/ctx.ts:339-362 | adds an empty holding with the asset's creator and default frozen state to the account |
| `Context.Ctx.BeforeTransfer` | packages/runtime/src/ctx.ts:601-611 | a transfer of nothing to oneself opts in; a transfer of something needs both holdings unfrozen; other transfers of nothing skip the freeze check |
| `Context.Ctx.MoveAsset` | packages/runtime/src/ctx.ts:612-628 | moves the amount between two existing holdings, which may be the same one, and throws when the source has too little |
| `Context.Ctx.CloseAssetTo` | packages/runtime/src/ctx.ts:630-646 | moves the rest of a holding to an unfrozen holding and removes it; the asset's creator and closing to oneself are errors |
| `Context.Ctx.TransferAsset` | packages/runtime/src/ctx.ts:601-648 | the effect of opt-in, movement and close-out together, under any aliasing of the three addresses |
| `Context.Ctx.ModifyAsset` | packages/runtime/src/ctx.ts:656-660 | changes the roles in the creator's table and nothing else in the ledger |
| `Context.Ctx.FreezeAsset` | packages/runtime/src/ctx.ts:669-676 | changes one holding's frozen flag and nothing else in the ledger |
| `Context.Ctx.RevokeAsset` | packages/runtime/src/ctx.ts:687-706 | moves an amount between two holdings without regard to freezing |
| `Context.Ctx.DropAllHoldings` | packages/runtime/src/ctx.ts:717-720 | removes the holdings of one asset from every account and leaves every minimum balance as it is |
| `Context.Ctx.DestroyAsset` | packages/runtime/src/ctx.ts:713-722 | destroys the asset at its creator and then removes everyone's holding of it |
| `Context.Ctx.EnterApp` | packages/runtime/src/ctx.ts:372-443 | records the new application under id 0 and indexes it there after the definition, schema and balance checks |
| `Context.Ctx.NumberApp` | packages/runtime/src/ctx.ts:447-453 | moves the application from id 0 to the next id, in the sender's table and in the index |
| `Context.Ctx.CloseApp` | packages/runtime/src/ctx.ts:753-758 | removes the account's local state of an application that still exists |
| `Context.Ctx.DeleteApp` | packages/runtime/src/ctx.ts:728-746 | removes the application from its creator's table and from the index |
| `Context.Store.constructor` | packages/runtime/src/runtime.ts:79-92 | the empty store, with both counters at 8; no two addresses can share an account object from here on |
| `Context.Store.Enroll` | packages/runtime/src/runtime.ts:407-420 | stores an account object under its own address and indexes every application and asset it created |
| `Context.Store.InitializeAccounts` | packages/runtime/src/runtime.ts:407-428 | enters any list of account objects in order, later ones replacing earlier ones with the same address, and then the fee sink |
| `Context.Store.Clone` | packages/runtime/src/runtime.ts:973-985 | the working copy holds the same ledger and shares no account object with the original |
| `Context.Store.Recorded` | packages/runtime/src/ctx.ts:262-278 | when one account object changes, every other address of the store still has its old value: no two addresses share an object |
| `Context.Ctx.FinishApp` | packages/runtime/src/ctx.ts:447-490 | the end of a deployment: the application gets its id, and a fresh, empty account replaces any account at its address |
| `Context.Ctx.OptInToApp` | packages/runtime/src/ctx.ts:499-503 | opts the account in and checks its balance, before the approval program runs |
| `Context.Ctx.ReplacePrograms` | packages/runtime/src/ctx.ts:806-808 | stores the new programs in the table of the creator and changes nothing else |
| `Context.Ctx.CreateAccountIfAbsent` | packages/runtime/src/interpreter/interpreter.ts:123-130 | looking at an account from a program creates it, empty, when it is missing, and changes nothing when it is there |
| `Context.Ctx.VerifyMinimumFees` | packages/runtime/src/ctx.ts:529-543 | throws exactly for an outer group whose declared fees sum to less than the minimum for each transaction, and keeps what they leave for inner transactions |
| `Context.Ctx.ProcessPay` | packages/runtime/src/ctx.ts:867-885 | creates the receiver's account if it is missing, then pays |
| `Context.Ctx.ProcessAssetConfig` | packages/runtime/src/ctx.ts:986-1027 | only the asset's manager reconfigures or destroys it; a blank manager is nobody |
| `Context.Ctx.ProcessAssetTransfer` | packages/runtime/src/ctx.ts:1028-1066 | only the asset's clawback revokes, and without close-out; only its freeze address freezes |
| `Context.Ctx.ProcessCreate` | packages/runtime/src/ctx.ts:372-490 | a deployment is: enter under id 0, run the approval program with everything it submits, finish |
| `Context.Ctx.ProcessCall` | packages/runtime/src/ctx.ts:909-918 | a call finds the application and runs its approval program with everything it submits |
| `Context.Ctx.ProcessOptIn` | packages/runtime/src/ctx.ts:499-516 | an opt-in joins first and runs the program afterwards |
| `Context.Ctx.ProcessCloseOut` | packages/runtime/src/ctx.ts:942-953 | a close-out leaves the application only after the approval program has run |
| `Context.Ctx.ProcessClear` | packages/runtime/src/ctx.ts:920-941 | a clear-state call leaves the application whatever its program does, which can submit nothing |
| `Context.Ctx.ProcessDelete` | packages/runtime/src/ctx.ts:954-965 | the application is deleted only after the approval program has run |
| `Context.Ctx.ProcessUpdate` | packages/runtime/src/ctx.ts:767-810 | the new programs are checked first, then the old approval program runs, then they are stored |
| `Context.Ctx.RunProgram` | packages/runtime/src/runtime.ts:1013-1037 | a program's inner groups run in the order it submits them, on the same ledger and against the same limit on transactions, before its verdict counts |
| `Context.Ctx.SubmitGroup` | packages/runtime/src/interpreter/opcode-list.ts:4334-4418 | throws when the credit does not cover the group; otherwise runs an inner group like an outer one with the credit left, or leaves it and the credit alone if it holds an application transaction other than a call, and restores the outer group |
| `Context.Ctx.BeginTx` | packages/runtime/src/ctx.ts:847-865 | fee, then signature verdict, then the limit on transactions; the first error is the result |
| `Context.Ctx.ProcessTx` | packages/runtime/src/ctx.ts:843-866 | a transaction is its beginning and the steps of its body, those of inner transactions included |
| `Context.Ctx.ProcessTransactions` | packages/runtime/src/ctx.ts:833-1089 | a group, however deeply its programs call each other, has exactly the effect of the flat list of its steps, behind the pooled-fee check of an outer group, and stops at the first error |
| `Ledger.PerformAppend` | packages/runtime/src/ctx.ts:833-1089 | the steps of transactions one after the other, and of inner groups in the middle of a transaction, are one fold over one list |
| `AlgoConservation.TransferKeepsTotal` | packages/runtime/src/ctx.ts:262-278 | a payment leaves the sum of all balances unchanged, under any aliasing of its three addresses |
| `AlgoConservation.StepTotal` | packages/runtime/src/ctx.ts:843-1089 | one step changes the sum of all balances by the fee it charges and the balance a deployment overwrites, and by nothing else |
| `AlgoConservation.GroupConservesAlgos` | packages/runtime/src/ctx.ts:833-1089 | sum of balances after a successful group + all fees charged, those of inner transactions included, + balances overwritten by deployments = sum before |
| `AlgoConservation.GroupWithoutDeployments` | packages/runtime/src/ctx.ts:833-1089 | for every group without deployments, whatever its programs submit, exactly the charged fees leave the ledger |
| `AlgoConservation.DeployConservesIff` | packages/runtime/src/ctx.ts:479-486 | the end of a deployment conserves Algos exactly when the new application's address then holds none |
| `FeePools.GroupPaysMinimumFees` | packages/runtime/src/interpreter/opcode-list.ts:4327-4418 | a successful group is charged at least the minimum fee for every transaction it begins, inner ones at any depth included; the credit it ends with is what all of them declared beyond that, never negative; and it begins at most 256 |
| `FeePools.GroupUnsettled` | packages/runtime/src/interpreter/opcode-list.ts:4334-4383 | what a group and all it submits at any depth declare beyond the minimum is the group's own surplus and what its submissions settle, no transaction counted twice or left out |
| `FeePools.DefaultFeesAreEnough` | packages/runtime/src/lib/itxn.ts:366-385 | a submission of transactions that all take the default fee is never refused for its fees |
| `FeePools.ChargedExactly` | packages/runtime/src/ctx.ts:582-598 | what a group is charged is what its transactions declare plus exactly the shortfalls of fees that are not flat below 1000, inner transactions included |
| `FeePools.GroupLosesExactly` | packages/runtime/src/ctx.ts:833-1089 | so balances after, declared fees, shortfalls and overwritten balances add up to the balances before |
| `Outcomes.BeginComesTo` | packages/runtime/src/ctx.ts:582-598 | a transaction begins exactly when its fee is defined, its sender has the fee and, for a payment, keeps the minimum, its signature is accepted, and another transaction may be begun; then only the sender has less, by the flat fee it declares, else by the larger of fee and 1000 |
| `Outcomes.PayTxComesTo` | packages/runtime/src/ctx.ts:867-885 | a payment, fee included: exactly when it succeeds, and the whole ledger it leaves, for any aliasing of sender, receiver and close-to |
| `AssetOutcomes.CreationComesTo` | packages/runtime/src/ctx.ts:303-331 | a creation takes the next id, gives the whole total to its sender unfrozen, and stores total, roles and frozen default as they are given |
| `AssetOutcomes.ReconfigurationComesTo` | packages/runtime/src/ctx.ts:1002-1016 | only the manager reconfigures, and not a blank role to an address; each of the four roles becomes what the field of the same role says, and nothing else changes |
| `AssetOutcomes.DestructionComesTo` | packages/runtime/src/ctx.ts:1017-1027 | only the manager destroys, and only while the creator holds the total; every holding goes, and one fee of the creator alone |
| `AssetOutcomes.FreezingComesTo` | packages/runtime/src/ctx.ts:1054-1066 | only the freeze address freezes; the target's flag becomes what the transaction says, and nothing else changes |
| `AssetOutcomes.RevocationComesTo` | packages/runtime/src/ctx.ts:1031-1049 | only the clawback revokes, without close-out, from the named target to the named receiver, if the target has the amount |
| `AssetOutcomes.OpeningComesTo` | packages/runtime/src/ctx.ts:339-362 | opting in needs a live asset; a new holding is empty, with the creator and the frozen default of the asset, and costs 100000; an old one stays as it is |
| `AssetOutcomes.TransferComesTo` | packages/runtime/src/ctx.ts:601-648 | the whole ledger a transfer leaves, opt-in and close-out included, for any aliasing of its addresses |
| `AssetOutcomes.TransferringIff` | packages/runtime/src/ctx.ts:601-648 | exactly when a transfer succeeds: live asset for an opt-in, both holdings, unfrozen if anything moves, enough at the sender, and for a close-out another unfrozen holding and a sender that is not the creator |
| `AssetOutcomes.AssetTxComesTo` | packages/runtime/src/ctx.ts:833-1066 | every asset transaction, fee included: exactly when it succeeds, and the whole ledger it leaves |
| `AssetOutcomes.OptInOpens` | packages/runtime/src/ctx.ts:339-362 | in a sound ledger, the holding an opt-in opens is Holding(0, the indexed creator, the asset's frozen default) |
| `AssetOutcomes.OnlyFreezingFreezes` | packages/runtime/src/ctx.ts:669-676 | over every step, whether an existing holding is frozen changes only by a freeze sent by the asset's freeze address, to what it says |
| `AppOutcomes.ProgramComesTo` | packages/runtime/src/interpreter/opcode-list.ts:4334-4418 | a program looks at accounts, which then exist, and submits groups, which throw if uncovered, run in full on the credit left if they hold no other application transaction than calls, and do nothing otherwise; in the end its verdict decides |
| `AppOutcomes.GroupComesTo` | packages/runtime/src/ctx.ts:843-866 | a group runs its transactions in order, each on what the ones before it left |
| `AppOutcomes.SentGroupComesTo` | packages/runtime/src/runtime.ts:914-1002 | a group takes effect exactly if all its transactions are within their rounds and have different ids, they declare 1000 each on the whole and every step succeeds with room for 256 transactions; otherwise the ledger stays as it was |
| `AppOutcomes.CallComesTo` | packages/runtime/src/ctx.ts:909-918 | a call succeeds exactly if its application exists after the fee and the program run succeeds, and leaves what the program leaves |
| `AppOutcomes.OptInComesTo` | packages/runtime/src/ctx.ts:499-516 | an opt-in: the program already finds the sender opted in, with the local schema and 100000 + 28500 per integer + 50000 per byte slice more to keep |
| `AppOutcomes.CloseOutComesTo` | packages/runtime/src/ctx.ts:942-953 | a close-out leaves what its program leaves, without the sender's local state and with the schema's fee less to keep; exactly when that succeeds |
| `AppOutcomes.ClearComesTo` | packages/runtime/src/ctx.ts:920-941 | clearing does the same on what the program looked at, whatever the program submits or answers |
| `AppOutcomes.DeletionComesTo` | packages/runtime/src/ctx.ts:954-965 | a deletion leaves what its program leaves, without the application in table and index and with the schema's fee less to keep |
| `AppOutcomes.UpdateComesTo` | packages/runtime/src/ctx.ts:767-810 | an update needs valid programs and an approving old program, and then leaves the new programs and otherwise what that program left |
| `AppOutcomes.CreateComesTo` | packages/runtime/src/ctx.ts:372-490 | a creation: valid programs, schemas of at most 16 and 64 entries; the program runs with the application under id 0, which then gets the next id and an empty account |
| `AppOutcomes.LeavingIsSeen` | packages/runtime/src/ctx.ts:920-953 | after a close-out or clearing the id is gone from the sender's local states, where it was, whatever the program submitted; no other table has changed |
| `AppOutcomes.JoiningIsSeen` | packages/runtime/src/ctx.ts:499-516 | after an opt-in the sender has local state of the application's local schema, and had none; no other table has changed |
| `AppOutcomes.DeletionIsSeen` | packages/runtime/src/ctx.ts:954-965 | after a deletion the id is in neither index nor table; nothing else in them has changed |
| `AppOutcomes.UpdateIsSeen` | packages/runtime/src/ctx.ts:767-810 | after an update the application has exactly the new programs and is otherwise as it was |
| `AppOutcomes.CreationIsSeen` | packages/runtime/src/ctx.ts:372-490 | after a creation the next id is indexed at its sender, with schemas and programs as given |
| `AppOutcomes.ProgramKeepsTables` | packages/runtime/src/interpreter/opcode-list.ts:4351-4376 | no program changes an application table, a local state or the index, whatever it submits |
| `Effects.PaymentEffect` | packages/runtime/src/ctx.ts:262-278 | what a payment leaves every single account with, in closed form and under any aliasing; nothing but balances changes |
| `Effects.TransferEffect` | packages/runtime/src/ctx.ts:601-648 | the same for the holdings of a transfer: only this asset's amounts change, frozen states and other assets stay, a close-out removes the sender's holding, and nobody else gets or loses one |
| `Effects.MoveEffect` | packages/runtime/src/ctx.ts:687-706 | a revocation takes exactly the amount from the target and gives it to the recipient, who may be the same |
| `AssetInvariant.TransferAssetKeeps` | packages/runtime/src/ctx.ts:601-648 | a transfer keeps: every live asset's holdings sum to its total, none is negative, index and tables agree; self-transfer and aliased close-out included |
| `AssetInvariant.MoveAssetKeeps` | packages/runtime/src/ctx.ts:687-706 | so does a revocation |
| `AssetInvariant.OptInKeeps` | packages/runtime/src/ctx.ts:339-362 | so does an opt-in |
| `AssetInvariant.FreezeKeeps` | packages/runtime/src/ctx.ts:669-676 | so does freezing |
| `AssetInvariant.DeployKeeps` | packages/runtime/src/ctx.ts:303-331 | so does a creation, whose id nobody held before |
| `AssetInvariant.DestroyDeletesNothing` | packages/runtime/src/ctx.ts:713-722 | when an asset can be destroyed, every holding that is deleted from another account is empty |
| `AssetInvariant.DestroyKeeps` | packages/runtime/src/ctx.ts:713-722 | destruction keeps the invariant and leaves no holding of the asset anywhere |
| `AssetInvariant.DeployAppKeepsIff` | packages/runtime/src/ctx.ts:479-486 | the end of a deployment keeps the invariant exactly when the account it replaces then holds nothing of others' assets and nobody else holds what it created |
| `AssetInvariant.StepKeeps` | packages/runtime/src/ctx.ts:843-1089 | every step of every transaction, outer or inner, keeps the invariant, deployments over a harmful account excepted |
| `BalanceInvariant.PayKeeps` | packages/runtime/src/ctx.ts:262-278 | after a payment every balance is non-negative and the sender is at or above its minimum balance, or closed to exactly 0 |
| `BalanceInvariant.MovementKeeps` | packages/runtime/src/ctx.ts:262-270 | the balance check after the movement is what keeps balances non-negative, even when sender and receiver coincide |
| `BalanceInvariant.DestroyExcess` | packages/runtime/src/ctx.ts:713-722 | destroying an asset raises the recorded minimum of every other holder one asset fee above the closed form, and moves no other account |
| `BalanceInvariant.StepExcess` | packages/runtime/src/ctx.ts:843-1089 | what every step adds to the distance of an account's recorded minimum from the closed form: nothing but the fee of an entry it replaces or of a holding it drops |
| `BalanceInvariant.NewAccountsExact` | packages/runtime/src/ctx.ts:867-885 | accounts come into being with the exact minimum balance |
| `BalanceInvariant.StepKeeps` | packages/runtime/src/ctx.ts:843-1089 | every step keeps balances non-negative and recorded minimums at or above the closed form |
| `AppIndexInvariant.IndexAgrees` | packages/runtime/src/ctx.ts:229-243 | an id is indexed at an address exactly when that is the one account that created it; id 0 is indexed nowhere; looking up an id succeeds exactly when it is indexed |
| `AppIndexInvariant.NumberKeeps` | packages/runtime/src/ctx.ts:447-453 | numbering a new application never fails and restores the agreement that entering it under id 0 suspends |
| `AppIndexInvariant.DeleteKeeps` | packages/runtime/src/ctx.ts:728-746 | deletion keeps index and tables in agreement and removes the id |
| `AppIndexInvariant.DeployKeepsIff` | packages/runtime/src/ctx.ts:479-486 | the end of a deployment restores the agreement exactly when it replaces neither its sender nor an account that created applications |
| `AppIndexInvariant.StepKeeps` | packages/runtime/src/ctx.ts:843-1089 | every step keeps the agreement, suspended or not, deployments over such an account excepted |
| `AppIndexInvariant.GroupPhase` | packages/runtime/src/ctx.ts:833-1089 | whatever programs submit, a deployment is never interrupted by another deployment or a deletion, and every group ends with none under way |
| `FreshAddresses.AccountsAppear` | packages/runtime/src/ctx.ts:867-885 | a step creates at most the account that is paid, that a program looks at or that an application gets; no step removes an account |
| `FreshAddresses.StepKeepsBlank` | packages/runtime/src/ctx.ts:601-706 | an account that owns nothing but Algos comes to own something only by a step of its own |
| `FreshAddresses.ReplacesNothing` | packages/runtime/src/ctx.ts:479-486 | so a deployment replaces at most an account that owns nothing but Algos |
| `FreshAddresses.KeepsUnfundedAhead` | packages/runtime/src/ctx.ts:479-486 | while payments go to and from existing addresses, deployments overwrite no Algos |
| `Authority.OnlySenderPays` | packages/runtime/src/ctx.ts:843-1089 | no step lowers a balance but that of the sender of its own transaction, outer or inner, or of the account a deployment replaces |
| `Authority.OnlyTheEntitledLowerHoldings` | packages/runtime/src/ctx.ts:986-1066 | a holding gets smaller only by its holder's transfer, the clawback's revocation, the manager's destruction, or a deployment over the holder, whoever submitted the transaction |
| `Authority.FrozenHoldingStays` | packages/runtime/src/ctx.ts:601-648 | a transfer out of a frozen holding moves nothing; it either leaves the sender unchanged or closes the holding out |
| `Authority.RolesChangeOnlyByManager` | packages/runtime/src/ctx.ts:1002-1015 | while an asset lives, no step changes its total, creator or default frozen state, only its manager's reconfiguration changes its roles, a blank role stays blank, and a destroyed asset stays destroyed |
| `GroupAuthority.WhoeverPaidSigned` | packages/runtime/src/ctx.ts:833-1089 | an account that has less after a successful group: some step takes from this account in the ledger it finds, either the fee or payment of an accepted transaction, outer or inner, that the account sent, or the deployment at its address; never a deployment for a key |
| `GroupAuthority.WhoeverLoweredWasEntitled` | packages/runtime/src/ctx.ts:833-1089 | an account that holds less of an asset after a successful group lost it to a step that holder, clawback or manager of that moment had signed, or to a deployment |
| `GroupAuthority.RolesFollowOverGroup` | packages/runtime/src/ctx.ts:833-1089 | over a whole group an asset's roles change only if its manager of some moment reconfigured it, blank roles stay blank, and nothing else about it changes |
| `Reachability.StepMovesOnlyDropped` | packages/runtime/src/ctx.ts:713-722 | in a sound ledger the recorded minimum of an account moves off the closed form by 100000 exactly when the step destroys an asset that the account holds and did not create, and stays for every other step |
| `Reachability.RunExactIff` | packages/runtime/src/runtime.ts:914-1002 | after a run all minimum balances are the closed form exactly when they were before it and no asset was destroyed that somebody else still held |
| `Reachability.RunKeepsSound` | packages/runtime/src/runtime.ts:914-1002 | over any run of successful and failing groups and of blocks in which no application still to be deployed sends a transaction, all ledger invariants hold together |
| `Reachability.RunConservesAlgos` | packages/runtime/src/runtime.ts:914-1002 | over any run at all, Algos leave the ledger only as fees, those of inner transactions included, or by being overwritten |
| `Signers.GroupKnown` | packages/runtime/src/interpreter/opcode-list.ts:4366-4376 | when outer transactions are sent by holders of keys and inner ones by the running application or holders of keys, no application still to be deployed ever sends one |
| `Signers.StartIsSound` | packages/runtime/src/runtime.ts:79-113 | a simulator started with any funded accounts satisfies all invariants, with every minimum balance exact |
| `Signers.EveryRunFromStart` | packages/runtime/src/runtime.ts:79-113 | from such a start, over any run in which no application still to be deployed sends a transaction: every ledger satisfies all invariants, minimum balances are exact unless an asset was destroyed that somebody else held, and balances, fees and overwritten balances add up to the funds |
| `Signers.EverySignedRun` | packages/runtime/src/runtime.ts:79-113 | holders of keys sending groups whose programs send only for their own application or for holders of keys is enough for that, whatever ledgers come between |
| `Signers.NothingIsLost` | packages/runtime/src/runtime.ts:79-113 | and nothing is overwritten while payments go to and from existing addresses |
| `Runtimes.Runtime.ValidateTxRound` | packages/runtime/src/runtime.ts:240-251 | throws exactly when some transaction's first round is not before, or last round not after, the current round |
| `Runtimes.Runtime.AssertNoDuplicateTransaction` | packages/runtime/src/runtime.ts:257-264 | throws exactly when two transactions of the group have the same id |
| `Runtimes.Runtime.ExecuteTx` | packages/runtime/src/runtime.ts:914-1002 | atomic commit: a failing group leaves the store object and every account object untouched; a successful one installs a fresh store holding the fold of its steps |
| `Runtimes.Runtime.ProduceBlock` | packages/runtime/src/runtime.ts:1248-1270 | adds the block of the next round four seconds after the last, or the first block at the clock's time |
| `Runtimes.Runtime.ProduceBlocks` | packages/runtime/src/runtime.ts:1288-1292 | the effect of that many single blocks |
| `Runtimes.Runtime.GetBlock` | packages/runtime/src/runtime.ts:1276-1282 | gives the block of the round, or the error for a missing one |
| `Runtimes.Runtime.constructor` | packages/runtime/src/runtime.ts:79-113 | a new simulator holds the funded default accounts, any given account objects and the fee sink, and the blocks of rounds 0 to 1999, four seconds apart |
| `Runtimes.Runtime.SetupDefaultAccounts` | packages/runtime/src/runtime.ts:119-127 | creates a funded account object for every default address |
| `Chains.ProducingKeepsBlocks` | packages/runtime/src/runtime.ts:1248-1292 | producing blocks never fails on a chain with blocks and keeps: blocks are exactly rounds 0 to the current one, round r at start + 4r |
| `Chains.FirstBlocks` | packages/runtime/src/runtime.ts:1248-1270 | n blocks from nothing make such a chain with last round n - 1 |
| `Chains.AvailableRoundHasBlock` | packages/runtime/src/interpreter/interpreter.ts:625-644 | every non-negative round a program may ask for in a transaction valid now has a block, so looking it up never fails |
| `Chains.StartSucceeds` | packages/runtime/src/runtime.ts:79-113 | producing the initial blocks of a new simulator cannot fail and changes nothing else |
| `Chains.StartHolds` | packages/runtime/src/runtime.ts:79-127 | every account, index entry, counter and block of a new simulator: given accounts before default ones, the later of two, the fee sink last, 2000 blocks four seconds apart |
| `Chains.RoundIsAvailableIff` | packages/runtime/src/interpreter/interpreter.ts:625-644 | exactly which rounds a program may ask about |
| `Counterexamples.DeployCanLoseAlgos` | packages/runtime/src/ctx.ts:479-486 | a group that pays the address of the application it then deploys: it succeeds, and 200000 microAlgos are gone beside the fees |
| `Counterexamples.DeployCanBreakAssets` | packages/runtime/src/ctx.ts:479-486 | a ledger whose accounting of assets a deployment breaks, when somebody could sign for an address ahead of its application |
| `Counterexamples.DeployCanBreakIndex` | packages/runtime/src/ctx.ts:479-486 | the same for the index of applications |
| `Counterexamples.DestroyCanLeaveCharge` | packages/runtime/src/ctx.ts:718-720 | a destroyed asset whose fee stays in the minimum balance of an account with an empty holding |
| `Counterexamples.JumpsCanDisagree` | packages/runtime/src/interpreter/interpreter.ts:401-444 | a program on which the two jump schemes differ |
| `Labels.FirstLabelIsFirst` | packages/runtime/src/interpreter/interpreter.ts:401-419 | the forward scan finds the nearest occurrence of the label, or there is none |
| `Labels.MappedLabelIsLast` | packages/runtime/src/interpreter/interpreter.ts:470-476 | the label map holds the last occurrence of a label, and only labels of the program |
| `Labels.EndOfLabelsEnds` | packages/runtime/src/interpreter/interpreter.ts:408-415 | both jumps stop at the last of the labels that follow their target directly |
| `Labels.CodeFollowsIff` | packages/runtime/src/interpreter/interpreter.ts:434-443 | the search of jumpToLabel for a following instruction succeeds exactly when some later instruction is not a label |
| `Labels.JumpsAgreeIff` | packages/runtime/src/interpreter/interpreter.ts:401-444 | with distinct labels, both schemes take a branch to a label ahead to the same index exactly when some instruction after the label is not a label; then the next instruction is the first such |
| `Labels.JumpForwardGoesForward` | packages/runtime/src/interpreter/interpreter.ts:401-419 | a forward jump always increases the index and stays in the program |
| `Interpreters.Interpreter.constructor` | packages/runtime/src/interpreter/interpreter.ts:541-572 | an interpreter starts at instruction 0 with the given pooled cost and budget and empty call stack |
| `Interpreters.Interpreter.MapLabelWithIndexes` | packages/runtime/src/interpreter/interpreter.ts:470-476 | the map it fills is the last occurrence of each label |
| `Interpreters.Interpreter.JumpForward` | packages/runtime/src/interpreter/interpreter.ts:401-419 | finds the label after the current index and ends on the last directly following label, or throws |
| `Interpreters.Interpreter.JumpToLabel` | packages/runtime/src/interpreter/interpreter.ts:426-444 | goes to the mapped label's end of labels, leaves the index alone when nothing but labels follows, and throws for an unknown label |
| `Interpreters.Interpreter.ChargeCost` | packages/runtime/src/interpreter/interpreter.ts:584-606 | counts the cost against the logic signature limit or the pooled budget from version 4 on, records it, and throws when the limit is passed |
| `Interpreters.Interpreter.ExecuteNext` | packages/runtime/src/interpreter/interpreter.ts:574-610 | one turn of the loop is one step of the machine: execute, charge, then move on by one instruction |
| `Interpreters.Interpreter.ExecuteWithResult` | packages/runtime/src/interpreter/interpreter.ts:541-618 | the main loop ends for every program, version and data, in the state the step semantics gives; from version 4 on a run that executed something recorded exactly what it spent, within its limit |
| `Interpreters.Interpreter.ExecuteInstruction` | packages/runtime/src/interpreter/opcode-list.ts:1659-1845 | the control effect of each instruction on index, call stack, inner groups, budget and pooled cost, and its cost, for every choice of what the instruction finds on the stack |
| `Machines.ExecKeepsOk` | packages/runtime/src/interpreter/opcode-list.ts:3107-3164 | no instruction leaves the program text, grows the number of inner groups past its limit, or, before version 4, moves the index back; instructions of cost 0 change nothing |
| `Machines.StepDescends` | packages/runtime/src/interpreter/interpreter.ts:574-610 | each completed step lowers (inner groups still possible, budget left, instructions to go) lexicographically |
| `Machines.RunStaysWithinBudget` | packages/runtime/src/interpreter/interpreter.ts:574-610 | a completed run from version 4 on has recorded what it spent and spent at most its limit |
| `Machines.StaticCheckSuffices` | packages/runtime/src/parser/parser.ts:892-924 | before version 4 any run costs at most the sum of the costs of the instructions ahead of it |
| `Machines.AddUpCost` | packages/runtime/src/parser/parser.ts:892-924 | the parser adds up all costs and rejects exactly the old programs whose sum is above the limit of their mode |
| `Machines.OldProgramsStayWithinLimit` | packages/runtime/src/parser/parser.ts:844-868 | an old program the parser lets through stays within the limit whatever the data |
| `Machines.StepsAreBounded` | packages/runtime/src/interpreter/interpreter.ts:574-610 | without inner transactions a run completes at most (budget left) x (program length + 2) + instructions to go steps |
| `Machines.SubroutineReturns` | packages/runtime/src/interpreter/opcode-list.ts:3107-3164 | whatever runs between a call and the first return that takes the stack below what the call made it, that return goes on right behind the call and restores its stack |
| `Machines.SwitchGoesOnIff` | packages/runtime/src/interpreter/opcode-list.ts:5469-5480 | an operand that names no target goes on with the next instruction exactly when it is not the number of targets, or there are none |
| `Executions.CountersAddUp` | packages/runtime/src/interpreter/interpreter.ts:574-610 | over any stretch of a run, cost and pooled cost grow by exactly the costs of the executed instructions, each time they ran, and of the submitted groups, the budget by what these raised, and the number of groups by how many there were |
| `Executions.ThrowsForCostIff` | packages/runtime/src/interpreter/interpreter.ts:582-606 | from version 4 on an instruction throws for its cost exactly when all costs so far, on top of the start, pass 20000 or the budget with its raises; before, never |
| `Executions.RunFollowsSteps` | packages/runtime/src/interpreter/interpreter.ts:574-610 | every run is a sequence of steps that ends behind the program or before the step that throws, with its error |
| `Executions.RunRecordsItsCost` | packages/runtime/src/interpreter/interpreter.ts:574-610 | the gas of a completed run is the sum of what it executed, and within the allowance |
| `Executions.BranchGoesToCode` | packages/runtime/src/interpreter/opcode-list.ts:1699-1830 | with distinct labels, a taken branch, switch or call of version 4 or later goes on with the first instruction after its target that is no label, ahead or behind; an older one does so ahead |
| `Executions.BranchToTheEnd` | packages/runtime/src/interpreter/interpreter.ts:434-443 | where only labels follow the target, a new branch goes on behind itself, and an old one ends the program |
| `Executions.BranchWithoutLabel` | packages/runtime/src/interpreter/interpreter.ts:401-444 | a branch throws when its label is nowhere, or before version 4 nowhere ahead |
| `Executions.OtherwiseGoesOn` | packages/runtime/src/interpreter/interpreter.ts:574-610 | every other instruction goes on with the next one, return ends the program, and only calls and returns touch the call stack |
| `Executions.ThrowsIff` | packages/runtime/src/interpreter/opcode-list.ts:4215-4360 | exactly when instructions other than branches throw, apart from their cost |
| `Executions.GroupsAlternate` | packages/runtime/src/interpreter/opcode-list.ts:4235-4418 | an inner group is open exactly between its beginning and its submission |
| `Executions.StaticCostAddsUp` | packages/runtime/src/parser/parser.ts:892-924 | the parser's sum is the cost of each instruction once |
| `Tokenizer.TrimLine` | packages/runtime/src/parser/parser.ts:658-660 | removes white space from both ends of a line and nothing else |
| `Tokenizer.ReadCharacter` | packages/runtime/src/parser/parser.ts:668-711 | what a quote, slash or parenthesis does to the string and base64 flags, and when it begins a comment |
| `Tokenizer.SkipSpacesFrom` | packages/runtime/src/parser/parser.ts:724-729 | stops at the first character that is not a space |
| `Tokenizer.WordsFromLine` | packages/runtime/src/parser/parser.ts:658-738 | the index loop computes the words of the character-by-character specification |
| `TokenizerRoundTrip.RoundTrip` | packages/runtime/src/parser/parser.ts:658-738 | printing any well-formed words with any spacing, surrounding white space and optional comment and splitting the line again gives the words back |
| `TokenizerRoundTrip.BareIff` | packages/runtime/src/parser/parser.ts:658-738 | a word without spaces and opening quote is read whole exactly when every double slash in it is protected as base64 |
| `TokenizerRoundTrip.PlainIsBare` | packages/runtime/src/parser/parser.ts:684-692 | words without double slashes are well-formed everywhere |
| `TokenizerRoundTrip.Base64OperandIsBare` | packages/runtime/src/parser/parser.ts:713-721 | after the word base64 or b64 an operand may hold double slashes |
| `TokenizerRoundTrip.InlineBase64IsBare` | packages/runtime/src/parser/parser.ts:693-706 | so may what stands between the parentheses of base64(...) and b64(...) |
| `TokenizerRoundTrip.NoWords` | packages/runtime/src/parser/parser.ts:658-692 | blank lines and lines with only a comment have no words |
| `TokenizerCover.EveryLineIsItsWords` | packages/runtime/src/parser/parser.ts:658-738 | the converse of the round trip, for every line whatever: it is white space, its words with at least one space between them, spaces, nothing or a comment, and white space; only words that begin with a quote hold spaces |
| `TokenizerCover.ProtectionIff` | packages/runtime/src/parser/parser.ts:693-721 | double slashes are protected exactly up to the first closing parenthesis of a protected word, or of what follows b64( or base64( at its start |
| `TokenizerCover.SecondWordIff` | packages/runtime/src/parser/parser.ts:713-721 | a second word is read whole exactly when it is well-formed, protected after base64 and b64 and after no other word |
| `TokenizerCover.UnclosedTakesAll` | packages/runtime/src/parser/parser.ts:668-683 | a string that is never closed takes the rest of the line |
| `TokenizerCover.WhiteIff` | packages/runtime/src/parser/parser.ts:658-660 | what is trimmed is the white space and line ends of ECMAScript |
| `BigintSqrt.StepStaysAbove` | packages/runtime/src/lib/math.ts:19-23 | no Newton step, from anywhere, goes below the root |
| `BigintSqrt.StepDescends` | packages/runtime/src/lib/math.ts:19-23 | above the root a Newton step strictly decreases |
| `BigintSqrt.StepAtRoot` | packages/runtime/src/lib/math.ts:20-20 | at the root a step stays or goes up by one, so the exit test is sound there |
| `BigintSqrt.StopsAtSeedIff` | packages/runtime/src/lib/math.ts:16-20 | the exit test stops below the root, at the seed, exactly for (2^52-1)^2 <= v < 2^104-4 |
| `BigintSqrt.Iterate` | packages/runtime/src/lib/math.ts:18-24 | the loop ends for every value and returns the integer root, or its seed in the case above |
| `BigintSqrt.Sqrt` | packages/runtime/src/lib/math.ts:3-25 | returns r with r^2 <= v < (r+1)^2 exactly when v < (2^52-1)^2 or v >= 2^104-4 |
| `BigintSqrt.CorrectIff` | packages/runtime/src/lib/math.ts:3-25 | the same condition in both directions, and that a wrong result is one too small |
| `BigintSqrt.CorrectForUint64` | packages/runtime/src/lib/math.ts:3-25 | for every 64-bit value the result is the integer root |
| `BigintSqrt.OneShort` | packages/runtime/src/lib/math.ts:16-20 | the smallest value with a wrong result: (2^52-1)^2 gives 2^52-2 |
| `BigEndian.BigintToBigEndianBytes` | packages/runtime/src/lib/parsing.ts:247-265 | fills a new array with the byte of each pair of padded hexadecimal digits |
| `BigEndian.BigEndianBytesToBigInt` | packages/runtime/src/lib/parsing.ts:273-278 | decodes through that text, with 0 for no bytes |
| `BigEndian.DecodeIsValue` | packages/runtime/src/lib/parsing.ts:273-278 | decoding gives the base-256 value of the bytes |
| `BigEndian.DecodeEncode` | packages/runtime/src/lib/parsing.ts:247-278 | decoding undoes encoding for every non-negative integer |
| `BigEndian.EncodeIsMinimal` | packages/runtime/src/lib/parsing.ts:247-265 | an encoding has no leading zero byte, but [0] for zero |
| `BigEndian.EncodeLength` | packages/runtime/src/lib/parsing.ts:247-265 | n bytes encode b > 0 with 256^(n-1) <= b < 256^n |
| `BigEndian.EncodeDecodeIff` | packages/runtime/src/lib/parsing.ts:247-278 | encoding undoes decoding exactly on [0] and on byte arrays that start with a non-zero byte |
| `BigEndian.BuffToHex` | packages/runtime/src/lib/parsing.ts:232-239 | 0x and the padded hexadecimal text of every byte |
| `BigEndian.HexOfBytes` | packages/runtime/src/lib/parsing.ts:232-239 | the text of bytes is two lower-case digits for each, in order, the high one first |
| `StateSchema.AssertValidSchema` | packages/runtime/src/lib/stateful.ts:33-47 | throws exactly when some key or value is too long or the entries of a kind outnumber the schema |
| `StateSchema.DecodeKeyText` | packages/runtime/src/lib/stateful.ts:38-40 | the comma-separated decimal text of a key is decoded to the key; that of the empty key to one zero byte |
| `StateSchema.KeyTextInjective` | packages/runtime/src/account.ts:144-148 | different keys have different texts, so entries never collide |
| `StateSchema.LengthCheckIff` | packages/runtime/src/lib/stateful.ts:17-27 | the check on the decoded text is the limit of 64 and 128 bytes on the key itself, the empty key counting as one byte |
| `StateSchema.ReadWritten` | packages/runtime/src/account.ts:119-157 | a write is seen under its key and under no other |
| `StateSchema.AppStates.SetLocalState` | packages/runtime/src/account.ts:136-157 | writes exactly one entry and throws exactly when the result is outside schema or limits, or the account has not opted in |
| `StateSchema.AppStates.SetGlobalState` | packages/runtime/src/account.ts:180-198 | the same for the state of a created application |
| `StateSchema.WritesStayWithinSchema` | packages/runtime/src/lib/stateful.ts:33-47 | over any run of writes the state stays within its schema and every readable value within the length limits |
| `StateSchema.WriteAcceptedIff` | packages/runtime/src/lib/stateful.ts:17-47 | a write into a valid state is accepted exactly within 64 bytes of key, 128 bytes of key and value, and the schema's room for its kind, the overwritten entry not counted |
| `InnerFees.CalculateFeeCredit` | packages/runtime/src/lib/txn.ts:645-656 | collected fees are the sum over the group, required fees the minimum for each, and the credit their difference |
| `InnerFees.InnerGroup.CalculateInnerTxCredit` | packages/runtime/src/lib/itxn.ts:366-375 | the credit of the open inner group on top of what is left from outside |
| `InnerFees.InnerGroup.GetInnerTxDefaultFee` | packages/runtime/src/lib/itxn.ts:379-385 | 0 when the credit covers one more minimum fee, else the minimum fee |
| `InnerFees.InnerGroup.AddInnerTransaction` | packages/runtime/src/lib/itxn.ts:393-419 | appends one transaction with that fee |
| `InnerFees.InnerGroup.Submit` | packages/runtime/src/interpreter/opcode-list.ts:4334-4383 | throws exactly when the group is not covered; what is left over goes to the next group |
| `InnerFees.DefaultFeesClosedForm` | packages/runtime/src/lib/itxn.ts:366-385 | of n inner transactions with default fees exactly the first min(n, R div 1000) are free and each later one pays 1000, and the credit never falls below 0 |
| `InnerFees.DefaultFeesContinue` | packages/runtime/src/lib/itxn.ts:366-385 | transactions of a second group pay what they would have paid at the end of the first |
| `InnerFees.GroupingDoesNotMatter` | packages/runtime/src/lib/itxn.ts:366-385 | how inner transactions are split into groups changes no fee |
| `CheckpointRepos.CheckpointRepo.AppendToCheckpoint` | packages/algob/src/lib/script-checkpoints.ts:57-87 | which names clash, what the merged checkpoint is, and that a failing merge has already taken over time and metadata but no entry |
| `CheckpointRepos.CheckpointRepo.ClaimAll` | packages/algob/src/lib/script-checkpoints.ts:112-131 | all names of all networks go to the script, exactly when no other script owns one of them; when one does, free names may have gone to the script and nothing else has changed |
| `CheckpointRepos.CheckpointRepo.RegisterASA` | packages/algob/src/lib/script-checkpoints.ts:159-164 | enters the asset in all three views |
| `CheckpointRepos.CheckpointRepo.RegisterSSC` | packages/algob/src/lib/script-checkpoints.ts:166-186 | adds the application under its timestamp in all three views |
| `CheckpointRepos.CheckpointRepo.RegisterLsig` | packages/algob/src/lib/script-checkpoints.ts:188-193 | enters the logic signature in all three views |
| `CheckpointRepos.CheckpointRepo.IsDefined` | packages/algob/src/lib/script-checkpoints.ts:195-203 | true exactly for names of the global view on that network |
| `CheckpointRepos.CheckpointRepo.MergeTo` | packages/algob/src/lib/script-checkpoints.ts:94-104 | merges every network, and succeeds exactly when every network can be merged; when it throws, some networks are merged, the one it stops at has the new time and metadata and its old entries, and all others are as they were |
| `CheckpointRepos.CheckpointRepo.MergeToGlobal` | packages/algob/src/lib/script-checkpoints.ts:112-136 | succeeds exactly when all names can be claimed and merged; a name of another script leaves the global view unchanged and may leave free names claimed, and a clash leaves it as a stopped merge does |
| `CheckpointRepos.CheckpointRepo.Merge` | packages/algob/src/lib/script-checkpoints.ts:105-110 | the effect on all three views and on the owners, exactly when it succeeds; a clash with the preceding view stops it before owners and global view change, a name of another script before the global view does, and each view is left merged, untouched or stopped at one network |
| `Checkpoints.MergeKeepsAssets` | packages/algob/src/lib/script-checkpoints.ts:57-87 | a merge loses and changes no asset |
| `Checkpoints.MergeKeepsAppIff` | packages/algob/src/lib/script-checkpoints.ts:65-78 | a merge loses no application and changes one exactly when its name is also an asset and another application is appended under it |
| `Checkpoints.MergeCanChangeApp` | packages/algob/src/lib/script-checkpoints.ts:65-78 | two checkpoints whose merge passes every test and changes an application |
| `Checkpoints.MergeAllTwice` | packages/algob/src/lib/script-checkpoints.ts:95-104 | merging the same checkpoint a second time cannot throw and changes nothing |
| `Checkpoints.MergeToGlobalTwice` | packages/algob/src/lib/script-checkpoints.ts:112-136 | nor does merging it for the same script into the global view |
| `Checkpoints.RunKeepsPreceding` | packages/algob/src/lib/script-checkpoints.ts:105-193 | over any run of merges and registrations the names in the preceding view are names of the global view |
| `Checkpoints.OwnershipLasts` | packages/algob/src/lib/script-checkpoints.ts:118-131 | once a script owns a name no merge takes it away |
| `Checkpoints.AssetsLast` | packages/algob/src/lib/script-checkpoints.ts:95-136 | over any run of merges no asset is lost or changed |
| `Checkpoints.SingleOwner` | packages/algob/src/lib/script-checkpoints.ts:118-131 | over any run without a throw, every name of a merged checkpoint of a script with a non-empty name belongs to that script, and no other script merges that name |
| `Checkpoints.ExclusiveIff` | packages/algob/src/lib/script-checkpoints.ts:112-133 | after a script merged a name, no other script can claim it exactly when the script's own name is not empty |
| `Checkpoints.NamelessOwnsNothing` | packages/algob/src/lib/script-checkpoints.ts:112-133 | a run in which a script with the empty name and then another script merge the same asset |
| `Checkpoints.AppsStay` | packages/algob/src/lib/script-checkpoints.ts:95-136 | over any run of merges no application is lost |
| `Checkpoints.AppsLast` | packages/algob/src/lib/script-checkpoints.ts:95-136 | and none is changed while its name is not an asset as well |
| `Checkpoints.MergeTakesLast` | packages/algob/src/lib/script-checkpoints.ts:57-87 | of each name of each kind a merge takes the appended entry, and the old one where there is none |
| `Checkpoints.MergeableIff` | packages/algob/src/lib/script-checkpoints.ts:65-81 | exactly which checkpoints can be merged |
| `Checkpoints.RegisteredIsSeen` | packages/algob/src/lib/script-checkpoints.ts:138-193 | a registration is seen under its name and kind, an application beside the others of its name; all other entries and networks stay |
| `Multisig.LogicSig.SingleSignMultisig` | packages/runtime/src/logicsig.ts:93-110 | gives the key's signature and its first slot, or throws for a key that is no member |
| `Multisig.LogicSig.Sign` | packages/runtime/src/logicsig.ts:67-86 | starts an unsigned multisignature and signs the key's first slot only |
| `Multisig.LogicSig.AppendToMultisig` | packages/runtime/src/logicsig.ts:116-122 | signs the key's first slot only, and throws without a multisignature |
| `Multisig.LogicSig.VerifyMultisig` | packages/runtime/src/logicsig.ts:150-198 | true exactly when the address matches and both the signed and the verified slots reach the threshold |
| `Multisig.SigningAddsSigner` | packages/runtime/src/logicsig.ts:93-122 | one signature adds exactly its key to the signers and changes no member |
| `Multisig.CountsAreSigners` | packages/runtime/src/logicsig.ts:170-198 | both counters are the number of distinct members that signed |
| `Multisig.SignAllSigners` | packages/runtime/src/logicsig.ts:93-122 | after any sequence of signatures the signers are the members among the keys, whatever order and repetition |
| `Multisig.ThresholdIff` | packages/runtime/src/logicsig.ts:93-198 | after any keys have signed a program, verification succeeds exactly for that program and the address of that version, threshold and members, if these have an address and enough distinct members are among the keys |
| `VotingContracts.VotingContract.Register` | examples/permissioned-voting/assets/permissioned-voting-approval.py:50-56 | opts in exactly when not rekeyed, with the right argument, inside the registration window, once |
| `VotingContracts.VotingContract.CastVote` | examples/permissioned-voting/assets/permissioned-voting-approval.py:69-90 | counts a vote exactly when every condition on window, group, token, candidate and earlier vote holds |
| `VotingContracts.VotingContract.Close` | examples/permissioned-voting/assets/permissioned-voting-approval.py:40-46 | takes the vote back while the vote is on, and then drops the account's state |
| `VotingContracts.VotingContract.Clear` | examples/permissioned-voting/assets/permissioned-voting-clear.py:3-4 | drops the account's state and leaves the tally |
| `Voting.StepTallies` | examples/permissioned-voting/assets/permissioned-voting-approval.py:40-90 | one event moves a tally and the number of its supporters by the same amount, but for a forgotten vote |
| `Voting.TallyIsSupportersPlusForgotten` | examples/permissioned-voting/assets/permissioned-voting-approval.py:40-90 | over any run a tally is the number of accounts whose stored vote it is plus the votes forgotten by clear-state and late close-out |
| `Voting.CloseOutNeverUnderflows` | examples/permissioned-voting/assets/permissioned-voting-approval.py:40-46 | after any run, closing out succeeds exactly for accounts that opted in: the decrement never underflows |
| `Voting.TalliesFinal` | examples/permissioned-voting/assets/permissioned-voting-approval.py:40-90 | once the round is past VoteEnd no event changes a tally |
| `Voting.TallyGrowsOnlyByVote` | examples/permissioned-voting/assets/permissioned-voting-approval.py:69-90 | a tally grows only by one, by an opted-in account's first vote for that candidate in the window with the token paid back |
| `Voting.MembershipChanges` | examples/permissioned-voting/assets/permissioned-voting-approval.py:40-56 | an account joins only in the registration window and leaves only by its own call |
| `Voting.CountedTwice` | examples/permissioned-voting/assets/permissioned-voting-approval.py:50-90 | a run in which one account is counted twice, when a round is in both windows |
| `Voting.OneVotePerAccountIff` | examples/permissioned-voting/assets/permissioned-voting-approval.py:50-90 | no run counts an account twice exactly when no round is in both windows |
| `Voting.RegisterIff` | examples/permissioned-voting/assets/permissioned-voting-approval.py:50-56 | exactly when an account is admitted, and what that changes |
| `Voting.VoteIff` | examples/permissioned-voting/assets/permissioned-voting-approval.py:58-90 | exactly when a vote counts, condition by condition, and what it changes |
| `Voting.LeavingIff` | examples/permissioned-voting/assets/permissioned-voting-approval.py:40-46 | exactly when closing out and clearing succeed, and when they take a vote back |

## Left out

Ledger:

- Which transaction a wire-format transaction is (`isEncTx*`) is taken as decoded: a transaction carries its body. The third branch for asset transfers, an opt-in, cannot be reached behind the first and is not modelled.
- Signatures, logic signatures, multisignatures of transactions, rekeying and spend addresses: one verdict `authorized` per transaction.
- Why a program does what it does: a run of a program is the list of accounts it looks at and of groups it submits, and its verdict, all of them arbitrary. The checks that stop a program while it submits (depth and self-calls on the inner call stack, version, fields of inner transactions) count as a failing verdict. A program's writes to application state are in `StateSchema` and not part of the ledger.
- Context.Ctx.ProcessTx: does not model that a transaction may rekey its sender at the end, because the signature check that would notice is a verdict.
- Context.Ctx.EnterApp: the length and version checks of program texts, and the table of application names: the flags `validPrograms`, `nameFree` and `validDef`, with one error for all of them.
- Receipts, logs, asset names and metadata, asset name tables.
- What a thrown error leaves behind inside the copy of the store a group runs on: the copy is dropped.
- The simulator's field `ctx`, which after a group still refers to that group's context, also when it failed.
- Methods of the simulator that work on the shared context outside a group (direct `deployApp`, `optInToApp`, `deployASA`), `sendSignedTransaction` and `setRoundAndTimestamp`.
- Holdings and parameters are values in the account's maps, not objects of their own; account objects are objects.
- The address of an application, a hash in the code, is taken to be injective and to differ from all key addresses.
- Block seeds.

TEAL machine:

- Data on the stack and the effect of the other opcodes: a `Choice` per instruction says whether it fails, whether a branch is taken, the operand of `switch`, and what an inner group costs. Costs of these opcodes are any positive numbers; the cost table at parsing time and the cost at run time are one function.
- Interpreters.Interpreter.ExecuteWithResult: the value a program leaves on the stack, and the check of the transaction's arrays before it.
- That a program run by an inner transaction ends is assumed of the inner run; `itxn_next` only grows the open group and is a plain instruction here.
- The tests for implicit constant blocks are the parameter `extra` of the start state, and the version check of inner application calls is one more way for an instruction to fail.
- Recognising opcodes, checking their arguments and reporting line numbers (`opcodeFromSentence` beyond the adding up of costs).
- Trimming follows the white space of ECMAScript; characters outside the basic plane are single characters here.

Numbers, state and fees:

- `Math.sqrt` rounded down is taken to be the exact floor root below 2^52.
- Negative integers in the big-endian codec, which the callers never pass.
- State keys given as text: keys are bytes.
- InnerFees.InnerGroup.AddInnerTransaction: the errors for a missing application or application account, and the fields other than the fee.
- InnerFees.InnerGroup.Submit: a group with an application transaction that is not a plain call is left open with a warning instead of being submitted; this is modelled in `Machines.ExecItxnSubmit` and `Context.Ctx.SubmitGroup`. Fees that a program sets itself are in `Context.Ctx.SubmitGroup`, not in this class.

Checkpoints, multisignatures, voting:

- CheckpointRepos.CheckpointRepo.Merge: does not say which networks a failing merge has already merged, because that depends on the order in which object keys are visited.
- Metadata access, reading and writing checkpoint files, names that objects inherit from their prototype, and the sharing of map objects between the three views (every registration enters all three, so sharing is not visible).
- Time stamps of checkpoints that a registration creates.
- Signatures are ideal: they say which key signed which program, and no other key or program verifies. Group addresses are injective in version, threshold and members.
- Updating and deleting the voting contract, the count of creation arguments and calls with other arguments; the other example contracts.

Command line, configuration, file and network access, dry runs and the other packages.
