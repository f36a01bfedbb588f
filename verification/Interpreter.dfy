/** The control of the TEAL interpreter: the fetch and execute loop, branches, subroutines, inner
    transactions, and the cost accounting that stops programs able to jump backwards.

    What an instruction finds on the stack decides whether it fails, whether a branch is taken and
    what an inner transaction costs; a `Choice` per executed instruction stands for it, so that a
    statement about all choices is about all data. */
module Machines {
  import opened Wrappers
  import opened Labels

  const LOGIC_SIG_MAX_COST := 20000
  const MAX_INNER_TRANSACTIONS := 16
  const CALL_STACK_CAPACITY := 1000
  const MAX_APP_PROGRAM_COST := 700

  datatype Mode = Signature | Application

  datatype Error =
    | OpFailed
    | LabelNotFound
    | CallStackEmpty
    | CallStackOverflow
    | ItxnBeginWithoutSubmit
    | ItxnSubmitWithoutBegin
    | MaxInnerTransactionsExceeded
    | MaxCostExceeded

  /** `index` is the operand of `switch`. A submitted group raises the budget by `raise` and costs
      `nested` in the programs it runs; a group the simulator does not support is not `submitted`. */
  datatype Choice = Choice(fails: bool, taken: bool, index: nat, submitted: bool, raise: nat, nested: nat)

  /** `staticGas` is the cost the parser added up. */
  datatype Program = Program(ops: seq<Op>, version: nat, mode: Mode, staticGas: nat)

  /** `pooled` and `budget` belong to the context, `groups` counts submitted inner groups, `open`
      says whether one is being built, and `gas` is what the receipt records. */
  datatype Machine = Machine(
    index: nat, cost: nat, pooled: nat, budget: nat, callStack: seq<nat>, groups: nat, open: bool, gas: Option<nat>)

  /** Before version 4 the parser knows no subroutines, switches or inner transactions, and a
      logic signature may never use inner transactions. */
  predicate Parsed(p: Program) {
    forall i :: 0 <= i < |p.ops| ==>
      (p.version < 4 ==> !p.ops[i].Callsub? && !p.ops[i].Retsub? && !p.ops[i].Switch?) &&
      (p.version < 4 || p.mode == Signature ==> !p.ops[i].ItxnBegin? && !p.ops[i].ItxnSubmit?)
  }

  function OpCost(op: Op): nat {
    match op
    case Label(_) => 0
    case Pragma => 0
    case Plain(c) => c
    case _ => 1
  }

  /** The machine before the first instruction. `extra` is what is charged for blocks of constants
      that the program leaves implicit. */
  function Start(pooled: nat, budget: nat, extra: nat): Machine {
    Machine(0, extra, pooled + extra, budget, [], 0, false, None)
  }

  function Jump(p: Program, m: Machine, target: string): Result<Machine, Error> {
    var k := if p.version < 4 then JumpForward(p.ops, m.index, target) else JumpToLabel(p.ops, m.index, target);
    if k.None? then Failure(LabelNotFound) else Success(m.(index := k.value))
  }

  /** `switch` goes on past an operand beyond the number of targets; an operand equal to it finds
      no label. */
  function ExecSwitch(p: Program, m: Machine, targets: seq<string>, operand: nat): Result<Machine, Error> {
    if operand > |targets| || |targets| == 0 then Success(m)
    else if operand == |targets| then Failure(LabelNotFound)
    else Jump(p, m, targets[operand])
  }

  /** An operand that names no target goes on with the next instruction, except the first such one. */
  lemma SwitchGoesOnIff(p: Program, m: Machine, targets: seq<string>, operand: nat)
    requires operand >= |targets|
    ensures ExecSwitch(p, m, targets, operand) == Success(m) <==> targets == [] || operand != |targets|
  {
  }

  function ExecCallsub(p: Program, m: Machine, target: string): Result<Machine, Error> {
    if |m.callStack| == CALL_STACK_CAPACITY then Failure(CallStackOverflow)
    else Jump(p, m.(callStack := m.callStack + [m.index]), target)
  }

  function ExecRetsub(m: Machine): Result<Machine, Error> {
    if m.callStack == [] then Failure(CallStackEmpty)
    else Success(m.(index := m.callStack[|m.callStack| - 1], callStack := m.callStack[..|m.callStack| - 1]))
  }

  function ExecItxnBegin(m: Machine, ch: Choice): Result<Machine, Error> {
    if m.open then Failure(ItxnBeginWithoutSubmit)
    else if m.groups >= MAX_INNER_TRANSACTIONS then Failure(MaxInnerTransactionsExceeded)
    else if ch.fails then Failure(OpFailed)
    else Success(m.(open := true))
  }

  function ExecItxnSubmit(m: Machine, ch: Choice): Result<Machine, Error> {
    if !m.open then Failure(ItxnSubmitWithoutBegin)
    else if ch.fails then Failure(OpFailed)
    else if !ch.submitted then Success(m)
    else Success(m.(budget := m.budget + ch.raise, pooled := m.pooled + ch.nested,
                    groups := m.groups + 1, open := false))
  }

  /** The effect of one instruction, before its cost is counted. */
  function Exec(p: Program, m: Machine, ch: Choice): Result<Machine, Error>
    requires m.index < |p.ops|
  {
    match p.ops[m.index]
    case Label(_) => Success(m)
    case Pragma => Success(m)
    case Branch(target) => Jump(p, m, target)
    case CondBranch(target) =>
      if ch.fails then Failure(OpFailed) else if ch.taken then Jump(p, m, target) else Success(m)
    case Switch(targets) => if ch.fails then Failure(OpFailed) else ExecSwitch(p, m, targets, ch.index)
    case Callsub(target) => ExecCallsub(p, m, target)
    case Retsub => ExecRetsub(m)
    case Return => if ch.fails then Failure(OpFailed) else Success(m.(index := |p.ops|))
    case ItxnBegin => ExecItxnBegin(m, ch)
    case ItxnSubmit => ExecItxnSubmit(m, ch)
    case Plain(_) => if ch.fails then Failure(OpFailed) else Success(m)
  }

  /** From version 4 the cost is counted while running, against a fixed limit for a logic signature
      and against the pooled budget for an application; before, it was checked while parsing. */
  function Charge(p: Program, m: Machine, c: nat): Result<Machine, Error> {
    var m1 := m.(cost := m.cost + c);
    if p.version < 4 then Success(m1.(gas := Some(p.staticGas)))
    else if p.mode == Signature then
      if m1.cost > LOGIC_SIG_MAX_COST then Failure(MaxCostExceeded) else Success(m1.(gas := Some(m1.cost)))
    else
      var m2 := m1.(pooled := m1.pooled + c);
      if m2.pooled > m2.budget then Failure(MaxCostExceeded) else Success(m2.(gas := Some(m2.pooled)))
  }

  function Step(p: Program, m: Machine, ch: Choice): Result<Machine, Error>
    requires m.index < |p.ops|
  {
    var m1 :- Exec(p, m, ch);
    var m2 :- Charge(p, m1, OpCost(p.ops[m.index]));
    Success(m2.(index := m2.index + 1))
  }

  /** An inner group can be open only while another one may still be submitted, and subroutines
      return into the program. */
  predicate MachineOk(p: Program, m: Machine) {
    && m.groups <= MAX_INNER_TRANSACTIONS && (m.open ==> m.groups < MAX_INNER_TRANSACTIONS)
    && (p.version < 4 || p.mode == Signature ==> !m.open)
    && forall i :: 0 <= i < |m.callStack| ==> m.callStack[i] < |p.ops|
  }

  function Limit(p: Program, m: Machine): nat {
    if p.mode == Signature then LOGIC_SIG_MAX_COST else m.budget
  }

  function Spent(p: Program, m: Machine): nat {
    if p.mode == Signature then m.cost else m.pooled
  }

  /** What is left to spend; before version 4 nothing is spent while running. */
  function Left(p: Program, m: Machine): nat {
    if p.version < 4 || Spent(p, m) > Limit(p, m) then 0 else Limit(p, m) - Spent(p, m)
  }

  function ToGo(p: Program, m: Machine): nat {
    if m.index > |p.ops| then 0 else |p.ops| + 1 - m.index
  }

  lemma ExecKeepsOk(p: Program, m: Machine, ch: Choice)
    requires Parsed(p) && MachineOk(p, m) && m.index < |p.ops| && Exec(p, m, ch).Success?
    ensures var n := Exec(p, m, ch).value;
            && MachineOk(p, n) && n.index <= |p.ops| && n.cost == m.cost
            && (n.groups == m.groups ==> n.pooled == m.pooled && n.budget == m.budget)
            && n.groups >= m.groups
            && (p.version < 4 ==> n.index >= m.index)
            && (OpCost(p.ops[m.index]) == 0 ==> n == m)
  {
    match p.ops[m.index]
    case Branch(target) => JumpForwardGoesForward(p.ops, m.index, target);
    case CondBranch(target) => JumpForwardGoesForward(p.ops, m.index, target);
    case _ =>
  }

  /** Every step that goes on brings the run closer to its end: one more inner group is used up, or
      less is left to spend, or the end of the program is nearer. */
  lemma StepDescends(p: Program, m: Machine, ch: Choice)
    requires Parsed(p) && MachineOk(p, m) && m.index < |p.ops| && Step(p, m, ch).Success?
    ensures var n := Step(p, m, ch).value;
            && MachineOk(p, n)
            && (n.groups > m.groups
                || (n.groups == m.groups && n.budget == m.budget
                    && (Left(p, n) < Left(p, m) || (Left(p, n) == Left(p, m) && ToGo(p, n) < ToGo(p, m)))))
  {
    ExecKeepsOk(p, m, ch);
  }

  /** The run from `m`, taking the choices from number `k` on. */
  function Run(p: Program, m: Machine, choices: nat -> Choice, k: nat): Result<Machine, Error>
    requires Parsed(p) && MachineOk(p, m)
    decreases MAX_INNER_TRANSACTIONS - m.groups, Left(p, m), ToGo(p, m)
  {
    if m.index >= |p.ops| then Success(m)
    else
      match Step(p, m, choices(k))
      case Failure(e) => Failure(e)
      case Success(n) =>
        StepDescends(p, m, choices(k));
        Run(p, n, choices, k + 1)
  }

  // ----- whole runs -----

  /** A run from version 4 on that executes anything and completes has recorded exactly what it
      spent, and has not spent more than the limit it ended with. */
  lemma {:induction false} RunStaysWithinBudget(p: Program, m: Machine, choices: nat -> Choice, k: nat)
    requires Parsed(p) && MachineOk(p, m) && p.version >= 4 && m.index < |p.ops|
    requires Run(p, m, choices, k).Success?
    ensures var n := Run(p, m, choices, k).value;
            n.gas == Some(Spent(p, n)) && Spent(p, n) <= Limit(p, n)
    decreases MAX_INNER_TRANSACTIONS - m.groups, Left(p, m), ToGo(p, m)
  {
    StepDescends(p, m, choices(k));
    var n := Step(p, m, choices(k)).value;
    if n.index < |p.ops| {
      RunStaysWithinBudget(p, n, choices, k + 1);
    }
  }

  function StaticCost(ops: seq<Op>): nat {
    if ops == [] then 0 else OpCost(ops[0]) + StaticCost(ops[1..])
  }

  lemma {:induction false} StaticCostFrom(ops: seq<Op>, i: nat, j: nat)
    requires i <= j <= |ops|
    ensures StaticCost(ops[j..]) <= StaticCost(ops[i..])
    decreases j - i
  {
    if i < j {
      StaticCostFrom(ops, i + 1, j);
      assert ops[i..][1..] == ops[i + 1..];
    }
  }

  /** Before version 4 no instruction runs twice, so what the parser adds up bounds what any run costs. */
  lemma {:induction false} StaticCheckSuffices(p: Program, m: Machine, choices: nat -> Choice, k: nat)
    requires Parsed(p) && MachineOk(p, m) && p.version < 4 && m.index <= |p.ops|
    requires Run(p, m, choices, k).Success?
    ensures Run(p, m, choices, k).value.cost <= m.cost + StaticCost(p.ops[m.index..])
    decreases |p.ops| - m.index
  {
    if m.index < |p.ops| {
      StepDescends(p, m, choices(k));
      ExecKeepsOk(p, m, choices(k));
      var n := Step(p, m, choices(k)).value;
      assert p.ops[m.index..][1..] == p.ops[m.index + 1..];
      if n.index <= |p.ops| {
        StaticCheckSuffices(p, n, choices, k + 1);
        StaticCostFrom(p.ops, m.index + 1, n.index);
      }
    }
  }

  /** The parser's accounting: the cost of every instruction is added up, and before version 4 the
      sum is checked against the limit of the mode. */
  method AddUpCost(ops: seq<Op>, version: nat, mode: Mode) returns (r: Result<nat, Error>)
    ensures r == if version <= 3 && StaticCost(ops) > (if mode == Signature then 20000 else 700)
                 then Failure(MaxCostExceeded) else Success(StaticCost(ops))
  {
    var gas := 0;
    for i := 0 to |ops|
      invariant gas + StaticCost(ops[i..]) == StaticCost(ops)
    {
      assert ops[i..][0] == ops[i] && ops[i..][1..] == ops[i + 1..];
      gas := gas + OpCost(ops[i]);
    }
    if version <= 3 && gas > (if mode == Signature then LOGIC_SIG_MAX_COST else MAX_APP_PROGRAM_COST) {
      return Failure(MaxCostExceeded);
    }
    return Success(gas);
  }

  /** Whatever the data, a program of an old version that the parser lets through costs no more
      than the limit while it runs. */
  lemma {:induction false} OldProgramsStayWithinLimit(p: Program, pooled: nat, budget: nat, choices: nat -> Choice)
    requires Parsed(p) && p.version <= 3 && StaticCost(p.ops) <= (if p.mode == Signature then 20000 else 700)
    requires Run(p, Start(pooled, budget, 0), choices, 0).Success?
    ensures Run(p, Start(pooled, budget, 0), choices, 0).value.cost <= if p.mode == Signature then 20000 else 700
  {
    StaticCheckSuffices(p, Start(pooled, budget, 0), choices, 0);
    assert p.ops[0..] == p.ops;
  }

  /** A stretch of a run: the machines before, between and after its steps, and what the steps chose. */
  predicate Stretch(p: Program, ms: seq<Machine>, choices: seq<Choice>) {
    && |ms| == |choices| + 1
    && forall i :: 0 <= i < |choices| ==>
         ms[i].index < |p.ops| && Step(p, ms[i], choices[i]) == Success(ms[i + 1])
  }

  /** The call stack is never shorter than `d`. */
  predicate StaysDeep(ms: seq<Machine>, d: nat) {
    forall i :: 0 <= i < |ms| ==> |ms[i].callStack| >= d
  }

  lemma StepKeepsDeep(p: Program, m: Machine, ch: Choice, d: nat)
    requires m.index < |p.ops| && Step(p, m, ch).Success?
    requires |m.callStack| >= d && |Step(p, m, ch).value.callStack| >= d
    ensures Step(p, m, ch).value.callStack[..d] == m.callStack[..d]
  {
  }

  /** What lies below is not touched. */
  lemma {:induction false} DeepIsKept(p: Program, ms: seq<Machine>, choices: seq<Choice>, d: nat, i: nat)
    requires Stretch(p, ms, choices) && StaysDeep(ms, d) && i < |ms|
    ensures ms[i].callStack[..d] == ms[0].callStack[..d]
    decreases i
  {
    if i > 0 {
      DeepIsKept(p, ms, choices, d, i - 1);
      assert Step(p, ms[i - 1], choices[i - 1]) == Success(ms[i]);
      StepKeepsDeep(p, ms[i - 1], choices[i - 1], d);
    }
  }

  /** Subroutines nest: whatever runs between a call and the first return that takes the stack below
      what the call made it, calls and jumps included, that return goes on right behind the call. */
  lemma SubroutineReturns(
      p: Program, call: Machine, enter: Choice, ms: seq<Machine>, choices: seq<Choice>, leave: Choice)
    requires call.index < |p.ops| && p.ops[call.index].Callsub? && Stretch(p, ms, choices)
    requires Step(p, call, enter) == Success(ms[0])
    requires StaysDeep(ms, |call.callStack| + 1)
    requires var last := ms[|ms| - 1];
             && last.index < |p.ops| && Step(p, last, leave).Success?
             && |Step(p, last, leave).value.callStack| == |call.callStack|
    ensures var back := Step(p, ms[|ms| - 1], leave).value;
            back.index == call.index + 1 && back.callStack == call.callStack
  {
    var d := |call.callStack| + 1;
    DeepIsKept(p, ms, choices, d, |ms| - 1);
    var last := ms[|ms| - 1];
    assert ms[0].callStack == call.callStack + [call.index];
    assert last.callStack == last.callStack[..d];
  }

  /** How many instructions a run completes. */
  ghost function Steps(p: Program, m: Machine, choices: nat -> Choice, k: nat): nat
    requires Parsed(p) && MachineOk(p, m)
    decreases MAX_INNER_TRANSACTIONS - m.groups, Left(p, m), ToGo(p, m)
  {
    if m.index >= |p.ops| then 0
    else
      match Step(p, m, choices(k))
      case Failure(_) => 0
      case Success(n) =>
        StepDescends(p, m, choices(k));
        1 + Steps(p, n, choices, k + 1)
  }

  predicate NoInnerGroups(p: Program) {
    forall i :: 0 <= i < |p.ops| ==> !p.ops[i].ItxnSubmit?
  }

  lemma LessLeft(n: nat, less: nat, more: nat)
    requires less < more
    ensures less * n + n <= more * n
  {
    assert (less + 1) * n <= more * n;
  }

  /** Without inner transactions a run completes a number of instructions that is known before it
      starts: once around the program for every unit left to spend, and once more. */
  lemma {:induction false} StepsAreBounded(p: Program, m: Machine, choices: nat -> Choice, k: nat)
    requires Parsed(p) && MachineOk(p, m) && NoInnerGroups(p)
    ensures Steps(p, m, choices, k) <= Left(p, m) * (|p.ops| + 2) + ToGo(p, m)
    decreases Left(p, m), ToGo(p, m)
  {
    if m.index < |p.ops| && Step(p, m, choices(k)).Success? {
      StepDescends(p, m, choices(k));
      var n := Step(p, m, choices(k)).value;
      assert n.groups == m.groups;
      StepsAreBounded(p, n, choices, k + 1);
      if Left(p, n) < Left(p, m) {
        LessLeft(|p.ops| + 2, Left(p, n), Left(p, m));
      }
    }
  }
}

/** The interpreter object. */
module Interpreters {
  import opened Wrappers
  import opened Labels
  import opened Machines

  class Interpreter {
    const program: Program
    var instructionIndex: nat
    var cost: nat
    var pooledApplCost: nat
    var budget: nat
    var callStack: seq<nat>
    var innerTxnGroups: nat
    var innerTxnOpen: bool
    var receiptGas: Option<nat>
    var labelMap: map<string, nat>

    constructor (program: Program, pooled: nat, budget: nat, extra: nat)
      ensures this.program == program
      ensures View() == Start(pooled, budget, extra)
      ensures instructionIndex == 0 && callStack == [] && innerTxnGroups == 0 && !innerTxnOpen && receiptGas == None
      ensures cost == extra && pooledApplCost == pooled + extra && this.budget == budget
    {
      this.program := program;
      instructionIndex, cost, pooledApplCost, this.budget := 0, extra, pooled + extra, budget;
      callStack, innerTxnGroups, innerTxnOpen, receiptGas := [], 0, false, None;
      labelMap := map[];
    }

    ghost function View(): Machine
      reads this
    {
      Machine(instructionIndex, cost, pooledApplCost, budget, callStack, innerTxnGroups, innerTxnOpen, receiptGas)
    }

    ghost predicate Mapped()
      reads this
    {
      forall l :: match MappedLabel(program.ops, l)
                  case Some(k) => l in labelMap && labelMap[l] == k
                  case None => l !in labelMap
    }

    method MapLabelWithIndexes()
      modifies this`labelMap
      ensures Mapped()
    {
      labelMap := map[];
      for i := 0 to |program.ops|
        invariant forall l :: match MappedLabel(program.ops[..i], l)
                              case Some(k) => l in labelMap && labelMap[l] == k
                              case None => l !in labelMap
      {
        assert program.ops[..i + 1][..i] == program.ops[..i];
        if program.ops[i].Label? {
          labelMap := labelMap[program.ops[i].name := i];
        }
      }
      assert program.ops[..|program.ops|] == program.ops;
    }

    method JumpForward(target: string) returns (r: Result<(), Error>)
      modifies this`instructionIndex
      ensures match Labels.JumpForward(program.ops, old(instructionIndex), target)
              case Some(k) => r == Success(()) && instructionIndex == k
              case None => r == Failure(LabelNotFound)
    {
      instructionIndex := instructionIndex + 1;
      while instructionIndex < |program.ops|
        invariant FirstLabel(program.ops, instructionIndex, target)
                  == FirstLabel(program.ops, old(instructionIndex) + 1, target)
      {
        if program.ops[instructionIndex] == Label(target) {
          while instructionIndex < |program.ops| - 1
            invariant instructionIndex < |program.ops|
            invariant Labels.JumpForward(program.ops, old(instructionIndex), target)
                      == Some(EndOfLabels(program.ops, instructionIndex))
          {
            if !program.ops[instructionIndex + 1].Label? {
              break;
            }
            instructionIndex := instructionIndex + 1;
          }
          return Success(());
        }
        instructionIndex := instructionIndex + 1;
      }
      return Failure(LabelNotFound);
    }

    method JumpToLabel(target: string) returns (r: Result<(), Error>)
      requires Mapped()
      modifies this`instructionIndex
      ensures match Labels.JumpToLabel(program.ops, old(instructionIndex), target)
              case Some(k) => r == Success(()) && instructionIndex == k
              case None => r == Failure(LabelNotFound)
    {
      MappedLabelIsLast(program.ops, target);
      if target !in labelMap {
        return Failure(LabelNotFound);
      }
      var currentIndex := labelMap[target];
      while currentIndex < |program.ops| - 1
        invariant currentIndex < |program.ops|
        invariant instructionIndex == old(instructionIndex)
        invariant EndOfLabels(program.ops, currentIndex) == EndOfLabels(program.ops, labelMap[target])
      {
        if !program.ops[currentIndex + 1].Label? {
          instructionIndex := currentIndex;
          break;
        }
        currentIndex := currentIndex + 1;
      }
      return Success(());
    }

    method Jump(target: string) returns (r: Result<(), Error>)
      requires Mapped()
      modifies this`instructionIndex
      ensures match Machines.Jump(program, old(View()), target)
              case Success(n) => r == Success(()) && View() == n
              case Failure(e) => r == Failure(e)
    {
      if program.version < 4 {
        r := JumpForward(target);
      } else {
        r := JumpToLabel(target);
      }
    }

    method ExecuteSwitch(targets: seq<string>, operand: nat) returns (r: Result<(), Error>)
      requires Mapped()
      modifies this`instructionIndex
      ensures match ExecSwitch(program, old(View()), targets, operand)
              case Success(n) => r == Success(()) && View() == n
              case Failure(e) => r == Failure(e)
    {
      if operand > |targets| || |targets| == 0 {
        return Success(());
      }
      if operand == |targets| {
        return Failure(LabelNotFound);
      }
      r := Jump(targets[operand]);
    }

    method ExecuteCallsub(target: string) returns (r: Result<(), Error>)
      requires Mapped()
      modifies this`instructionIndex, this`callStack
      ensures match ExecCallsub(program, old(View()), target)
              case Success(n) => r == Success(()) && View() == n
              case Failure(e) => r == Failure(e)
    {
      if |callStack| == CALL_STACK_CAPACITY {
        return Failure(CallStackOverflow);
      }
      callStack := callStack + [instructionIndex];
      r := Jump(target);
    }

    method ExecuteRetsub() returns (r: Result<(), Error>)
      modifies this`instructionIndex, this`callStack
      ensures match ExecRetsub(old(View()))
              case Success(n) => r == Success(()) && View() == n
              case Failure(e) => r == Failure(e)
    {
      if callStack == [] {
        return Failure(CallStackEmpty);
      }
      instructionIndex := callStack[|callStack| - 1];
      callStack := callStack[..|callStack| - 1];
      return Success(());
    }

    method ExecuteItxnBegin(ch: Choice) returns (r: Result<(), Error>)
      modifies this`innerTxnOpen
      ensures match ExecItxnBegin(old(View()), ch)
              case Success(n) => r == Success(()) && View() == n
              case Failure(e) => r == Failure(e)
    {
      if innerTxnOpen {
        return Failure(ItxnBeginWithoutSubmit);
      }
      if innerTxnGroups >= MAX_INNER_TRANSACTIONS {
        return Failure(MaxInnerTransactionsExceeded);
      }
      if ch.fails {
        return Failure(OpFailed);
      }
      innerTxnOpen := true;
      return Success(());
    }

    method ExecuteItxnSubmit(ch: Choice) returns (r: Result<(), Error>)
      modifies this`innerTxnOpen, this`innerTxnGroups, this`budget, this`pooledApplCost
      ensures match ExecItxnSubmit(old(View()), ch)
              case Success(n) => r == Success(()) && View() == n
              case Failure(e) => r == Failure(e)
    {
      if !innerTxnOpen {
        return Failure(ItxnSubmitWithoutBegin);
      }
      if ch.fails {
        return Failure(OpFailed);
      }
      if ch.submitted {
        budget := budget + ch.raise;
        pooledApplCost := pooledApplCost + ch.nested;
        innerTxnGroups := innerTxnGroups + 1;
        innerTxnOpen := false;
      }
      return Success(());
    }

    /** The instructions that may fail on what they find on the stack. */
    method ExecuteOnStack(op: Op, ch: Choice) returns (r: Result<(), Error>)
      requires Mapped() && instructionIndex < |program.ops| && op == program.ops[instructionIndex]
      requires op.CondBranch? || op.Switch? || op.Return? || op.Plain?
      modifies this`instructionIndex
      ensures match Exec(program, old(View()), ch)
              case Success(n) => r == Success(()) && View() == n
              case Failure(e) => r == Failure(e)
    {
      if ch.fails {
        return Failure(OpFailed);
      }
      match op {
        case CondBranch(target) =>
          if ch.taken {
            r := Jump(target);
          } else {
            return Success(());
          }
        case Switch(targets) => r := ExecuteSwitch(targets, ch.index);
        case Return =>
          instructionIndex := |program.ops|;
          return Success(());
        case Plain(_) => return Success(());
      }
    }

    /** `instruction.execute` of the instruction at the index, and its cost. */
    method ExecuteInstruction(ch: Choice) returns (r: Result<nat, Error>)
      requires Mapped() && instructionIndex < |program.ops|
      modifies this`instructionIndex, this`callStack, this`innerTxnOpen, this`innerTxnGroups, this`budget
      modifies this`pooledApplCost
      ensures match Exec(program, old(View()), ch)
              case Success(n) => r == Success(OpCost(program.ops[old(instructionIndex)])) && View() == n
              case Failure(e) => r == Failure(e)
    {
      var op := program.ops[instructionIndex];
      var done: Result<(), Error> := Success(());
      match op {
        case Label(_) =>
        case Pragma =>
        case Branch(target) => done := Jump(target);
        case Callsub(target) => done := ExecuteCallsub(target);
        case Retsub => done := ExecuteRetsub();
        case ItxnBegin => done := ExecuteItxnBegin(ch);
        case ItxnSubmit => done := ExecuteItxnSubmit(ch);
        case _ => done := ExecuteOnStack(op, ch);
      }
      var _ :- done;
      return Success(OpCost(op));
    }

    /** Counts the cost of an instruction, by the rules of the program's version and mode. */
    method ChargeCost(costFromExecute: nat) returns (r: Result<(), Error>)
      modifies this`cost, this`pooledApplCost, this`receiptGas
      ensures match Charge(program, old(View()), costFromExecute)
              case Success(n) => r == Success(()) && View() == n
              case Failure(e) => r == Failure(e)
    {
      cost := cost + costFromExecute;
      if program.version < 4 {
        receiptGas := Some(program.staticGas);
      } else if program.mode == Signature {
        if cost > LOGIC_SIG_MAX_COST {
          return Failure(MaxCostExceeded);
        }
        receiptGas := Some(cost);
      } else {
        pooledApplCost := pooledApplCost + costFromExecute;
        if pooledApplCost > budget {
          return Failure(MaxCostExceeded);
        }
        receiptGas := Some(pooledApplCost);
      }
      return Success(());
    }

    /** One turn of the main loop. */
    method ExecuteNext(ch: Choice) returns (r: Result<(), Error>)
      requires Mapped() && instructionIndex < |program.ops|
      modifies this
      ensures Mapped()
      ensures match Step(program, old(View()), ch)
              case Success(n) => r == Success(()) && View() == n
              case Failure(e) => r == Failure(e)
    {
      var costFromExecute :- ExecuteInstruction(ch);
      var _ :- ChargeCost(costFromExecute);
      instructionIndex := instructionIndex + 1;
      return Success(());
    }

    /** The main loop. It ends for every program, every version and all data, and leaves the
        interpreter as `Run` says. */
    method ExecuteWithResult(choices: nat -> Choice) returns (r: Result<(), Error>)
      requires Parsed(program) && MachineOk(program, View())
      modifies this
      ensures match Run(program, old(View()), choices, 0)
              case Success(n) => r == Success(()) && View() == n
              case Failure(e) => r == Failure(e)
      ensures r.Success? && program.version >= 4 && old(instructionIndex) < |program.ops| ==>
                receiptGas == Some(Spent(program, View())) && Spent(program, View()) <= Limit(program, View())
    {
      if Run(program, View(), choices, 0).Success? && program.version >= 4 && instructionIndex < |program.ops| {
        RunStaysWithinBudget(program, View(), choices, 0);
      }
      MapLabelWithIndexes();
      var k := 0;
      while instructionIndex < |program.ops|
        invariant Mapped() && MachineOk(program, View())
        invariant Run(program, old(View()), choices, 0) == Run(program, View(), choices, k)
        decreases MAX_INNER_TRANSACTIONS - innerTxnGroups, Left(program, View()), ToGo(program, View())
      {
        if Step(program, View(), choices(k)).Success? {
          StepDescends(program, View(), choices(k));
        }
        var _ :- ExecuteNext(choices(k));
        k := k + 1;
      }
      return Success(());
    }
  }
}
