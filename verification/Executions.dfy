/** What the executed instructions cost and where they go on, read off the program itself. */
module Executions {
  import opened Wrappers
  import opened Labels
  import opened Machines

  // ----- costs -----

  /** What one executed instruction costs: its own cost, and what an inner group it submits costs in
      the programs the group runs. Labels and pragmas cost nothing, control instructions one. */
  function CostOf(op: Op): nat {
    if op.Plain? then op.cost else if op.Label? || op.Pragma? then 0 else 1
  }

  function NestedOf(op: Op, ch: Choice): nat {
    if op.ItxnSubmit? && ch.submitted then ch.nested else 0
  }

  function RaiseOf(op: Op, ch: Choice): nat {
    if op.ItxnSubmit? && ch.submitted then ch.raise else 0
  }

  predicate Executes(p: Program, ms: seq<Machine>, choices: seq<Choice>) {
    |choices| <= |ms| && forall i :: 0 <= i < |choices| ==> ms[i].index < |p.ops|
  }

  /** What the instructions from which `choices` were made cost together. */
  function Costs(p: Program, ms: seq<Machine>, choices: seq<Choice>): nat
    requires Executes(p, ms, choices)
    decreases |choices|
  {
    if choices == [] then 0
    else
      var n := |choices| - 1;
      Costs(p, ms, choices[..n]) + CostOf(p.ops[ms[n].index])
  }

  function Nested(p: Program, ms: seq<Machine>, choices: seq<Choice>): nat
    requires Executes(p, ms, choices)
    decreases |choices|
  {
    if choices == [] then 0
    else
      var n := |choices| - 1;
      Nested(p, ms, choices[..n]) + NestedOf(p.ops[ms[n].index], choices[n])
  }

  function Raised(p: Program, ms: seq<Machine>, choices: seq<Choice>): nat
    requires Executes(p, ms, choices)
    decreases |choices|
  {
    if choices == [] then 0
    else
      var n := |choices| - 1;
      Raised(p, ms, choices[..n]) + RaiseOf(p.ops[ms[n].index], choices[n])
  }

  /** How many inner groups were submitted. */
  function Submitted(p: Program, ms: seq<Machine>, choices: seq<Choice>): nat
    requires Executes(p, ms, choices)
    decreases |choices|
  {
    if choices == [] then 0
    else
      var n := |choices| - 1;
      Submitted(p, ms, choices[..n]) + if p.ops[ms[n].index].ItxnSubmit? && choices[n].submitted then 1 else 0
  }

  /** One step moves the counters by what its instruction costs. */
  lemma StepCosts(p: Program, m: Machine, ch: Choice)
    requires m.index < |p.ops| && Step(p, m, ch).Success?
    ensures var n, op := Step(p, m, ch).value, p.ops[m.index];
            && n.cost == m.cost + CostOf(op)
            && n.pooled == m.pooled + NestedOf(op, ch)
                           + (if p.version >= 4 && p.mode == Application then CostOf(op) else 0)
            && n.budget == m.budget + RaiseOf(op, ch)
            && n.groups == m.groups + (if op.ItxnSubmit? && ch.submitted then 1 else 0)
            && n.gas == Some(if p.version < 4 then p.staticGas
                             else if p.mode == Signature then n.cost else n.pooled)
  {
  }

  lemma StretchPrefix(p: Program, ms: seq<Machine>, choices: seq<Choice>)
    requires Stretch(p, ms, choices) && choices != []
    ensures var n := |choices| - 1;
            && Stretch(p, ms[..n + 1], choices[..n]) && Executes(p, ms, choices)
            && Executes(p, ms[..n + 1], choices[..n])
            && ms[n].index < |p.ops| && Step(p, ms[n], choices[n]) == Success(ms[n + 1])
  {
  }

  lemma {:induction false} SumsOfPrefix(p: Program, ms: seq<Machine>, choices: seq<Choice>, k: nat)
    requires Executes(p, ms, choices) && |choices| <= k <= |ms|
    ensures Costs(p, ms[..k], choices) == Costs(p, ms, choices)
    ensures Nested(p, ms[..k], choices) == Nested(p, ms, choices)
    ensures Raised(p, ms[..k], choices) == Raised(p, ms, choices)
    ensures Submitted(p, ms[..k], choices) == Submitted(p, ms, choices)
    decreases |choices|
  {
    if choices != [] {
      SumsOfPrefix(p, ms, choices[..|choices| - 1], k);
    }
  }

  /** Over any stretch of any run, the counters grow by exactly what was executed: the cost of every
      instruction, each time it ran, and in an application what submitted groups cost. */
  lemma {:induction false} CountersAddUp(p: Program, ms: seq<Machine>, choices: seq<Choice>)
    requires Stretch(p, ms, choices)
    ensures Executes(p, ms, choices)
    ensures var first, last := ms[0], ms[|ms| - 1];
            && last.cost == first.cost + Costs(p, ms, choices)
            && last.pooled == first.pooled + Nested(p, ms, choices)
                              + (if p.version >= 4 && p.mode == Application then Costs(p, ms, choices) else 0)
            && last.budget == first.budget + Raised(p, ms, choices)
            && last.groups == first.groups + Submitted(p, ms, choices)
    decreases |choices|
  {
    if choices != [] {
      var n := |choices| - 1;
      StretchPrefix(p, ms, choices);
      CountersAddUp(p, ms[..n + 1], choices[..n]);
      SumsOfPrefix(p, ms, choices[..n], n + 1);
      StepCosts(p, ms[n], choices[n]);
    }
  }

  /** What may be spent by the end of a stretch: 20000 in a logic signature; in an application the
      budget it started with and what submitted groups added to it. */
  function Allowance(p: Program, ms: seq<Machine>, choices: seq<Choice>): nat
    requires Executes(p, ms, choices) && ms != []
  {
    if p.mode == Signature then 20000 else ms[0].budget + Raised(p, ms, choices)
  }

  /** What has been spent by then, with what was spent before. */
  function SpentBy(p: Program, ms: seq<Machine>, choices: seq<Choice>): nat
    requires Executes(p, ms, choices) && ms != []
  {
    if p.mode == Signature then ms[0].cost + Costs(p, ms, choices)
    else ms[0].pooled + Costs(p, ms, choices) + Nested(p, ms, choices)
  }

  /** From version 4 on an instruction that does not itself fail throws for its cost exactly when the
      costs of all instructions so far, with its own, pass the limit; before, none does. */
  lemma {:induction false} ThrowsForCostIff(p: Program, ms: seq<Machine>, choices: seq<Choice>, ch: Choice)
    requires Stretch(p, ms, choices) && ms[|ms| - 1].index < |p.ops|
    requires Exec(p, ms[|ms| - 1], ch).Success?
    ensures Executes(p, ms, choices + [ch])
    ensures var r, all := Step(p, ms[|ms| - 1], ch), choices + [ch];
            && (r.Success? || r == Failure(MaxCostExceeded))
            && (r.Failure? <==> p.version >= 4 && SpentBy(p, ms, all) > Allowance(p, ms, all))
  {
    var all, last := choices + [ch], ms[|ms| - 1];
    CountersAddUp(p, ms, choices);
    assert all[..|choices|] == choices && all[|choices|] == ch;
    ExecCounts(p, last, ch);
  }

  lemma ExecCounts(p: Program, m: Machine, ch: Choice)
    requires m.index < |p.ops| && Exec(p, m, ch).Success?
    ensures var n, op := Exec(p, m, ch).value, p.ops[m.index];
            && n.cost == m.cost && OpCost(op) == CostOf(op)
            && n.pooled == m.pooled + NestedOf(op, ch) && n.budget == m.budget + RaiseOf(op, ch)
  {
  }

  /** What the parser adds up for a program is the cost of each of its instructions once. */
  lemma {:induction false} StaticCostAddsUp(ops: seq<Op>, i: nat)
    requires i <= |ops|
    ensures StaticCost(ops[i..]) == if i == |ops| then 0 else CostOf(ops[i]) + StaticCost(ops[i + 1..])
  {
    if i < |ops| {
      assert ops[i..][1..] == ops[i + 1..];
    }
  }

  // ----- branches -----

  /** The instruction goes to `target` under this choice. */
  predicate GoesTo(op: Op, ch: Choice, target: string) {
    match op
    case Branch(t) => t == target
    case CondBranch(t) => !ch.fails && ch.taken && t == target
    case Switch(ts) => !ch.fails && ch.index < |ts| && ts[ch.index] == target
    case Callsub(t) => t == target
    case _ => false
  }

  /** There is room on the call stack for a call. */
  predicate HasRoom(m: Machine, op: Op) {
    op.Callsub? ==> |m.callStack| != 1000
  }

  /** `i` is the first instruction after position `at` that is no label. */
  predicate FirstCode(ops: seq<Op>, at: nat, i: nat) {
    at < i < |ops| && !ops[i].Label? && forall j :: at < j < i ==> ops[j].Label?
  }

  lemma {:induction false} EndIsBeforeCode(ops: seq<Op>, at: nat, i: nat)
    requires FirstCode(ops, at, i)
    ensures EndOfLabels(ops, at) + 1 == i
    decreases i - at
  {
    if at + 1 < i {
      EndIsBeforeCode(ops, at + 1, i);
    }
  }

  /** With distinct labels, a branch of version 4 or later goes on with the first instruction after its
      target that is no label, whether the target lies ahead or behind; before version 4 it does so for
      a target ahead. */
  lemma {:induction false} BranchGoesToCode(p: Program, m: Machine, ch: Choice, target: string, at: nat, i: nat)
    requires m.index < |p.ops| && GoesTo(p.ops[m.index], ch, target) && HasRoom(m, p.ops[m.index])
    requires DistinctLabels(p.ops) && at < |p.ops| && p.ops[at] == Label(target) && FirstCode(p.ops, at, i)
    requires p.version < 4 ==> m.index < at
    ensures var r := Step(p, m, ch);
            (r.Success? && r.value.index == i) || (p.version >= 4 && r == Failure(MaxCostExceeded))
  {
    EndIsBeforeCode(p.ops, at, i);
    FirstLabelIsFirst(p.ops, m.index + 1, target);
    MappedLabelIsLast(p.ops, target);
  }

  /** If only labels follow the target, a branch of version 4 or later goes on behind itself, and an
      older one, to a target ahead, behind the program. */
  lemma {:induction false} BranchToTheEnd(p: Program, m: Machine, ch: Choice, target: string, at: nat)
    requires m.index < |p.ops| && GoesTo(p.ops[m.index], ch, target) && HasRoom(m, p.ops[m.index])
    requires DistinctLabels(p.ops) && at < |p.ops| && p.ops[at] == Label(target)
    requires (forall i :: at < i < |p.ops| ==> p.ops[i].Label?) && (p.version < 4 ==> m.index < at)
    ensures var r := Step(p, m, ch);
            || (r.Success? && r.value.index == if p.version < 4 then |p.ops| else m.index + 1)
            || (p.version >= 4 && r == Failure(MaxCostExceeded))
  {
    EndOfLabelsEnds(p.ops, at);
    FirstLabelIsFirst(p.ops, m.index + 1, target);
    MappedLabelIsLast(p.ops, target);
  }

  /** A branch throws if its label is nowhere, or, before version 4, nowhere ahead. */
  lemma {:induction false} BranchWithoutLabel(p: Program, m: Machine, ch: Choice, target: string)
    requires m.index < |p.ops| && GoesTo(p.ops[m.index], ch, target) && HasRoom(m, p.ops[m.index])
    requires forall i :: 0 <= i < |p.ops| && (p.version < 4 ==> m.index < i) ==> p.ops[i] != Label(target)
    ensures Step(p, m, ch) == Failure(LabelNotFound)
  {
    FirstLabelIsFirst(p.ops, m.index + 1, target);
    MappedLabelIsLast(p.ops, target);
  }

  /** Everything but a branch that is taken, a return from a subroutine and the end of the program goes
      on with the next instruction; only calls and returns touch the call stack. */
  lemma OtherwiseGoesOn(p: Program, m: Machine, ch: Choice)
    requires m.index < |p.ops| && Step(p, m, ch).Success?
    ensures var n, op := Step(p, m, ch).value, p.ops[m.index];
            && (|| op.Label? || op.Pragma? || op.Plain? || op.ItxnBegin? || op.ItxnSubmit?
                || (op.CondBranch? && !ch.taken) || (op.Switch? && ch.index > |op.targets|)
                ==> n.index == m.index + 1)
            && (op.Return? ==> n.index > |p.ops|)
            && (!op.Callsub? && !op.Retsub? ==> n.callStack == m.callStack)
            && (op.Callsub? ==> n.callStack == m.callStack + [m.index])
            && (op.Retsub? ==> m.callStack != [] && m.callStack == n.callStack + [n.index - 1])
  {
  }

  // ----- what makes an instruction fail -----

  /** An instruction other than a branch throws, apart from its cost, exactly in these cases. */
  lemma ThrowsIff(p: Program, m: Machine, ch: Choice)
    requires m.index < |p.ops|
    ensures var op, r := p.ops[m.index], Exec(p, m, ch);
            match op
            case Label(_) => r == Success(m)
            case Pragma => r == Success(m)
            case Plain(_) => r.Failure? <==> ch.fails
            case Return => r.Failure? <==> ch.fails
            case Retsub => r.Failure? <==> m.callStack == []
            case ItxnBegin => r.Failure? <==> m.open || m.groups >= 16 || ch.fails
            case ItxnSubmit => r.Failure? <==> !m.open || ch.fails
            case CondBranch(_) => ch.fails ==> r.Failure?
            case Switch(_) => ch.fails ==> r.Failure?
            case Callsub(_) => |m.callStack| == 1000 ==> r == Failure(CallStackOverflow)
            case Branch(_) => true
  {
  }

  /** Opening and submitting inner groups alternate. */
  lemma GroupsAlternate(p: Program, m: Machine, ch: Choice)
    requires m.index < |p.ops| && Step(p, m, ch).Success?
    ensures var n, op := Step(p, m, ch).value, p.ops[m.index];
            n.open == if op.ItxnBegin? then true else if op.ItxnSubmit? then !ch.submitted else m.open
  {
  }

  // ----- whole runs -----

  lemma StretchBehind(p: Program, m: Machine, ch: Choice, rest: seq<Machine>, later: seq<Choice>)
    requires m.index < |p.ops| && Stretch(p, rest, later) && Step(p, m, ch) == Success(rest[0])
    ensures Stretch(p, [m] + rest, [ch] + later) && ([m] + rest)[|rest|] == rest[|rest| - 1]
  {
    var ms, taken := [m] + rest, [ch] + later;
    forall i | 0 <= i < |taken|
      ensures ms[i].index < |p.ops| && Step(p, ms[i], taken[i]) == Success(ms[i + 1])
    {
      if i > 0 {
        assert Step(p, rest[i - 1], later[i - 1]) == Success(rest[i]);
      }
    }
  }

  lemma RunGoesOn(p: Program, m: Machine, choices: nat -> Choice, k: nat)
    requires Parsed(p) && MachineOk(p, m) && m.index < |p.ops| && Step(p, m, choices(k)).Success?
    ensures var n := Step(p, m, choices(k)).value;
            MachineOk(p, n) && Run(p, m, choices, k) == Run(p, n, choices, k + 1)
  {
    StepDescends(p, m, choices(k));
  }

  lemma ChoicesBehind(choices: nat -> Choice, k: nat, later: seq<Choice>)
    requires forall i :: 0 <= i < |later| ==> later[i] == choices(k + 1 + i)
    ensures forall i :: 0 <= i < |later| + 1 ==> ([choices(k)] + later)[i] == choices(k + i)
  {
  }

  /** The run from `m` is this stretch of steps, with the choices from number `k` on; it ends behind the
      program, or before the instruction that throws. */
  ghost predicate Traces(
      p: Program, m: Machine, choices: nat -> Choice, k: nat, ms: seq<Machine>, taken: seq<Choice>)
    requires Parsed(p) && MachineOk(p, m)
  {
    && Stretch(p, ms, taken) && ms[0] == m
    && (forall i :: 0 <= i < |taken| ==> taken[i] == choices(k + i))
    && Ends(p, ms[|ms| - 1], choices(k + |taken|), Run(p, m, choices, k))
  }

  predicate Ends(p: Program, last: Machine, ch: Choice, r: Result<Machine, Error>) {
    match r
    case Success(n) => last == n && n.index >= |p.ops|
    case Failure(e) => last.index < |p.ops| && Step(p, last, ch) == Failure(e)
  }

  lemma TraceBehind(p: Program, m: Machine, choices: nat -> Choice, k: nat, rest: seq<Machine>, later: seq<Choice>)
    requires Parsed(p) && MachineOk(p, m) && m.index < |p.ops| && Step(p, m, choices(k)).Success?
    requires MachineOk(p, Step(p, m, choices(k)).value)
    requires Traces(p, Step(p, m, choices(k)).value, choices, k + 1, rest, later)
    ensures Traces(p, m, choices, k, [m] + rest, [choices(k)] + later)
  {
    StretchBehind(p, m, choices(k), rest, later);
    ChoicesBehind(choices, k, later);
    RunGoesOn(p, m, choices, k);
  }

  /** Every run is a sequence of steps, and nothing but that. */
  lemma {:induction false} RunFollowsSteps(p: Program, m: Machine, choices: nat -> Choice, k: nat)
    returns (ms: seq<Machine>, taken: seq<Choice>)
    requires Parsed(p) && MachineOk(p, m)
    ensures Traces(p, m, choices, k, ms, taken)
    decreases MAX_INNER_TRANSACTIONS - m.groups, Left(p, m), ToGo(p, m)
  {
    if m.index < |p.ops| && Step(p, m, choices(k)).Success? {
      StepDescends(p, m, choices(k));
      var rest, later := RunFollowsSteps(p, Step(p, m, choices(k)).value, choices, k + 1);
      TraceBehind(p, m, choices, k, rest, later);
      ms, taken := [m] + rest, [choices(k)] + later;
    } else {
      ms, taken := [m], [];
    }
  }

  lemma {:induction false} GasIsSpent(p: Program, ms: seq<Machine>, taken: seq<Choice>)
    requires Stretch(p, ms, taken) && taken != [] && p.version >= 4
    ensures Executes(p, ms, taken) && ms[|ms| - 1].gas == Some(SpentBy(p, ms, taken))
  {
    CountersAddUp(p, ms, taken);
    var n := |taken| - 1;
    assert Step(p, ms[n], taken[n]) == Success(ms[n + 1]);
    StepCosts(p, ms[n], taken[n]);
  }

  /** The gas a completed run records is the sum of what it executed, on top of what it started with. */
  lemma {:induction false} RunRecordsItsCost(p: Program, m: Machine, choices: nat -> Choice, k: nat)
    returns (ms: seq<Machine>, taken: seq<Choice>)
    requires Parsed(p) && MachineOk(p, m) && p.version >= 4 && m.index < |p.ops|
    requires Run(p, m, choices, k).Success?
    ensures Traces(p, m, choices, k, ms, taken) && Executes(p, ms, taken)
    ensures Run(p, m, choices, k).value.gas == Some(SpentBy(p, ms, taken))
    ensures SpentBy(p, ms, taken) <= Allowance(p, ms, taken)
  {
    ms, taken := RunFollowsSteps(p, m, choices, k);
    GasIsSpent(p, ms, taken);
    CountersAddUp(p, ms, taken);
    RunStaysWithinBudget(p, m, choices, k);
  }
}
