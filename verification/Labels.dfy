/** How the TEAL interpreter finds the target of a branch.

    Before version 4 it scans forward from the branch; from version 4 it looks the label up in
    a map made before the run. Both then move on to the last of the labels that follow directly,
    and leave the index there for the main loop to step over. */
module Labels {
  import opened Wrappers

  type Cost = c: nat | c > 0 witness 1

  datatype Op =
    | Label(name: string)
    | Pragma
    | Branch(target: string)
    | CondBranch(target: string)
    | Switch(targets: seq<string>)
    | Callsub(target: string)
    | Retsub
    | Return
    | ItxnBegin
    | ItxnSubmit
    | Plain(cost: Cost)

  /** The first occurrence of the label at or after `from`. */
  function FirstLabel(ops: seq<Op>, from: nat, target: string): Option<nat>
    decreases |ops| - from
  {
    if from >= |ops| then None
    else if ops[from] == Label(target) then Some(from)
    else FirstLabel(ops, from + 1, target)
  }

  /** The last of the labels that follow `k` without a gap. */
  function EndOfLabels(ops: seq<Op>, k: nat): nat
    decreases |ops| - k
  {
    if k + 1 < |ops| && ops[k + 1].Label? then EndOfLabels(ops, k + 1) else k
  }

  /** The entry of `label` in a map filled in program order: its last occurrence. */
  function MappedLabel(ops: seq<Op>, target: string): Option<nat> {
    if ops == [] then None
    else if ops[|ops| - 1] == Label(target) then Some(|ops| - 1)
    else MappedLabel(ops[..|ops| - 1], target)
  }

  function JumpForward(ops: seq<Op>, index: nat, target: string): Option<nat> {
    match FirstLabel(ops, index + 1, target)
    case None => None
    case Some(k) => Some(EndOfLabels(ops, k))
  }

  /** The index stays where it is when nothing but labels follows the target. */
  function JumpToLabel(ops: seq<Op>, index: nat, target: string): Option<nat> {
    match MappedLabel(ops, target)
    case None => None
    case Some(k) => if EndOfLabels(ops, k) + 1 < |ops| then Some(EndOfLabels(ops, k)) else Some(index)
  }

  // ----- what these mean -----

  lemma {:induction false} FirstLabelIsFirst(ops: seq<Op>, from: nat, target: string)
    ensures match FirstLabel(ops, from, target)
            case Some(k) =>
              && from <= k < |ops| && ops[k] == Label(target)
              && forall i :: from <= i < k ==> ops[i] != Label(target)
            case None => forall i :: from <= i < |ops| ==> ops[i] != Label(target)
    decreases |ops| - from
  {
    if from < |ops| && ops[from] != Label(target) {
      FirstLabelIsFirst(ops, from + 1, target);
    }
  }

  lemma {:induction false} EndOfLabelsEnds(ops: seq<Op>, k: nat)
    requires k < |ops|
    ensures var e := EndOfLabels(ops, k);
            && k <= e < |ops|
            && (forall i :: k < i <= e ==> ops[i].Label?)
            && (e + 1 < |ops| ==> !ops[e + 1].Label?)
    decreases |ops| - k
  {
    if k + 1 < |ops| && ops[k + 1].Label? {
      EndOfLabelsEnds(ops, k + 1);
    }
  }

  lemma {:induction false} MappedLabelIsLast(ops: seq<Op>, target: string)
    ensures match MappedLabel(ops, target)
            case Some(k) =>
              && k < |ops| && ops[k] == Label(target)
              && forall i :: k < i < |ops| ==> ops[i] != Label(target)
            case None => forall i :: 0 <= i < |ops| ==> ops[i] != Label(target)
  {
    if ops != [] && ops[|ops| - 1] != Label(target) {
      MappedLabelIsLast(ops[..|ops| - 1], target);
    }
  }

  predicate DistinctLabels(ops: seq<Op>) {
    forall i, j :: 0 <= i < j < |ops| && ops[i].Label? && ops[j].Label? ==> ops[i].name != ops[j].name
  }

  /** Some instruction after the target is not a label. */
  predicate CodeFollows(ops: seq<Op>, at: nat) {
    exists i :: at < i < |ops| && !ops[i].Label?
  }

  lemma {:induction false} CodeFollowsIff(ops: seq<Op>, k: nat)
    requires k < |ops|
    ensures CodeFollows(ops, k) <==> EndOfLabels(ops, k) + 1 < |ops|
  {
    EndOfLabelsEnds(ops, k);
    var e := EndOfLabels(ops, k);
    if e + 1 < |ops| {
      assert !ops[e + 1].Label?;
    }
  }

  /** With distinct labels, a branch to a label ahead goes to the same place under both schemes
      exactly when some instruction after the target is not a label. */
  lemma JumpsAgreeIff(ops: seq<Op>, index: nat, target: string, at: nat)
    requires DistinctLabels(ops)
    requires index < at < |ops| && ops[at] == Label(target)
    ensures JumpForward(ops, index, target) == JumpToLabel(ops, index, target) <==> CodeFollows(ops, at)
    ensures CodeFollows(ops, at) ==>
              var r := JumpForward(ops, index, target);
              && r.Some? && at <= r.value && r.value + 1 < |ops|
              && (forall i :: at <= i <= r.value ==> ops[i].Label?) && !ops[r.value + 1].Label?
  {
    FirstLabelIsFirst(ops, index + 1, target);
    MappedLabelIsLast(ops, target);
    assert FirstLabel(ops, index + 1, target) == Some(at) == MappedLabel(ops, target);
    EndOfLabelsEnds(ops, at);
    CodeFollowsIff(ops, at);
  }

  lemma JumpForwardGoesForward(ops: seq<Op>, index: nat, target: string)
    ensures match JumpForward(ops, index, target)
            case Some(k) => index < k < |ops|
            case None => true
  {
    FirstLabelIsFirst(ops, index + 1, target);
    match FirstLabel(ops, index + 1, target)
    case Some(k) => EndOfLabelsEnds(ops, k);
    case None =>
  }
}
