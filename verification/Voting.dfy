/** The permissioned-voting contract: who may register and vote when, and what the tallies mean. */
module Voting {
  import opened Wrappers

  const MAX_UINT64: nat := 0xffff_ffff_ffff_ffff
  const CANDIDATE_A := "candidatea"
  const CANDIDATE_B := "candidateb"

  type Address = string

  /** What the creation call stores. */
  datatype Config = Config(
    creator: Address, regBegin: nat, regEnd: nat, voteBegin: nat, voteEnd: nat, assetID: nat)

  /** The second transaction of the group a vote comes in. */
  datatype TokenTransfer = TokenTransfer(isAssetTransfer: bool, receiver: Address, asset: nat, amount: nat)

  datatype Event =
    | OptIn(sender: Address, rekeyed: bool, arg0: string)
    | Vote(sender: Address, rekeyed: bool, groupSize: nat, token: TokenTransfer, choice: string)
    | CloseOut(sender: Address)
    | ClearState(sender: Address)
    | Advance(rounds: nat)

  /** `tally` is the global state under the candidates' names, `voted` the local state of every
      account that has opted in. */
  datatype State = State(cfg: Config, tally: map<string, nat>, voted: map<Address, Option<string>>, round: nat)

  datatype Error = Rejected | NotOptedIn | AlreadyOptedIn | Overflow | Underflow

  predicate IsCandidate(choice: string) {
    choice == CANDIDATE_A || choice == CANDIDATE_B
  }

  /** A value that was never put reads as zero. */
  function Tally(s: State, c: string): nat {
    if c in s.tally then s.tally[c] else 0
  }

  function OnRegister(s: State, sender: Address, rekeyed: bool, arg0: string): Result<State, Error> {
    if sender in s.voted then Failure(AlreadyOptedIn)
    else if !rekeyed && arg0 == "register" && s.cfg.regBegin <= s.round <= s.cfg.regEnd then
      Success(s.(voted := s.voted[sender := None]))
    else Failure(Rejected)
  }

  predicate TokenPaid(cfg: Config, groupSize: nat, token: TokenTransfer) {
    groupSize == 2 && token.isAssetTransfer && token.receiver == cfg.creator
    && token.asset == cfg.assetID && token.amount == 1
  }

  function OnVote(s: State, sender: Address, rekeyed: bool, groupSize: nat, token: TokenTransfer, choice: string)
    : Result<State, Error>
  {
    if rekeyed || !(s.cfg.voteBegin <= s.round <= s.cfg.voteEnd) then Failure(Rejected)
    else if !TokenPaid(s.cfg, groupSize, token) || !IsCandidate(choice) then Failure(Rejected)
    else if sender in s.voted && s.voted[sender].Some? then Failure(Rejected)
    else if Tally(s, choice) + 1 > MAX_UINT64 then Failure(Overflow)
    else if sender !in s.voted then Failure(NotOptedIn)
    else Success(s.(tally := s.tally[choice := Tally(s, choice) + 1], voted := s.voted[sender := Some(choice)]))
  }

  function OnCloseOut(s: State, sender: Address): Result<State, Error> {
    var vote := if sender in s.voted then s.voted[sender] else None;
    if s.round <= s.cfg.voteEnd && vote.Some? && Tally(s, vote.value) == 0 then Failure(Underflow)
    else
      var tally := if s.round <= s.cfg.voteEnd && vote.Some?
                   then s.tally[vote.value := Tally(s, vote.value) - 1] else s.tally;
      if sender !in s.voted then Failure(NotOptedIn)
      else Success(s.(tally := tally, voted := s.voted - {sender}))
  }

  function OnClear(s: State, sender: Address): Result<State, Error> {
    if sender !in s.voted then Failure(NotOptedIn) else Success(s.(voted := s.voted - {sender}))
  }

  function Apply(s: State, e: Event): Result<State, Error> {
    match e
    case OptIn(sender, rekeyed, arg0) => OnRegister(s, sender, rekeyed, arg0)
    case Vote(sender, rekeyed, groupSize, token, choice) => OnVote(s, sender, rekeyed, groupSize, token, choice)
    case CloseOut(sender) => OnCloseOut(s, sender)
    case ClearState(sender) => OnClear(s, sender)
    case Advance(rounds) => Success(s.(round := s.round + rounds))
  }

  function Next(s: State, e: Event): State {
    match Apply(s, e)
    case Success(after) => after
    case Failure(_) => s
  }

  function Run(s: State, events: seq<Event>): State
    decreases |events|
  {
    if events == [] then s else Run(Next(s, events[0]), events[1..])
  }

  function Created(cfg: Config, round: nat): State {
    State(cfg, map[], map[], round)
  }

  // ----- tallies -----

  ghost function Supporters(s: State, c: string): set<Address> {
    set a | a in s.voted && s.voted[a] == Some(c)
  }

  ghost predicate VotesOk(s: State) {
    forall a :: a in s.voted && s.voted[a].Some? ==> IsCandidate(s.voted[a].value)
  }

  /** Whether the event makes an account's vote for `c` disappear while the tally keeps it. */
  predicate Forgets(s: State, e: Event, c: string) {
    match e
    case ClearState(a) => a in s.voted && s.voted[a] == Some(c)
    case CloseOut(a) => a in s.voted && s.voted[a] == Some(c) && s.round > s.cfg.voteEnd
    case _ => false
  }

  ghost function Excess(s: State, c: string): int {
    Tally(s, c) - |Supporters(s, c)|
  }

  lemma VoteTallies(s: State, e: Event, c: string)
    requires e.Vote? && Apply(s, e).Success?
    ensures Excess(Next(s, e), c) == Excess(s, c)
  {
    var n := Next(s, e);
    if c == e.choice {
      assert Supporters(n, c) == Supporters(s, c) + {e.sender};
    } else {
      assert Supporters(n, c) == Supporters(s, c);
    }
  }

  lemma LeavingSupporters(s: State, n: State, a: Address, c: string)
    requires a in s.voted && n.voted == s.voted - {a}
    ensures |Supporters(n, c)| == |Supporters(s, c)| - (if s.voted[a] == Some(c) then 1 else 0)
  {
    if s.voted[a] == Some(c) {
      assert Supporters(n, c) == Supporters(s, c) - {a};
      assert a in Supporters(s, c);
    } else {
      assert Supporters(n, c) == Supporters(s, c);
    }
  }

  lemma LeavingTallies(s: State, e: Event, c: string)
    requires (e.CloseOut? || e.ClearState?) && Apply(s, e).Success?
    ensures Excess(Next(s, e), c) == Excess(s, c) + (if Forgets(s, e, c) then 1 else 0)
  {
    LeavingSupporters(s, Next(s, e), e.sender, c);
  }

  /** One event moves a tally and its supporters together, but for forgotten votes. */
  lemma StepTallies(s: State, e: Event, c: string)
    requires VotesOk(s) && Excess(s, c) >= 0
    ensures VotesOk(Next(s, e))
    ensures Excess(Next(s, e), c) == Excess(s, c) + (if Forgets(s, e, c) then 1 else 0)
  {
    var n := Next(s, e);
    if Apply(s, e).Success? {
      match e {
        case OptIn(_, _, _) => assert Supporters(n, c) == Supporters(s, c);
        case Vote(_, _, _, _, _) => VoteTallies(s, e, c);
        case CloseOut(_) => LeavingTallies(s, e, c);
        case ClearState(_) => LeavingTallies(s, e, c);
        case Advance(_) => assert Supporters(n, c) == Supporters(s, c);
      }
    } else if e.CloseOut? && Forgets(s, e, c) {
      assert false;
    }
  }

  /** How many votes for `c` a run forgets. */
  ghost function Forgotten(s: State, events: seq<Event>, c: string): nat
    decreases |events|
  {
    if events == [] then 0
    else (if Forgets(s, events[0], c) then 1 else 0) + Forgotten(Next(s, events[0]), events[1..], c)
  }

  lemma {:induction false} RunTallies(s: State, events: seq<Event>, c: string)
    requires VotesOk(s) && Excess(s, c) >= 0
    ensures VotesOk(Run(s, events))
    ensures Excess(Run(s, events), c) == Excess(s, c) + Forgotten(s, events, c)
    decreases |events|
  {
    if events != [] {
      StepTallies(s, events[0], c);
      RunTallies(Next(s, events[0]), events[1..], c);
    }
  }

  /** From creation on, over any run, a tally is the number of accounts whose stored vote it is, plus
      the votes forgotten by clearing state or by closing out after the vote. */
  lemma {:induction false} TallyIsSupportersPlusForgotten(cfg: Config, round: nat, events: seq<Event>, c: string)
    ensures var end := Run(Created(cfg, round), events);
            Tally(end, c) == |Supporters(end, c)| + Forgotten(Created(cfg, round), events, c)
  {
    assert Supporters(Created(cfg, round), c) == {};
    RunTallies(Created(cfg, round), events, c);
  }

  /** So an account that has opted in can always close out: its vote is still in the tally. */
  lemma {:induction false} CloseOutNeverUnderflows(cfg: Config, round: nat, events: seq<Event>, sender: Address)
    ensures var end := Run(Created(cfg, round), events);
            Apply(end, CloseOut(sender)).Success? <==> sender in end.voted
  {
    var end := Run(Created(cfg, round), events);
    if sender in end.voted && end.voted[sender].Some? {
      var c := end.voted[sender].value;
      TallyIsSupportersPlusForgotten(cfg, round, events, c);
      assert sender in Supporters(end, c);
    }
  }

  /** Once the round is past the end of the vote, no event changes a tally. */
  lemma {:induction false} TalliesFinal(s: State, events: seq<Event>)
    requires s.round > s.cfg.voteEnd
    ensures Run(s, events).tally == s.tally
    decreases |events|
  {
    if events != [] {
      TalliesFinal(Next(s, events[0]), events[1..]);
    }
  }

  /** A tally grows only by a vote that an opted-in account casts for it, its first since it opted in,
      in the voting window and with the voting token paid back to the creator. */
  lemma TallyGrowsOnlyByVote(s: State, e: Event, c: string)
    requires Tally(Next(s, e), c) > Tally(s, c)
    ensures e.Vote? && e.choice == c && IsCandidate(c) && !e.rekeyed && TokenPaid(s.cfg, e.groupSize, e.token)
    ensures s.cfg.voteBegin <= s.round <= s.cfg.voteEnd
    ensures e.sender in s.voted && s.voted[e.sender] == None
    ensures Tally(Next(s, e), c) == Tally(s, c) + 1
    ensures forall d :: d != c ==> Tally(Next(s, e), d) == Tally(s, d)
  {
  }

  /** An account is admitted only in the registration window, and leaves only by its own call. */
  lemma MembershipChanges(s: State, e: Event, a: Address)
    ensures a in Next(s, e).voted && a !in s.voted ==>
              e.OptIn? && e.sender == a && s.cfg.regBegin <= s.round <= s.cfg.regEnd && Next(s, e).voted[a] == None
    ensures a !in Next(s, e).voted && a in s.voted ==> (e.CloseOut? || e.ClearState?) && e.sender == a
  {
  }

  // ----- when the calls succeed, and what they do -----

  /** An account that has not opted in is admitted exactly when it is not rekeyed, says "register", and
      the round is in the registration window. */
  lemma RegisterIff(s: State, a: Address, rekeyed: bool, arg0: string)
    ensures var r := Apply(s, OptIn(a, rekeyed, arg0));
            && (r.Success? <==>
                  a !in s.voted && !rekeyed && arg0 == "register" && s.cfg.regBegin <= s.round <= s.cfg.regEnd)
            && (r.Success? ==> r.value == s.(voted := s.voted[a := None]))
  {
  }

  /** A vote is counted exactly when the account is not rekeyed, has opted in and not voted since, the
      round is in the voting window, the choice is one of the two candidates, and the second of just two
      transactions sends one voting token to the creator; and if there is room for one more vote. */
  lemma VoteIff(s: State, a: Address, rekeyed: bool, groupSize: nat, token: TokenTransfer, choice: string)
    ensures var r := Apply(s, Vote(a, rekeyed, groupSize, token, choice));
            var votes := if choice in s.tally then s.tally[choice] else 0;
            && (r.Success? <==>
                  && !rekeyed && a in s.voted && s.voted[a] == None
                  && s.cfg.voteBegin <= s.round <= s.cfg.voteEnd
                  && (choice == "candidatea" || choice == "candidateb")
                  && groupSize == 2 && token == TokenTransfer(true, s.cfg.creator, s.cfg.assetID, 1)
                  && votes < 18446744073709551615)
            && (r.Success? ==>
                  r.value == s.(tally := s.tally[choice := votes + 1], voted := s.voted[a := Some(choice)]))
  {
  }

  /** Closing out takes a vote back while the voting has not ended, clearing never does. */
  lemma LeavingIff(s: State, a: Address)
    ensures var r, counts := Apply(s, CloseOut(a)), s.round <= s.cfg.voteEnd && a in s.voted && s.voted[a].Some?;
            && (r.Success? <==>
                  a in s.voted && (counts ==> s.voted[a].value in s.tally && s.tally[s.voted[a].value] > 0))
            && (r.Success? ==>
                  r.value.voted == s.voted - {a} && r.value == s.(tally := r.value.tally, voted := r.value.voted))
            && (r.Success? && counts ==>
                  r.value.tally == s.tally[s.voted[a].value := s.tally[s.voted[a].value] - 1])
            && (r.Success? && !counts ==> r.value.tally == s.tally)
    ensures var r := Apply(s, ClearState(a));
            (r.Success? <==> a in s.voted) && (r.Success? ==> r.value == s.(voted := s.voted - {a}))
  {
  }

  // ----- one account, one vote -----

  /** The accounts whose votes a run counts, in order. */
  function Counted(s: State, events: seq<Event>): seq<Address>
    decreases |events|
  {
    if events == [] then []
    else
      (if events[0].Vote? && Apply(s, events[0]).Success? then [events[0].sender] else [])
      + Counted(Next(s, events[0]), events[1..])
  }

  predicate Distinct(accounts: seq<Address>) {
    forall i, j :: 0 <= i < j < |accounts| ==> accounts[i] != accounts[j]
  }

  predicate WindowsOverlap(cfg: Config) {
    && cfg.regBegin <= cfg.voteEnd && cfg.voteBegin <= cfg.regEnd
    && cfg.regBegin <= cfg.regEnd && cfg.voteBegin <= cfg.voteEnd
  }

  /** Once anyone has voted registration is over, and who has voted can only leave. */
  ghost predicate Settled(s: State, done: set<Address>) {
    && (s.voted != map[] ==> s.round >= s.cfg.regBegin)
    && (done != {} ==> s.round > s.cfg.regEnd)
    && (forall a :: a in done && a in s.voted ==> s.voted[a].Some?)
  }

  lemma {:induction false} CountedOnce(s: State, events: seq<Event>, done: set<Address>)
    requires !WindowsOverlap(s.cfg) && Settled(s, done)
    ensures Distinct(Counted(s, events))
    ensures forall a :: a in Counted(s, events) ==> a !in done
    decreases |events|
  {
    if events != [] {
      var e, n := events[0], Next(s, events[0]);
      if e.Vote? && Apply(s, e).Success? {
        assert e.sender in s.voted;
        CountedOnce(n, events[1..], done + {e.sender});
      } else {
        CountedOnce(n, events[1..], done);
      }
    }
  }

  /** An account that votes, clears its state, registers and votes again, all in round `r`. */
  function TwiceIn(cfg: Config, account: Address): seq<Event> {
    var token := TokenTransfer(true, cfg.creator, cfg.assetID, 1);
    var register := OptIn(account, false, "register");
    var vote := Vote(account, false, 2, token, CANDIDATE_A);
    [register, vote, ClearState(account), register, vote]
  }

  lemma CountedTwice(cfg: Config, r: nat, account: Address)
    requires cfg.regBegin <= r <= cfg.regEnd && cfg.voteBegin <= r <= cfg.voteEnd
    ensures Counted(Created(cfg, r), TwiceIn(cfg, account)) == [account, account]
  {
    var es := TwiceIn(cfg, account);
    var s0 := Created(cfg, r);
    var s1 := Next(s0, es[0]);
    assert s1 == s0.(voted := map[account := None]);
    var s2 := Next(s1, es[1]);
    assert s2 == s0.(tally := map[CANDIDATE_A := 1], voted := map[account := Some(CANDIDATE_A)]);
    var s3 := Next(s2, es[2]);
    assert s3.voted == map[];
    var s4 := Next(s3, es[3]);
    assert s4.voted == map[account := None];
    assert es[4..][1..] == [] && es[3..][1..] == es[4..] && es[2..][1..] == es[3..] && es[1..][1..] == es[2..];
    assert Counted(s4, es[4..]) == [account];
    assert Counted(s3, es[3..]) == [account] && Counted(s2, es[2..]) == [account];
    assert Counted(s1, es[1..]) == [account, account];
  }

  /** Whatever happens, no account is counted twice, exactly when no round is in both windows. */
  lemma OneVotePerAccountIff(cfg: Config)
    ensures (forall round, events :: Distinct(Counted(Created(cfg, round), events))) <==> !WindowsOverlap(cfg)
  {
    if WindowsOverlap(cfg) {
      var r := if cfg.regBegin > cfg.voteBegin then cfg.regBegin else cfg.voteBegin;
      CountedTwice(cfg, r, "alice");
      assert !Distinct(["alice", "alice"]) by {
        assert ["alice", "alice"][0] == ["alice", "alice"][1];
      }
      assert !Distinct(Counted(Created(cfg, r), TwiceIn(cfg, "alice")));
    } else {
      forall round, events
        ensures Distinct(Counted(Created(cfg, round), events))
      {
        CountedOnce(Created(cfg, round), events, {});
      }
    }
  }
}

/** The contract's state, updated call by call. */
module VotingContracts {
  import opened Wrappers
  import opened Voting

  class VotingContract {
    const cfg: Config
    var tally: map<string, nat>
    var voted: map<Address, Option<string>>
    var round: nat

    constructor (cfg: Config, round: nat)
      ensures View() == Created(cfg, round)
    {
      this.cfg, this.round := cfg, round;
      tally, voted := map[], map[];
    }

    ghost function View(): State
      reads this
    {
      State(cfg, tally, voted, round)
    }

    method Register(sender: Address, rekeyed: bool, arg0: string) returns (r: Result<(), Error>)
      modifies this`voted
      ensures View() == Next(old(View()), OptIn(sender, rekeyed, arg0))
      ensures r.Success? <==> OnRegister(old(View()), sender, rekeyed, arg0).Success?
    {
      if sender in voted {
        return Failure(AlreadyOptedIn);
      }
      if !(!rekeyed && arg0 == "register" && round >= cfg.regBegin && round <= cfg.regEnd) {
        return Failure(Rejected);
      }
      voted := voted[sender := None];
      return Success(());
    }

    method CastVote(sender: Address, rekeyed: bool, groupSize: nat, token: TokenTransfer, choice: string)
      returns (r: Result<(), Error>)
      modifies this`voted, this`tally
      ensures View() == Next(old(View()), Vote(sender, rekeyed, groupSize, token, choice))
      ensures r.Success? <==> OnVote(old(View()), sender, rekeyed, groupSize, token, choice).Success?
    {
      if rekeyed || round < cfg.voteBegin || round > cfg.voteEnd {
        return Failure(Rejected);
      }
      if groupSize != 2 || !token.isAssetTransfer || token.receiver != cfg.creator
         || token.asset != cfg.assetID || token.amount != 1 || (choice != CANDIDATE_A && choice != CANDIDATE_B) {
        return Failure(Rejected);
      }
      if sender in voted && voted[sender].Some? {
        return Failure(Rejected);
      }
      var choiceTally := if choice in tally then tally[choice] else 0;
      if choiceTally + 1 > MAX_UINT64 {
        return Failure(Overflow);
      }
      if sender !in voted {
        return Failure(NotOptedIn);
      }
      tally := tally[choice := choiceTally + 1];
      voted := voted[sender := Some(choice)];
      return Success(());
    }

    method Close(sender: Address) returns (r: Result<(), Error>)
      modifies this`voted, this`tally
      ensures View() == Next(old(View()), CloseOut(sender))
      ensures r.Success? <==> OnCloseOut(old(View()), sender).Success?
    {
      if sender !in voted {
        return Failure(NotOptedIn);
      }
      if round <= cfg.voteEnd && voted[sender].Some? {
        var choice := voted[sender].value;
        var choiceTally := if choice in tally then tally[choice] else 0;
        if choiceTally == 0 {
          return Failure(Underflow);
        }
        tally := tally[choice := choiceTally - 1];
      }
      voted := voted - {sender};
      return Success(());
    }

    method Clear(sender: Address) returns (r: Result<(), Error>)
      modifies this`voted
      ensures View() == Next(old(View()), ClearState(sender))
      ensures r.Success? <==> sender in old(voted)
    {
      if sender !in voted {
        return Failure(NotOptedIn);
      }
      voted := voted - {sender};
      return Success(());
    }
  }
}
