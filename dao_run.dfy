/**
  The on-chain voting executor of mABC/agents/base/dao_run.py: its poll and vote
  parsers, the weighted tally over the votes the chain accepted, the support and
  participation rule, the proposal counter, and the guards of `_stake_tokens`.

  The model's replies and whether the chain accepted each vote transaction are
  inputs; building, signing and mining the transactions is not modelled here.
*/
module DaoRun {
  import opened Wrappers
  import opened PyStr
  import opened AgentRun
  import opened Types
  import opened State
  import Vm

  // ---------------------------------------------------------------------
  // _parse_poll and _parse_vote

  /** `_parse_poll`: like `parse_in_poll`, but a reply holding neither "Yes" nor "No"
      gets "No", so the poll is always one of the two. */
  function DaoParsePoll(answer: string): (r: PollResult)
    ensures YesOrNo(r.poll)
    ensures r.reason == ExtractedPoll(answer).reason
  {
    var extracted := ExtractedPoll(answer);
    if YesOrNo(extracted.poll) then extracted
    else if Contains(answer, "Yes") then extracted.(poll := Some("Yes"))
    else if Contains(answer, "No") then extracted.(poll := Some("No"))
    else extracted.(poll := Some("No"))
  }

  /** The two poll parsers agree wherever `parse_in_poll` gives "Yes" or "No"; where
      it does not, `_parse_poll` says "No". */
  lemma {:induction false} PollParsersAgree(answer: string)
    ensures var r := ParseInPoll(answer);
      DaoParsePoll(answer) == if YesOrNo(r.poll) then r else r.(poll := Some("No"))
  {
  }

  /** The option the reply states itself: the rest of the line after the first
      "Option:", stripped; read whenever "Option:" occurs, space or not. */
  function DaoExtractedVote(answer: string): (r: Option<string>)
    ensures r.Some? <==> Contains(answer, OptionMarker)
    ensures r.Some? ==> Contains(answer, r.value)
  {
    if Contains(answer, OptionMarker) then Some(LineAfter(answer, OptionMarker, "\n"))
    else None
  }

  /** `_parse_vote`: an unreadable option is replaced by the first of "For",
      "Against", "Abstain" occurring in the reply, and by "Abstain" when none does. */
  function DaoParseVote(answer: string): (r: string)
    ensures IsVoteOption(r)
  {
    var extracted := DaoExtractedVote(answer);
    if extracted.Some? && IsVoteOption(extracted.value) then extracted.value
    else if Contains(answer, "For") then "For"
    else if Contains(answer, "Against") then "Against"
    else "Abstain"
  }

  /** The two vote parsers agree, up to the default, unless the reply writes
      "Option:" without the space that `parse_in_vote` looks for. */
  lemma {:induction false} VoteParsersAgree(answer: string)
    requires Contains(answer, "Option: ") || !Contains(answer, OptionMarker)
    ensures var v := ParseInVote(answer);
      DaoParseVote(answer) == if v.Some? && IsVoteOption(v.value) then v.value else "Abstain"
  {
    SameExtraction(answer);
    var e := ExtractedVote(answer);
    if e.Some? && IsVoteOption(e.value) {
      assert ParseInVote(answer) == e;
    } else {
      FallbacksAgree(answer);
    }
  }

  /** Where the stated option is missing or unreadable, both parsers fall back to the
      first of "For", "Against", "Abstain" in the reply; only `_parse_vote` defaults. */
  lemma {:induction false} FallbacksAgree(answer: string)
    requires DaoExtractedVote(answer) == ExtractedVote(answer)
    requires var e := ExtractedVote(answer); !(e.Some? && IsVoteOption(e.value))
    ensures var v := ParseInVote(answer);
      DaoParseVote(answer) == if v.Some? && IsVoteOption(v.value) then v.value else "Abstain"
  {
    if Contains(answer, "For") || Contains(answer, "Against") {
      FallbackOnOption(answer);
    } else {
      FallbackToDefault(answer);
    }
  }

  lemma {:induction false} FallbackOnOption(answer: string)
    requires DaoExtractedVote(answer) == ExtractedVote(answer)
    requires var e := ExtractedVote(answer); !(e.Some? && IsVoteOption(e.value))
    requires Contains(answer, "For") || Contains(answer, "Against")
    ensures DaoParseVote(answer) == ParseInVote(answer).value
    ensures DaoParseVote(answer) == (if Contains(answer, "For") then "For" else "Against")
  {
  }

  lemma {:induction false} FallbackToDefault(answer: string)
    requires DaoExtractedVote(answer) == ExtractedVote(answer)
    requires var e := ExtractedVote(answer); !(e.Some? && IsVoteOption(e.value))
    requires !Contains(answer, "For") && !Contains(answer, "Against")
    ensures DaoParseVote(answer) == "Abstain"
    ensures var v := ParseInVote(answer); v.Some? && IsVoteOption(v.value) ==> v.value == "Abstain"
  {
  }

  lemma {:induction false} SameExtraction(answer: string)
    requires Contains(answer, "Option: ") || !Contains(answer, OptionMarker)
    ensures DaoExtractedVote(answer) == ExtractedVote(answer)
  {
    if Contains(answer, "Option: ") {
      ContainsPatternPrefix(answer, "Option: ", 7);
      assert "Option: "[..7] == OptionMarker;
    } else {
      assert DaoExtractedVote(answer).None?;
    }
  }

  /** The option `_parse_vote` gives is text of the reply, or the default. */
  lemma {:induction false} DaoVoteOccurs(answer: string)
    ensures DaoParseVote(answer) == "Abstain" || Contains(answer, DaoParseVote(answer))
  {
  }

  // ---------------------------------------------------------------------
  // run

  /** An agent of the executor: its name, its `weight` attribute if it has one, its
      replies to the poll and to the vote prompt, and whether the chain took its vote
      transaction (`_create_and_submit_vote_transaction` returned True). */
  datatype Member = Member(roleName: string, weight: Option<real>, pollAnswer: string, voteAnswer: string, voteMined: bool)

  /** `agent.weight if hasattr(agent, 'weight') else 1.0`. */
  function WeightOf(m: Member): real {
    m.weight.GetOr(1.0)
  }

  /** Whether the member's poll reads "Yes". */
  predicate DaoCallsVote(m: Member) {
    DaoParsePoll(m.pollAnswer).poll == Some("Yes")
  }

  /** The first member whose poll reads "Yes"; later members are not asked. */
  function DaoInitiator(members: seq<Member>): Option<nat> {
    FirstCalled(members, DaoCallsVote)
  }

  /** One member's vote added to the weights and the total, when the chain took it. */
  function Counted(acc: (Weights, real), m: Member): (r: (Weights, real))
    ensures !m.voteMined ==> r == acc
    ensures r.1 == acc.1 + (if m.voteMined then WeightOf(m) else 0.0)
  {
    if m.voteMined then (AddVote(acc.0, DaoParseVote(m.voteAnswer), WeightOf(m)), acc.1 + WeightOf(m))
    else acc
  }

  /** The weights per option and the total, over the members whose vote the chain
      took; the others count for nothing. */
  function Tallied(members: seq<Member>): (r: (Weights, real))
    ensures r.0.forWeight + r.0.againstWeight + r.0.abstainWeight == r.1
  {
    if members == [] then (Weights(0.0, 0.0, 0.0), 0.0)
    else Counted(Tallied(members[..|members| - 1]), members[|members| - 1])
  }

  lemma {:induction false} TalliedStep(members: seq<Member>, i: nat)
    requires i < |members|
    ensures Tallied(members[..i + 1]) == Counted(Tallied(members[..i]), members[i])
  {
    assert members[..i + 1][..i] == members[..i];
  }

  /** The result of `run`: True when voting is off or nobody calls the vote, False
      when no vote reached the chain, and otherwise the support and participation
      rule over the weight of the votes that did. */
  function DaoDecision(alpha: real, beta: real, members: seq<Member>): bool {
    if Disabled(alpha, beta) then true
    else if DaoInitiator(members).None? then true
    else
      var (w, total) := Tallied(members);
      if total == 0.0 then false else Passes(alpha, beta, w, total)
  }

  /** A vote the chain did not take changes neither the weights nor the total. */
  lemma {:induction false} UnminedVoteIgnored(before: seq<Member>, m: Member, after: seq<Member>)
    requires !m.voteMined
    ensures Tallied(before + [m] + after) == Tallied(before + after)
    decreases |after|
  {
    if after == [] {
      assert before + [m] + after == before + [m];
      assert (before + [m])[..|before + [m]| - 1] == before;
      assert before + after == before;
    } else {
      var init := after[..|after| - 1];
      UnminedVoteIgnored(before, m, init);
      assert (before + [m] + after)[..|before + [m] + after| - 1] == before + [m] + init;
      assert (before + after)[..|before + after| - 1] == before + init;
      assert (before + [m] + after)[|before + [m] + after| - 1] == after[|after| - 1];
      assert (before + after)[|before + after| - 1] == after[|after| - 1];
    }
  }

  /** With no vote taken by the chain the total is zero. */
  lemma {:induction false} NothingMinedZero(members: seq<Member>)
    requires forall k :: 0 <= k < |members| ==> !members[k].voteMined
    ensures Tallied(members).1 == 0.0
  {
    if members != [] {
      NothingMinedZero(members[..|members| - 1]);
    }
  }

  /** Once a vote is called, the proposal fails when the chain took no vote. */
  lemma {:induction false} NothingMinedFails(alpha: real, beta: real, members: seq<Member>)
    requires !Disabled(alpha, beta) && DaoInitiator(members).Some?
    requires forall k :: 0 <= k < |members| ==> !members[k].voteMined
    ensures !DaoDecision(alpha, beta, members)
  {
    NothingMinedZero(members);
  }

  /** Once a vote is called and the chain took some votes, all with positive weight,
      the total is positive and the support and participation rule decides over it
      (`PassesByWeight` turns the rates into weights). */
  lemma {:induction false} DecisionByWeight(alpha: real, beta: real, members: seq<Member>)
    requires !Disabled(alpha, beta) && DaoInitiator(members).Some?
    requires forall k :: 0 <= k < |members| ==> WeightOf(members[k]) > 0.0
    requires exists k :: 0 <= k < |members| && members[k].voteMined
    ensures Tallied(members).1 > 0.0
    ensures DaoDecision(alpha, beta, members) == Passes(alpha, beta, Tallied(members).0, Tallied(members).1)
  {
    MinedPositive(members);
  }

  lemma {:induction false} MinedPositive(members: seq<Member>)
    requires forall k :: 0 <= k < |members| ==> WeightOf(members[k]) > 0.0
    ensures Tallied(members).1 >= 0.0
    ensures (exists k :: 0 <= k < |members| && members[k].voteMined) ==> Tallied(members).1 > 0.0
  {
    if members != [] {
      var init := members[..|members| - 1];
      MinedPositive(init);
      if exists k :: 0 <= k < |members| && members[k].voteMined {
        var k :| 0 <= k < |members| && members[k].voteMined;
        if k < |members| - 1 {
          assert init[k] == members[k];
        }
      }
    }
  }

  /** The executor: the thresholds and the counter that numbers its proposals. */
  class DaoExecutor {
    const alpha: real
    const beta: real
    var proposalCounter: int

    constructor (alpha: real, beta: real)
      ensures this.alpha == alpha && this.beta == beta && proposalCounter == 0
    {
      this.alpha := alpha;
      this.beta := beta;
      proposalCounter := 0;
    }

    /** `run`: one proposal number is used up whenever voting is on. */
    method Run(members: seq<Member>) returns (passed: bool)
      modifies this
      ensures passed == DaoDecision(alpha, beta, members)
      ensures proposalCounter == old(proposalCounter) + (if Disabled(alpha, beta) then 0 else 1)
    {
      if alpha == -1.0 && beta == -1.0 {
        return true;
      }
      proposalCounter := proposalCounter + 1;
      var initiator := PollInTurn(members, DaoCallsVote);
      if initiator.None? {
        return true;
      }
      var w, total := TallyVotes(members);
      if total == 0.0 {
        return false;
      }
      passed := Passes(alpha, beta, w, total);
    }
  }

  /** One turn of the voting loop of `run`: read the member's option and, when the
      chain took its vote, add its weight to that option and to the total. */
  method CountVote(w: Weights, total: real, m: Member) returns (w': Weights, total': real)
    ensures (w', total') == Counted((w, total), m)
  {
    var option := DaoParseVote(m.voteAnswer);
    w', total' := w, total;
    if m.voteMined {
      var weight := if m.weight.Some? then m.weight.value else 1.0;
      assert weight == WeightOf(m);
      w' := AddVote(w, option, weight);
      total' := total + weight;
    }
  }

  /** The voting loop of `run`: each vote the chain takes adds the member's weight to
      its option and to the total. */
  method TallyVotes(members: seq<Member>) returns (w: Weights, total: real)
    ensures (w, total) == Tallied(members)
  {
    w := Weights(0.0, 0.0, 0.0);
    total := 0.0;
    for i := 0 to |members|
      invariant (w, total) == Tallied(members[..i])
    {
      w, total := CountVote(w, total, members[i]);
      TalliedStep(members, i);
    }
    assert members[..|members|] == members;
  }

  // ---------------------------------------------------------------------
  // _stake_tokens

  /** What `_stake_tokens` does before reaching the chain. */
  datatype StakeStep = NothingToStake | LowBalance | StakeSent

  /** The guards: a non-positive amount stakes nothing and succeeds; a balance below
      the amount refuses; otherwise the stake transaction is sent. */
  function StakeGuard(amount: int, balance: int): (r: StakeStep)
    ensures r == StakeSent <==> 0 < amount <= balance
  {
    if amount <= 0 then NothingToStake
    else if balance < amount then LowBalance
    else StakeSent
  }

  /** `_stake_tokens`, with the sender's balance read from the world state and
      `mined` the outcome of sending the transaction. */
  function StakeTokens(l: Ledger, wallet: string, amount: int, mined: bool): (ok: bool)
    ensures amount <= 0 ==> ok
    ensures amount > 0 && BalanceOf(l, wallet) < amount ==> !ok
  {
    match StakeGuard(amount, BalanceOf(l, wallet))
    case NothingToStake => true
    case LowBalance => false
    case StakeSent => mined
  }

  /** For a positive amount, the guards let the stake through exactly when the
      virtual machine's stake payload would succeed on the same world state: an
      unknown wallet has balance 0 and is refused by both. */
  lemma {:induction false} StakeGuardMatchesVm(l: Ledger, tx: Transaction, amount: int)
    requires amount > 0
    requires "amount" in tx.data && tx.data["amount"] == Int(amount)
    ensures StakeGuard(amount, BalanceOf(l, tx.sender)) == StakeSent <==> Vm.ExecStake(l, tx).Ok?
  {
  }
}
