/**
  The governance contract (mABC/contracts/governance_contract.py): a weighted vote
  on a root-cause proposal, followed by a consensus check that settles the proposal
  in the SOP contract once the "for" or the "against" tally passes half of the
  summed weight of the accounts that voted on it.

  Weights are exact reals; the source's floating point is not modelled.
*/
module Governance {
  import opened Wrappers
  import opened Types
  import opened State
  import Ops
  import PyStr

  /** `1.0 + max(0.0, (reputation - 50) / 10.0) + stake / 1000.0`. */
  function Weight(reputation: int, stake: int): (w: real)
    ensures stake >= 0 ==> w >= 1.0
  {
    var repBonus := (reputation - 50) as real / 10.0;
    1.0 + (if repBonus > 0.0 then repBonus else 0.0) + stake as real / 1000.0
  }

  function AutoContent(proposalId: string): string {
    "Auto-created proposal for vote " + proposalId
  }

  /** The proposal created for a vote on an unknown id, owned by the voter. */
  function AutoProposal(proposalId: string, sender: string, timestamp: int): Proposal {
    Proposal(sender, Str(AutoContent(proposalId)), timestamp, EmptyTally)
  }

  predicate Holds(l: Ledger, k: string, proposalId: string) {
    k in l.accounts && proposalId in l.accounts[k].rootCauseProposals
  }

  /** The first of `keys` whose account holds the proposal. */
  function HolderIn(l: Ledger, proposalId: string, keys: seq<string>): (r: Option<string>)
    ensures r.Some? ==> r.value in keys && Holds(l, r.value, proposalId)
    ensures r.None? ==> forall k :: k in keys ==> !Holds(l, k, proposalId)
  {
    if keys == [] then None
    else if Holds(l, keys[0], proposalId) then Some(keys[0])
    else HolderIn(l, proposalId, keys[1..])
  }

  /** The account the search over `state.values()` stops at: the first, in insertion
      order, holding the proposal. */
  function Holder(l: Ledger, proposalId: string): Option<string> {
    HolderIn(l, proposalId, l.order)
  }

  /** The proposal is found, or created on the voter's account. */
  function Seeded(l: Ledger, proposalId: string, sender: string, timestamp: int): (r: (Ledger, string))
    ensures Holds(r.0, r.1, proposalId)
  {
    match Holder(l, proposalId)
    case Some(h) => (l, h)
    case None =>
      var (l1, voter) := Create(l, sender);
      (Store(l1, sender, voter.(rootCauseProposals := voter.rootCauseProposals[proposalId := AutoProposal(proposalId, sender, timestamp)])), sender)
  }

  /** What a vote leaves behind: the world state, the return value, and the tally of
      the proposal after the vote (the `proposal_data` handed to the consensus check). */
  datatype Ballot = Ballot(ledger: Ledger, accepted: bool, tally: Tally)

  /** `vote`, up to the consensus check. */
  function Voted(l: Ledger, proposalId: string, voteOption: string, sender: string, timestamp: int): (r: Ballot)
    ensures r.accepted <==> ValidOption(PyStr.Lower(voteOption))
    ensures !r.accepted ==> r.ledger == l
  {
    var option := PyStr.Lower(voteOption);
    if !ValidOption(option) then Ballot(l, false, EmptyTally)
    else
      var (l1, holder) := Seeded(l, proposalId, sender, timestamp);
      var (l2, voter) := Create(l1, sender);
      var w := Weight(voter.reputation, voter.stake);
      var l3 := Store(l2, sender, voter.(votes := voter.votes[proposalId := VoteRecord(proposalId, option, Some(w), timestamp)]));
      var owner := l3.accounts[holder];
      var p := owner.rootCauseProposals[proposalId];
      var tally := AddToTally(p.votes, option, w);
      Ballot(Store(l3, holder, owner.(rootCauseProposals := owner.rootCauseProposals[proposalId := p.(votes := tally)])), true, tally)
  }

  predicate Participates(l: Ledger, k: string, proposalId: string) {
    k in l.accounts && proposalId in l.accounts[k].votes
  }

  function WeightOf(l: Ledger, k: string, proposalId: string): real {
    if Participates(l, k, proposalId) then Weight(l.accounts[k].reputation, l.accounts[k].stake) else 0.0
  }

  /** The summed weight of the listed accounts holding a vote on the proposal. */
  function ParticipantWeightIn(l: Ledger, proposalId: string, keys: seq<string>): real {
    if keys == [] then 0.0
    else ParticipantWeightIn(l, proposalId, keys[..|keys| - 1]) + WeightOf(l, keys[|keys| - 1], proposalId)
  }

  /** `total_network_weight`. */
  function ParticipantWeight(l: Ledger, proposalId: string): real {
    ParticipantWeightIn(l, proposalId, l.order)
  }

  /** `_check_consensus`: `Some(true)` to pass, `Some(false)` to reject, `None` when
      neither tally exceeds half the participants' weight; "for" is checked first. */
  function Decision(l: Ledger, proposalId: string, tally: Tally): (d: Option<bool>)
    ensures d == Some(true) <==> tally.forVotes > ParticipantWeight(l, proposalId) * 0.5
    ensures d == Some(false) <==> (tally.forVotes <= ParticipantWeight(l, proposalId) * 0.5
      && tally.againstVotes > ParticipantWeight(l, proposalId) * 0.5)
  {
    var threshold := ParticipantWeight(l, proposalId) * 0.5;
    if tally.forVotes > threshold then Some(true)
    else if tally.againstVotes > threshold then Some(false)
    else None
  }

  /** The SOP storage after the consensus check; a raised error is swallowed and
      leaves whatever the SOP contract had changed before raising. */
  function Settled(s: Ops.Storage, proposalId: string, d: Option<bool>): Ops.Storage {
    if d.None? then s else Ops.Advance(s, proposalId, d.value).0
  }

  // ---------------------------------------------------------------------
  // Lemmas

  /** The weight is at least 1 for a non-negative stake and grows with reputation and
      with stake. */
  lemma {:induction false} WeightMonotone(rep1: int, stake1: int, rep2: int, stake2: int)
    requires rep1 <= rep2 && stake1 <= stake2
    ensures Weight(rep1, stake1) <= Weight(rep2, stake2)
  {
  }

  /** An unknown proposal is created on the voter's account with the voter as proposer,
      the fixed content and all tallies at zero, so the tally after the vote is the
      voter's weight on the chosen option alone. */
  lemma {:induction false} AutoCreated(l: Ledger, proposalId: string, voteOption: string, sender: string, timestamp: int)
    requires Holder(l, proposalId).None? && ValidOption(PyStr.Lower(voteOption))
    ensures var r := Voted(l, proposalId, voteOption, sender, timestamp);
      var voter := Create(l, sender).1;
      && Holds(r.ledger, sender, proposalId)
      && r.ledger.accounts[sender].rootCauseProposals[proposalId].proposer == sender
      && r.ledger.accounts[sender].rootCauseProposals[proposalId].content == Str(AutoContent(proposalId))
      && r.tally == AddToTally(EmptyTally, PyStr.Lower(voteOption), Weight(voter.reputation, voter.stake))
      && r.ledger.accounts[sender].rootCauseProposals[proposalId].votes == r.tally
  {
  }

  /** An accepted vote stores the voter's record, replacing an earlier one, and adds
      the voter's weight to the tally of the proposal held by its first holder. */
  lemma {:induction false} VoteRecorded(l: Ledger, proposalId: string, voteOption: string, sender: string, timestamp: int)
    requires Holder(l, proposalId).Some? && sender in l.accounts
    requires ValidOption(PyStr.Lower(voteOption))
    ensures var r := Voted(l, proposalId, voteOption, sender, timestamp);
      var h := Holder(l, proposalId).value;
      var a := l.accounts[sender];
      var w := Weight(a.reputation, a.stake);
      && r.ledger.order == l.order
      && sender in r.ledger.accounts && h in r.ledger.accounts
      && r.ledger.accounts[sender].votes == a.votes[proposalId := VoteRecord(proposalId, PyStr.Lower(voteOption), Some(w), timestamp)]
      && r.tally == AddToTally(l.accounts[h].rootCauseProposals[proposalId].votes, PyStr.Lower(voteOption), w)
      && Holds(r.ledger, h, proposalId) && r.ledger.accounts[h].rootCauseProposals[proposalId].votes == r.tally
  {
  }

  /** Whether an account holds the proposal, for every account, decides the holder. */
  lemma {:induction false} HolderSame(l: Ledger, l': Ledger, proposalId: string, keys: seq<string>)
    requires forall k :: k in keys ==> (Holds(l, k, proposalId) <==> Holds(l', k, proposalId))
    ensures HolderIn(l, proposalId, keys) == HolderIn(l', proposalId, keys)
  {
    if keys != [] {
      HolderSame(l, l', proposalId, keys[1..]);
    }
  }

  /** A repeated vote is counted again: the voter keeps one record, the second one,
      but the proposal's tally for the option grows by the weight on each call. */
  lemma {:induction false} RepeatedVoteCountedTwice(l: Ledger, proposalId: string, voteOption: string, sender: string, t1: int, t2: int)
    requires Holder(l, proposalId).Some? && sender in l.accounts
    requires ValidOption(PyStr.Lower(voteOption))
    ensures var r1 := Voted(l, proposalId, voteOption, sender, t1);
      var r2 := Voted(r1.ledger, proposalId, voteOption, sender, t2);
      var h := Holder(l, proposalId).value;
      var a := l.accounts[sender];
      var w := Weight(a.reputation, a.stake);
      var option := PyStr.Lower(voteOption);
      && r2.tally == AddToTally(AddToTally(l.accounts[h].rootCauseProposals[proposalId].votes, option, w), option, w)
      && r2.ledger.accounts[sender].votes[proposalId] == VoteRecord(proposalId, option, Some(w), t2)
  {
    var r1 := Voted(l, proposalId, voteOption, sender, t1);
    VoteRecorded(l, proposalId, voteOption, sender, t1);
    var h := Holder(l, proposalId).value;
    forall k | k in l.order
      ensures Holds(l, k, proposalId) <==> Holds(r1.ledger, k, proposalId)
    {
    }
    HolderSame(l, r1.ledger, proposalId, l.order);
    VoteRecorded(r1.ledger, proposalId, voteOption, sender, t2);
  }

  /** With exactly one listed participant, listed once, the summed weight is its
      weight. */
  lemma {:induction false} SingleParticipant(l: Ledger, proposalId: string, keys: seq<string>, v: string)
    requires Distinct(keys)
    requires forall k :: k in keys && k != v ==> !Participates(l, k, proposalId)
    ensures ParticipantWeightIn(l, proposalId, keys) == (if v in keys then WeightOf(l, v, proposalId) else 0.0)
    decreases |keys|
  {
    if keys != [] {
      var init := keys[..|keys| - 1];
      assert Distinct(init);
      SingleParticipant(l, proposalId, init, v);
      assert v in keys <==> v in init || v == keys[|keys| - 1];
      if v == keys[|keys| - 1] {
        assert v !in init;
      }
    }
  }

  /** A vote on an unknown proposal touches only the voter's account, which it
      creates at the end of the insertion order if needed. */
  lemma {:induction false} AutoVoteFrame(l: Ledger, proposalId: string, voteOption: string, sender: string, timestamp: int)
    requires Holder(l, proposalId).None? && ValidOption(PyStr.Lower(voteOption))
    ensures var r := Voted(l, proposalId, voteOption, sender, timestamp);
      var (l1, voter) := Create(l, sender);
      && r.ledger.order == l1.order
      && sender in r.ledger.accounts
      && r.ledger.accounts[sender].reputation == voter.reputation
      && r.ledger.accounts[sender].stake == voter.stake
      && (forall k :: k in r.ledger.accounts && k != sender ==> k in l.accounts && r.ledger.accounts[k] == l.accounts[k])
  {
  }

  /** When nobody has voted on an unknown proposal, the voter is afterwards its only
      participant, and sits once in the insertion order. */
  lemma {:induction false} OnlyVoterParticipates(l: Ledger, proposalId: string, voteOption: string, sender: string, timestamp: int)
    requires LedgerValid(l) && Holder(l, proposalId).None? && ValidOption(PyStr.Lower(voteOption))
    requires forall k :: k in l.accounts ==> proposalId !in l.accounts[k].votes
    ensures var r := Voted(l, proposalId, voteOption, sender, timestamp);
      && Distinct(r.ledger.order) && sender in r.ledger.order
      && (forall k :: k != sender ==> !Participates(r.ledger, k, proposalId))
  {
    AutoVoteFrame(l, proposalId, voteOption, sender, timestamp);
    EnsureListed(l, sender);
  }

  /** The voter counts among the participants, so the first "for" vote on a proposal
      nobody has voted on already carries more than half the weight and passes. */
  lemma {:induction false} FirstForVotePasses(l: Ledger, proposalId: string, voteOption: string, sender: string, timestamp: int)
    requires LedgerValid(l) && Holder(l, proposalId).None?
    requires forall k :: k in l.accounts ==> proposalId !in l.accounts[k].votes
    requires sender in l.accounts ==> l.accounts[sender].stake >= 0
    requires PyStr.Lower(voteOption) == "for"
    ensures var r := Voted(l, proposalId, voteOption, sender, timestamp);
      Decision(r.ledger, proposalId, r.tally) == Some(true)
  {
    var r := Voted(l, proposalId, voteOption, sender, timestamp);
    var voter := Create(l, sender).1;
    var w := Weight(voter.reputation, voter.stake);
    AutoVoteFrame(l, proposalId, voteOption, sender, timestamp);
    AutoCreated(l, proposalId, voteOption, sender, timestamp);
    OnlyVoterParticipates(l, proposalId, voteOption, sender, timestamp);
    SingleParticipant(r.ledger, proposalId, r.ledger.order, sender);
    assert ParticipantWeight(r.ledger, proposalId) == WeightOf(r.ledger, sender, proposalId) <= w;
    assert r.tally.forVotes == w && w >= 1.0;
  }

  // ---------------------------------------------------------------------
  // The contract object

  class GovernanceContract {
    const worldState: WorldState
    /** The SOP contract singleton the consensus check reports to. */
    const ops: Ops.OpsSopContract

    constructor (worldState: WorldState, ops: Ops.OpsSopContract)
      ensures this.worldState == worldState && this.ops == ops
    {
      this.worldState := worldState;
      this.ops := ops;
    }

    /** `vote`: an accepted vote always returns true, whatever the consensus check
        meets; the SOP storage moves only when a tally passes the threshold. */
    method Vote(proposalId: string, voteOption: string, sender: string, timestamp: int) returns (ok: bool)
      requires worldState.Valid()
      modifies worldState, ops
      ensures worldState.Valid()
      ensures var r := Voted(old(worldState.state), proposalId, voteOption, sender, timestamp);
        && worldState.state == r.ledger && ok == r.accepted
        && ops.storage == (if ok then Settled(old(ops.storage), proposalId, Decision(r.ledger, proposalId, r.tally)) else old(ops.storage))
    {
      var option := PyStr.Lower(voteOption);
      if !ValidOption(option) {
        return false;
      }
      var holder := FindProposal(proposalId);
      if holder.None? {
        var voter := worldState.CreateAccount(sender);
        worldState.StoreAccount(sender, voter.(rootCauseProposals := voter.rootCauseProposals[proposalId := AutoProposal(proposalId, sender, timestamp)]));
        holder := Some(sender);
      }
      var voter := worldState.CreateAccount(sender);
      var w := Weight(voter.reputation, voter.stake);
      worldState.StoreAccount(sender, voter.(votes := voter.votes[proposalId := VoteRecord(proposalId, option, Some(w), timestamp)]));
      var owner := worldState.state.accounts[holder.value];
      var p := owner.rootCauseProposals[proposalId];
      var tally := AddToTally(p.votes, option, w);
      worldState.StoreAccount(holder.value, owner.(rootCauseProposals := owner.rootCauseProposals[proposalId := p.(votes := tally)]));
      CheckConsensus(proposalId, tally);
      return true;
    }

    /** The search for the proposal over the accounts, stopping at the first holder. */
    method FindProposal(proposalId: string) returns (holder: Option<string>)
      requires worldState.Valid()
      ensures holder == Holder(worldState.state, proposalId)
    {
      var keys := worldState.state.order;
      holder := None;
      var i := 0;
      while i < |keys| && holder.None?
        invariant 0 <= i <= |keys|
        invariant holder.None? ==> HolderIn(worldState.state, proposalId, keys) == HolderIn(worldState.state, proposalId, keys[i..])
        invariant holder.Some? ==> holder == HolderIn(worldState.state, proposalId, keys)
      {
        var account := worldState.state.accounts[keys[i]];
        if proposalId in account.rootCauseProposals {
          holder := Some(keys[i]);
        }
        assert keys[i..][1..] == keys[i + 1..];
        i := i + 1;
      }
    }

    /** `_check_consensus`: sum the participants' weights, compare both tallies with
        half of it and settle the proposal; an error from the SOP contract is caught. */
    method CheckConsensus(proposalId: string, tally: Tally)
      requires worldState.Valid()
      modifies ops
      ensures ops.storage == Settled(old(ops.storage), proposalId, Decision(worldState.state, proposalId, tally))
    {
      var keys := worldState.state.order;
      var total := 0.0;
      for i := 0 to |keys|
        invariant total == ParticipantWeightIn(worldState.state, proposalId, keys[..i])
      {
        var account := worldState.state.accounts[keys[i]];
        if proposalId in account.votes {
          total := total + Weight(account.reputation, account.stake);
        }
        assert keys[..i + 1][..i] == keys[..i];
      }
      assert keys[..|keys|] == keys;
      var threshold := total * 0.5;
      if tally.forVotes > threshold {
        var error := ops.AdvanceToConsensusPhase(proposalId, true);
      } else if tally.againstVotes > threshold {
        var error := ops.AdvanceToConsensusPhase(proposalId, false);
      }
    }
  }
}
