/**
  The operations SOP contract (mABC/contracts/ops_contract.py): the state machine
  Init -> Data_Collected -> Root_Cause_Proposed -> (Consensus ->) Solution, with a
  rejected proposal sending the process back to Data_Collected, and an event log
  that only grows until the storage is reset.

  A raised `ValueError` or `KeyError` is an error message returned beside the
  storage; the storage is whatever the source had changed before raising.
  `datetime.now()` enters as the parameter `now`; event ids and event timestamps
  are not modelled.
*/
module Ops {
  import opened Wrappers
  import opened Types
  import PyStr

  datatype SopState = Init | DataCollected | RootCauseProposed | Consensus | Solution

  datatype Incident = Incident(submitter: string, summary: string, rawData: map<string, Value>, timestamp: string)

  datatype SopProposal = SopProposal(proposalId: string, proposer: string, content: string, timestamp: string, status: string)

  /** The events of the log, with the fields each one carries besides id and timestamp. */
  datatype Event =
    | DataCollectedEvent(agentId: string, summary: string)
    | RootCauseProposedEvent(proposalId: string, proposer: string, content: string)
    | ConsensusReachedEvent(proposalId: string, passed: bool)
    | SolutionPhaseEnteredEvent(proposalId: string, rootCause: string)
    | ProposalRejectedEvent(proposalId: string, proposer: string)

  /** The class-level `_storage` dictionary; `incident` is `None` while it is `{}`. */
  datatype Storage = Storage(
    currentState: SopState,
    incident: Option<Incident>,
    proposals: map<string, SopProposal>,
    currentProposalId: Option<string>,
    events: seq<Event>)

  const InitialStorage := Storage(Init, None, map[], None, [])

  /** What every reachable storage satisfies: the current proposal is stored, and
      there is a current proposal while one is up for consensus. */
  predicate StorageValid(s: Storage) {
    && (s.currentProposalId.Some? ==> s.currentProposalId.value in s.proposals)
    && (s.currentState == RootCauseProposed ==> s.currentProposalId.Some?)
  }

  const NotInInit := "Data collection can only be submitted in Init state"
  const NotAfterData := "Root cause can only be proposed after data collection"
  const NotProposed := "Can only advance consensus from Root_Cause_Proposed state"
  const NotCurrent := "Proposal ID does not match current active proposal"
  const MissingProposal := "KeyError"

  // ---------------------------------------------------------------------
  // Transitions on values

  /** `submit_data_collection`: only in Init. */
  function SubmitData(s: Storage, agentId: string, summary: string, rawData: Option<map<string, Value>>, now: string): (r: (Storage, Option<string>))
    ensures r.1.None? <==> s.currentState == Init
    ensures r.1.Some? ==> r.0 == s
  {
    if s.currentState != Init then (s, Some(NotInInit))
    else
      var incident := Incident(agentId, summary, rawData.GetOr(map[]), now);
      (s.(currentState := DataCollected, incident := Some(incident),
          events := s.events + [DataCollectedEvent(agentId, summary)]), None)
  }

  /** The proposal id: the hex SHA-256 of agent id, content and time. */
  function ProposalIdFor(sha256: string -> Digest, agentId: string, content: string, now: string): (id: string)
    ensures |id| == 64
  {
    CalculateHash(sha256, agentId + content + now)
  }

  /** `propose_root_cause`: only in Data_Collected. */
  function Propose(s: Storage, sha256: string -> Digest, agentId: string, content: string, now: string): (r: (Storage, Option<string>))
    ensures r.1.None? <==> s.currentState == DataCollected
    ensures r.1.Some? ==> r.0 == s
  {
    if s.currentState != DataCollected then (s, Some(NotAfterData))
    else
      var id := ProposalIdFor(sha256, agentId, content, now);
      var proposal := SopProposal(id, agentId, content, now, "pending");
      (s.(proposals := s.proposals[id := proposal], currentProposalId := Some(id),
          currentState := RootCauseProposed,
          events := s.events + [RootCauseProposedEvent(id, agentId, content)]), None)
  }

  /** `advance_to_consensus_phase`: only for the current proposal while it is
      proposed. A missing proposal record raises after the first event. */
  function Advance(s: Storage, proposalId: string, passed: bool): (r: (Storage, Option<string>))
    ensures s.currentState != RootCauseProposed || s.currentProposalId != Some(proposalId) ==> r == (s, r.1) && r.1.Some?
  {
    if s.currentState != RootCauseProposed then (s, Some(NotProposed))
    else if s.currentProposalId != Some(proposalId) then (s, Some(NotCurrent))
    else if passed then
      var reached := s.(currentState := Solution, events := s.events + [ConsensusReachedEvent(proposalId, true)]);
      if proposalId !in s.proposals then (reached, Some(MissingProposal))
      else (reached.(events := reached.events + [SolutionPhaseEnteredEvent(proposalId, s.proposals[proposalId].content)]), None)
    else
      var reached := s.(currentState := DataCollected, currentProposalId := None,
                        events := s.events + [ConsensusReachedEvent(proposalId, false)]);
      if proposalId !in s.proposals then (reached, Some(MissingProposal))
      else (reached.(events := reached.events + [ProposalRejectedEvent(proposalId, s.proposals[proposalId].proposer)]), None)
  }

  /** `get_events(limit)`: `events[-limit:]`. */
  function EventsTail(events: seq<Event>, limit: int): (r: seq<Event>)
    ensures |r| <= |events|
  {
    PyStr.SliceFrom(events, -limit)
  }

  /** `get_current_proposal`. */
  function CurrentProposal(s: Storage): (r: Option<SopProposal>)
    ensures r.Some? <==> s.currentProposalId.Some? && s.currentProposalId.value in s.proposals
    ensures r.Some? ==> r.value == s.proposals[s.currentProposalId.value]
  {
    if s.currentProposalId.Some? && s.currentProposalId.value in s.proposals
    then Some(s.proposals[s.currentProposalId.value]) else None
  }

  // ---------------------------------------------------------------------
  // Lemmas

  /** A submission in Init moves to Data_Collected, records the incident (with `{}`
      for absent raw data) and logs exactly one DataCollected event. */
  lemma {:induction false} SubmitEffect(s: Storage, agentId: string, summary: string, rawData: Option<map<string, Value>>, now: string)
    requires s.currentState == Init
    ensures var (r, _) := SubmitData(s, agentId, summary, rawData, now);
      && r.currentState == DataCollected
      && r.incident == Some(Incident(agentId, summary, if rawData.Some? then rawData.value else map[], now))
      && r.events == s.events + [DataCollectedEvent(agentId, summary)]
      && r.proposals == s.proposals && r.currentProposalId == s.currentProposalId
  {
  }

  /** A proposal after data collection is stored under its fresh id, becomes the
      current proposal, and moves the process to Root_Cause_Proposed. */
  lemma {:induction false} ProposeEffect(s: Storage, sha256: string -> Digest, agentId: string, content: string, now: string)
    requires s.currentState == DataCollected
    ensures var (r, _) := Propose(s, sha256, agentId, content, now);
      var id := ProposalIdFor(sha256, agentId, content, now);
      && r.currentState == RootCauseProposed
      && r.currentProposalId == Some(id)
      && id in r.proposals && r.proposals[id].proposer == agentId && r.proposals[id].content == content
      && r.proposals[id].status == "pending"
      && r.events == s.events + [RootCauseProposedEvent(id, agentId, content)]
  {
  }

  /** The guard of `advance_to_consensus_phase`: on a well-formed storage it succeeds
      exactly for the current proposal in Root_Cause_Proposed. */
  lemma {:induction false} AdvanceGuard(s: Storage, proposalId: string, passed: bool)
    requires StorageValid(s)
    ensures Advance(s, proposalId, passed).1.None? <==>
      s.currentState == RootCauseProposed && s.currentProposalId == Some(proposalId)
    ensures Advance(s, proposalId, passed).1.Some? ==> Advance(s, proposalId, passed).0 == s
  {
  }

  /** A passed proposal ends in Solution, logging ConsensusReached(passed) and then
      SolutionPhaseEntered with the proposal's content as root cause. */
  lemma {:induction false} AdvancePassed(s: Storage, proposalId: string)
    requires StorageValid(s) && s.currentState == RootCauseProposed && s.currentProposalId == Some(proposalId)
    ensures var (r, error) := Advance(s, proposalId, true);
      && error.None? && r.currentState == Solution
      && r.currentProposalId == Some(proposalId)
      && r.events == s.events + [ConsensusReachedEvent(proposalId, true),
                                 SolutionPhaseEnteredEvent(proposalId, s.proposals[proposalId].content)]
  {
  }

  /** A rejected proposal sends the process back to Data_Collected with no current
      proposal, logging ConsensusReached(rejected) and then ProposalRejected. */
  lemma {:induction false} AdvanceRejected(s: Storage, proposalId: string)
    requires StorageValid(s) && s.currentState == RootCauseProposed && s.currentProposalId == Some(proposalId)
    ensures var (r, error) := Advance(s, proposalId, false);
      && error.None? && r.currentState == DataCollected
      && r.currentProposalId == None
      && r.events == s.events + [ConsensusReachedEvent(proposalId, false),
                                 ProposalRejectedEvent(proposalId, s.proposals[proposalId].proposer)]
  {
  }

  /** A proposal is settled at most once: after either outcome, settling it again
      (with either outcome) raises and changes nothing. */
  lemma {:induction false} NoDoubleSettlement(s: Storage, proposalId: string, first: bool, second: bool)
    requires StorageValid(s) && Advance(s, proposalId, first).1.None?
    ensures var r := Advance(s, proposalId, first).0;
      Advance(r, proposalId, second) == (r, Advance(r, proposalId, second).1) && Advance(r, proposalId, second).1.Some?
  {
  }

  /** After a rejection a new root cause can be proposed. */
  lemma {:induction false} RejectionReopens(s: Storage, proposalId: string, sha256: string -> Digest, agentId: string, content: string, now: string)
    requires StorageValid(s) && Advance(s, proposalId, false).1.None?
    ensures Propose(Advance(s, proposalId, false).0, sha256, agentId, content, now).1.None?
  {
  }

  /** Every transition keeps the storage well formed. */
  lemma {:induction false} TransitionsKeepValid(s: Storage, sha256: string -> Digest, agentId: string, text: string, rawData: Option<map<string, Value>>, now: string, proposalId: string, passed: bool)
    requires StorageValid(s)
    ensures StorageValid(SubmitData(s, agentId, text, rawData, now).0)
    ensures StorageValid(Propose(s, sha256, agentId, text, now).0)
    ensures StorageValid(Advance(s, proposalId, passed).0)
    ensures StorageValid(InitialStorage)
  {
  }

  /** The happy path from a fresh storage: data, proposal, consensus, solution, with
      exactly four events in that order. */
  lemma {:induction false} Lifecycle(sha256: string -> Digest, agentId: string, summary: string, content: string, now: string)
    ensures var id := ProposalIdFor(sha256, agentId, content, now);
      var (s1, e1) := SubmitData(InitialStorage, agentId, summary, None, now);
      var (s2, e2) := Propose(s1, sha256, agentId, content, now);
      var (s3, e3) := Advance(s2, id, true);
      && e1.None? && e2.None? && e3.None?
      && s3.currentState == Solution
      && s3.events == [DataCollectedEvent(agentId, summary), RootCauseProposedEvent(id, agentId, content),
                       ConsensusReachedEvent(id, true), SolutionPhaseEnteredEvent(id, content)]
  {
  }

  /** `events[-limit:]`: the last `limit` events for 0 < limit, all of them once the
      limit reaches the length, and also all of them for limit 0, since `[-0:]` is
      `[0:]`; a negative limit drops the first `-limit` events instead. */
  lemma {:induction false} EventsTailCases(events: seq<Event>, limit: int)
    ensures limit == 0 ==> EventsTail(events, limit) == events
    ensures 0 < limit <= |events| ==> EventsTail(events, limit) == events[|events| - limit..]
    ensures limit >= |events| ==> EventsTail(events, limit) == events
    ensures -|events| <= limit < 0 ==> EventsTail(events, limit) == events[-limit..]
    ensures limit < -|events| ==> EventsTail(events, limit) == []
  {
  }

  /** One call of the contract, for reasoning about sequences of calls. */
  datatype Call =
    | SubmitCall(agentId: string, summary: string, rawData: Option<map<string, Value>>, now: string)
    | ProposeCall(agentId: string, content: string, now: string)
    | AdvanceCall(proposalId: string, passed: bool)

  function Step(s: Storage, sha256: string -> Digest, c: Call): (r: Storage)
    ensures |s.events| <= |r.events| <= |s.events| + 2 && r.events[..|s.events|] == s.events
  {
    match c
    case SubmitCall(a, summary, raw, now) => SubmitData(s, a, summary, raw, now).0
    case ProposeCall(a, content, now) => Propose(s, sha256, a, content, now).0
    case AdvanceCall(id, passed) => Advance(s, id, passed).0
  }

  function Run(s: Storage, sha256: string -> Digest, calls: seq<Call>): Storage
    decreases |calls|
  {
    if calls == [] then s else Run(Step(s, sha256, calls[0]), sha256, calls[1..])
  }

  /** The event log only grows: any sequence of calls keeps the earlier events as a
      prefix and appends at most two events per call. */
  lemma {:induction false} EventsOnlyGrow(s: Storage, sha256: string -> Digest, calls: seq<Call>)
    ensures var r := Run(s, sha256, calls);
      && |s.events| <= |r.events| <= |s.events| + 2 * |calls|
      && r.events[..|s.events|] == s.events
    decreases |calls|
  {
    if calls != [] {
      var s1 := Step(s, sha256, calls[0]);
      EventsOnlyGrow(s1, sha256, calls[1..]);
      var r := Run(s1, sha256, calls[1..]);
      assert r.events[..|s.events|] == r.events[..|s1.events|][..|s.events|];
    }
  }

  // ---------------------------------------------------------------------
  // The contract object

  /** The contract with its storage. The source keeps the storage at class level so
      that every instance shares it; here the one object plays that part, and its
      constructor is the first initialisation of the class-level dictionary. */
  class OpsSopContract {
    var storage: Storage

    constructor ()
      ensures storage == InitialStorage
    {
      storage := InitialStorage;
    }

    /** `_emit_event`. */
    method EmitEvent(e: Event)
      modifies this
      ensures storage == old(storage).(events := old(storage).events + [e])
    {
      storage := storage.(events := storage.events + [e]);
    }

    method SubmitDataCollection(agentId: string, summary: string, rawData: Option<map<string, Value>>, now: string) returns (error: Option<string>)
      modifies this
      ensures (storage, error) == SubmitData(old(storage), agentId, summary, rawData, now)
    {
      if storage.currentState != Init {
        return Some(NotInInit);
      }
      storage := storage.(currentState := DataCollected);
      storage := storage.(incident := Some(Incident(agentId, summary, rawData.GetOr(map[]), now)));
      EmitEvent(DataCollectedEvent(agentId, summary));
      return None;
    }

    method ProposeRootCause(sha256: string -> Digest, agentId: string, content: string, now: string) returns (proposalId: string, error: Option<string>)
      modifies this
      ensures (storage, error) == Propose(old(storage), sha256, agentId, content, now)
      ensures error.None? ==> proposalId == ProposalIdFor(sha256, agentId, content, now)
    {
      proposalId := "";
      if storage.currentState != DataCollected {
        return proposalId, Some(NotAfterData);
      }
      proposalId := ProposalIdFor(sha256, agentId, content, now);
      var proposal := SopProposal(proposalId, agentId, content, now, "pending");
      storage := storage.(proposals := storage.proposals[proposalId := proposal]);
      storage := storage.(currentProposalId := Some(proposalId));
      storage := storage.(currentState := RootCauseProposed);
      EmitEvent(RootCauseProposedEvent(proposalId, agentId, content));
      return proposalId, None;
    }

    method AdvanceToConsensusPhase(proposalId: string, passed: bool) returns (error: Option<string>)
      modifies this
      ensures (storage, error) == Advance(old(storage), proposalId, passed)
    {
      if storage.currentState != RootCauseProposed {
        return Some(NotProposed);
      }
      if storage.currentProposalId != Some(proposalId) {
        return Some(NotCurrent);
      }
      if passed {
        storage := storage.(currentState := Consensus);
        EmitEvent(ConsensusReachedEvent(proposalId, true));
        storage := storage.(currentState := Solution);
        if proposalId !in storage.proposals {
          return Some(MissingProposal);
        }
        EmitEvent(SolutionPhaseEnteredEvent(proposalId, storage.proposals[proposalId].content));
      } else {
        storage := storage.(currentState := DataCollected);
        storage := storage.(currentProposalId := None);
        EmitEvent(ConsensusReachedEvent(proposalId, false));
        if proposalId !in storage.proposals {
          return Some(MissingProposal);
        }
        EmitEvent(ProposalRejectedEvent(proposalId, storage.proposals[proposalId].proposer));
      }
      return None;
    }

    method GetCurrentState() returns (state: SopState)
      ensures state == storage.currentState
    {
      return storage.currentState;
    }

    method GetEvents(limit: int) returns (events: seq<Event>)
      ensures events == EventsTail(storage.events, limit)
    {
      events := PyStr.SliceFrom(storage.events, -limit);
    }

    method GetCurrentProposal() returns (proposal: Option<SopProposal>)
      ensures proposal == CurrentProposal(storage)
    {
      var pid := storage.currentProposalId;
      if pid.Some? && pid.value in storage.proposals {
        return Some(storage.proposals[pid.value]);
      }
      return None;
    }

    method GetIncidentData() returns (incident: Option<Incident>)
      ensures incident == storage.incident
    {
      return storage.incident;
    }

    /** `reset_for_testing`: every entry back to its initial value. */
    method ResetForTesting()
      modifies this
      ensures storage == InitialStorage
    {
      storage := storage.(currentState := Init);
      storage := storage.(incident := None);
      storage := storage.(proposals := map[]);
      storage := storage.(currentProposalId := None);
      storage := storage.(events := []);
    }
  }
}
