/**
  The transaction executor (mABC/core/vm.py): validation of a transaction against
  the world state, the gas charge, the execution of the five transaction types, the
  refund when execution raises, and the nonce increment on success.

  Signature checking (ECDSA over secp256k1, SEC 2 section 2.4.1) is the abstract
  predicate `verify(publicKey, signatureHex, txHash)`. A raised exception during
  execution is an `Err` carrying the exception text.
*/
module Vm {
  import opened Wrappers
  import opened Types
  import opened State
  import PyStr

  /** `self.min_gas_limit`. */
  const MinGasLimit := 21000
  /** `self.gas_price`: used only for the refund, never for the charge. */
  const ProcessorGasPrice := 1

  const SubmitAnalysis := "submit_analysis"
  const ProposeRootCause := "propose_root_cause"
  const VoteType := "vote"
  const TransferType := "transfer"
  const StakeType := "stake"

  /** Why `validate_transaction` refuses a transaction. */
  datatype Invalid =
    | BadNonce(expected: int, got: int)
    | GasTooLow
    | InsufficientBalance(required: int, available: int)
    | BadSignature
    | MissingData(message: string)

  function InvalidMessage(e: Invalid): string {
    match e
    case BadNonce(expected, got) => "Invalid nonce. Expected " + PyStr.Decimal(expected) + ", got " + PyStr.Decimal(got)
    case GasTooLow => "Gas limit too low. Minimum is 21000"
    case InsufficientBalance(required, available) =>
      "Insufficient balance. Required " + PyStr.Decimal(required) + ", available " + PyStr.Decimal(available)
    case BadSignature => "Invalid signature"
    case MissingData(message) => message
  }

  /** The `result` dictionary of a successful execution. */
  datatype ExecResult =
    | AnalysisSubmitted(analysisId: string)
    | RootCauseRecorded(proposalId: string)
    | VoteCast(proposalId: string, option: string)
    | TransferDone(to: string, amount: int)
    | StakeDone(amount: int)

  datatype Receipt = Receipt(txHash: string, success: bool, gasUsed: int, errorMessage: Option<string>, result: Option<ExecResult>)

  // ---------------------------------------------------------------------
  // Hashing and validation

  /** `hash_transaction`: the hex SHA-256 of the JSON of the transaction without its
      signature. */
  function HashTransaction(p: Primitives, tx: Transaction): (h: string)
    ensures |h| == 64 && IsHex(h)
  {
    CalculateHash(p.sha256, p.jsonTxUnsigned(tx.(signature := None)))
  }

  /** `verify_transaction_signature`: a missing or empty signature fails; otherwise the
      signature must verify against the hash with the sender as public key. */
  predicate SignatureAccepted(p: Primitives, verify: (string, string, string) -> bool, tx: Transaction) {
    tx.signature.Some? && tx.signature.value != "" && verify(tx.sender, tx.signature.value, HashTransaction(p, tx))
  }

  /** The data keys each transaction type needs; an unknown type needs none. */
  function RequiredKeys(txType: string): seq<string> {
    if txType == SubmitAnalysis then ["analysis_content"]
    else if txType == ProposeRootCause then ["proposal_content"]
    else if txType == VoteType then ["proposal_id", "vote_option"]
    else if txType == TransferType then ["to", "amount"]
    else if txType == StakeType then ["amount"]
    else []
  }

  function MissingMessage(txType: string): string {
    if txType == SubmitAnalysis then "Missing analysis_content in data for submit_analysis transaction"
    else if txType == ProposeRootCause then "Missing proposal_content in data for root cause proposal"
    else if txType == VoteType then "Missing proposal_id or vote_option in data for vote transaction"
    else if txType == TransferType then "Missing to or amount in data for transfer transaction"
    else "Missing amount in data for stake transaction"
  }

  predicate HasKeys(data: map<string, Value>, keys: seq<string>) {
    forall k :: k in keys ==> k in data
  }

  /** `validate_transaction`: the first failing check, in the source's order, or `None`
      for a valid transaction. */
  function Validate(l: Ledger, p: Primitives, verify: (string, string, string) -> bool, tx: Transaction): (r: Option<Invalid>)
    ensures r.None? ==> tx.gasLimit >= MinGasLimit && SignatureAccepted(p, verify, tx) && HasKeys(tx.data, RequiredKeys(tx.txType))
    ensures r.None? && tx.sender in l.accounts ==>
      tx.nonce == l.accounts[tx.sender].nonce && l.accounts[tx.sender].balance >= tx.gasPrice * tx.gasLimit
  {
    var account := Get(l, tx.sender);
    if account.Some? && tx.nonce != account.value.nonce then Some(BadNonce(account.value.nonce, tx.nonce))
    else if tx.gasLimit < MinGasLimit then Some(GasTooLow)
    else if account.Some? && account.value.balance < tx.gasPrice * tx.gasLimit then
      Some(InsufficientBalance(tx.gasPrice * tx.gasLimit, account.value.balance))
    else if !SignatureAccepted(p, verify, tx) then Some(BadSignature)
    else if !HasKeys(tx.data, RequiredKeys(tx.txType)) then Some(MissingData(MissingMessage(tx.txType)))
    else None
  }

  // ---------------------------------------------------------------------
  // Execution of the five transaction types

  /** The id of an analysis or proposal: the hex SHA-256 of sender, timestamp and content. */
  function ContentId(p: Primitives, tx: Transaction, content: Value): (id: string)
    ensures |id| == 64
  {
    CalculateHash(p.sha256, tx.sender + PyStr.Decimal(tx.timestamp) + Show(content))
  }

  /** `_execute_submit_analysis`. */
  function ExecSubmitAnalysis(l: Ledger, p: Primitives, tx: Transaction): (r: Result<(Ledger, ExecResult), string>)
    ensures r.Ok? <==> "analysis_content" in tx.data
  {
    if "analysis_content" !in tx.data then Err("KeyError")
    else
      var content := tx.data["analysis_content"];
      var id := ContentId(p, tx, content);
      Ok((AnalysisAdded(l, tx.sender, id, Analysis(tx.sender, content, tx.timestamp, "submitted")), AnalysisSubmitted(id)))
  }

  /** `_execute_propose_root_cause`: a proposal with all tallies at zero. */
  function ExecProposeRootCause(l: Ledger, p: Primitives, tx: Transaction): (r: Result<(Ledger, ExecResult), string>)
    ensures r.Ok? <==> "proposal_content" in tx.data
  {
    if "proposal_content" !in tx.data then Err("KeyError")
    else
      var content := tx.data["proposal_content"];
      var id := ContentId(p, tx, content);
      Ok((ProposalAdded(l, tx.sender, id, Proposal(tx.sender, content, tx.timestamp, EmptyTally)), RootCauseRecorded(id)))
  }

  /** The last of `keys` whose account holds the proposal: the account whose proposal
      `get_all_proposals` keeps, since later accounts overwrite earlier ones. */
  function LastHolderIn(l: Ledger, proposalId: string, keys: seq<string>): (r: Option<string>)
    ensures r.Some? ==> r.value in keys && r.value in l.accounts && proposalId in l.accounts[r.value].rootCauseProposals
    ensures r.None? ==> forall k :: k in keys && k in l.accounts ==> proposalId !in l.accounts[k].rootCauseProposals
  {
    if keys == [] then None
    else
      var k := keys[|keys| - 1];
      if k in l.accounts && proposalId in l.accounts[k].rootCauseProposals then Some(k)
      else LastHolderIn(l, proposalId, keys[..|keys| - 1])
  }

  function LastHolder(l: Ledger, proposalId: string): Option<string> {
    LastHolderIn(l, proposalId, l.order)
  }

  const BadOption := "Invalid vote option. Must be one of ['for', 'against', 'abstain']"

  /** `_execute_vote`: record the vote (no weight) and add one to the option's count on
      the proposal `get_all_proposals` returns, which is the stored one. */
  function ExecVote(l: Ledger, tx: Transaction): (r: Result<(Ledger, ExecResult), string>)
  {
    if "proposal_id" !in tx.data || "vote_option" !in tx.data then Err("KeyError")
    else if !tx.data["vote_option"].Str? then Err("AttributeError")
    else
      var option := PyStr.Lower(tx.data["vote_option"].s);
      var pid := tx.data["proposal_id"];
      if !ValidOption(option) then Err(BadOption)
      else if !pid.Str? || LastHolder(l, pid.s).None? then Err("Proposal " + Show(pid) + " not found")
      else
        var id := pid.s;
        var holder := LastHolder(l, id).value;
        var l1 := VoteAdded(l, tx.sender, id, VoteRecord(id, option, None, tx.timestamp));
        var owner := l1.accounts[holder];
        var proposal := owner.rootCauseProposals[id];
        var counted := proposal.(votes := AddToTally(proposal.votes, option, 1.0));
        Ok((Store(l1, holder, owner.(rootCauseProposals := owner.rootCauseProposals[id := counted])), VoteCast(id, option)))
  }

  /** `_execute_transfer`: the world state's transfer; a refused transfer raises. A
      recipient or amount of the wrong type is taken to raise. */
  function ExecTransfer(l: Ledger, tx: Transaction): (r: Result<(Ledger, ExecResult), string>)
    ensures r.Ok? ==> "to" in tx.data && tx.data["to"].Str? && "amount" in tx.data && tx.data["amount"].Int?
    ensures r.Ok? ==> r.value.0 == Transferred(l, tx.sender, tx.data["to"].s, tx.data["amount"].i).0
  {
    if "to" !in tx.data || "amount" !in tx.data then Err("KeyError")
    else if !tx.data["to"].Str? || !tx.data["amount"].Int? then Err("TypeError")
    else
      var to := tx.data["to"].s;
      var amount := tx.data["amount"].i;
      var (l1, ok) := Transferred(l, tx.sender, to, amount);
      if !ok then Err("Transfer failed due to insufficient balance")
      else Ok((l1, TransferDone(to, amount)))
  }

  /** `_execute_stake`: move the amount (of any sign) from balance to `staked_amount`. */
  function ExecStake(l: Ledger, tx: Transaction): (r: Result<(Ledger, ExecResult), string>)
    ensures r.Ok? <==> ("amount" in tx.data && tx.data["amount"].Int? && tx.sender in l.accounts
      && l.accounts[tx.sender].balance >= tx.data["amount"].i)
  {
    if "amount" !in tx.data then Err("KeyError")
    else if !tx.data["amount"].Int? then Err("TypeError")
    else
      var amount := tx.data["amount"].i;
      if tx.sender !in l.accounts || l.accounts[tx.sender].balance < amount then Err("Insufficient balance for staking")
      else
        var a := l.accounts[tx.sender];
        Ok((Store(l, tx.sender, a.(balance := a.balance - amount, stakedAmount := a.stakedAmount + amount)), StakeDone(amount)))
  }

  /** The dispatch on `tx_type`; an unknown type raises. */
  function Execute(l: Ledger, p: Primitives, tx: Transaction): (r: Result<(Ledger, ExecResult), string>)
    ensures tx.txType !in {SubmitAnalysis, ProposeRootCause, VoteType, TransferType, StakeType} ==>
      r == Err("Unknown transaction type: " + tx.txType)
  {
    if tx.txType == SubmitAnalysis then ExecSubmitAnalysis(l, p, tx)
    else if tx.txType == ProposeRootCause then ExecProposeRootCause(l, p, tx)
    else if tx.txType == VoteType then ExecVote(l, tx)
    else if tx.txType == TransferType then ExecTransfer(l, tx)
    else if tx.txType == StakeType then ExecStake(l, tx)
    else Err("Unknown transaction type: " + tx.txType)
  }

  // ---------------------------------------------------------------------
  // apply_transaction

  /** The gas charge on the sender's account, created if absent. */
  function Charged(l: Ledger, sender: string, fee: int): (r: Ledger)
    ensures sender in r.accounts
    ensures r.accounts[sender] == Create(l, sender).1.(balance := Create(l, sender).1.balance - fee)
  {
    var (l1, account) := Create(l, sender);
    Store(l1, sender, account.(balance := account.balance - fee))
  }

  /** The refund of the charge above `self.gas_price * self.min_gas_limit`. */
  function Refunded(l: Ledger, sender: string, fee: int): Ledger
    requires sender in l.accounts
  {
    var account := l.accounts[sender];
    Store(l, sender, account.(balance := account.balance + fee - ProcessorGasPrice * MinGasLimit))
  }

  /** `apply_transaction`: the new world state and the receipt. */
  function Applied(l: Ledger, p: Primitives, verify: (string, string, string) -> bool, tx: Transaction): (r: (Ledger, Receipt))
    ensures r.1.txHash == HashTransaction(p, tx)
    ensures Validate(l, p, verify, tx).Some? ==> r.0 == l && !r.1.success && r.1.gasUsed == 0
    ensures Validate(l, p, verify, tx).None? ==> r.1.gasUsed == MinGasLimit
  {
    var h := HashTransaction(p, tx);
    match Validate(l, p, verify, tx)
    case Some(e) => (l, Receipt(h, false, 0, Some(InvalidMessage(e)), None))
    case None =>
      var fee := tx.gasPrice * tx.gasLimit;
      var l1 := Charged(l, tx.sender, fee);
      match Execute(l1, p, tx)
      case Ok((l2, result)) => (NonceIncremented(l2, tx.sender).0, Receipt(h, true, MinGasLimit, None, Some(result)))
      case Err(message) => (Refunded(l1, tx.sender, fee), Receipt(h, false, MinGasLimit, Some(message), None))
  }

  // ---------------------------------------------------------------------
  // Lemmas

  /** The hash does not cover the signature: re-signing keeps the hash. */
  lemma {:induction false} HashIgnoresSignature(p: Primitives, tx: Transaction, signature: Option<string>)
    ensures HashTransaction(p, tx.(signature := signature)) == HashTransaction(p, tx)
  {
    assert tx.(signature := signature).(signature := None) == tx.(signature := None);
  }

  /** The checks in order: a known sender with another nonce is refused first; a gas
      limit under 21000 is always refused; a known sender who cannot pay the maximal
      fee is refused; an unknown sender skips both the nonce and the balance check. */
  lemma {:induction false} ValidateChecks(l: Ledger, p: Primitives, verify: (string, string, string) -> bool, tx: Transaction)
    ensures tx.sender in l.accounts && tx.nonce != l.accounts[tx.sender].nonce ==>
      Validate(l, p, verify, tx) == Some(BadNonce(l.accounts[tx.sender].nonce, tx.nonce))
    ensures tx.gasLimit < MinGasLimit ==> Validate(l, p, verify, tx).Some?
    ensures tx.sender in l.accounts && l.accounts[tx.sender].balance < tx.gasPrice * tx.gasLimit ==>
      Validate(l, p, verify, tx).Some?
    ensures tx.sender !in l.accounts ==>
      (Validate(l, p, verify, tx).None? <==>
        tx.gasLimit >= MinGasLimit && SignatureAccepted(p, verify, tx) && HasKeys(tx.data, RequiredKeys(tx.txType)))
  {
  }

  /** A successful payload never changes the sender's nonce, and the three record-keeping
      types leave the sender's balance as it was. */
  lemma {:induction false} PayloadKeepsSender(l: Ledger, p: Primitives, tx: Transaction)
    requires tx.sender in l.accounts && Execute(l, p, tx).Ok?
    ensures var r := Execute(l, p, tx).value.0;
      && tx.sender in r.accounts
      && r.accounts[tx.sender].nonce == l.accounts[tx.sender].nonce
      && (tx.txType in {SubmitAnalysis, ProposeRootCause, VoteType} ==>
            r.accounts[tx.sender].balance == l.accounts[tx.sender].balance)
  {
  }

  /** The three outcomes of `apply_transaction` for a valid transaction: the payload runs
      on the charged state; on success the nonce is raised, on failure the charge is
      partly refunded. */
  lemma {:induction false} AppliedOutcome(l: Ledger, p: Primitives, verify: (string, string, string) -> bool, tx: Transaction)
    requires Validate(l, p, verify, tx).None?
    ensures var fee := tx.gasPrice * tx.gasLimit;
      var l1 := Charged(l, tx.sender, fee);
      var e := Execute(l1, p, tx);
      var r := Applied(l, p, verify, tx);
      && (r.1.success <==> e.Ok?)
      && (e.Ok? ==> r.0 == NonceIncremented(e.value.0, tx.sender).0)
      && (e.Err? ==> r.0 == Refunded(l1, tx.sender, fee))
  {
  }

  /** A successful transaction costs its sender exactly `gas_price * gas_limit` plus
      the payload's own effect on the balance, and raises the nonce by one. */
  lemma {:induction false} SuccessCharges(l: Ledger, p: Primitives, verify: (string, string, string) -> bool, tx: Transaction)
    requires LedgerValid(l)
    requires Validate(l, p, verify, tx).None? && Applied(l, p, verify, tx).1.success
    ensures var r := Applied(l, p, verify, tx).0;
      var before := Create(l, tx.sender).1;
      var fee := tx.gasPrice * tx.gasLimit;
      && tx.sender in r.accounts
      && r.accounts[tx.sender].nonce == before.nonce + 1
      && (tx.txType in {SubmitAnalysis, ProposeRootCause, VoteType} ==> r.accounts[tx.sender].balance == before.balance - fee)
      && (tx.txType == StakeType ==>
            && r.accounts[tx.sender].balance == before.balance - fee - tx.data["amount"].i
            && r.accounts[tx.sender].stakedAmount == before.stakedAmount + tx.data["amount"].i)
      && (tx.txType == TransferType && tx.data["to"].s != tx.sender ==>
            r.accounts[tx.sender].balance == before.balance - fee - tx.data["amount"].i)
  {
    var fee := tx.gasPrice * tx.gasLimit;
    var l1 := Charged(l, tx.sender, fee);
    AppliedOutcome(l, p, verify, tx);
    PayloadKeepsSender(l1, p, tx);
    if tx.txType == TransferType {
      var to := tx.data["to"].s;
      StoreValid(Ensure(l, tx.sender), tx.sender, l1.accounts[tx.sender]);
      EnsureValid(l, tx.sender);
      TransferMoves(l1, tx.sender, to, tx.data["amount"].i);
    }
  }

  /** When execution raises, the charge is cut back to `self.gas_price *
      self.min_gas_limit`, which is 21000 whatever the transaction's gas price, and
      the nonce is not raised. */
  lemma {:induction false} FailureCharges(l: Ledger, p: Primitives, verify: (string, string, string) -> bool, tx: Transaction)
    requires Validate(l, p, verify, tx).None? && !Applied(l, p, verify, tx).1.success
    ensures var r := Applied(l, p, verify, tx).0;
      var before := Create(l, tx.sender).1;
      && tx.sender in r.accounts
      && r.accounts[tx.sender].balance == before.balance - ProcessorGasPrice * MinGasLimit
      && r.accounts[tx.sender].nonce == before.nonce
  {
    AppliedOutcome(l, p, verify, tx);
  }

  /** The balance check is skipped for an unknown sender, so a first transaction that
      fails in execution, or that succeeds without moving tokens, leaves the new account
      in debt. */
  lemma {:induction false} UnknownSenderGoesNegative(l: Ledger, p: Primitives, verify: (string, string, string) -> bool, tx: Transaction)
    requires tx.sender !in l.accounts && Validate(l, p, verify, tx).None?
    requires tx.gasPrice > 0
    requires !Applied(l, p, verify, tx).1.success || tx.txType in {SubmitAnalysis, ProposeRootCause, VoteType}
    ensures var r := Applied(l, p, verify, tx).0;
      tx.sender in r.accounts && r.accounts[tx.sender].balance < 0
  {
    var fee := tx.gasPrice * tx.gasLimit;
    FeeAtLeastLimit(tx.gasPrice, tx.gasLimit);
    var l1 := Charged(l, tx.sender, fee);
    assert l1.accounts[tx.sender].balance == -fee;
    AppliedOutcome(l, p, verify, tx);
    var r := Applied(l, p, verify, tx).0;
    if Execute(l1, p, tx).Ok? {
      PayloadKeepsSender(l1, p, tx);
      var l2 := Execute(l1, p, tx).value.0;
      assert r == NonceIncremented(l2, tx.sender).0;
      assert l2.accounts[tx.sender].balance == -fee;
    } else {
      assert r == Refunded(l1, tx.sender, fee);
    }
  }

  lemma {:induction false} FeeAtLeastLimit(gasPrice: int, gasLimit: int)
    requires gasPrice > 0 && gasLimit >= 0
    ensures gasPrice * gasLimit >= gasLimit
  {
    assert gasPrice * gasLimit == (gasPrice - 1) * gasLimit + gasLimit;
  }

  /** `get_all_proposals` keeps the proposal of the last account holding the id, so the
      proposal a vote transaction counts on is that account's. */
  lemma {:induction false} VoteTargetsMergedProposal(l: Ledger, proposalId: string)
    requires LedgerValid(l)
    ensures LastHolder(l, proposalId).Some? <==> proposalId in AllProposals(l)
    ensures LastHolder(l, proposalId).Some? ==>
      AllProposals(l)[proposalId] == l.accounts[LastHolder(l, proposalId).value].rootCauseProposals[proposalId]
  {
    AllProposalsUnion(l, proposalId);
    assert l.order[..|l.order|] == l.order;
    if LastHolder(l, proposalId).Some? {
      assert forall j :: 0 <= j < |l.order| ==> l.order[j] in l.accounts;
      var i := LastHolderIndex(l, proposalId, |l.order|);
      ProposalsUpToLastWins(l, |l.order|, proposalId, i);
    }
  }

  /** The last holder among the first `n` listed accounts sits at an index after which
      no listed account holds the proposal. */
  lemma {:induction false} LastHolderIndex(l: Ledger, proposalId: string, n: nat) returns (i: nat)
    requires n <= |l.order| && forall j :: 0 <= j < |l.order| ==> l.order[j] in l.accounts
    requires LastHolderIn(l, proposalId, l.order[..n]).Some?
    ensures i < n && l.order[i] == LastHolderIn(l, proposalId, l.order[..n]).value
    ensures proposalId in l.accounts[l.order[i]].rootCauseProposals
    ensures forall j :: i < j < n ==> proposalId !in l.accounts[l.order[j]].rootCauseProposals
  {
    var keys := l.order[..n];
    var k := keys[n - 1];
    assert k == l.order[n - 1];
    if proposalId in l.accounts[k].rootCauseProposals {
      i := n - 1;
    } else {
      assert keys[..n - 1] == l.order[..n - 1];
      i := LastHolderIndex(l, proposalId, n - 1);
    }
  }


  /** A vote transaction replaces the voter's record but always adds one to the
      option's count: the count is not tied to the number of voters. */
  lemma {:induction false} VoteAddsOne(l: Ledger, tx: Transaction)
    requires ExecVote(l, tx).Ok?
    ensures var (r, res) := ExecVote(l, tx).value;
      var id := tx.data["proposal_id"].s;
      var option := PyStr.Lower(tx.data["vote_option"].s);
      var h := LastHolder(l, id).value;
      && tx.sender in r.accounts && r.accounts[tx.sender].votes[id] == VoteRecord(id, option, None, tx.timestamp)
      && h in r.accounts && id in r.accounts[h].rootCauseProposals
      && r.accounts[h].rootCauseProposals[id].votes == AddToTally(l.accounts[h].rootCauseProposals[id].votes, option, 1.0)
  {
  }

  /** Staking keeps the sum of balance and staked amount. */
  lemma {:induction false} StakeKeepsHoldings(l: Ledger, tx: Transaction)
    requires ExecStake(l, tx).Ok?
    ensures var r := ExecStake(l, tx).value.0;
      r.accounts[tx.sender].balance + r.accounts[tx.sender].stakedAmount
        == l.accounts[tx.sender].balance + l.accounts[tx.sender].stakedAmount
  {
  }

  // ---------------------------------------------------------------------
  // The processor object

  class StateProcessor {
    /** The world state singleton the executor works on. */
    const worldState: WorldState

    constructor (worldState: WorldState)
      ensures this.worldState == worldState
    {
      this.worldState := worldState;
    }

    method ValidateTransaction(p: Primitives, verify: (string, string, string) -> bool, tx: Transaction) returns (valid: bool, message: string)
      requires worldState.Valid()
      ensures valid <==> Validate(worldState.state, p, verify, tx).None?
      ensures !valid ==> message == InvalidMessage(Validate(worldState.state, p, verify, tx).value)
    {
      var account := worldState.GetAccount(tx.sender);
      if account.Some? && tx.nonce != account.value.nonce {
        return false, InvalidMessage(BadNonce(account.value.nonce, tx.nonce));
      }
      if tx.gasLimit < MinGasLimit {
        return false, InvalidMessage(GasTooLow);
      }
      var requiredGas := tx.gasPrice * tx.gasLimit;
      if account.Some? && account.value.balance < requiredGas {
        return false, InvalidMessage(InsufficientBalance(requiredGas, account.value.balance));
      }
      if !SignatureAccepted(p, verify, tx) {
        return false, InvalidMessage(BadSignature);
      }
      var keys := RequiredKeys(tx.txType);
      for i := 0 to |keys|
        invariant forall k :: k in keys[..i] ==> k in tx.data
      {
        if keys[i] !in tx.data {
          return false, MissingMessage(tx.txType);
        }
      }
      assert keys[..|keys|] == keys;
      return true, "Valid transaction";
    }

    method ApplyTransaction(p: Primitives, verify: (string, string, string) -> bool, tx: Transaction) returns (receipt: Receipt)
      requires worldState.Valid()
      modifies worldState
      ensures worldState.Valid()
      ensures (worldState.state, receipt) == Applied(old(worldState.state), p, verify, tx)
    {
      var txHash := HashTransaction(p, tx);
      var valid, message := ValidateTransaction(p, verify, tx);
      if !valid {
        return Receipt(txHash, false, 0, Some(message), None);
      }
      var gasFee := tx.gasPrice * tx.gasLimit;
      ChargeGas(tx.sender, gasFee);
      var outcome := ExecutePayload(p, tx);
      match outcome {
        case Ok(result) =>
          var nonce := worldState.IncrementNonce(tx.sender);
          return Receipt(txHash, true, MinGasLimit, None, Some(result));
        case Err(error) =>
          RefundGas(tx.sender, gasFee);
          return Receipt(txHash, false, MinGasLimit, Some(error), None);
      }
    }

    /** The deduction of the maximal fee from the sender, created if absent. */
    method ChargeGas(sender: string, gasFee: int)
      requires worldState.Valid()
      modifies worldState
      ensures worldState.Valid() && worldState.state == Charged(old(worldState.state), sender, gasFee)
    {
      var account := worldState.CreateAccount(sender);
      worldState.StoreAccount(sender, account.(balance := account.balance - gasFee));
    }

    /** The refund after a failed execution, which left the charged account as it was. */
    method RefundGas(sender: string, gasFee: int)
      requires worldState.Valid() && sender in worldState.state.accounts
      modifies worldState
      ensures worldState.Valid() && worldState.state == Refunded(old(worldState.state), sender, gasFee)
    {
      var account := worldState.state.accounts[sender];
      worldState.StoreAccount(sender, account.(balance := account.balance + gasFee - ProcessorGasPrice * MinGasLimit));
    }

    /** The `try` block's dispatch on the transaction type. */
    method ExecutePayload(p: Primitives, tx: Transaction) returns (outcome: Result<ExecResult, string>)
      requires worldState.Valid()
      modifies worldState
      ensures worldState.Valid()
      ensures var r := Execute(old(worldState.state), p, tx);
        && (r.Ok? ==> outcome == Ok(r.value.1) && worldState.state == r.value.0)
        && (r.Err? ==> outcome == Err(r.error) && worldState.state == old(worldState.state))
    {
      if tx.txType == SubmitAnalysis {
        outcome := ExecuteSubmitAnalysis(p, tx);
      } else if tx.txType == ProposeRootCause {
        outcome := ExecuteProposeRootCause(p, tx);
      } else if tx.txType == VoteType {
        outcome := ExecuteVote(tx);
      } else if tx.txType == TransferType {
        outcome := ExecuteTransfer(tx);
      } else if tx.txType == StakeType {
        outcome := ExecuteStake(tx);
      } else {
        outcome := Err("Unknown transaction type: " + tx.txType);
      }
    }

    method ExecuteSubmitAnalysis(p: Primitives, tx: Transaction) returns (outcome: Result<ExecResult, string>)
      requires worldState.Valid()
      modifies worldState
      ensures worldState.Valid()
      ensures var r := ExecSubmitAnalysis(old(worldState.state), p, tx);
        && (r.Ok? ==> outcome == Ok(r.value.1) && worldState.state == r.value.0)
        && (r.Err? ==> outcome == Err(r.error) && worldState.state == old(worldState.state))
    {
      if "analysis_content" !in tx.data {
        return Err("KeyError");
      }
      var content := tx.data["analysis_content"];
      var analysisId := ContentId(p, tx, content);
      worldState.AddAnalysis(tx.sender, analysisId, Analysis(tx.sender, content, tx.timestamp, "submitted"));
      return Ok(AnalysisSubmitted(analysisId));
    }

    method ExecuteProposeRootCause(p: Primitives, tx: Transaction) returns (outcome: Result<ExecResult, string>)
      requires worldState.Valid()
      modifies worldState
      ensures worldState.Valid()
      ensures var r := ExecProposeRootCause(old(worldState.state), p, tx);
        && (r.Ok? ==> outcome == Ok(r.value.1) && worldState.state == r.value.0)
        && (r.Err? ==> outcome == Err(r.error) && worldState.state == old(worldState.state))
    {
      if "proposal_content" !in tx.data {
        return Err("KeyError");
      }
      var content := tx.data["proposal_content"];
      var proposalId := ContentId(p, tx, content);
      worldState.AddRootCauseProposal(tx.sender, proposalId, Proposal(tx.sender, content, tx.timestamp, EmptyTally));
      return Ok(RootCauseRecorded(proposalId));
    }

    method ExecuteVote(tx: Transaction) returns (outcome: Result<ExecResult, string>)
      requires worldState.Valid()
      modifies worldState
      ensures worldState.Valid()
      ensures var r := ExecVote(old(worldState.state), tx);
        && (r.Ok? ==> outcome == Ok(r.value.1) && worldState.state == r.value.0)
        && (r.Err? ==> outcome == Err(r.error) && worldState.state == old(worldState.state))
    {
      if "proposal_id" !in tx.data || "vote_option" !in tx.data {
        return Err("KeyError");
      }
      if !tx.data["vote_option"].Str? {
        return Err("AttributeError");
      }
      var proposalId := tx.data["proposal_id"];
      var option := PyStr.Lower(tx.data["vote_option"].s);
      if !ValidOption(option) {
        return Err(BadOption);
      }
      var holder: Option<string> := None;
      if proposalId.Str? {
        holder := LastHolder(worldState.state, proposalId.s);
      }
      if holder.None? {
        return Err("Proposal " + Show(proposalId) + " not found");
      }
      var id := proposalId.s;
      worldState.AddVote(tx.sender, id, VoteRecord(id, option, None, tx.timestamp));
      var owner := worldState.state.accounts[holder.value];
      var proposal := owner.rootCauseProposals[id];
      proposal := proposal.(votes := AddToTally(proposal.votes, option, 1.0));
      worldState.StoreAccount(holder.value, owner.(rootCauseProposals := owner.rootCauseProposals[id := proposal]));
      return Ok(VoteCast(id, option));
    }

    method ExecuteTransfer(tx: Transaction) returns (outcome: Result<ExecResult, string>)
      requires worldState.Valid()
      modifies worldState
      ensures worldState.Valid()
      ensures var r := ExecTransfer(old(worldState.state), tx);
        && (r.Ok? ==> outcome == Ok(r.value.1) && worldState.state == r.value.0)
        && (r.Err? ==> outcome == Err(r.error) && worldState.state == old(worldState.state))
    {
      if "to" !in tx.data || "amount" !in tx.data {
        return Err("KeyError");
      }
      if !tx.data["to"].Str? || !tx.data["amount"].Int? {
        return Err("TypeError");
      }
      var to := tx.data["to"].s;
      var amount := tx.data["amount"].i;
      var success := worldState.TransferBalance(tx.sender, to, amount);
      if !success {
        return Err("Transfer failed due to insufficient balance");
      }
      return Ok(TransferDone(to, amount));
    }

    method ExecuteStake(tx: Transaction) returns (outcome: Result<ExecResult, string>)
      requires worldState.Valid()
      modifies worldState
      ensures worldState.Valid()
      ensures var r := ExecStake(old(worldState.state), tx);
        && (r.Ok? ==> outcome == Ok(r.value.1) && worldState.state == r.value.0)
        && (r.Err? ==> outcome == Err(r.error) && worldState.state == old(worldState.state))
    {
      if "amount" !in tx.data {
        return Err("KeyError");
      }
      if !tx.data["amount"].Int? {
        return Err("TypeError");
      }
      var amount := tx.data["amount"].i;
      var account := worldState.GetAccount(tx.sender);
      if account.None? || account.value.balance < amount {
        return Err("Insufficient balance for staking");
      }
      var a := account.value;
      a := a.(balance := a.balance - amount);
      a := a.(stakedAmount := a.stakedAmount + amount);
      worldState.StoreAccount(tx.sender, a);
      return Ok(StakeDone(amount));
    }
  }
}
