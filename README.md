# mABC core in Dafny

mABC is a multi-agent root-cause-analysis system in which LLM agents propose,
vote on and settle the root cause of a microservice incident through a small,
deterministic blockchain. This project models the deterministic core of that
system and proves properties of the model:

- the ledger records (`Types`) and the Merkle tree over a block's transactions
  (`Merkle`), the main chain with its genesis block, block acceptance and chain
  validity, and the public-key registry (`Chain`);
- the read side of the explorer API: block windows, block and transaction lookup,
  and the Merkle audit path with its verification fold (`Explorer`);
- the world state of accounts, balances, nonces, votes and proposals (`State`);
- the token contract: transfer, stake, slash, reward, penalty and reputation
  clamping (`Token`);
- the governance contract: the weight formula, the weighted tally and the
  consensus check (`Governance`);
- the SOP state machine Init → Data_Collected → Root_Cause_Proposed →
  (Consensus →) Solution with its event log (`Ops`);
- the transaction executor: validation, gas charge and refund, nonce increment
  and the five transaction payloads (`Vm`);
- the agent runners: the ReAct reply parser, the bounded reasoning loop, the poll
  and vote parsers and the weighted vote of `ThreeHotCotRun` (`AgentRun`), and the
  on-chain voting executor `DAOExecutor` (`DaoRun`);
- the tool-signature formatter (`GenerateTools`), the historical-case matcher
  (`SolutionCases`) and the final-answer extraction (`FinalAnswer`).

Code that updates state in place is modelled as classes whose methods state their
new state in terms of specification functions: `Blockchain`, `PublicKeyRegistry`,
`WorldState`, `TokenContract`, `GovernanceContract`, `OpsSopContract`,
`StateProcessor` and `DaoExecutor`. Loops are methods with invariants, proved against
those functions; the string parsers are functions over `seq<char>` with the Python
string operations they use written out in `PyStr`. Python's `None` is `Option`, a
raised exception is `Result.Err` or an error value beside the state.

## Model

| member | source | states |
|---|---|---|
| Types.HexRoundTrip | mABC/core/types.py:71 | decoding the lower-case hex text of any byte string gives the bytes back, so the digest text carries the digest exactly |
| Types.CalculateHash | mABC/core/types.py:61-71 | the hash is 64 lower-case hex characters that decode to the SHA-256 digest of the text |
| Types.GenerateAddress | mABC/core/types.py:114-128 | the address is 40 hex characters that decode to the first 20 bytes of SHA-256 of the public key |
| Types.AddToTally | mABC/contracts/governance_contract.py:80-81 | adding a weight to one ballot option moves that counter by the weight and leaves the other two alone, so the tally's sum grows by the weight |
| Types.NewAccount | mABC/core/types.py:49-58 | a fresh account has zero balance, stake and nonce, reputation 100 and no proposals, votes or analyses |
| Types.Leaves | mABC/core/types.py:88-93 | one leaf per transaction, in block order, each the hash of that transaction's sorted-items text |
| Merkle.Pad | mABC/core/types.py:99-101 | an odd level gets its last node appended again; the padded level is even and starts with the original level |
| Merkle.Pairs | mABC/core/types.py:104-109 | node `k` of the next level is the hash of nodes `2k` and `2k+1` written one after the other |
| Merkle.NextLevel | mABC/core/types.py:98-109 | one round halves the level, rounding up |
| Merkle.GetMerkleRoot | mABC/core/types.py:74-111 | the loop returns the root of the leaf hashes: `hash("")` for no transaction, the leaf itself for one |
| Merkle.HashLevel | mABC/core/types.py:99-109 | one pass of the loop body computes exactly the next level |
| Merkle.OddLevelPadding | mABC/core/types.py:99-101 | duplicating the last node of an odd level does not change the root it leads to |
| Merkle.LevelsAgree | frontend/api_server.py:202-210 | the explorer's level construction, which hashes a lone node with itself, equals the padding construction of `get_merkle_root` |
| Merkle.StepAt | frontend/api_server.py:188-200 | a node records one sibling, except the unpaired last node of an odd level, which records none |
| Merkle.ProofPathSplit | frontend/api_server.py:187-211 | the path of a node is its own level's entry followed by the path of its parent |
| Merkle.FoldConcat | frontend/api_server.py:213-221 | folding a path is folding its first entry, then the rest |
| Merkle.StepGivesParent | frontend/api_server.py:188-221 | applying a recorded sibling to a node gives its parent in the next level |
| Merkle.PairedPathVerifies | frontend/api_server.py:163-228 | when the target is never the unpaired last node, folding its path gives the root |
| Merkle.PowerOfTwoAlwaysPaired | frontend/api_server.py:188-200 | with a power-of-two number of leaves no node on the way up is unpaired |
| Merkle.PowerOfTwoPathVerifies | frontend/api_server.py:163-228 | every leaf of a power-of-two tree verifies against the Merkle root |
| Merkle.SingleLeafPath | frontend/api_server.py:187-221 | a one-leaf tree has an empty path and its leaf is its root |
| Merkle.ThreeLeafLevels | frontend/api_server.py:202-210 | the levels above three leaves `a`, `b`, `c` are `h(ab)`, `h(cc)` and then their parent |
| Merkle.UnpairedLeafPath | frontend/api_server.py:188-200 | the lone third leaf of three records only its left uncle |
| Merkle.UnpairedLeafRoot | mABC/core/types.py:98-111 | the root of three leaves hashes the lone leaf with itself |
| Merkle.UnpairedLeafFailsToVerify | frontend/api_server.py:188-221 | for the third of three leaves the fold of the recorded path differs from the root, so `verified` is false |
| Merkle.StepAtFixed | frontend/api_server.py:188-200 | the corrected step always records exactly one sibling: the node itself when it is unpaired |
| Merkle.FixedStepGivesParent | frontend/api_server.py:188-210 | the corrected step applied to any node gives its parent in the next level |
| Merkle.FixedPathVerifies | frontend/api_server.py:163-228 | with the corrected step every leaf of every tree verifies against the root |
| Merkle.FixedAgreesWhenPaired | frontend/api_server.py:188-200 | the corrected path equals the recorded one whenever the target is never unpaired |
| Chain.HeaderHash | mABC/core/blockchain.py:70-83 | the block hash is a 64-character hex digest of the header's JSON |
| Chain.CalculateBlockHash | mABC/core/blockchain.py:70-83 | a block's hash depends on its header only |
| Chain.Genesis | mABC/core/blockchain.py:50-68 | the genesis block has index 0, nonce 0, an all-zero previous hash, no transactions, the root of no transactions and its own header hash |
| Chain.GenesisChainValid | mABC/core/blockchain.py:125-153 | a chain holding only the genesis block is valid |
| Chain.AppendKeepsValid | mABC/core/blockchain.py:96-114 | appending a block that passes `add_block`'s three checks keeps a valid chain valid |
| Chain.PrefixValid | mABC/core/blockchain.py:133-153 | every prefix of a valid chain is valid |
| Chain.IndexNotChecked | mABC/core/blockchain.py:96-110 | `add_block` never checks the header's index: an accepted block with any other index in a consistently rehashed header links just as well |
| Chain.TransactionsBoundOnlyByRoot | mABC/core/blockchain.py:107-110 | two transaction lists with the same Merkle root are interchangeable for `add_block` |
| Chain.Blockchain.constructor | mABC/core/blockchain.py:46-68 | a new chain holds exactly the genesis block |
| Chain.Blockchain.AddBlock | mABC/core/blockchain.py:85-114 | the block is appended exactly when previous hash, block hash and Merkle root all check out; otherwise the chain is unchanged |
| Chain.Blockchain.GetLatestBlock | mABC/core/blockchain.py:116-123 | the last block of the chain |
| Chain.Blockchain.IsValidChain | mABC/core/blockchain.py:125-153 | the walk returns true exactly when every block after the first passes the three checks against its predecessor |
| Chain.Lookup | mABC/core/blockchain.py:29-40 | the registered key, and `None` exactly for an unregistered address |
| Chain.RegisterThenGet | mABC/core/blockchain.py:19-40 | after registering a key, lookups return it for that address and are unchanged for every other |
| Chain.PublicKeyRegistry.constructor | mABC/core/blockchain.py:16 | the registry starts empty |
| Chain.PublicKeyRegistry.RegisterPublicKey | mABC/core/blockchain.py:19-27 | the key is stored for the address, replacing any earlier one |
| Chain.PublicKeyRegistry.GetPublicKey | mABC/core/blockchain.py:29-40 | the key for the address, or `None` when none is registered |
| Explorer.ViewOf | frontend/api_server.py:74-93 | the listed block carries the header fields, one entry per transaction with the endpoint's hash, and a transaction count equal to the list's length |
| Explorer.BuildView | frontend/api_server.py:74-93 | the per-transaction loop builds exactly that listing |
| Explorer.GetBlocks | frontend/api_server.py:64-96 | one listing per block of the `chain[start:end]` window, in order |
| Explorer.WindowInRange | frontend/api_server.py:69-71 | a positive limit and an in-range offset select the blocks from the offset up to the limit, clipped at the end of the chain |
| Explorer.ZeroLimitMeansAll | frontend/api_server.py:69-71 | a limit of 0 is falsy and lists everything from the offset, exactly as no limit |
| Explorer.NegativeOffsetFromEnd | frontend/api_server.py:69-71 | an offset of -1 without a limit lists only the last block, as Python slicing counts from the end |
| Explorer.GetBlock | frontend/api_server.py:98-126 | an index outside the chain is "Block not found"; otherwise the block's listing with the JSON transaction hash |
| Explorer.GetBlockHashDiffers | frontend/api_server.py:109 | whenever the two serialisations hash differently, `get_block` reports a transaction hash that is not the one `get_blocks` and the Merkle tree use |
| Explorer.FirstMatch | frontend/api_server.py:131-142 | the earliest position in chain order whose transaction hash matches, or none when no transaction matches |
| Explorer.FirstInBlock | frontend/api_server.py:134-142 | the earliest matching transaction of one block at or after a position |
| Explorer.GetTransaction | frontend/api_server.py:128-148 | the first matching transaction with its block index and block hash, or "Transaction not found" exactly when none matches |
| Explorer.FirstMatchIs | frontend/api_server.py:131-142 | a match with none before it in chain order is the one returned |
| Explorer.FirstMatchNone | frontend/api_server.py:144 | when no transaction matches the search finds nothing |
| Explorer.GetMerkleProof | frontend/api_server.py:163-228 | a response is given exactly when both indices are in range, out-of-range block and transaction indices being the two not-found errors; the response holds the target hash, the recorded path, the block's root and whether the fold reached it |
| Explorer.BuildProofPath | frontend/api_server.py:183-211 | the loop records exactly the path of the target leaf |
| Explorer.AddSibling | frontend/api_server.py:188-200 | an even index records its right neighbour when there is one, an odd index its left neighbour |
| Explorer.CombineLevel | frontend/api_server.py:202-210 | the inner loop builds exactly the next level, a lone node hashed with itself |
| Explorer.HashPairAt | frontend/api_server.py:203-209 | the parent of the node at `i` and its neighbour, or of the node with itself |
| Explorer.FoldProof | frontend/api_server.py:213-221 | the second loop folds the path: a left sibling before the running hash, a right one after |
| Explorer.ProofVerifiesForPowerOfTwo | frontend/api_server.py:163-228 | for a block `add_block` accepts with a power-of-two number of transactions, every transaction's proof verifies |
| State.Get | mABC/core/state.py:47-49 | the stored account, and `None` exactly for an unknown address |
| State.Create | mABC/core/state.py:51-56 | an existing account is returned and the state unchanged; otherwise a fresh account is stored under the address and returned |
| State.Ensure | mABC/core/state.py:51-56 | after `create_account` the address holds an account |
| State.BalanceOf | mABC/core/state.py:63-66 | the stored balance, 0 for an unknown address |
| State.ProposalVotes | mABC/core/state.py:130-136 | exactly the accounts holding a vote on the proposal, each mapped to that vote |
| State.PutTotal | mABC/core/state.py:58-61 | replacing an account changes the total balance by the change of its balance |
| State.PutValid | mABC/core/state.py:58-61 | `update_account` keeps every stored address listed once in insertion order |
| State.EnsureValid | mABC/core/state.py:51-56 | `create_account` keeps the state well formed and every stored account as it was |
| State.EnsureListed | mABC/core/state.py:51-56 | `create_account` lists the address once and keeps the total balance |
| State.CreateIdempotent | mABC/core/state.py:51-56 | creating twice is creating once: the second call returns the same account and state |
| State.TransferRefusal | mABC/core/state.py:68-74 | a transfer is refused exactly when the sender is missing or holds less than the amount, and a refused transfer changes nothing |
| State.TransferMoves | mABC/core/state.py:76-84 | a successful transfer debits the sender and credits the recipient (created if missing) by the amount; a self-transfer leaves the balance as it was |
| State.TransferFrames | mABC/core/state.py:68-84 | a transfer leaves every other account as it was |
| State.DebitCreditSum | mABC/core/state.py:79-80 | debiting one account and crediting another by the same amount keeps the total balance |
| State.TransferConserves | mABC/core/state.py:68-84 | a transfer keeps the total balance of the world state |
| State.TransferKeepsValid | mABC/core/state.py:68-84 | a transfer keeps the world state well formed |
| State.TransferNegativeAmount | mABC/core/state.py:73 | there is no sign check: a negative amount is accepted and moves value from the recipient to the sender |
| State.IncrementNonceStep | mABC/core/state.py:86-94 | the nonce rises by exactly one (to 1 for a new account), the new nonce is returned and nothing else changes |
| State.AddVoteOverwrites | mABC/core/state.py:105-112 | the voter's vote on the proposal is replaced and the voter's other votes are kept |
| State.AddVoteLastWins | mABC/core/state.py:105-112 | voting twice on one proposal leaves only the second vote |
| State.VoteThenQuery | mABC/core/state.py:105-136 | after `add_vote`, `get_proposal_votes` returns the new vote for that voter |
| State.ProposalsUpToHas | mABC/core/state.py:123-128 | a proposal id is merged exactly when one of the accounts seen so far holds it |
| State.ProposalsUpToLastWins | mABC/core/state.py:125-127 | where several accounts hold one id, the last account in insertion order wins |
| State.AllProposalsUnion | mABC/core/state.py:123-128 | `get_all_proposals` holds exactly the ids some account holds |
| State.WorldState.constructor | mABC/core/state.py:26-37 | a new world state is empty |
| State.WorldState.GetAccount | mABC/core/state.py:47-49 | the stored account, or `None` |
| State.WorldState.CreateAccount | mABC/core/state.py:51-56 | the state and the returned account are those of `create_account` on the old state |
| State.WorldState.UpdateAccount | mABC/core/state.py:58-61 | the account is stored under its own address |
| State.WorldState.GetBalance | mABC/core/state.py:63-66 | the stored balance, 0 for an unknown address |
| State.WorldState.TransferBalance | mABC/core/state.py:68-84 | the new state and the verdict are those of `transfer_balance` on the old state |
| State.WorldState.MoveBalance | mABC/core/state.py:79-83 | the debit and the credit made on the stored account objects, the recipient re-read after the debit |
| State.WorldState.IncrementNonce | mABC/core/state.py:86-94 | the new state and the returned nonce are those of `increment_nonce` |
| State.WorldState.AddRootCauseProposal | mABC/core/state.py:96-103 | the proposal is stored under its id in the proposer's account, created if needed |
| State.WorldState.AddVote | mABC/core/state.py:105-112 | the vote is stored under the proposal id in the voter's account, created if needed |
| State.WorldState.AddAnalysis | mABC/core/state.py:114-121 | the analysis is stored under its id in the submitter's account, created if needed |
| State.ProposalAddedStores | mABC/core/state.py:96-103 | the proposal is stored under its id in the proposer's account (created if needed), the state stays well formed, and every other field and account is unchanged |
| State.AnalysisAddedStores | mABC/core/state.py:114-121 | the analysis is stored under its id in the proposer's account (created if needed), the state stays well formed, and every other field and account is unchanged |
| State.WorldState.GetAllProposals | mABC/core/state.py:123-128 | the merge of every account's proposals in insertion order; an id is present exactly when some account holds it |
| State.WorldState.GetProposalVotes | mABC/core/state.py:130-136 | the loop collects exactly every account's vote on the proposal |
| Token.Clamp | mABC/contracts/token_contract.py:116 | the reputation is kept inside [0, 100]: values inside are unchanged, values below become 0 and above 100 |
| Token.TransferOutcome | mABC/contracts/token_contract.py:13-38 | the transfer succeeds exactly when the recipient is given and non-empty, the amount is present and non-negative, and the sender exists with enough balance; a refusal changes nothing and a success is the world state's transfer |
| Token.StakeOutcome | mABC/contracts/token_contract.py:40-59 | staking succeeds exactly for a present, non-negative amount the existing sender can cover; a refusal changes nothing |
| Token.SlashOutcome | mABC/contracts/token_contract.py:61-85 | slashing succeeds exactly for a given target that exists and a present, non-negative amount; a refusal changes nothing |
| Token.RewardOutcome | mABC/contracts/token_contract.py:87-98 | a missing or empty target is refused with no change |
| Token.Paid | mABC/contracts/token_contract.py:108-112 | the payment leaves the target stored |
| Token.PenaltyDebit | mABC/contracts/token_contract.py:140 | the debit is `min(amount, max(0, balance))`: never more than the amount, the whole amount when the balance covers it, the balance when it does not, 0 for a negative balance |
| Token.PenaltyOutcome | mABC/contracts/token_contract.py:122-137 | the penalty succeeds exactly for a given, existing target and a non-negative amount (absent counts as 0); a refusal changes nothing |
| Token.Penalize | mABC/contracts/token_contract.py:150-154 | the target stays stored after the balance moves |
| Token.TransferMovesAndConserves | mABC/contracts/token_contract.py:25-38 | a successful transfer creates the recipient if needed, moves the amount from sender to recipient and keeps the total balance |
| Token.StakeMoves | mABC/contracts/token_contract.py:51-59 | a successful stake moves the amount from the sender's balance to its stake, keeping their sum, and changes no other account |
| Token.SlashBounds | mABC/contracts/token_contract.py:73-85 | a successful slash leaves the target's stake at `max(0, stake - amount)`, changes no balance and keeps the total balance: the slashed tokens are credited to no one |
| Token.RewardCreatesFirst | mABC/contracts/token_contract.py:100-110 | both sender and target are created before the payment is checked, so they exist even after a refusal; the refusal happens exactly for a positive amount the sender cannot cover |
| Token.RewardMoves | mABC/contracts/token_contract.py:108-112 | only a positive amount moves: the sender loses and the target gains exactly that much, and otherwise no balance changes |
| Token.ReputationClamped | mABC/contracts/token_contract.py:113-116 | after a successful reward or penalty with a non-zero reputation change, the target's reputation lies in [0, 100] |
| Token.AdjustReputationKeepsBalances | mABC/contracts/token_contract.py:113-116 | a reputation change moves no token and keeps the set of accounts |
| Token.RewardConserves | mABC/contracts/token_contract.py:87-120 | a reward, refused or not, keeps the total balance |
| Token.PaidConserves | mABC/contracts/token_contract.py:108-112 | the payment of a reward keeps the total balance |
| Token.PenalizeMoves | mABC/contracts/token_contract.py:150-154 | the target loses the debit; a treasury gains it and the total is kept, and without one the total falls by the debit |
| Token.CreditTotal | mABC/contracts/token_contract.py:153-154 | crediting the treasury raises the total balance by the amount |
| Token.PenaltyMoves | mABC/contracts/token_contract.py:122-162 | a successful penalty takes `min(amount, max(0, balance))` from the target; with a treasury the total is kept, without one the tokens are burned |
| Token.TokenContract.constructor | mABC/contracts/token_contract.py:10-11 | the contract works on the given world state |
| Token.TokenContract.Transfer | mABC/contracts/token_contract.py:13-38 | the new world state and verdict are those of `TransferOutcome` |
| Token.TokenContract.Stake | mABC/contracts/token_contract.py:40-59 | the new world state and verdict are those of `StakeOutcome` |
| Token.TokenContract.Slash | mABC/contracts/token_contract.py:61-85 | the new world state and verdict are those of `SlashOutcome` |
| Token.TokenContract.Reward | mABC/contracts/token_contract.py:87-120 | the new world state and verdict are those of `RewardOutcome` |
| Token.TokenContract.Penalty | mABC/contracts/token_contract.py:122-162 | the new world state and verdict are those of `PenaltyOutcome` |
| Token.TokenContract.AdjustTargetReputation | mABC/contracts/token_contract.py:113-116 | the target's reputation becomes the clamped sum, the store is otherwise unchanged |
| Token.TokenContract.PenalizeBalances | mABC/contracts/token_contract.py:150-154 | the debit of the target and the credit of the treasury, on the stored objects |
| Governance.Weight | mABC/contracts/governance_contract.py:61-68 | a voter with a non-negative stake weighs at least 1 |
| Governance.WeightMonotone | mABC/contracts/governance_contract.py:66-68 | more reputation and more stake never give less weight |
| Governance.HolderIn | mABC/contracts/governance_contract.py:28-34 | the search stops at an account that holds the proposal, and finds none only when no listed account holds it |
| Governance.HolderSame | mABC/contracts/governance_contract.py:30-34 | the holder found depends only on which accounts hold the proposal |
| Governance.Seeded | mABC/contracts/governance_contract.py:36-54 | after the search or the auto-creation, the chosen account holds the proposal |
| Governance.Voted | mABC/contracts/governance_contract.py:13-25 | a vote is accepted exactly when the lower-cased option is "for", "against" or "abstain"; a rejected vote changes nothing |
| Governance.AutoCreated | mABC/contracts/governance_contract.py:36-54 | a vote on an unknown proposal creates it on the voter's account with the voter as proposer, the fixed content and the voter's weight alone on the chosen option |
| Governance.AutoVoteFrame | mABC/contracts/governance_contract.py:36-86 | a vote on an unknown proposal touches only the voter's account, created if needed |
| Governance.VoteRecorded | mABC/contracts/governance_contract.py:56-86 | an accepted vote replaces the voter's record with option, weight and time, and adds the weight to the tally of the proposal held by its first holder |
| Governance.RepeatedVoteCountedTwice | mABC/contracts/governance_contract.py:77-86 | voting twice keeps only the second record, yet the tally grows by the weight on each call |
| Governance.Decision | mABC/contracts/governance_contract.py:100-130 | the proposal passes exactly when the "for" tally exceeds half the participants' weight, and is rejected exactly when it does not and the "against" tally does |
| Governance.SingleParticipant | mABC/contracts/governance_contract.py:104-110 | with one participant the summed weight is that participant's weight |
| Governance.OnlyVoterParticipates | mABC/contracts/governance_contract.py:104-110 | after the first vote on an unknown proposal the voter is its only participant |
| Governance.FirstForVotePasses | mABC/contracts/governance_contract.py:80-119 | the voter counts among the participants, so the first "for" vote on a proposal nobody has voted on passes it at once |
| Governance.GovernanceContract.constructor | mABC/contracts/governance_contract.py:10-11 | the contract works on the given world state and SOP contract |
| Governance.GovernanceContract.Vote | mABC/contracts/governance_contract.py:13-91 | the world state and result are those of `Voted`; an accepted vote then settles the SOP storage by the consensus decision |
| Governance.GovernanceContract.FindProposal | mABC/contracts/governance_contract.py:28-34 | the loop returns the first holder in insertion order |
| Governance.GovernanceContract.CheckConsensus | mABC/contracts/governance_contract.py:93-130 | the SOP storage is advanced by the decision, and an error from the SOP contract is swallowed |
| Ops.SubmitData | mABC/contracts/ops_contract.py:59-62 | a submission succeeds exactly in Init; outside Init it raises and changes nothing |
| Ops.ProposalIdFor | mABC/contracts/ops_contract.py:85 | the proposal id is 64 hex characters |
| Ops.Propose | mABC/contracts/ops_contract.py:80-83 | a proposal succeeds exactly in Data_Collected; otherwise it raises and changes nothing |
| Ops.Advance | mABC/contracts/ops_contract.py:114-123 | outside Root_Cause_Proposed, or for another proposal than the current one, the call raises and changes nothing |
| Ops.EventsTail | mABC/contracts/ops_contract.py:153-154 | the tail never holds more events than the log |
| Ops.CurrentProposal | mABC/contracts/ops_contract.py:156-158 | the current proposal when its id is set and stored, `None` otherwise |
| Ops.SubmitEffect | mABC/contracts/ops_contract.py:64-76 | a submission in Init moves to Data_Collected, records submitter, summary, raw data (`{}` when absent) and time, and logs one DataCollected event |
| Ops.ProposeEffect | mABC/contracts/ops_contract.py:85-104 | a proposal is stored as pending under its fresh id, becomes the current proposal, moves the state to Root_Cause_Proposed and logs one RootCauseProposed event |
| Ops.AdvanceGuard | mABC/contracts/ops_contract.py:119-123 | on a well-formed storage the call succeeds exactly in Root_Cause_Proposed for the current proposal, and a failed call changes nothing |
| Ops.AdvancePassed | mABC/contracts/ops_contract.py:125-136 | a passed proposal ends in Solution, logging ConsensusReached and then SolutionPhaseEntered with the proposal's content |
| Ops.AdvanceRejected | mABC/contracts/ops_contract.py:137-146 | a rejected proposal returns to Data_Collected with no current proposal, logging ConsensusReached and then ProposalRejected with its proposer |
| Ops.NoDoubleSettlement | mABC/contracts/ops_contract.py:119-123 | once a proposal is settled, settling it again raises |
| Ops.RejectionReopens | mABC/contracts/ops_contract.py:137-140 | after a rejection a new root cause can be proposed |
| Ops.TransitionsKeepValid | mABC/contracts/ops_contract.py:34-146 | the initial storage and every transition keep the current proposal stored |
| Ops.Lifecycle | mABC/contracts/ops_contract.py:59-146 | from a fresh storage, data collection, a proposal and a passed consensus reach Solution with four events logged |
| Ops.EventsTailCases | mABC/contracts/ops_contract.py:153-154 | `events[-limit:]` is everything for a limit of 0 or at least the log's length, the last `limit` events for a smaller positive limit, and Python's count-from-the-end slice for a negative one |
| Ops.Step | mABC/contracts/ops_contract.py:59-146 | one call appends at most two events and keeps the earlier ones |
| Ops.EventsOnlyGrow | mABC/contracts/ops_contract.py:45-55 | the event log only grows: any sequence of calls keeps the earlier events as a prefix |
| Ops.OpsSopContract.constructor | mABC/contracts/ops_contract.py:34-43 | the storage starts in Init with no incident, proposal or event |
| Ops.OpsSopContract.EmitEvent | mABC/contracts/ops_contract.py:45-55 | the event is appended to the log |
| Ops.OpsSopContract.SubmitDataCollection | mABC/contracts/ops_contract.py:59-78 | the new storage and the error are those of `SubmitData` |
| Ops.OpsSopContract.ProposeRootCause | mABC/contracts/ops_contract.py:80-110 | the new storage and the error are those of `Propose`, and a success returns the fresh id |
| Ops.OpsSopContract.AdvanceToConsensusPhase | mABC/contracts/ops_contract.py:114-146 | the new storage and the error are those of `Advance` |
| Ops.OpsSopContract.GetCurrentState | mABC/contracts/ops_contract.py:150-151 | the current state |
| Ops.OpsSopContract.GetEvents | mABC/contracts/ops_contract.py:153-154 | the tail of the log |
| Ops.OpsSopContract.GetCurrentProposal | mABC/contracts/ops_contract.py:156-158 | the current proposal, or `None` |
| Ops.OpsSopContract.GetIncidentData | mABC/contracts/ops_contract.py:160-161 | the recorded incident |
| Ops.OpsSopContract.ResetForTesting | mABC/contracts/ops_contract.py:163-170 | every entry goes back to its initial value |
| Vm.HashTransaction | mABC/core/vm.py:119-124 | the transaction hash is 64 hex characters |
| Vm.HashIgnoresSignature | mABC/core/vm.py:121-123 | the hash leaves the signature out: re-signing a transaction keeps its hash |
| Vm.Validate | mABC/core/vm.py:164-201 | a valid transaction has a gas limit of at least 21000, an accepted signature and the data keys its type needs; a known sender also has the expected nonce and can pay `gas_price * gas_limit` |
| Vm.ValidateChecks | mABC/core/vm.py:166-182 | the checks run in the source's order: a wrong nonce of a known sender is reported first, a low gas limit and an unpayable fee are always refused, and an unknown sender skips the nonce and balance checks |
| Vm.ContentId | mABC/core/vm.py:205-207 | an analysis or proposal id is 64 hex characters |
| Vm.ExecSubmitAnalysis | mABC/core/vm.py:203-230 | the execution succeeds exactly when the data carries `analysis_content` |
| Vm.ExecProposeRootCause | mABC/core/vm.py:232-255 | the execution succeeds exactly when the data carries `proposal_content` |
| Vm.LastHolderIn | mABC/core/state.py:123-128 | the account chosen holds the proposal, and none is chosen only when no listed account holds it |
| Vm.LastHolderIndex | mABC/core/state.py:125-127 | the chosen account sits at an index after which no listed account holds the proposal |
| Vm.VoteTargetsMergedProposal | mABC/core/vm.py:268-283 | the proposal a vote transaction finds in `get_all_proposals` is the one held by the last holder in insertion order, and it is found exactly when some account holds it |
| Vm.VoteAddsOne | mABC/core/vm.py:257-289 | a vote transaction replaces the voter's record, unweighted, but always adds one to the option's count on the found proposal |
| Vm.ExecTransfer | mABC/core/vm.py:291-305 | a successful transfer transaction carries a text recipient and an integer amount, and its effect is the world state's transfer |
| Vm.ExecStake | mABC/core/vm.py:307-329 | staking succeeds exactly for an integer amount the existing sender can cover, whatever its sign |
| Vm.StakeKeepsHoldings | mABC/core/vm.py:317-324 | staking keeps the sum of balance and staked amount |
| Vm.Execute | mABC/core/vm.py:84-96 | an unknown transaction type raises "Unknown transaction type" |
| Vm.PayloadKeepsSender | mABC/core/vm.py:203-289 | a successful payload never changes the sender's nonce, and analysis, proposal and vote transactions leave the sender's balance as it was |
| Vm.Charged | mABC/core/vm.py:73-80 | the sender's account, created if absent, is charged the whole fee |
| Vm.Applied | mABC/core/vm.py:56-71 | the receipt carries the transaction hash; an invalid transaction changes nothing and uses no gas, and a valid one always reports 21000 gas used |
| Vm.AppliedOutcome | mABC/core/vm.py:73-117 | for a valid transaction the payload runs on the charged state; success raises the nonce, failure refunds part of the fee |
| Vm.SuccessCharges | mABC/core/vm.py:73-106 | a successful transaction costs its sender exactly `gas_price * gas_limit` plus what the payload moves, and raises the nonce by one |
| Vm.FailureCharges | mABC/core/vm.py:107-117 | a failed execution leaves the sender charged `self.gas_price * min_gas_limit`, 21000 whatever the transaction's gas price, and the nonce unchanged |
| Vm.UnknownSenderGoesNegative | mABC/core/vm.py:167-178 | the balance check is skipped for an unknown sender, so a first transaction that fails, or succeeds without moving tokens, leaves the new account in debt |
| Vm.FeeAtLeastLimit | mABC/core/vm.py:74 | a positive gas price charges at least the gas limit |
| Vm.StateProcessor.constructor | mABC/core/vm.py:52-54 | the executor works on the given world state |
| Vm.StateProcessor.ValidateTransaction | mABC/core/vm.py:164-201 | the verdict is that of `Validate`, and a refusal carries the source's message |
| Vm.StateProcessor.ApplyTransaction | mABC/core/vm.py:56-117 | the new world state and the receipt are those of `Applied` |
| Vm.StateProcessor.ChargeGas | mABC/core/vm.py:74-80 | the fee is taken from the sender's account, created if absent |
| Vm.StateProcessor.RefundGas | mABC/core/vm.py:108-110 | the fee above `gas_price * min_gas_limit` is given back |
| Vm.StateProcessor.ExecutePayload | mABC/core/vm.py:84-96 | a successful payload leaves the state of `Execute`; a raising one leaves the state untouched |
| Vm.StateProcessor.ExecuteSubmitAnalysis | mABC/core/vm.py:203-230 | the analysis is stored in the submitter's account under its id |
| Vm.StateProcessor.ExecuteProposeRootCause | mABC/core/vm.py:232-255 | the proposal, with all counts at zero, is stored in the proposer's account under its id |
| Vm.StateProcessor.ExecuteVote | mABC/core/vm.py:257-289 | the vote is recorded and the found proposal's count raised by one |
| Vm.StateProcessor.ExecuteTransfer | mABC/core/vm.py:291-305 | the world state's transfer, raising when it is refused |
| Vm.StateProcessor.ExecuteStake | mABC/core/vm.py:307-329 | the amount moves from the balance to the staked amount |
| AgentRun.ParseThought | mABC/agents/base/run.py:364-371 | a thought is read exactly when "Thought:" occurs; it is stripped and holds no "Thought:", "Action" or "Final Answer:" |
| AgentRun.Parse | mABC/agents/base/run.py:351-403 | the reply finishes exactly when "Final Answer:" occurs, acts exactly when it does not and both action markers do, and reasons again otherwise; each field is set exactly in its own state |
| AgentRun.ParseFieldsClean | mABC/agents/base/run.py:376-398 | the final answer, tool name and tool input are stripped and cut at the markers the source splits on |
| AgentRun.ParseFieldsOccur | mABC/agents/base/run.py:364-398 | every field `parse` extracts is text of the reply |
| AgentRun.MaxReasonLoops | mABC/agents/base/run.py:265-270 | the reasoning budget is 15 calls for a "Process Scheduler" role and 5 otherwise |
| AgentRun.MappedAt | mABC/agents/base/run.py:272-287 | the `k`-th parsed reply is the parse of the `k`-th reply |
| AgentRun.MappedAppend | mABC/agents/base/run.py:272-287 | parsing two runs of replies is parsing each in turn |
| AgentRun.ParsedAt | mABC/agents/base/run.py:283-285 | the `k`-th parsed reply is `parse` of the `k`-th reply |
| AgentRun.ParsedAllAppend | mABC/agents/base/run.py:272-287 | parsing more replies extends the parsed sequence |
| AgentRun.RunOneStep | mABC/agents/base/run.py:256-329 | the status and step record are those of the reasoning loop followed by the action, final answer or forced finish |
| AgentRun.ReasonLoopOutcome | mABC/agents/base/run.py:272-287 | the loop is forced to finish exactly when every reply within the budget is plain reasoning; otherwise it stops on the first reply that is not |
| AgentRun.ReasonLoopReadsBudget | mABC/agents/base/run.py:273-280 | replies past the budget are never read |
| AgentRun.OneStepReadsBudget | mABC/agents/base/run.py:265-280 | the model is asked at most `max_reason_loops` times per step |
| AgentRun.LoopFinishes | mABC/agents/base/run.py:272-287 | the loop never stops on a reasoning reply, and it ends in a finish exactly when the budget runs out or the first non-reasoning reply is a final answer |
| AgentRun.OneStepStatus | mABC/agents/base/run.py:256-329 | one step never returns the action state, and it finishes exactly when the budget runs out or the first non-reasoning reply is a final answer |
| AgentRun.ExtractedPoll | mABC/agents/base/run.py:128-130 | poll and reason are read exactly when "Poll:" and "Reason:" both occur; the poll is one stripped line of the reply |
| AgentRun.ParseInPoll | mABC/agents/base/run.py:122-137 | the reason is the extracted one; when "Yes" or "No" occurs the poll is one of them; otherwise the extraction is kept |
| AgentRun.PollValueOccurs | mABC/agents/base/run.py:131-136 | the poll is text of the reply, and a fallback "No" means "Yes" does not occur |
| AgentRun.ExtractedVote | mABC/agents/base/run.py:154-155 | the option is read exactly when "Option: " with its space occurs; it is one stripped line of the reply |
| AgentRun.ParseInVote | mABC/agents/base/run.py:150-163 | when any of the three options occurs the result is one of them; no result means "Option: " does not occur |
| AgentRun.VoteValueOccurs | mABC/agents/base/run.py:156-162 | the vote is text of the reply, and the fallback takes "For", then "Against", then "Abstain" |
| AgentRun.FirstCalled | mABC/agents/base/run.py:53-59 | the first element accepted, with none accepted before it; none when none is accepted |
| AgentRun.PollInTurn | mABC/agents/base/run.py:53-59 | the polling loop stops at the first agent that calls a vote |
| AgentRun.ThreeHotCotRun | mABC/agents/base/run.py:48-79 | the run's outcome is `ThreeHotCotOutcome`: True when voting is switched off, and otherwise the error the code as written raises |
| AgentRun.EnabledVoteNeverDecides | mABC/agents/base/run.py:61-78 | with voting switched on every call raises, whatever the replies and thresholds; without an initiator `vote_results` is unbound |
| AgentRun.AddVote | mABC/agents/base/run.py:73 | an agent's weight goes to its option and the tally's sum grows by that weight |
| AgentRun.OptionTally | mABC/agents/base/run.py:69-73 | when every vote is readable the three tallies add up to the total weight |
| AgentRun.PassesByWeight | mABC/agents/base/run.py:74-76 | over a positive total, the support and participation rates meet `alpha` and `beta` exactly when the weights meet `alpha` and `beta` times the total |
| AgentRun.RatioAtLeast | mABC/agents/base/run.py:74-76 | over a positive total a rate meets a threshold exactly when the weight meets the threshold times the total |
| AgentRun.CorrectedDecision | mABC/agents/base/run.py:64-76 | the corrected run, once an agent has called the vote, decides by the rate rule over a positive total |
| AgentRun.PositiveTotal | mABC/agents/base/run.py:51 | positive weights give a positive total |
| DaoRun.DaoParsePoll | mABC/agents/base/dao_run.py:239-256 | the poll is always "Yes" or "No", and the reason is the text after "Reason:" whenever both markers occur |
| DaoRun.PollParsersAgree | mABC/agents/base/dao_run.py:239-256 | `_parse_poll` equals `parse_in_poll` wherever that gives "Yes" or "No", and otherwise reads the poll as "No" |
| DaoRun.DaoExtractedVote | mABC/agents/base/dao_run.py:285-286 | an option is read exactly when "Option:" occurs in the reply, and the option read is text of the reply |
| DaoRun.DaoParseVote | mABC/agents/base/dao_run.py:281-299 | the vote is always one of "For", "Against", "Abstain" |
| DaoRun.VoteParsersAgree | mABC/agents/base/dao_run.py:281-299 | unless "Option:" occurs only without the following space, `_parse_vote` equals `parse_in_vote` whenever that yields a valid option and is "Abstain" otherwise |
| DaoRun.SameExtraction | mABC/agents/base/dao_run.py:285-286 | both parsers read the same option text when "Option: " occurs or "Option:" does not occur at all |
| DaoRun.FallbacksAgree | mABC/agents/base/dao_run.py:289-297 | with no valid stated option, both parsers agree up to the final default of `_parse_vote` |
| DaoRun.FallbackOnOption | mABC/agents/base/dao_run.py:289-293 | with no valid stated option, a reply mentioning "For" votes "For", else one mentioning "Against" votes "Against", in both parsers |
| DaoRun.FallbackToDefault | mABC/agents/base/dao_run.py:294-297 | with no valid stated option and neither "For" nor "Against" in the reply, `_parse_vote` gives "Abstain" |
| DaoRun.DaoVoteOccurs | mABC/agents/base/dao_run.py:281-299 | the option given is text of the reply or the default "Abstain" |
| DaoRun.Counted | mABC/agents/base/dao_run.py:101-105 | a vote the chain refused changes nothing; an accepted one adds the member's weight to the total |
| DaoRun.Tallied | mABC/agents/base/dao_run.py:88-108 | the weights of the three options always sum to the total weight |
| DaoRun.TalliedStep | mABC/agents/base/dao_run.py:91-105 | the tally of the first i+1 members is the tally of the first i with member i counted |
| DaoRun.UnminedVoteIgnored | mABC/agents/base/dao_run.py:97-105 | removing a member whose vote the chain refused leaves the tally unchanged, wherever it stood |
| DaoRun.NothingMinedZero | mABC/agents/base/dao_run.py:88-108 | when the chain took no vote the total weight is zero |
| DaoRun.NothingMinedFails | mABC/agents/base/dao_run.py:110-112 | once a vote is called, a run in which the chain took no vote rejects the proposal |
| DaoRun.DecisionByWeight | mABC/agents/base/dao_run.py:110-125 | once a vote is called and some vote with positive weight was taken, the total is positive and the result is the support and participation rule over the tallied weights |
| DaoRun.MinedPositive | mABC/agents/base/dao_run.py:101-105 | with positive weights the total is never negative, and is positive once any vote was taken |
| DaoRun.DaoExecutor.constructor | mABC/agents/base/dao_run.py:21-35 | the thresholds are the ones given and the proposal counter starts at zero |
| DaoRun.DaoExecutor.Run | mABC/agents/base/dao_run.py:37-132 | the result is the executor's decision (pass when voting is off or nobody calls the vote, fail with no accepted vote, otherwise the weighted rule), and the counter rises by one exactly when voting is on |
| DaoRun.CountVote | mABC/agents/base/dao_run.py:91-107 | one turn of the voting loop adds the member's weight to its option and to the total exactly when the chain took the vote |
| DaoRun.TallyVotes | mABC/agents/base/dao_run.py:88-108 | the loop computes the tally over all members |
| DaoRun.StakeGuard | mABC/agents/base/dao_run.py:312-320 | the stake transaction is sent exactly when 0 < amount <= balance |
| DaoRun.StakeTokens | mABC/agents/base/dao_run.py:301-335 | a non-positive amount succeeds without staking, and a balance below a positive amount fails |
| DaoRun.StakeGuardMatchesVm | mABC/agents/base/dao_run.py:312-320 | for a positive amount the guard lets the stake through exactly when the virtual machine's stake payload succeeds on the same world state |
| GenerateTools.Extracted | mABC/utils/generate_tools.py:13-17 | the tuple keeps the name and raw parameters, strips the return type, and takes the stripped `'''` docstring, or the `"""` one when that group is empty |
| GenerateTools.ExtractedAll | mABC/utils/generate_tools.py:11-18 | one tuple per match |
| GenerateTools.ExtractFunctions | mABC/utils/generate_tools.py:10-18 | the loop builds the tuples of all matches, in match order |
| GenerateTools.FormatEach | mABC/utils/generate_tools.py:26-32 | one formatted parameter per piece |
| GenerateTools.FormattedParameters | mABC/utils/generate_tools.py:25 | an empty parameter string gives no parameters; otherwise one per comma-separated piece |
| GenerateTools.FunctionText | mABC/utils/generate_tools.py:45 | the second component of the pair is the function name |
| GenerateTools.GetFunctionInfo | mABC/utils/generate_tools.py:21-45 | the text is the template filled with the formatted parameters joined by ", ", the return type or "None" when it is empty, and the docstring |
| GenerateTools.FormatParameters | mABC/utils/generate_tools.py:25-32 | an empty parameter string gives no pieces, otherwise each comma piece is formatted |
| GenerateTools.FormatPieces | mABC/utils/generate_tools.py:27-32 | the loop formats every piece, in order |
| GenerateTools.FormatEachStep | mABC/utils/generate_tools.py:27-32 | formatting one more piece appends its formatted form |
| GenerateTools.FormatOne | mABC/utils/generate_tools.py:29-32 | the body of the loop: the name and type around the first colon, both stripped, and "Any" for a missing type |
| GenerateTools.FormatEachAt | mABC/utils/generate_tools.py:27-32 | the k-th formatted parameter is the k-th piece formatted |
| GenerateTools.ToolPairs | mABC/utils/generate_tools.py:56 | one (text, name) pair per extracted function |
| GenerateTools.Firsts | mABC/utils/generate_tools.py:58 | one text per pair |
| GenerateTools.Seconds | mABC/utils/generate_tools.py:60 | one name per pair |
| GenerateTools.Names | mABC/utils/generate_tools.py:13 | one name per match |
| GenerateTools.ParameterRoundTrip | mABC/utils/generate_tools.py:29-32 | a parameter already written `name: type` is rendered unchanged |
| GenerateTools.BareParameter | mABC/utils/generate_tools.py:29-32 | a parameter without a type is given the type `Any` |
| GenerateTools.PartitionAt | mABC/utils/generate_tools.py:29 | `partition(':')` splits at the first colon |
| GenerateTools.StripPadded | mABC/utils/generate_tools.py:30-31 | stripping removes the space that ", " leaves before a name |
| GenerateTools.Unjoined | mABC/utils/generate_tools.py:63 | one stripped piece per comma-separated piece of the name list |
| GenerateTools.SplitAfterPlain | mABC/utils/generate_tools.py:63 | a comma-free prefix stays in the first piece of the split |
| GenerateTools.SplitJoinedHead | mABC/utils/generate_tools.py:63 | splitting names joined with ", " gives the first name, then the split of the rest behind a space |
| GenerateTools.SplitJoined | mABC/utils/generate_tools.py:63 | the split of joined plain names has one piece per name: the first name, then each other name behind a space |
| GenerateTools.UnjoinedAt | mABC/utils/generate_tools.py:63 | the k-th stripped piece of the joined names is the k-th name |
| GenerateTools.NamesRoundTrip | mABC/utils/generate_tools.py:63 | splitting the joined names at commas and stripping gives back the names |
| GenerateTools.SecondsAreNames | mABC/utils/generate_tools.py:54-60 | the names of the pairs are the matched function names, in file order |
| GenerateTools.NamesAt | mABC/utils/generate_tools.py:13 | the k-th name is the name of the k-th match |
| GenerateTools.Texts | mABC/utils/generate_tools.py:56-58 | one rendered text per match |
| GenerateTools.AgentToolListPrompt | mABC/utils/generate_tools.py:47-63 | the first value is the rendered texts of the matched functions concatenated in file order, the second their names joined with ", " |
| GenerateTools.TextsInOrder | mABC/utils/generate_tools.py:54-58 | the texts taken from the (text, name) pairs are the rendered texts of the matched functions, in file order |
| GenerateTools.PromptNames | mABC/utils/generate_tools.py:47-63 | the name list of the prompt gives back the matched function names in file order, when the names are plain |
| SolutionCases.Selected | mABC/agents/tools/solution_engineer_tools.py:27-29 | the selection is no longer than the cases, and each selected case is one of them and matches every criterion |
| SolutionCases.MatchesCriteria | mABC/agents/tools/solution_engineer_tools.py:37-54 | the loop answers True exactly when every criterion's key is in the case and its lower-cased value occurs in the case's lower-cased text, for the lower-casing `lower` that `str.lower()` performs |
| SolutionCases.QueryPreviousCases | mABC/agents/tools/solution_engineer_tools.py:18-35 | the result is the matching cases, in their original order |
| SolutionCases.EmptyCriteriaMatchAll | mABC/agents/tools/solution_engineer_tools.py:48-54 | empty criteria match every case |
| SolutionCases.MissingKeyFails | mABC/agents/tools/solution_engineer_tools.py:50-53 | a criterion whose key the case lacks makes the match fail |
| SolutionCases.CaseInsensitive | mABC/agents/tools/solution_engineer_tools.py:50 | replacing the value or the case's text by any text with the same lower-cased form does not change the outcome |
| SolutionCases.OrderIndependent | mABC/agents/tools/solution_engineer_tools.py:48-54 | criteria with the same members match the same cases, whatever their order and repetitions |
| SolutionCases.SelectedCounts | mABC/agents/tools/solution_engineer_tools.py:27-29 | each matching case is kept as often as it occurs, and no other case is kept |
| FinalAnswer.ExtractFinalAnswer | mABC/main/main.py:11-14 | without "Final Answer:" the text is returned unchanged; with it, the answer no longer holds the marker |
| FinalAnswer.AnswerFollowsLastMarker | mABC/main/main.py:12-13 | the answer is the stripped text after the last occurrence of "Final Answer:" |
| FinalAnswer.ExtractIdempotent | mABC/main/main.py:11-14 | extracting twice gives the same answer as extracting once |

## Left out

- SHA-256 (FIPS 180-4, section 6.2) and the serialisations `str(sorted(d.items()))` and `json.dumps(..., sort_keys=True)` are uninterpreted functions bundled in `Types.Primitives`; no property of the real hash, such as collision resistance, is assumed.
- ECDSA over secp256k1 (SEC 2, section 2.4.1): signature verification is a function parameter `verify` of the executor, and signing, key generation and `_sign_transaction` are not modelled.
- Clocks and fresh identifiers (`time.time()`, `datetime.now()`, proposal and event ids) are parameters; event ids and event timestamps of the SOP contract are not stored.
- Floating point: balances, weights and rates that the source computes with floats are exact `real`s or `int`s, so IEEE rounding is not modelled.
- The HTTP layer of the explorer (the web framework, CORS, status codes, `generate_test_data`) is reduced to the `ApiError` cases; the frontend components are presentation only and not modelled.
- The LLM calls (`llm_chat`, `qa`, `reason`, `check_and_summarize`), the prompt texts and the settings are not modelled: the model's replies are input strings, in the order they would be returned.
- AgentRun.RunOneStep: requires at least `max_reason_loops` replies to be supplied, since the replies are a finite input sequence rather than a live model; the recursion of `eval_and_run_one_step` and `ReActTotRun.run` around it, and `act_eval` (Python `eval`) that computes the observation, are not modelled.
- `ThreeHotCotRun.update_weights` draws from `uniform` and is not modelled; `_calculate_stake_amount` of the DAO executor is float arithmetic and is not modelled either.
- Building, signing and mining the vote and stake transactions of the DAO executor (`_create_and_submit_vote_transaction`, the `ChainClient` wrappers) are not modelled: whether the chain accepted each transaction is the input `voteMined` or `mined`.
- `Blockchain.add_transaction`, `mine_block`, `pending_transactions`, `_get_treasury_account` and `vm.execute_transaction` are referenced by the source but not defined in it; the treasury of `penalty` is an optional input.
- The two `Account` records (mABC/core/state.py with `staked_amount`, mABC/core/types.py with `stake` and `reputation`) are merged into one record carrying all the fields. The world state stores the mABC/core/state.py record, which has no `stake` or `reputation`, so as written `stake` and `slash` (mABC/contracts/token_contract.py:56, 78-81), the reputation updates of `reward` and `penalty` (token_contract.py:114-116, 158-159) and every governance `vote` (mABC/contracts/governance_contract.py:66-67) would raise AttributeError on a world-state account; the model follows the mABC/core/types.py fields instead and those calls succeed.
- PyStr.Lower: folds only the letters A-Z, not the full Unicode case mapping of `str.lower()`. It is used only where the lowered text is compared with "for", "against" or "abstain" (governance `vote`, the executor's vote payload), and no non-ASCII letter lowers into those words, so those checks are unaffected; `SolutionCases` takes the lower-casing as a parameter instead.
- The executor's error texts for a missing data key, a wrong-typed value and a missing attribute are the exception names "KeyError", "TypeError" and "AttributeError" rather than Python's `str(e)` (for a missing key, the quoted key, such as `'to'`), so the `error_message` of such receipts differs from the source's text.
- `extract_functions` matches with a regular expression; the tokenizer is left out and its matches, with their five groups, are the input of `GenerateTools.ExtractFunctions`. Reading the tool file is left out too.
- `query_previous_cases` reads its cases from a JSON file; the file reading and its two error paths, which return an empty list, are left out, and the cases are an input list.
- The driver loop of mABC/main/main.py, its file writes and the redirection of standard output are not modelled.
- The class-level storage of `OpsSopContract` and the class-level registry of `PublicKeyRegistry` are shared by every instance in the source; here one object plays that part, so sharing between several instances is not captured.

## Findings

| source | as written | input that shows it | evidently intended | confidence | as-written member | corrected member |
|---|---|---|---|---|---|---|
| mABC/agents/base/run.py:61-79 | with voting on, `ThreeHotCotRun.run` indexes `vote_weights` with the dictionary `parse_in_vote` returns (TypeError, unhashable), and without an initiator reaches `update_weights` with `vote_results` unbound (UnboundLocalError), so it never returns a decision | any alpha and beta other than -1 and -1, with any replies | `vote_results` bound before the branch and each vote counted under its option string, so the rate rule decides | not executed | AgentRun.EnabledVoteNeverDecides | AgentRun.CorrectedDecision |
| frontend/api_server.py:188-200 | `get_merkle_proof` records no sibling for the unpaired last node of an odd level, although the tree hashes that node with itself | a block of 3 transactions with leaf hashes a, b, c and target index 2: writing h(xy) for the hash of x followed by y, the fold gives h(h(ab)c) but the root is h(h(ab)h(cc)), so `verified` is false | record the node itself as its right sibling | not executed | Merkle.UnpairedLeafFailsToVerify | Merkle.FixedPathVerifies |
