/**
  The read side of the explorer's HTTP API (frontend/api_server.py): the window of
  blocks returned by `get_blocks`, the bounds check of `get_block`, the search of
  `get_transaction`, and the audit path built and checked by `get_merkle_proof`.
  The chain is passed in as a value; the HTTP layer and its status codes become the
  `ApiError` cases.
*/
module Explorer {
  import opened Wrappers
  import opened Types
  import opened PyStr
  import Merkle

  datatype ApiError = BlockNotFound | TransactionNotFound

  /** A transaction as listed by the API, with the hash the endpoint computed for it. */
  datatype TxView = TxView(tx: Transaction, txHash: string)

  /** `BlockResponse`. */
  datatype BlockView = BlockView(
    index: int,
    hash: Option<string>,
    previousHash: string,
    timestamp: int,
    merkleRoot: string,
    transactionCount: int,
    transactions: seq<TxView>)

  /** The response for `block` when every transaction is hashed with `hashTx`. */
  function ViewOf(hashTx: Transaction -> string, block: Block): (v: BlockView)
    ensures v.index == block.header.index && v.hash == block.hash
    ensures v.previousHash == block.header.previousHash && v.merkleRoot == block.header.merkleRoot
    ensures v.transactionCount == |v.transactions| == |block.transactions|
    ensures forall k :: 0 <= k < |block.transactions| ==>
      v.transactions[k] == TxView(block.transactions[k], hashTx(block.transactions[k]))
  {
    BlockView(block.header.index, block.hash, block.header.previousHash, block.header.timestamp,
      block.header.merkleRoot, |block.transactions|,
      seq(|block.transactions|, k requires 0 <= k < |block.transactions| =>
        TxView(block.transactions[k], hashTx(block.transactions[k]))))
  }

  /** The per-transaction loop shared by the listing endpoints. */
  method BuildView(hashTx: Transaction -> string, block: Block) returns (v: BlockView)
    ensures v == ViewOf(hashTx, block)
  {
    var txList: seq<TxView> := [];
    for k := 0 to |block.transactions|
      invariant |txList| == k
      invariant forall j :: 0 <= j < k ==> txList[j] == TxView(block.transactions[j], hashTx(block.transactions[j]))
    {
      var tx := block.transactions[k];
      txList := txList + [TxView(tx, hashTx(tx))];
    }
    v := BlockView(block.header.index, block.hash, block.header.previousHash, block.header.timestamp,
      block.header.merkleRoot, |block.transactions|, txList);
  }

  /** The `str(sorted(...))` hash that `get_blocks`, `get_transaction` and
      `get_merkle_proof` report: the Merkle leaf. */
  function ReprHash(p: Primitives): Transaction -> string {
    tx => TxLeaf(p, tx)
  }

  /** The `json.dumps` hash that `get_block` reports. */
  function JsonHash(p: Primitives): Transaction -> string {
    tx => CalculateHash(p.sha256, p.jsonTx(tx))
  }

  // ---------------------------------------------------------------------
  // get_blocks

  /** `start = offset or 0`: a missing or zero offset starts at 0. */
  function StartOf(offset: Option<int>): int {
    if offset.Some? then offset.value else 0
  }

  /** `end = start + limit if limit else total_blocks`: a missing or zero limit means
      "up to the end". */
  function EndOf(start: int, limit: Option<int>, total: int): int {
    if limit.Some? && limit.value != 0 then start + limit.value else total
  }

  /** The blocks `get_blocks` lists: `chain[start:end]` with Python's slice rules. */
  function Window(chain: seq<Block>, limit: Option<int>, offset: Option<int>): seq<Block> {
    var start := StartOf(offset);
    Slice(chain, start, EndOf(start, limit, |chain|))
  }

  /** `get_blocks`. */
  method GetBlocks(p: Primitives, chain: seq<Block>, limit: Option<int>, offset: Option<int>)
    returns (result: seq<BlockView>)
    ensures |result| == |Window(chain, limit, offset)|
    ensures forall k :: 0 <= k < |result| ==> result[k] == ViewOf(ReprHash(p), Window(chain, limit, offset)[k])
  {
    var totalBlocks := |chain|;
    var start := if offset.Some? then offset.value else 0;
    var end := if limit.Some? && limit.value != 0 then start + limit.value else totalBlocks;
    var blocks := Slice(chain, start, end);
    result := [];
    for i := 0 to |blocks|
      invariant |result| == i
      invariant forall k :: 0 <= k < i ==> result[k] == ViewOf(ReprHash(p), blocks[k])
    {
      var view := BuildView(ReprHash(p), blocks[i]);
      result := result + [view];
    }
  }

  /** With a positive limit and an in-range offset, `get_blocks` returns exactly the
      `limit` blocks from `offset` on, or the rest of the chain if fewer remain. */
  lemma {:induction false} WindowInRange(chain: seq<Block>, limit: nat, offset: nat)
    requires limit > 0 && offset <= |chain|
    ensures Window(chain, Some(limit), Some(offset)) ==
      chain[offset..if offset + limit <= |chain| then offset + limit else |chain|]
  {
  }

  /** A limit of 0 is falsy: it returns everything from the offset, exactly as no limit. */
  lemma {:induction false} ZeroLimitMeansAll(chain: seq<Block>, offset: Option<int>)
    ensures Window(chain, Some(0), offset) == Window(chain, None, offset)
    ensures Window(chain, None, offset) == SliceFrom(chain, StartOf(offset))
  {
  }

  /** A negative offset counts from the end of the chain, as Python's slicing does:
      with no limit, offset -1 gives the latest block alone. */
  lemma {:induction false} NegativeOffsetFromEnd(chain: seq<Block>)
    requires |chain| >= 1
    ensures Window(chain, None, Some(-1)) == [chain[|chain| - 1]]
  {
  }

  // ---------------------------------------------------------------------
  // get_block

  /** `get_block`: an index outside the chain is "Block not found"; otherwise the block
      with its transactions hashed by their JSON serialisation. */
  method GetBlock(p: Primitives, chain: seq<Block>, index: int) returns (r: Result<BlockView, ApiError>)
    ensures r.Err? <==> index < 0 || index >= |chain|
    ensures r.Err? ==> r.error == BlockNotFound
    ensures r.Ok? ==> r.value == ViewOf(JsonHash(p), chain[index])
  {
    if index < 0 || index >= |chain| {
      return Err(BlockNotFound);
    }
    var block := chain[index];
    var view := BuildView(JsonHash(p), block);
    return Ok(view);
  }

  /** `get_block` reports a transaction hash that is not the Merkle leaf whenever the
      JSON and `str(sorted(...))` serialisations have different digests. */
  lemma {:induction false} GetBlockHashDiffers(p: Primitives, block: Block, k: nat)
    requires k < |block.transactions|
    requires p.sha256(p.jsonTx(block.transactions[k])) != p.sha256(p.reprTx(block.transactions[k]))
    ensures ViewOf(JsonHash(p), block).transactions[k].txHash != ViewOf(ReprHash(p), block).transactions[k].txHash
  {
    var tx := block.transactions[k];
    assert ViewOf(JsonHash(p), block).transactions[k].txHash == CalculateHash(p.sha256, p.jsonTx(tx));
    assert ViewOf(ReprHash(p), block).transactions[k].txHash == CalculateHash(p.sha256, p.reprTx(tx));
  }

  // ---------------------------------------------------------------------
  // get_transaction

  /** What `get_transaction` returns: the transaction, its hash, and the index and hash
      of the block holding it. */
  datatype TxLocation = TxLocation(tx: Transaction, txHash: string, blockIndex: int, blockHash: Option<string>)

  /** The position (block, transaction) precedes (b, t) in chain order. */
  predicate Before(b0: int, t0: int, b: int, t: int) {
    b0 < b || (b0 == b && t0 < t)
  }

  /** The first position in chain order at or after block `b` whose leaf hash is `txHash`. */
  function FirstMatch(p: Primitives, chain: seq<Block>, txHash: string, b: nat): (r: Option<(nat, nat)>)
    requires b <= |chain|
    ensures r.Some? ==> b <= r.value.0 < |chain| && r.value.1 < |chain[r.value.0].transactions|
    ensures r.Some? ==> TxLeaf(p, chain[r.value.0].transactions[r.value.1]) == txHash
    ensures r.Some? ==> forall b0, t0 ::
      (b <= b0 < |chain| && 0 <= t0 < |chain[b0].transactions| && Before(b0, t0, r.value.0, r.value.1))
      ==> TxLeaf(p, chain[b0].transactions[t0]) != txHash
    ensures r.None? ==> forall b0, t0 :: b <= b0 < |chain| && 0 <= t0 < |chain[b0].transactions| ==>
      TxLeaf(p, chain[b0].transactions[t0]) != txHash
    decreases |chain| - b
  {
    if b == |chain| then None
    else match FirstInBlock(p, chain[b].transactions, txHash, 0)
      case Some(t) => Some((b, t))
      case None => FirstMatch(p, chain, txHash, b + 1)
  }

  /** The first transaction at or after `t` in one block whose leaf hash is `txHash`. */
  function FirstInBlock(p: Primitives, txs: seq<Transaction>, txHash: string, t: nat): (r: Option<nat>)
    requires t <= |txs|
    ensures r.Some? ==> t <= r.value < |txs| && TxLeaf(p, txs[r.value]) == txHash
    ensures r.Some? ==> forall t0 :: t <= t0 < r.value ==> TxLeaf(p, txs[t0]) != txHash
    ensures r.None? ==> forall t0 :: t <= t0 < |txs| ==> TxLeaf(p, txs[t0]) != txHash
    decreases |txs| - t
  {
    if t == |txs| then None
    else if TxLeaf(p, txs[t]) == txHash then Some(t)
    else FirstInBlock(p, txs, txHash, t + 1)
  }

  /** `get_transaction`: scan block by block, transaction by transaction, and return the
      first whose leaf hash matches; "Transaction not found" when none does. */
  method GetTransaction(p: Primitives, chain: seq<Block>, txHash: string) returns (r: Result<TxLocation, ApiError>)
    ensures r.Err? ==> r.error == TransactionNotFound
    ensures r.Err? <==> FirstMatch(p, chain, txHash, 0).None?
    ensures r.Ok? ==> var (b, t) := FirstMatch(p, chain, txHash, 0).value;
      r.value == TxLocation(chain[b].transactions[t], txHash, chain[b].header.index, chain[b].hash)
  {
    for b := 0 to |chain|
      invariant forall b0, t0 :: 0 <= b0 < b && 0 <= t0 < |chain[b0].transactions| ==>
        TxLeaf(p, chain[b0].transactions[t0]) != txHash
    {
      var block := chain[b];
      for t := 0 to |block.transactions|
        invariant forall t0 :: 0 <= t0 < t ==> TxLeaf(p, block.transactions[t0]) != txHash
      {
        var calculatedHash := CalculateHash(p.sha256, p.reprTx(block.transactions[t]));
        if calculatedHash == txHash {
          FirstMatchIs(p, chain, txHash, b, t);
          return Ok(TxLocation(block.transactions[t], calculatedHash, block.header.index, block.hash));
        }
      }
    }
    FirstMatchNone(p, chain, txHash);
    return Err(TransactionNotFound);
  }

  /** The first match is determined by where the earliest matching position is. */
  lemma {:induction false} FirstMatchIs(p: Primitives, chain: seq<Block>, txHash: string, b: nat, t: nat)
    requires b < |chain| && t < |chain[b].transactions|
    requires TxLeaf(p, chain[b].transactions[t]) == txHash
    requires forall b0, t0 :: 0 <= b0 < b && 0 <= t0 < |chain[b0].transactions| ==>
      TxLeaf(p, chain[b0].transactions[t0]) != txHash
    requires forall t0 :: 0 <= t0 < t ==> TxLeaf(p, chain[b].transactions[t0]) != txHash
    ensures FirstMatch(p, chain, txHash, 0) == Some((b, t))
  {
    var r := FirstMatch(p, chain, txHash, 0);
    assert r.Some?;
    var (b1, t1) := r.value;
    assert !Before(b, t, b1, t1);
    assert !Before(b1, t1, b, t);
  }

  lemma {:induction false} FirstMatchNone(p: Primitives, chain: seq<Block>, txHash: string)
    requires forall b0, t0 :: 0 <= b0 < |chain| && 0 <= t0 < |chain[b0].transactions| ==>
      TxLeaf(p, chain[b0].transactions[t0]) != txHash
    ensures FirstMatch(p, chain, txHash, 0).None?
  {
  }

  // ---------------------------------------------------------------------
  // get_merkle_proof

  /** `MerkleProofResponse`. */
  datatype ProofResponse = ProofResponse(
    transactionHash: string,
    merkleRoot: string,
    proofPath: seq<Merkle.ProofStep>,
    verified: bool)

  /** `get_merkle_proof`: reject out-of-range indices, then record one sibling per level
      while rebuilding the levels, and fold the recorded path back to a root that is
      compared with the header's `merkle_root`. */
  method GetMerkleProof(p: Primitives, chain: seq<Block>, blockIndex: int, txIndex: int)
    returns (r: Result<ProofResponse, ApiError>)
    ensures (blockIndex < 0 || blockIndex >= |chain|) ==> r == Err(BlockNotFound)
    ensures 0 <= blockIndex < |chain| && (txIndex < 0 || txIndex >= |chain[blockIndex].transactions|) ==>
      r == Err(TransactionNotFound)
    ensures r.Ok? <==> 0 <= blockIndex < |chain| && 0 <= txIndex < |chain[blockIndex].transactions|
    ensures r.Ok? ==>
      var block := chain[blockIndex];
      var leaves := Leaves(p, block.transactions);
      && r.value.transactionHash == leaves[txIndex]
      && r.value.merkleRoot == block.header.merkleRoot
      && r.value.proofPath == Merkle.ProofPath(Hasher(p), leaves, txIndex)
      && r.value.verified == (Merkle.FoldPath(Hasher(p), leaves[txIndex], r.value.proofPath) == block.header.merkleRoot)
  {
    if blockIndex < 0 || blockIndex >= |chain| {
      return Err(BlockNotFound);
    }
    var block := chain[blockIndex];
    if txIndex < 0 || txIndex >= |block.transactions| {
      return Err(TransactionNotFound);
    }
    var transactionHashes: seq<string> := [];
    for k := 0 to |block.transactions|
      invariant |transactionHashes| == k
      invariant forall j :: 0 <= j < k ==> transactionHashes[j] == TxLeaf(p, block.transactions[j])
    {
      transactionHashes := transactionHashes + [CalculateHash(p.sha256, p.reprTx(block.transactions[k]))];
    }
    assert transactionHashes == Leaves(p, block.transactions);
    var targetTxHash := transactionHashes[txIndex];

    var proofPath := BuildProofPath(p, transactionHashes, txIndex);
    var verifiedRoot := FoldProof(p, targetTxHash, proofPath);
    var verified := verifiedRoot == block.header.merkleRoot;
    return Ok(ProofResponse(targetTxHash, block.header.merkleRoot, proofPath, verified));
  }

  /** The first loop of `get_merkle_proof`: record the target's sibling at each level
      (none for an unpaired last node), rebuild the next level and halve the index. */
  method BuildProofPath(p: Primitives, transactionHashes: seq<string>, txIndex: nat)
    returns (proofPath: seq<Merkle.ProofStep>)
    requires txIndex < |transactionHashes|
    ensures proofPath == Merkle.ProofPath(Hasher(p), transactionHashes, txIndex)
  {
    proofPath := [];
    ghost var hash := Hasher(p);
    var merkleTree := transactionHashes;
    var currentIndex: nat := txIndex;
    while |merkleTree| > 1
      invariant currentIndex < |merkleTree|
      invariant proofPath + Merkle.ProofPath(hash, merkleTree, currentIndex) ==
        Merkle.ProofPath(hash, transactionHashes, txIndex)
      decreases |merkleTree|
    {
      ghost var level, index, before := merkleTree, currentIndex, proofPath;
      proofPath := AddSibling(proofPath, merkleTree, currentIndex);
      Merkle.ProofPathSplit(hash, before, level, index);
      merkleTree := CombineLevel(p, merkleTree);
      currentIndex := currentIndex / 2;
      assert currentIndex < (|level| + 1) / 2 == |merkleTree|;
    }
  }

  /** The sibling step of the first loop of `get_merkle_proof`: an even index records
      its right neighbour, if there is one, and an odd index its left neighbour. */
  method AddSibling(proofPath: seq<Merkle.ProofStep>, merkleTree: seq<string>, currentIndex: nat)
    returns (extended: seq<Merkle.ProofStep>)
    requires currentIndex < |merkleTree|
    ensures extended == proofPath + Merkle.StepAt(merkleTree, currentIndex)
  {
    extended := proofPath;
    if currentIndex % 2 == 0 {
      var siblingIndex := currentIndex + 1;
      if siblingIndex < |merkleTree| {
        extended := extended + [Merkle.ProofStep(Merkle.Right, merkleTree[siblingIndex])];
      } else {
        assert extended == proofPath + [];
      }
    } else {
      var siblingIndex := currentIndex - 1;
      extended := extended + [Merkle.ProofStep(Merkle.Left, merkleTree[siblingIndex])];
    }
  }

  /** The second loop of `get_merkle_proof`: fold the path, a left sibling going before
      the running hash and a right one after it. */
  method FoldProof(p: Primitives, targetTxHash: string, proofPath: seq<Merkle.ProofStep>)
    returns (verifiedRoot: string)
    ensures verifiedRoot == Merkle.FoldPath(Hasher(p), targetTxHash, proofPath)
  {
    verifiedRoot := targetTxHash;
    for k := 0 to |proofPath|
      invariant Merkle.FoldPath(Hasher(p), verifiedRoot, proofPath[k..]) ==
        Merkle.FoldPath(Hasher(p), targetTxHash, proofPath)
    {
      var proof := proofPath[k];
      var combined := if proof.position == Merkle.Left then proof.hash + verifiedRoot else verifiedRoot + proof.hash;
      assert proofPath[k..][1..] == proofPath[k + 1..];
      verifiedRoot := CalculateHash(p.sha256, combined);
    }
    assert proofPath[|proofPath|..] == [];
  }

  /** The level-building loop of `get_merkle_proof`: a lone last node is hashed with itself. */
  method CombineLevel(p: Primitives, merkleTree: seq<string>) returns (newLevel: seq<string>)
    ensures newLevel == Merkle.NextLevelLone(Hasher(p), merkleTree)
  {
    newLevel := [];
    var i, j := 0, 0;
    while i < |merkleTree|
      invariant i == 2 * j && i <= |merkleTree| + 1
      invariant newLevel == Merkle.NextLevelLone(Hasher(p), merkleTree)[..j]
    {
      var parent := HashPairAt(p, merkleTree, i);
      LevelStep(Hasher(p), merkleTree, j);
      newLevel := newLevel + [parent];
      i, j := i + 2, j + 1;
    }
    assert j == (|merkleTree| + 1) / 2;
  }

  /** One more pair of the next level: its `j`-th node after the first `j`. */
  lemma {:induction false} LevelStep(hash: string -> string, level: seq<string>, j: nat)
    requires 2 * j < |level|
    ensures Merkle.NextLevelLone(hash, level)[..j + 1] == Merkle.NextLevelLone(hash, level)[..j]
      + [Merkle.Parent(hash, level[2 * j], if 2 * j + 1 < |level| then level[2 * j + 1] else level[2 * j])]
  {
    var next := Merkle.NextLevelLone(hash, level);
    assert next[..j + 1] == next[..j] + [next[j]];
  }

  /** The body of the level-building loop: the node at `i` hashed with its right
      neighbour, or with itself when it has none. */
  method HashPairAt(p: Primitives, merkleTree: seq<string>, i: nat) returns (parent: string)
    requires i < |merkleTree|
    ensures parent == Merkle.Parent(Hasher(p), merkleTree[i], if i + 1 < |merkleTree| then merkleTree[i + 1] else merkleTree[i])
  {
    var combined := if i + 1 < |merkleTree| then merkleTree[i] + merkleTree[i + 1] else merkleTree[i] + merkleTree[i];
    parent := CalculateHash(p.sha256, combined);
  }

  /** A block that `add_block` would accept, with a power-of-two number of
      transactions, verifies for every transaction index. */
  lemma {:induction false} ProofVerifiesForPowerOfTwo(p: Primitives, block: Block, txIndex: nat, k: nat)
    requires block.header.merkleRoot == Merkle.MerkleRoot(Hasher(p), Leaves(p, block.transactions))
    requires |block.transactions| == Merkle.Pow2(k) && txIndex < |block.transactions|
    ensures var leaves := Leaves(p, block.transactions);
      Merkle.FoldPath(Hasher(p), leaves[txIndex], Merkle.ProofPath(Hasher(p), leaves, txIndex))
        == block.header.merkleRoot
  {
    Merkle.PowerOfTwoPathVerifies(Hasher(p), Leaves(p, block.transactions), txIndex, k);
  }
}
