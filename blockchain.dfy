/**
  The main chain (mABC/core/blockchain.py): a genesis block followed by blocks that
  each name their predecessor's hash, carry the hash of their own header and commit
  to their transactions through the Merkle root. Also the address-to-public-key
  registry kept beside it.
*/
module Chain {
  import opened Wrappers
  import opened Types
  import Merkle

  /** `_calculate_block_hash`: the hash of the header's JSON. Only the header is
      hashed, so the transactions are bound to it only through `merkle_root`. */
  function HeaderHash(p: Primitives, header: BlockHeader): (h: string)
    ensures |h| == 64 && IsHex(h)
  {
    CalculateHash(p.sha256, p.jsonHeader(header))
  }

  /** The Merkle root recomputed from a block's transactions. */
  function TxRoot(p: Primitives, txs: seq<Transaction>): string {
    Merkle.MerkleRoot(Hasher(p), Leaves(p, txs))
  }

  /** The genesis block: index 0, an all-zero previous hash, the root of no
      transactions, and its own header hash. */
  function Genesis(p: Primitives, timestamp: int): (b: Block)
    ensures b.header.index == 0 && b.header.nonce == 0 && b.header.timestamp == timestamp
    ensures b.header.previousHash == ZeroHash && b.transactions == []
    ensures b.header.merkleRoot == CalculateHash(p.sha256, "") == TxRoot(p, b.transactions)
    ensures b.hash == Some(HeaderHash(p, b.header))
  {
    Block(GenesisHeader(p, timestamp), [], Some(HeaderHash(p, GenesisHeader(p, timestamp))))
  }

  function GenesisHeader(p: Primitives, timestamp: int): BlockHeader {
    BlockHeader(0, timestamp, ZeroHash, CalculateHash(p.sha256, ""), 0)
  }

  /** The three checks `add_block` makes of `block` against the chain's last block. */
  predicate Links(p: Primitives, previous: Block, block: Block) {
    && previous.hash == Some(block.header.previousHash)
    && block.hash == Some(HeaderHash(p, block.header))
    && block.header.merkleRoot == TxRoot(p, block.transactions)
  }

  /** What `is_valid_chain` accepts: every block after the first passes the three
      checks against the block before it. The genesis block itself is not checked. */
  predicate ChainValid(p: Primitives, chain: seq<Block>) {
    forall i :: 1 <= i < |chain| ==> Links(p, chain[i - 1], chain[i])
  }

  /** A chain holding only a genesis block is valid. */
  lemma {:induction false} GenesisChainValid(p: Primitives, timestamp: int)
    ensures ChainValid(p, [Genesis(p, timestamp)])
  {
  }

  /** Appending a block that passes `add_block`'s checks keeps a valid chain valid. */
  lemma {:induction false} AppendKeepsValid(p: Primitives, chain: seq<Block>, block: Block)
    requires |chain| >= 1 && ChainValid(p, chain) && Links(p, chain[|chain| - 1], block)
    ensures ChainValid(p, chain + [block])
  {
    var c := chain + [block];
    forall i | 1 <= i < |c| ensures Links(p, c[i - 1], c[i]) {
      if i < |chain| {
        assert c[i - 1] == chain[i - 1] && c[i] == chain[i];
      }
    }
  }

  /** A valid chain stays valid when cut after any block. */
  lemma {:induction false} PrefixValid(p: Primitives, chain: seq<Block>, n: nat)
    requires n <= |chain| && ChainValid(p, chain)
    ensures ChainValid(p, chain[..n])
  {
    var c := chain[..n];
    forall i | 1 <= i < |c| ensures Links(p, c[i - 1], c[i]) {
      assert c[i - 1] == chain[i - 1] && c[i] == chain[i];
    }
  }

  /** `add_block` never looks at the header's index: given a block it accepts, the
      same block renumbered to any index (and rehashed) is accepted too. */
  lemma {:induction false} IndexNotChecked(p: Primitives, previous: Block, block: Block, index: int)
    requires Links(p, previous, block)
    ensures var header := block.header.(index := index);
      Links(p, previous, Block(header, block.transactions, Some(HeaderHash(p, header))))
  {
  }

  /** Two blocks with one header and one stored hash whose transaction lists have the
      same root pass or fail `add_block` together: the header hash does not cover the
      transactions themselves. */
  lemma {:induction false} TransactionsBoundOnlyByRoot(p: Primitives, previous: Block, block: Block, txs: seq<Transaction>)
    requires TxRoot(p, txs) == TxRoot(p, block.transactions)
    ensures Links(p, previous, block) <==> Links(p, previous, block.(transactions := txs))
  {
  }

  class Blockchain {
    const p: Primitives
    var chain: seq<Block>

    /** The chain is never empty: it starts at the genesis block. */
    predicate Valid()
      reads this
    {
      |chain| >= 1
    }

    /** `__init__` with `_create_genesis_block`; `timestamp` stands for `int(time.time())`. */
    constructor (p: Primitives, timestamp: int)
      ensures Valid() && this.p == p
      ensures chain == [Genesis(p, timestamp)]
    {
      this.p := p;
      var header := BlockHeader(0, timestamp, ZeroHash, CalculateHash(p.sha256, ""), 0);
      var genesis := Block(header, [], None);
      genesis := genesis.(hash := Some(CalculateBlockHash(p, genesis)));
      chain := [genesis];
    }

    /** `add_block`: append exactly when the three checks pass against the last block;
        otherwise return false and leave the chain as it was. */
    method AddBlock(block: Block) returns (ok: bool)
      requires Valid()
      modifies this
      ensures Valid()
      ensures ok <==> Links(p, old(chain[|chain| - 1]), block)
      ensures chain == if ok then old(chain) + [block] else old(chain)
    {
      var previousBlock := chain[|chain| - 1];
      if previousBlock.hash != Some(block.header.previousHash) {
        return false;
      }
      if block.hash != Some(CalculateBlockHash(p, block)) {
        return false;
      }
      var calculatedMerkleRoot := Merkle.GetMerkleRoot(p, block.transactions);
      if block.header.merkleRoot != calculatedMerkleRoot {
        return false;
      }
      chain := chain + [block];
      return true;
    }

    /** `get_latest_block`. */
    method GetLatestBlock() returns (b: Block)
      requires Valid()
      ensures b == chain[|chain| - 1]
    {
      b := chain[|chain| - 1];
    }

    /** `is_valid_chain`: walk the chain from the second block, stopping at the first
        block whose hash, link or Merkle root is wrong. */
    method IsValidChain() returns (valid: bool)
      requires Valid()
      ensures valid <==> ChainValid(p, chain)
    {
      for i := 1 to |chain|
        invariant forall j :: 1 <= j < i ==> Links(p, chain[j - 1], chain[j])
      {
        var currentBlock := chain[i];
        var previousBlock := chain[i - 1];
        if currentBlock.hash != Some(CalculateBlockHash(p, currentBlock)) {
          return false;
        }
        if previousBlock.hash != Some(currentBlock.header.previousHash) {
          return false;
        }
        var calculatedMerkleRoot := Merkle.GetMerkleRoot(p, currentBlock.transactions);
        if currentBlock.header.merkleRoot != calculatedMerkleRoot {
          return false;
        }
      }
      return true;
    }
  }

  /** `_calculate_block_hash` applied to a block. */
  function CalculateBlockHash(p: Primitives, block: Block): (h: string)
    ensures h == HeaderHash(p, block.header)
  {
    CalculateHash(p.sha256, p.jsonHeader(block.header))
  }

  /** `PublicKeyRegistry.get_public_key` on a registry: the key, or `None`. */
  function Lookup(registry: map<string, string>, address: string): (r: Option<string>)
    ensures r.Some? <==> address in registry
    ensures r.Some? ==> r.value == registry[address]
  {
    if address in registry then Some(registry[address]) else None
  }

  /** After `register_public_key(a, k)` the registry returns `k` for `a` (replacing any
      earlier key) and what it returned before for every other address. */
  lemma {:induction false} RegisterThenGet(registry: map<string, string>, address: string, key: string, other: string)
    ensures Lookup(registry[address := key], address) == Some(key)
    ensures other != address ==> Lookup(registry[address := key], other) == Lookup(registry, other)
  {
  }

  /** The registry: one dictionary shared by every user of the class. */
  class PublicKeyRegistry {
    var registry: map<string, string>

    constructor ()
      ensures registry == map[]
    {
      registry := map[];
    }

    /** `register_public_key`: store the key, overwriting any earlier one. */
    method RegisterPublicKey(address: string, publicKey: string)
      modifies this
      ensures registry == old(registry)[address := publicKey]
    {
      registry := registry[address := publicKey];
    }

    /** `get_public_key`: the registered key, or `None`. */
    method GetPublicKey(address: string) returns (key: Option<string>)
      ensures key.Some? <==> address in registry
      ensures key.Some? ==> key.value == registry[address]
    {
      if address in registry {
        key := Some(registry[address]);
      } else {
        key := None;
      }
    }
  }
}
