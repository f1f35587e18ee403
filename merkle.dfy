/**
  The Merkle tree over a block's transactions: the root that `get_merkle_root`
  builds (mABC/core/types.py) and the audit path that the explorer's
  `get_merkle_proof` builds and folds back (frontend/api_server.py).

  The functions here are generic in the hash function `hash`, which stands for
  `calculate_hash`.
*/
module Merkle {
  import opened Types

  /** A parent node: the hash of the two child hashes written one after the other. */
  function Parent(hash: string -> string, left: string, right: string): string {
    hash(left + right)
  }

  /** `get_merkle_root`'s padding: an odd level gets its last node appended again. */
  function Pad(level: seq<string>): (r: seq<string>)
    ensures |r| % 2 == 0 && |level| <= |r| <= |level| + 1 && r[..|level|] == level
    ensures |level| % 2 == 1 ==> r == level + [level[|level| - 1]]
  {
    if |level| % 2 == 1 then level + [level[|level| - 1]] else level
  }

  /** Hashing adjacent pairs of an even-length level. */
  function Pairs(hash: string -> string, level: seq<string>): (r: seq<string>)
    requires |level| % 2 == 0
    ensures |r| == |level| / 2
    ensures forall k :: 0 <= k < |r| ==> r[k] == Parent(hash, level[2 * k], level[2 * k + 1])
    decreases |level|
  {
    if level == [] then []
    else Pairs(hash, level[..|level| - 2]) + [Parent(hash, level[|level| - 2], level[|level| - 1])]
  }

  /** One round of `get_merkle_root`: pad, then hash pairs. */
  function NextLevel(hash: string -> string, level: seq<string>): (r: seq<string>)
    ensures |r| == (|level| + 1) / 2
  {
    Pairs(hash, Pad(level))
  }

  /** One round of `get_merkle_proof`: a lone last node is hashed with itself. */
  function NextLevelLone(hash: string -> string, level: seq<string>): (r: seq<string>)
    ensures |r| == (|level| + 1) / 2
  {
    seq((|level| + 1) / 2, k requires 0 <= k < (|level| + 1) / 2 =>
      Parent(hash, level[2 * k], if 2 * k + 1 < |level| then level[2 * k + 1] else level[2 * k]))
  }

  /** The explorer rebuilds each level exactly as `get_merkle_root` does. */
  lemma {:induction false} LevelsAgree(hash: string -> string, level: seq<string>)
    ensures NextLevelLone(hash, level) == NextLevel(hash, level)
  {
    var a, b := NextLevelLone(hash, level), NextLevel(hash, level);
    var padded := Pad(level);
    forall k | 0 <= k < |a| ensures a[k] == b[k] {
      assert b[k] == Parent(hash, padded[2 * k], padded[2 * k + 1]);
      if 2 * k + 1 == |level| {
        assert padded[2 * k + 1] == level[2 * k];
      } else {
        assert padded[2 * k + 1] == level[2 * k + 1];
      }
    }
  }

  /** The single node left after repeating rounds until one remains. */
  function RootOfLevel(hash: string -> string, level: seq<string>): string
    requires |level| >= 1
    decreases |level|
  {
    if |level| == 1 then level[0] else RootOfLevel(hash, NextLevel(hash, level))
  }

  /** The Merkle root over a sequence of leaf hashes; `hash("")` for none. */
  function MerkleRoot(hash: string -> string, leaves: seq<string>): string {
    if leaves == [] then hash("") else RootOfLevel(hash, leaves)
  }

  /** `get_merkle_root`: hash every transaction, then replace the level by the next one
      until a single hash is left. */
  method GetMerkleRoot(p: Primitives, transactions: seq<Transaction>) returns (root: string)
    ensures root == MerkleRoot(Hasher(p), Leaves(p, transactions))
    ensures transactions == [] ==> root == CalculateHash(p.sha256, "")
    ensures |transactions| == 1 ==> root == TxLeaf(p, transactions[0])
  {
    if transactions == [] {
      return CalculateHash(p.sha256, "");
    }
    var transactionHashes: seq<string> := [];
    for i := 0 to |transactions|
      invariant |transactionHashes| == i
      invariant forall k :: 0 <= k < i ==> transactionHashes[k] == TxLeaf(p, transactions[k])
    {
      transactionHashes := transactionHashes + [CalculateHash(p.sha256, p.reprTx(transactions[i]))];
    }
    assert transactionHashes == Leaves(p, transactions);
    var merkleTree := transactionHashes;
    while |merkleTree| > 1
      invariant |merkleTree| >= 1
      invariant RootOfLevel(Hasher(p), merkleTree) == RootOfLevel(Hasher(p), transactionHashes)
      decreases |merkleTree|
    {
      merkleTree := HashLevel(p, merkleTree);
    }
    root := merkleTree[0];
  }

  /** One round of the loop in `get_merkle_root`: duplicate an odd last node, then hash
      each adjacent pair into the new level. */
  method HashLevel(p: Primitives, merkleTree: seq<string>) returns (newLevel: seq<string>)
    ensures newLevel == NextLevel(Hasher(p), merkleTree)
  {
    var tree := merkleTree;
    if |tree| % 2 == 1 {
      tree := tree + [tree[|tree| - 1]];
    }
    assert tree == Pad(merkleTree);
    newLevel := [];
    var i := 0;
    while i < |tree|
      invariant 0 <= i <= |tree| && i % 2 == 0
      invariant |newLevel| == i / 2
      invariant forall k :: 0 <= k < i / 2 ==> newLevel[k] == Parent(Hasher(p), tree[2 * k], tree[2 * k + 1])
    {
      var combined := tree[i] + tree[i + 1];
      newLevel := newLevel + [CalculateHash(p.sha256, combined)];
      i := i + 2;
    }
  }

  // ---------------------------------------------------------------------
  // Properties of the root

  /** An odd level and the same level with its last node repeated have one root,
      e.g. root([a, b, c]) == root([a, b, c, c]). */
  lemma {:induction false} OddLevelPadding(hash: string -> string, level: seq<string>)
    requires |level| >= 3 && |level| % 2 == 1
    ensures RootOfLevel(hash, level) == RootOfLevel(hash, level + [level[|level| - 1]])
  {
    var padded := level + [level[|level| - 1]];
    assert Pad(padded) == padded == Pad(level);
  }

  // ---------------------------------------------------------------------
  // Audit paths (get_merkle_proof)

  datatype Position = Left | Right

  /** One entry of `proof_path`: the sibling's hash and which side it is on. */
  datatype ProofStep = ProofStep(position: Position, hash: string)

  /** The entry recorded for node `idx` of `level` by the explorer, if any: the right
      neighbour of an even index when that neighbour exists, the left neighbour of an
      odd index, and nothing for an unpaired last node. */
  function StepAt(level: seq<string>, idx: nat): (r: seq<ProofStep>)
    requires idx < |level|
    ensures |r| <= 1
    ensures r == [] <==> idx % 2 == 0 && idx + 1 == |level|
  {
    if idx % 2 == 0 then
      if idx + 1 < |level| then [ProofStep(Right, level[idx + 1])] else []
    else [ProofStep(Left, level[idx - 1])]
  }

  /** The `proof_path` the explorer builds for leaf `idx`. */
  function ProofPath(hash: string -> string, level: seq<string>, idx: nat): seq<ProofStep>
    requires idx < |level|
    decreases |level|
  {
    if |level| <= 1 then []
    else StepAt(level, idx) + ProofPath(hash, NextLevelLone(hash, level), idx / 2)
  }

  /** The path of `idx` is the entry recorded at this level followed by the path of
      its parent in the next level. */
  lemma {:induction false} ProofPathSplit(hash: string -> string, prefix: seq<ProofStep>, level: seq<string>, idx: nat)
    requires idx < |level| && |level| > 1
    ensures prefix + ProofPath(hash, level, idx) ==
      (prefix + StepAt(level, idx)) + ProofPath(hash, NextLevelLone(hash, level), idx / 2)
  {
  }

  /** One fold step: a left sibling goes before the running hash, a right one after. */
  function Apply(hash: string -> string, current: string, step: ProofStep): string {
    match step.position
    case Left => hash(step.hash + current)
    case Right => hash(current + step.hash)
  }

  /** The verification fold over `proof_path`, starting from the leaf hash. */
  function FoldPath(hash: string -> string, current: string, path: seq<ProofStep>): string
    decreases |path|
  {
    if path == [] then current else FoldPath(hash, Apply(hash, current, path[0]), path[1..])
  }

  lemma {:induction false} FoldConcat(hash: string -> string, current: string, a: seq<ProofStep>, b: seq<ProofStep>)
    requires |a| <= 1
    ensures FoldPath(hash, current, a + b) ==
      FoldPath(hash, if a == [] then current else Apply(hash, current, a[0]), b)
  {
    if a != [] {
      assert (a + b)[1..] == b;
    } else {
      assert a + b == b;
    }
  }

  /** The target is never the unpaired last node of a level on its way to the root. */
  predicate AlwaysPaired(hash: string -> string, level: seq<string>, idx: nat)
    requires idx < |level|
    decreases |level|
  {
    |level| <= 1 ||
    (StepAt(level, idx) != [] && AlwaysPaired(hash, NextLevelLone(hash, level), idx / 2))
  }

  /** Applying the step recorded for a paired node gives its parent in the next level. */
  lemma {:induction false} StepGivesParent(hash: string -> string, level: seq<string>, idx: nat)
    requires idx < |level| && StepAt(level, idx) != []
    ensures Apply(hash, level[idx], StepAt(level, idx)[0]) == NextLevelLone(hash, level)[idx / 2]
  {
    var next := NextLevelLone(hash, level);
    if idx % 2 == 0 {
      assert next[idx / 2] == Parent(hash, level[idx], level[idx + 1]);
    } else {
      assert 2 * (idx / 2) == idx - 1;
      assert next[idx / 2] == Parent(hash, level[idx - 1], level[idx]);
    }
  }

  /** Folding the path of a target that is always paired gives the root. */
  lemma {:induction false} PairedPathVerifies(hash: string -> string, level: seq<string>, idx: nat)
    requires idx < |level| && AlwaysPaired(hash, level, idx)
    ensures FoldPath(hash, level[idx], ProofPath(hash, level, idx)) == RootOfLevel(hash, level)
    decreases |level|
  {
    if |level| > 1 {
      var next := NextLevelLone(hash, level);
      var step := StepAt(level, idx);
      var rest := ProofPath(hash, next, idx / 2);
      assert ProofPath(hash, level, idx) == step + rest;
      FoldConcat(hash, level[idx], step, rest);
      StepGivesParent(hash, level, idx);
      PairedPathVerifies(hash, next, idx / 2);
      LevelsAgree(hash, level);
      assert RootOfLevel(hash, level) == RootOfLevel(hash, next);
    }
  }

  function Pow2(k: nat): (r: nat)
    ensures r >= 1
  {
    if k == 0 then 1 else 2 * Pow2(k - 1)
  }

  /** With a power-of-two number of leaves no level has an unpaired node. */
  lemma {:induction false} PowerOfTwoAlwaysPaired(hash: string -> string, level: seq<string>, idx: nat, k: nat)
    requires |level| == Pow2(k) && idx < |level|
    ensures AlwaysPaired(hash, level, idx)
    decreases k
  {
    if k > 0 {
      assert |NextLevelLone(hash, level)| == Pow2(k - 1);
      PowerOfTwoAlwaysPaired(hash, NextLevelLone(hash, level), idx / 2, k - 1);
    }
  }

  /** Every leaf of a power-of-two tree verifies against the root. */
  lemma {:induction false} PowerOfTwoPathVerifies(hash: string -> string, leaves: seq<string>, idx: nat, k: nat)
    requires |leaves| == Pow2(k) && idx < |leaves|
    ensures FoldPath(hash, leaves[idx], ProofPath(hash, leaves, idx)) == MerkleRoot(hash, leaves)
  {
    PowerOfTwoAlwaysPaired(hash, leaves, idx, k);
    PairedPathVerifies(hash, leaves, idx);
  }

  /** A one-leaf tree: empty path, and the leaf is the root. */
  lemma {:induction false} SingleLeafPath(hash: string -> string, leaf: string)
    ensures ProofPath(hash, [leaf], 0) == []
    ensures FoldPath(hash, leaf, ProofPath(hash, [leaf], 0)) == MerkleRoot(hash, [leaf])
  {
  }

  // ---------------------------------------------------------------------
  // The unpaired last node (finding)

  /** A hash that writes its input out as a term, `h(...)`: two different inputs
      never share a result, as a collision-free hash behaves. */
  function TermHash(s: string): string {
    "h(" + s + ")"
  }

  /** The two levels above the leaves `a`, `b`, `c` under the term hash. */
  lemma {:induction false} ThreeLeafLevels()
    ensures NextLevelLone(TermHash, ["a", "b", "c"]) == ["h(ab)", "h(cc)"]
    ensures NextLevelLone(TermHash, ["h(ab)", "h(cc)"]) == ["h(h(ab)h(cc))"]
  {
    var next := NextLevelLone(TermHash, ["a", "b", "c"]);
    assert next[0] == TermHash("a" + "b") == "h(ab)";
    assert next[1] == TermHash("c" + "c") == "h(cc)";
    var top := NextLevelLone(TermHash, ["h(ab)", "h(cc)"]);
    assert top[0] == TermHash("h(ab)" + "h(cc)") == "h(h(ab)h(cc))";
  }

  /** Three leaves, target index 2: the explorer records no entry at the first level,
      although that level hashes the lone node with itself, so the fold misses one
      hashing step and does not reproduce the root. */
  lemma {:induction false} UnpairedLeafFailsToVerify()
    ensures FoldPath(TermHash, "c", ProofPath(TermHash, ["a", "b", "c"], 2)) == "h(h(ab)c)"
    ensures MerkleRoot(TermHash, ["a", "b", "c"]) == "h(h(ab)h(cc))"
    ensures FoldPath(TermHash, "c", ProofPath(TermHash, ["a", "b", "c"], 2)) != MerkleRoot(TermHash, ["a", "b", "c"])
  {
    UnpairedLeafPath();
    UnpairedLeafRoot();
    var step := ProofStep(Left, "h(ab)");
    assert FoldPath(TermHash, "c", [step]) == FoldPath(TermHash, Apply(TermHash, "c", step), []);
    assert Apply(TermHash, "c", step) == TermHash("h(ab)" + "c") == "h(h(ab)c)";
    assert |"h(h(ab)c)"| != |"h(h(ab)h(cc))"|;
  }

  /** The path the explorer builds for the lone third leaf: only its left uncle. */
  lemma {:induction false} UnpairedLeafPath()
    ensures ProofPath(TermHash, ["a", "b", "c"], 2) == [ProofStep(Left, "h(ab)")]
  {
    var level := ["a", "b", "c"];
    var next := ["h(ab)", "h(cc)"];
    var top := ["h(h(ab)h(cc))"];
    ThreeLeafLevels();
    assert StepAt(level, 2) == [];
    assert StepAt(next, 1) == [ProofStep(Left, "h(ab)")];
    assert ProofPath(TermHash, top, 0) == [];
    assert ProofPath(TermHash, next, 1) == [ProofStep(Left, "h(ab)")];
  }

  /** The root of the three leaves hashes the lone leaf with itself. */
  lemma {:induction false} UnpairedLeafRoot()
    ensures MerkleRoot(TermHash, ["a", "b", "c"]) == "h(h(ab)h(cc))"
  {
    var level := ["a", "b", "c"];
    var next := ["h(ab)", "h(cc)"];
    var top := ["h(h(ab)h(cc))"];
    ThreeLeafLevels();
    LevelsAgree(TermHash, level);
    LevelsAgree(TermHash, next);
    assert RootOfLevel(TermHash, level) == RootOfLevel(TermHash, next) == RootOfLevel(TermHash, top);
  }

  /** The corrected step: an unpaired node records itself as its right sibling,
      which is what the level construction hashes it with. */
  function StepAtFixed(level: seq<string>, idx: nat): (r: seq<ProofStep>)
    requires idx < |level|
    ensures |r| == 1
  {
    if idx % 2 == 0 then
      if idx + 1 < |level| then [ProofStep(Right, level[idx + 1])] else [ProofStep(Right, level[idx])]
    else [ProofStep(Left, level[idx - 1])]
  }

  function ProofPathFixed(hash: string -> string, level: seq<string>, idx: nat): seq<ProofStep>
    requires idx < |level|
    decreases |level|
  {
    if |level| <= 1 then []
    else StepAtFixed(level, idx) + ProofPathFixed(hash, NextLevelLone(hash, level), idx / 2)
  }

  lemma {:induction false} FixedStepGivesParent(hash: string -> string, level: seq<string>, idx: nat)
    requires idx < |level|
    ensures Apply(hash, level[idx], StepAtFixed(level, idx)[0]) == NextLevelLone(hash, level)[idx / 2]
  {
    var next := NextLevelLone(hash, level);
    if idx % 2 == 0 {
      if idx + 1 < |level| {
        assert next[idx / 2] == Parent(hash, level[idx], level[idx + 1]);
      } else {
        assert next[idx / 2] == Parent(hash, level[idx], level[idx]);
      }
    } else {
      assert 2 * (idx / 2) == idx - 1;
      assert next[idx / 2] == Parent(hash, level[idx - 1], level[idx]);
    }
  }

  /** With the corrected step every leaf of every tree verifies against the root. */
  lemma {:induction false} FixedPathVerifies(hash: string -> string, level: seq<string>, idx: nat)
    requires idx < |level|
    ensures FoldPath(hash, level[idx], ProofPathFixed(hash, level, idx)) == RootOfLevel(hash, level)
    decreases |level|
  {
    if |level| > 1 {
      var next := NextLevelLone(hash, level);
      var step := StepAtFixed(level, idx);
      var rest := ProofPathFixed(hash, next, idx / 2);
      assert ProofPathFixed(hash, level, idx) == step + rest;
      FoldConcat(hash, level[idx], step, rest);
      FixedStepGivesParent(hash, level, idx);
      FixedPathVerifies(hash, next, idx / 2);
      LevelsAgree(hash, level);
      assert RootOfLevel(hash, level) == RootOfLevel(hash, next);
    }
  }

  /** The corrected path differs from the recorded one only where a node was unpaired. */
  lemma {:induction false} FixedAgreesWhenPaired(hash: string -> string, level: seq<string>, idx: nat)
    requires idx < |level| && AlwaysPaired(hash, level, idx)
    ensures ProofPathFixed(hash, level, idx) == ProofPath(hash, level, idx)
    decreases |level|
  {
    if |level| > 1 {
      FixedAgreesWhenPaired(hash, NextLevelLone(hash, level), idx / 2);
    }
  }
}
