/**
  Records of the ledger (transactions, block headers, blocks, accounts, proposals,
  votes) and the hashing primitives they are identified by.

  SHA-256 itself (FIPS 180-4, section 6.2) and Python's serialisations
  (`str(sorted(d.items()))`, `json.dumps(..., sort_keys=True)`) are not modelled:
  they enter as the uninterpreted functions bundled in `Primitives`.
*/
module Types {
  import opened Wrappers
  import PyStr

  newtype byte = x: int | 0 <= x < 256

  /** A SHA-256 digest: 32 bytes. */
  type Digest = d: seq<byte> | |d| == 32 witness seq(32, _ => 0 as byte)

  // ---------------------------------------------------------------------
  // Lower-case hexadecimal, as produced by `hexdigest()` and `bytes.hex()`

  predicate IsHexChar(c: char) {
    '0' <= c <= '9' || 'a' <= c <= 'f'
  }

  predicate IsHex(s: string) {
    forall i :: 0 <= i < |s| ==> IsHexChar(s[i])
  }

  function HexDigit(n: int): (c: char)
    requires 0 <= n < 16
    ensures IsHexChar(c)
  {
    if n < 10 then ('0' as int + n) as char else ('a' as int + n - 10) as char
  }

  function HexValue(c: char): (n: int)
    requires IsHexChar(c)
    ensures 0 <= n < 16
  {
    if c <= '9' then c as int - '0' as int else c as int - 'a' as int + 10
  }

  function HexEncode(bs: seq<byte>): (r: string)
    ensures |r| == 2 * |bs| && IsHex(r)
  {
    if bs == [] then ""
    else [HexDigit(bs[0] as int / 16), HexDigit(bs[0] as int % 16)] + HexEncode(bs[1..])
  }

  function HexDecode(s: string): (r: seq<byte>)
    requires |s| % 2 == 0 && IsHex(s)
    ensures |r| == |s| / 2
  {
    if s == [] then []
    else [(HexValue(s[0]) * 16 + HexValue(s[1])) as byte] + HexDecode(s[2..])
  }

  /** Hex encoding loses nothing: decoding gives the bytes back. */
  lemma {:induction false} HexRoundTrip(bs: seq<byte>)
    ensures HexDecode(HexEncode(bs)) == bs
  {
    if bs != [] {
      var e := HexEncode(bs);
      var hi, lo := bs[0] as int / 16, bs[0] as int % 16;
      assert HexValue(HexDigit(hi)) == hi && HexValue(HexDigit(lo)) == lo;
      assert e[2..] == HexEncode(bs[1..]);
      HexRoundTrip(bs[1..]);
    }
  }

  /** `calculate_hash`: the lower-case hex digest of SHA-256 over the text. It is
      64 hexadecimal characters and spells out exactly the digest. */
  function CalculateHash(sha256: string -> Digest, data: string): (h: string)
    ensures |h| == 64 && IsHex(h)
    ensures HexDecode(h) == sha256(data)
  {
    HexRoundTrip(sha256(data));
    HexEncode(sha256(data))
  }

  /** `generate_address`: the hex of the first 20 bytes of SHA-256 of the public key,
      so 40 hexadecimal characters that decode to that digest prefix. */
  function GenerateAddress(sha256Bytes: seq<byte> -> Digest, publicKey: seq<byte>): (addr: string)
    ensures |addr| == 40 && IsHex(addr)
    ensures HexDecode(addr) == sha256Bytes(publicKey)[..20]
  {
    HexRoundTrip(sha256Bytes(publicKey)[..20]);
    HexEncode(sha256Bytes(publicKey)[..20])
  }

  /** `"0" * 64`, the genesis block's previous hash. */
  const ZeroHash: string := "0000000000000000000000000000000000000000000000000000000000000000"

  // ---------------------------------------------------------------------
  // Records

  /** A JSON-like value in a transaction's `data` dictionary. */
  datatype Value = Str(s: string) | Int(i: int) | Null

  /** `str(value)`, as an f-string renders it. */
  function Show(v: Value): string {
    match v
    case Str(s) => s
    case Int(i) => PyStr.Decimal(i)
    case Null => "None"
  }

  datatype Transaction = Transaction(
    txType: string,
    sender: string,
    nonce: int,
    gasPrice: int,
    gasLimit: int,
    data: map<string, Value>,
    signature: Option<string>,
    timestamp: int)

  datatype BlockHeader = BlockHeader(
    index: int,
    timestamp: int,
    previousHash: string,
    merkleRoot: string,
    nonce: int)

  /** `hash` is `None` until the block is hashed. */
  datatype Block = Block(header: BlockHeader, transactions: seq<Transaction>, hash: Option<string>)

  /** The weighted `votes` counters of a proposal: "for", "against", "abstain". */
  datatype Tally = Tally(forVotes: real, againstVotes: real, abstainVotes: real)

  const EmptyTally := Tally(0.0, 0.0, 0.0)

  /** The three ballot options, after lower-casing. */
  predicate ValidOption(option: string) {
    option == "for" || option == "against" || option == "abstain"
  }

  /** `votes[option] += w`: only the chosen counter moves, by exactly `w`. */
  function AddToTally(t: Tally, option: string, w: real): (r: Tally)
    requires ValidOption(option)
    ensures r.forVotes + r.againstVotes + r.abstainVotes == t.forVotes + t.againstVotes + t.abstainVotes + w
    ensures option == "for" ==> r == t.(forVotes := t.forVotes + w)
    ensures option == "against" ==> r == t.(againstVotes := t.againstVotes + w)
    ensures option == "abstain" ==> r == t.(abstainVotes := t.abstainVotes + w)
  {
    if option == "for" then t.(forVotes := t.forVotes + w)
    else if option == "against" then t.(againstVotes := t.againstVotes + w)
    else t.(abstainVotes := t.abstainVotes + w)
  }

  /** A root-cause proposal as kept in its proposer's account. */
  datatype Proposal = Proposal(proposer: string, content: Value, timestamp: int, votes: Tally)

  /** A ballot as kept in the voter's account; the governance contract stores the weight,
      the executor does not. */
  datatype VoteRecord = VoteRecord(proposalId: string, option: string, weight: Option<real>, timestamp: int)

  datatype Analysis = Analysis(submitter: string, content: Value, timestamp: int, status: string)

  /** One account record carrying the fields of both account classes of the source:
      `stake` and `reputation` (contracts) and `staked_amount` (executor). */
  datatype Account = Account(
    address: string,
    name: string,
    balance: int,
    stake: int,
    stakedAmount: int,
    reputation: int,
    nonce: int,
    rootCauseProposals: map<string, Proposal>,
    votes: map<string, VoteRecord>,
    analyses: map<string, Analysis>)

  /** `Account(address=address)`: every other field at its default. */
  function NewAccount(address: string): (a: Account)
    ensures a.address == address && a.balance == 0 && a.stake == 0 && a.stakedAmount == 0
    ensures a.reputation == 100 && a.nonce == 0
    ensures a.rootCauseProposals == map[] && a.votes == map[] && a.analyses == map[]
  {
    Account(address, "", 0, 0, 0, 100, 0, map[], map[], map[])
  }

  // ---------------------------------------------------------------------
  // Hashing primitives

  /** The uninterpreted pieces: SHA-256 over a text, and the three serialisations
      the source hashes (`str(sorted(tx.model_dump().items()))`, `json.dumps` of a
      transaction, `json.dumps` of a block header). `jsonTxUnsigned` is the
      serialisation of `tx.dict(exclude={'signature'})`; it is only ever applied to a
      transaction whose signature is cleared. */
  datatype Primitives = Primitives(
    sha256: string -> Digest,
    reprTx: Transaction -> string,
    jsonTx: Transaction -> string,
    jsonTxUnsigned: Transaction -> string,
    jsonHeader: BlockHeader -> string)

  /** `calculate_hash` as a plain function value. */
  function Hasher(p: Primitives): string -> string {
    s => CalculateHash(p.sha256, s)
  }

  /** The Merkle leaf of a transaction. */
  function TxLeaf(p: Primitives, tx: Transaction): string {
    CalculateHash(p.sha256, p.reprTx(tx))
  }

  /** The leaf hashes of a block's transactions, in block order. */
  function Leaves(p: Primitives, txs: seq<Transaction>): (r: seq<string>)
    ensures |r| == |txs|
    ensures forall k :: 0 <= k < |txs| ==> r[k] == TxLeaf(p, txs[k])
  {
    seq(|txs|, k requires 0 <= k < |txs| => TxLeaf(p, txs[k]))
  }
}
