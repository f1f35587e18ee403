/**
  The world state (mABC/core/state.py): the dictionary from address to account that
  every contract and the executor read and write.

  The dictionary is a `Ledger`: the accounts by address together with the order in
  which the addresses were first inserted, since Python dictionaries iterate in that
  order and `get_all_proposals` and the governance contract depend on it.

  The source mutates account objects that are stored in the dictionary and then
  writes them back. An object fetched from the dictionary is the one stored under its
  own address, so each field change is modelled as an immediate write of the changed
  account (`Put`) and every later read goes back to the ledger. This reproduces the
  aliasing of the source exactly, e.g. a transfer to oneself changes nothing.
*/
module State {
  import opened Wrappers
  import opened Types

  datatype Ledger = Ledger(accounts: map<string, Account>, order: seq<string>)

  /** The empty world state. */
  const EmptyLedger := Ledger(map[], [])

  /** The insertion order lists exactly the stored addresses, each once, and every
      account is stored under its own address. */
  ghost predicate LedgerValid(l: Ledger) {
    && (forall a :: a in l.accounts <==> a in l.order)
    && Distinct(l.order)
    && (forall a :: a in l.accounts ==> l.accounts[a].address == a)
  }

  ghost predicate Distinct(s: seq<string>) {
    forall i, j :: 0 <= i < j < |s| ==> s[i] != s[j]
  }

  /** `get_account`. */
  function Get(l: Ledger, address: string): (r: Option<Account>)
    ensures r.Some? <==> address in l.accounts
    ensures r.Some? ==> r.value == l.accounts[address]
  {
    if address in l.accounts then Some(l.accounts[address]) else None
  }

  /** `update_account`: store the account under its address; a new address goes to
      the end of the insertion order, an existing one keeps its place. */
  function Put(l: Ledger, account: Account): Ledger {
    if account.address in l.accounts then Ledger(l.accounts[account.address := account], l.order)
    else Ledger(l.accounts[account.address := account], l.order + [account.address])
  }

  /** `create_account`: the stored account if there is one, otherwise a fresh account
      that is stored first. */
  function Create(l: Ledger, address: string): (r: (Ledger, Account))
    ensures address in r.0.accounts && r.1 == r.0.accounts[address]
    ensures address in l.accounts ==> r == (l, l.accounts[address])
    ensures address !in l.accounts ==> r.1 == NewAccount(address) && r.0 == Put(l, NewAccount(address))
  {
    if address in l.accounts then (l, l.accounts[address])
    else (Put(l, NewAccount(address)), NewAccount(address))
  }

  /** `create_account` when only the resulting state matters. */
  function Ensure(l: Ledger, address: string): (r: Ledger)
    ensures address in r.accounts
  {
    Create(l, address).0
  }

  /** `get_balance`: 0 for an unknown address. */
  function BalanceOf(l: Ledger, address: string): (b: int)
    ensures address !in l.accounts ==> b == 0
    ensures address in l.accounts ==> b == l.accounts[address].balance
  {
    if address in l.accounts then l.accounts[address].balance else 0
  }

  /** A change made in place to the account object held under `address`, which is
      then written back under the address it was fetched by; the insertion order is
      unchanged. */
  function Store(l: Ledger, address: string, account: Account): Ledger
    requires address in l.accounts
  {
    Ledger(l.accounts[address := account], l.order)
  }

  /** `account.balance = balance` on the stored account. */
  function SetBalance(l: Ledger, address: string, balance: int): Ledger
    requires address in l.accounts
  {
    Store(l, address, l.accounts[address].(balance := balance))
  }

  /** `transfer_balance`: refuse when the sender is missing or holds less than `amount`
      (the sign of `amount` is not checked); otherwise create the recipient if needed,
      debit the sender and credit the recipient. */
  function Transferred(l: Ledger, from: string, to: string, amount: int): (r: (Ledger, bool))
  {
    if from !in l.accounts || l.accounts[from].balance < amount then (l, false)
    else (DebitCredit(Ensure(l, to), from, to, amount), true)
  }

  /** The two balance changes of a transfer on the stored accounts: the recipient is
      read after the sender is debited, so a transfer to oneself nets out. */
  function DebitCredit(l: Ledger, from: string, to: string, amount: int): Ledger
    requires from in l.accounts && to in l.accounts
  {
    var l2 := SetBalance(l, from, l.accounts[from].balance - amount);
    SetBalance(l2, to, l2.accounts[to].balance + amount)
  }

  /** `increment_nonce`: create the account if needed, raise its nonce by one and
      return the new nonce. */
  function NonceIncremented(l: Ledger, address: string): (r: (Ledger, int))
  {
    var l1 := Ensure(l, address);
    var account := l1.accounts[address];
    (Store(l1, address, account.(nonce := account.nonce + 1)), account.nonce + 1)
  }

  /** `add_root_cause_proposal`: create the proposer if needed and store the proposal
      under its id, replacing any earlier one. */
  function ProposalAdded(l: Ledger, proposer: string, proposalId: string, proposal: Proposal): (r: Ledger)
  {
    var l1 := Ensure(l, proposer);
    var account := l1.accounts[proposer];
    Store(l1, proposer, account.(rootCauseProposals := account.rootCauseProposals[proposalId := proposal]))
  }

  /** `add_vote`: create the voter if needed and store the vote under the proposal id,
      replacing the voter's earlier vote on it. */
  function VoteAdded(l: Ledger, voter: string, proposalId: string, vote: VoteRecord): (r: Ledger)
  {
    var l1 := Ensure(l, voter);
    var account := l1.accounts[voter];
    Store(l1, voter, account.(votes := account.votes[proposalId := vote]))
  }

  /** `add_analysis`: create the submitter if needed and store the analysis under its id. */
  function AnalysisAdded(l: Ledger, proposer: string, analysisId: string, analysis: Analysis): (r: Ledger)
  {
    var l1 := Ensure(l, proposer);
    var account := l1.accounts[proposer];
    Store(l1, proposer, account.(analyses := account.analyses[analysisId := analysis]))
  }

  /** The proposals of the first `n` accounts in insertion order merged with
      `dict.update`: a later account's proposal replaces an earlier one with its id. */
  function ProposalsUpTo(l: Ledger, n: nat): map<string, Proposal>
    requires LedgerValid(l) && n <= |l.order|
  {
    if n == 0 then map[]
    else ProposalsUpTo(l, n - 1) + l.accounts[l.order[n - 1]].rootCauseProposals
  }

  /** `get_all_proposals`. */
  function AllProposals(l: Ledger): map<string, Proposal>
    requires LedgerValid(l)
  {
    ProposalsUpTo(l, |l.order|)
  }

  /** `get_proposal_votes`: the vote on `proposalId` of every account holding one,
      keyed by address. */
  function ProposalVotes(l: Ledger, proposalId: string): (r: map<string, VoteRecord>)
    ensures forall a :: a in r <==> a in l.accounts && proposalId in l.accounts[a].votes
    ensures forall a :: a in r ==> r[a] == l.accounts[a].votes[proposalId]
  {
    map a | a in l.accounts && proposalId in l.accounts[a].votes :: l.accounts[a].votes[proposalId]
  }

  /** The balance stored under `k`, 0 when there is none. */
  function BalanceIn(accounts: map<string, Account>, k: string): int {
    if k in accounts then accounts[k].balance else 0
  }

  /** The sum of the balances stored under the addresses listed in `keys`. */
  function SumBalances(accounts: map<string, Account>, keys: seq<string>): int {
    if keys == [] then 0
    else SumBalances(accounts, keys[..|keys| - 1]) + BalanceIn(accounts, keys[|keys| - 1])
  }

  /** The total balance held in the world state. */
  function TotalBalance(l: Ledger): int {
    SumBalances(l.accounts, l.order)
  }

  // ---------------------------------------------------------------------
  // Lemmas

  /** Replacing the account under `k` changes the sum by the change of its balance when
      `k` is listed once, and not at all when it is not listed. */
  lemma {:induction false} SumReplace(accounts: map<string, Account>, keys: seq<string>, k: string, account: Account)
    requires Distinct(keys)
    ensures SumBalances(accounts[k := account], keys) ==
      SumBalances(accounts, keys) + (if k in keys then account.balance - BalanceIn(accounts, k) else 0)
    decreases |keys|
  {
    if keys != [] {
      var init := keys[..|keys| - 1];
      assert Distinct(init);
      SumReplace(accounts, init, k, account);
      assert k in keys <==> k in init || k == keys[|keys| - 1];
      if k == keys[|keys| - 1] {
        assert k !in init;
      }
    }
  }

  /** Listing one more address adds the balance stored under it. */
  lemma {:induction false} SumAppend(accounts: map<string, Account>, keys: seq<string>, k: string)
    ensures SumBalances(accounts, keys + [k]) == SumBalances(accounts, keys) + BalanceIn(accounts, k)
  {
    var keys' := keys + [k];
    assert keys'[..|keys'| - 1] == keys;
  }

  /** `update_account` changes the total by the change of the stored balance; a new
      account adds its balance. */
  lemma {:induction false} PutTotal(l: Ledger, account: Account)
    requires LedgerValid(l)
    ensures TotalBalance(Put(l, account)) ==
      TotalBalance(l) + account.balance - BalanceOf(l, account.address)
  {
    SumReplace(l.accounts, l.order, account.address, account);
    if account.address !in l.accounts {
      SumAppend(l.accounts[account.address := account], l.order, account.address);
    }
  }

  /** `update_account` keeps the world state well formed: the account is stored under
      its own address, and a new address is listed once, at the end. */
  lemma {:induction false} PutValid(l: Ledger, account: Account)
    requires LedgerValid(l)
    ensures LedgerValid(Put(l, account))
  {
  }

  /** Changing a stored account in place keeps the world state well formed: the
      object keeps the address it is stored under. */
  lemma {:induction false} StoreValid(l: Ledger, address: string, account: Account)
    requires LedgerValid(l) && address in l.accounts && account.address == address
    ensures LedgerValid(Store(l, address, account))
  {
  }

  /** `create_account` keeps the world state well formed and keeps every stored
      account. */
  lemma {:induction false} EnsureValid(l: Ledger, address: string)
    requires LedgerValid(l)
    ensures LedgerValid(Ensure(l, address))
    ensures forall a :: a in l.accounts ==> a in Ensure(l, address).accounts && Ensure(l, address).accounts[a] == l.accounts[a]
  {
    if address !in l.accounts {
      PutValid(l, NewAccount(address));
    }
  }

  /** The two balance changes of a transfer keep the world state well formed. */
  lemma {:induction false} DebitCreditValid(l: Ledger, from: string, to: string, amount: int)
    requires LedgerValid(l) && from in l.accounts && to in l.accounts
    ensures LedgerValid(DebitCredit(l, from, to, amount))
  {
    var l2 := SetBalance(l, from, l.accounts[from].balance - amount);
    StoreValid(l, from, l2.accounts[from]);
    StoreValid(l2, to, l2.accounts[to].(balance := l2.accounts[to].balance + amount));
  }

  /** `create_account` is idempotent: an existing account is returned, not replaced. */
  lemma {:induction false} CreateIdempotent(l: Ledger, address: string)
    ensures var (l1, a1) := Create(l, address);
      Create(l1, address) == (l1, a1) && l1.accounts[address] == a1
    ensures address in l.accounts ==> Create(l, address).0 == l
  {
  }

  /** A transfer is refused exactly when the sender is missing or short of funds, and a
      refused transfer changes nothing. */
  lemma {:induction false} TransferRefusal(l: Ledger, from: string, to: string, amount: int)
    ensures !Transferred(l, from, to, amount).1 <==> from !in l.accounts || l.accounts[from].balance < amount
    ensures !Transferred(l, from, to, amount).1 ==> Transferred(l, from, to, amount).0 == l
  {
  }

  /** A successful transfer debits the sender and credits the recipient by `amount`,
      creating the recipient if it was missing; a transfer to oneself changes nothing. */
  lemma {:induction false} TransferMoves(l: Ledger, from: string, to: string, amount: int)
    requires LedgerValid(l) && Transferred(l, from, to, amount).1
    ensures var r := Transferred(l, from, to, amount).0;
      && to in r.accounts
      && (from != to ==> BalanceOf(r, from) == BalanceOf(l, from) - amount)
      && (from != to ==> BalanceOf(r, to) == BalanceOf(l, to) + amount)
      && (from == to ==> r == l)
  {
    var l1 := Ensure(l, to);
    var f := l1.accounts[from];
    var l2 := SetBalance(l1, from, f.balance - amount);
    var t := l2.accounts[to];
    var r := SetBalance(l2, to, t.balance + amount);
    if from == to {
      assert l1 == l;
      assert t == f.(balance := f.balance - amount);
      assert r.accounts[from] == l.accounts[from];
      assert r.accounts == l.accounts;
    } else {
      assert t == l1.accounts[to];
    }
  }

  /** A transfer touches no account other than the sender and the recipient. */
  lemma {:induction false} TransferFrames(l: Ledger, from: string, to: string, amount: int, other: string)
    requires LedgerValid(l) && other in l.accounts && other != from && other != to
    ensures Get(Transferred(l, from, to, amount).0, other) == Get(l, other)
  {
  }

  /** Debiting one listed account and crediting another (or the same) by the same
      amount leaves the total as it was, when no address is listed twice. */
  lemma {:induction false} DebitCreditSum(l: Ledger, from: string, to: string, amount: int)
    requires Distinct(l.order) && from in l.order && to in l.order
    requires from in l.accounts && to in l.accounts
    ensures TotalBalance(DebitCredit(l, from, to, amount)) == TotalBalance(l)
  {
    var l2 := SetBalance(l, from, l.accounts[from].balance - amount);
    SumReplace(l.accounts, l.order, from, l2.accounts[from]);
    SumReplace(l2.accounts, l.order, to, l2.accounts[to].(balance := l2.accounts[to].balance + amount));
  }

  /** `create_account` on a well-formed state lists the address once, keeps every
      listed address, and adds nothing to the total: a new account starts at zero. */
  lemma {:induction false} EnsureListed(l: Ledger, address: string)
    requires LedgerValid(l)
    ensures var l1 := Ensure(l, address);
      && Distinct(l1.order) && address in l1.order
      && (forall a :: a in l.order ==> a in l1.order)
      && TotalBalance(l1) == TotalBalance(l)
  {
    if address !in l.accounts {
      var l1 := Ensure(l, address);
      assert l1.order == l.order + [address];
      SumReplace(l.accounts, l.order, address, NewAccount(address));
      SumAppend(l1.accounts, l.order, address);
    }
  }

  /** A transfer preserves the total balance of a well-formed world state. */
  lemma {:induction false} TransferConserves(l: Ledger, from: string, to: string, amount: int)
    requires LedgerValid(l)
    ensures TotalBalance(Transferred(l, from, to, amount).0) == TotalBalance(l)
  {
    if from in l.accounts && l.accounts[from].balance >= amount {
      EnsureListed(l, to);
      var l1 := Ensure(l, to);
      DebitCreditSum(l1, from, to, amount);
    }
  }

  /** A transfer keeps the world state well formed. */
  lemma {:induction false} TransferKeepsValid(l: Ledger, from: string, to: string, amount: int)
    requires LedgerValid(l)
    ensures LedgerValid(Transferred(l, from, to, amount).0)
  {
    if from in l.accounts && l.accounts[from].balance >= amount {
      if to !in l.accounts {
        PutValid(l, NewAccount(to));
      }
      DebitCreditValid(Ensure(l, to), from, to, amount);
    }
  }

  /** No sign check: a negative amount moves value from the recipient to the sender. */
  lemma {:induction false} TransferNegativeAmount(l: Ledger, from: string, to: string, amount: int)
    requires LedgerValid(l) && amount < 0 && from != to
    requires from in l.accounts && l.accounts[from].balance >= amount
    ensures Transferred(l, from, to, amount).1
    ensures Transferred(l, from, to, amount).0.accounts[from].balance > l.accounts[from].balance
  {
  }

  /** `increment_nonce` raises the nonce by exactly one (from 0 for a new account),
      returns it, and changes nothing else. */
  lemma {:induction false} IncrementNonceStep(l: Ledger, address: string)
    requires LedgerValid(l)
    ensures var (r, n) := NonceIncremented(l, address);
      && n == (if address in l.accounts then l.accounts[address].nonce else 0) + 1
      && r.accounts[address].nonce == n
      && r.accounts[address] == (if address in l.accounts then l.accounts[address] else NewAccount(address)).(nonce := n)
      && (forall a :: a in l.accounts && a != address ==> r.accounts[a] == l.accounts[a])
  {
  }

  /** `add_vote` overwrites the voter's vote on the proposal (last write wins) and
      nothing else changes. */
  lemma {:induction false} AddVoteOverwrites(l: Ledger, voter: string, proposalId: string, vote: VoteRecord)
    requires LedgerValid(l)
    ensures var r := VoteAdded(l, voter, proposalId, vote);
      && r.accounts[voter].votes == Get(l, voter).GetOr(NewAccount(voter)).votes[proposalId := vote]
      && r.accounts[voter] == Get(l, voter).GetOr(NewAccount(voter)).(votes := r.accounts[voter].votes)
      && (forall a :: a in l.accounts && a != voter ==> r.accounts[a] == l.accounts[a])
  {
  }

  /** `add_root_cause_proposal` stores the proposal under its id in the proposer's
      account, created if needed; every other field and every other account is
      unchanged. */
  lemma {:induction false} ProposalAddedStores(l: Ledger, proposer: string, proposalId: string, proposal: Proposal)
    requires LedgerValid(l)
    ensures var r := ProposalAdded(l, proposer, proposalId, proposal);
      && LedgerValid(r)
      && r.accounts[proposer].rootCauseProposals == Get(l, proposer).GetOr(NewAccount(proposer)).rootCauseProposals[proposalId := proposal]
      && r.accounts[proposer] == Get(l, proposer).GetOr(NewAccount(proposer)).(rootCauseProposals := r.accounts[proposer].rootCauseProposals)
      && (forall a :: a in l.accounts && a != proposer ==> r.accounts[a] == l.accounts[a])
  {
  }

  /** `add_analysis` stores the analysis under its id in the proposer's account,
      created if needed; every other field and every other account is unchanged. */
  lemma {:induction false} AnalysisAddedStores(l: Ledger, proposer: string, analysisId: string, analysis: Analysis)
    requires LedgerValid(l)
    ensures var r := AnalysisAdded(l, proposer, analysisId, analysis);
      && LedgerValid(r)
      && r.accounts[proposer].analyses == Get(l, proposer).GetOr(NewAccount(proposer)).analyses[analysisId := analysis]
      && r.accounts[proposer] == Get(l, proposer).GetOr(NewAccount(proposer)).(analyses := r.accounts[proposer].analyses)
      && (forall a :: a in l.accounts && a != proposer ==> r.accounts[a] == l.accounts[a])
  {
  }

  /** Voting twice keeps only the second vote. */
  lemma {:induction false} AddVoteLastWins(l: Ledger, voter: string, proposalId: string, first: VoteRecord, second: VoteRecord)
    requires LedgerValid(l)
    ensures VoteAdded(VoteAdded(l, voter, proposalId, first), voter, proposalId, second)
      == VoteAdded(l, voter, proposalId, second)
  {
    var l1 := VoteAdded(l, voter, proposalId, first);
    var l2 := VoteAdded(l1, voter, proposalId, second);
    var r := VoteAdded(l, voter, proposalId, second);
    var a := Ensure(l, voter).accounts[voter];
    assert l1.accounts[voter] == a.(votes := a.votes[proposalId := first]);
    assert a.votes[proposalId := first][proposalId := second] == a.votes[proposalId := second];
    assert l2.accounts[voter] == r.accounts[voter];
    assert l2.order == r.order;
    assert l2.accounts == r.accounts;
  }

  /** After `add_vote`, `get_proposal_votes` returns the new vote for that voter. */
  lemma {:induction false} VoteThenQuery(l: Ledger, voter: string, proposalId: string, vote: VoteRecord)
    requires LedgerValid(l)
    ensures var votes := ProposalVotes(VoteAdded(l, voter, proposalId, vote), proposalId);
      voter in votes && votes[voter] == vote
  {
  }

  /** A proposal id is in `get_all_proposals` exactly when some account holds it. */
  lemma {:induction false} ProposalsUpToHas(l: Ledger, n: nat, id: string)
    requires LedgerValid(l) && n <= |l.order|
    ensures id in ProposalsUpTo(l, n) <==> exists i :: 0 <= i < n && id in l.accounts[l.order[i]].rootCauseProposals
  {
    if n > 0 {
      ProposalsUpToHas(l, n - 1, id);
      if id in l.accounts[l.order[n - 1]].rootCauseProposals {
        assert id in ProposalsUpTo(l, n);
      }
    }
  }

  /** `get_all_proposals` is the union of every account's proposals; where several
      accounts hold one id, the one latest in insertion order wins. */
  lemma {:induction false} ProposalsUpToLastWins(l: Ledger, n: nat, id: string, i: nat)
    requires LedgerValid(l) && i < n <= |l.order|
    requires id in l.accounts[l.order[i]].rootCauseProposals
    requires forall j :: i < j < n ==> id !in l.accounts[l.order[j]].rootCauseProposals
    ensures id in ProposalsUpTo(l, n)
    ensures ProposalsUpTo(l, n)[id] == l.accounts[l.order[i]].rootCauseProposals[id]
  {
    if n - 1 > i {
      ProposalsUpToLastWins(l, n - 1, id, i);
    }
  }

  lemma {:induction false} AllProposalsUnion(l: Ledger, id: string)
    requires LedgerValid(l)
    ensures id in AllProposals(l) <==> exists a :: a in l.accounts && id in l.accounts[a].rootCauseProposals
  {
    ProposalsUpToHas(l, |l.order|, id);
    if exists a :: a in l.accounts && id in l.accounts[a].rootCauseProposals {
      var a :| a in l.accounts && id in l.accounts[a].rootCauseProposals;
      var i :| 0 <= i < |l.order| && l.order[i] == a;
    }
  }

  // ---------------------------------------------------------------------
  // The object

  class WorldState {
    /** `self.state`. */
    var state: Ledger

    ghost predicate Valid()
      reads this
    {
      LedgerValid(state)
    }

    /** `__init__`: an empty state (loading from storage is a no-op in the source). */
    constructor ()
      ensures Valid() && state == EmptyLedger
    {
      state := EmptyLedger;
    }

    method GetAccount(address: string) returns (account: Option<Account>)
      ensures account.Some? <==> address in state.accounts
      ensures account.Some? ==> account.value == state.accounts[address]
    {
      if address in state.accounts {
        account := Some(state.accounts[address]);
      } else {
        account := None;
      }
    }

    method CreateAccount(address: string) returns (account: Account)
      requires Valid()
      modifies this
      ensures Valid()
      ensures (state, account) == Create(old(state), address)
    {
      if address !in state.accounts {
        PutValid(state, NewAccount(address));
        state := Put(state, NewAccount(address));
      }
      account := state.accounts[address];
    }

    method UpdateAccount(account: Account)
      requires Valid()
      modifies this
      ensures Valid() && state == Put(old(state), account)
    {
      PutValid(state, account);
      state := Put(state, account);
    }

    method GetBalance(address: string) returns (balance: int)
      requires Valid()
      ensures balance == BalanceOf(state, address)
      ensures address !in state.accounts ==> balance == 0
    {
      var account := GetAccount(address);
      balance := if account.Some? then account.value.balance else 0;
    }

    method TransferBalance(from: string, to: string, amount: int) returns (ok: bool)
      requires Valid()
      modifies this
      ensures Valid()
      ensures (state, ok) == Transferred(old(state), from, to, amount)
    {
      var fromAccount := GetAccount(from);
      var toAccount := GetAccount(to);
      if fromAccount.None? || fromAccount.value.balance < amount {
        return false;
      }
      if toAccount.None? {
        var created := CreateAccount(to);
      }
      MoveBalance(from, to, amount);
      return true;
    }

    /** The two balance changes of `transfer_balance`, made on the objects held in the
        dictionary; writing them back with `update_account` changes nothing more. */
    method MoveBalance(from: string, to: string, amount: int)
      requires Valid() && from in state.accounts && to in state.accounts
      modifies this
      ensures Valid() && state == DebitCredit(old(state), from, to, amount)
    {
      DebitCreditValid(state, from, to, amount);
      // `from_account.balance -= amount`
      var debited := SetBalance(state, from, state.accounts[from].balance - amount);
      // `to_account.balance += amount`: the object may be the one just debited
      state := SetBalance(debited, to, debited.accounts[to].balance + amount);
    }

    /** The object behind `account` is the one held in the dictionary, so a field
        change on it followed by `update_account` is a change stored in place. */
    method StoreAccount(address: string, account: Account)
      requires Valid() && address in state.accounts && account.address == address
      modifies this
      ensures Valid() && state == Store(old(state), address, account)
    {
      StoreValid(state, address, account);
      state := Store(state, address, account);
    }

    method IncrementNonce(address: string) returns (nonce: int)
      requires Valid()
      modifies this
      ensures Valid()
      ensures (state, nonce) == NonceIncremented(old(state), address)
    {
      var account := GetAccount(address);
      if account.None? {
        var created := CreateAccount(address);
        account := Some(created);
      }
      var a := account.value;
      a := a.(nonce := a.nonce + 1);
      StoreAccount(address, a);
      return a.nonce;
    }

    method AddRootCauseProposal(proposer: string, proposalId: string, proposal: Proposal)
      requires Valid()
      modifies this
      ensures Valid() && state == ProposalAdded(old(state), proposer, proposalId, proposal)
    {
      var account := GetAccount(proposer);
      if account.None? {
        var created := CreateAccount(proposer);
        account := Some(created);
      }
      var a := account.value;
      StoreAccount(proposer, a.(rootCauseProposals := a.rootCauseProposals[proposalId := proposal]));
    }

    method AddVote(voter: string, proposalId: string, vote: VoteRecord)
      requires Valid()
      modifies this
      ensures Valid() && state == VoteAdded(old(state), voter, proposalId, vote)
    {
      var account := GetAccount(voter);
      if account.None? {
        var created := CreateAccount(voter);
        account := Some(created);
      }
      var a := account.value;
      StoreAccount(voter, a.(votes := a.votes[proposalId := vote]));
    }

    method AddAnalysis(proposer: string, analysisId: string, analysis: Analysis)
      requires Valid()
      modifies this
      ensures Valid() && state == AnalysisAdded(old(state), proposer, analysisId, analysis)
    {
      var account := GetAccount(proposer);
      if account.None? {
        var created := CreateAccount(proposer);
        account := Some(created);
      }
      var a := account.value;
      StoreAccount(proposer, a.(analyses := a.analyses[analysisId := analysis]));
    }

    /** `get_all_proposals`: merge the accounts' proposals in insertion order. */
    method GetAllProposals() returns (allProposals: map<string, Proposal>)
      requires Valid()
      ensures allProposals == AllProposals(state)
      ensures forall id :: id in allProposals <==>
        exists a :: a in state.accounts && id in state.accounts[a].rootCauseProposals
    {
      allProposals := map[];
      for i := 0 to |state.order|
        invariant allProposals == ProposalsUpTo(state, i)
      {
        allProposals := allProposals + state.accounts[state.order[i]].rootCauseProposals;
      }
      forall id ensures id in allProposals <==>
        exists a :: a in state.accounts && id in state.accounts[a].rootCauseProposals
      {
        AllProposalsUnion(state, id);
      }
    }

    /** `get_proposal_votes`: collect, account by account, the vote on `proposalId`. */
    method GetProposalVotes(proposalId: string) returns (proposalVotes: map<string, VoteRecord>)
      requires Valid()
      ensures proposalVotes == ProposalVotes(state, proposalId)
    {
      proposalVotes := map[];
      for i := 0 to |state.order|
        invariant forall a :: a in proposalVotes <==>
          a in state.order[..i] && proposalId in state.accounts[a].votes
        invariant forall a :: a in proposalVotes ==> proposalVotes[a] == state.accounts[a].votes[proposalId]
      {
        var address := state.order[i];
        var account := state.accounts[address];
        assert state.order[..i + 1] == state.order[..i] + [address];
        if proposalId in account.votes {
          // keyed by `account.address`, which is the key it is stored under
          proposalVotes := proposalVotes[account.address := account.votes[proposalId]];
        }
      }
      assert state.order[..|state.order|] == state.order;
    }
  }
}
