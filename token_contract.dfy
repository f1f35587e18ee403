/**
  The token contract (mABC/contracts/token_contract.py): transfer, stake, slash, reward
  and penalty on the accounts of the world state.

  The source reads its arguments out of a `tx_data` dictionary; here they are typed
  parameters: an address is an `Option<string>` (absent or empty is falsy), an amount
  an `Option<int>`. Where the source supplies a default with `tx_data.get(key, 0)` the
  parameter is still optional and the default is applied inside.
*/
module Token {
  import opened Wrappers
  import opened Types
  import opened State

  /** `not address`: absent or the empty string. */
  predicate Falsy(address: Option<string>) {
    address.None? || address.value == ""
  }

  /** `max(0, min(100, x))`: reputation is kept between 0 and 100. */
  function Clamp(x: int): (r: int)
    ensures 0 <= r <= 100
    ensures 0 <= x <= 100 ==> r == x
    ensures x < 0 ==> r == 0
    ensures x > 100 ==> r == 100
  {
    if x < 0 then 0 else if x > 100 then 100 else x
  }

  /** Add `delta` to the reputation of a stored account and clamp it; nothing happens
      when `delta` is zero. */
  function AdjustReputation(l: Ledger, address: string, delta: int): Ledger
    requires address in l.accounts
  {
    if delta == 0 then l
    else
      var a := l.accounts[address];
      Store(l, address, a.(reputation := Clamp(a.reputation + delta)))
  }

  // ---------------------------------------------------------------------
  // The operations on values

  /** `transfer`: the guards of the contract, then the world state's transfer. */
  function TransferOutcome(l: Ledger, to: Option<string>, amount: Option<int>, sender: string): (r: (Ledger, bool))
    ensures r.1 <==> (!Falsy(to) && amount.Some? && amount.value >= 0
      && sender in l.accounts && l.accounts[sender].balance >= amount.value)
    ensures !r.1 ==> r.0 == l
    ensures r.1 ==> r == Transferred(l, sender, to.value, amount.value)
  {
    if Falsy(to) || amount.None? || amount.value < 0 then (l, false)
    else if sender !in l.accounts || l.accounts[sender].balance < amount.value then (l, false)
    else (DebitCredit(Ensure(l, to.value), sender, to.value, amount.value), true)
  }

  /** `stake`: move `amount` from the sender's balance to its stake. */
  function StakeOutcome(l: Ledger, amount: Option<int>, sender: string): (r: (Ledger, bool))
    ensures r.1 <==> (amount.Some? && amount.value >= 0
      && sender in l.accounts && l.accounts[sender].balance >= amount.value)
    ensures !r.1 ==> r.0 == l
  {
    if amount.None? || amount.value < 0 then (l, false)
    else if sender !in l.accounts || l.accounts[sender].balance < amount.value then (l, false)
    else
      var a := l.accounts[sender];
      (Store(l, sender, a.(balance := a.balance - amount.value, stake := a.stake + amount.value)), true)
  }

  /** `slash`: take up to `amount` from the target's stake; the tokens taken go nowhere. */
  function SlashOutcome(l: Ledger, target: Option<string>, amount: Option<int>): (r: (Ledger, bool))
    ensures r.1 <==> !Falsy(target) && amount.Some? && amount.value >= 0 && target.value in l.accounts
    ensures !r.1 ==> r.0 == l
  {
    if Falsy(target) || amount.None? || amount.value < 0 then (l, false)
    else if target.value !in l.accounts then (l, false)
    else
      var a := l.accounts[target.value];
      var taken := if a.stake < amount.value then a.stake else amount.value;
      (Store(l, target.value, a.(stake := a.stake - taken)), true)
  }

  /** `reward`: create the sender and the target, then (for a positive amount) move the
      amount from sender to target, failing if the sender cannot pay, then adjust the
      target's reputation. The two accounts stay created when the payment fails. */
  function RewardOutcome(l: Ledger, sender: string, target: Option<string>, amount: Option<int>, reputation: Option<int>): (r: (Ledger, bool))
    ensures Falsy(target) ==> r == (l, false)
  {
    if Falsy(target) then (l, false)
    else
      var amt := amount.GetOr(0);
      var l2 := Ensure(Ensure(l, sender), target.value);
      if amt > 0 && l2.accounts[sender].balance < amt then (l2, false)
      else (AdjustReputation(Paid(l2, sender, target.value, amt), target.value, reputation.GetOr(0)), true)
  }

  /** The payment of a reward: only a positive amount moves. */
  function Paid(l: Ledger, from: string, to: string, amount: int): (r: Ledger)
    requires from in l.accounts && to in l.accounts
    ensures to in r.accounts
  {
    if amount > 0 then DebitCredit(l, from, to, amount) else l
  }

  /** The amount `penalty` takes from a balance: `min(amount, max(0, balance))`. */
  function PenaltyDebit(amount: int, balance: int): (d: int)
    requires amount >= 0
    ensures 0 <= d <= amount
    ensures d <= balance || d == 0
    ensures balance >= amount ==> d == amount
    ensures 0 <= balance < amount ==> d == balance
  {
    var cap := if balance > 0 then balance else 0;
    if amount < cap then amount else cap
  }

  /** `penalty`: take up to `amount` of the target's balance, credit it to the treasury
      account when there is one, then adjust the target's reputation. `treasury` stands
      for the account the chain reports as its treasury (created if absent). */
  function PenaltyOutcome(l: Ledger, target: Option<string>, amount: Option<int>, reputation: Option<int>, treasury: Option<string>): (r: (Ledger, bool))
    ensures r.1 <==> !Falsy(target) && amount.GetOr(0) >= 0 && target.value in l.accounts
    ensures !r.1 ==> r.0 == l
  {
    var amt := amount.GetOr(0);
    if Falsy(target) || amt < 0 then (l, false)
    else if target.value !in l.accounts then (l, false)
    else
      var t := target.value;
      var debit := PenaltyDebit(amt, l.accounts[t].balance);
      var l1 := if debit > 0 then Penalize(l, t, debit, treasury) else l;
      (AdjustReputation(l1, t, reputation.GetOr(0)), true)
  }

  /** The balance moves of a penalty: debit the target, credit the treasury. */
  function Penalize(l: Ledger, target: string, debit: int, treasury: Option<string>): (r: Ledger)
    requires target in l.accounts
    ensures target in r.accounts
  {
    var l1 := SetBalance(l, target, l.accounts[target].balance - debit);
    if treasury.None? then l1 else Credit(l1, treasury.value, debit)
  }

  /** `treasury.balance = (treasury.balance or 0) + amount` on the treasury account,
      created if absent. */
  function Credit(l: Ledger, address: string, amount: int): Ledger {
    var l1 := Ensure(l, address);
    SetBalance(l1, address, l1.accounts[address].balance + amount)
  }

  // ---------------------------------------------------------------------
  // Lemmas

  /** A successful `transfer` debits the sender and credits the recipient by the same
      amount, creates the recipient if needed, and keeps the total balance. */
  lemma {:induction false} TransferMovesAndConserves(l: Ledger, to: Option<string>, amount: Option<int>, sender: string)
    requires LedgerValid(l) && TransferOutcome(l, to, amount, sender).1
    ensures var r := TransferOutcome(l, to, amount, sender).0;
      && to.value in r.accounts
      && TotalBalance(r) == TotalBalance(l)
      && (sender != to.value ==> BalanceOf(r, sender) == BalanceOf(l, sender) - amount.value)
      && (sender != to.value ==> BalanceOf(r, to.value) == BalanceOf(l, to.value) + amount.value)
  {
    TransferMoves(l, sender, to.value, amount.value);
    TransferConserves(l, sender, to.value, amount.value);
  }

  /** A successful `stake` lowers the sender's balance by the amount and raises its
      stake by it, so balance plus stake is unchanged; nothing else changes. */
  lemma {:induction false} StakeMoves(l: Ledger, amount: Option<int>, sender: string)
    requires StakeOutcome(l, amount, sender).1
    ensures var r := StakeOutcome(l, amount, sender).0;
      && sender in r.accounts && r.order == l.order
      && r.accounts[sender].balance == l.accounts[sender].balance - amount.value
      && r.accounts[sender].stake == l.accounts[sender].stake + amount.value
      && r.accounts[sender].balance + r.accounts[sender].stake
        == l.accounts[sender].balance + l.accounts[sender].stake
      && (forall a :: a in l.accounts && a != sender ==> a in r.accounts && r.accounts[a] == l.accounts[a])
  {
  }

  /** A successful `slash` leaves the target's stake at `max(0, stake - amount)`, never
      negative, and changes no balance: the tokens taken are credited to no one. */
  lemma {:induction false} SlashBounds(l: Ledger, target: Option<string>, amount: Option<int>)
    requires LedgerValid(l) && SlashOutcome(l, target, amount).1
    ensures var r := SlashOutcome(l, target, amount).0;
      var before := l.accounts[target.value].stake;
      && target.value in r.accounts
      && r.accounts[target.value].stake == (if before - amount.value > 0 then before - amount.value else 0)
      && r.accounts[target.value].stake >= 0
      && r.accounts[target.value].balance == l.accounts[target.value].balance
      && TotalBalance(r) == TotalBalance(l)
  {
    var t := target.value;
    var a := l.accounts[t];
    var taken := if a.stake < amount.value then a.stake else amount.value;
    SumReplace(l.accounts, l.order, t, a.(stake := a.stake - taken));
  }

  /** `reward` creates the sender and the target before it checks the payment, so even
      a refused reward leaves both accounts in the world state. */
  lemma {:induction false} RewardCreatesFirst(l: Ledger, sender: string, target: Option<string>, amount: Option<int>, reputation: Option<int>)
    requires !Falsy(target)
    ensures var r := RewardOutcome(l, sender, target, amount, reputation);
      && sender in r.0.accounts && target.value in r.0.accounts
      && (!r.1 <==> amount.GetOr(0) > 0 && Ensure(Ensure(l, sender), target.value).accounts[sender].balance < amount.GetOr(0))
  {
  }

  /** Tokens move only for a positive amount: a reward of zero or less changes no
      balance, and a successful positive reward moves exactly the amount. */
  lemma {:induction false} RewardMoves(l: Ledger, sender: string, target: Option<string>, amount: Option<int>, reputation: Option<int>)
    requires !Falsy(target) && sender != target.value
    requires RewardOutcome(l, sender, target, amount, reputation).1
    ensures var r := RewardOutcome(l, sender, target, amount, reputation).0;
      var paid := if amount.GetOr(0) > 0 then amount.GetOr(0) else 0;
      && BalanceOf(r, sender) == BalanceOf(l, sender) - paid
      && BalanceOf(r, target.value) == BalanceOf(l, target.value) + paid
  {
  }

  /** After a reward or a penalty with a non-zero reputation change, the target's
      reputation is the clamped sum, inside [0, 100]. */
  lemma {:induction false} ReputationClamped(l: Ledger, sender: string, target: Option<string>, amount: Option<int>, reputation: Option<int>, treasury: Option<string>)
    requires !Falsy(target) && reputation.GetOr(0) != 0
    ensures var (r, ok) := RewardOutcome(l, sender, target, amount, reputation);
      ok ==> 0 <= r.accounts[target.value].reputation <= 100
    ensures var (r, ok) := PenaltyOutcome(l, target, amount, reputation, treasury);
      ok ==> 0 <= r.accounts[target.value].reputation <= 100
  {
  }

  /** A reputation change moves no tokens and keeps the insertion order. */
  lemma {:induction false} AdjustReputationKeepsBalances(l: Ledger, address: string, delta: int)
    requires Distinct(l.order) && address in l.accounts
    ensures var r := AdjustReputation(l, address, delta);
      && r.order == l.order && r.accounts.Keys == l.accounts.Keys
      && TotalBalance(r) == TotalBalance(l)
      && (forall a :: BalanceOf(r, a) == BalanceOf(l, a))
  {
    if delta != 0 {
      var a := l.accounts[address];
      SumReplace(l.accounts, l.order, address, a.(reputation := Clamp(a.reputation + delta)));
    }
  }

  /** A reward keeps the total balance of a well-formed world state. */
  lemma {:induction false} RewardConserves(l: Ledger, sender: string, target: Option<string>, amount: Option<int>, reputation: Option<int>)
    requires LedgerValid(l)
    ensures TotalBalance(RewardOutcome(l, sender, target, amount, reputation).0) == TotalBalance(l)
  {
    if !Falsy(target) {
      var t := target.value;
      var amt := amount.GetOr(0);
      EnsureBoth(l, sender, t);
      var l2 := Ensure(Ensure(l, sender), t);
      if !(amt > 0 && l2.accounts[sender].balance < amt) {
        PaidConserves(l2, sender, t, amt);
        AdjustReputationKeepsBalances(Paid(l2, sender, t, amt), t, reputation.GetOr(0));
      }
    }
  }

  /** Creating two accounts on a well-formed state lists both and adds nothing to the
      total. */
  lemma {:induction false} EnsureBoth(l: Ledger, a: string, b: string)
    requires LedgerValid(l)
    ensures var l2 := Ensure(Ensure(l, a), b);
      && LedgerValid(l2) && Distinct(l2.order)
      && a in l2.order && b in l2.order && a in l2.accounts && b in l2.accounts
      && TotalBalance(l2) == TotalBalance(l)
  {
    EnsureListed(l, a);
    EnsureValid(l, a);
    EnsureListed(Ensure(l, a), b);
    EnsureValid(Ensure(l, a), b);
  }

  /** A reward's payment keeps the listing and the total balance. */
  lemma {:induction false} PaidConserves(l: Ledger, from: string, to: string, amount: int)
    requires Distinct(l.order) && from in l.order && to in l.order
    requires from in l.accounts && to in l.accounts
    ensures Paid(l, from, to, amount).order == l.order
    ensures TotalBalance(Paid(l, from, to, amount)) == TotalBalance(l)
  {
    if amount > 0 {
      DebitCreditSum(l, from, to, amount);
    }
  }

  /** The balance moves of a penalty, with a treasury other than the target: the
      target loses the debit, the treasury gains it, the total is kept; without a
      treasury the total falls by the debit. */
  lemma {:induction false} PenalizeMoves(l: Ledger, target: string, debit: int, treasury: Option<string>)
    requires LedgerValid(l) && target in l.accounts
    requires treasury.Some? ==> treasury.value != target
    ensures var r := Penalize(l, target, debit, treasury);
      && Distinct(r.order)
      && BalanceOf(r, target) == BalanceOf(l, target) - debit
      && (treasury.Some? ==> BalanceOf(r, treasury.value) == BalanceOf(l, treasury.value) + debit)
      && (treasury.Some? ==> TotalBalance(r) == TotalBalance(l))
      && (treasury.None? ==> TotalBalance(r) == TotalBalance(l) - debit)
  {
    var d1 := SetBalance(l, target, l.accounts[target].balance - debit);
    DebitStep(l, target, debit);
    if treasury.Some? {
      CreditStep(d1, treasury.value, debit, target);
    }
  }

  /** Lowering one stored balance lowers the total by as much. */
  lemma {:induction false} DebitStep(l: Ledger, target: string, debit: int)
    requires LedgerValid(l) && target in l.accounts
    ensures var r := SetBalance(l, target, l.accounts[target].balance - debit);
      && LedgerValid(r)
      && BalanceOf(r, target) == BalanceOf(l, target) - debit
      && TotalBalance(r) == TotalBalance(l) - debit
  {
    var r := SetBalance(l, target, l.accounts[target].balance - debit);
    SumReplace(l.accounts, l.order, target, r.accounts[target]);
    StoreValid(l, target, r.accounts[target]);
  }

  /** Crediting an account, created if absent, raises the total by the amount and
      leaves every other balance alone. */
  lemma {:induction false} CreditStep(l: Ledger, address: string, amount: int, other: string)
    requires LedgerValid(l)
    ensures var r := Credit(l, address, amount);
      && Distinct(r.order)
      && BalanceOf(r, address) == BalanceOf(l, address) + amount
      && (other != address ==> BalanceOf(r, other) == BalanceOf(l, other))
      && TotalBalance(r) == TotalBalance(l) + amount
  {
    EnsureListed(l, address);
    CreditTotal(l, address, amount);
  }

  lemma {:induction false} CreditTotal(l: Ledger, address: string, amount: int)
    requires LedgerValid(l)
    ensures TotalBalance(Credit(l, address, amount)) == TotalBalance(l) + amount
  {
    EnsureListed(l, address);
    var l1 := Ensure(l, address);
    var account := l1.accounts[address].(balance := l1.accounts[address].balance + amount);
    SumReplace(l1.accounts, l1.order, address, account);
    assert Credit(l, address, amount) == Ledger(l1.accounts[address := account], l1.order);
    assert BalanceIn(l1.accounts, address) == l1.accounts[address].balance;
  }

  /** The penalty's debit is `min(amount, max(0, balance))`; with a treasury other than
      the target, the treasury gains exactly what the target loses and the total
      balance is kept; without one, the total falls by the debit. */
  lemma {:induction false} PenaltyMoves(l: Ledger, target: Option<string>, amount: Option<int>, reputation: Option<int>, treasury: Option<string>)
    requires LedgerValid(l) && PenaltyOutcome(l, target, amount, reputation, treasury).1
    requires treasury.Some? ==> treasury.value != target.value
    ensures var r := PenaltyOutcome(l, target, amount, reputation, treasury).0;
      var t := target.value;
      var debit := PenaltyDebit(amount.GetOr(0), l.accounts[t].balance);
      && BalanceOf(r, t) == BalanceOf(l, t) - debit
      && (treasury.Some? ==> BalanceOf(r, treasury.value) == BalanceOf(l, treasury.value) + debit)
      && (treasury.Some? ==> TotalBalance(r) == TotalBalance(l))
      && (treasury.None? ==> TotalBalance(r) == TotalBalance(l) - debit)
  {
    var t := target.value;
    var debit := PenaltyDebit(amount.GetOr(0), l.accounts[t].balance);
    if debit > 0 {
      PenalizeMoves(l, t, debit, treasury);
    }
    var l1 := if debit > 0 then Penalize(l, t, debit, treasury) else l;
    AdjustReputationKeepsBalances(l1, t, reputation.GetOr(0));
  }

  // ---------------------------------------------------------------------
  // The contract object

  class TokenContract {
    const worldState: WorldState

    constructor (worldState: WorldState)
      ensures this.worldState == worldState
    {
      this.worldState := worldState;
    }

    /** `transfer`. */
    method Transfer(to: Option<string>, amount: Option<int>, sender: string) returns (ok: bool)
      requires worldState.Valid()
      modifies worldState
      ensures worldState.Valid()
      ensures (worldState.state, ok) == TransferOutcome(old(worldState.state), to, amount, sender)
    {
      if Falsy(to) || amount.None? || amount.value < 0 {
        return false;
      }
      var fromAccount := worldState.GetAccount(sender);
      if fromAccount.None? || fromAccount.value.balance < amount.value {
        return false;
      }
      var toAccount := worldState.GetAccount(to.value);
      if toAccount.None? {
        var created := worldState.CreateAccount(to.value);
      }
      worldState.MoveBalance(sender, to.value, amount.value);
      return true;
    }

    /** `stake`. */
    method Stake(amount: Option<int>, sender: string) returns (ok: bool)
      requires worldState.Valid()
      modifies worldState
      ensures worldState.Valid()
      ensures (worldState.state, ok) == StakeOutcome(old(worldState.state), amount, sender)
    {
      if amount.None? || amount.value < 0 {
        return false;
      }
      var account := worldState.GetAccount(sender);
      if account.None? || account.value.balance < amount.value {
        return false;
      }
      var a := account.value;
      a := a.(balance := a.balance - amount.value);
      a := a.(stake := a.stake + amount.value);
      worldState.StoreAccount(sender, a);
      return true;
    }

    /** `slash`. */
    method Slash(target: Option<string>, amount: Option<int>) returns (ok: bool)
      requires worldState.Valid()
      modifies worldState
      ensures worldState.Valid()
      ensures (worldState.state, ok) == SlashOutcome(old(worldState.state), target, amount)
    {
      if Falsy(target) || amount.None? || amount.value < 0 {
        return false;
      }
      var targetAccount := worldState.GetAccount(target.value);
      if targetAccount.None? {
        return false;
      }
      var a := targetAccount.value;
      var taken := amount.value;
      if a.stake < taken {
        taken := a.stake;
      }
      worldState.StoreAccount(target.value, a.(stake := a.stake - taken));
      return true;
    }

    /** `reward`. */
    method Reward(sender: string, target: Option<string>, amount: Option<int>, reputation: Option<int>) returns (ok: bool)
      requires worldState.Valid()
      modifies worldState
      ensures worldState.Valid()
      ensures (worldState.state, ok) == RewardOutcome(old(worldState.state), sender, target, amount, reputation)
    {
      var amt := amount.GetOr(0);
      var rep := reputation.GetOr(0);
      if Falsy(target) {
        return false;
      }
      var fromAccount := worldState.GetAccount(sender);
      if fromAccount.None? {
        var created := worldState.CreateAccount(sender);
      }
      var targetAccount := worldState.GetAccount(target.value);
      if targetAccount.None? {
        var created := worldState.CreateAccount(target.value);
      }
      if amt > 0 {
        if worldState.state.accounts[sender].balance < amt {
          return false;
        }
        worldState.MoveBalance(sender, target.value, amt);
      }
      AdjustTargetReputation(target.value, rep);
      return true;
    }

    /** `penalty`; `treasury` is the address of the treasury account, if the chain has one. */
    method Penalty(target: Option<string>, amount: Option<int>, reputation: Option<int>, treasury: Option<string>) returns (ok: bool)
      requires worldState.Valid()
      modifies worldState
      ensures worldState.Valid()
      ensures (worldState.state, ok) == PenaltyOutcome(old(worldState.state), target, amount, reputation, treasury)
    {
      var amt := amount.GetOr(0);
      var rep := reputation.GetOr(0);
      if Falsy(target) || amt < 0 {
        return false;
      }
      var targetAccount := worldState.GetAccount(target.value);
      if targetAccount.None? {
        return false;
      }
      amt := PenaltyDebit(amt, targetAccount.value.balance);
      if amt > 0 {
        PenalizeBalances(target.value, amt, treasury);
      }
      AdjustTargetReputation(target.value, rep);
      return true;
    }

    /** `target.reputation = max(0, min(100, target.reputation + delta))` when the
        change is not zero, written back with `update_account`. */
    method AdjustTargetReputation(address: string, delta: int)
      requires worldState.Valid() && address in worldState.state.accounts
      modifies worldState
      ensures worldState.Valid() && worldState.state == AdjustReputation(old(worldState.state), address, delta)
    {
      if delta != 0 {
        var t := worldState.state.accounts[address];
        worldState.StoreAccount(address, t.(reputation := Clamp(t.reputation + delta)));
      }
    }

    /** The debit of the target and the credit of the treasury account. */
    method PenalizeBalances(target: string, debit: int, treasury: Option<string>)
      requires worldState.Valid() && target in worldState.state.accounts
      modifies worldState
      ensures worldState.Valid() && worldState.state == Penalize(old(worldState.state), target, debit, treasury)
    {
      ghost var l0 := worldState.state;
      var t := worldState.state.accounts[target];
      worldState.StoreAccount(target, t.(balance := t.balance - debit));
      ghost var l1 := worldState.state;
      assert l1 == SetBalance(l0, target, l0.accounts[target].balance - debit);
      if treasury.Some? {
        var k := worldState.CreateAccount(treasury.value);
        ghost var l2 := worldState.state;
        assert l2 == Ensure(l1, treasury.value) && k == l2.accounts[treasury.value];
        assert Credit(l1, treasury.value, debit) == SetBalance(l2, treasury.value, k.balance + debit);
        worldState.StoreAccount(treasury.value, k.(balance := k.balance + debit));
      }
    }
  }
}
