/** The ledger engine: funding, paying, and reading balances and statements,
    each run to completion against the shared store. */
module PaymentService {
  import opened LedgerTypes
  import Bank
  import opened AccountStore

  /** fundAccount: credit `amt` to `username`; `now` is the clock reading. */
  method FundAccount(store: Store, username: string, amt: int, now: string) returns (r: Result<int>)
    modifies store
    ensures Bank.Commits(old(store.Snapshot()), store.Snapshot(), r, Bank.Fund(old(store.Snapshot()), username, amt, now))
    ensures r.Ok? ==> r.value == store.users[username].balance == old(store.users[username].balance) + amt
    ensures old(WellFormed(store.Snapshot())) ==> WellFormed(store.Snapshot())
  {
    ghost var before := store.Snapshot();
    if amt <= 0 {
      return Err(AmountNotPositive);
    }
    if username !in store.users {
      return Err(NoSuchAccount);
    }
    var user := store.users[username];
    user := user.(balance := user.balance + amt);
    user := user.(history := [Tx(store.nextId, Credit, amt, user.balance, now)] + user.history);
    store.users := store.users[username := user];
    store.nextId := store.nextId + 1;
    r := Ok(user.balance);
    assert store.Snapshot() == Bank.Fund(before, username, amt, now).value.next;
    if WellFormed(before) {
      Bank.FundKeepsWellFormed(before, username, amt, now);
    }
  }

  /** payUser: move `amt` from `from` to `to`, returning the sender's new
      balance. The debit is written before the credit is applied. */
  method PayUser(store: Store, from: string, to: string, amt: int, now: string) returns (r: Result<int>)
    modifies store
    ensures Bank.Commits(old(store.Snapshot()), store.Snapshot(), r, Bank.Pay(old(store.Snapshot()), from, to, amt, now))
    ensures old(WellFormed(store.Snapshot())) ==> WellFormed(store.Snapshot())
  {
    ghost var before := store.Snapshot();
    if amt <= 0 {
      return Err(AmountNotPositive);
    }
    if to !in store.users {
      return Err(RecipientMissing);
    }
    if from !in store.users {
      return Err(NoSuchAccount);
    }
    if store.users[from].balance < amt {
      return Err(InsufficientFunds);
    }
    var sender := store.users[from];
    sender := sender.(balance := sender.balance - amt);
    sender := sender.(history := [Tx(store.nextId, Debit, amt, sender.balance, now)] + sender.history);
    store.users := store.users[from := sender];

    var receiver := store.users[to];
    receiver := receiver.(balance := receiver.balance + amt);
    receiver := receiver.(history := [Tx(store.nextId + 1, Credit, amt, receiver.balance, now)] + receiver.history);
    store.users := store.users[to := receiver];

    store.nextId := store.nextId + 2;
    r := Ok(store.users[from].balance);
    assert store.Snapshot() == Bank.Pay(before, from, to, amt, now).value.next;
    if WellFormed(before) {
      Bank.PayKeepsWellFormed(before, from, to, amt, now);
    }
  }

  /** getBalance: a read; an absent user is the dereference error. */
  method GetBalance(store: Store, username: string) returns (r: Result<int>)
    ensures username in store.users ==> r == Ok(store.users[username].balance)
    ensures username !in store.users ==> r == Err(NoSuchAccount)
  {
    if username !in store.users {
      return Err(NoSuchAccount);
    }
    r := Ok(store.users[username].balance);
  }

  /** getTransactions: the stored statement, newest first, as it is. */
  method GetTransactions(store: Store, username: string) returns (r: Result<seq<Tx>>)
    ensures username in store.users ==> r == Ok(store.users[username].history)
    ensures username !in store.users ==> r == Err(NoSuchAccount)
  {
    if username !in store.users {
      return Err(NoSuchAccount);
    }
    r := Ok(store.users[username].history);
  }
}
