/** The ledger operations as functions of the shared state: what funding,
    paying and registering do to the users map and the id counter, and what
    each returns or throws. */
module Bank {
  import opened LedgerTypes

  /** A service call that returned `r` and left the store in `after`, having
      found it in `before`, did what `spec` says: on success it returned the
      operation's value and left its state; on failure it threw the error and
      changed nothing. */
  predicate Commits<T(==)>(before: State, after: State, r: Result<T>, spec: Result<Step<T>>)
  {
    match spec
    case Ok(step) => r == Ok(step.out) && after == step.next
    case Err(e) => r == Err(e) && after == before
  }

  /** One posting: the balance moves by `amt` in the direction of `kind`, and
      a record carrying the new balance goes on top of the history. */
  function Posted(a: Account, kind: Kind, amt: int, id: nat, now: string): (r: Account)
    ensures r.username == a.username && r.passwordHash == a.passwordHash
    ensures r.balance == (if kind == Credit then a.balance + amt else a.balance - amt)
    ensures r.history == [Tx(id, kind, amt, r.balance, now)] + a.history
  {
    var bal := if kind == Credit then a.balance + amt else a.balance - amt;
    a.(balance := bal, history := [Tx(id, kind, amt, bal, now)] + a.history)
  }

  /** A posting moves the balance and the signed sum of the history by the
      same amount, and keeps a chained history chained. */
  lemma PostingKeepsSumGap(a: Account, kind: Kind, amt: int, id: nat, now: string)
    ensures
      var r := Posted(a, kind, amt, id, now);
      && r.balance - SignedSum(r.history) == a.balance - SignedSum(a.history)
      && (Chained(a.history, a.balance) ==> Chained(r.history, r.balance))
  {
    var r := Posted(a, kind, amt, id, now);
    assert r.history[1..] == a.history;
  }

  /** A posting of a positive amount that does not overdraw, with an id newer
      than every id in the history, keeps the account invariant. */
  lemma PostedKeepsOk(a: Account, kind: Kind, amt: int, id: nat, now: string)
    requires AccountOk(a, id)
    requires amt > 0 && (kind == Debit ==> a.balance >= amt)
    ensures AccountOk(Posted(a, kind, amt, id, now), id + 1)
  {
    var r := Posted(a, kind, amt, id, now);
    assert r.history[1..] == a.history;
    assert Chained(r.history, r.balance);
    forall i, j | 0 <= i < j < |r.history|
      ensures r.history[j].id < r.history[i].id
    {
      if i > 0 {
        assert r.history[i] == a.history[i - 1] && r.history[j] == a.history[j - 1];
      } else {
        assert r.history[j] == a.history[j - 1];
      }
    }
  }

  /** fundAccount: credit `amt` to `username`. */
  function Fund(st: State, username: string, amt: int, now: string): (r: Result<Step<int>>)
    ensures amt <= 0 ==> r == Err(AmountNotPositive)
    ensures amt > 0 && username !in st.users ==> r == Err(NoSuchAccount)
    ensures r.Ok? <==> amt > 0 && username in st.users
    ensures r.Ok? ==> Untouched(st.users, r.value.next.users, {username}) && r.value.next.nextId == st.nextId + 1
    ensures r.Ok? ==>
      var before, after := st.users[username], r.value.next.users[username];
      && after.balance == before.balance + amt
      && r.value.out == after.balance
      && after.history == [Tx(st.nextId, Credit, amt, after.balance, now)] + before.history
      && after.username == before.username && after.passwordHash == before.passwordHash
  {
    if amt <= 0 then Err(AmountNotPositive)
    else if username !in st.users then Err(NoSuchAccount)
    else
      var a := Posted(st.users[username], Credit, amt, st.nextId, now);
      Ok(Step(State(st.users[username := a], st.nextId + 1), a.balance))
  }

  /** payUser, with the sender's debit fully posted (balance and record)
      before the receiver's credit, so that each record's snapshot is the
      balance right after it even when `from == to`. */
  function Pay(st: State, from: string, to: string, amt: int, now: string): (r: Result<Step<int>>)
    ensures amt <= 0 ==> r == Err(AmountNotPositive)
    ensures amt > 0 && to !in st.users ==> r == Err(RecipientMissing)
    ensures amt > 0 && to in st.users && from !in st.users ==> r == Err(NoSuchAccount)
    ensures amt > 0 && to in st.users && from in st.users && st.users[from].balance < amt ==>
      r == Err(InsufficientFunds)
    ensures r.Ok? <==> amt > 0 && to in st.users && from in st.users && st.users[from].balance >= amt
    ensures r.Ok? ==>
      && Untouched(st.users, r.value.next.users, {from, to})
      && r.value.next.nextId == st.nextId + 2
      && r.value.out == r.value.next.users[from].balance
    ensures r.Ok? && from != to ==>
      var s, s', v, v' := st.users[from], r.value.next.users[from], st.users[to], r.value.next.users[to];
      && s'.balance == s.balance - amt
      && v'.balance == v.balance + amt
      && s'.balance + v'.balance == s.balance + v.balance
      && s'.history == [Tx(st.nextId, Debit, amt, s'.balance, now)] + s.history
      && v'.history == [Tx(st.nextId + 1, Credit, amt, v'.balance, now)] + v.history
      && s'.username == s.username && s'.passwordHash == s.passwordHash
      && v'.username == v.username && v'.passwordHash == v.passwordHash
    ensures r.Ok? && from == to ==>
      var s, s' := st.users[from], r.value.next.users[from];
      && s'.balance == s.balance
      && s'.history == [Tx(st.nextId + 1, Credit, amt, s.balance, now),
                        Tx(st.nextId, Debit, amt, s.balance - amt, now)] + s.history
      && s'.username == s.username && s'.passwordHash == s.passwordHash
  {
    if amt <= 0 then Err(AmountNotPositive)
    else if to !in st.users then Err(RecipientMissing)
    else if from !in st.users then Err(NoSuchAccount)
    else if st.users[from].balance < amt then Err(InsufficientFunds)
    else
      var m1 := st.users[from := Posted(st.users[from], Debit, amt, st.nextId, now)];
      var m2 := m1[to := Posted(m1[to], Credit, amt, st.nextId + 1, now)];
      Ok(Step(State(m2, st.nextId + 2), m2[from].balance))
  }

  /** payUser exactly as written: both balances are updated first, then the
      two records are written, each reading its account's balance at that
      moment. When `from == to` the debit record therefore carries the
      balance after the credit too. */
  function PayAsWritten(st: State, from: string, to: string, amt: int, now: string): (r: Result<Step<int>>)
    ensures r.Err? ==> r == Pay(st, from, to, amt, now)
    ensures r.Ok? <==> amt > 0 && to in st.users && from in st.users && st.users[from].balance >= amt
    ensures r.Ok? ==>
      && Untouched(st.users, r.value.next.users, {from, to})
      && r.value.next.nextId == st.nextId + 2
      && r.value.out == r.value.next.users[from].balance
  {
    if amt <= 0 then Err(AmountNotPositive)
    else if to !in st.users then Err(RecipientMissing)
    else if from !in st.users then Err(NoSuchAccount)
    else if st.users[from].balance < amt then Err(InsufficientFunds)
    else
      var m1 := st.users[from := st.users[from].(balance := st.users[from].balance - amt)];
      var m2 := m1[to := m1[to].(balance := m1[to].balance + amt)];
      var s := m2[from];
      var m3 := m2[from := s.(history := [Tx(st.nextId, Debit, amt, s.balance, now)] + s.history)];
      var v := m3[to];
      var m4 := m3[to := v.(history := [Tx(st.nextId + 1, Credit, amt, v.balance, now)] + v.history)];
      Ok(Step(State(m4, st.nextId + 2), m4[from].balance))
  }

  /** Between two distinct users the code as written and the corrected
      ordering are the same operation. */
  lemma PayAsWrittenAgreesOffSelf(st: State, from: string, to: string, amt: int, now: string)
    requires from != to
    ensures PayAsWritten(st, from, to, amt, now) == Pay(st, from, to, amt, now)
  {
    var r := PayAsWritten(st, from, to, amt, now);
    if r.Ok? {
      var p := Pay(st, from, to, amt, now);
      assert r.value.next.users == p.value.next.users;
    }
  }

  /** On a self-payment the code as written succeeds, returns the unchanged
      balance and puts a credit over a debit that both carry that balance.
      The debit's snapshot is therefore not the balance after it, so the
      history no longer chains to the balance and the store is not well
      formed. */
  lemma SelfPayAsWrittenMisrecordsDebit(st: State, u: string, amt: int, now: string)
    requires amt > 0 && u in st.users && st.users[u].balance >= amt
    ensures PayAsWritten(st, u, u, amt, now).Ok?
    ensures
      var a, r := st.users[u], PayAsWritten(st, u, u, amt, now).value;
      && r.out == a.balance
      && r.next.users[u].balance == a.balance
      && r.next.users[u].history
           == [Tx(st.nextId + 1, Credit, amt, a.balance, now), Tx(st.nextId, Debit, amt, a.balance, now)] + a.history
      && r.next.users[u].username == a.username && r.next.users[u].passwordHash == a.passwordHash
    ensures
      var a := PayAsWritten(st, u, u, amt, now).value.next.users[u];
      && !Chained(a.history, a.balance)
      && !WellFormed(PayAsWritten(st, u, u, amt, now).value.next)
  {
    var a := PayAsWritten(st, u, u, amt, now).value.next.users[u];
    assert a.history[1..][0] == a.history[1];
    assert !Chained(a.history[1..], a.balance - Signed(a.history[0]));
  }

  /** register: validate, reject duplicates, insert a fresh account. The
      hash is the opaque output of the password hasher. */
  function Register(st: State, username: string, password: string, passwordHash: string): (r: Result<Step<Account>>)
    ensures username == "" || password == "" ==> r == Err(CredentialsRequired)
    ensures username != "" && password != "" && username in st.users ==> r == Err(AlreadyExists)
    ensures r.Ok? <==> username != "" && password != "" && username !in st.users
    ensures r.Ok? ==>
      && r.value.out == Account(username, passwordHash, 0, [])
      && r.value.next.users == st.users[username := r.value.out]
      && r.value.next.users.Keys == st.users.Keys + {username}
      && (forall v :: v in st.users ==> r.value.next.users[v] == st.users[v])
      && r.value.next.nextId == st.nextId
  {
    if username == "" || password == "" then Err(CredentialsRequired)
    else if username in st.users then Err(AlreadyExists)
    else
      var a := Account(username, passwordHash, 0, []);
      Ok(Step(State(st.users[username := a], st.nextId), a))
  }

  // ---------------------------------------------------------------------
  // The store invariant is kept by every operation.

  /** A successful funding leaves exactly the map with the one posting. */
  lemma FundIsPosting(st: State, username: string, amt: int, now: string)
    requires Fund(st, username, amt, now).Ok?
    ensures Fund(st, username, amt, now).value.next
      == State(st.users[username := Posted(st.users[username], Credit, amt, st.nextId, now)], st.nextId + 1)
  {
  }

  lemma FundKeepsWellFormed(st: State, username: string, amt: int, now: string)
    requires WellFormed(st)
    ensures Fund(st, username, amt, now).Ok? ==> WellFormed(Fund(st, username, amt, now).value.next)
  {
    if Fund(st, username, amt, now).Ok? {
      FundIsPosting(st, username, amt, now);
      FundKeepsAllOk(st, username, amt, now);
      WellFormedFromAllOk(Fund(st, username, amt, now).value.next,
                          st.users[username := Posted(st.users[username], Credit, amt, st.nextId, now)]);
    }
  }

  lemma FundKeepsAllOk(st: State, username: string, amt: int, now: string)
    requires Fund(st, username, amt, now).Ok? && WellFormed(st)
    ensures AllOk(st.users[username := Posted(st.users[username], Credit, amt, st.nextId, now)], st.nextId + 1)
  {
    PostingKeepsAllOk(st.users, st.nextId, username, Credit, amt, now);
  }

  /** One posting, stored under its account's name, keeps every account
      good. */
  lemma PostingKeepsAllOk(m: map<string, Account>, id: nat, u: string, kind: Kind, amt: int, now: string)
    requires AllOk(m, id)
    requires u in m && amt > 0 && (kind == Debit ==> m[u].balance >= amt)
    ensures AllOk(m[u := Posted(m[u], kind, amt, id, now)], id + 1)
  {
    PostedKeepsOk(m[u], kind, amt, id, now);
    StoreKeepsAllOk(m, id, u, Posted(m[u], kind, amt, id, now), id + 1);
  }

  /** The two postings of a payment, applied in turn to the map, keep every
      account good. */
  lemma PostingsKeepAllOk(m: map<string, Account>, id: nat, from: string, to: string, amt: int, now: string)
    requires AllOk(m, id)
    requires from in m && to in m && amt > 0 && m[from].balance >= amt
    ensures
      var m1 := m[from := Posted(m[from], Debit, amt, id, now)];
      AllOk(m1[to := Posted(m1[to], Credit, amt, id + 1, now)], id + 2)
  {
    PostingKeepsAllOk(m, id, from, Debit, amt, now);
    var m1 := m[from := Posted(m[from], Debit, amt, id, now)];
    PostingKeepsAllOk(m1, id + 1, to, Credit, amt, now);
  }

  /** A successful payment leaves exactly the map of the two postings. */
  lemma PayIsPostings(st: State, from: string, to: string, amt: int, now: string)
    requires Pay(st, from, to, amt, now).Ok?
    ensures
      var m1 := st.users[from := Posted(st.users[from], Debit, amt, st.nextId, now)];
      Pay(st, from, to, amt, now).value.next
        == State(m1[to := Posted(m1[to], Credit, amt, st.nextId + 1, now)], st.nextId + 2)
  {
  }

  lemma PayKeepsAllOk(st: State, from: string, to: string, amt: int, now: string)
    requires Pay(st, from, to, amt, now).Ok? && WellFormed(st)
    ensures
      var m1 := st.users[from := Posted(st.users[from], Debit, amt, st.nextId, now)];
      AllOk(m1[to := Posted(m1[to], Credit, amt, st.nextId + 1, now)], st.nextId + 2)
  {
    PostingsKeepAllOk(st.users, st.nextId, from, to, amt, now);
  }

  lemma PayKeepsWellFormed(st: State, from: string, to: string, amt: int, now: string)
    requires WellFormed(st)
    ensures Pay(st, from, to, amt, now).Ok? ==> WellFormed(Pay(st, from, to, amt, now).value.next)
  {
    if Pay(st, from, to, amt, now).Ok? {
      PayIsPostings(st, from, to, amt, now);
      PayKeepsAllOk(st, from, to, amt, now);
      var m1 := st.users[from := Posted(st.users[from], Debit, amt, st.nextId, now)];
      WellFormedFromAllOk(Pay(st, from, to, amt, now).value.next,
                          m1[to := Posted(m1[to], Credit, amt, st.nextId + 1, now)]);
    }
  }

  lemma RegisterKeepsWellFormed(st: State, username: string, password: string, passwordHash: string)
    requires WellFormed(st)
    ensures Register(st, username, password, passwordHash).Ok? ==>
      WellFormed(Register(st, username, password, passwordHash).value.next)
  {
  }

  // ---------------------------------------------------------------------
  // The weaker invariant Balanced is kept by every operation, including the
  // payment as written: only the snapshot clause of WellFormed is lost.

  lemma PostedKeepsSummed(a: Account, kind: Kind, amt: int, id: nat, now: string)
    requires Summed(a, id)
    requires amt > 0 && (kind == Debit ==> a.balance >= amt)
    ensures Summed(Posted(a, kind, amt, id, now), id + 1)
  {
    var r := Posted(a, kind, amt, id, now);
    PostingKeepsSumGap(a, kind, amt, id, now);
    forall i, j | 0 <= i < j < |r.history|
      ensures r.history[j].id < r.history[i].id
    {
      if i > 0 {
        assert r.history[i] == a.history[i - 1] && r.history[j] == a.history[j - 1];
      } else {
        assert r.history[j] == a.history[j - 1];
      }
    }
  }

  lemma FundKeepsBalanced(st: State, username: string, amt: int, now: string)
    requires Balanced(st)
    ensures Fund(st, username, amt, now).Ok? ==> Balanced(Fund(st, username, amt, now).value.next)
  {
    if Fund(st, username, amt, now).Ok? {
      FundIsPosting(st, username, amt, now);
      FundKeepsAllSummed(st, username, amt, now);
      BalancedFromAllSummed(Fund(st, username, amt, now).value.next,
                            st.users[username := Posted(st.users[username], Credit, amt, st.nextId, now)]);
    }
  }

  lemma FundKeepsAllSummed(st: State, username: string, amt: int, now: string)
    requires Fund(st, username, amt, now).Ok? && Balanced(st)
    ensures AllSummed(st.users[username := Posted(st.users[username], Credit, amt, st.nextId, now)], st.nextId + 1)
  {
    PostingKeepsAllSummed(st.users, st.nextId, username, Credit, amt, now);
  }

  lemma PayKeepsAllSummed(st: State, from: string, to: string, amt: int, now: string)
    requires Pay(st, from, to, amt, now).Ok? && Balanced(st)
    ensures
      var m1 := st.users[from := Posted(st.users[from], Debit, amt, st.nextId, now)];
      AllSummed(m1[to := Posted(m1[to], Credit, amt, st.nextId + 1, now)], st.nextId + 2)
  {
    PostingsKeepAllSummed(st.users, st.nextId, from, to, amt, now);
  }

  lemma PostingKeepsAllSummed(m: map<string, Account>, id: nat, u: string, kind: Kind, amt: int, now: string)
    requires AllSummed(m, id)
    requires u in m && amt > 0 && (kind == Debit ==> m[u].balance >= amt)
    ensures AllSummed(m[u := Posted(m[u], kind, amt, id, now)], id + 1)
  {
    PostedKeepsSummed(m[u], kind, amt, id, now);
    StoreKeepsAllSummed(m, id, u, Posted(m[u], kind, amt, id, now), id + 1);
  }

  lemma PostingsKeepAllSummed(m: map<string, Account>, id: nat, from: string, to: string, amt: int, now: string)
    requires AllSummed(m, id)
    requires from in m && to in m && amt > 0 && m[from].balance >= amt
    ensures
      var m1 := m[from := Posted(m[from], Debit, amt, id, now)];
      AllSummed(m1[to := Posted(m1[to], Credit, amt, id + 1, now)], id + 2)
  {
    PostingKeepsAllSummed(m, id, from, Debit, amt, now);
    var m1 := m[from := Posted(m[from], Debit, amt, id, now)];
    PostingKeepsAllSummed(m1, id + 1, to, Credit, amt, now);
  }

  lemma PayKeepsBalanced(st: State, from: string, to: string, amt: int, now: string)
    requires Balanced(st)
    ensures Pay(st, from, to, amt, now).Ok? ==> Balanced(Pay(st, from, to, amt, now).value.next)
  {
    if Pay(st, from, to, amt, now).Ok? {
      PayIsPostings(st, from, to, amt, now);
      PayKeepsAllSummed(st, from, to, amt, now);
      var m1 := st.users[from := Posted(st.users[from], Debit, amt, st.nextId, now)];
      BalancedFromAllSummed(Pay(st, from, to, amt, now).value.next,
                            m1[to := Posted(m1[to], Credit, amt, st.nextId + 1, now)]);
    }
  }

  /** A credit over a debit of the same amount, both carrying the unchanged
      balance, keeps an account summed. */
  lemma SelfPostingsKeepSummed(a: Account, amt: int, id: nat, now: string)
    requires Summed(a, id) && amt > 0
    ensures
      var h' := [Tx(id + 1, Credit, amt, a.balance, now), Tx(id, Debit, amt, a.balance, now)] + a.history;
      Summed(a.(history := h'), id + 2)
  {
    var h' := [Tx(id + 1, Credit, amt, a.balance, now), Tx(id, Debit, amt, a.balance, now)] + a.history;
    assert h'[1..][1..] == a.history;
    forall i, j | 0 <= i < j < |h'|
      ensures h'[j].id < h'[i].id
    {
      if i > 1 {
        assert h'[i] == a.history[i - 2] && h'[j] == a.history[j - 2];
      } else if j > 1 {
        assert h'[j] == a.history[j - 2];
      }
    }
  }

  /** A self-payment as written stores the account with the two records on
      top and the balance unchanged. */
  lemma SelfPayAsWrittenIsStore(st: State, u: string, amt: int, now: string)
    requires amt > 0 && u in st.users && st.users[u].balance >= amt
    ensures
      var a := st.users[u];
      var h' := [Tx(st.nextId + 1, Credit, amt, a.balance, now), Tx(st.nextId, Debit, amt, a.balance, now)] + a.history;
      PayAsWritten(st, u, u, amt, now).value.next == State(st.users[u := a.(history := h')], st.nextId + 2)
  {
    var a := st.users[u];
    var h' := [Tx(st.nextId + 1, Credit, amt, a.balance, now), Tx(st.nextId, Debit, amt, a.balance, now)] + a.history;
    var m := PayAsWritten(st, u, u, amt, now).value.next.users;
    assert m[u] == a.(history := h');
    assert m == st.users[u := a.(history := h')];
  }

  /** Replacing an account of a balanced store by the account with a credit
      over a debit of the same amount, both at the unchanged balance, keeps
      the store balanced. */
  lemma SelfPostingsKeepBalanced(st: State, u: string, amt: int, now: string)
    requires Balanced(st) && amt > 0 && u in st.users
    ensures
      var a := st.users[u];
      var h' := [Tx(st.nextId + 1, Credit, amt, a.balance, now), Tx(st.nextId, Debit, amt, a.balance, now)] + a.history;
      Balanced(State(st.users[u := a.(history := h')], st.nextId + 2))
  {
    var a := st.users[u];
    var h' := [Tx(st.nextId + 1, Credit, amt, a.balance, now), Tx(st.nextId, Debit, amt, a.balance, now)] + a.history;
    SelfPostingsKeepSummed(a, amt, st.nextId, now);
    StoreKeepsAllSummed(st.users, st.nextId, u, a.(history := h'), st.nextId + 2);
  }

  /** The store a self-payment as written leaves is still balanced. */
  lemma SelfPayAsWrittenKeepsBalanced(st: State, u: string, amt: int, now: string)
    requires Balanced(st) && amt > 0 && u in st.users && st.users[u].balance >= amt
    ensures Balanced(PayAsWritten(st, u, u, amt, now).value.next)
  {
    SelfPayAsWrittenIsStore(st, u, amt, now);
    SelfPostingsKeepBalanced(st, u, amt, now);
  }

  /** The payment as written keeps every balance equal to the signed sum of
      its statement, with positive amounts and ids decreasing newest first. */
  lemma PayAsWrittenKeepsBalanced(st: State, from: string, to: string, amt: int, now: string)
    requires Balanced(st)
    ensures PayAsWritten(st, from, to, amt, now).Ok? ==> Balanced(PayAsWritten(st, from, to, amt, now).value.next)
  {
    if PayAsWritten(st, from, to, amt, now).Ok? {
      if from == to {
        SelfPayAsWrittenKeepsBalanced(st, from, amt, now);
      } else {
        PayAsWrittenAgreesOffSelf(st, from, to, amt, now);
        PayKeepsBalanced(st, from, to, amt, now);
      }
    }
  }

  lemma RegisterKeepsBalanced(st: State, username: string, password: string, passwordHash: string)
    requires Balanced(st)
    ensures Register(st, username, password, passwordHash).Ok? ==>
      Balanced(Register(st, username, password, passwordHash).value.next)
  {
  }

  // ---------------------------------------------------------------------
  // Value: funding creates money, paying moves it, registering adds none.

  lemma {:induction false} FundAddsToTotal(st: State, username: string, amt: int, now: string)
    requires Fund(st, username, amt, now).Ok?
    ensures Total(Fund(st, username, amt, now).value.next.users) == Total(st.users) + amt
  {
    TotalUpdate(st.users, username, Posted(st.users[username], Credit, amt, st.nextId, now));
  }

  lemma {:induction false} PayConservesTotal(st: State, from: string, to: string, amt: int, now: string)
    requires Pay(st, from, to, amt, now).Ok?
    ensures Total(Pay(st, from, to, amt, now).value.next.users) == Total(st.users)
  {
    var s1 := Posted(st.users[from], Debit, amt, st.nextId, now);
    var m1 := st.users[from := s1];
    TotalUpdate(st.users, from, s1);
    TotalUpdate(m1, to, Posted(m1[to], Credit, amt, st.nextId + 1, now));
  }

  lemma {:induction false} RegisterKeepsTotal(st: State, username: string, password: string, passwordHash: string)
    requires Register(st, username, password, passwordHash).Ok?
    ensures Total(Register(st, username, password, passwordHash).value.next.users) == Total(st.users)
  {
    TotalInsert(st.users, username, Account(username, passwordHash, 0, []));
  }
}
