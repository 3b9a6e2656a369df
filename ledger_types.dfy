/** Values of the ledger: accounts, transaction records, errors, and the
    invariants a well-kept store satisfies. */
module LedgerTypes {

  datatype Kind = Credit | Debit

  /** One statement entry. `id` stands for the uuid, `timestamp` for the ISO
      date string; `updatedBal` is the owning account's balance right after
      the entry was written. */
  datatype Tx = Tx(id: nat, kind: Kind, amt: int, updatedBal: int, timestamp: string)

  /** A user record as stored under its username. `history` is newest-first. */
  datatype Account = Account(username: string, passwordHash: string, balance: int, history: seq<Tx>)

  datatype Error =
    | AmountNotPositive
    | RecipientMissing
    | InsufficientFunds
    | NoSuchAccount        // the TypeError raised when an absent user's record is dereferenced
    | CredentialsRequired
    | AlreadyExists

  /** The message each thrown error carries. */
  function Message(e: Error): string
  {
    match e
    case AmountNotPositive => "Amount must be positive"
    case RecipientMissing => "Recipient does not exist"
    case InsufficientFunds => "Insufficient funds"
    case NoSuchAccount => "Cannot read properties of undefined"
    case CredentialsRequired => "Username and Password required"
    case AlreadyExists => "User already exists"
  }

  datatype Result<T> = Ok(value: T) | Err(error: Error)

  /** Everything the services share: the users map and the id generator. */
  datatype State = State(users: map<string, Account>, nextId: nat)

  /** A successful operation: the state it leaves and the value it returns. */
  datatype Step<T> = Step(next: State, out: T)

  /** The signed effect of one record on its account's balance. */
  function Signed(t: Tx): int
  {
    if t.kind == Credit then t.amt else -t.amt
  }

  function SignedSum(h: seq<Tx>): int
  {
    if h == [] then 0 else Signed(h[0]) + SignedSum(h[1..])
  }

  /** Read newest-first, `h` ends at balance `bal`: every record's snapshot is
      the running balance right after it, and the oldest starts from zero. */
  predicate Chained(h: seq<Tx>, bal: int)
  {
    if h == [] then bal == 0
    else h[0].updatedBal == bal && Chained(h[1..], bal - Signed(h[0]))
  }

  /** Chained says exactly that the balance is the signed sum of the history
      and that every snapshot is the signed sum of the records up to it. */
  lemma {:induction false} ChainedIsSnapshots(h: seq<Tx>, bal: int)
    ensures Chained(h, bal) <==>
      (bal == SignedSum(h) && forall i :: 0 <= i < |h| ==> h[i].updatedBal == SignedSum(h[i..]))
  {
    if h != [] {
      var bal' := bal - Signed(h[0]);
      ChainedIsSnapshots(h[1..], bal');
      assert h[0..] == h;
      forall i | 1 <= i < |h|
        ensures h[i] == h[1..][i - 1] && h[i..] == h[1..][i - 1..]
      {
      }
      if bal == SignedSum(h) && forall i :: 0 <= i < |h| ==> h[i].updatedBal == SignedSum(h[i..]) {
        assert h[0].updatedBal == bal;
        forall j | 0 <= j < |h[1..]|
          ensures h[1..][j].updatedBal == SignedSum(h[1..][j..])
        {
          assert h[j + 1].updatedBal == SignedSum(h[j + 1..]);
        }
      }
    }
  }

  /** The per-account invariant, with `bound` the id counter's next value:
      amounts are positive, no snapshot is negative, ids are older than the
      counter and strictly decrease along the history (newest first). */
  predicate AccountOk(a: Account, bound: nat)
  {
    && a.balance >= 0
    && Chained(a.history, a.balance)
    && (forall i :: 0 <= i < |a.history| ==>
          a.history[i].amt > 0 && a.history[i].updatedBal >= 0 && a.history[i].id < bound)
    && (forall i, j :: 0 <= i < j < |a.history| ==> a.history[j].id < a.history[i].id)
  }

  /** Every account is filed under its own username and keeps AccountOk. */
  predicate AllOk(m: map<string, Account>, bound: nat)
  {
    forall u :: u in m ==> m[u].username == u && AccountOk(m[u], bound)
  }

  predicate WellFormed(st: State)
  {
    AllOk(st.users, st.nextId)
  }

  lemma WellFormedFromAllOk(st: State, m: map<string, Account>)
    requires st.users == m && AllOk(m, st.nextId)
    ensures WellFormed(st)
  {
  }

  /** Storing a good account under its own name, while the counter moves
      forward, keeps every account good. */
  lemma StoreKeepsAllOk(m: map<string, Account>, bound: nat, u: string, a: Account, bound': nat)
    requires AllOk(m, bound) && bound <= bound'
    requires a.username == u && AccountOk(a, bound')
    ensures AllOk(m[u := a], bound')
  {
    var m' := m[u := a];
    forall v | v in m'
      ensures m'[v].username == v && AccountOk(m'[v], bound')
    {
      if v != u {
        AccountOkRaise(m[v], bound, bound');
      }
    }
  }

  lemma AccountOkRaise(a: Account, bound: nat, bound': nat)
    requires AccountOk(a, bound) && bound <= bound'
    ensures AccountOk(a, bound')
  {
  }

  /** AccountOk with the snapshot clause dropped: only the balance as a whole
      must be the signed sum of the history. */
  predicate Summed(a: Account, bound: nat)
  {
    && a.balance >= 0
    && a.balance == SignedSum(a.history)
    && (forall i :: 0 <= i < |a.history| ==>
          a.history[i].amt > 0 && a.history[i].updatedBal >= 0 && a.history[i].id < bound)
    && (forall i, j :: 0 <= i < j < |a.history| ==> a.history[j].id < a.history[i].id)
  }

  predicate AllSummed(m: map<string, Account>, bound: nat)
  {
    forall u :: u in m ==> m[u].username == u && Summed(m[u], bound)
  }

  /** Every balance is accounted for by its statement, whatever the
      individual snapshots say. */
  predicate Balanced(st: State)
  {
    AllSummed(st.users, st.nextId)
  }

  lemma BalancedFromAllSummed(st: State, m: map<string, Account>)
    requires st.users == m && AllSummed(m, st.nextId)
    ensures Balanced(st)
  {
  }

  /** A well-formed store is balanced. */
  lemma WellFormedIsBalanced(st: State)
    requires WellFormed(st)
    ensures Balanced(st)
  {
    forall u | u in st.users
      ensures Summed(st.users[u], st.nextId)
    {
      ChainedIsSnapshots(st.users[u].history, st.users[u].balance);
    }
  }

  lemma StoreKeepsAllSummed(m: map<string, Account>, bound: nat, u: string, a: Account, bound': nat)
    requires AllSummed(m, bound) && bound <= bound'
    requires a.username == u && Summed(a, bound')
    ensures AllSummed(m[u := a], bound')
  {
    var m' := m[u := a];
    forall v | v in m'
      ensures m'[v].username == v && Summed(m'[v], bound')
    {
    }
  }

  /** Every account outside `touched` is the same in `m'` as in `m`, and no
      account was added or removed. */
  predicate Untouched(m: map<string, Account>, m': map<string, Account>, touched: set<string>)
  {
    && m'.Keys == m.Keys
    && forall v :: v in m && v !in touched ==> m'[v] == m[v]
  }

  ghost function Pick(m: map<string, Account>): string
    requires m != map[]
  {
    var k :| k in m; k
  }

  /** The sum of all balances in the ledger. */
  ghost function Total(m: map<string, Account>): int
    decreases |m.Keys|
  {
    if m == map[] then 0
    else
      var k := Pick(m);
      assert (m - {k}).Keys == m.Keys - {k};
      m[k].balance + Total(m - {k})
  }

  lemma {:induction false} TotalRemove(m: map<string, Account>, k: string)
    requires k in m
    ensures Total(m) == m[k].balance + Total(m - {k})
    decreases |m.Keys|
  {
    var j := Pick(m);
    if j != k {
      assert (m - {j}).Keys == m.Keys - {j};
      assert (m - {k}).Keys == m.Keys - {k};
      TotalRemove(m - {j}, k);
      TotalRemove(m - {k}, j);
      assert m - {j} - {k} == m - {k} - {j};
    }
  }

  /** Replacing one account changes the total by exactly its balance change. */
  lemma TotalUpdate(m: map<string, Account>, k: string, a: Account)
    requires k in m
    ensures Total(m[k := a]) == Total(m) - m[k].balance + a.balance
  {
    TotalRemove(m, k);
    TotalRemove(m[k := a], k);
    assert m[k := a] - {k} == m - {k};
  }

  /** Adding a new account adds its balance to the total. */
  lemma TotalInsert(m: map<string, Account>, k: string, a: Account)
    requires k !in m
    ensures Total(m[k := a]) == Total(m) + a.balance
  {
    TotalRemove(m[k := a], k);
    assert m[k := a] - {k} == m;
  }
}
