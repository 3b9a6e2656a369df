/** Sequences of service calls: what holds of every store the services can
    build, starting from the empty one. A failed call leaves the state as it
    was, as each operation promises. */
module LedgerRuns {
  import opened LedgerTypes
  import opened Bank

  datatype Call =
    | RegisterCall(username: string, password: string, passwordHash: string)
    | FundCall(username: string, amt: int, now: string)
    | PayCall(from: string, to: string, amt: int, now: string)

  function Apply(st: State, c: Call): State
  {
    match c
    case RegisterCall(u, p, h) => (match Register(st, u, p, h) case Ok(s) => s.next case Err(_) => st)
    case FundCall(u, amt, now) => (match Fund(st, u, amt, now) case Ok(s) => s.next case Err(_) => st)
    case PayCall(f, t, amt, now) => (match Pay(st, f, t, amt, now) case Ok(s) => s.next case Err(_) => st)
  }

  function Run(st: State, calls: seq<Call>): State
    decreases |calls|
  {
    if calls == [] then st else Run(Apply(st, calls[0]), calls[1..])
  }

  lemma ApplyKeepsWellFormed(st: State, c: Call)
    requires WellFormed(st)
    ensures WellFormed(Apply(st, c))
  {
    match c
    case RegisterCall(u, p, h) => RegisterKeepsWellFormed(st, u, p, h);
    case FundCall(u, amt, now) => FundKeepsWellFormed(st, u, amt, now);
    case PayCall(f, t, amt, now) => PayKeepsWellFormed(st, f, t, amt, now);
  }

  lemma {:induction false} RunKeepsWellFormed(st: State, calls: seq<Call>)
    requires WellFormed(st)
    ensures WellFormed(Run(st, calls))
    decreases |calls|
  {
    if calls != [] {
      ApplyKeepsWellFormed(st, calls[0]);
      RunKeepsWellFormed(Apply(st, calls[0]), calls[1..]);
    }
  }

  /** In every store the services can build from the empty one, every
      account's balance is the signed sum of its statement, never negative,
      and every record's snapshot is the balance right after it. */
  lemma ReachableAccountsBalance(calls: seq<Call>, u: string)
    requires u in Run(State(map[], 0), calls).users
    ensures
      var a := Run(State(map[], 0), calls).users[u];
      && a.username == u
      && a.balance >= 0
      && a.balance == SignedSum(a.history)
      && (forall i :: 0 <= i < |a.history| ==>
            a.history[i].updatedBal == SignedSum(a.history[i..]) && a.history[i].amt > 0)
      && (forall i, j :: 0 <= i < j < |a.history| ==> a.history[j].id < a.history[i].id)
  {
    RunKeepsWellFormed(State(map[], 0), calls);
    var a := Run(State(map[], 0), calls).users[u];
    ChainedIsSnapshots(a.history, a.balance);
  }

  // ---------------------------------------------------------------------
  // Statements only grow at the front; accounts are never removed.

  predicate IsSuffix(h: seq<Tx>, h': seq<Tx>)
  {
    |h| <= |h'| && h'[|h'| - |h|..] == h
  }

  /** Every account of `m` is still in `m'`, under the same name and hash,
      with its old statement as the tail of the new one. */
  predicate Extends(m: map<string, Account>, m': map<string, Account>)
  {
    forall u :: u in m ==>
      && u in m'
      && m'[u].username == m[u].username
      && m'[u].passwordHash == m[u].passwordHash
      && IsSuffix(m[u].history, m'[u].history)
  }

  lemma SuffixTrans(h1: seq<Tx>, h2: seq<Tx>, h3: seq<Tx>)
    requires IsSuffix(h1, h2) && IsSuffix(h2, h3)
    ensures IsSuffix(h1, h3)
  {
    assert h3[|h3| - |h1|..] == h3[|h3| - |h2|..][|h2| - |h1|..];
  }

  lemma ExtendsTrans(m1: map<string, Account>, m2: map<string, Account>, m3: map<string, Account>)
    requires Extends(m1, m2) && Extends(m2, m3)
    ensures Extends(m1, m3)
  {
    forall u | u in m1
      ensures u in m3 && IsSuffix(m1[u].history, m3[u].history)
    {
      SuffixTrans(m1[u].history, m2[u].history, m3[u].history);
    }
  }

  lemma ApplyExtends(st: State, c: Call)
    ensures Extends(st.users, Apply(st, c).users)
    ensures st.nextId <= Apply(st, c).nextId
  {
    var m, m' := st.users, Apply(st, c).users;
    forall u | u in m
      ensures u in m' && m'[u].username == m[u].username && m'[u].passwordHash == m[u].passwordHash
      ensures IsSuffix(m[u].history, m'[u].history)
    {
      var h, h' := m[u].history, m'[u].history;
      if c.PayCall? && Pay(st, c.from, c.to, c.amt, c.now).Ok? && c.from == c.to == u {
        assert h'[|h'| - |h|..] == h'[2..];
      } else if h' != h {
        assert h'[|h'| - |h|..] == h'[1..];
      }
    }
  }

  lemma {:induction false} RunExtends(st: State, calls: seq<Call>)
    ensures Extends(st.users, Run(st, calls).users)
    ensures st.nextId <= Run(st, calls).nextId
    decreases |calls|
  {
    if calls == [] {
      assert forall u :: u in st.users ==> st.users[u].history[|st.users[u].history| - |st.users[u].history|..] == st.users[u].history;
    } else {
      var st1 := Apply(st, calls[0]);
      ApplyExtends(st, calls[0]);
      RunExtends(st1, calls[1..]);
      ExtendsTrans(st.users, st1.users, Run(st, calls).users);
    }
  }

  // ---------------------------------------------------------------------
  // The calls as the code performs them: payments follow PayAsWritten.

  function ApplyAsWritten(st: State, c: Call): State
  {
    match c
    case PayCall(f, t, amt, now) => (match PayAsWritten(st, f, t, amt, now) case Ok(s) => s.next case Err(_) => st)
    case _ => Apply(st, c)
  }

  function RunAsWritten(st: State, calls: seq<Call>): State
    decreases |calls|
  {
    if calls == [] then st else RunAsWritten(ApplyAsWritten(st, calls[0]), calls[1..])
  }

  lemma ApplyAsWrittenKeepsBalanced(st: State, c: Call)
    requires Balanced(st)
    ensures Balanced(ApplyAsWritten(st, c))
  {
    match c
    case RegisterCall(u, p, h) => RegisterKeepsBalanced(st, u, p, h);
    case FundCall(u, amt, now) => FundKeepsBalanced(st, u, amt, now);
    case PayCall(f, t, amt, now) => PayAsWrittenKeepsBalanced(st, f, t, amt, now);
  }

  lemma {:induction false} RunAsWrittenKeepsBalanced(st: State, calls: seq<Call>)
    requires Balanced(st)
    ensures Balanced(RunAsWritten(st, calls))
    decreases |calls|
  {
    if calls != [] {
      ApplyAsWrittenKeepsBalanced(st, calls[0]);
      RunAsWrittenKeepsBalanced(ApplyAsWritten(st, calls[0]), calls[1..]);
    }
  }

  /** Even as written, in every store the services can build from the empty
      one each account's balance is the signed sum of its statement and never
      negative, amounts are positive and ids decrease newest first; only the
      per-record snapshots can be wrong. */
  lemma ReachableAsWrittenBalance(calls: seq<Call>, u: string)
    requires u in RunAsWritten(State(map[], 0), calls).users
    ensures
      var a := RunAsWritten(State(map[], 0), calls).users[u];
      && a.username == u
      && a.balance >= 0
      && a.balance == SignedSum(a.history)
      && (forall i :: 0 <= i < |a.history| ==> a.history[i].amt > 0)
      && (forall i, j :: 0 <= i < j < |a.history| ==> a.history[j].id < a.history[i].id)
  {
    RunAsWrittenKeepsBalanced(State(map[], 0), calls);
  }

  /** A sequence of calls without a self-payment does the same as written as
      corrected. */
  lemma {:induction false} RunAsWrittenAgreesOffSelf(st: State, calls: seq<Call>)
    requires forall i :: 0 <= i < |calls| && calls[i].PayCall? ==> calls[i].from != calls[i].to
    ensures RunAsWritten(st, calls) == Run(st, calls)
    decreases |calls|
  {
    if calls != [] {
      var c := calls[0];
      if c.PayCall? {
        PayAsWrittenAgreesOffSelf(st, c.from, c.to, c.amt, c.now);
      }
      assert ApplyAsWritten(st, c) == Apply(st, c);
      RunAsWrittenAgreesOffSelf(Apply(st, c), calls[1..]);
    }
  }

  lemma ApplyAsWrittenExtends(st: State, c: Call)
    ensures Extends(st.users, ApplyAsWritten(st, c).users)
    ensures st.nextId <= ApplyAsWritten(st, c).nextId
  {
    if c.PayCall? && c.from == c.to && PayAsWritten(st, c.from, c.to, c.amt, c.now).Ok? {
      SelfPayAsWrittenIsStore(st, c.from, c.amt, c.now);
      var m, m' := st.users, ApplyAsWritten(st, c).users;
      forall v | v in m
        ensures v in m' && m'[v].username == m[v].username && m'[v].passwordHash == m[v].passwordHash
        ensures IsSuffix(m[v].history, m'[v].history)
      {
        var h, h' := m[v].history, m'[v].history;
        if v == c.from {
          assert h'[|h'| - |h|..] == h'[2..];
        } else {
          assert h'[|h'| - |h|..] == h'[0..];
        }
      }
    } else {
      if c.PayCall? && c.from != c.to {
        PayAsWrittenAgreesOffSelf(st, c.from, c.to, c.amt, c.now);
      }
      assert ApplyAsWritten(st, c) == Apply(st, c);
      ApplyExtends(st, c);
    }
  }

  /** Even as written, no account disappears, name and hash never change, and
      every old statement stays the tail of the new one. */
  lemma {:induction false} RunAsWrittenExtends(st: State, calls: seq<Call>)
    ensures Extends(st.users, RunAsWritten(st, calls).users)
    ensures st.nextId <= RunAsWritten(st, calls).nextId
    decreases |calls|
  {
    if calls == [] {
      assert forall u :: u in st.users ==> st.users[u].history[|st.users[u].history| - |st.users[u].history|..] == st.users[u].history;
    } else {
      var st1 := ApplyAsWritten(st, calls[0]);
      ApplyAsWrittenExtends(st, calls[0]);
      RunAsWrittenExtends(st1, calls[1..]);
      ExtendsTrans(st.users, st1.users, RunAsWritten(st, calls).users);
    }
  }

  // ---------------------------------------------------------------------
  // Funding one account n times by 1: no update is lost.

  function UnitFunds(u: string, n: nat, now: string): (calls: seq<Call>)
    ensures |calls| == n
  {
    if n == 0 then [] else [FundCall(u, 1, now)] + UnitFunds(u, n - 1, now)
  }

  lemma {:induction false} UnitFundsAddUp(st: State, u: string, n: nat, now: string)
    requires u in st.users
    ensures u in Run(st, UnitFunds(u, n, now)).users
    ensures Run(st, UnitFunds(u, n, now)).users[u].balance == st.users[u].balance + n
    ensures |Run(st, UnitFunds(u, n, now)).users[u].history| == |st.users[u].history| + n
    ensures Run(st, UnitFunds(u, n, now)).nextId == st.nextId + n
    decreases n
  {
    if n > 0 {
      var calls := UnitFunds(u, n, now);
      assert calls[0] == FundCall(u, 1, now) && calls[1..] == UnitFunds(u, n - 1, now);
      UnitFundsAddUp(Apply(st, FundCall(u, 1, now)), u, n - 1, now);
    }
  }

  /** Two fundings of one account are listed newest first. */
  lemma StatementNewestFirst(st: State, u: string, a1: int, a2: int, now: string)
    requires u in st.users && a1 > 0 && a2 > 0
    ensures u in Run(st, [FundCall(u, a1, now), FundCall(u, a2, now)]).users
    ensures
      var h := Run(st, [FundCall(u, a1, now), FundCall(u, a2, now)]).users[u].history;
      && |h| == |st.users[u].history| + 2
      && h[0].amt == a2 && h[0].kind == Credit
      && h[1].amt == a1 && h[1].kind == Credit
      && h[2..] == st.users[u].history
  {
    var calls := [FundCall(u, a1, now), FundCall(u, a2, now)];
    var st1 := Apply(st, calls[0]);
    var st2 := Apply(st1, FundCall(u, a2, now));
    assert calls[1..] == [FundCall(u, a2, now)];
    assert Run(st1, [FundCall(u, a2, now)]) == Run(st2, []);
    assert Run(st, calls) == st2;
  }

  /** alice holds 1000 and bob 500, both with empty statements; alice pays
      bob 200: alice is left with 800 and is told so, bob has 700, and each
      statement holds one record of 200. */
  lemma TransferScenario(now: string)
    ensures
      var alice, bob := Account("alice", "hash", 1000, []), Account("bob", "hash", 500, []);
      var r := Pay(State(map["alice" := alice, "bob" := bob], 0), "alice", "bob", 200, now);
      && r.Ok?
      && r.value.out == 800
      && r.value.next.users["alice"].balance == 800
      && r.value.next.users["bob"].balance == 700
      && r.value.next.users["alice"].history == [Tx(0, Debit, 200, 800, now)]
      && r.value.next.users["bob"].history == [Tx(1, Credit, 200, 700, now)]
  {
  }
}
