/** Registration: the account-creation step of the user service. */
module UserService {
  import opened LedgerTypes
  import Bank
  import opened AccountStore

  /** register: `passwordHash` is what the password hasher returned for
      `password`; the returned record is the one stored. */
  method Register(store: Store, username: string, password: string, passwordHash: string) returns (r: Result<Account>)
    modifies store
    ensures Bank.Commits(old(store.Snapshot()), store.Snapshot(), r,
                         Bank.Register(old(store.Snapshot()), username, password, passwordHash))
    ensures r.Ok? ==> username in store.users && store.users[username] == r.value
    ensures old(WellFormed(store.Snapshot())) ==> WellFormed(store.Snapshot())
  {
    ghost var before := store.Snapshot();
    if username == "" || password == "" {
      return Err(CredentialsRequired);
    }
    if username in store.users {
      return Err(AlreadyExists);
    }
    var user := Account(username, passwordHash, 0, []);
    store.users := store.users[username := user];
    r := Ok(user);
    assert store.Snapshot() == Bank.Register(before, username, password, passwordHash).value.next;
    if WellFormed(before) {
      Bank.RegisterKeepsWellFormed(before, username, password, passwordHash);
    }
  }
}
