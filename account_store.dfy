/** The users map both services share, together with the generator of record
    ids (a counter standing for uuid). */
module AccountStore {
  import opened LedgerTypes

  class Store {
    var users: map<string, Account>
    var nextId: nat

    /** An empty store: no users, and the counter at its start. */
    constructor ()
      ensures users == map[] && nextId == 0
      ensures WellFormed(Snapshot())
    {
      users := map[];
      nextId := 0;
    }

    /** The store's contents as a value. */
    function Snapshot(): State
      reads this
    {
      State(users, nextId)
    }
  }
}
