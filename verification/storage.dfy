/** The local account store: AsyncStorage restricted to its single slot
    `"user"`.  JSON serialisation of the record is the identity here, and
    the asynchronous calls complete before the handler goes on. */
module Storage {
  import opened Options

  /** The `{ email, password }` record kept in the slot. */
  datatype Account = Account(email: string, password: string)

  /** The answer of a read: the slot's content, or a rejected promise. */
  datatype Fetched = Fetched(slot: Option<Account>) | Unavailable

  class Store {
    /** The slot `"user"`; `None` until an account has been saved. */
    var user: Option<Account>
    /** Whether the persistence medium answers; when it does not, every
        call rejects and the screens fall into their `catch` blocks. */
    const accessible: bool

    constructor (accessible: bool)
      ensures this.accessible == accessible && user == None
    {
      this.accessible := accessible;
      user := None;
    }

    /** `AsyncStorage.setItem('user', JSON.stringify(a))`: on success the
        slot holds exactly `a`, whatever it held before. */
    method SetItem(a: Account) returns (ok: bool)
      modifies this`user
      ensures ok == accessible
      ensures user == if ok then Some(a) else old(user)
    {
      ok := accessible;
      if ok {
        user := Some(a);
      }
    }

    /** `AsyncStorage.getItem('user')` followed by `JSON.parse`. */
    method GetItem() returns (r: Fetched)
      ensures accessible ==> r == Fetched(user)
      ensures !accessible ==> r == Unavailable
    {
      if accessible {
        r := Fetched(user);
      } else {
        r := Unavailable;
      }
    }
  }
}
