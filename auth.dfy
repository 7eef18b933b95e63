/**
 * `AuthManager`: a register-on-first-login credential table and a single
 * session pointer, both written through to storage.
 */
module Auth {
  import opened Js
  import opened Storage

  /** `JSON.parse(localStorage.getItem('users')) || {}`: a missing table reads as empty. */
  function TableOrEmpty(stored: Option<map<string, Credential>>): map<string, Credential>
  {
    if stored.Some? then stored.value else map[]
  }

  class AuthManager {
    const store: LocalStorage
    var currentUser: Option<string>
    var users: map<string, Credential>

    /** The in-memory table and session are exactly what a fresh start would read back. */
    ghost predicate Valid()
      reads this, store
    {
      TableOrEmpty(store.users) == users && store.currentUser == currentUser
    }

    /** Restores the table and the last session from storage. */
    constructor(store: LocalStorage)
      ensures this.store == store && Valid()
      ensures currentUser == store.currentUser && users == TableOrEmpty(store.users)
    {
      this.store := store;
      currentUser := store.currentUser;
      users := TableOrEmpty(store.users);
    }

    /**
     * An unseen name is registered with the given password and logged in; a
     * known name logs in only with its exact password. A failed attempt
     * changes nothing, here or in storage, and no record once made is ever
     * changed.
     */
    method Login(username: string, password: string) returns (ok: bool)
      requires Valid()
      modifies this`users, this`currentUser, store`users, store`currentUser
      ensures Valid()
      ensures username !in old(users) ==> ok && users == old(users)[username := Credential(password)]
      ensures username in old(users) ==> ok == (old(users)[username].password == password) && users == old(users)
      ensures ok ==> currentUser == Some(username) && username in users
      ensures ok ==> (IsLoggedIn() <==> username != "")
      ensures !ok ==> currentUser == old(currentUser) && unchanged(store)
      ensures forall u :: u in old(users) ==> u in users && users[u] == old(users)[u]
    {
      if username !in users {
        users := users[username := Credential(password)];
        store.users := Some(users);
      } else if users[username].password != password {
        return false;
      }
      currentUser := Some(username);
      store.currentUser := Some(username);
      ok := true;
    }

    /** Ends the session, in memory and in storage; the table is kept. */
    method Logout()
      requires Valid()
      modifies this`currentUser, store`currentUser
      ensures Valid()
      ensures currentUser == None && !IsLoggedIn()
    {
      currentUser := None;
      store.currentUser := None;
    }

    /** `!!this.currentUser`: both `null` and the empty name count as logged out. */
    function IsLoggedIn(): (live: bool)
      reads this
      ensures live ==> currentUser.Some?
      ensures live <==> currentUser != None && currentUser != Some("")
    {
      currentUser.Some? && currentUser.value != ""
    }

    /** The session pointer, `None` standing for `null`. */
    function GetCurrentUser(): (user: Option<string>)
      reads this
      ensures user == currentUser
      ensures IsLoggedIn() <==> user.Some? && user.value != ""
    {
      currentUser
    }
  }

  // ---------------------------------------------------------------------------
  // `login` as written, on a plain JavaScript object

  /** What `this.users[name]` yields when the table is a plain object. */
  datatype Lookup = Own(record: Credential) | Inherited | Undefined

  function LookUp(users: map<string, Credential>, name: string): Lookup
  {
    if name in users then Own(users[name])
    else if name in ObjectPrototypeMembers then Inherited
    else Undefined
  }

  /**
   * `login` as written, on the table alone: the result and the new table.
   * `!this.users[username]` is false for a name inherited from
   * Object.prototype, and `.password` of that member is `undefined`, which is
   * never `===` a string: such a name is refused whatever the password and
   * can never be registered.
   */
  function LoginAsWritten(users: map<string, Credential>, username: string, password: string)
    : (r: (bool, map<string, Credential>))
    ensures username in users ==> r.0 == (users[username].password == password) && r.1 == users
    ensures username !in users && username !in ObjectPrototypeMembers ==>
      r.0 && r.1 == users[username := Credential(password)]
    ensures username !in users && username in ObjectPrototypeMembers ==> !r.0 && r.1 == users
  {
    match LookUp(users, username)
    case Undefined => (true, users[username := Credential(password)])
    case Inherited => (false, users)
    case Own(c) => (c.password == password, users)
  }

  /** A first attempt as `toString` fails with any password, so the name never gets a record. */
  lemma InheritedNameNeverRegisters(users: map<string, Credential>, password: string)
    requires "toString" !in users
    ensures !LoginAsWritten(users, "toString", password).0
    ensures "toString" !in LoginAsWritten(users, "toString", password).1
  {
  }
}
