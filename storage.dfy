/**
 * The browser's `localStorage` as the program uses it. Values are kept as
 * the program reads them back (after `JSON.parse` and `parseFloat`), not as
 * the strings actually stored.
 */
module Storage {
  import opened Js
  import opened Ledgers

  /** The record kept per registered name, `{ password }`, compared as plain text. */
  datatype Credential = Credential(password: string)

  class LocalStorage {
    /** Key `users`: the whole credential table. */
    var users: Option<map<string, Credential>>
    /** Key `currentUser`: who was last logged in. */
    var currentUser: Option<string>
    /** Keys `<ns>_currentAmount`, `<ns>_goal`, `<ns>_entries`, grouped by namespace `<ns>`. */
    var ledgers: map<string, Stored>

    constructor(users: Option<map<string, Credential>>, currentUser: Option<string>, ledgers: map<string, Stored>)
      ensures this.users == users && this.currentUser == currentUser && this.ledgers == ledgers
    {
      this.users := users;
      this.currentUser := currentUser;
      this.ledgers := ledgers;
    }

    /** The three ledger keys of one namespace; keys never written read as missing. */
    function Read(ns: string): (s: Stored)
      reads this
      ensures ns in ledgers ==> s == ledgers[ns]
      ensures ns !in ledgers ==> Load(s) == Initial()
    {
      if ns in ledgers then ledgers[ns] else Missing
    }
  }
}
