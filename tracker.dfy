/**
 * The state-keeping part of `EmergencyFundTracker`: the current user's
 * ledger in memory, loaded from and written through to that user's storage
 * namespace. The form fields `app.js` reads arrive as parameters.
 */
module Tracker {
  import opened Js
  import opened Ledgers
  import opened Storage
  import opened Auth

  /** The `${user}` prefix of the ledger keys: a `null` session gives the string "null". */
  function Namespace(user: Option<string>): (ns: string)
    ensures user.Some? ==> ns == user.value
    ensures user.None? ==> ns == "null"
  {
    if user.None? then "null" else user.value
  }

  /** A save made with no session lands in the keys of a user named "null". */
  lemma NullSessionSharesNamespace()
    ensures Namespace(None) == Namespace(Some("null"))
  {
  }

  class EmergencyFundTracker {
    const store: LocalStorage
    const auth: AuthManager
    var currentAmount: real
    var goal: real
    var entries: seq<Entry>

    /** Both parts share one storage, and the goal is never zero. */
    ghost predicate Valid()
      reads this, auth, store
    {
      auth.store == store && auth.Valid() && goal != 0.0
    }

    /** The ledger held in memory. */
    function Snapshot(): Ledger
      reads this
    {
      Ledger(currentAmount, goal, entries)
    }

    /** The namespace of the current session's keys. */
    function UserKey(): string
      reads this, auth
    {
      Namespace(auth.GetCurrentUser())
    }

    /** A reload of the current user's data would give back the ledger in memory. */
    ghost predicate Persisted()
      reads this, auth, store
    {
      Load(store.Read(UserKey())) == Snapshot()
    }

    /**
     * Starts from 0 / 1000 / [], restores the last session, and loads that
     * user's data when the session is live.
     */
    constructor(store: LocalStorage)
      ensures Valid() && this.store == store && fresh(auth)
      ensures auth.currentUser == store.currentUser && auth.users == TableOrEmpty(store.users)
      ensures auth.IsLoggedIn() ==> Snapshot() == Load(store.Read(UserKey())) && Persisted()
      ensures !auth.IsLoggedIn() ==> Snapshot() == Initial()
      ensures unchanged(store)
    {
      this.store := store;
      auth := new AuthManager(store);
      currentAmount := DefaultAmount;
      goal := DefaultGoal;
      entries := [];
      new;
      if auth.IsLoggedIn() {
        LoadUserData();
      }
    }

    /** `loadUserData`: the current user's stored values, each defaulted when missing or falsy. */
    method LoadUserData()
      requires Valid()
      modifies this`currentAmount, this`goal, this`entries
      ensures Valid()
      ensures Snapshot() == Load(store.Read(UserKey()))
      ensures Persisted()
    {
      var stored := store.Read(Namespace(auth.GetCurrentUser()));
      currentAmount := OrElse(stored.amount, DefaultAmount);
      goal := OrElse(stored.goal, DefaultGoal);
      entries := if stored.entries.Some? then stored.entries.value else [];
    }

    /** `saveData`: writes the three values under the current namespace. */
    method SaveData()
      requires Valid()
      modifies store`ledgers
      ensures Valid()
      ensures store.ledgers == old(store.ledgers)[UserKey() := Save(Snapshot())]
      ensures Persisted()
    {
      var ns := Namespace(auth.GetCurrentUser());
      store.ledgers := store.ledgers[ns := Stored(Finite(currentAmount), Finite(goal), Some(entries))];
    }

    /**
     * `addIncome`: a zero or unparseable amount or an empty source changes
     * nothing; otherwise the entry goes in front, the amount is added to the
     * total and all three values are saved.
     */
    method AddIncome(amount: Number, source: string, now: int, isoNow: string)
      requires Valid()
      modifies this`currentAmount, this`entries, store`ledgers
      ensures Valid()
      ensures Snapshot() == Ledgers.AddIncome(old(Snapshot()), amount, source, now, isoNow)
      ensures AcceptsIncome(amount, source) ==>
        store.ledgers == old(store.ledgers)[UserKey() := Save(Snapshot())] && Persisted()
      ensures !AcceptsIncome(amount, source) ==> unchanged(this) && unchanged(store)
      ensures old(Persisted()) ==> Persisted()
    {
      if !Truthy(amount) || source == "" {
        return;
      }
      var entry := Entry(now, amount.value, source, isoNow);
      entries := [entry] + entries;
      currentAmount := currentAmount + amount.value;
      SaveData();
    }

    /** `updateGoal`: only a positive goal is taken, and then saved. */
    method UpdateGoal(newGoal: Number)
      requires Valid()
      modifies this`goal, store`ledgers
      ensures Valid()
      ensures Snapshot() == Ledgers.UpdateGoal(old(Snapshot()), newGoal)
      ensures AcceptsGoal(newGoal) ==>
        store.ledgers == old(store.ledgers)[UserKey() := Save(Snapshot())] && Persisted()
      ensures !AcceptsGoal(newGoal) ==> unchanged(this) && unchanged(store)
      ensures old(Persisted()) ==> Persisted()
    {
      if newGoal.Finite? && newGoal.value != 0.0 && newGoal.value > 0.0 {
        goal := newGoal.value;
        SaveData();
      }
    }

    /**
     * `handleLogin`: a successful login loads the user's own data; a failed
     * one leaves the session, the ledger and storage as they were.
     */
    method HandleLogin(username: string, password: string) returns (ok: bool)
      requires Valid()
      modifies this`currentAmount, this`goal, this`entries, auth`users, auth`currentUser,
        store`users, store`currentUser
      ensures Valid()
      ensures ok <==> username !in old(auth.users) || old(auth.users)[username].password == password
      ensures ok ==> auth.currentUser == Some(username)
      ensures auth.users ==
        if username in old(auth.users) then old(auth.users) else old(auth.users)[username := Credential(password)]
      ensures ok ==> Snapshot() == Load(store.Read(username)) && Persisted()
      ensures !ok ==> unchanged(this) && unchanged(auth) && unchanged(store)
    {
      ok := auth.Login(username, password);
      if ok {
        LoadUserData();
      }
    }

    /** `handleLogout`: ends the session but leaves the ledger in memory as it was. */
    method HandleLogout()
      requires Valid()
      modifies auth`currentUser, store`currentUser
      ensures Valid()
      ensures !auth.IsLoggedIn() && auth.users == old(auth.users)
      ensures auth.currentUser == None && store.currentUser == None && UserKey() == "null"
      ensures Snapshot() == old(Snapshot())
    {
      auth.Logout();
    }
  }
}
