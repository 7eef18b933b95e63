# Emergency fund tracker: a verified model of its state logic

The tracker is a browser widget. A user logs in, records gig income toward a
savings goal, and watches a gauge fill up. This project models the two small
state machines inside `app.js`, without the DOM around them:

- `AuthManager` (module `Auth`) keeps a register-on-first-login credential
  table and one session pointer. Both are written through to storage.
  - An unseen name is registered with its password and logged in.
  - A known name logs in only with its exact password.
  - A failed attempt changes nothing.
  - `logout` clears the session.
- The ledger of `EmergencyFundTracker` covers `currentAmount`, `goal` and the
  newest-first `entries`.
  - Pure values and functions live in module `Ledgers`: the guarded updates,
    the defaults applied on load, the percentage and remaining-amount
    formulas, the ten-entry history view and the source labels.
  - The class that holds the ledger in memory lives in module `Tracker`. It
    loads from and saves to the current user's storage namespace.
- `localStorage` is modelled as a class (module `Storage`). It holds values as
  the program reads them back, after `JSON.parse` and `parseFloat`.
- Module `Js` holds the JavaScript values involved and their truthiness.
  - A number is `NaN` or a finite real.
  - `!x` on a number is true only for NaN and zero.
  - `x || d` falls back to `d` on such values.

The tracker's `AddIncome` and `UpdateGoal` are proved against the `Ledgers`
functions of the same names, and `LoadUserData` against `Ledgers.Load`.
`AuthManager.Login`, `AuthManager.Logout` and the tracker's `HandleLogout`
state their new state directly.

Two class invariants are kept by every method:

- The in-memory credential table and session equal what a restart would read
  back (`AuthManager.Valid`).
- The goal is never zero, so the percentage formula never divides by zero.

One further property, `Persisted`, says that a reload of the current user's
data would give back the ledger in memory. It is not an invariant: after a
logout the current namespace becomes `null`. It is a postcondition of the
tracker's constructor (with a live session), `LoadUserData`, `SaveData`, an
accepted `AddIncome` or `UpdateGoal`, and a successful `HandleLogin`.

Behaviour reproduced from the code as written:

- `addIncome`'s guard `!amount || !source` rejects only a zero or
  unparseable amount and an empty source. A negative amount is recorded and
  lowers the total (`Ledgers.NegativeAmountAccepted`). So the total is not
  guaranteed to be non-negative.
- `isLoggedIn` is `!!currentUser`, so the empty name can log in (`login`
  returns true) while `isLoggedIn()` stays false. A live session after a
  successful login is proved only for non-empty names.
- A stored goal that parses to a negative number is kept by `loadUserData`.
  Only zero and NaN fall back to 1000. The model proves only that the goal is
  never zero.
- With no session, the ledger keys are prefixed with the string `null`.

## Model

| member | source | states |
|---|---|---|
| `Ledgers.Load` | app.js:52-57 | The amount, goal and entry list are each taken from storage when truthy. Otherwise they default to 0, 1000 and []. The loaded goal is never zero. |
| `Ledgers.Initial` | app.js:38-40 | The starting ledger has a positive goal and no entries, and its total agrees with the (empty) entry list. |
| `Ledgers.Save` | app.js:219-221 | The amount and goal are written as numbers and the entry list as it is. For a non-zero goal, loading the result gives back the ledger. |
| `Ledgers.ReloadStable` | app.js:52-57 | Whatever a namespace holds, one load settles it: saving the loaded ledger and loading again gives the same ledger, and the saved form reads back unchanged. |
| `Ledgers.LoadMissing` | app.js:54-56 | A namespace with nothing stored loads as 0 / 1000 / []. |
| `Ledgers.AddIncome` | app.js:116-137 | A zero or NaN amount or an empty source leaves the ledger unchanged. Otherwise the list grows by exactly one, the new entry is first and carries the given amount and source, and the old entries follow in order. The total rises by exactly the amount and the goal is untouched. The gap between the total and the sum of the entries is unchanged. |
| `Ledgers.NegativeAmountAccepted` | app.js:120 | Any negative amount with a non-empty source passes the guard, is recorded as the first entry, and lowers the total. |
| `Ledgers.UpdateGoal` | app.js:139-147 | The goal is replaced only by a positive number. Anything else changes nothing. The total and the entries are never touched, and a positive goal stays positive. |
| `Ledgers.AddAllEffect` | app.js:129-130 | After any run of income submissions, exactly the accepted ones are in front, newest first. The total has risen by exactly their amounts and the goal is unchanged. |
| `Ledgers.BalanceMatchesEntries` | app.js:129-130 | If the total equals the sum of the entries before a run of submissions, it still does after. This holds in particular from the initial 0 / []. |
| `Ledgers.RecordedNewestFirst` | app.js:129 | When every submission is accepted, entry `i` of the list is the `i`-th most recent submission. |
| `Ledgers.Percentage` | app.js:150 | The percentage is at most 100. Below 100 it is exactly current/goal·100, and it is 100 only when current/goal·100 has reached 100, for any non-zero goal, negative ones included. For a positive goal it is 100 exactly when the total has reached the goal, and it is non-negative when the total is. |
| `Ledgers.Remaining` | app.js:151 | The remaining amount is never negative. It is 0 exactly when the total has reached the goal, and otherwise it is exactly the shortfall. |
| `Ledgers.GoalReachedWhenFull` | app.js:150-168 | For a positive goal, "Goal Reached" (nothing remaining) is shown exactly when the gauge is full. |
| `Ledgers.ProgressExamples` | app.js:150-151 | 250 of 1000 gives 25% with 750 to go. 1000 and 1500 of 1000 both give 100% with 0 to go. |
| `Ledgers.Recent` | app.js:181 | The history view holds `min(n, 10)` entries, and they are the first entries of the list, in order. |
| `Ledgers.RecentAfterAdds` | app.js:173-181 | After at least ten accepted submissions from the initial ledger, the view holds exactly the ten most recent, newest first. |
| `Ledgers.FormatSource` | app.js:192-200 | Each of the four known keys maps to its label. Any other string is shown unchanged, and a label is empty only for the empty source. |
| `Storage.LocalStorage.Read` | app.js:54-56 | A namespace's keys read back as written. Keys never written read as missing, which loads as the initial values. |
| `Auth.AuthManager.constructor` | app.js:2-5 | The session comes from the stored pointer. The table comes from the stored table, or is empty when none is stored. The result is in sync with storage. |
| `Auth.AuthManager.Login` | app.js:7-19 | An unseen name gets a `{password}` record and succeeds. A known name succeeds exactly when the password matches. Success sets the session to that name, and the session is live unless the name is empty. Failure leaves the session and storage unchanged. No existing record is ever altered, and storage stays in sync. |
| `Auth.AuthManager.Logout` | app.js:21-24 | The session is cleared and `IsLoggedIn` is false. The table is kept, and storage stays in sync. |
| `Auth.AuthManager.IsLoggedIn` | app.js:26-28 | True exactly when the session is neither null nor the empty name. |
| `Auth.AuthManager.GetCurrentUser` | app.js:30-32 | Returns the session pointer. It names a non-empty user exactly when `IsLoggedIn` holds. |
| `Auth.LoginAsWritten` | app.js:7-19 | `login` on a plain-object table. A name with an own record behaves as expected, and any other name registers. The exception is a name inherited from Object.prototype: it is refused with any password and never registered. |
| `Auth.InheritedNameNeverRegisters` | app.js:8-13 | `toString` with no own record: login fails with any password and no record is created. |
| `Tracker.Namespace` | app.js:217-221 | The key prefix is the user's name, or the string `null` when there is no session. |
| `Tracker.NullSessionSharesNamespace` | app.js:217-221 | A save made with no session lands in the keys of a user named `null`. |
| `Tracker.EmergencyFundTracker.constructor` | app.js:36-50 | Restores the session. With a live session it loads that user's data. Otherwise it starts at 0 / 1000 / []. Storage is not written. |
| `Tracker.EmergencyFundTracker.LoadUserData` | app.js:52-57 | The ledger in memory becomes `Load` of the current namespace. It is then persisted and the goal is non-zero. |
| `Tracker.EmergencyFundTracker.SaveData` | app.js:217-222 | Writes the three values under the current namespace and changes no other namespace. Afterwards a reload reproduces the ledger. |
| `Tracker.EmergencyFundTracker.AddIncome` | app.js:116-137 | The new ledger is `Ledgers.AddIncome` of the old one. An accepted income is saved under the current namespace. A rejected one changes nothing in memory or storage. Persistence is kept. |
| `Tracker.EmergencyFundTracker.UpdateGoal` | app.js:139-147 | The new ledger is `Ledgers.UpdateGoal` of the old one. An accepted goal is saved. A rejected one changes nothing in memory or storage. |
| `Tracker.EmergencyFundTracker.HandleLogin` | app.js:95-107 | Succeeds exactly when `login` does. An unseen name is added to the credential table and every other record is kept (own-key semantics; see "## Findings"). On success the ledger in memory is that user's stored data, defaults applied. On failure nothing changes. |
| `Tracker.EmergencyFundTracker.HandleLogout` | app.js:109-114 | The session pointer becomes null in memory and in storage, so the next save goes to the `null` namespace. The credential table is kept. The ledger in memory is not reset. |

## Left out

- Rendering and DOM glue are not modelled. This covers `showLogin`, `showApp`, `bindEvents`, the HTML built by `renderEntries`, `resetForm`, `showSuccess` with its timer, `alert`, and the text and colour updates in `updateDisplay`. Only the values those views derive are modelled.
- Form fields arrive as method parameters: the amount and goal as already-parsed numbers, the source, username and password as strings. `parseFloat` itself is not modelled.
- Storage holds parsed values rather than strings.
  - The model takes `toString` followed by `parseFloat` to be exact.
  - `JSON.parse` throwing on corrupt text is not modelled.
  - A stored entry list that parses to some other truthy non-array value is not modelled.
  - A stored credential that is not a `{password}` object is not modelled.
- `Date.now()` and `toISOString()` come in as parameters (`now`, `isoNow`). Identifier collisions between entries made in the same millisecond are therefore not modelled.
- IEEE floating point is not modelled. Numbers are exact reals with no Infinity, no -0 and no rounding. `toFixed` and `formatDate` (locale date text) are not modelled.
- `Ledgers.Percentage`: requires a non-zero goal. The tracker's invariant guarantees this, so the division by zero at app.js:150 cannot occur there.
- `Ledgers.FormatSource`: a source naming an Object.prototype member (such as `toString`) makes `app.js` display that inherited function; the model shows the string verbatim.
- The service-worker registration and the `DOMContentLoaded` bootstrap are host-environment glue and are not modelled.

## Findings

| source | as written | input that shows it | evidently intended | confidence | as-written member | corrected member |
|---|---|---|---|---|---|---|
| app.js:8-13 | `!this.users[username]` runs on a plain object. A name inherited from Object.prototype therefore looks already registered. Its `.password` is `undefined`, so the comparison always fails. | `login("toString", "pw")` on a table without an own `toString` returns false, and the name can never be registered | The first login with a name that has no record of its own registers it and succeeds | high; not executed | `Auth.LoginAsWritten` (with `Auth.InheritedNameNeverRegisters`) | `Auth.AuthManager.Login` |
