# Online-banking dashboard: session, timer and running-balance model

A Dafny model of the behaviour in the single-page banking dashboard's top-level `App`
component and its `RecentTransactions` table (`online-banking/src/App.jsx`):

- **Mock session with an inactivity timer** (`Dashboard.App`). The user is either absent
  or the demo user. A failed sign-in sets an error message. There is one timer slot
  (`inactivityTimerRef.current`) that each sign-in and each burst of activity re-arms.
  When the timer fires, the user is signed out with "Session expired due to inactivity.".
  The host's `setTimeout`/`clearTimeout` is modelled by two fields: `pending`, the timers
  that will still fire, and `issued`, a counter of the ids handed out so far. The passage
  of time is the host calling `Expire(id)`. `Valid()` states the state machine's invariant:
  the timer in the ref is exactly the one pending, and a timer is armed exactly while a
  user is signed in. The lemma `AtMostOnePending` shows that the host never has more than
  one expiry pending. Every event handler (`Login`, `Logout`, `ResetInactivity`, `Expire` and
  the navigation methods) keeps `Valid()` and states its whole new state. The two timer
  helpers `StartInactivityTimer` and `StopInactivityTimer` keep only `TimerValid()`, because
  `Logout` stops the timer after it has already cleared the user.
- **Navigation state** (`current`, `sidebarOpen`, the selected account): the sidebar
  handler, the menu toggle, the two quick actions and the account selector.
- **Running-balance projection** (`Ledger`). The first 20 transactions are mapped to rows,
  and each row carries the running balance after its own amount. The balance starts from
  the selected account's balance, or 0 when no account has the selected id. `Project` is
  the recursive form that threads the accumulator. `ComputeRows` is the loop form.
  `RowsSpec` proves that row `i` holds `start + amount[0] + … + amount[i]`.

Money is whole cents (`int`); the seed data of the constructor is the source's, in cents.
`InactivityScenario` walks one session through sign-in, activity, a superseded timer and
expiry, using only the contracts.

Two behaviours of the code that the model keeps as written:
- `handleLogin` does not check whether a user is already signed in. `Login` accepts the
  demo pair in any state and re-arms the timer.
- A failed sign-in changes only `authError`, whether or not a user is signed in.

## Model

| member | source | states |
|---|---|---|
| `Ledger.FindAccount` | online-banking/src/App.jsx:248 | `accounts.find` by id: the index of the first account with that id, and None exactly when no account has it |
| `Ledger.StartingBalance` | online-banking/src/App.jsx:248 | the starting balance is the first matching account's balance, and 0 when the selected id matches no account |
| `Ledger.Recent` | online-banking/src/App.jsx:103 | `slice(0, 20)` keeps `min(n, 20)` transactions, each at its own position |
| `Ledger.Project` | online-banking/src/App.jsx:101-107 | threading `running` through the transactions yields one row per transaction |
| `Ledger.ProjectAt` | online-banking/src/App.jsx:101-107 | row k of the projection keeps transaction k's fields, with running = start + amount[0] + … + amount[k] |
| `Ledger.RowsSpec` | online-banking/src/App.jsx:101-107 | the table has `min(n, 20)` rows; row i keeps transaction i's fields, with running = start + the amounts of transactions 0..i |
| `Ledger.DebitLowersRunning` | online-banking/src/App.jsx:129 | a row's balance is the previous row's (or the start) plus its own amount, so the row is labelled "Debit" exactly when its balance went down |
| `Ledger.ComputeRows` | online-banking/src/App.jsx:101-107 | the loop with a mutable accumulator returns `min(n, 20)` rows holding the prefix sums, equal to the recursive projection |
| `Dashboard.App.constructor` | online-banking/src/App.jsx:159-174 | initial state: overview view, sidebar closed, nobody signed in, empty error, no timer, the seed accounts with "chk" selected, the seed transactions |
| `Dashboard.App.StopInactivityTimer` | online-banking/src/App.jsx:205-210 | afterwards the ref is null and nothing is pending; with no timer armed it changes nothing; user, error and view stay the same |
| `Dashboard.App.StartInactivityTimer` | online-banking/src/App.jsx:199-204 | clears any armed timer before arming a fresh one, so exactly one timer, the new one, is pending whatever was pending before |
| `Dashboard.App.Login` | online-banking/src/App.jsx:177-186 | the demo pair signs in `{name: 'Test User', email}`, clears the error and leaves exactly one timer pending; any other pair sets the fixed error message and changes nothing else |
| `Dashboard.App.Logout` | online-banking/src/App.jsx:187-193 | signs out, disarms the timer and records a truthy reason as an alert; without a reason, a second logout changes nothing |
| `Dashboard.App.ResetInactivity` | online-banking/src/App.jsx:195-198 | changes nothing while signed out; while signed in, re-arms the timer, leaving exactly one pending, and keeps the user |
| `Dashboard.App.Expire` | online-banking/src/App.jsx:201-203 | firing the pending timer signs the user out with the expiry notice; a cleared or already fired timer changes nothing, so the session expires at most once |
| `Dashboard.App.Navigate` | online-banking/src/App.jsx:219-222 | sets the view to the key and closes the sidebar; nothing else changes |
| `Dashboard.App.ToggleSidebar` | online-banking/src/App.jsx:226 | flips `sidebarOpen`; nothing else changes |
| `Dashboard.App.PayBill` | online-banking/src/App.jsx:250 | shows the payments view; nothing else changes |
| `Dashboard.App.Transfer` | online-banking/src/App.jsx:250 | shows the payments view as well; nothing else changes |
| `Dashboard.App.SelectAccount` | online-banking/src/App.jsx:242 | changes only the selected account id |
| `Dashboard.App.RecentRows` | online-banking/src/App.jsx:248 | the overview's rows start from the selected account's balance and hold its prefix sums over the first 20 transactions |
| `Dashboard.AtMostOnePending` | online-banking/src/App.jsx:199-210 | under the timer invariant the host has at most one inactivity timer pending |

## Left out

- Rendering (JSX, CSS classes, ARIA attributes, `Header`, `Sidebar`, `Login`, `BalanceCard`,
  `QuickActions` markup, the "Content coming soon" panel): presentation only.
- Real time: the 5-minute duration and the 300 ms simulated sign-in delay in the login
  form. Timers are an abstract slot fired by the host, and sign-in is a direct call to `Login`.
- The login form's own state (`email`, `password`, `loading`): form plumbing around `handleLogin`.
- Registering and removing the `click`, `keydown`, `mousemove` and `touchstart` listeners.
  `ResetInactivity` is the handler they run.
- React hook semantics: state batching and closures that still see an old `user`.
  `ResetInactivity` reads the current `user`.
- `alert(reason)`: a browser side effect. Only the message is recorded, in `alerts`.
- Floating-point currency and its formatting (`toLocaleString`, `toFixed`, the sign and
  `Math.abs` of the amount column). Amounts are integer cents, so no rounding is modelled.
- The "Add account" quick action: it is a no-op stub.
- The second, near-duplicate version of the screen is not part of this model.
