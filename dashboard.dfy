/**
 * The state held by the top-level `App` component (online-banking/src/App.jsx): the
 * mock session with its single re-armable inactivity timer, and the navigation state.
 *
 * The host's timer facility (`setTimeout` / `clearTimeout`) is modelled by the fields
 * `pending` (timers scheduled and neither cleared nor fired yet) and `issued` (how many
 * timer ids have been handed out); the passage of time is the host calling `Expire`.
 */
module Dashboard {
  import opened Wrappers
  import opened Ledger

  datatype User = User(name: string, email: string)

  /** A timer id as returned by `setTimeout`: always positive, hence truthy. */
  type TimerId = n: nat | n > 0 witness 1

  const DemoEmail := "test@bank.com"
  const DemoPassword := "Passw0rd!"
  const DemoUserName := "Test User"
  const InvalidCredentialsMessage := "Invalid email or password. Try test@bank.com / Passw0rd!"
  const ExpiryReason := "Session expired due to inactivity."

  /** The single credential pair the demo accepts. */
  predicate IsDemoCredential(email: string, password: string) {
    email == DemoEmail && password == DemoPassword
  }

  /** JavaScript truthiness of the optional `reason` argument: present and non-empty. */
  predicate IsTruthy(reason: Option<string>) {
    reason.Some? && reason.value != ""
  }

  function TimerSet(timer: Option<TimerId>): set<TimerId> {
    if timer.Some? then {timer.value} else {}
  }

  /** The session part of the state: what the session handlers may change. */
  datatype SessionState = SessionState(
    user: Option<User>, authError: string, timer: Option<TimerId>,
    pending: set<TimerId>, issued: nat, alerts: seq<string>)

  /** The screen part of the state: what the navigation handlers may change. */
  datatype ScreenState = ScreenState(
    current: string, sidebarOpen: bool,
    accounts: seq<Account>, selectedAccountId: string, transactions: seq<Transaction>)

  class App {
    var current: string
    var sidebarOpen: bool
    var user: Option<User>
    var authError: string
    /** `inactivityTimerRef.current`. */
    var timer: Option<TimerId>
    /** Timers the host will still fire. */
    var pending: set<TimerId>
    /** Number of ids `setTimeout` has handed out; the next one is `issued + 1`. */
    var issued: nat
    /** The messages passed to `alert`, oldest first. */
    var alerts: seq<string>
    var accounts: seq<Account>
    var selectedAccountId: string
    var transactions: seq<Transaction>

    ghost function Session(): SessionState
      reads this
    {
      SessionState(user, authError, timer, pending, issued, alerts)
    }

    ghost function Screen(): ScreenState
      reads this
    {
      ScreenState(current, sidebarOpen, accounts, selectedAccountId, transactions)
    }

    /** At most the timer held in the ref is pending, and its id was handed out. */
    ghost predicate TimerValid()
      reads this
    {
      pending <= TimerSet(timer) &&
      (timer.Some? ==> timer.value <= issued)
    }

    /**
     * Between handlers: the armed timer is exactly the one pending, and a timer is armed
     * exactly while a user is signed in.
     */
    ghost predicate Valid()
      reads this
    {
      TimerValid() &&
      pending == TimerSet(timer) &&
      (user.Some? <==> timer.Some?)
    }

    /** The initial state of `App`, with the demo accounts and transactions in cents. */
    constructor ()
      ensures Valid()
      ensures current == "overview" && !sidebarOpen
      ensures user == None && authError == "" && timer == None
      ensures pending == {} && issued == 0 && alerts == []
      ensures selectedAccountId == "chk"
      ensures accounts == [Account("chk", "Checking", "••• 1234", 328742),
                           Account("sav", "Savings", "••• 9876", 1204513)]
      ensures transactions == [Transaction("t1", "Grocery Mart", "2025-10-05", -5423),
                               Transaction("t2", "Salary", "2025-10-04", 230000),
                               Transaction("t3", "Electric Co", "2025-10-03", -8912)]
    {
      current := "overview";
      sidebarOpen := false;
      user := None;
      authError := "";
      timer := None;
      pending := {};
      issued := 0;
      alerts := [];
      accounts := [Account("chk", "Checking", "••• 1234", 328742),
                   Account("sav", "Savings", "••• 9876", 1204513)];
      selectedAccountId := "chk";
      transactions := [Transaction("t1", "Grocery Mart", "2025-10-05", -5423),
                       Transaction("t2", "Salary", "2025-10-04", 230000),
                       Transaction("t3", "Electric Co", "2025-10-03", -8912)];
    }

    /** `stopInactivityTimer`: clear the timer in the ref, if any, and empty the ref. */
    method StopInactivityTimer()
      requires TimerValid()
      modifies this
      ensures TimerValid()
      ensures timer == None && pending == {} && issued == old(issued)
      ensures old(timer) == None ==> Session() == old(Session())
      ensures user == old(user) && authError == old(authError) && alerts == old(alerts)
      ensures Screen() == old(Screen())
    {
      if timer.Some? {
        pending := pending - {timer.value};
        timer := None;
      }
    }

    /**
     * `startInactivityTimer`: clear any armed timer, then arm a fresh one, so that
     * afterwards exactly one timer is pending, whatever was pending before.
     */
    method StartInactivityTimer()
      requires TimerValid()
      modifies this
      ensures TimerValid()
      ensures issued == old(issued) + 1
      ensures timer == Some(issued) && pending == {issued}
      ensures user == old(user) && authError == old(authError) && alerts == old(alerts)
      ensures Screen() == old(Screen())
    {
      StopInactivityTimer();
      issued := issued + 1;
      timer := Some(issued);
      pending := pending + {issued};
    }

    /**
     * `handleLogin`: the demo credentials sign the user in, clear the error and arm the
     * timer; any other pair only sets the error message.
     */
    method Login(email: string, password: string)
      requires Valid()
      modifies this
      ensures Valid()
      ensures IsDemoCredential(email, password) ==>
                user == Some(User(DemoUserName, DemoEmail)) && authError == "" &&
                issued == old(issued) + 1 && timer == Some(issued) && pending == {issued} &&
                alerts == old(alerts)
      ensures !IsDemoCredential(email, password) ==>
                Session() == old(Session()).(authError := InvalidCredentialsMessage)
      ensures Screen() == old(Screen())
    {
      var valid := IsDemoCredential(email, password);
      if !valid {
        authError := InvalidCredentialsMessage;
        return;
      }
      user := Some(User(DemoUserName, email));
      authError := "";
      StartInactivityTimer();
    }

    /**
     * `handleLogout(reason)`: sign out and disarm the timer; a truthy reason is shown to
     * the user. Without a reason, logging out when already signed out changes nothing.
     */
    method Logout(reason: Option<string>)
      requires TimerValid()
      modifies this
      ensures Valid()
      ensures user == None && timer == None && pending == {}
      ensures issued == old(issued) && authError == old(authError)
      ensures alerts == if IsTruthy(reason) then old(alerts) + [reason.value] else old(alerts)
      ensures old(user) == None && old(timer) == None && !IsTruthy(reason) ==>
                Session() == old(Session())
      ensures Screen() == old(Screen())
    {
      user := None;
      StopInactivityTimer();
      if IsTruthy(reason) {
        alerts := alerts + [reason.value];
      }
    }

    /**
     * `resetInactivity`, run on every click, key press, mouse move and touch: re-arm the
     * timer while a user is signed in; do nothing otherwise.
     */
    method ResetInactivity()
      requires Valid()
      modifies this
      ensures Valid()
      ensures old(user) == None ==> Session() == old(Session())
      ensures old(user) != None ==>
                user == old(user) && authError == old(authError) && alerts == old(alerts) &&
                issued == old(issued) + 1 && timer == Some(issued) && pending == {issued}
      ensures Screen() == old(Screen())
    {
      if user == None {
        return;
      }
      StartInactivityTimer();
    }

    /**
     * The host fires timer `id`. A pending timer is dropped from the host's table and runs
     * its callback, `handleLogout('Session expired due to inactivity.')`; a timer that was
     * cleared, already fired or never issued does not fire.
     */
    method Expire(id: TimerId)
      requires Valid()
      modifies this
      ensures Valid()
      ensures old(id in pending) ==>
                user == None && timer == None && pending == {} &&
                issued == old(issued) && authError == old(authError) &&
                alerts == old(alerts) + [ExpiryReason]
      ensures old(id !in pending) ==> Session() == old(Session())
      ensures Screen() == old(Screen())
    {
      if id in pending {
        pending := pending - {id};
        Logout(Some(ExpiryReason));
      }
    }

    /** `handleNavigate(key)`: show view `key` and close the sidebar overlay. */
    method Navigate(key: string)
      requires Valid()
      modifies this
      ensures Valid()
      ensures Screen() == old(Screen()).(current := key, sidebarOpen := false)
      ensures Session() == old(Session())
    {
      current := key;
      sidebarOpen := false;
    }

    /** The header's menu button: flip the sidebar. */
    method ToggleSidebar()
      requires Valid()
      modifies this
      ensures Valid()
      ensures Screen() == old(Screen()).(sidebarOpen := !old(sidebarOpen))
      ensures Session() == old(Session())
    {
      sidebarOpen := !sidebarOpen;
    }

    /** The "Pay bill" quick action: show the payments view. */
    method PayBill()
      requires Valid()
      modifies this
      ensures Valid()
      ensures Screen() == old(Screen()).(current := "payments")
      ensures Session() == old(Session())
    {
      current := "payments";
    }

    /** The "Transfer" quick action: show the payments view too. */
    method Transfer()
      requires Valid()
      modifies this
      ensures Valid()
      ensures Screen() == old(Screen()).(current := "payments")
      ensures Session() == old(Session())
    {
      current := "payments";
    }

    /** The account selector's change handler. */
    method SelectAccount(id: string)
      requires Valid()
      modifies this
      ensures Valid()
      ensures Screen() == old(Screen()).(selectedAccountId := id)
      ensures Session() == old(Session())
    {
      selectedAccountId := id;
    }

    /**
     * The rows of the "Recent transactions" table on the overview screen, started from the
     * selected account's balance (0 when the selection matches no account).
     */
    method RecentRows() returns (rows: seq<Row>)
      ensures |rows| == Min(|transactions|, MaxRows)
      ensures forall i :: 0 <= i < |rows| ==>
                rows[i] == RowOf(transactions[i],
                                 StartingBalance(accounts, selectedAccountId) + Total(transactions[..i + 1]))
    {
      rows := ComputeRows(transactions, StartingBalance(accounts, selectedAccountId));
    }
  }

  /** While the session invariant holds, the host has at most one inactivity timer pending. */
  lemma AtMostOnePending(app: App)
    requires app.TimerValid()
    ensures |app.pending| <= 1
  {
    if app.pending != {} {
      assert app.timer.Some?;
      assert app.pending == {app.timer.value};
    }
  }

  /**
   * A session from sign-in to expiry: activity re-arms the timer, the superseded timer
   * never fires, and the current one signs the user out exactly once.
   */
  method InactivityScenario() {
    var app := new App();
    app.Login("test@bank.com", "wrong");
    assert app.user == None && app.authError == InvalidCredentialsMessage;
    app.Login("test@bank.com", "Passw0rd!");
    assert app.user == Some(User("Test User", "test@bank.com")) && app.timer == Some(1);
    app.ResetInactivity();
    assert app.timer == Some(2) && app.pending == {2};
    app.Expire(1);
    assert app.user.Some? && app.alerts == [];
    app.Expire(2);
    assert app.user == None && app.alerts == [ExpiryReason];
    app.Expire(2);
    assert app.alerts == [ExpiryReason];
    app.Logout(None);
    assert app.alerts == [ExpiryReason];
    var rows := app.RecentRows();
    assert app.accounts[0].id == "chk";
    assert StartingBalance(app.accounts, app.selectedAccountId) == 328742;
    assert app.transactions[..1][1..] == [];
    assert Total(app.transactions[..1]) == -5423;
    assert rows[0].running == 328742 - 5423;
  }
}
