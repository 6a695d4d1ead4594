/**
 * The account and transaction data shown on the overview screen, the lookup of the
 * selected account's balance, and the running-balance column of the
 * "Recent transactions" table (online-banking/src/App.jsx).
 *
 * Money is kept as whole cents (`int`) instead of JavaScript floating-point dollars.
 */
module Ledger {
  import opened Wrappers

  datatype Account = Account(id: string, name: string, number: string, balance: int)

  /** A signed amount: negative is a debit, zero or positive a credit. */
  datatype Transaction = Transaction(id: string, merchant: string, date: string, amount: int)

  /** A table row: the transaction's own fields spread into a new record, plus `running`. */
  datatype Row = Row(id: string, merchant: string, date: string, amount: int, running: int)

  /** The table shows at most this many transactions. */
  const MaxRows: nat := 20

  function Min(a: nat, b: nat): nat { if a <= b then a else b }

  function RowOf(t: Transaction, running: int): Row {
    Row(t.id, t.merchant, t.date, t.amount, running)
  }

  /** The "Type" column: a transaction is a debit exactly when its amount is negative. */
  predicate IsDebit(amount: int) { amount < 0 }

  function TypeLabel(amount: int): string {
    if IsDebit(amount) then "Debit" else "Credit"
  }

  /**
   * `accounts.find(a => a.id === selectedAccountId)`: the index of the first account with
   * the given id, or None when no account has it.
   */
  function FindAccount(accounts: seq<Account>, id: string): (r: Option<nat>)
    ensures r.Some? ==> r.value < |accounts| && accounts[r.value].id == id
    ensures r.Some? ==> forall j :: 0 <= j < r.value ==> accounts[j].id != id
    ensures r.None? <==> forall j :: 0 <= j < |accounts| ==> accounts[j].id != id
  {
    if accounts == [] then None
    else if accounts[0].id == id then Some(0)
    else
      match FindAccount(accounts[1..], id)
      case None =>
        assert forall j :: 1 <= j < |accounts| ==> accounts[j] == accounts[1..][j - 1];
        None
      case Some(k) =>
        assert forall j :: 1 <= j <= k ==> accounts[j] == accounts[1..][j - 1];
        Some(k + 1)
  }

  /**
   * `accounts.find(...)?.balance ?? 0`: the balance of the first account whose id is the
   * selected one, and 0 when the id matches no account.
   */
  function StartingBalance(accounts: seq<Account>, selectedId: string): (b: int)
    ensures (forall j :: 0 <= j < |accounts| ==> accounts[j].id != selectedId) ==> b == 0
    ensures forall i :: 0 <= i < |accounts| && accounts[i].id == selectedId &&
                        (forall j :: 0 <= j < i ==> accounts[j].id != selectedId)
                        ==> b == accounts[i].balance
  {
    match FindAccount(accounts, selectedId)
    case None => 0
    case Some(k) => accounts[k].balance
  }

  /** Sum of the amounts of `ts`, in order. */
  function Total(ts: seq<Transaction>): int {
    if ts == [] then 0 else ts[0].amount + Total(ts[1..])
  }

  lemma {:induction false} TotalAppend(ts: seq<Transaction>, t: Transaction)
    ensures Total(ts + [t]) == Total(ts) + t.amount
  {
    if ts == [] {
      assert [t][1..] == [];
    } else {
      assert (ts + [t])[1..] == ts[1..] + [t];
      TotalAppend(ts[1..], t);
    }
  }

  /** `transactions.slice(0, 20)`. */
  function Recent(transactions: seq<Transaction>): (r: seq<Transaction>)
    ensures |r| == Min(|transactions|, MaxRows)
    ensures forall i :: 0 <= i < |r| ==> r[i] == transactions[i]
  {
    transactions[..Min(|transactions|, MaxRows)]
  }

  /**
   * The `map` over the slice as a recursive definition: `running` is threaded from one
   * transaction to the next, each row carrying the balance after its own amount.
   */
  function Project(ts: seq<Transaction>, running: int): (rows: seq<Row>)
    ensures |rows| == |ts|
  {
    if ts == [] then []
    else
      var next := running + ts[0].amount;
      [RowOf(ts[0], next)] + Project(ts[1..], next)
  }

  /** The rows of the table for the given transactions and starting balance. */
  function Rows(transactions: seq<Transaction>, startingBalance: int): seq<Row> {
    Project(Recent(transactions), startingBalance)
  }

  /** Row k of the projection keeps transaction k's fields and holds start plus amounts 0..k. */
  lemma {:induction false} ProjectAt(ts: seq<Transaction>, start: int, k: nat)
    requires k < |ts|
    ensures Project(ts, start)[k] == RowOf(ts[k], start + Total(ts[..k + 1]))
  {
    if k == 0 {
      assert ts[..1][1..] == [];
    } else {
      ProjectAt(ts[1..], start + ts[0].amount, k - 1);
      assert ts[..k + 1][1..] == ts[1..][..k];
    }
  }

  /**
   * The running-balance rows: min(n, 20) of them, row i holding transaction i's fields and
   * the starting balance plus the amounts of transactions 0..i.
   */
  lemma RowsSpec(transactions: seq<Transaction>, start: int)
    ensures |Rows(transactions, start)| == Min(|transactions|, MaxRows)
    ensures forall i :: 0 <= i < |Rows(transactions, start)| ==>
              Rows(transactions, start)[i] == RowOf(transactions[i], start + Total(transactions[..i + 1]))
  {
    var recent := Recent(transactions);
    forall i | 0 <= i < |recent|
      ensures Rows(transactions, start)[i] == RowOf(transactions[i], start + Total(transactions[..i + 1]))
    {
      ProjectAt(recent, start, i);
      assert recent[..i + 1] == transactions[..i + 1];
    }
  }

  /**
   * Each row's balance is the previous row's (the starting balance for the first row) plus
   * its own amount, so a row is labelled a debit exactly when its balance went down.
   */
  lemma DebitLowersRunning(transactions: seq<Transaction>, start: int, i: nat)
    requires i < |Rows(transactions, start)|
    ensures var rows := Rows(transactions, start);
            var before := if i == 0 then start else rows[i - 1].running;
            rows[i].running == before + rows[i].amount &&
            (TypeLabel(rows[i].amount) == "Debit" <==> rows[i].running < before)
  {
    RowsSpec(transactions, start);
    if i > 0 {
      assert transactions[..i + 1] == transactions[..i] + [transactions[i]];
      TotalAppend(transactions[..i], transactions[i]);
    } else {
      assert transactions[..1][1..] == [];
    }
  }

  /**
   * The loop form of the projection, over the first 20 transactions with a mutable
   * accumulator, as `RecentTransactions` computes its `rows`.
   */
  method ComputeRows(transactions: seq<Transaction>, startingBalance: int) returns (rows: seq<Row>)
    ensures |rows| == Min(|transactions|, MaxRows)
    ensures forall i :: 0 <= i < |rows| ==>
              rows[i] == RowOf(transactions[i], startingBalance + Total(transactions[..i + 1]))
    ensures rows == Rows(transactions, startingBalance)
  {
    var recent := Recent(transactions);
    var running := startingBalance;
    rows := [];
    var i := 0;
    while i < |recent|
      invariant 0 <= i <= |recent|
      invariant |rows| == i
      invariant running == startingBalance + Total(recent[..i])
      invariant forall k :: 0 <= k < i ==>
                  rows[k] == RowOf(recent[k], startingBalance + Total(recent[..k + 1]))
    {
      running := running + recent[i].amount;
      assert recent[..i + 1] == recent[..i] + [recent[i]];
      TotalAppend(recent[..i], recent[i]);
      rows := rows + [RowOf(recent[i], running)];
      i := i + 1;
    }
    forall k | 0 <= k < |rows|
      ensures rows[k] == RowOf(transactions[k], startingBalance + Total(transactions[..k + 1]))
    {
      assert recent[..k + 1] == transactions[..k + 1];
    }
    RowsSpec(transactions, startingBalance);
  }
}
