/** The reconciliation report: stored balances against the journal, wallet by wallet. */
module Reconciliation {
  import opened Tables
  import opened Sums
  import opened Postings
  import opened ClosedForms
  import opened Invariants
  import opened Steps
  import Bookkeeping
  import Safety

  datatype Field = AvailableBalance | PendingBalance | LockedBalance

  datatype ReportRow = ReportRow(
    user: nat, actual: Balances, expected: Balances, latest: Balances,
    mismatches: seq<Field>, snapshotMismatches: seq<Field>)

  datatype Report = Report(checked: nat, rows: seq<ReportRow>)

  predicate CreatorAccount(account: Account) {
    account == CreatorAvailable || account == CreatorPending || account == CreatorLocked
  }

  /** The entries of one wallet on the three creator accounts, as the query selects them. */
  function WalletEntries(entries: seq<Entry>, user: nat): seq<Entry> {
    if |entries| == 0 then []
    else
      var n := |entries| - 1;
      WalletEntries(entries[..n], user) +
      if entries[n].wallet == Some(user) && CreatorAccount(entries[n].account) then [entries[n]] else []
  }

  lemma {:induction false} SelectionLosesNothing(entries: seq<Entry>, user: nat, account: Account)
    requires CreatorAccount(account)
    ensures Sum(WalletEntries(entries, user), OfAccount(account)) == Sum(entries, OfWallet(user, account))
  {
    if |entries| > 0 {
      var n := |entries| - 1;
      SelectionLosesNothing(entries[..n], user, account);
      if entries[n].wallet == Some(user) && CreatorAccount(entries[n].account) {
        SumAppend(WalletEntries(entries[..n], user), entries[n], OfAccount(account));
      } else {
        assert WalletEntries(entries, user) == WalletEntries(entries[..n], user);
      }
    }
  }

  /** The balances that a list of entries adds up to. */
  function FoldOf(entries: seq<Entry>): Balances {
    Balances(Sum(entries, OfAccount(CreatorAvailable)), Sum(entries, OfAccount(CreatorPending)), Sum(entries, OfAccount(CreatorLocked)))
  }

  method ExpectedFromEntries(entries: seq<Entry>) returns (balances: Balances)
    ensures balances == FoldOf(entries)
  {
    balances := ZERO;
    for i := 0 to |entries|
      invariant balances == FoldOf(entries[..i])
    {
      var entry := entries[i];
      assert entries[..i + 1] == entries[..i] + [entry];
      SumAppend(entries[..i], entry, OfAccount(CreatorAvailable));
      SumAppend(entries[..i], entry, OfAccount(CreatorPending));
      SumAppend(entries[..i], entry, OfAccount(CreatorLocked));
      var signed := if entry.side == Credit then entry.amount else -entry.amount;
      if entry.account == CreatorAvailable {
        balances := balances.(available := balances.available + signed);
      }
      if entry.account == CreatorPending {
        balances := balances.(pending := balances.pending + signed);
      }
      if entry.account == CreatorLocked {
        balances := balances.(locked := balances.locked + signed);
      }
    }
    assert entries[..|entries|] == entries;
  }

  /** No field is listed iff the balances agree. */
  function MismatchFields(actual: Balances, expected: Balances): (fields: seq<Field>)
    ensures fields == [] <==> actual == expected
    ensures Distinct(fields)
    ensures AvailableBalance in fields <==> actual.available != expected.available
    ensures PendingBalance in fields <==> actual.pending != expected.pending
    ensures LockedBalance in fields <==> actual.locked != expected.locked
  {
    (if actual.available != expected.available then [AvailableBalance] else []) +
    (if actual.pending != expected.pending then [PendingBalance] else []) +
    (if actual.locked != expected.locked then [LockedBalance] else [])
  }

  /** The row for one wallet. */
  function RowFor(s: State, u: nat): ReportRow
    requires u < |s.wallets|
  {
    var actual, expected, latest := s.wallets[u].balances, JournalBalance(s.batches, u), LastSnapshot(s.ledger, u);
    ReportRow(u, actual, expected, latest, MismatchFields(actual, expected), MismatchFields(latest, expected))
  }

  /** The rows of the first `n` wallets whose columns disagree with the journal. */
  function Mismatches(s: State, n: nat): seq<ReportRow>
    requires n <= |s.wallets|
  {
    if n == 0 then []
    else Mismatches(s, n - 1) + if s.wallets[n - 1].balances != JournalBalance(s.batches, n - 1) then [RowFor(s, n - 1)] else []
  }

  /** Builds the report. `fetched[u]` are the entries the database returns for wallet u, in any order. */
  method BuildReport(s: State, limit: nat, fetched: seq<seq<Entry>>) returns (report: Report)
    requires |fetched| == |s.wallets|
    requires forall u :: 0 <= u < |fetched| ==> multiset(fetched[u]) == multiset(WalletEntries(Journal(s.batches), u))
    ensures report.checked == if limit < |s.wallets| then limit else |s.wallets|
    ensures report.rows == Mismatches(s, report.checked)
  {
    hide JournalBalance, FoldOf, LastSnapshot, MismatchFields, WalletEntries, Journal;
    var checked := if limit < |s.wallets| then limit else |s.wallets|;
    var rows := [];
    for u := 0 to checked
      invariant rows == Mismatches(s, u)
    {
      var expected := ExpectedFromEntries(fetched[u]);
      FoldIsJournal(s.batches, u, fetched[u]);
      var latest := LastSnapshot(s.ledger, u);
      var fields := MismatchFields(s.wallets[u].balances, expected);
      var snapshotFields := MismatchFields(latest, expected);
      if |fields| == 0 {
        continue;
      }
      rows := rows + [ReportRow(u, s.wallets[u].balances, expected, latest, fields, snapshotFields)];
    }
    report := Report(checked, rows);
  }

  /** The fold gives the journal balance of the wallet whatever order its entries come in. */
  lemma FoldIsJournal(batches: seq<Batch>, user: nat, entries: seq<Entry>)
    requires multiset(entries) == multiset(WalletEntries(Journal(batches), user))
    ensures FoldOf(entries) == JournalBalance(batches, user)
  {
    var selected := WalletEntries(Journal(batches), user);
    SumPermutation(entries, selected, OfAccount(CreatorAvailable));
    SumPermutation(entries, selected, OfAccount(CreatorPending));
    SumPermutation(entries, selected, OfAccount(CreatorLocked));
    SelectionLosesNothing(Journal(batches), user, CreatorAvailable);
    SelectionLosesNothing(Journal(batches), user, CreatorPending);
    SelectionLosesNothing(Journal(batches), user, CreatorLocked);
  }

  /** The row of wallet u says what its columns, its journal and its latest snapshot are, and lists exactly
      the fields in which the columns, or the snapshot, disagree with the journal. */
  ghost predicate TellsTheTruth(s: State, row: ReportRow) {
    row.user < |s.wallets| && row.actual == s.wallets[row.user].balances &&
    row.expected == JournalBalance(s.batches, row.user) && row.latest == LastSnapshot(s.ledger, row.user) &&
    Lists(row.mismatches, row.actual, row.expected) && Lists(row.snapshotMismatches, row.latest, row.expected)
  }

  ghost predicate Lists(fields: seq<Field>, a: Balances, b: Balances) {
    Distinct(fields) && (AvailableBalance in fields <==> a.available != b.available) && (PendingBalance in fields <==> a.pending != b.pending) &&
    (LockedBalance in fields <==> a.locked != b.locked)
  }

  predicate HasRow(rows: seq<ReportRow>, u: nat) { exists i :: 0 <= i < |rows| && rows[i].user == u }

  /** The report misses no disagreement and invents none: a wallet has a row iff its columns differ from its
      journal, the rows come in the order of the wallets, one for each, and every row tells the truth. */
  lemma {:induction false} ReportIsComplete(s: State, n: nat)
    requires n <= |s.wallets|
    ensures var rows := Mismatches(s, n);
      (forall i :: 0 <= i < |rows| ==> TellsTheTruth(s, rows[i]) && rows[i].user < n) &&
      (forall i, j :: 0 <= i < j < |rows| ==> rows[i].user < rows[j].user) &&
      (forall u: nat :: u < n ==> (HasRow(rows, u) <==> s.wallets[u].balances != JournalBalance(s.batches, u)))
  {
    hide MismatchFields, JournalBalance, LastSnapshot, HasRow;
    if n > 0 {
      ReportIsComplete(s, n - 1);
      var earlier := Mismatches(s, n - 1);
      if s.wallets[n - 1].balances != JournalBalance(s.batches, n - 1) {
        RowAdded(earlier, RowFor(s, n - 1));
      } else {
        NoRow(earlier, n - 1);
        assert Mismatches(s, n) == earlier;
      }
    }
  }

  lemma RowAdded(rows: seq<ReportRow>, row: ReportRow)
    ensures forall u: nat :: HasRow(rows + [row], u) <==> HasRow(rows, u) || u == row.user
  {
    var rows' := rows + [row];
    assert rows'[|rows|] == row;
    forall u: nat | HasRow(rows, u) ensures HasRow(rows', u) {
      var i :| 0 <= i < |rows| && rows[i].user == u;
      assert rows'[i] == rows[i];
    }
  }

  lemma NoRow(rows: seq<ReportRow>, u: nat)
    requires forall i :: 0 <= i < |rows| ==> rows[i].user < u
    ensures !HasRow(rows, u)
  {
  }

  lemma {:induction false} NothingToReport(s: State, n: nat)
    requires BooksAgree(s.wallets, s.batches, s.ledger) && n <= |s.wallets|
    ensures Mismatches(s, n) == []
  {
    if n > 0 { NothingToReport(s, n - 1); }
  }

  /** In every reachable state the three records of every wallet agree with each other and with the
      closed form by status, for any order of the entries, and none is negative; so the report that
      `BuildReport` produces is empty. */
  lemma RecordsAgree(run: seq<Step>, user: nat, entries: seq<Entry>)
    requires user < |After(EMPTY, run).wallets|
    requires multiset(entries) == multiset(WalletEntries(Journal(After(EMPTY, run).batches), user))
    ensures var s := After(EMPTY, run);
      s.wallets[user].balances == FoldOf(entries) == LastSnapshot(s.ledger, user) == Expected(user, s.supports, s.withdrawals)
    ensures var b := After(EMPTY, run).wallets[user].balances; b.available >= 0 && b.pending >= 0 && b.locked >= 0
    ensures forall n :: 0 <= n <= |After(EMPTY, run).wallets| ==> Mismatches(After(EMPTY, run), n) == []
  {
    Safety.ReachableIsSafe(run);
    var s := After(EMPTY, run);
    FoldIsJournal(s.batches, user, entries);
    assert WalletClosed(s.wallets[user], user, s.supports, s.withdrawals);
    Bookkeeping.GuardsHold(s);
    forall n | 0 <= n <= |s.wallets| ensures Mismatches(s, n) == [] {
      NothingToReport(s, n);
    }
  }
}
