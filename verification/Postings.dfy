/** The double-entry books: the entries of each movement, and posting a movement. */
module Postings {
  import opened Tables
  import opened Sums

  // --- which movement belongs to which row ---------------------------------------------------

  predicate Known(m: Move, supports: seq<Support>, withdrawals: seq<Withdrawal>) {
    match m
    case Capture(sid) => sid < |supports|
    case Settlement(sid) => sid < |supports|
    case Reserve(wid) => wid < |withdrawals|
    case Payout(wid) => wid < |withdrawals|
    case Release(wid) => wid < |withdrawals|
  }

  /** The status of the row says that the movement took place. */
  predicate Happened(m: Move, supports: seq<Support>, withdrawals: seq<Withdrawal>) {
    Known(m, supports, withdrawals) &&
    match m
    case Capture(sid) => supports[sid].Applied()
    case Settlement(sid) => supports[sid].settlement == Available
    case Reserve(_) => true
    case Payout(wid) => withdrawals[wid].status == WithdrawalStatus.Completed
    case Release(wid) => withdrawals[wid].status == WithdrawalStatus.Rejected
  }

  function Owner(m: Move, supports: seq<Support>, withdrawals: seq<Withdrawal>): nat
    requires Known(m, supports, withdrawals)
  {
    match m
    case Capture(sid) => supports[sid].creator
    case Settlement(sid) => supports[sid].creator
    case Reserve(wid) => withdrawals[wid].user
    case Payout(wid) => withdrawals[wid].user
    case Release(wid) => withdrawals[wid].user
  }

  function Amount(m: Move, supports: seq<Support>, withdrawals: seq<Withdrawal>): int
    requires Known(m, supports, withdrawals)
  {
    match m
    case Capture(sid) => supports[sid].net
    case Settlement(sid) => supports[sid].net
    case Reserve(wid) => withdrawals[wid].amount
    case Payout(wid) => withdrawals[wid].amount
    case Release(wid) => withdrawals[wid].amount
  }

  // --- entries -------------------------------------------------------------------------------

  function CaptureEntries(user: nat, gross: int, net: int, fee: int): seq<Entry> {
    [ Entry(None, ProcessorClearing, Debit, gross),
      Entry(Some(user), CreatorPending, Credit, net),
      Entry(None, PlatformRevenue, Credit, fee) ]
  }

  function TransferEntries(user: nat, from: Account, to: Account, toCreator: bool, amount: int): seq<Entry> {
    [ Entry(Some(user), from, Debit, amount),
      Entry(if toCreator then Some(user) else None, to, Credit, amount) ]
  }

  function EntriesOf(m: Move, supports: seq<Support>, withdrawals: seq<Withdrawal>): seq<Entry>
    requires Known(m, supports, withdrawals)
  {
    var user, amount := Owner(m, supports, withdrawals), Amount(m, supports, withdrawals);
    match m
    case Capture(sid) => CaptureEntries(user, supports[sid].gross, amount, supports[sid].fee)
    case Settlement(_) => TransferEntries(user, CreatorPending, CreatorAvailable, true, amount)
    case Reserve(_) => TransferEntries(user, CreatorAvailable, CreatorLocked, true, amount)
    case Payout(_) => TransferEntries(user, CreatorLocked, WithdrawalClearing, false, amount)
    case Release(_) => TransferEntries(user, CreatorLocked, CreatorAvailable, true, amount)
  }

  function Signed(e: Entry): int {
    if e.side == Credit then e.amount else -e.amount
  }

  /** Every entry, with its sign: the trial balance is the sum of this weight. */
  function AnyEntry(): Entry -> int { (e: Entry) => Signed(e) }

  function OfAccount(account: Account): Entry -> int {
    (e: Entry) => if e.account == account then Signed(e) else 0
  }

  function OfWallet(user: nat, account: Account): Entry -> int {
    (e: Entry) => if e.wallet == Some(user) && e.account == account then Signed(e) else 0
  }

  function Journal(batches: seq<Batch>): seq<Entry> {
    if |batches| == 0 then [] else Journal(batches[..|batches| - 1]) + batches[|batches| - 1].entries
  }

  lemma JournalAppend(batches: seq<Batch>, b: Batch, weight: Entry -> int)
    ensures Journal(batches + [b]) == Journal(batches) + b.entries
    ensures Sum(Journal(batches + [b]), weight) == Sum(Journal(batches), weight) + Sum(b.entries, weight)
  {
    assert (batches + [b])[..|batches|] == batches;
    SumConcat(Journal(batches), b.entries, weight);
  }

  lemma SumOfTwo<T>(a: T, b: T, weight: T -> int)
    ensures Sum([a, b], weight) == weight(a) + weight(b)
  {
    SumAppend([], a, weight);
    assert [] + [a] == [a];
    SumAppend([a], b, weight);
    assert [a] + [b] == [a, b];
  }

  lemma SumOfThree<T>(a: T, b: T, c: T, weight: T -> int)
    ensures Sum([a, b, c], weight) == weight(a) + weight(b) + weight(c)
  {
    SumOfTwo(a, b, weight);
    SumAppend([a, b], c, weight);
    assert [a, b] + [c] == [a, b, c];
  }

  // --- balances ------------------------------------------------------------------------------

  /** What a movement does to the balances of its owner. */
  function Moved(m: Move, b: Balances, amount: int): Balances {
    match m
    case Capture(_) => b.(pending := b.pending + amount)
    case Settlement(_) => b.(pending := b.pending - amount, available := b.available + amount)
    case Reserve(_) => b.(available := b.available - amount, locked := b.locked + amount)
    case Payout(_) => b.(locked := b.locked - amount)
    case Release(_) => b.(locked := b.locked - amount, available := b.available + amount)
  }

  function FieldOf(account: Account, b: Balances): int
    requires account.CreatorPending? || account.CreatorAvailable? || account.CreatorLocked?
  {
    if account == CreatorPending then b.pending else if account == CreatorAvailable then b.available else b.locked
  }

  /** The books and the balance columns agree on every movement: the entries of `m` add to the
      owner's account exactly what `Moved` adds to the owner's column, and nothing to anyone else. */
  lemma EntriesMatchMove(m: Move, supports: seq<Support>, withdrawals: seq<Withdrawal>, user: nat, account: Account, b: Balances)
    requires Known(m, supports, withdrawals)
    requires account.CreatorPending? || account.CreatorAvailable? || account.CreatorLocked?
    ensures Sum(EntriesOf(m, supports, withdrawals), OfWallet(user, account))
         == if user == Owner(m, supports, withdrawals)
            then FieldOf(account, Moved(m, b, Amount(m, supports, withdrawals))) - FieldOf(account, b) else 0
  {
    EntriesSum(m, supports, withdrawals, OfWallet(user, account));
  }

  lemma EntriesSum(m: Move, supports: seq<Support>, withdrawals: seq<Withdrawal>, weight: Entry -> int)
    requires Known(m, supports, withdrawals)
    ensures var es := EntriesOf(m, supports, withdrawals);
            (m.Capture? ==> |es| == 3 && Sum(es, weight) == weight(es[0]) + weight(es[1]) + weight(es[2])) &&
            (!m.Capture? ==> |es| == 2 && Sum(es, weight) == weight(es[0]) + weight(es[1]))
  {
    var es := EntriesOf(m, supports, withdrawals);
    if m.Capture? {
      SumOfThree(es[0], es[1], es[2], weight);
    } else {
      SumOfTwo(es[0], es[1], weight);
    }
  }

  /** Every movement posts debits equal to credits. */
  lemma EntriesBalance(m: Move, supports: seq<Support>, withdrawals: seq<Withdrawal>)
    requires Known(m, supports, withdrawals)
    requires m.Capture? ==> supports[m.sid].gross == supports[m.sid].fee + supports[m.sid].net
    ensures Sum(EntriesOf(m, supports, withdrawals), AnyEntry()) == 0
  {
    EntriesSum(m, supports, withdrawals, AnyEntry());
  }

  // --- posting -------------------------------------------------------------------------------

  /** The owner's balances move, the ledger records them, the books record the entries. */
  function Post(s: State, m: Move): State
    requires Known(m, s.supports, s.withdrawals)
    requires Owner(m, s.supports, s.withdrawals) < |s.wallets|
  {
    var user, amount := Owner(m, s.supports, s.withdrawals), Amount(m, s.supports, s.withdrawals);
    var wallet := s.wallets[user];
    var after := Moved(m, wallet.balances, amount);
    var earned := if m.Capture? then wallet.earned + amount else wallet.earned;
    s.(wallets := s.wallets[user := wallet.(balances := after, earned := earned)],
       ledger := s.ledger + [LedgerRow(m, user, amount, after)],
       batches := s.batches + [Batch(m, EntriesOf(m, s.supports, s.withdrawals))])
  }

  /** The balances recorded by the last ledger row of a user; zero if there is none. */
  function LastSnapshot(ledger: seq<LedgerRow>, user: nat): Balances {
    if |ledger| == 0 then ZERO
    else if ledger[|ledger| - 1].user == user then ledger[|ledger| - 1].after
    else LastSnapshot(ledger[..|ledger| - 1], user)
  }

  lemma LastSnapshotAppend(ledger: seq<LedgerRow>, row: LedgerRow, user: nat)
    ensures LastSnapshot(ledger + [row], user) == if row.user == user then row.after else LastSnapshot(ledger, user)
  {
    assert (ledger + [row])[..|ledger|] == ledger;
  }
}
