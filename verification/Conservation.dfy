/** Where every cent is, in every reachable state. */
module Conservation {
  import opened Tables
  import opened Sums
  import opened Postings
  import opened ClosedForms
  import opened Invariants
  import opened Steps
  import Safety

  // --- totals --------------------------------------------------------------------------------

  function Holdings(): Wallet -> int { (w: Wallet) => w.balances.available + w.balances.pending + w.balances.locked }
  function NetEarned(): Support -> int { (p: Support) => if p.Applied() then p.net else 0 }

  /** The sum over users of a per-user amount. */
  function OverUsers(n: nat, amount: nat -> int): int {
    if n == 0 then 0 else OverUsers(n - 1, amount) + amount(n - 1)
  }

  function EarnedBy(supports: seq<Support>): nat -> int { (u: nat) => Sum(supports, EarnedOf(u)) }
  function PaidOutBy(withdrawals: seq<Withdrawal>): nat -> int { (u: nat) => Sum(withdrawals, PaidOutOf(u)) }

  lemma {:induction false} OverUsersPointwise(n: nat, f: nat -> int, g: nat -> int, h: nat -> int)
    requires forall u: nat :: u < n ==> h(u) == f(u) + g(u)
    ensures OverUsers(n, h) == OverUsers(n, f) + OverUsers(n, g)
  {
    if n > 0 { OverUsersPointwise(n - 1, f, g, h); }
  }

  lemma {:induction false} OverUsersPoint(n: nat, owner: nat, amount: int, f: nat -> int)
    requires forall u: nat :: f(u) == if u == owner then amount else 0
    ensures OverUsers(n, f) == if owner < n then amount else 0
  {
    if n > 0 { OverUsersPoint(n - 1, owner, amount, f); }
  }

  /** Summing per user and then over users is summing over all rows, because every row has one owner. */
  lemma {:induction false} EarnedOverUsers(n: nat, supports: seq<Support>)
    requires forall i :: 0 <= i < |supports| ==> supports[i].creator < n
    ensures OverUsers(n, EarnedBy(supports)) == Sum(supports, NetEarned())
  {
    if |supports| == 0 {
      OverUsersPoint(n, n, 0, EarnedBy(supports));
    } else {
      var init, p := supports[..|supports| - 1], supports[|supports| - 1];
      EarnedOverUsers(n, init);
      var share := (u: nat) => EarnedOf(u)(p);
      OverUsersPoint(n, p.creator, NetEarned()(p), share);
      OverUsersPointwise(n, EarnedBy(init), share, EarnedBy(supports));
    }
  }

  lemma {:induction false} PaidOutOverUsers(n: nat, withdrawals: seq<Withdrawal>)
    requires forall i :: 0 <= i < |withdrawals| ==> withdrawals[i].user < n
    ensures OverUsers(n, PaidOutBy(withdrawals)) == Sum(withdrawals, PaidOutTotal())
  {
    if |withdrawals| == 0 {
      OverUsersPoint(n, n, 0, PaidOutBy(withdrawals));
    } else {
      var init, w := withdrawals[..|withdrawals| - 1], withdrawals[|withdrawals| - 1];
      PaidOutOverUsers(n, init);
      var share := (u: nat) => PaidOutOf(u)(w);
      OverUsersPoint(n, w.user, PaidOutTotal()(w), share);
      OverUsersPointwise(n, PaidOutBy(init), share, PaidOutBy(withdrawals));
    }
  }

  // --- one wallet ----------------------------------------------------------------------------

  /** What a creator has earned is still in the wallet or has been paid out. */
  lemma WalletConserves(s: State, user: nat)
    requires Inv(s) && user < |s.wallets|
    ensures var b := s.wallets[user].balances;
            s.wallets[user].earned == b.available + b.pending + b.locked + Sum(s.withdrawals, PaidOutOf(user))
  {
    hide KeysBoundOnce, BooksMirror, BooksAgree, ControlsAgree, EarningsMirror, Audited, RewardsCounted, VotesCounted,
         EventsMirror, TalliesExact, CallsOk;
    assert WalletClosed(s.wallets[user], user, s.supports, s.withdrawals);
    forall i | 0 <= i < |s.supports|
      ensures EarnedOf(user)(s.supports[i]) == PendingOf(user)(s.supports[i]) + SettledOf(user)(s.supports[i])
    {
      assert SupportOk(s.supports[i], SizesOf(s));
    }
    SumAdd(s.supports, PendingOf(user), SettledOf(user), EarnedOf(user));
    SumAdd(s.withdrawals, LockedOf(user), PaidOutOf(user), DrawnOf(user));
  }

  // --- all wallets ---------------------------------------------------------------------------

  lemma {:induction false} HoldingsOverUsers(wallets: seq<Wallet>, n: nat, earned: nat -> int, paid: nat -> int)
    requires n <= |wallets|
    requires forall u: nat :: u < n ==> Holdings()(wallets[u]) + paid(u) == earned(u)
    ensures Sum(wallets[..n], Holdings()) + OverUsers(n, paid) == OverUsers(n, earned)
  {
    if n > 0 {
      assert wallets[..n][..n - 1] == wallets[..n - 1];
      HoldingsOverUsers(wallets, n - 1, earned, paid);
    }
  }

  ghost predicate Conserved(s: State) {
    Sum(s.supports, GrossCaptured())
    == Sum(s.supports, FeesCharged()) + Sum(s.wallets, Holdings()) + Sum(s.withdrawals, PaidOutTotal())
  }

  /** Conservation: what supporters paid is the platform's fees, the wallets and the payouts. */
  lemma MoneyIsConserved(run: seq<Step>)
    ensures Conserved(After(EMPTY, run))
  {
    hide KeysBoundOnce, BooksMirror, BooksAgree, ControlsAgree, EarningsMirror, Audited, RewardsCounted, VotesCounted,
         EventsMirror, TalliesExact, CallsOk;
    Safety.ReachableIsSafe(run);
    var s := After(EMPTY, run);
    var n := |s.wallets|;
    forall i | 0 <= i < |s.supports|
      ensures s.supports[i].creator < n
      ensures GrossCaptured()(s.supports[i]) == FeesCharged()(s.supports[i]) + NetEarned()(s.supports[i])
    {
      assert SupportOk(s.supports[i], SizesOf(s));
    }
    forall i | 0 <= i < |s.withdrawals| ensures s.withdrawals[i].user < n {
      assert WithdrawalOk(s.withdrawals[i], n);
    }
    SumAdd(s.supports, FeesCharged(), NetEarned(), GrossCaptured());
    EarnedOverUsers(n, s.supports);
    PaidOutOverUsers(n, s.withdrawals);
    forall u: nat | u < n ensures Holdings()(s.wallets[u]) + PaidOutBy(s.withdrawals)(u) == EarnedBy(s.supports)(u) {
      WalletConserves(s, u);
      assert WalletClosed(s.wallets[u], u, s.supports, s.withdrawals);
    }
    assert s.wallets[..n] == s.wallets;
    HoldingsOverUsers(s.wallets, n, EarnedBy(s.supports), PaidOutBy(s.withdrawals));
  }

  // --- the trial balance -----------------------------------------------------------------------

  lemma {:induction false} JournalBalances(batches: seq<Batch>)
    requires forall i :: 0 <= i < |batches| ==> Sum(batches[i].entries, AnyEntry()) == 0
    ensures Sum(Journal(batches), AnyEntry()) == 0
  {
    if |batches| > 0 {
      var n := |batches| - 1;
      assert batches == batches[..n] + [batches[n]];
      JournalBalances(batches[..n]);
      JournalAppend(batches[..n], batches[n], AnyEntry());
    }
  }

  function Total(s: State, account: Account): int { Sum(Journal(s.batches), OfAccount(account)) }

  ghost predicate TrialBalance(s: State) {
    Total(s, ProcessorClearing) + Total(s, CreatorPending) + Total(s, CreatorAvailable) +
    Total(s, CreatorLocked) + Total(s, PlatformRevenue) + Total(s, WithdrawalClearing) == 0
  }

  /** Every batch is balanced, the six accounts sum to zero, and the three control accounts hold what
      the statuses say: minus the captured amounts, the fees, the payouts. */
  lemma TrialBalanceIsZero(run: seq<Step>)
    ensures TrialBalance(After(EMPTY, run))
    ensures forall i :: 0 <= i < |After(EMPTY, run).batches| ==> Sum(After(EMPTY, run).batches[i].entries, AnyEntry()) == 0
    ensures var s := After(EMPTY, run);
      Total(s, ProcessorClearing) == -Sum(s.supports, GrossCaptured()) &&
      Total(s, PlatformRevenue) == Sum(s.supports, FeesCharged()) &&
      Total(s, WithdrawalClearing) == Sum(s.withdrawals, PaidOutTotal())
  {
    Safety.ReachableIsSafe(run);
    var s := After(EMPTY, run);
    forall i | 0 <= i < |s.batches| ensures Sum(s.batches[i].entries, AnyEntry()) == 0 {
      BatchIsBalanced(s, i);
    }
    JournalBalances(s.batches);
    SixAccounts(Journal(s.batches));
  }

  lemma BatchIsBalanced(s: State, i: nat)
    requires RowsOk(SizesOf(s), s.supports, s.withdrawals)
    requires i < |s.batches| && BatchTrue(s.batches[i], s.supports, s.withdrawals)
    ensures Sum(s.batches[i].entries, AnyEntry()) == 0
  {
    var m := s.batches[i].key;
    if m.Capture? { assert SupportOk(s.supports[m.sid], SizesOf(s)); }
    EntriesBalance(m, s.supports, s.withdrawals);
  }

  lemma {:induction false} SixAccounts(entries: seq<Entry>)
    ensures Sum(entries, AnyEntry())
         == Sum(entries, OfAccount(ProcessorClearing)) + Sum(entries, OfAccount(CreatorPending)) +
            Sum(entries, OfAccount(CreatorAvailable)) + Sum(entries, OfAccount(CreatorLocked)) +
            Sum(entries, OfAccount(PlatformRevenue)) + Sum(entries, OfAccount(WithdrawalClearing))
  {
    if |entries| > 0 {
      SixAccounts(entries[..|entries| - 1]);
    }
  }
}
