/** Posting a movement together with the status change behind it keeps the money invariants. */
module Bookkeeping {
  import opened Tables
  import opened Sums
  import opened Postings
  import opened ClosedForms
  import opened Invariants

  ghost predicate SupportsKept(s: seq<Support>, s': seq<Support>) {
    |s| <= |s'| && forall i :: 0 <= i < |s| ==> SameOrder(s[i], s'[i])
  }

  ghost predicate WithdrawalsKept(w: seq<Withdrawal>, w': seq<Withdrawal>) {
    |w| <= |w'| && forall i :: 0 <= i < |w| ==> SameTerms(w[i], w'[i])
  }

  /** The status columns tell the same history. */
  ghost predicate SameHistory(s: seq<Support>, w: seq<Withdrawal>, s': seq<Support>, w': seq<Withdrawal>) {
    SupportsKept(s, s') && WithdrawalsKept(w, w') &&
    forall m: Move :: Happened(m, s, w) <==> Happened(m, s', w')
  }

  /** The money part of the invariant. */
  ghost predicate MoneyInv(s: State) {
    Closed(s.wallets, s.supports, s.withdrawals) && BooksMirror(s.batches, s.ledger, s.supports, s.withdrawals) &&
    BooksAgree(s.wallets, s.batches, s.ledger) &&
    ControlsAgree(s.batches, s.supports, s.withdrawals)
  }

  lemma ContentsKept(batches: seq<Batch>, ledger: seq<LedgerRow>, s: seq<Support>, w: seq<Withdrawal>, s': seq<Support>, w': seq<Withdrawal>)
    requires BooksMirror(batches, ledger, s, w)
    requires SupportsKept(s, s') && WithdrawalsKept(w, w')
    ensures forall i :: 0 <= i < |batches| ==> BatchTrue(batches[i], s', w')
    ensures forall i :: 0 <= i < |ledger| ==> LedgerTrue(ledger[i], s', w')
  {
    forall i | 0 <= i < |batches| ensures BatchTrue(batches[i], s', w') {
      assert BatchTrue(batches[i], s, w);
    }
    forall i | 0 <= i < |ledger| ensures LedgerTrue(ledger[i], s', w') {
      assert LedgerTrue(ledger[i], s, w);
    }
  }

  /** Nothing happened to the books, and no new movement happened. */
  lemma MirrorsStay(batches: seq<Batch>, ledger: seq<LedgerRow>, s: seq<Support>, w: seq<Withdrawal>, s': seq<Support>, w': seq<Withdrawal>)
    requires BooksMirror(batches, ledger, s, w)
    requires SameHistory(s, w, s', w')
    ensures BooksMirror(batches, ledger, s', w')
  {
    ContentsKept(batches, ledger, s, w, s', w');
  }

  lemma MirrorsGrow(keys: seq<Move>, m: Move, s: seq<Support>, w: seq<Withdrawal>, s': seq<Support>, w': seq<Withdrawal>)
    requires Mirrors(keys, s, w) && Carries(m, s, w, s', w')
    ensures Mirrors(keys + [m], s', w')
  {
    assert !Happened(m, s, w) && Happened(m, s', w');
    forall k: Move | k != m ensures Happened(k, s, w) <==> Happened(k, s', w') {
    }
  }

  lemma CarriesKeeps(m: Move, s: seq<Support>, w: seq<Withdrawal>, s': seq<Support>, w': seq<Withdrawal>)
    requires Carries(m, s, w, s', w')
    ensures SupportsKept(s, s') && WithdrawalsKept(w, w')
    ensures Known(m, s', w')
  {
  }

  /** `t` is `s` with the status change of `m` made but not yet posted. */
  ghost predicate Poised(s: State, t: State, m: Move) {
    Carries(m, s.supports, s.withdrawals, t.supports, t.withdrawals) &&
    t.wallets == s.wallets && t.ledger == s.ledger && t.batches == s.batches &&
    Owner(m, t.supports, t.withdrawals) < |t.wallets|
  }

  lemma PostMirrors(s: State, t: State, m: Move)
    requires BooksMirror(s.batches, s.ledger, s.supports, s.withdrawals) && Poised(s, t, m)
    ensures var r := Post(t, m); BooksMirror(r.batches, r.ledger, r.supports, r.withdrawals)
  {
    var r := Post(t, m);
    CarriesKeeps(m, s.supports, s.withdrawals, t.supports, t.withdrawals);
    ContentsKept(s.batches, s.ledger, s.supports, s.withdrawals, t.supports, t.withdrawals);
    MirrorsGrow(BatchKeys(s.batches), m, s.supports, s.withdrawals, t.supports, t.withdrawals);
    assert BatchKeys(r.batches) == BatchKeys(s.batches) + [m];
    MirrorsGrow(LedgerKeys(s.ledger), m, s.supports, s.withdrawals, t.supports, t.withdrawals);
    assert LedgerKeys(r.ledger) == LedgerKeys(s.ledger) + [m];
  }

  lemma PostAgrees(t: State, m: Move)
    requires BooksAgree(t.wallets, t.batches, t.ledger)
    requires Known(m, t.supports, t.withdrawals) && Owner(m, t.supports, t.withdrawals) < |t.wallets|
    ensures var r := Post(t, m); BooksAgree(r.wallets, r.batches, r.ledger)
  {
    hide Sum, Journal, LastSnapshot, EntriesOf;
    var r := Post(t, m);
    var batch, row := r.batches[|t.batches|], r.ledger[|t.ledger|];
    forall u | 0 <= u < |r.wallets|
      ensures JournalBalance(r.batches, u) == r.wallets[u].balances == LastSnapshot(r.ledger, u)
    {
      var b := t.wallets[u].balances;
      JournalAppend(t.batches, batch, OfWallet(u, CreatorAvailable));
      JournalAppend(t.batches, batch, OfWallet(u, CreatorPending));
      JournalAppend(t.batches, batch, OfWallet(u, CreatorLocked));
      EntriesMatchMove(m, t.supports, t.withdrawals, u, CreatorAvailable, b);
      EntriesMatchMove(m, t.supports, t.withdrawals, u, CreatorPending, b);
      EntriesMatchMove(m, t.supports, t.withdrawals, u, CreatorLocked, b);
      LastSnapshotAppend(t.ledger, row, u);
    }
  }

  lemma PostControls(s: State, t: State, m: Move)
    requires ControlsAgree(s.batches, s.supports, s.withdrawals) && Poised(s, t, m)
    ensures var r := Post(t, m); ControlsAgree(r.batches, r.supports, r.withdrawals)
  {
    var batch := Batch(m, EntriesOf(m, t.supports, t.withdrawals));
    ControlsFollow(m, s.supports, s.withdrawals, t.supports, t.withdrawals);
    JournalAppend(t.batches, batch, OfAccount(ProcessorClearing));
    JournalAppend(t.batches, batch, OfAccount(PlatformRevenue));
    JournalAppend(t.batches, batch, OfAccount(WithdrawalClearing));
  }

  /** Only a reservation can make the available balance smaller. */
  lemma PostCloses(s: State, t: State, m: Move)
    requires Closed(s.wallets, s.supports, s.withdrawals) && Poised(s, t, m)
    requires Amount(m, t.supports, t.withdrawals) >= 0
    requires m.Reserve? ==>
               s.wallets[Owner(m, t.supports, t.withdrawals)].balances.available >= Amount(m, t.supports, t.withdrawals)
    ensures var r := Post(t, m); Closed(r.wallets, r.supports, r.withdrawals)
  {
    var r := Post(t, m);
    forall u | 0 <= u < |r.wallets| ensures WalletClosed(r.wallets[u], u, r.supports, r.withdrawals) {
      assert WalletClosed(s.wallets[u], u, s.supports, s.withdrawals);
      ExpectedFollows(m, s.supports, s.withdrawals, t.supports, t.withdrawals, u);
    }
  }

  lemma PostKeepsMoney(s: State, t: State, m: Move)
    requires MoneyInv(s) && Poised(s, t, m)
    requires Amount(m, t.supports, t.withdrawals) >= 0
    requires m.Reserve? ==>
               s.wallets[Owner(m, t.supports, t.withdrawals)].balances.available >= Amount(m, t.supports, t.withdrawals)
    ensures MoneyInv(Post(t, m))
  {
    PostMirrors(s, t, m);
    PostAgrees(t, m);
    PostCloses(s, t, m);
    PostControls(s, t, m);
  }

  // --- the guards that can never fire --------------------------------------------------------

  predicate IsOpen(w: Withdrawal) { w.status == WithdrawalStatus.Pending || w.status == Processing }
  predicate Unsettled(p: Support) { p.Applied() && p.settlement == Held }

  /** In a reachable state the locked balance covers every open withdrawal and the pending balance
      covers every unsettled support, and no balance is negative. */
  lemma GuardsHold(s: State)
    requires RowsOk(SizesOf(s), s.supports, s.withdrawals) && Closed(s.wallets, s.supports, s.withdrawals)
    ensures forall u :: 0 <= u < |s.wallets| ==>
              s.wallets[u].balances.available >= 0 && s.wallets[u].balances.pending >= 0 && s.wallets[u].balances.locked >= 0
    ensures forall i | 0 <= i < |s.withdrawals| && IsOpen(s.withdrawals[i]) ::
              s.wallets[s.withdrawals[i].user].balances.locked >= s.withdrawals[i].amount
    ensures forall i | 0 <= i < |s.supports| && Unsettled(s.supports[i]) ::
              s.wallets[s.supports[i].creator].balances.pending >= s.supports[i].net
  {
    forall u | 0 <= u < |s.wallets|
      ensures s.wallets[u].balances.available >= 0 && s.wallets[u].balances.pending >= 0 && s.wallets[u].balances.locked >= 0
      ensures forall i :: 0 <= i < |s.withdrawals| ==> s.wallets[u].balances.locked >= LockedOf(u)(s.withdrawals[i])
      ensures forall i :: 0 <= i < |s.supports| ==> s.wallets[u].balances.pending >= PendingOf(u)(s.supports[i])
    {
      assert WalletClosed(s.wallets[u], u, s.supports, s.withdrawals);
      forall i | 0 <= i < |s.supports| ensures PendingOf(u)(s.supports[i]) >= 0 {
        assert SupportOk(s.supports[i], SizesOf(s));
      }
      forall i | 0 <= i < |s.withdrawals| ensures LockedOf(u)(s.withdrawals[i]) >= 0 {
        assert WithdrawalOk(s.withdrawals[i], |s.wallets|);
      }
      SumAtLeast(s.supports, PendingOf(u));
      SumAtLeast(s.withdrawals, LockedOf(u));
    }
    forall i | 0 <= i < |s.withdrawals| && IsOpen(s.withdrawals[i])
      ensures s.wallets[s.withdrawals[i].user].balances.locked >= s.withdrawals[i].amount
    {
      var w := s.withdrawals[i];
      assert WithdrawalOk(w, |s.wallets|);
      assert LockedOf(w.user)(w) == w.amount;
    }
    forall i | 0 <= i < |s.supports| && Unsettled(s.supports[i])
      ensures s.wallets[s.supports[i].creator].balances.pending >= s.supports[i].net
    {
      var p := s.supports[i];
      assert SupportOk(p, SizesOf(s));
      assert PendingOf(p.creator)(p) == p.net;
    }
  }
}
