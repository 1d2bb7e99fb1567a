/** The steps of the environment, and new supports, keep the invariant. */
module EnvironmentProofs {
  import opened Tables
  import opened Sums
  import opened Postings
  import opened ClosedForms
  import opened Invariants
  import opened Bookkeeping
  import opened Surroundings
  import opened Engine
  import opened Steps
  import Fees

  // --- a new user ----------------------------------------------------------------------------

  lemma {:induction false} NothingPosted(batches: seq<Batch>, user: nat, account: Account)
    requires forall i, k :: 0 <= i < |batches| && 0 <= k < |batches[i].entries| ==> batches[i].entries[k].wallet != Some(user)
    ensures Sum(Journal(batches), OfWallet(user, account)) == 0
  {
    if |batches| > 0 {
      var n := |batches| - 1;
      assert batches == batches[..n] + [batches[n]];
      NothingPosted(batches[..n], user, account);
      JournalAppend(batches[..n], batches[n], OfWallet(user, account));
      SumOfZero(batches[n].entries, OfWallet(user, account));
    }
  }

  lemma {:induction false} NothingRecorded(ledger: seq<LedgerRow>, user: nat)
    requires forall i :: 0 <= i < |ledger| ==> ledger[i].user != user
    ensures LastSnapshot(ledger, user) == ZERO
  {
    if |ledger| > 0 { NothingRecorded(ledger[..|ledger| - 1], user); }
  }

  lemma NewUserExpectsNothing(s: State)
    requires RowsOk(SizesOf(s), s.supports, s.withdrawals)
    ensures Expected(|s.wallets|, s.supports, s.withdrawals) == ZERO
    ensures Sum(s.supports, EarnedOf(|s.wallets|)) == 0
    ensures forall m: Move :: Known(m, s.supports, s.withdrawals) ==> Owner(m, s.supports, s.withdrawals) < |s.wallets|
  {
    var n := |s.wallets|;
    forall i | 0 <= i < |s.supports| ensures s.supports[i].creator < n { assert SupportOk(s.supports[i], SizesOf(s)); }
    forall i | 0 <= i < |s.withdrawals| ensures s.withdrawals[i].user < n { assert WithdrawalOk(s.withdrawals[i], n); }
    NothingExpected(n, s.supports, s.withdrawals);
  }

  lemma NewUserHasNoEntries(batches: seq<Batch>, supports: seq<Support>, withdrawals: seq<Withdrawal>, n: nat)
    requires forall i :: 0 <= i < |batches| ==> BatchTrue(batches[i], supports, withdrawals)
    requires forall m: Move :: Known(m, supports, withdrawals) ==> Owner(m, supports, withdrawals) < n
    ensures JournalBalance(batches, n) == ZERO
  {
    forall i, k | 0 <= i < |batches| && 0 <= k < |batches[i].entries| ensures batches[i].entries[k].wallet != Some(n) {
      assert BatchTrue(batches[i], supports, withdrawals);
      assert Owner(batches[i].key, supports, withdrawals) < n;
    }
    NothingPosted(batches, n, CreatorAvailable);
    NothingPosted(batches, n, CreatorPending);
    NothingPosted(batches, n, CreatorLocked);
  }

  lemma NewUserHasNoSnapshot(ledger: seq<LedgerRow>, supports: seq<Support>, withdrawals: seq<Withdrawal>, n: nat)
    requires forall i :: 0 <= i < |ledger| ==> LedgerTrue(ledger[i], supports, withdrawals)
    requires forall m: Move :: Known(m, supports, withdrawals) ==> Owner(m, supports, withdrawals) < n
    ensures LastSnapshot(ledger, n) == ZERO
  {
    forall i | 0 <= i < |ledger| ensures ledger[i].user != n {
      assert LedgerTrue(ledger[i], supports, withdrawals);
    }
    NothingRecorded(ledger, n);
  }

  lemma NewWalletAgrees(wallets: seq<Wallet>, batches: seq<Batch>, ledger: seq<LedgerRow>)
    requires BooksAgree(wallets, batches, ledger)
    requires JournalBalance(batches, |wallets|) == ZERO == LastSnapshot(ledger, |wallets|)
    ensures BooksAgree(wallets + [NEW_WALLET], batches, ledger)
  {
  }

  lemma NewWalletCloses(wallets: seq<Wallet>, supports: seq<Support>, withdrawals: seq<Withdrawal>)
    requires Closed(wallets, supports, withdrawals)
    requires Expected(|wallets|, supports, withdrawals) == ZERO && Sum(supports, EarnedOf(|wallets|)) == 0
    ensures Closed(wallets + [NEW_WALLET], supports, withdrawals)
  {
    var wallets' := wallets + [NEW_WALLET];
    forall u | 0 <= u < |wallets'| ensures WalletClosed(wallets'[u], u, supports, withdrawals) {
      if u < |wallets| { assert WalletClosed(wallets[u], u, supports, withdrawals); }
    }
  }

  /** Catalogues only grow, so what supports and withdrawals refer to stays valid. */
  lemma CataloguesGrow(n: Sizes, m: Sizes, supports: seq<Support>, withdrawals: seq<Withdrawal>)
    requires RowsOk(n, supports, withdrawals)
    requires n.users <= m.users && n.rewards <= m.rewards && n.options <= m.options && n.campaigns <= m.campaigns && n.links <= m.links
    ensures RowsOk(m, supports, withdrawals)
  {
    forall i | 0 <= i < |supports| ensures SupportOk(supports[i], m) { assert SupportOk(supports[i], n); }
    forall i | 0 <= i < |withdrawals| ensures WithdrawalOk(withdrawals[i], m.users) { assert WithdrawalOk(withdrawals[i], n.users); }
  }

  lemma RegisterKeeps(s: State)
    requires Inv(s)
    ensures Inv(Next(s, Register))
  {
    hide RowsOk, KeysBoundOnce, Closed, BooksAgree, ControlsAgree, EarningsMirror, Audited, RewardsCounted,
         VotesCounted, EventsMirror, TalliesExact, CallsOk;
    var t := Next(s, Register);
    CataloguesGrow(SizesOf(s), SizesOf(t), s.supports, s.withdrawals);
    NewUserExpectsNothing(s);
    NewUserHasNoEntries(s.batches, s.supports, s.withdrawals, |s.wallets|);
    NewUserHasNoSnapshot(s.ledger, s.supports, s.withdrawals, |s.wallets|);
    NewWalletCloses(s.wallets, s.supports, s.withdrawals);
    NewWalletAgrees(s.wallets, s.batches, s.ledger);
  }

  // --- switches and new catalogue rows ---------------------------------------------------------

  lemma ToggleWalletKeeps(s: State, user: nat, active: bool)
    requires Inv(s) && user < |s.wallets|
    ensures Inv(Next(s, ToggleWallet(user, active)))
  {
    hide RowsOk, KeysBoundOnce, BooksMirror, ControlsAgree, EarningsMirror, Audited, RewardsCounted, VotesCounted,
         EventsMirror, TalliesExact, CallsOk;
    var t := Next(s, ToggleWallet(user, active));
    assert Closed(t.wallets, t.supports, t.withdrawals) by {
      forall u | 0 <= u < |t.wallets| ensures WalletClosed(t.wallets[u], u, t.supports, t.withdrawals) {
        assert WalletClosed(s.wallets[u], u, s.supports, s.withdrawals);
      }
    }
    assert BooksAgree(t.wallets, t.batches, t.ledger);
  }

  lemma NoUnlocksYet(s: State)
    requires RowsOk(SizesOf(s), s.supports, s.withdrawals) && RewardsCounted(s.rewards, s.unlocks, s.supports)
    ensures Sum(s.unlocks, ForReward(|s.rewards|)) == 0
  {
    var n := |s.rewards|;
    forall i | 0 <= i < |s.unlocks| ensures ForReward(n)(s.unlocks[i]) == 0 {
      assert SupportOk(s.supports[s.unlocks[i].sid], SizesOf(s));
    }
    SumOfZero(s.unlocks, ForReward(n));
  }

  lemma AddRewardKeeps(s: State, limit: Option<nat>)
    requires Inv(s)
    ensures Inv(Next(s, AddReward(limit)))
  {
    hide RowsOk, KeysBoundOnce, Closed, BooksMirror, BooksAgree, ControlsAgree, EarningsMirror, Audited,
         VotesCounted, EventsMirror, TalliesExact, CallsOk;
    var t := Next(s, AddReward(limit));
    CataloguesGrow(SizesOf(s), SizesOf(t), s.supports, s.withdrawals);
    NoUnlocksYet(s);
    assert RewardsCounted(t.rewards, t.unlocks, t.supports);
  }

  lemma ToggleRewardKeeps(s: State, reward: nat, active: bool)
    requires Inv(s) && reward < |s.rewards|
    ensures Inv(Next(s, ToggleReward(reward, active)))
  {
    hide RowsOk, KeysBoundOnce, Closed, BooksMirror, BooksAgree, ControlsAgree, EarningsMirror, Audited,
         VotesCounted, EventsMirror, TalliesExact, CallsOk;
    var t := Next(s, ToggleReward(reward, active));
    assert RewardsCounted(t.rewards, t.unlocks, t.supports);
  }

  lemma AddOptionKeeps(s: State)
    requires Inv(s)
    ensures Inv(Next(s, AddOption))
  {
    hide RowsOk, KeysBoundOnce, Closed, BooksMirror, BooksAgree, ControlsAgree, EarningsMirror, Audited,
         RewardsCounted, EventsMirror, TalliesExact, CallsOk;
    var t := Next(s, AddOption);
    CataloguesGrow(SizesOf(s), SizesOf(t), s.supports, s.withdrawals);
    assert VotesCounted(t.options, t.votes, t.supports) by {
      SumOfZero(s.votes, ForOption(|s.options|));
    }
  }

  lemma NoRevenueYet(s: State)
    requires RowsOk(SizesOf(s), s.supports, s.withdrawals) && EventsMirror(s.outbox.events, s.supports)
    ensures var c := |s.campaigns|;
            Sum(s.outbox.events, CampaignRevenue(c, s.supports)) == Sum(s.outbox.events, CampaignCount(c, s.supports)) == 0
    ensures var k := |s.links|;
            Sum(s.outbox.events, LinkRevenue(k, s.supports)) == Sum(s.outbox.events, LinkCount(k, s.supports)) == 0
  {
    var es, c, k := s.outbox.events, |s.campaigns|, |s.links|;
    forall i | 0 <= i < |es|
      ensures s.supports[es[i].sid].campaign != Some(c) && s.supports[es[i].sid].link != Some(k)
    {
      assert SupportOk(s.supports[es[i].sid], SizesOf(s));
    }
    SumOfZero(es, CampaignRevenue(c, s.supports));
    SumOfZero(es, CampaignCount(c, s.supports));
    SumOfZero(es, LinkRevenue(k, s.supports));
    SumOfZero(es, LinkCount(k, s.supports));
  }

  lemma AddCampaignKeeps(s: State)
    requires Inv(s)
    ensures Inv(Next(s, AddCampaign))
  {
    hide RowsOk, KeysBoundOnce, Closed, BooksMirror, BooksAgree, ControlsAgree, EarningsMirror, Audited,
         RewardsCounted, VotesCounted, EventsMirror, CallsOk;
    var t := Next(s, AddCampaign);
    CataloguesGrow(SizesOf(s), SizesOf(t), s.supports, s.withdrawals);
    NoRevenueYet(s);
    assert TalliesExact(t.campaigns, t.links, t.outbox.events, t.supports);
  }

  lemma AddLinkKeeps(s: State)
    requires Inv(s)
    ensures Inv(Next(s, AddLink))
  {
    hide RowsOk, KeysBoundOnce, Closed, BooksMirror, BooksAgree, ControlsAgree, EarningsMirror, Audited,
         RewardsCounted, VotesCounted, EventsMirror, CallsOk;
    var t := Next(s, AddLink);
    CataloguesGrow(SizesOf(s), SizesOf(t), s.supports, s.withdrawals);
    NoRevenueYet(s);
    assert TalliesExact(t.campaigns, t.links, t.outbox.events, t.supports);
  }

  // --- a new support -------------------------------------------------------------------------

  lemma StartSupportKeeps(s: State, draft: Draft)
    requires Inv(s) && Placeable(s, draft)
    ensures Inv(Next(s, StartSupport(draft)))
  {
    hide RowsOk, KeysBoundOnce, Closed, BooksMirror, BooksAgree, EarningsMirror, Audited, RewardsCounted,
         VotesCounted, EventsMirror, TalliesExact, CallsOk, NewSupport, SameHistory, SameMarks, Sum;
    var t := Next(s, StartSupport(draft));
    var p := NewSupport(draft);
    NewSupportIsNew(draft);
    NewSupportIsOk(s, draft);
    NoNewHistory(s.supports, s.withdrawals, p);
    MirrorsStay(s.batches, s.ledger, s.supports, s.withdrawals, t.supports, t.withdrawals);
    NewSupportCloses(s, p);
    SumAppend(s.supports, p, GrossCaptured());
    SumAppend(s.supports, p, FeesCharged());
    assert ControlsAgree(t.batches, t.supports, t.withdrawals);
    SurroundingsStay(s, t.supports);
    CallsStay(s.calls, s.webhooks, s.supports, t.supports);
  }

  lemma NewSupportIsNew(draft: Draft)
    ensures !NewSupport(draft).Applied() && NewSupport(draft).settlement == Held
  {
  }

  lemma NoNewHistory(supports: seq<Support>, withdrawals: seq<Withdrawal>, p: Support)
    requires !p.Applied() && p.settlement == Held
    ensures SameHistory(supports, withdrawals, supports + [p], withdrawals) && SameMarks(supports, supports + [p])
  {
  }

  lemma NewSupportCloses(s: State, p: Support)
    requires Closed(s.wallets, s.supports, s.withdrawals) && !p.Applied() && p.settlement == Held
    ensures Closed(s.wallets, s.supports + [p], s.withdrawals)
  {
    forall u | 0 <= u < |s.wallets| ensures WalletClosed(s.wallets[u], u, s.supports + [p], s.withdrawals) {
      assert WalletClosed(s.wallets[u], u, s.supports, s.withdrawals);
      SupportAdded(u, s.supports, s.withdrawals, p);
    }
  }

  lemma NewSupportIsOk(s: State, draft: Draft)
    requires RowsOk(SizesOf(s), s.supports, s.withdrawals) && Placeable(s, draft)
    ensures var t := Initiate(s, draft); RowsOk(SizesOf(t), t.supports, t.withdrawals)
  {
    var t := Initiate(s, draft);
    Fees.FeeIsNearest(draft.gross, draft.tieUp, 0);
    forall i | 0 <= i < |t.supports| ensures SupportOk(t.supports[i], SizesOf(t)) {
      if i < |s.supports| { assert SupportOk(s.supports[i], SizesOf(s)); }
    }
  }
}
