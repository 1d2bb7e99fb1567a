/** Withdrawal requests and status updates keep the invariant. */
module WithdrawalProofs {
  import opened Tables
  import opened Sums
  import opened Postings
  import opened ClosedForms
  import opened Invariants
  import opened Bookkeeping
  import opened Engine

  // --- amounts -------------------------------------------------------------------------------

  /** A finite amount is accepted with a number of cents iff it is positive and its product with a hundred
      is within a hundred-millionth of that number, as long as the machine's rounding of the product is
      off by less than half a cent. No other number of cents is as close. */
  lemma NormalizeIsExact(amount: Number, cents: int)
    requires amount.Finite? && -0.49 < amount.scaled - amount.value * 100.0 < 0.49
    ensures NormalizeAmount(amount) == Ok(cents) <==>
              amount.value > 0.0 && -0.00000001 <= amount.scaled - cents as real <= 0.00000001
  {
    NearestIsNear(amount.scaled, cents);
    NearestIsNear(amount.scaled, Nearest(amount.scaled));
    NearestIsNear(amount.value * 100.0, Nearest(amount.scaled));
  }

  /** A double-precision product is off by at most one part in 2^53, which is less than half a cent for
      amounts up to forty trillion. */
  lemma ProductIsClose(amount: Number)
    requires amount.Finite? && 0.0 <= amount.value <= 40000000000000.0
    requires var error := amount.value * 100.0 / 9007199254740992.0;
      -error <= amount.scaled - amount.value * 100.0 <= error
    ensures -0.49 < amount.scaled - amount.value * 100.0 < 0.49
  {
    assert amount.value * 100.0 <= 4000000000000000.0;
    assert amount.value * 100.0 / 9007199254740992.0 <= 4000000000000000.0 / 9007199254740992.0;
  }

  /** What passes the minimum is at least ten thousand cents, however the product was rounded; what is not
      finite never passes. */
  lemma AcceptedIsEnough(amount: Number)
    requires NormalizeAmount(amount).Ok?
    ensures amount.Finite? && amount.value > 0.0 && NormalizeAmount(amount).value >= 0
    ensures !Below(amount, MIN_WITHDRAWAL) ==> NormalizeAmount(amount).value >= 10000
  {
    NearestIsNear(amount.value * 100.0, NormalizeAmount(amount).value);
  }

  lemma NearestIsNear(x: real, n: int)
    ensures Nearest(x) as real <= x + 0.5 < Nearest(x) as real + 1.0
    ensures -0.5 < x - n as real < 0.5 ==> Nearest(x) == n
  {
    var m := Nearest(x);
    if -0.5 < x - n as real < 0.5 {
      assert (n - m) as real < 1.0;
      assert (m - n) as real < 1.0;
    }
  }

  // --- requests ------------------------------------------------------------------------------

  lemma NewRowOk(n: Sizes, supports: seq<Support>, withdrawals: seq<Withdrawal>, w: Withdrawal)
    requires RowsOk(n, supports, withdrawals) && WithdrawalOk(w, n.users)
    ensures RowsOk(n, supports, withdrawals + [w])
  {
    forall i | 0 <= i < |withdrawals + [w]| ensures WithdrawalOk((withdrawals + [w])[i], n.users) {
      if i < |withdrawals| { assert WithdrawalOk(withdrawals[i], n.users); }
    }
  }

  lemma NewKeyBoundOnce(withdrawals: seq<Withdrawal>, w: Withdrawal)
    requires KeysBoundOnce(withdrawals)
    requires w.key.Some? ==> FindByKey(withdrawals, w.user, w.key).None?
    ensures KeysBoundOnce(withdrawals + [w])
  {
  }

  lemma NewWithdrawalAudited(audits: seq<Audit>, withdrawals: seq<Withdrawal>, w: Withdrawal)
    requires Audited(audits, withdrawals) && w.status == WithdrawalStatus.Pending
    ensures Audited(audits, withdrawals + [w])
  {
  }

  lemma RequestKeeps(s: State, q: Request)
    requires Core(s)
    ensures var r := RequestWithdrawal(s, q);
            r.Ok? ==> Core(r.value.0) && r.value.0.supports == s.supports && r.value.0.calls == s.calls && r.value.0.webhooks == s.webhooks
  {
    hide KeysBoundOnce, Closed, BooksMirror, BooksAgree, ControlsAgree, EarningsMirror, Audited, RewardsCounted,
         VotesCounted, EventsMirror, TalliesExact, CallsOk;
    var r := RequestWithdrawal(s, q);
    if r.Ok? && r.value.1 == |s.withdrawals| {
      var cents := NormalizeAmount(q.amount).value;
      AcceptedIsEnough(q.amount);
      var w := NewWithdrawal(q, cents);
      var t := s.(withdrawals := s.withdrawals + [w]);
      NewRowOk(SizesOf(s), s.supports, s.withdrawals, w);
      NewKeyBoundOnce(s.withdrawals, w);
      NewWithdrawalAudited(s.audits, s.withdrawals, w);
      PostKeepsMoney(s, t, Reserve(|s.withdrawals|));
    }
  }

  // --- status updates ------------------------------------------------------------------------

  lemma AuditAppend(audits: seq<Audit>, a: Audit, wid: nat)
    ensures AuditsOf(audits + [a], wid) == AuditsOf(audits, wid) + if a.wid == wid then [a] else []
  {
    assert (audits + [a])[..|audits|] == audits;
  }

  /** With at most one audit on record, whatever order the timestamps have, it is the latest. */
  lemma {:induction false} LatestIsOnly(audits: seq<Audit>, wid: nat)
    ensures AuditsOf(audits, wid) == [] ==> LatestAudit(audits, wid) == None
    ensures |AuditsOf(audits, wid)| == 1 ==> LatestAudit(audits, wid) == Some(AuditsOf(audits, wid)[0])
  {
    if |audits| > 0 {
      LatestIsOnly(audits[..|audits| - 1], wid);
    }
  }

  lemma AdvancedIsOk(w: Withdrawal, target: WithdrawalStatus, at: int, users: nat)
    requires WithdrawalOk(w, users) && WithdrawalAllowed(w.status, target)
    ensures WithdrawalOk(Advanced(w, target, at), users) && SameTerms(w, Advanced(w, target, at))
  {
  }

  lemma WithdrawalRowChanged(n: Sizes, supports: seq<Support>, withdrawals: seq<Withdrawal>, wid: nat, w: Withdrawal)
    requires RowsOk(n, supports, withdrawals) && KeysBoundOnce(withdrawals)
    requires wid < |withdrawals| && WithdrawalOk(w, n.users) && SameTerms(withdrawals[wid], w)
    ensures RowsOk(n, supports, withdrawals[wid := w]) && KeysBoundOnce(withdrawals[wid := w])
  {
    var withdrawals' := withdrawals[wid := w];
    forall i | 0 <= i < |withdrawals'| ensures WithdrawalOk(withdrawals'[i], n.users) {
      if i != wid { assert WithdrawalOk(withdrawals[i], n.users); }
    }
  }

  lemma TrailGrows(audits: seq<Audit>, withdrawals: seq<Withdrawal>, wid: nat, actor: nat, target: WithdrawalStatus, at: int)
    requires Audited(audits, withdrawals) && wid < |withdrawals|
    requires WithdrawalAllowed(withdrawals[wid].status, target)
    requires target != Processing ==> LatestAudit(audits, wid).Some? && LatestAudit(audits, wid).value.actor != actor
    ensures Audited(audits + [Audit(wid, actor, withdrawals[wid].status, target, at)],
                    withdrawals[wid := Advanced(withdrawals[wid], target, at)])
  {
    var a := Audit(wid, actor, withdrawals[wid].status, target, at);
    LatestIsOnly(audits, wid);
    forall x: nat ensures AuditsOf(audits + [a], x) == AuditsOf(audits, x) + if a.wid == x then [a] else [] {
      AuditAppend(audits, a, x);
    }
    assert Trail(AuditsOf(audits, wid), withdrawals[wid].status);
  }

  /** Moving to processing is not a movement: the withdrawal stays locked. */
  lemma ProcessingKeepsHistory(s: seq<Support>, withdrawals: seq<Withdrawal>, wid: nat, w: Withdrawal)
    requires wid < |withdrawals| && SameTerms(withdrawals[wid], w)
    requires withdrawals[wid].status == WithdrawalStatus.Pending && w.status == Processing
    ensures SameHistory(s, withdrawals, s, withdrawals[wid := w])
  {
  }

  lemma ProcessingKeepsClosed(s: State, wid: nat, w: Withdrawal)
    requires wid < |s.withdrawals| && SameTerms(s.withdrawals[wid], w)
    requires s.withdrawals[wid].status == WithdrawalStatus.Pending && w.status == Processing
    requires Closed(s.wallets, s.supports, s.withdrawals) && ControlsAgree(s.batches, s.supports, s.withdrawals)
    ensures Closed(s.wallets, s.supports, s.withdrawals[wid := w])
    ensures ControlsAgree(s.batches, s.supports, s.withdrawals[wid := w])
  {
    SumUpdate(s.withdrawals, wid, w, PaidOutTotal());
    forall u | 0 <= u < |s.wallets| ensures WalletClosed(s.wallets[u], u, s.supports, s.withdrawals[wid := w]) {
      assert WalletClosed(s.wallets[u], u, s.supports, s.withdrawals);
      WithdrawalChanges(u, s.withdrawals, wid, w);
    }
  }

  lemma ProcessingKeepsMoney(s: State, wid: nat, at: int)
    requires MoneyInv(s) && wid < |s.withdrawals| && s.withdrawals[wid].status == WithdrawalStatus.Pending
    ensures MoneyInv(s.(withdrawals := s.withdrawals[wid := Advanced(s.withdrawals[wid], Processing, at)]))
  {
    hide Closed, BooksMirror, BooksAgree, ControlsAgree, SameHistory;
    var w := Advanced(s.withdrawals[wid], Processing, at);
    ProcessingKeepsHistory(s.supports, s.withdrawals, wid, w);
    MirrorsStay(s.batches, s.ledger, s.supports, s.withdrawals, s.supports, s.withdrawals[wid := w]);
    ProcessingKeepsClosed(s, wid, w);
  }

  lemma FinalKeepsMoney(s: State, t: State, wid: nat, target: WithdrawalStatus, at: int)
    requires MoneyInv(s) && wid < |s.withdrawals| && WithdrawalOk(s.withdrawals[wid], |s.wallets|)
    requires s.withdrawals[wid].status == Processing && (target == WithdrawalStatus.Completed || target == Rejected)
    requires t == s.(withdrawals := s.withdrawals[wid := Advanced(s.withdrawals[wid], target, at)], audits := t.audits)
    ensures MoneyInv(Post(t, if target == Rejected then Release(wid) else Payout(wid)))
  {
    PostKeepsMoney(s, t, if target == Rejected then Release(wid) else Payout(wid));
  }

  lemma UpdateKeeps(s: State, actor: nat, wid: nat, target: WithdrawalStatus, at: int)
    requires Core(s) && UpdateStatus.requires(s, actor, wid, target, at)
    ensures var r := UpdateStatus(s, actor, wid, target, at);
            r.Ok? ==> Core(r.value) && r.value.supports == s.supports && r.value.calls == s.calls && r.value.webhooks == s.webhooks
  {
    hide KeysBoundOnce, Closed, BooksMirror, BooksAgree, ControlsAgree, EarningsMirror, Audited, RewardsCounted,
         VotesCounted, EventsMirror, TalliesExact, CallsOk;
    var r := UpdateStatus(s, actor, wid, target, at);
    if r.Ok? {
      var w := s.withdrawals[wid];
      var w' := Advanced(w, target, at);
      AdvancedIsOk(w, target, at, |s.wallets|);
      WithdrawalRowChanged(SizesOf(s), s.supports, s.withdrawals, wid, w');
      TrailGrows(s.audits, s.withdrawals, wid, actor, target, at);
      var t := s.(withdrawals := s.withdrawals[wid := w'], audits := s.audits + [Audit(wid, actor, w.status, target, at)]);
      if target == Processing {
        ProcessingKeepsMoney(s, wid, at);
      } else {
        FinalKeepsMoney(s, t, wid, target, at);
      }
    }
  }
}
