/** Status changes of withdrawals: exactly when one succeeds, why it fails, what it writes, and that every
    pending withdrawal can still be paid out or rejected by two people. */
module StatusChanges {
  import opened Tables
  import opened Postings
  import opened ClosedForms
  import opened Invariants
  import opened Engine
  import opened Steps
  import opened Withdrawals
  import Bulk
  import Safety

  /** The moves a withdrawal can make: pending to processing, and processing to either end. */
  predicate IsMove(before: WithdrawalStatus, after: WithdrawalStatus) {
    (before == WithdrawalStatus.Pending && after == Processing) || (before == Processing && Terminal(after))
  }

  predicate Exist(s: State, actor: nat, wid: nat) { actor < |s.wallets| && wid < |s.withdrawals| }

  /** The withdrawal is in processing, and `actor` is the one who put it there. */
  predicate IsMaker(s: State, actor: nat, wid: nat)
    requires wid < |s.withdrawals|
  {
    s.withdrawals[wid].status == Processing &&
    exists i :: 0 <= i < |s.audits| && s.audits[i].wid == wid && s.audits[i].actor == actor
  }

  lemma {:induction false} AuditListed(audits: seq<Audit>, wid: nat, a: Audit)
    ensures a in AuditsOf(audits, wid) <==> a.wid == wid && a in audits
  {
    if |audits| > 0 {
      AuditListed(audits[..|audits| - 1], wid, a);
      assert audits == audits[..|audits| - 1] + [audits[|audits| - 1]];
    }
  }

  /** A withdrawal in processing has one audit, and it is the latest one. */
  lemma MakerIsOnRecord(s: State, actor: nat, wid: nat)
    requires Inv(s) && wid < |s.withdrawals| && s.withdrawals[wid].status == Processing
    ensures LatestAudit(s.audits, wid).Some?
    ensures IsMaker(s, actor, wid) <==> LatestAudit(s.audits, wid).value.actor == actor
  {
    hide Inv, LatestAudit, AuditsOf;
    AuditsSoFar(s, wid);
    var only := LatestAudit(s.audits, wid).value;
    assert only in [only] && AuditsOf(s.audits, wid) == [only];
    AuditListed(s.audits, wid, only);
    if IsMaker(s, actor, wid) {
      var i :| 0 <= i < |s.audits| && s.audits[i].wid == wid && s.audits[i].actor == actor;
      AuditListed(s.audits, wid, s.audits[i]);
    }
  }

  /** A status change succeeds iff the actor and the withdrawal exist, the two statuses are a move, and the
      maker does not act as the checker; and each error has exactly its own cause. */
  lemma UpdateSucceedsIff(s: State, actor: nat, wid: nat, target: WithdrawalStatus, at: int)
    requires Inv(s) && target != WithdrawalStatus.Pending
    ensures Linked(s)
    ensures var r := UpdateStatus(s, actor, wid, target, at);
      (r.Ok? <==> Exist(s, actor, wid) && IsMove(s.withdrawals[wid].status, target) && !IsMaker(s, actor, wid)) &&
      (r == Err(ActorNotFound) <==> actor >= |s.wallets|) &&
      (r == Err(WithdrawalNotFound) <==> actor < |s.wallets| && wid >= |s.withdrawals|) &&
      (r == Err(AlreadyInState) <==> Exist(s, actor, wid) && s.withdrawals[wid].status == target) &&
      (r == Err(InvalidTransition) <==>
        Exist(s, actor, wid) && s.withdrawals[wid].status != target && !IsMove(s.withdrawals[wid].status, target)) &&
      (r == Err(SameActor) <==> Exist(s, actor, wid) && Terminal(target) && IsMaker(s, actor, wid))
  {
    hide Inv, Post, LatestAudit, Advanced, IsMaker;
    Bulk.UsersExist(s);
    if wid < |s.withdrawals| {
      if s.withdrawals[wid].status == Processing { MakerIsOnRecord(s, actor, wid); } else { NoMakerYet(s, actor, wid); }
    }
  }

  lemma NoMakerYet(s: State, actor: nat, wid: nat)
    requires wid < |s.withdrawals| && s.withdrawals[wid].status != Processing
    ensures !IsMaker(s, actor, wid)
  {
  }

  // --- what a change writes ------------------------------------------------------------------------

  /** The new row: the status, and the one or two timestamps that belong to it. */
  predicate Stamped(w: Withdrawal, v: Withdrawal, target: WithdrawalStatus, at: int) {
    v == w.(status := target, processingStartedAt := v.processingStartedAt, approvedAt := v.approvedAt,
            rejectedAt := v.rejectedAt, processedAt := v.processedAt) &&
    v.processingStartedAt == (if target == Processing then Some(at) else w.processingStartedAt) &&
    v.approvedAt == (if target == WithdrawalStatus.Completed then Some(at) else w.approvedAt) &&
    v.rejectedAt == (if target == Rejected then Some(at) else w.rejectedAt) &&
    v.processedAt == (if Terminal(target) then Some(at) else w.processedAt)
  }

  /** Taking the amount out of the locked balance: to the outside if paid out, back to the available balance
      if rejected. */
  predicate Unlocked(s: State, t: State, wid: nat, w: Withdrawal, paid: bool)
    requires w.user < |s.wallets|
  {
    var had := s.wallets[w.user];
    var b := Balances(if paid then had.balances.available else had.balances.available + w.amount,
                      had.balances.pending, had.balances.locked - w.amount);
    var m := if paid then Payout(wid) else Release(wid);
    t.wallets == s.wallets[w.user := Wallet(b, had.earned, had.active)] &&
    t.ledger == s.ledger + [LedgerRow(m, w.user, w.amount, b)] &&
    t.batches == s.batches + [Batch(m,
      [ Entry(Some(w.user), CreatorLocked, Debit, w.amount),
        if paid then Entry(None, WithdrawalClearing, Credit, w.amount)
        else Entry(Some(w.user), CreatorAvailable, Credit, w.amount) ])]
  }

  /** A successful change writes the row, one audit with its actor and both statuses, and moves the money if
      the status is final; an unsuccessful one writes nothing. */
  lemma UpdateWrites(s: State, actor: nat, wid: nat, target: WithdrawalStatus, at: int)
    requires Inv(s) && target != WithdrawalStatus.Pending
    ensures var t := Next(s, SetStatus(actor, wid, target, at));
      if Exist(s, actor, wid) && IsMove(s.withdrawals[wid].status, target) && !IsMaker(s, actor, wid) then
        var w := s.withdrawals[wid];
        |t.withdrawals| == |s.withdrawals| && t.withdrawals == s.withdrawals[wid := t.withdrawals[wid]] &&
        Stamped(w, t.withdrawals[wid], target, at) &&
        t.audits == s.audits + [Audit(wid, actor, w.status, target, at)] &&
        t == s.(withdrawals := t.withdrawals, audits := t.audits, wallets := t.wallets, ledger := t.ledger, batches := t.batches) &&
        w.user < |s.wallets| &&
        (if target == Processing then t.wallets == s.wallets && t.ledger == s.ledger && t.batches == s.batches
         else Unlocked(s, t, wid, w, target == WithdrawalStatus.Completed))
      else t == s
  {
    hide Inv, LatestAudit, IsMaker, Linked;
    UpdateSucceedsIff(s, actor, wid, target, at);
    UsersAreThere(s);
  }

  lemma UsersAreThere(s: State)
    requires Inv(s)
    ensures forall i :: 0 <= i < |s.withdrawals| ==> s.withdrawals[i].user < |s.wallets|
  {
    hide Inv;
    Bulk.UsersExist(s);
  }

  // --- every withdrawal can be finalized -------------------------------------------------------------

  /** One person starts it, another one ends it. */
  function TwoPeopleRun(maker: nat, checker: nat, wid: nat, target: WithdrawalStatus, started: int, ended: int): seq<Step> {
    [SetStatus(maker, wid, Processing, started), SetStatus(checker, wid, target, ended)]
  }

  /** In every safe state, any two different users can take any pending withdrawal to either end. */
  lemma CanBeFinalized(s: State, maker: nat, checker: nat, wid: nat, target: WithdrawalStatus, started: int, ended: int)
    requires Inv(s) && Exist(s, maker, wid) && checker < |s.wallets| && maker != checker && Terminal(target)
    requires s.withdrawals[wid].status == WithdrawalStatus.Pending
    ensures var t := After(s, TwoPeopleRun(maker, checker, wid, target, started, ended)); var w := s.withdrawals[wid];
      Inv(t) && w.user < |s.wallets| && |t.wallets| == |s.wallets| && |t.withdrawals| == |s.withdrawals| &&
      t.withdrawals[wid].status == target && t.withdrawals[wid].processedAt == Some(ended) &&
      t.supports == s.supports &&
      var before, now := s.wallets[w.user].balances, t.wallets[w.user].balances;
      now.locked == before.locked - w.amount && now.pending == before.pending &&
      now.available == before.available + if target == Rejected then w.amount else 0
  {
    hide Inv, Next, IsMaker;
    var run := TwoPeopleRun(maker, checker, wid, target, started, ended);
    AfterTakes(s, run, 1);
    AfterTakes(s, run, 2);
    assert run[..2] == run;
    NoMakerYet(s, maker, wid);
    UpdateWrites(s, maker, wid, Processing, started);
    var m := Next(s, run[0]);
    Safety.StepKeeps(s, run[0]);
    Safety.StepKeeps(m, run[1]);
    OneMaker(s, m, maker, checker, wid, started);
    UpdateWrites(m, checker, wid, target, ended);
  }

  lemma OneMaker(s: State, m: State, maker: nat, checker: nat, wid: nat, started: int)
    requires Inv(s) && wid < |s.withdrawals| && s.withdrawals[wid].status == WithdrawalStatus.Pending && maker != checker
    requires m.audits == s.audits + [Audit(wid, maker, WithdrawalStatus.Pending, Processing, started)] && wid < |m.withdrawals|
    ensures !IsMaker(m, checker, wid)
  {
    hide KeysBoundOnce, Closed, BooksMirror, BooksAgree, ControlsAgree, EarningsMirror, RewardsCounted,
         VotesCounted, EventsMirror, TalliesExact, CallsOk, RowsOk, AuditsOf;
    assert Trail(AuditsOf(s.audits, wid), s.withdrawals[wid].status);
    forall i | 0 <= i < |s.audits| ensures s.audits[i].wid != wid { AuditListed(s.audits, wid, s.audits[i]); }
  }

  // --- bulk requests ---------------------------------------------------------------------------------

  /** Whether a single update of `wid` would succeed. */
  predicate Succeeds(s: State, o: Bulk.Order, wid: nat) {
    Exist(s, o.actor, wid) && IsMove(s.withdrawals[wid].status, o.target) && !IsMaker(s, o.actor, wid)
  }

  /** Why it would not. */
  predicate FailsFor(s: State, o: Bulk.Order, wid: nat, error: Error) {
    match error
    case ActorNotFound => o.actor >= |s.wallets|
    case WithdrawalNotFound => o.actor < |s.wallets| && wid >= |s.withdrawals|
    case AlreadyInState => Exist(s, o.actor, wid) && s.withdrawals[wid].status == o.target
    case InvalidTransition =>
      Exist(s, o.actor, wid) && s.withdrawals[wid].status != o.target && !IsMove(s.withdrawals[wid].status, o.target)
    case SameActor => Exist(s, o.actor, wid) && Terminal(o.target) && IsMaker(s, o.actor, wid)
    case _ => false
  }

  lemma OutcomeIs(s: State, o: Bulk.Order, wid: nat)
    requires Bulk.Bulkable(s, o)
    ensures Linked(s) && (Bulk.Outcome(s, o, wid).Ok? <==> Succeeds(s, o, wid))
    ensures Bulk.Outcome(s, o, wid).Err? ==> FailsFor(s, o, wid, Bulk.Outcome(s, o, wid).error)
  {
    hide Inv, IsMaker;
    UpdateSucceedsIff(s, o.actor, wid, o.target, o.clock(wid));
    UpdateErrors(s, o.actor, wid, o.target, o.clock(wid));
  }

  lemma UpdateErrors(s: State, actor: nat, wid: nat, target: WithdrawalStatus, at: int)
    requires Inv(s) && UpdateStatus.requires(s, actor, wid, target, at)
    ensures var r := UpdateStatus(s, actor, wid, target, at);
      r.Err? ==> r.error in {ActorNotFound, WithdrawalNotFound, AlreadyInState, InvalidTransition, SameActor}
  {
    hide Inv, UpdateStatus;
    UpdateFailsOnlyIf(s, actor, wid, target, at);
  }

  /** After a bulk request, in whatever order its updates were serialized, exactly the withdrawals that a
      single update could have moved carry the new status and its timestamps. */
  lemma BulkWrites(s: State, o: Bulk.Order, ids: seq<nat>, wid: nat)
    requires Bulk.Bulkable(s, o) && Distinct(ids) && wid < |s.withdrawals|
    ensures var t := Bulk.Serial(s, o, ids);
      wid < |t.withdrawals| &&
      if wid in ids && Succeeds(s, o, wid) then Stamped(s.withdrawals[wid], t.withdrawals[wid], o.target, o.clock(wid))
      else t.withdrawals[wid] == s.withdrawals[wid]
  {
    hide Inv, Bulk.Serial, Bulk.Outcome, IsMaker;
    Bulk.SerialIs(s, o, ids);
    OutcomeIs(s, o, wid);
  }

  /** The blanks among the selected ids are dropped, and nothing else. */
  lemma {:induction false} PresentIff(selected: seq<Option<nat>>, x: nat)
    ensures x in Bulk.Present(selected) <==> Some(x) in selected
  {
    if |selected| > 0 {
      PresentIff(selected[..|selected| - 1], x);
      assert selected == selected[..|selected| - 1] + [selected[|selected| - 1]];
    }
  }

  /** The report lists, in the order of the ids, each one that was given up or that a single update could not
      have moved, with the reason, and no other. */
  lemma {:induction false} FailuresAreTrue(s: State, o: Bulk.Order, gaveUp: set<nat>, ids: seq<nat>)
    requires Bulk.Bulkable(s, o) && Distinct(ids)
    ensures Linked(s)
    ensures var failed := Bulk.Failures(s, o, gaveUp, ids);
      (forall i :: 0 <= i < |failed| ==>
        failed[i].0 in ids &&
        if failed[i].0 in gaveUp then failed[i].1 == SerializationFailure
        else !Succeeds(s, o, failed[i].0) && FailsFor(s, o, failed[i].0, failed[i].1)) &&
      (forall x :: x in ids && (x in gaveUp || !Succeeds(s, o, x)) ==> Lists(failed, x)) &&
      InOrderOf(failed, ids)
  {
    hide Inv, IsMaker, Bulk.Outcome, Succeeds, FailsFor, Lists, InOrderOf;
    Bulk.UsersExist(s);
    if |ids| > 0 {
      var n := |ids| - 1;
      FailuresAreTrue(s, o, gaveUp, ids[..n]);
      OutcomeIs(s, o, ids[n]);
      assert ids == ids[..n] + [ids[n]] && ids[n] !in ids[..n];
      var earlier, r := Bulk.Failures(s, o, gaveUp, ids[..n]), Bulk.Reported(s, o, gaveUp, ids[n]);
      var last := if r.Err? then [(ids[n], r.error)] else [];
      ListedThen(earlier, last);
      OrderedThen(earlier, last, ids);
      assert Bulk.Failures(s, o, gaveUp, ids) == earlier + last;
    } else {
      NothingListed(ids);
    }
  }

  predicate Lists(failed: seq<(nat, Error)>, x: nat) { exists i :: 0 <= i < |failed| && failed[i].0 == x }

  predicate InOrderOf(failed: seq<(nat, Error)>, ids: seq<nat>) {
    forall i, j, a, b :: 0 <= i < j < |failed| && 0 <= a < |ids| && 0 <= b < |ids| && ids[a] == failed[i].0 && ids[b] == failed[j].0 ==>
      a < b
  }

  lemma NothingListed(ids: seq<nat>)
    ensures InOrderOf([], ids)
  {
  }

  lemma ListedThen(earlier: seq<(nat, Error)>, last: seq<(nat, Error)>)
    ensures forall x :: Lists(earlier, x) ==> Lists(earlier + last, x)
    ensures |last| == 1 ==> Lists(earlier + last, last[0].0)
  {
    if |last| == 1 { assert (earlier + last)[|earlier|] == last[0]; }
    forall x | Lists(earlier, x) ensures Lists(earlier + last, x) {
      var i :| 0 <= i < |earlier| && earlier[i].0 == x;
      assert (earlier + last)[i] == earlier[i];
    }
  }

  lemma OrderedThen(earlier: seq<(nat, Error)>, last: seq<(nat, Error)>, ids: seq<nat>)
    requires |ids| > 0 && Distinct(ids) && InOrderOf(earlier, ids[..|ids| - 1])
    requires forall i :: 0 <= i < |earlier| ==> earlier[i].0 in ids[..|ids| - 1]
    requires last == [] || (|last| == 1 && last[0].0 == ids[|ids| - 1])
    ensures InOrderOf(earlier + last, ids)
  {
    var n, failed := |ids| - 1, earlier + last;
    forall i, j, a, b | 0 <= i < j < |failed| && 0 <= a < |ids| && 0 <= b < |ids| && ids[a] == failed[i].0 && ids[b] == failed[j].0
      ensures a < b
    {
      var c :| 0 <= c < n && ids[..n][c] == earlier[i].0;
      assert a == c;
      if j < |earlier| {
        var d :| 0 <= d < n && ids[..n][d] == earlier[j].0;
        assert b == d && ids[..n][a] == earlier[i].0 && ids[..n][b] == earlier[j].0;
      } else {
        assert b == n;
      }
    }
  }
}
