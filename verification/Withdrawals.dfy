/** Withdrawals over whole runs: the status machine, maker/checker, and idempotency keys. */
module Withdrawals {
  import opened Tables
  import opened Postings
  import opened ClosedForms
  import opened Invariants
  import opened Engine
  import opened Steps
  import WithdrawalProofs
  import PaymentProofs
  import Safety

  // --- the status machine ----------------------------------------------------------------------

  predicate Terminal(status: WithdrawalStatus) { status == WithdrawalStatus.Completed || status == Rejected }

  /** In every reachable state the timestamps say what the status says, so the transition table and
      the where-clauses of the conditional updates accept the same rows: a row count other than one
      never follows an accepted transition. */
  lemma TableMatchesGuards(run: seq<Step>, wid: nat)
    requires wid < |After(EMPTY, run).withdrawals|
    ensures var w := After(EMPTY, run).withdrawals[wid];
      (w.processingStartedAt.Some? <==> w.status != WithdrawalStatus.Pending) && (w.processedAt.Some? <==> Terminal(w.status)) &&
      (w.approvedAt.Some? <==> w.status == WithdrawalStatus.Completed) && (w.rejectedAt.Some? <==> w.status == Rejected) &&
      (WithdrawalAllowed(w.status, Processing) <==> Startable(w)) &&
      (forall t :: Terminal(t) ==> (WithdrawalAllowed(w.status, t) <==> Finalizable(w)))
  {
    hide After, KeysBoundOnce, Closed, BooksMirror, BooksAgree, ControlsAgree, EarningsMirror, Audited, RewardsCounted,
         VotesCounted, EventsMirror, TalliesExact, CallsOk;
    Safety.ReachableIsSafe(run);
    assert WithdrawalOk(After(EMPTY, run).withdrawals[wid], |After(EMPTY, run).wallets|);
  }

  /** Terms never change, statuses only move along the table, and a final row is frozen. */
  ghost predicate Progresses(w: Withdrawal, v: Withdrawal) {
    SameTerms(w, v) &&
    (v == w || (WithdrawalAllowed(w.status, v.status) && exists at :: v == Advanced(w, v.status, at)))
  }

  lemma UpdateAdvances(s: State, actor: nat, wid: nat, target: WithdrawalStatus, at: int)
    requires UpdateStatus.requires(s, actor, wid, target, at)
    ensures var r := UpdateStatus(s, actor, wid, target, at);
      r.Ok? ==>
        wid < |s.withdrawals| && WithdrawalAllowed(s.withdrawals[wid].status, target) &&
        r.value.withdrawals == s.withdrawals[wid := Advanced(s.withdrawals[wid], target, at)]
  {
    hide Moved, EntriesOf, LatestAudit;
  }

  lemma StepProgresses(s: State, step: Step)
    requires Inv(s)
    ensures var t := Next(s, step);
      |s.withdrawals| <= |t.withdrawals| && forall i :: 0 <= i < |s.withdrawals| ==> Progresses(s.withdrawals[i], t.withdrawals[i])
  {
    hide Inv, Moved, EntriesOf, ApplyPayment, UpdateStatus, NewSupport, Work, Bump;
    if step.SetStatus? && Enabled(s, step) {
      UpdateAdvances(s, step.actor, step.wid, step.target, step.at);
    } else if step.ResolveCall? && Enabled(s, step) {
      PaymentsTouchNoWithdrawal(s, step);
    }
  }

  lemma PaymentsTouchNoWithdrawal(s: State, step: Step)
    requires step.ResolveCall? && Enabled(s, step)
    ensures Next(s, step).withdrawals == s.withdrawals
  {
    hide ApplyPayment;
    PaymentProofs.ApplyFrame(s, s.calls[step.call].sid, s.calls[step.call].phase.snapshot, step.paidAt, step.holdDays);
  }

  /** A finalized withdrawal never changes again. */
  lemma {:induction false} FinalIsForever(s: State, run: seq<Step>, wid: nat)
    requires Inv(s) && wid < |s.withdrawals| && Terminal(s.withdrawals[wid].status)
    ensures wid < |After(s, run).withdrawals| && After(s, run).withdrawals[wid] == s.withdrawals[wid]
  {
    hide Inv, Next;
    if |run| > 0 {
      var init := run[..|run| - 1];
      FinalIsForever(s, init, wid);
      Safety.RunKeeps(s, init);
      StepProgresses(After(s, init), run[|run| - 1]);
      assert Progresses(After(s, init).withdrawals[wid], After(s, run).withdrawals[wid]);
    }
  }

  // --- maker / checker -------------------------------------------------------------------------

  lemma AuditsSoFar(s: State, wid: nat)
    requires Inv(s) && wid < |s.withdrawals|
    ensures var status, audits := s.withdrawals[wid].status, AuditsOf(s.audits, wid);
      (Terminal(status) ==> TwoPeople(audits, status)) &&
      (status == Processing ==> LatestAudit(s.audits, wid).Some? && [LatestAudit(s.audits, wid).value] == audits && audits[0].after == Processing) &&
      (status == WithdrawalStatus.Pending ==> LatestAudit(s.audits, wid).None?)
  {
    hide RowsOk, KeysBoundOnce, Closed, BooksMirror, BooksAgree, ControlsAgree, EarningsMirror, RewardsCounted,
         VotesCounted, EventsMirror, TalliesExact, CallsOk, AuditsOf, LatestAudit;
    assert Trail(AuditsOf(s.audits, wid), s.withdrawals[wid].status);
    WithdrawalProofs.LatestIsOnly(s.audits, wid);
  }

  /** Every finalized withdrawal was moved to processing by one person and finalized by another, with
      exactly these two audits on record; and while it is processing, the latest audit, however the
      clocks ran, is the one that moved it there. */
  lemma MakerIsNotChecker(run: seq<Step>, wid: nat)
    requires wid < |After(EMPTY, run).withdrawals|
    ensures var s := After(EMPTY, run);
      (Terminal(s.withdrawals[wid].status) ==> TwoPeople(AuditsOf(s.audits, wid), s.withdrawals[wid].status)) &&
      (s.withdrawals[wid].status == Processing ==>
        LatestAudit(s.audits, wid).Some? && [LatestAudit(s.audits, wid).value] == AuditsOf(s.audits, wid) &&
        LatestAudit(s.audits, wid).value.after == Processing) &&
      (s.withdrawals[wid].status == WithdrawalStatus.Pending ==> LatestAudit(s.audits, wid).None?)
  {
    hide Inv, After, TwoPeople, LatestAudit, AuditsOf;
    Safety.ReachableIsSafe(run);
    AuditsSoFar(After(EMPTY, run), wid);
  }

  /** Everything that can go wrong with a status change in a reachable state. A missing checker audit, a
      row count other than one, a locked balance too small and a negative balance are not on the list;
      and a withdrawal that is being processed is refused to its maker only. */
  lemma UpdateFailsOnlyIf(s: State, actor: nat, wid: nat, target: WithdrawalStatus, at: int)
    requires Inv(s) && UpdateStatus.requires(s, actor, wid, target, at)
    ensures var r := UpdateStatus(s, actor, wid, target, at);
      r.Err? ==> r.error in {ActorNotFound, WithdrawalNotFound, AlreadyInState, InvalidTransition, SameActor}
    ensures actor < |s.wallets| && wid < |s.withdrawals| && s.withdrawals[wid].status == Processing && Terminal(target) ==>
      |AuditsOf(s.audits, wid)| == 1 &&
      (UpdateStatus(s, actor, wid, target, at).Ok? <==> AuditsOf(s.audits, wid)[0].actor != actor)
  {
    hide Inv, Trail, TwoPeople, Post, LatestAudit, AuditsOf, Advanced;
    if wid < |s.withdrawals| {
      AuditsSoFar(s, wid);
    }
  }

  // --- idempotency keys ------------------------------------------------------------------------

  lemma KeyNamesOneWithdrawal(run: seq<Step>, i: nat, j: nat)
    requires i < |After(EMPTY, run).withdrawals| && j < |After(EMPTY, run).withdrawals|
    ensures var w := After(EMPTY, run).withdrawals;
      w[i].key.Some? && w[i].key == w[j].key && w[i].user == w[j].user ==> i == j
  {
    hide After, RowsOk, Closed, BooksMirror, BooksAgree, ControlsAgree, EarningsMirror, Audited, RewardsCounted,
         VotesCounted, EventsMirror, TalliesExact, CallsOk;
    Safety.ReachableIsSafe(run);
  }

  predicate Resubmits(s: State, step: Step) {
    step.Ask? && UsableKey(step.request.key).Some? &&
    FindByKey(s.withdrawals, step.request.user, UsableKey(step.request.key)).Some?
  }

  /** Resubmitting a used key returns the withdrawal that owns the key, and only if the request is the
      same, or fails; it changes nothing. */
  lemma ResubmissionIsInert(s: State, q: Request, wid: nat)
    requires KeysBoundOnce(s.withdrawals) && Resubmits(s, Ask(q))
    requires wid < |s.withdrawals| && s.withdrawals[wid].user == q.user && s.withdrawals[wid].key == UsableKey(q.key)
    ensures Next(s, Ask(q)) == s
    ensures RequestWithdrawal(s, q).Ok? ==> RequestWithdrawal(s, q).value == (s, wid)
    ensures RequestWithdrawal(s, q).Ok? ==>
      NormalizeAmount(q.amount).Ok? && SameRequest(s.withdrawals[wid], q, NormalizeAmount(q.amount).value)
  {
    var found := FindByKey(s.withdrawals, q.user, UsableKey(q.key));
    assert found.value == wid;
  }

  /** The run without its resubmissions. */
  function Deduplicated(s: State, run: seq<Step>): seq<Step>
    decreases |run|
  {
    if |run| == 0 then []
    else if Resubmits(s, run[0]) then Deduplicated(s, run[1..])
    else [run[0]] + Deduplicated(Next(s, run[0]), run[1..])
  }

  lemma AfterFirst(s: State, step: Step, run: seq<Step>)
    ensures After(s, [step] + run) == After(Next(s, step), run)
  {
    AfterConcat(s, [step], run);
    AfterOne(s, step);
  }

  /** Leaving out the resubmissions of any run, interleaved with anything, leads to the same state. */
  lemma {:induction false} DuplicatesLeaveNoTrace(s: State, run: seq<Step>)
    ensures After(s, Deduplicated(s, run)) == After(s, run)
    decreases |run|
  {
    hide Next, Resubmits;
    if |run| > 0 {
      var step, rest := run[0], run[1..];
      assert run == [step] + rest;
      AfterFirst(s, step, rest);
      if Resubmits(s, step) {
        ResubmissionSkips(s, step);
        DuplicatesLeaveNoTrace(s, rest);
      } else {
        DuplicatesLeaveNoTrace(Next(s, step), rest);
        AfterFirst(s, step, Deduplicated(Next(s, step), rest));
      }
    }
  }

  lemma ResubmissionSkips(s: State, step: Step)
    requires Resubmits(s, step)
    ensures Next(s, step) == s
  {
  }
}
