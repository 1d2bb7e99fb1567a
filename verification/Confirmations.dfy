/** Which answers of the provider apply a payment, what applying writes, and how long the money is held. */
module Confirmations {
  import opened Tables
  import opened Postings
  import opened ClosedForms
  import opened Invariants
  import opened Engine
  import opened Steps
  import PaymentProofs
  import Payments
  import Safety

  // --- the calls ---------------------------------------------------------------------------------

  /** A verify call gets past the first check iff its support exists and is not completed; a webhook iff its
      reference is new. */
  lemma CallOpensIff(s: State, origin: Origin, ref: nat)
    ensures var t := Next(s, OpenCall(origin, ref));
      var opens := if origin.Verify? then ref < |s.supports| && s.supports[ref].status != PaymentStatus.Completed
                   else ref !in s.webhooks;
      t == if opens then s.(calls := s.calls + [Call(origin, ref, Started)], webhooks := t.webhooks) else s
    ensures var answer := Open(s, origin, ref).1;
      origin.Verify? ==>
        (answer == Refused(SupportNotFound) <==> ref >= |s.supports|) &&
        (answer == AlreadyConfirmed <==> ref < |s.supports| && s.supports[ref].status == PaymentStatus.Completed) &&
        (answer == Admitted <==> ref < |s.supports| && s.supports[ref].status != PaymentStatus.Completed)
    ensures origin.Verify? ==> Next(s, OpenCall(origin, ref)).webhooks == s.webhooks
  {
  }

  /** The read before the provider is asked ends the call for a missing, failed or applied support; any other
      support is kept exactly as it is. Nothing but the call changes. */
  lemma SnapshotTakenIff(s: State, c: nat)
    requires Enabled(s, LoadCall(c))
    ensures var t := Next(s, LoadCall(c)); var sid := s.calls[c].sid;
      |t.calls| == |s.calls| && t == s.(calls := s.calls[c := s.calls[c].(phase := t.calls[c].phase)]) &&
      (t.calls[c].phase.Holding? <==> sid < |s.supports| && s.supports[sid].status != Failed && !s.supports[sid].Applied()) &&
      (t.calls[c].phase.Holding? ==> t.calls[c].phase.snapshot == s.supports[sid]) &&
      (t.calls[c].phase == Finished(Raised(SupportNotFound)) <==> sid >= |s.supports|) &&
      (t.calls[c].phase == Finished(Declined) <==> sid < |s.supports| && s.supports[sid].status == Failed) &&
      (t.calls[c].phase == Finished(AlreadyDone) <==>
        sid < |s.supports| && s.supports[sid].status != Failed && s.supports[sid].Applied())
  {
  }

  // --- what each answer does -----------------------------------------------------------------------

  /** The step is an answer of the provider to a call that is waiting for one. */
  predicate Answers(s: State, c: nat, sid: nat) {
    c < |s.calls| && s.calls[c].phase.Holding? && s.calls[c].sid == sid && sid < |s.supports|
  }

  predicate StillPending(snap: Support) { snap.status == PaymentStatus.Pending && snap.intent == PaymentStatus.Pending }

  predicate Owned(s: State, p: Support) {
    p.reward.Some? && p.supporter.Some? &&
    exists i :: 0 <= i < |s.unlocks| && s.unlocks[i].user == p.supporter.value && s.unlocks[i].reward == p.reward.value
  }

  predicate Unavailable(s: State, p: Support) {
    p.reward.Some? && p.reward.value < |s.rewards| &&
    (!s.rewards[p.reward.value].active ||
     (s.rewards[p.reward.value].limit.Some? && s.rewards[p.reward.value].claimed >= s.rewards[p.reward.value].limit.value))
  }

  lemma CallCanBeAnswered(s: State, c: nat, sid: nat, verdict: Verdict, paidAt: int, holdDays: nat)
    requires Inv(s) && Answers(s, c, sid)
    ensures Enabled(s, ResolveCall(c, verdict, paidAt, holdDays)) && SameOrder(s.calls[c].phase.snapshot, s.supports[sid])
    ensures s.supports[sid].reward.Some? ==> s.supports[sid].supporter.Some? && s.supports[sid].reward.value < |s.rewards|
    ensures s.supports[sid].vote.Some? ==> s.supports[sid].supporter.Some? && s.supports[sid].vote.value < |s.options|
  {
    hide KeysBoundOnce, Closed, BooksMirror, BooksAgree, ControlsAgree, EarningsMirror, Audited, RewardsCounted,
         VotesCounted, EventsMirror, TalliesExact;
    assert SupportOk(s.supports[sid], SizesOf(s)) && SnapshotOk(s.calls[c], s.supports);
  }

  /** Wrong details and an unreachable provider end the call in an error, and nothing else happens. */
  lemma UselessAnswer(s: State, c: nat, sid: nat, verdict: Verdict, paidAt: int, holdDays: nat)
    requires Inv(s) && Answers(s, c, sid) && (verdict == WrongDetails || verdict == Unreachable)
    ensures Next(s, ResolveCall(c, verdict, paidAt, holdDays)) ==
      s.(calls := s.calls[c := s.calls[c].(phase :=
           Finished(Raised(if verdict == WrongDetails then DetailsMismatch else ProviderDown)))])
  {
    hide Inv, ApplyPayment;
    CallCanBeAnswered(s, c, sid, verdict, paidAt, holdDays);
  }

  /** The answer that the payment failed writes the status of a pending support, or nothing: no wallet,
      no book, no perk and no event. */
  lemma FailureAnswer(s: State, c: nat, sid: nat, paidAt: int, holdDays: nat)
    requires Inv(s) && Answers(s, c, sid)
    ensures var t := Next(s, ResolveCall(c, Unsuccessful, paidAt, holdDays)); var snap := s.calls[c].phase.snapshot;
      if StillPending(snap) then
        t == s.(supports := s.supports[sid := s.supports[sid].(status := Failed, intent := Failed)],
                calls := s.calls[c := s.calls[c].(phase := Finished(Declined))])
      else
        t == s.(calls := s.calls[c := s.calls[c].(phase :=
          Finished(if snap.status == Failed || snap.intent == Failed then Declined else Raised(InvalidTransition)))])
  {
    hide Inv, ApplyPayment;
    CallCanBeAnswered(s, c, sid, Unsuccessful, paidAt, holdDays);
  }

  lemma ApplyAnswer(s: State, sid: nat, snap: Support, paidAt: int, holdDays: nat)
    requires ApplyPayment.requires(s, sid, snap, paidAt, holdDays) && SameOrder(snap, s.supports[sid])
    requires snap.reward.Some? ==> snap.supporter.Some? && snap.reward.value < |s.rewards|
    ensures var r := ApplyPayment(s, sid, snap, paidAt, holdDays); var p := s.supports[sid];
      if !StillPending(snap) then r == Err(InvalidTransition)
      else if p.Applied() then r == Ok((s, false))
      else if Unavailable(s, p) then r == Err(RewardUnavailable)
      else if Owned(s, p) then r == Err(UniqueViolation)
      else r.Ok? && r.value.1
  {
    hide CastVote, Post, Enqueued, Paid;
  }

  /** The reply to the answer that the payment succeeded, and what happens if it is not a confirmation. */
  lemma SuccessReply(s: State, c: nat, sid: nat, paidAt: int, holdDays: nat)
    requires Inv(s) && Answers(s, c, sid)
    ensures var t := Next(s, ResolveCall(c, Success, paidAt, holdDays));
      var p, pending := s.supports[sid], StillPending(s.calls[c].phase.snapshot);
      |t.calls| == |s.calls| && t.calls == s.calls[c := s.calls[c].(phase := t.calls[c].phase)] &&
      (t.calls[c].phase == Finished(Confirmed) <==> pending && !p.Applied() && !Unavailable(s, p) && !Owned(s, p)) &&
      (t.calls[c].phase == Finished(AlreadyDone) <==> pending && p.Applied()) &&
      (t.calls[c].phase == Finished(Raised(InvalidTransition)) <==> !pending) &&
      (t.calls[c].phase == Finished(Raised(RewardUnavailable)) <==> pending && !p.Applied() && Unavailable(s, p)) &&
      (t.calls[c].phase == Finished(Raised(UniqueViolation)) <==>
        pending && !p.Applied() && !Unavailable(s, p) && Owned(s, p)) &&
      (t.calls[c].phase != Finished(Confirmed) ==> t == s.(calls := t.calls))
  {
    hide Inv, ApplyPayment, StillPending, Unavailable, Owned;
    CallCanBeAnswered(s, c, sid, Success, paidAt, holdDays);
    PaymentProofs.ApplyFrame(s, sid, s.calls[c].phase.snapshot, paidAt, holdDays);
    ApplyAnswer(s, sid, s.calls[c].phase.snapshot, paidAt, holdDays);
  }

  /** Whatever the provider says, a payment is confirmed only on a success for its own reference, in birr and
      over exactly the amount of the order. */
  lemma OnlyVerifiedAmountsCount(s: State, c: nat, sid: nat, answer: ProviderAnswer, paidAt: int, holdDays: nat)
    requires Inv(s) && Answers(s, c, sid)
    ensures var snap := s.calls[c].phase.snapshot;
      var t := Next(s, ResolveCall(c, Judged(answer, sid, snap.gross), paidAt, holdDays));
      |t.calls| == |s.calls| &&
      (t.calls[c].phase == Finished(Confirmed) <==>
        answer.Verification? && answer.success && answer.reference == sid && answer.inBirr &&
        answer.amount * 100.0 == s.supports[sid].gross as real &&
        StillPending(snap) && !s.supports[sid].Applied() && !Unavailable(s, s.supports[sid]) && !Owned(s, s.supports[sid])) &&
      (t.calls[c].phase == Finished(Raised(DetailsMismatch)) <==>
        answer.Verification? && answer.success && answer.reference == sid &&
        !(answer.inBirr && answer.amount * 100.0 == s.supports[sid].gross as real)) &&
      (t.calls[c].phase == Finished(Raised(ProviderDown)) <==> answer.Silence?)
  {
    hide Inv, Next, Unavailable, Owned, StillPending;
    CallCanBeAnswered(s, c, sid, Success, paidAt, holdDays);
    UselessAnswer(s, c, sid, WrongDetails, paidAt, holdDays);
    UselessAnswer(s, c, sid, Unreachable, paidAt, holdDays);
    FailureAnswer(s, c, sid, paidAt, holdDays);
    SuccessReply(s, c, sid, paidAt, holdDays);
    RepliesAreFew(s, c, sid, paidAt, holdDays);
  }

  lemma RepliesAreFew(s: State, c: nat, sid: nat, paidAt: int, holdDays: nat)
    requires Inv(s) && Answers(s, c, sid)
    ensures var t := Next(s, ResolveCall(c, Success, paidAt, holdDays));
      |t.calls| == |s.calls| && t.calls[c].phase != Finished(Raised(DetailsMismatch)) && t.calls[c].phase != Finished(Raised(ProviderDown))
  {
    hide Inv, Next;
    SuccessReply(s, c, sid, paidAt, holdDays);
  }

  // --- what a confirmation writes ------------------------------------------------------------------

  /** The step confirms the payment of `sid` to call c. */
  ghost predicate Confirms(s: State, step: Step, sid: nat) {
    step.ResolveCall? && step.verdict == Success && Answers(s, step.call, sid) &&
    step.call < |Next(s, step).calls| && Next(s, step).calls[step.call].phase == Finished(Confirmed)
  }

  /** The support is marked paid, and due when the hold is over: a day has 86,400,000 milliseconds. */
  predicate MarkedPaid(p: Support, q: Support, paidAt: int, holdDays: nat) {
    q == p.(status := PaymentStatus.Completed, intent := PaymentStatus.Completed, settlement := Held, credited := true,
            appliedAt := Some(paidAt), availableAt := Some(paidAt + holdDays * 86400000))
  }

  /** The net amount goes to the creator's pending balance and earnings, the fee to the platform, and the
      books record both against what was captured. */
  predicate Captured(s: State, t: State, sid: nat, p: Support)
    requires p.creator < |s.wallets|
  {
    var w := s.wallets[p.creator];
    var b := Balances(w.balances.available, w.balances.pending + p.net, w.balances.locked);
    t.wallets == s.wallets[p.creator := Wallet(b, w.earned + p.net, w.active)] &&
    t.ledger == s.ledger + [LedgerRow(Capture(sid), p.creator, p.net, b)] &&
    t.batches == s.batches + [Batch(Capture(sid),
      [ Entry(None, ProcessorClearing, Debit, p.gross), Entry(Some(p.creator), CreatorPending, Credit, p.net),
        Entry(None, PlatformRevenue, Credit, p.fee) ])] &&
    t.earnings == s.earnings[sid := p.fee]
  }

  /** A reward is claimed and unlocked once, a vote counted and recorded once. */
  predicate PerksGiven(s: State, t: State, sid: nat, p: Support) {
    (if p.reward.Some? then
       p.reward.value < |s.rewards| && p.supporter.Some? &&
       t.rewards == s.rewards[p.reward.value := s.rewards[p.reward.value].(claimed := s.rewards[p.reward.value].claimed + 1)] &&
       t.unlocks == s.unlocks + [Unlock(p.supporter.value, p.reward.value, sid)]
     else t.rewards == s.rewards && t.unlocks == s.unlocks) &&
    (if p.vote.Some? then
       p.vote.value < |s.options| && p.supporter.Some? &&
       t.options == s.options[p.vote.value := s.options[p.vote.value] + 1] &&
       t.votes == s.votes + [Vote(p.vote.value, p.supporter.value, sid)]
     else t.options == s.options && t.votes == s.votes)
  }

  /** Two fresh events, one to project and one to tell the creator. */
  predicate EventsQueued(s: State, t: State, sid: nat) {
    t.outbox == s.outbox.(events := s.outbox.events + [Event(sid, Projection, None, None, 0), Event(sid, Telegram, None, None, 0)])
  }

  lemma AppliedWrites(s: State, sid: nat, snap: Support, paidAt: int, holdDays: nat)
    requires ApplyPayment.requires(s, sid, snap, paidAt, holdDays) && SameOrder(snap, s.supports[sid])
    requires snap.vote.Some? ==> snap.supporter.Some? && snap.vote.value < |s.options|
    requires ApplyPayment(s, sid, snap, paidAt, holdDays).Ok? && ApplyPayment(s, sid, snap, paidAt, holdDays).value.1
    ensures var t, p := ApplyPayment(s, sid, snap, paidAt, holdDays).value.0, s.supports[sid];
      |t.supports| == |s.supports| && t.supports == s.supports[sid := t.supports[sid]] &&
      MarkedPaid(p, t.supports[sid], paidAt, holdDays) &&
      Captured(s, t, sid, p) && PerksGiven(s, t, sid, p) && EventsQueued(s, t, sid) &&
      t == s.(supports := t.supports, wallets := t.wallets, ledger := t.ledger, batches := t.batches, earnings := t.earnings,
              rewards := t.rewards, unlocks := t.unlocks, options := t.options, votes := t.votes, outbox := t.outbox)
  {
    hide HasUnlocked;
  }

  /** A confirmation writes all of this, in this amount, and nothing else. */
  lemma ConfirmationWrites(s: State, step: Step, sid: nat)
    requires Inv(s) && Confirms(s, step, sid)
    ensures var t, p := Next(s, step), s.supports[sid];
      p.creator < |s.wallets| && |t.supports| == |s.supports| && t.supports == s.supports[sid := t.supports[sid]] &&
      MarkedPaid(p, t.supports[sid], step.paidAt, step.holdDays) &&
      Captured(s, t, sid, p) && PerksGiven(s, t, sid, p) && EventsQueued(s, t, sid) &&
      t == s.(supports := t.supports, wallets := t.wallets, ledger := t.ledger, batches := t.batches, earnings := t.earnings,
              rewards := t.rewards, unlocks := t.unlocks, options := t.options, votes := t.votes, outbox := t.outbox,
              calls := s.calls[step.call := s.calls[step.call].(phase := Finished(Confirmed))])
  {
    hide Inv, ApplyPayment, MarkedPaid, Captured, PerksGiven, EventsQueued;
    CallCanBeAnswered(s, step.call, sid, Success, step.paidAt, step.holdDays);
    PaymentProofs.ApplyFrame(s, sid, s.calls[step.call].phase.snapshot, step.paidAt, step.holdDays);
    AppliedWrites(s, sid, s.calls[step.call].phase.snapshot, step.paidAt, step.holdDays);
    CallsAside(s, ApplyPayment(s, sid, s.calls[step.call].phase.snapshot, step.paidAt, step.holdDays).value.0, Next(s, step), sid,
               s.supports[sid]);
  }

  /** None of it looks at the calls. */
  lemma CallsAside(s: State, t: State, u: State, sid: nat, p: Support)
    requires u == t.(calls := u.calls) && p.creator < |s.wallets|
    ensures Captured(s, t, sid, p) ==> Captured(s, u, sid, p)
    ensures PerksGiven(s, t, sid, p) ==> PerksGiven(s, u, sid, p)
    ensures EventsQueued(s, t, sid) ==> EventsQueued(s, u, sid)
  {
  }

  // --- runs ----------------------------------------------------------------------------------------

  predicate IsApplied(s: State, sid: nat) { sid < |s.supports| && s.supports[sid].Applied() }

  predicate IsReleased(s: State, sid: nat) { sid < |s.supports| && s.supports[sid].settlement == Available }

  /** Only a confirmation applies a support, and it applies one that was not applied before. */
  lemma OnlyConfirmationsApply(s: State, step: Step, sid: nat)
    requires Inv(s)
    ensures IsApplied(Next(s, step), sid) <==> IsApplied(s, sid) || Confirms(s, step, sid)
    ensures Confirms(s, step, sid) ==> !IsApplied(s, sid)
  {
    hide Inv, Next, Enabled;
    Payments.StepMarches(s, step);
    StillApplied(s.supports, Next(s, step).supports, sid);
    if step.ResolveCall? {
      AnswerApplies(s, step, sid);
    } else {
      OtherStepsApplyNothing(s, step, sid);
    }
  }

  lemma StillApplied(supports: seq<Support>, supports': seq<Support>, sid: nat)
    requires Payments.AllMarch(supports, supports')
    ensures sid < |supports| && supports[sid].Applied() ==> sid < |supports'| && supports'[sid].Applied()
  {
    if sid < |supports| { assert Payments.Marches(supports[sid], supports'[sid]); }
  }

  lemma AnswerApplies(s: State, step: Step, sid: nat)
    requires Inv(s) && step.ResolveCall?
    ensures IsApplied(Next(s, step), sid) ==> IsApplied(s, sid) || Confirms(s, step, sid)
    ensures Confirms(s, step, sid) ==> !IsApplied(s, sid) && IsApplied(Next(s, step), sid)
  {
    hide Inv, Next, Captured, PerksGiven, EventsQueued, StillPending, Unavailable, Owned;
    if Enabled(s, step) {
      var c, paid := step.call, s.calls[step.call].sid;
      match step.verdict
      case WrongDetails => UselessAnswer(s, c, paid, WrongDetails, step.paidAt, step.holdDays);
      case Unreachable => UselessAnswer(s, c, paid, Unreachable, step.paidAt, step.holdDays);
      case Unsuccessful => FailureAnswer(s, c, paid, step.paidAt, step.holdDays);
      case Success =>
        SuccessReply(s, c, paid, step.paidAt, step.holdDays);
        if Confirms(s, step, paid) { ConfirmationWrites(s, step, paid); }
    } else {
      NotEnabled(s, step);
    }
  }

  lemma OtherStepsApplyNothing(s: State, step: Step, sid: nat)
    requires !step.ResolveCall?
    ensures IsApplied(Next(s, step), sid) ==> IsApplied(s, sid)
  {
    hide Next;
    if step.SettleOne? {
      SettlementAppliesNothing(s, step, sid);
    } else {
      Payments.OthersLeave(s, step);
      if step.StartSupport? { OrderIsUnpaid(s, step); } else { Payments.OthersKeepCount(s, step); }
    }
  }

  lemma SettlementAppliesNothing(s: State, step: Step, sid: nat)
    requires step.SettleOne?
    ensures IsApplied(Next(s, step), sid) ==> IsApplied(s, sid)
  {
    hide Moved, EntriesOf;
  }

  lemma OrderIsUnpaid(s: State, step: Step)
    requires step.StartSupport?
    ensures var t := Next(s, step);
      t.supports == s.supports ||
      (|t.supports| == |s.supports| + 1 && !t.supports[|s.supports|].Applied() && t.supports[|s.supports|].settlement == Held)
  {
  }

  /** Step k of the run confirmed the payment of `sid`. */
  ghost predicate ConfirmedBy(run: seq<Step>, k: int, sid: nat) {
    0 <= k < |run| && Confirms(After(EMPTY, run[..k]), run[k], sid)
  }

  /** After every run, a support is applied iff some step of the run was the provider's answer that the
      payment succeeded and the reply to it a confirmation. */
  lemma {:induction false} AppliedIffConfirmed(run: seq<Step>, sid: nat)
    ensures IsApplied(After(EMPTY, run), sid) <==> exists k :: ConfirmedBy(run, k, sid)
  {
    hide Inv, Next, Confirms;
    if |run| > 0 {
      var n := |run| - 1;
      AppliedIffConfirmed(run[..n], sid);
      Safety.ReachableIsSafe(run[..n]);
      OnlyConfirmationsApply(After(EMPTY, run[..n]), run[n], sid);
      ConfirmedEarlier(run, sid);
      if k :| ConfirmedBy(run[..n], k, sid) { assert ConfirmedBy(run, k, sid); }
    }
  }

  lemma ConfirmedEarlier(run: seq<Step>, sid: nat)
    requires |run| > 0
    ensures forall k :: 0 <= k < |run| - 1 ==> (ConfirmedBy(run, k, sid) <==> ConfirmedBy(run[..|run| - 1], k, sid))
    ensures ConfirmedBy(run, |run| - 1, sid) <==> Confirms(After(EMPTY, run[..|run| - 1]), run[|run| - 1], sid)
  {
    hide Confirms, After;
    forall k | 0 <= k < |run| - 1 ensures ConfirmedBy(run, k, sid) <==> ConfirmedBy(run[..|run| - 1], k, sid) {
      assert run[..|run| - 1][..k] == run[..k];
    }
  }

  /** What the confirming step wrote about time is never overwritten. */
  lemma {:induction false} HoldIsKept(run: seq<Step>, k: int, sid: nat)
    requires ConfirmedBy(run, k, sid)
    ensures var t := After(EMPTY, run);
      IsApplied(t, sid) && t.supports[sid].appliedAt == Some(run[k].paidAt) &&
      t.supports[sid].availableAt == Some(run[k].paidAt + run[k].holdDays * 86400000)
  {
    hide Inv, Next, Confirms, Captured, PerksGiven, EventsQueued;
    var n := |run| - 1;
    ConfirmedEarlier(run, sid);
    Safety.ReachableIsSafe(run[..n]);
    var s := After(EMPTY, run[..n]);
    if k < n {
      HoldIsKept(run[..n], k, sid);
      Payments.StepMarches(s, run[n]);
      assert Payments.Marches(s.supports[sid], After(EMPTY, run).supports[sid]);
    } else {
      ConfirmationWrites(s, run[n], sid);
      assert Confirms(s, run[n], sid) ==> run[n].ResolveCall? && sid < |s.supports| by { ConfirmsKnown(s, run[n], sid); }
    }
  }

  lemma ConfirmsKnown(s: State, step: Step, sid: nat)
    requires Confirms(s, step, sid)
    ensures step.ResolveCall? && step.verdict == Success && sid < |s.supports|
  {
  }

  /** No support is confirmed twice in a run. */
  lemma ConfirmedOnce(run: seq<Step>, j: int, k: int, sid: nat)
    requires ConfirmedBy(run, j, sid) && ConfirmedBy(run, k, sid)
    ensures j == k
  {
    hide Inv, After, Next, Confirms;
    if j < k {
      ConfirmedTooLate(run, j, k, sid);
    } else if k < j {
      ConfirmedTooLate(run, k, j, sid);
    }
  }

  lemma ConfirmedTooLate(run: seq<Step>, j: int, k: int, sid: nat)
    requires ConfirmedBy(run, j, sid) && j < k < |run|
    ensures !ConfirmedBy(run, k, sid)
  {
    hide Inv, After, Next, Confirms;
    assert run[..k][..j] == run[..j];
    assert ConfirmedBy(run[..k], j, sid);
    AppliedIffConfirmed(run[..k], sid);
    Safety.ReachableIsSafe(run[..k]);
    OnlyConfirmationsApply(After(EMPTY, run[..k]), run[k], sid);
  }

  // --- release ---------------------------------------------------------------------------------------

  /** The net amount goes from the pending to the available balance, in the wallet and in the books. */
  predicate Transferred(s: State, t: State, sid: nat, p: Support)
    requires p.creator < |s.wallets|
  {
    var w := s.wallets[p.creator];
    var b := Balances(w.balances.available + p.net, w.balances.pending - p.net, w.balances.locked);
    t.wallets == s.wallets[p.creator := Wallet(b, w.earned, w.active)] &&
    t.ledger == s.ledger + [LedgerRow(Settlement(sid), p.creator, p.net, b)] &&
    t.batches == s.batches + [Batch(Settlement(sid),
      [ Entry(Some(p.creator), CreatorPending, Debit, p.net), Entry(Some(p.creator), CreatorAvailable, Credit, p.net) ])]
  }

  /** A settlement releases the money iff the support is completed, held, credited and due and its wallet is
      switched on; then it moves the net amount, and otherwise nothing happens. */
  lemma SettlementWrites(s: State, sid: nat, now: int)
    requires Inv(s) && sid < |s.supports|
    ensures var t, p := Next(s, SettleOne(sid, now)), s.supports[sid];
      p.creator < |s.wallets| &&
      if p.status == PaymentStatus.Completed && p.settlement == Held && p.credited && p.availableAt.Some? &&
         p.availableAt.value <= now && s.wallets[p.creator].active
      then
        t == s.(supports := s.supports[sid := p.(settlement := Available)], wallets := t.wallets, ledger := t.ledger,
                batches := t.batches) &&
        Transferred(s, t, sid, p)
      else t == s
  {
    hide KeysBoundOnce, Closed, BooksMirror, BooksAgree, ControlsAgree, EarningsMirror, Audited, RewardsCounted,
         VotesCounted, EventsMirror, TalliesExact, CallsOk;
    assert SupportOk(s.supports[sid], SizesOf(s));
  }

  /** The step releases the money of `sid`. */
  ghost predicate Releases(s: State, step: Step, sid: nat) {
    step.SettleOne? && step.sid == sid && !IsReleased(s, sid) && IsReleased(Next(s, step), sid)
  }

  ghost predicate ReleasedBy(run: seq<Step>, j: int, sid: nat) {
    0 <= j < |run| && Releases(After(EMPTY, run[..j]), run[j], sid)
  }

  lemma OnlySettlementsRelease(s: State, step: Step, sid: nat)
    requires Inv(s)
    ensures IsReleased(Next(s, step), sid) <==> IsReleased(s, sid) || Releases(s, step, sid)
  {
    hide Inv, Next;
    Payments.StepMarches(s, step);
    ReleasedStays(s, Next(s, step), sid);
    if step.SettleOne? {
      if step.sid < |s.supports| { SettlementWrites(s, step.sid, step.now); } else { NotEnabled(s, step); }
    } else if step.ResolveCall? {
      AnswerReleasesNothing(s, step, sid);
    } else {
      Payments.OthersLeave(s, step);
      if step.StartSupport? { OrderIsUnpaid(s, step); } else { Payments.OthersKeepCount(s, step); }
    }
  }

  lemma ReleasedStays(s: State, t: State, sid: nat)
    requires Inv(s) && Payments.AllMarch(s.supports, t.supports)
    ensures IsReleased(s, sid) ==> IsReleased(t, sid)
  {
    hide KeysBoundOnce, Closed, BooksMirror, BooksAgree, ControlsAgree, EarningsMirror, Audited, RewardsCounted,
         VotesCounted, EventsMirror, TalliesExact, CallsOk;
    if sid < |s.supports| {
      assert SupportOk(s.supports[sid], SizesOf(s)) && Payments.Marches(s.supports[sid], t.supports[sid]);
    }
  }

  lemma AnswerReleasesNothing(s: State, step: Step, sid: nat)
    requires Inv(s) && step.ResolveCall?
    ensures IsReleased(Next(s, step), sid) ==> IsReleased(s, sid)
  {
    hide Inv, Next, Captured, PerksGiven, EventsQueued, StillPending, Unavailable, Owned;
    if Enabled(s, step) {
      var c, paid := step.call, s.calls[step.call].sid;
      match step.verdict
      case WrongDetails => UselessAnswer(s, c, paid, WrongDetails, step.paidAt, step.holdDays);
      case Unreachable => UselessAnswer(s, c, paid, Unreachable, step.paidAt, step.holdDays);
      case Unsuccessful => FailureAnswer(s, c, paid, step.paidAt, step.holdDays);
      case Success =>
        SuccessReply(s, c, paid, step.paidAt, step.holdDays);
        if Confirms(s, step, paid) { ConfirmationWrites(s, step, paid); }
    } else {
      NotEnabled(s, step);
    }
  }

  /** Step j comes no earlier than the hold that the confirmed payment of `sid` started. */
  ghost predicate HoldIsOver(run: seq<Step>, j: int, sid: nat) {
    0 <= j < |run| && run[j].SettleOne? &&
    exists k :: 0 <= k < j && ConfirmedBy(run, k, sid) && run[k].ResolveCall? &&
      run[j].now >= run[k].paidAt + run[k].holdDays * 86400000
  }

  /** After every run, the money of a support is released iff some settlement of the run released it, and
      that settlement came no earlier than the creator's hold days after the confirmed payment. */
  lemma ReleasedAfterHold(run: seq<Step>, sid: nat)
    ensures IsReleased(After(EMPTY, run), sid) <==> exists j :: ReleasedBy(run, j, sid)
    ensures forall j :: ReleasedBy(run, j, sid) ==> HoldIsOver(run, j, sid)
  {
    hide Inv, After, Next, Confirms, Releases, HoldIsOver;
    ReleasedIffSettled(run, sid);
    forall j | ReleasedBy(run, j, sid) ensures HoldIsOver(run, j, sid) { HeldUntil(run, j, sid); }
  }

  lemma {:induction false} ReleasedIffSettled(run: seq<Step>, sid: nat)
    ensures IsReleased(After(EMPTY, run), sid) <==> exists j :: ReleasedBy(run, j, sid)
  {
    hide Inv, Next, Releases;
    if |run| > 0 {
      var n := |run| - 1;
      ReleasedIffSettled(run[..n], sid);
      Safety.ReachableIsSafe(run[..n]);
      OnlySettlementsRelease(After(EMPTY, run[..n]), run[n], sid);
      ReleasedEarlier(run, sid);
      if j :| ReleasedBy(run[..n], j, sid) { assert ReleasedBy(run, j, sid); }
    }
  }

  lemma ReleasedEarlier(run: seq<Step>, sid: nat)
    requires |run| > 0
    ensures forall j :: 0 <= j < |run| - 1 ==> (ReleasedBy(run, j, sid) <==> ReleasedBy(run[..|run| - 1], j, sid))
    ensures ReleasedBy(run, |run| - 1, sid) <==> Releases(After(EMPTY, run[..|run| - 1]), run[|run| - 1], sid)
  {
    hide Releases, After;
    forall j | 0 <= j < |run| - 1 ensures ReleasedBy(run, j, sid) <==> ReleasedBy(run[..|run| - 1], j, sid) {
      assert run[..|run| - 1][..j] == run[..j];
    }
  }

  lemma HeldUntil(run: seq<Step>, j: int, sid: nat)
    requires ReleasedBy(run, j, sid)
    ensures HoldIsOver(run, j, sid)
  {
    hide Inv, After, Next, Confirms;
    var before := run[..j];
    var s := After(EMPTY, before);
    Safety.ReachableIsSafe(before);
    ReleaseIsDue(s, run[j], sid);
    AppliedIffConfirmed(before, sid);
    var k :| ConfirmedBy(before, k, sid);
    HoldIsKept(before, k, sid);
    assert before[..k] == run[..k];
    assert ConfirmedBy(run, k, sid) && s == After(EMPTY, run[..j]) && run[k] == before[k];
    ConfirmsKnown(After(EMPTY, run[..k]), run[k], sid);
  }

  lemma ReleaseIsDue(s: State, step: Step, sid: nat)
    requires Inv(s) && Releases(s, step, sid)
    ensures IsApplied(s, sid) && s.supports[sid].availableAt.Some? && s.supports[sid].availableAt.value <= step.now
  {
    hide KeysBoundOnce, Closed, BooksMirror, BooksAgree, ControlsAgree, EarningsMirror, Audited, RewardsCounted,
         VotesCounted, EventsMirror, TalliesExact, CallsOk, Next;
    if sid < |s.supports| {
      assert SupportOk(s.supports[sid], SizesOf(s));
      SettlementWrites(s, sid, step.now);
    } else {
      NotEnabled(s, step);
    }
  }
}
