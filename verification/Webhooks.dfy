/** Webhooks over whole runs: which calls the event table admits, and what a failed first call does. */
module Webhooks {
  import opened Tables
  import opened Sums
  import opened ClosedForms
  import opened Postings
  import opened Invariants
  import opened Engine
  import opened Steps
  import PaymentProofs
  import Safety
  import Payments

  // --- who is admitted ---------------------------------------------------------------------------

  /** A webhook call for `ref` that ended without throwing writes the processed mark. */
  predicate Closes(s: State, step: Step, ref: nat) {
    step.CloseCall? && Enabled(s, step) && s.calls[step.call].sid == ref && !s.calls[step.call].phase.reply.Raised?
  }

  /** Some step of the run closes the event of `ref`. */
  predicate EverClosed(run: seq<Step>, ref: nat) {
    |run| > 0 &&
    (EverClosed(run[..|run| - 1], ref) || Closes(After(EMPTY, run[..|run| - 1]), run[|run| - 1], ref))
  }

  /** The steps that have nothing to do with calls. */
  predicate Elsewhere(step: Step) { !step.OpenCall? && !step.LoadCall? && !step.ResolveCall? && !step.CloseCall? }

  lemma ElsewhereKeeps(s: State, step: Step)
    requires Elsewhere(step)
    ensures Next(s, step).webhooks == s.webhooks && Next(s, step).calls == s.calls
  {
    hide Moved, EntriesOf, Work, Bump, NewSupport, LatestAudit, FindByKey;
  }

  /** A call keeps its origin and reference, and a finished one its reply; only opening adds a call. */
  ghost predicate CallsAdvance(calls: seq<Call>, calls': seq<Call>) {
    |calls| <= |calls'| &&
    forall c :: 0 <= c < |calls| ==>
      calls'[c].origin == calls[c].origin && calls'[c].sid == calls[c].sid &&
      (calls[c].phase.Finished? ==> calls'[c] == calls[c])
  }

  lemma ResolveMoves(s: State, step: Step)
    requires step.ResolveCall? && Enabled(s, step)
    ensures Next(s, step).webhooks == s.webhooks && CallsAdvance(s.calls, Next(s, step).calls)
  {
    hide ApplyPayment;
    PaymentProofs.ApplyFrame(s, s.calls[step.call].sid, s.calls[step.call].phase.snapshot, step.paidAt, step.holdDays);
  }

  /** Only opening and closing touch the event table. */
  lemma StepMarks(s: State, step: Step, ref: nat)
    requires Inv(s)
    ensures var t := Next(s, step);
      (ref in t.webhooks <==> ref in s.webhooks || step == OpenCall(Webhook, ref)) &&
      (ref in t.webhooks && t.webhooks[ref] <==> (ref in s.webhooks && s.webhooks[ref]) || Closes(s, step, ref))
  {
    hide Inv, Next;
    if Elsewhere(step) {
      ElsewhereKeeps(s, step);
    } else if step.ResolveCall? {
      if Enabled(s, step) { ResolveMoves(s, step); } else { NotEnabled(s, step); }
    } else {
      CallStepMarks(s, step, ref);
    }
  }

  lemma CallStepMarks(s: State, step: Step, ref: nat)
    requires Inv(s) && (step.OpenCall? || step.LoadCall? || step.CloseCall?)
    ensures var t := Next(s, step);
      (ref in t.webhooks <==> ref in s.webhooks || step == OpenCall(Webhook, ref)) &&
      (ref in t.webhooks && t.webhooks[ref] <==> (ref in s.webhooks && s.webhooks[ref]) || Closes(s, step, ref))
  {
    hide RowsOk, KeysBoundOnce, Closed, BooksMirror, BooksAgree, ControlsAgree, EarningsMirror, Audited, RewardsCounted,
         VotesCounted, EventsMirror, TalliesExact, SnapshotOk, Sum;
    if step.CloseCall? && Enabled(s, step) {
      assert s.calls[step.call].sid in s.webhooks;
    }
  }

  lemma StepCalls(s: State, step: Step)
    ensures CallsAdvance(s.calls, Next(s, step).calls)
  {
    if Elsewhere(step) {
      ElsewhereKeeps(s, step);
    } else if step.ResolveCall? {
      if Enabled(s, step) { ResolveMoves(s, step); } else { NotEnabled(s, step); }
    } else {
      CallStepMoves(s, step);
    }
    hide Next;
  }

  lemma CallStepMoves(s: State, step: Step)
    requires step.OpenCall? || step.LoadCall? || step.CloseCall?
    ensures CallsAdvance(s.calls, Next(s, step).calls)
  {
  }

  lemma {:induction false} Marks(run: seq<Step>, ref: nat)
    ensures var s := After(EMPTY, run);
      (ref in s.webhooks <==> OpenCall(Webhook, ref) in run) &&
      (ref in s.webhooks && s.webhooks[ref] <==> EverClosed(run, ref))
  {
    hide Next, Closes, Inv;
    if |run| > 0 {
      var n := |run| - 1;
      Marks(run[..n], ref);
      Safety.ReachableIsSafe(run[..n]);
      StepMarks(After(EMPTY, run[..n]), run[n], ref);
      assert run == run[..n] + [run[n]];
    }
  }

  /** A webhook for `ref` is admitted iff it is the first one, answered as a duplicate iff the first one
      ended without throwing and its event was closed, and refused by the unique key iff neither. */
  lemma AdmissionIff(run: seq<Step>, ref: nat)
    ensures var answer := Open(After(EMPTY, run), Webhook, ref).1;
      (answer == Admitted <==> OpenCall(Webhook, ref) !in run) &&
      (answer == AlreadyProcessed <==> EverClosed(run, ref)) &&
      (answer == Refused(UniqueViolation) <==> OpenCall(Webhook, ref) in run && !EverClosed(run, ref))
  {
    hide Next, After, EverClosed;
    Marks(run, ref);
  }

  // --- a first webhook that throws -----------------------------------------------------------------

  /** The webhook call `c` ended in an error, and its event is not processed. */
  predicate Stuck(s: State, c: nat) {
    c < |s.calls| && s.calls[c].origin.Webhook? && s.calls[c].phase.Finished? && s.calls[c].phase.reply.Raised? &&
    s.calls[c].sid in s.webhooks && !s.webhooks[s.calls[c].sid]
  }

  /** There is one webhook call per reference. */
  lemma OnlyWebhookOf(s: State, c: nat)
    requires Inv(s) && c < |s.calls| && s.calls[c].origin.Webhook?
    ensures forall d :: 0 <= d < |s.calls| && s.calls[d].origin.Webhook? && s.calls[d].sid == s.calls[c].sid ==> d == c
  {
    hide RowsOk, KeysBoundOnce, Closed, BooksMirror, BooksAgree, ControlsAgree, EarningsMirror, Audited, RewardsCounted,
         VotesCounted, EventsMirror, TalliesExact, SnapshotOk, Sum;
    var ref := s.calls[c].sid;
    forall d: nat | d < |s.calls| && s.calls[d].origin.Webhook? && s.calls[d].sid == ref ensures d == c {
      if d < c { SumOfPair(s.calls, WebhookFor(ref), d, c); }
      if c < d { SumOfPair(s.calls, WebhookFor(ref), c, d); }
    }
  }

  lemma StepStuck(s: State, step: Step, c: nat)
    requires Inv(s) && Stuck(s, c)
    ensures Stuck(Next(s, step), c) && Next(s, step).calls[c] == s.calls[c]
  {
    hide Inv, Next;
    StepCalls(s, step);
    StepMarks(s, step, s.calls[c].sid);
    OnlyWebhookOf(s, c);
  }

  /** Once the first webhook for a reference has thrown, it stays so in every later run: every further
      webhook is refused, and if the payment is confirmed to anybody, it is to a verify call. */
  lemma {:induction false} StuckForever(s: State, run: seq<Step>, c: nat)
    requires Inv(s) && Stuck(s, c)
    ensures var t := After(s, run);
      Stuck(t, c) && t.calls[c] == s.calls[c] && Open(t, Webhook, s.calls[c].sid) == (t, Refused(UniqueViolation)) &&
      forall d :: 0 <= d < |t.calls| && t.calls[d].sid == s.calls[c].sid && t.calls[d].phase == Finished(Confirmed) ==>
        t.calls[d].origin == Verify
  {
    hide Inv, Next;
    if |run| > 0 {
      var n := |run| - 1;
      StuckForever(s, run[..n], c);
      Safety.RunKeeps(s, run[..n]);
      StepStuck(After(s, run[..n]), run[n], c);
    }
    Safety.RunKeeps(s, run);
    OnlyWebhookOf(After(s, run), c);
  }

  /** The provider cannot be reached when the first webhook asks it. */
  function UnluckyRun(): seq<Step> {
    [ Register, StartSupport(Payments.ORDER), OpenCall(Webhook, 0), LoadCall(0), ResolveCall(0, Unreachable, 5, 7), CloseCall(0) ]
  }

  const ASKED := Payments.ORDERED.(webhooks := map[0 := false], calls := [Call(Webhook, 0, Holding(Payments.NEW_SUPPORT))])
  const RAISED := ASKED.(calls := [Call(Webhook, 0, Finished(Raised(ProviderDown)))])

  lemma UnluckySteps()
    ensures Next(Next(Payments.ORDERED, OpenCall(Webhook, 0)), LoadCall(0)) == ASKED
    ensures Next(Next(ASKED, ResolveCall(0, Unreachable, 5, 7)), CloseCall(0)) == RAISED
  {
    assert Next(Payments.ORDERED, OpenCall(Webhook, 0))
        == Payments.ORDERED.(webhooks := map[0 := false], calls := [Call(Webhook, 0, Started)]);
    assert Next(ASKED, ResolveCall(0, Unreachable, 5, 7)) == RAISED;
  }

  /** A first webhook does get stuck, in a run of six steps. */
  lemma StuckIsReachable()
    ensures After(EMPTY, UnluckyRun()) == RAISED && Stuck(RAISED, 0)
    ensures Open(After(EMPTY, UnluckyRun()), Webhook, 0).1 == Refused(UniqueViolation)
  {
    hide Next;
    var r := UnluckyRun();
    AfterTakes(EMPTY, r, 1);
    AfterTakes(EMPTY, r, 2);
    Payments.OrderPlaced();
    AfterTakes(EMPTY, r, 3);
    AfterTakes(EMPTY, r, 4);
    AfterTakes(EMPTY, r, 5);
    AfterTakes(EMPTY, r, 6);
    UnluckySteps();
    assert r[..6] == r;
  }
}
