/** The outbox lease: a claim lasts five minutes, and each run of the processor fixes once which
    claims it considers stale. Who holds an event, and how often it is delivered, event by event. */
module Lease {
  import opened Tables
  import opened Engine
  import opened Steps
  import OutboxProofs

  predicate Owns(box: Outbox, w: int, i: nat) {
    0 <= w < |box.workers| && box.workers[w].holding.Some? && box.workers[w].holding.value.event == i
  }

  predicate HoldOk(box: Outbox, hold: Hold) {
    hold.event < |box.events| && box.events[hold.event].processedAt.None? &&
    box.events[hold.event].startedAt == Some(hold.since) && hold.since <= box.clock
  }

  /** At most one worker holds event `i`, and the row carries its claim. */
  ghost predicate OwnedOnce(box: Outbox, i: nat) {
    (forall w :: Owns(box, w, i) ==> HoldOk(box, box.workers[w].holding.value)) &&
    (forall v, w :: Owns(box, v, i) && Owns(box, w, i) ==> v == w)
  }

  /** Telegram accepted event `i` at most once, and if it did, the event is done or its holder is about
      to record the answer. */
  ghost predicate Tidy(box: Outbox, i: nat) {
    i < |box.events| ==>
      box.events[i].deliveries <= 1 &&
      (forall w :: Owns(box, w, i) && box.workers[w].holding.value.stage == Sent(true) ==> box.events[i].deliveries == 1) &&
      (box.events[i].processedAt.None? && box.events[i].deliveries == 1 ==>
        exists w :: Owns(box, w, i) && box.workers[w].holding.value.stage == Sent(true))
  }

  // --- the two steps that do harm ----------------------------------------------------------------

  /** A claim of event `i` while another worker holds a claim that the claimant considers stale. */
  predicate Steals(box: Outbox, step: WorkStep, i: nat) {
    step.Claim? && step.event == i && step.worker < |box.workers| &&
    exists v :: 0 <= v < |box.workers| && Owns(box, v, i) && box.workers[v].holding.value.since < box.workers[step.worker].staleBefore
  }

  /** Giving event `i` up after Telegram accepted it: the catch block after a failed update. */
  predicate Forgets(box: Outbox, step: WorkStep, i: nat) {
    step.GiveUp? && Owns(box, step.worker, i) && box.workers[step.worker].holding.value.stage == Sent(true)
  }

  /** A catch block, after a claim that threw, takes the mark off event `i` while another worker holds it. */
  predicate Frees(box: Outbox, step: WorkStep, i: nat) {
    step.Reset? && step.event == i && exists v :: 0 <= v < |box.workers| && Owns(box, v, i)
  }

  predicate Disturbs(box: Outbox, step: WorkStep, i: nat) { Steals(box, step, i) || Frees(box, step, i) }

  /** Exactly the stealing claims and the freeing resets take an event from its one holder: the former
      give it a second holder at once, the latter let anyone claim it. */
  lemma OwnershipIff(box: Outbox, step: WorkStep, i: nat)
    requires OwnedOnce(box, i) && CanWork(box, step)
    ensures OwnedOnce(Work(box, step), i) <==> !Disturbs(box, step, i)
  {
    var t := Work(box, step);
    match step
    case Claim(w, e) =>
      if e == i { ClaimIff(box, w, i); } else { OtherWorker(box, t, w, i); }
    case Tick(_) => SameOwners(box, t, i);
    case Begin => SameOwners(box, t, i);
    case Query(_) => SameOwners(box, t, i);
    case Inspect(w) => LastTouch(box, t, w, i);
    case Send(w, _) => LastTouch(box, t, w, i);
    case Conclude(w) => LastTouch(box, t, w, i);
    case Project(w) => LastTouch(box, t, w, i);
    case GiveUp(w) => LastTouch(box, t, w, i);
    case Reset(_, e) => ResetIff(box, step.worker, e, i);
  }

  lemma ResetIff(box: Outbox, w: nat, e: nat, i: nat)
    requires OwnedOnce(box, i) && CanWork(box, Reset(w, e))
    ensures OwnedOnce(Work(box, Reset(w, e)), i) <==> !Frees(box, Reset(w, e), i)
  {
    var t := Work(box, Reset(w, e));
    if v :| Owns(box, v, i) {
      assert Owns(t, v, i) && HoldOk(box, box.workers[v].holding.value);
      forall u | Owns(t, u, i) ensures u == v { assert Owns(box, u, i); }
    } else {
      forall u ensures !Owns(t, u, i) { assert !Owns(box, u, i); }
    }
  }

  /** Nobody's claim changed, and time did not run backwards. */
  lemma SameOwners(box: Outbox, t: Outbox, i: nat)
    requires OwnedOnce(box, i) && t.events == box.events && t.clock >= box.clock
    requires forall w :: Owns(t, w, i) ==> w < |box.workers| && t.workers[w].holding == box.workers[w].holding
    ensures OwnedOnce(t, i)
  {
    forall w | Owns(t, w, i) ensures HoldOk(t, t.workers[w].holding.value) && Owns(box, w, i) {
      assert Owns(box, w, i);
    }
  }

  /** Worker `w` turned to another event. */
  lemma OtherWorker(box: Outbox, t: Outbox, w: nat, i: nat)
    requires OwnedOnce(box, i) && |t.events| == |box.events| && t.clock == box.clock
    requires i < |box.events| ==> t.events[i] == box.events[i]
    requires forall v :: Owns(t, v, i) ==> v < |box.workers| && v != w && t.workers[v] == box.workers[v]
    ensures OwnedOnce(t, i)
  {
    forall v | Owns(t, v, i) ensures HoldOk(t, t.workers[v].holding.value) && Owns(box, v, i) {
      assert Owns(box, v, i);
    }
  }

  /** Worker `w` did something about what it holds: it keeps the claim and the row keeps its mark, or it
      lets go. */
  lemma LastTouch(box: Outbox, t: Outbox, w: nat, i: nat)
    requires OwnedOnce(box, i) && |t.events| == |box.events| && t.clock == box.clock
    requires w < |box.workers| && box.workers[w].holding.Some?
    requires |t.workers| == |box.workers| && t.workers == box.workers[w := t.workers[w]]
    requires t.workers[w].holding.Some? ==>
      t.workers[w].holding.value.event == box.workers[w].holding.value.event &&
      t.workers[w].holding.value.since == box.workers[w].holding.value.since
    requires forall e :: 0 <= e < |box.events| && e != box.workers[w].holding.value.event ==> t.events[e] == box.events[e]
    requires var e := box.workers[w].holding.value.event;
      t.workers[w].holding.Some? && e < |box.events| ==>
        t.events[e].processedAt == box.events[e].processedAt && t.events[e].startedAt == box.events[e].startedAt
    ensures OwnedOnce(t, i)
  {
    forall v | Owns(t, v, i) ensures HoldOk(t, t.workers[v].holding.value) && Owns(box, v, i) {
      assert Owns(box, v, i);
      if Owns(box, w, i) { assert v == w; }
    }
  }

  lemma ClaimIff(box: Outbox, w: nat, i: nat)
    requires OwnedOnce(box, i) && CanWork(box, Claim(w, i))
    ensures OwnedOnce(Work(box, Claim(w, i)), i) <==> !Steals(box, Claim(w, i), i)
  {
    var t := Work(box, Claim(w, i));
    if v :| Owns(box, v, i) {
      assert HoldOk(box, box.workers[v].holding.value);
      if Steals(box, Claim(w, i), i) {
        assert Owns(t, v, i) && Owns(t, w, i);
      } else {
        SameOwners(box, t, i);
      }
    } else {
      forall v | Owns(t, v, i) ensures v == w {
        assert !Owns(box, v, i);
      }
    }
  }

  /** As long as an event has one holder, exactly giving it up after an accepted send leaves it open
      for a second delivery. */
  lemma DeliveryIff(box: Outbox, step: WorkStep, i: nat)
    requires OwnedOnce(box, i) && Tidy(box, i) && CanWork(box, step) && !Disturbs(box, step, i)
    ensures Tidy(Work(box, step), i) <==> !Forgets(box, step, i)
  {
    if i < |box.events| {
      if v :| Owns(box, v, i) {
        OwnerDelivers(box, step, i, v);
      } else {
        assert box.events[i].processedAt.None? ==> box.events[i].deliveries == 0;
        FreeDelivers(box, step, i);
      }
    }
  }

  lemma FreeDelivers(box: Outbox, step: WorkStep, i: nat)
    requires Tidy(box, i) && CanWork(box, step) && i < |box.events|
    requires forall v :: !Owns(box, v, i)
    ensures Tidy(Work(box, step), i) && !Forgets(box, step, i)
  {
    var t := Work(box, step);
    assert t.events[i].deliveries == box.events[i].deliveries && t.events[i].processedAt == box.events[i].processedAt by {
      if step.Inspect? || step.Send? || step.Conclude? || step.Project? || step.GiveUp? {
        assert !Owns(box, step.worker, i);
      }
    }
    forall w | Owns(t, w, i) ensures t.workers[w].holding.value.stage == Fresh {
      assert !Owns(box, w, i);
    }
  }

  lemma OwnerDelivers(box: Outbox, step: WorkStep, i: nat, v: nat)
    requires OwnedOnce(box, i) && Tidy(box, i) && CanWork(box, step) && !Disturbs(box, step, i)
    requires i < |box.events| && Owns(box, v, i)
    ensures Tidy(Work(box, step), i) <==> !Forgets(box, step, i)
  {
    var t := Work(box, step);
    assert HoldOk(box, box.workers[v].holding.value);
    if (step.Inspect? || step.Send? || step.Conclude? || step.Project? || step.GiveUp?) && step.worker == v {
      assert forall w :: Owns(t, w, i) ==> w == v by {
        forall w | Owns(t, w, i) ensures w == v { assert w != v ==> Owns(box, w, i); }
      }
      assert Owns(t, v, i) <==> step.Inspect? || step.Send?;
    } else {
      if step.Inspect? || step.Send? || step.Conclude? || step.Project? || step.GiveUp? {
        assert !Owns(box, step.worker, i);
      }
      assert t.events[i] == box.events[i] && Owns(t, v, i) && t.workers[v] == box.workers[v];
      forall w | Owns(t, w, i) ensures w == v { assert w != v ==> Owns(box, w, i); }
    }
  }

  // --- runs --------------------------------------------------------------------------------------

  predicate DisturbsAt(s: State, step: Step, i: nat) { step.Outboxing? && Enabled(s, step) && Disturbs(s.outbox, step.work, i) }
  predicate ForgetsAt(s: State, step: Step, i: nat) { step.Outboxing? && Enabled(s, step) && Forgets(s.outbox, step.work, i) }

  lemma EnqueueChangesNothing(box: Outbox, sid: nat, i: nat)
    requires OwnedOnce(box, i)
    ensures OwnedOnce(Enqueued(box, sid), i)
    ensures Tidy(box, i) ==> Tidy(Enqueued(box, sid), i)
  {
    var t := Enqueued(box, sid);
    forall w | Owns(t, w, i) ensures Owns(box, w, i) && HoldOk(t, t.workers[w].holding.value) {
      assert Owns(box, w, i) && HoldOk(box, box.workers[w].holding.value);
    }
    assert forall w :: Owns(box, w, i) ==> Owns(t, w, i);
  }

  lemma StepOwnership(s: State, step: Step, i: nat)
    requires OwnedOnce(s.outbox, i)
    ensures OwnedOnce(Next(s, step).outbox, i) <==> !DisturbsAt(s, step, i)
    ensures Tidy(s.outbox, i) && !DisturbsAt(s, step, i) ==> (Tidy(Next(s, step).outbox, i) <==> !ForgetsAt(s, step, i))
  {
    hide OwnedOnce, Tidy, Disturbs, Forgets, Work, Enqueued;
    if step.Outboxing? {
      if Enabled(s, step) {
        OwnershipIff(s.outbox, step.work, i);
        if Tidy(s.outbox, i) && !Disturbs(s.outbox, step.work, i) { DeliveryIff(s.outbox, step.work, i); }
      }
    } else {
      OutboxProofs.OthersEnqueue(s, step);
      if Next(s, step).outbox != s.outbox {
        var sid: nat :| Next(s, step).outbox == Enqueued(s.outbox, sid);
        EnqueueChangesNothing(s.outbox, sid, i);
      }
    }
  }

  /** No step of the run steals event `i` or frees it under its holder. */
  predicate NeverDisturbed(run: seq<Step>, i: nat) {
    |run| > 0 ==>
      NeverDisturbed(run[..|run| - 1], i) && !DisturbsAt(After(EMPTY, run[..|run| - 1]), run[|run| - 1], i)
  }

  /** No worker of the run gives event `i` up after Telegram accepted it. */
  predicate NeverForgotten(run: seq<Step>, i: nat) {
    |run| > 0 ==>
      NeverForgotten(run[..|run| - 1], i) && !ForgetsAt(After(EMPTY, run[..|run| - 1]), run[|run| - 1], i)
  }

  /** At every point of the run event `i` has at most one holder. */
  ghost predicate AlwaysOwnedOnce(run: seq<Step>, i: nat) {
    OwnedOnce(After(EMPTY, run).outbox, i) && (|run| > 0 ==> AlwaysOwnedOnce(run[..|run| - 1], i))
  }

  /** At every point of the run event `i` was accepted at most once and is not open for another send. */
  ghost predicate AlwaysTidy(run: seq<Step>, i: nat) {
    Tidy(After(EMPTY, run).outbox, i) && (|run| > 0 ==> AlwaysTidy(run[..|run| - 1], i))
  }

  /** An event has at most one holder throughout a run, with any number of overlapping processor runs,
      iff no step of the run steals it or frees it under its holder. */
  lemma {:induction false} OneHolderIff(run: seq<Step>, i: nat)
    ensures AlwaysOwnedOnce(run, i) <==> NeverDisturbed(run, i)
  {
    hide Next, OwnedOnce, DisturbsAt;
    if |run| == 0 {
      NobodyYet(i);
    } else {
      var n := |run| - 1;
      OneHolderIff(run[..n], i);
      if AlwaysOwnedOnce(run[..n], i) {
        StepOwnership(After(EMPTY, run[..n]), run[n], i);
      }
    }
  }

  /** And it is moreover accepted by Telegram at most once, and never open for a second send, iff in
      addition no worker of the run gives it up between an accepted send and the update that records it. */
  lemma {:induction false} DeliveredOnceIff(run: seq<Step>, i: nat)
    ensures AlwaysOwnedOnce(run, i) && AlwaysTidy(run, i) <==> NeverDisturbed(run, i) && NeverForgotten(run, i)
  {
    hide Next, OwnedOnce, Tidy, DisturbsAt, ForgetsAt;
    OneHolderIff(run, i);
    if |run| == 0 {
      NobodyYet(i);
    } else {
      var n := |run| - 1;
      DeliveredOnceIff(run[..n], i);
      if AlwaysOwnedOnce(run[..n], i) && AlwaysTidy(run[..n], i) {
        StepOwnership(After(EMPTY, run[..n]), run[n], i);
      }
    }
  }

  lemma NobodyYet(i: nat)
    ensures OwnedOnce(EMPTY.outbox, i) && Tidy(EMPTY.outbox, i)
  {
  }

  // --- five minutes are enough ---------------------------------------------------------------------

  /** Every claim in force is at most `window` milliseconds old. */
  ghost predicate Timely(box: Outbox, window: int) {
    forall w :: 0 <= w < |box.workers| && box.workers[w].holding.Some? ==>
      box.clock - box.workers[w].holding.value.since <= window
  }

  /** Before every step of the run every claim is at most `window` milliseconds old. */
  ghost predicate AlwaysTimely(run: seq<Step>, window: int) {
    |run| > 0 ==> AlwaysTimely(run[..|run| - 1], window) && Timely(After(EMPTY, run[..|run| - 1]).outbox, window)
  }

  /** A run's stale bound lies at least five minutes back, however long the run takes. */
  ghost predicate BoundsOld(box: Outbox) {
    forall w :: 0 <= w < |box.workers| ==> box.workers[w].staleBefore <= box.clock - 300000
  }

  lemma {:induction false} BoundsAreOld(run: seq<Step>)
    ensures BoundsOld(After(EMPTY, run).outbox)
  {
    hide Next, Work, Enqueued, WorkOn;
    if |run| > 0 {
      var s, step := After(EMPTY, run[..|run| - 1]), run[|run| - 1];
      BoundsAreOld(run[..|run| - 1]);
      if step.Outboxing? && Enabled(s, step) {
        WorkKeepsBounds(s.outbox, step.work);
        OutboxProofs.WorkFrame(s, step.work);
        StepWorks(s, step.work);
      } else {
        NotWorking(s, step);
      }
    }
  }

  lemma StepWorks(s: State, work: WorkStep)
    requires CanWork(s.outbox, work)
    ensures Next(s, Outboxing(work)).outbox == Work(s.outbox, work)
  {
  }

  lemma NotWorking(s: State, step: Step)
    requires step.Outboxing? ==> !Enabled(s, step)
    ensures Next(s, step).outbox.clock == s.outbox.clock && Next(s, step).outbox.workers == s.outbox.workers
  {
    hide Enqueued;
    OutboxProofs.OthersEnqueue(s, step);
    if !step.Outboxing? && Next(s, step).outbox != s.outbox {
      var sid: nat :| Next(s, step).outbox == Enqueued(s.outbox, sid);
      EnqueueFrame(s.outbox, sid);
    }
  }

  lemma EnqueueFrame(box: Outbox, sid: nat)
    ensures Enqueued(box, sid).clock == box.clock && Enqueued(box, sid).workers == box.workers
  {
  }

  lemma WorkKeepsBounds(box: Outbox, step: WorkStep)
    requires BoundsOld(box) && CanWork(box, step)
    ensures BoundsOld(Work(box, step))
  {
  }

  predicate FreesAt(s: State, step: Step, i: nat) { step.Outboxing? && Enabled(s, step) && Frees(s.outbox, step.work, i) }

  /** No claim that throws takes the mark off event `i` under its holder. */
  predicate NeverFreed(run: seq<Step>, i: nat) {
    |run| > 0 ==>
      NeverFreed(run[..|run| - 1], i) && !FreesAt(After(EMPTY, run[..|run| - 1]), run[|run| - 1], i)
  }

  /** If no claim ever outlives five minutes (300,000 milliseconds) before its worker finishes or gives up, no claim is stolen:
      every event has at most one holder at any time of any run, unless a claim that throws frees it. */
  lemma {:induction false} OneHolderAtATime(run: seq<Step>, i: nat)
    requires AlwaysTimely(run, 300000)
    ensures NeverDisturbed(run, i) <==> NeverFreed(run, i)
    ensures AlwaysOwnedOnce(run, i) <==> NeverFreed(run, i)
  {
    hide Next, OwnedOnce;
    OneHolderIff(run, i);
    if |run| > 0 {
      OneHolderAtATime(run[..|run| - 1], i);
      BoundsAreOld(run[..|run| - 1]);
    }
  }
}
