/** What the steps of the outbox workers write: who gets an event, who finishes it, and who lets it go. */
module OutboxSteps {
  import opened Tables
  import opened Engine
  import opened Lease

  /** The step is a claim of event `i` that succeeds: the event is not processed, and it carries no claim or
      one from before the bound that the worker fixed when its run began. */
  predicate Gets(box: Outbox, step: WorkStep, i: nat) {
    step.Claim? && step.event == i && step.worker < |box.workers| && i < |box.events| && box.events[i].processedAt.None? &&
    (box.events[i].startedAt.None? || box.events[i].startedAt.value < box.workers[step.worker].staleBefore)
  }

  /** The step finishes event `i`: a notification that is recorded, or a projection of an unprocessed event. */
  predicate Finishes(box: Outbox, step: WorkStep, i: nat) {
    (step.Conclude? && Owns(box, step.worker, i)) ||
    (step.Project? && Owns(box, step.worker, i) && i < |box.events| && box.events[i].processedAt.None?)
  }

  /** The step is a catch block at work on event `i`. */
  predicate LetsGo(box: Outbox, step: WorkStep, i: nat) {
    (step.GiveUp? && Owns(box, step.worker, i)) || (step.Reset? && step.event == i)
  }

  /** Each column of an event changes at exactly these steps, and to exactly these values. */
  lemma ColumnsChangeIff(box: Outbox, step: WorkStep, i: nat)
    requires CanWork(box, step) && i < |box.events|
    ensures var t := Work(box, step);
      |t.events| == |box.events| && t.events[i].sid == box.events[i].sid && t.events[i].kind == box.events[i].kind &&
      t.events[i].deliveries == box.events[i].deliveries +
        (if step.Send? && step.accepted && Owns(box, step.worker, i) then 1 else 0) &&
      t.events[i].processedAt == (if Finishes(box, step, i) then Some(box.clock) else box.events[i].processedAt) &&
      t.events[i].startedAt ==
        (if Gets(box, step, i) then Some(box.clock)
         else if Finishes(box, step, i) || LetsGo(box, step, i) then None else box.events[i].startedAt)
  {
  }

  /** And so does what a worker holds. A worker that re-reads a processed event lets go of it. */
  lemma HoldsChangeIff(box: Outbox, step: WorkStep, w: nat, i: nat)
    requires CanWork(box, step) && w < |box.workers| && i < |box.events|
    ensures var t := Work(box, step); var acts := !step.Tick? && !step.Begin? && step.worker == w;
      w < |t.workers| && t.workers[w].staleBefore == box.workers[w].staleBefore &&
      (acts && Gets(box, step, i) ==> t.workers[w].holding == Some(Hold(i, box.clock, Fresh))) &&
      (acts && step.Claim? && step.event == i && !Gets(box, step, i) ==> t.workers[w].holding.None?) &&
      (acts && Owns(box, w, i) ==>
        t.workers[w].holding ==
          if step.Send? then Some(box.workers[w].holding.value.(stage := Sent(step.accepted)))
          else if step.Inspect? && box.events[i].processedAt.None? then Some(box.workers[w].holding.value.(stage := Inspected))
          else None) &&
      (!acts ==> t.workers[w] == box.workers[w])
  {
  }

  /** A new run of the processor reads the oldest events, at most fifty, that are neither processed nor
      claimed within the last 300,000 milliseconds; and reading changes no event. */
  lemma FreshRunReads(box: Outbox)
    ensures CanWork(box, Begin) && CanWork(Work(box, Begin), Query(|box.workers|))
    ensures var t := Work(Work(box, Begin), Query(|box.workers|));
      t.events == box.events && t.clock == box.clock && |t.workers| == |box.workers| + 1 &&
      var worker := t.workers[|box.workers|];
      worker.staleBefore == box.clock - 300000 && worker.holding.None? && worker.todo.Some? &&
      var batch := worker.todo.value;
      |batch| <= 50 && (forall j, k :: 0 <= j < k < |batch| ==> batch[j] < batch[k]) &&
      (forall k :: 0 <= k < |batch| ==> batch[k] < |box.events| && Waits(box.events[batch[k]], box.clock)) &&
      (forall i :: 0 <= i < |box.events| && Waits(box.events[i], box.clock) && i !in batch ==>
        |batch| == 50 && forall k :: 0 <= k < |batch| ==> batch[k] < i)
  {
    hide WaitingEvents;
    var bound := box.clock - 300000;
    assert forall i :: 0 <= i < |box.events| ==> (Claimable(box.events[i], bound) <==> Waits(box.events[i], box.clock));
    assert Work(Work(box, Begin), Query(|box.workers|)).workers[|box.workers|].todo == Some(WaitingEvents(box.events, bound, 50));
  }

  predicate Waits(e: Event, now: int) { e.processedAt.None? && (e.startedAt.None? || e.startedAt.value < now - 300000) }
}
