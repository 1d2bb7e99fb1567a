/** What follows from a stolen or a forgotten claim: the same notification can go out twice. Both
    happen in runs from the empty database, one of them without any claim growing old. */
module Redelivery {
  import opened Tables
  import opened Engine
  import opened Steps
  import opened Lease
  import Payments
  import Postings

  // --- worker steps as runs ----------------------------------------------------------------------

  function Outboxed(steps: seq<WorkStep>): seq<Step> {
    seq(|steps|, k requires 0 <= k < |steps| => Outboxing(steps[k]))
  }

  /** The outbox after some worker steps; one that cannot be taken is skipped. */
  function WorkAll(box: Outbox, steps: seq<WorkStep>): Outbox
    decreases |steps|
  {
    if |steps| == 0 then box
    else WorkAll(if CanWork(box, steps[0]) then Work(box, steps[0]) else box, steps[1..])
  }

  lemma {:induction false} AfterWork(s: State, steps: seq<WorkStep>)
    ensures After(s, Outboxed(steps)).outbox == WorkAll(s.outbox, steps)
    decreases |steps|
  {
    hide Next, Work, CanWork;
    if |steps| > 0 {
      var rest := Outboxed(steps[1..]);
      assert Outboxed(steps) == [Outboxing(steps[0])] + rest;
      AfterConcat(s, [Outboxing(steps[0])], rest);
      AfterOne(s, Outboxing(steps[0]));
      OneWork(s, steps[0]);
      AfterWork(Next(s, Outboxing(steps[0])), steps[1..]);
    }
  }

  lemma OneWork(s: State, step: WorkStep)
    ensures Next(s, Outboxing(step)).outbox == if CanWork(s.outbox, step) then Work(s.outbox, step) else s.outbox
  {
    if CanWork(s.outbox, step) { StepWorks(s, step); }
  }

  lemma {:induction false} WorkConcat(box: Outbox, a: seq<WorkStep>, b: seq<WorkStep>)
    ensures WorkAll(box, a + b) == WorkAll(WorkAll(box, a), b)
    decreases |a|
  {
    hide Work, CanWork;
    if |a| == 0 {
      assert a + b == b;
    } else {
      assert (a + b)[1..] == a[1..] + b;
      WorkConcat(if CanWork(box, a[0]) then Work(box, a[0]) else box, a[1..], b);
    }
  }

  lemma WorkFirst(box: Outbox, step: WorkStep, rest: seq<WorkStep>)
    requires CanWork(box, step)
    ensures WorkAll(box, [step] + rest) == WorkAll(Work(box, step), rest)
  {
    hide Work, CanWork;
    assert ([step] + rest)[1..] == rest;
  }

  // --- sending -----------------------------------------------------------------------------------

  /** Worker `w` holds event `i`, an unprocessed Telegram event, and is at `stage` with it. */
  predicate HoldsAt(box: Outbox, w: nat, i: nat, stage: Stage) {
    i < |box.events| && box.events[i].kind == Telegram && box.events[i].processedAt.None? &&
    Owns(box, w, i) && box.workers[w].holding.value.stage == stage
  }

  /** The steps that make a holder send and be accepted, from whatever stage. */
  function SendSteps(w: nat, stage: Stage): seq<WorkStep> {
    match stage
    case Fresh => [Inspect(w), Send(w, true)]
    case Inspected => [Send(w, true)]
    case Sent(_) => []
  }

  /** A holder that has not sent yet can send, and nobody else's claim is in its way or touched. */
  lemma HolderSends(box: Outbox, w: nat, i: nat, stage: Stage)
    requires HoldsAt(box, w, i, stage) && !stage.Sent?
    ensures var t := WorkAll(box, SendSteps(w, stage));
      HoldsAt(t, w, i, Sent(true)) && |t.events| == |box.events| && t.clock == box.clock &&
      t.events[i] == Told(box.events[i], true) &&
      |t.workers| == |box.workers| && forall v :: 0 <= v < |box.workers| && v != w ==> t.workers[v] == box.workers[v]
  {
    if stage == Fresh {
      var t := Work(box, Inspect(w));
      assert WorkAll(box, [Inspect(w), Send(w, true)]) == WorkAll(t, [Send(w, true)]);
      assert WorkAll(t, [Send(w, true)]) == WorkAll(Work(t, Send(w, true)), []);
    } else {
      assert WorkAll(box, [Send(w, true)]) == WorkAll(Work(box, Send(w, true)), []);
    }
  }

  /** What the workers' steps towards event `i` leave alone: everything about the event but its claim, the
      clock, and the workers there were. */
  ghost predicate Undisturbed(box: Outbox, t: Outbox, i: nat) {
    |t.events| == |box.events| && t.clock == box.clock && i < |box.events| &&
    t.events[i].kind == box.events[i].kind && t.events[i].processedAt == box.events[i].processedAt &&
    t.events[i].deliveries == box.events[i].deliveries &&
    |box.workers| <= |t.workers| && forall v :: 0 <= v < |box.workers| ==> t.workers[v] == box.workers[v]
  }

  /** How many events before position `n` a new run would select. */
  function Ahead(events: seq<Event>, staleBefore: int, n: nat): nat
    requires n <= |events|
  {
    if n == 0 then 0 else Ahead(events, staleBefore, n - 1) + if Claimable(events[n - 1], staleBefore) then 1 else 0
  }

  lemma {:induction false} AheadDrops(events: seq<Event>, events': seq<Event>, staleBefore: int, n: nat, k: nat)
    requires n <= |events| == |events'| && k < |events|
    requires Claimable(events[k], staleBefore) && !Claimable(events'[k], staleBefore)
    requires forall j :: 0 <= j < |events| && j != k ==> events'[j] == events[j]
    ensures Ahead(events', staleBefore, n) == Ahead(events, staleBefore, n) - if k < n then 1 else 0
  {
    if n > 0 { AheadDrops(events, events', staleBefore, n - 1, k); }
  }

  lemma {:induction false} SomeAhead(events: seq<Event>, staleBefore: int, n: nat, k: nat)
    requires k < n <= |events| && Claimable(events[k], staleBefore)
    ensures Ahead(events, staleBefore, n) > 0
  {
    if k < n - 1 { SomeAhead(events, staleBefore, n - 1, k); }
  }

  /** A new run, up to its query: its batch begins with the oldest claimable event. */
  lemma RunBegins(box: Outbox, i: nat) returns (first: nat)
    requires i < |box.events| && Claimable(box.events[i], box.clock - STALE_CLAIM)
    ensures first <= i && Claimable(box.events[first], box.clock - STALE_CLAIM)
    ensures var w := |box.workers|;
      var t := WorkAll(box, [Begin, Query(w)]);
      t.events == box.events && Undisturbed(box, t, i) && |t.workers| == w + 1 && t.workers[w].holding == None &&
      IsDue(t, w, first) && t.workers[w].staleBefore == box.clock - STALE_CLAIM
  {
    hide WaitingEvents;
    var w := |box.workers|;
    var b := Work(box, Begin);
    var q := Work(b, Query(w));
    assert [Begin, Query(w)] == [Begin] + ([Query(w)] + []);
    WorkFirst(box, Begin, [Query(w)] + []);
    WorkFirst(b, Query(w), []);
    var batch := WaitingEvents(box.events, box.clock - STALE_CLAIM, OUTBOX_BATCH);
    if i in batch {
      var k :| 0 <= k < |batch| && batch[k] == i;
      assert batch[0] <= batch[k];
    }
    first := batch[0];
  }

  /** The steps that take an event off the queue, unsent if it is a notification. */
  function Discard(w: nat, k: nat, kind: EventKind): seq<WorkStep> {
    [Claim(w, k)] + if kind == Projection then [Project(w)] + [] else [Inspect(w)] + ([Send(w, false)] + ([Conclude(w)] + []))
  }

  lemma Discards(box: Outbox, w: nat, k: nat)
    requires IsDue(box, w, k) && Claimable(box.events[k], box.workers[w].staleBefore)
    ensures var t := WorkAll(box, Discard(w, k, box.events[k].kind));
      t.clock == box.clock && |t.events| == |box.events| && t.events[k].processedAt.Some? &&
      (forall j :: 0 <= j < |box.events| && j != k ==> t.events[j] == box.events[j]) &&
      |t.workers| == |box.workers| && forall v :: 0 <= v < |box.workers| && v != w ==> t.workers[v] == box.workers[v]
  {
    hide WorkAll;
    Nothing(box);
    var c := Work(box, Claim(w, k));
    if box.events[k].kind == Projection {
      WorkFirst(box, Claim(w, k), [Project(w)] + []);
      WorkFirst(c, Project(w), []);
      Nothing(Work(c, Project(w)));
    } else {
      var a := Work(c, Inspect(w));
      var b := Work(a, Send(w, false));
      WorkFirst(box, Claim(w, k), [Inspect(w)] + ([Send(w, false)] + ([Conclude(w)] + [])));
      WorkFirst(c, Inspect(w), [Send(w, false)] + ([Conclude(w)] + []));
      WorkFirst(a, Send(w, false), [Conclude(w)] + []);
      WorkFirst(b, Conclude(w), []);
      Nothing(Work(b, Conclude(w)));
    }
  }

  /** A free Telegram event is claimed sooner or later: each new processor run takes the oldest claimable
      event off the queue until it is the first of a batch. */
  lemma {:induction false} FreeIsClaimed(box: Outbox, i: nat) returns (w: nat, more: seq<WorkStep>)
    requires i < |box.events| && box.events[i].kind == Telegram
    requires box.events[i].processedAt.None? && box.events[i].startedAt.None?
    ensures var t := WorkAll(box, more); HoldsAt(t, w, i, Fresh) && Undisturbed(box, t, i) && w >= |box.workers|
    decreases Ahead(box.events, box.clock - STALE_CLAIM, i)
  {
    hide WorkAll, Work, IsDue;
    var n := |box.workers|;
    var first := RunBegins(box, i);
    var start := [Begin, Query(n)];
    var b := WorkAll(box, start);
    if first == i {
      w := n;
      OneClaim(b, w, i);
      more := start + [Claim(w, i)];
      WorkConcat(box, start, [Claim(w, i)]);
    } else {
      Discards(b, n, first);
      var handled := Discard(n, first, b.events[first].kind);
      var c := WorkAll(b, handled);
      AheadDrops(box.events, c.events, box.clock - STALE_CLAIM, i, first);
      SomeAhead(box.events, box.clock - STALE_CLAIM, i, first);
      var rest;
      w, rest := FreeIsClaimed(c, i);
      more := start + (handled + rest);
      WorkConcat(box, start, handled + rest);
      WorkConcat(b, handled, rest);
    }
  }

  lemma OneClaim(box: Outbox, w: nat, i: nat)
    requires IsDue(box, w, i) && box.events[i].kind == Telegram && Claimable(box.events[i], box.workers[w].staleBefore)
    ensures var t := WorkAll(box, [Claim(w, i)]);
      HoldsAt(t, w, i, Fresh) && |t.events| == |box.events| && t.clock == box.clock &&
      t.events[i].deliveries == box.events[i].deliveries &&
      |t.workers| == |box.workers| && forall v :: 0 <= v < |box.workers| && v != w ==> t.workers[v] == box.workers[v]
  {
    assert [Claim(w, i)] == [Claim(w, i)] + [];
    WorkFirst(box, Claim(w, i), []);
  }

  /** And sent. */
  lemma FreeIsSent(box: Outbox, i: nat) returns (w: nat, more: seq<WorkStep>)
    requires i < |box.events| && box.events[i].kind == Telegram
    requires box.events[i].processedAt.None? && box.events[i].startedAt.None?
    ensures var t := WorkAll(box, more);
      HoldsAt(t, w, i, Sent(true)) && |t.events| == |box.events| && t.clock == box.clock && w >= |box.workers| &&
      t.events[i].deliveries == box.events[i].deliveries + 1 &&
      |t.workers| >= |box.workers| && forall v :: 0 <= v < |box.workers| ==> t.workers[v] == box.workers[v]
  {
    hide WorkAll;
    var claims;
    w, claims := FreeIsClaimed(box, i);
    HolderSends(WorkAll(box, claims), w, i, Fresh);
    WorkConcat(box, claims, SendSteps(w, Fresh));
    more := claims + SendSteps(w, Fresh);
  }

  // --- the second delivery -------------------------------------------------------------------------

  /** Until the first stolen, freed or forgotten claim of a Telegram event it is accepted at most once; from
      the state that such a step leaves, some further steps of the workers get it accepted a second time. */
  lemma SecondDelivery(s: State, step: Step, i: nat) returns (more: seq<WorkStep>)
    requires OwnedOnce(s.outbox, i) && Tidy(s.outbox, i)
    requires i < |s.outbox.events| && s.outbox.events[i].kind == Telegram
    requires DisturbsAt(s, step, i) || ForgetsAt(s, step, i)
    ensures var t := After(Next(s, step), Outboxed(more)).outbox;
      i < |t.events| && s.outbox.events[i].deliveries <= 1 && t.events[i].deliveries == 2
  {
    hide Next, After, WorkAll, OwnedOnce, Tidy, Steals, Frees, Forgets, Work;
    StepWorks(s, step.work);
    if ForgetsAt(s, step, i) {
      more := AfterForgetting(s.outbox, step.work, i);
    } else if Steals(s.outbox, step.work, i) {
      more := AfterStealing(s.outbox, step.work, i);
    } else {
      more := AfterFreeing(s.outbox, step.work, i);
    }
    AfterWork(Next(s, step), more);
  }

  lemma AfterForgetting(box: Outbox, step: WorkStep, i: nat) returns (more: seq<WorkStep>)
    requires OwnedOnce(box, i) && Tidy(box, i) && i < |box.events| && box.events[i].kind == Telegram
    requires CanWork(box, step) && Forgets(box, step, i)
    ensures var t := WorkAll(Work(box, step), more);
      i < |t.events| && box.events[i].deliveries <= 1 && t.events[i].deliveries == 2
  {
    hide WorkAll;
    assert HoldOk(box, box.workers[step.worker].holding.value);
    var w;
    w, more := FreeIsSent(Work(box, step), i);
  }

  lemma AfterStealing(box: Outbox, step: WorkStep, i: nat) returns (more: seq<WorkStep>)
    requires OwnedOnce(box, i) && Tidy(box, i) && i < |box.events| && box.events[i].kind == Telegram
    requires CanWork(box, step) && Steals(box, step, i)
    ensures var t := WorkAll(Work(box, step), more);
      i < |t.events| && box.events[i].deliveries <= 1 && t.events[i].deliveries == 2
  {
    hide WorkAll;
    var w := step.worker;
    var v :| 0 <= v < |box.workers| && Owns(box, v, i) && box.workers[v].holding.value.since < box.workers[w].staleBefore;
    var t := Work(box, step);
    var stage := box.workers[v].holding.value.stage;
    assert HoldOk(box, box.workers[v].holding.value);
    assert HoldsAt(t, w, i, Fresh) && HoldsAt(t, v, i, stage) && v != w;
    DeliveredByHolder(box, v, i);
    more := TwoHolders(t, v, w, i, stage);
  }

  lemma AfterFreeing(box: Outbox, step: WorkStep, i: nat) returns (more: seq<WorkStep>)
    requires OwnedOnce(box, i) && Tidy(box, i) && i < |box.events| && box.events[i].kind == Telegram
    requires CanWork(box, step) && Frees(box, step, i)
    ensures var t := WorkAll(Work(box, step), more);
      i < |t.events| && box.events[i].deliveries <= 1 && t.events[i].deliveries == 2
  {
    hide WorkAll;
    var v :| 0 <= v < |box.workers| && Owns(box, v, i);
    var stage := box.workers[v].holding.value.stage;
    assert HoldOk(box, box.workers[v].holding.value);
    DeliveredByHolder(box, v, i);
    var t := Work(box, step);
    var w, claims := FreeIsClaimed(t, i);
    var m := WorkAll(t, claims);
    assert HoldsAt(m, v, i, stage);
    var rest := TwoHolders(m, v, w, i, stage);
    WorkConcat(t, claims, rest);
    more := claims + rest;
  }

  lemma DeliveredByHolder(box: Outbox, v: nat, i: nat)
    requires OwnedOnce(box, i) && Tidy(box, i) && Owns(box, v, i)
    ensures i < |box.events| && box.events[i].deliveries == if box.workers[v].holding.value.stage == Sent(true) then 1 else 0
  {
    assert HoldOk(box, box.workers[v].holding.value);
    if box.events[i].deliveries == 1 {
      var u :| Owns(box, u, i) && box.workers[u].holding.value.stage == Sent(true);
      assert u == v;
    }
  }

  /** Two holders of one event, one of them fresh, deliver it twice, whatever the other one is at. */
  lemma TwoHolders(box: Outbox, v: nat, w: nat, i: nat, stage: Stage) returns (more: seq<WorkStep>)
    requires HoldsAt(box, v, i, stage) && HoldsAt(box, w, i, Fresh) && v != w
    requires box.events[i].deliveries == if stage == Sent(true) then 1 else 0
    ensures var t := WorkAll(box, more); |t.events| == |box.events| && t.events[i].deliveries == 2
  {
    hide WorkAll;
    var first;
    if stage == Sent(false) {
      var t := Work(box, GiveUp(v));
      OneGivesUp(box, v);
      var u, sends := FreeIsSent(t, i);
      first := [GiveUp(v)] + sends;
      WorkConcat(box, [GiveUp(v)], sends);
    } else if stage == Sent(true) {
      first := [];
      Nothing(box);
    } else {
      first := SendSteps(v, stage);
      HolderSends(box, v, i, stage);
    }
    var m := WorkAll(box, first);
    assert HoldsAt(m, w, i, Fresh) && m.events[i].deliveries == 1;
    HolderSends(m, w, i, Fresh);
    WorkConcat(box, first, SendSteps(w, Fresh));
    more := first + SendSteps(w, Fresh);
  }

  lemma OneGivesUp(box: Outbox, v: nat)
    requires CanWork(box, GiveUp(v))
    ensures WorkAll(box, [GiveUp(v)]) == Work(box, GiveUp(v))
  {
    assert WorkAll(box, [GiveUp(v)]) == WorkAll(Work(box, GiveUp(v)), []);
  }

  lemma Nothing(box: Outbox)
    ensures WorkAll(box, []) == box
  {
  }

  // --- from the empty database -----------------------------------------------------------------------

  /** One order, verified and paid: its two events are waiting. */
  function PaidRun(): seq<Step> {
    [ Register, StartSupport(Payments.ORDER), OpenCall(Verify, 0), LoadCall(0), ResolveCall(0, Success, 5, 7) ]
  }

  const READ := Payments.ORDERED.(calls := [Call(Verify, 0, Holding(Payments.NEW_SUPPORT))])
  const WAITING := Outbox(0, [Event(0, Projection, None, None, 0), Event(0, Telegram, None, None, 0)], [])

  lemma Verified()
    ensures Next(Next(Payments.ORDERED, OpenCall(Verify, 0)), LoadCall(0)) == READ
  {
    assert Next(Payments.ORDERED, OpenCall(Verify, 0)) == Payments.ORDERED.(calls := [Call(Verify, 0, Started)]);
  }

  lemma PaidFirst()
    ensures Next(READ, ResolveCall(0, Success, 5, 7)).outbox == WAITING
  {
    hide Postings.EntriesOf;
  }

  lemma EventsWait()
    ensures After(EMPTY, PaidRun()).outbox == WAITING
  {
    hide Next;
    var r := PaidRun();
    AfterTakes(EMPTY, r, 1);
    AfterTakes(EMPTY, r, 2);
    Payments.OrderPlaced();
    AfterTakes(EMPTY, r, 3);
    AfterTakes(EMPTY, r, 4);
    Verified();
    AfterTakes(EMPTY, r, 5);
    PaidFirst();
    assert r[..5] == r;
  }

  /** The outbox after the order was paid and the workers took some steps. */
  lemma WorkersFollow(steps: seq<WorkStep>)
    ensures After(EMPTY, PaidRun() + Outboxed(steps)).outbox == WorkAll(WAITING, steps)
  {
    hide Next, After, WorkAll;
    EventsWait();
    AfterConcat(EMPTY, PaidRun(), Outboxed(steps));
    AfterWork(After(EMPTY, PaidRun()), steps);
  }

  /** Time starts at zero and never runs backwards, so no claim is ever older than the clock. */
  lemma {:induction false} AgesAreBounded(run: seq<Step>, window: int)
    requires After(EMPTY, run).outbox.clock <= window
    ensures AlwaysTimely(run, window) && After(EMPTY, run).outbox.clock >= 0
    ensures forall w :: 0 <= w < |After(EMPTY, run).outbox.workers| && After(EMPTY, run).outbox.workers[w].holding.Some? ==>
              After(EMPTY, run).outbox.workers[w].holding.value.since >= 0
  {
    hide Next, Work;
    if |run| > 0 {
      var s, step := After(EMPTY, run[..|run| - 1]), run[|run| - 1];
      ClockAdvances(s, step);
      AgesAreBounded(run[..|run| - 1], window);
    }
  }

  lemma ClockAdvances(s: State, step: Step)
    ensures var box, t := s.outbox, Next(s, step).outbox;
      box.clock <= t.clock &&
      forall w :: 0 <= w < |t.workers| && t.workers[w].holding.Some? ==>
        t.workers[w].holding.value.since == box.clock ||
        (w < |box.workers| && box.workers[w].holding.Some? && t.workers[w].holding.value.since == box.workers[w].holding.value.since)
  {
    hide Next;
    if step.Outboxing? && Enabled(s, step) {
      StepWorks(s, step.work);
      WorkAdvances(s.outbox, step.work);
    } else {
      NotWorking(s, step);
    }
  }

  lemma WorkAdvances(box: Outbox, step: WorkStep)
    requires CanWork(box, step)
    ensures var t := Work(box, step);
      box.clock <= t.clock &&
      forall w :: 0 <= w < |t.workers| && t.workers[w].holding.Some? ==>
        t.workers[w].holding.value.since == box.clock ||
        (w < |box.workers| && box.workers[w].holding.Some? && t.workers[w].holding.value.since == box.workers[w].holding.value.since)
  {
  }

  // --- one notification left ---------------------------------------------------------------------------

  /** The first run has counted the payment and is about to turn to the notification. */
  const COUNTED := Event(0, Projection, None, Some(0), 0)
  const IDLE := Worker(-STALE_CLAIM, Some([1]), None)
  const HALF := Outbox(0, [COUNTED, Event(0, Telegram, None, None, 0)], [IDLE])

  function FirstHalf(): seq<WorkStep> { [Begin, Query(0), Claim(0, 0), Project(0)] }

  lemma BothWait()
    ensures WaitingEvents(WAITING.events, -STALE_CLAIM, OUTBOX_BATCH) == [0, 1]
  {
    var es := WAITING.events;
    assert es[..1] == [es[0]] && es[..1][..0] == [];
    assert WaitingEvents(es[..1], -STALE_CLAIM, OUTBOX_BATCH) == [0];
  }

  lemma HalfDone()
    ensures WorkAll(WAITING, FirstHalf()) == HALF
  {
    hide WorkAll, WaitingEvents;
    BothWait();
    var a := Work(WAITING, Begin);
    assert a.workers == [Worker(-STALE_CLAIM, None, None)];
    var b := Work(a, Query(0));
    assert b.workers == [Worker(-STALE_CLAIM, Some([0, 1]), None)];
    var c := Work(b, Claim(0, 0));
    assert c.workers == [IDLE.(holding := Some(Hold(0, 0, Fresh)))] && c.events == [Event(0, Projection, Some(0), None, 0), WAITING.events[1]];
    assert Work(c, Project(0)) == HALF;
    FourSteps(WAITING, Begin, Query(0), Claim(0, 0), Project(0));
  }

  lemma FourSteps(box: Outbox, a: WorkStep, b: WorkStep, c: WorkStep, d: WorkStep)
    requires CanWork(box, a) && CanWork(Work(box, a), b) && CanWork(Work(Work(box, a), b), c)
    requires CanWork(Work(Work(Work(box, a), b), c), d)
    ensures WorkAll(box, [a, b, c, d]) == Work(Work(Work(Work(box, a), b), c), d)
  {
    hide WorkAll, Work, CanWork;
    assert [a, b, c, d] == [a] + ([b] + ([c] + ([d] + [])));
    WorkFirst(box, a, [b] + ([c] + ([d] + [])));
    WorkFirst(Work(box, a), b, [c] + ([d] + []));
    WorkFirst(Work(Work(box, a), b), c, [d] + []);
    WorkFirst(Work(Work(Work(box, a), b), c), d, []);
    Nothing(Work(Work(Work(Work(box, a), b), c), d));
  }

  /** What the workers do after the first half, in a run from the empty database. */
  lemma RunFollows(steps: seq<WorkStep>)
    ensures After(EMPTY, PaidRun() + Outboxed(FirstHalf() + steps)).outbox == WorkAll(HALF, steps)
  {
    hide After, WorkAll;
    WorkersFollow(FirstHalf() + steps);
    HalfDone();
    WorkConcat(WAITING, FirstHalf(), steps);
  }

  // --- one millisecond too slow ----------------------------------------------------------------------

  const LATE := STALE_CLAIM + 1

  const FIRST := Worker(-STALE_CLAIM, Some([]), Some(Hold(1, 0, Inspected)))
  const SECOND := Worker(1, Some([]), Some(Hold(1, LATE, Fresh)))
  const HELD := Outbox(LATE, [COUNTED, Event(0, Telegram, Some(0), None, 0)], [FIRST])
  const BOTH_HOLD := Outbox(LATE, [COUNTED, Event(0, Telegram, Some(LATE), None, 0)], [FIRST, SECOND])

  /** The first run claims the notification and dawdles; one millisecond after the five minutes a second
      run begins, and finds it in its batch. */
  function Overrun(): seq<WorkStep> {
    [Claim(0, 1), Inspect(0)] + ([Tick(LATE)] + [Begin, Query(1), Claim(1, 1)])
  }

  lemma FirstHolds()
    ensures WorkAll(HALF, [Claim(0, 1), Inspect(0)]) == HELD.(clock := 0)
  {
    hide WorkAll;
    assert [1][1..] == [];
    var a := Work(HALF, Claim(0, 1));
    assert a.workers == [FIRST.(holding := Some(Hold(1, 0, Fresh)))] && a.events == HELD.events;
    assert Work(a, Inspect(0)) == HELD.(clock := 0);
    assert [Claim(0, 1), Inspect(0)] == [Claim(0, 1)] + ([Inspect(0)] + []);
    WorkFirst(HALF, Claim(0, 1), [Inspect(0)] + []);
    WorkFirst(a, Inspect(0), []);
    Nothing(HELD.(clock := 0));
  }

  /** With the projection done, the notification is all that a run can select. */
  lemma OneWaits(startedAt: Option<int>, staleBefore: int)
    requires startedAt.None? || startedAt.value < staleBefore
    ensures WaitingEvents([COUNTED, Event(0, Telegram, startedAt, None, 0)], staleBefore, OUTBOX_BATCH) == [1]
  {
    var es := [COUNTED, Event(0, Telegram, startedAt, None, 0)];
    assert es[..1] == [COUNTED] && es[..1][..0] == [];
    assert WaitingEvents(es[..1], staleBefore, OUTBOX_BATCH) == [];
  }

  lemma SecondHolds()
    ensures WorkAll(HELD, [Begin, Query(1), Claim(1, 1)]) == BOTH_HOLD
  {
    hide WorkAll, WaitingEvents;
    assert [1][1..] == [];
    OneWaits(Some(0), 1);
    var a := Work(HELD, Begin);
    assert a.workers == [FIRST, Worker(1, None, None)];
    var b := Work(a, Query(1));
    assert b.workers == [FIRST, Worker(1, Some([1]), None)];
    assert Work(b, Claim(1, 1)) == BOTH_HOLD;
    ThreeSteps(HELD, Begin, Query(1), Claim(1, 1));
  }

  lemma ThreeSteps(box: Outbox, a: WorkStep, b: WorkStep, c: WorkStep)
    requires CanWork(box, a) && CanWork(Work(box, a), b) && CanWork(Work(Work(box, a), b), c)
    ensures WorkAll(box, [a, b, c]) == Work(Work(Work(box, a), b), c)
  {
    hide WorkAll, Work, CanWork;
    assert [a, b, c] == [a] + ([b] + ([c] + []));
    WorkFirst(box, a, [b] + ([c] + []));
    WorkFirst(Work(box, a), b, [c] + []);
    WorkFirst(Work(Work(box, a), b), c, []);
    Nothing(Work(Work(Work(box, a), b), c));
  }

  lemma OverrunHolds()
    ensures WorkAll(HALF, Overrun()) == BOTH_HOLD
  {
    hide WorkAll;
    var rest := [Begin, Query(1), Claim(1, 1)];
    FirstHolds();
    WorkConcat(HALF, [Claim(0, 1), Inspect(0)], [Tick(LATE)] + rest);
    WorkFirst(HELD.(clock := 0), Tick(LATE), rest);
    SecondHolds();
  }

  /** The five minutes cannot be stretched: a run from the empty database in which no claim ever grows
      older than five minutes and one millisecond gives an event two holders, and goes on to deliver it
      twice. */
  lemma WindowIsExact() returns (more: seq<WorkStep>)
    ensures var run := PaidRun() + Outboxed(FirstHalf() + Overrun());
      AlwaysTimely(run, 300001) && !OwnedOnce(After(EMPTY, run).outbox, 1) &&
      var t := After(EMPTY, run + Outboxed(more)).outbox; |t.events| == 2 && t.events[1].deliveries == 2
  {
    hide Next, After, WorkAll, Work, AlwaysTimely;
    var run := PaidRun() + Outboxed(FirstHalf() + Overrun());
    RunFollows(Overrun());
    OverrunHolds();
    AgesAreBounded(run, LATE);
    assert Owns(BOTH_HOLD, 0, 1) && Owns(BOTH_HOLD, 1, 1);
    more := TwoHolders(BOTH_HOLD, 0, 1, 1, Inspected);
    AfterConcat(EMPTY, run, Outboxed(more));
    AfterWork(After(EMPTY, run), more);
  }

  // --- a forgotten send --------------------------------------------------------------------------------

  function SendAndFail(): seq<WorkStep> { [Claim(0, 1), Inspect(0)] + ([Send(0, true)] + [GiveUp(0)]) }

  /** And the next run, which sends it again. */
  function SendOnceMore(): seq<WorkStep> { [Begin, Query(1), Claim(1, 1)] + SendSteps(1, Fresh) }

  const FAILED := Outbox(0, [COUNTED, Event(0, Telegram, None, None, 1)], [FIRST.(holding := None)])

  lemma FailedRecord()
    ensures WorkAll(HALF, SendAndFail()) == FAILED
  {
    hide WorkAll;
    var held := HELD.(clock := 0);
    FirstHolds();
    WorkConcat(HALF, [Claim(0, 1), Inspect(0)], [Send(0, true)] + [GiveUp(0)]);
    var a := Work(held, Send(0, true));
    assert a.events == [COUNTED, Event(0, Telegram, Some(0), None, 1)];
    assert a.workers == [FIRST.(holding := Some(Hold(1, 0, Sent(true))))];
    WorkFirst(held, Send(0, true), [GiveUp(0)]);
    OneGivesUp(a, 0);
    assert Work(a, GiveUp(0)) == FAILED;
  }

  lemma SentSecondTime()
    ensures var t := WorkAll(FAILED, SendOnceMore()); t.clock == 0 && |t.events| == 2 && t.events[1].deliveries == 2
  {
    hide WorkAll, WaitingEvents;
    OneWaitsAgain();
    var a := Work(FAILED, Begin);
    assert a.workers == [FIRST.(holding := None), Worker(-STALE_CLAIM, None, None)];
    var b := Work(a, Query(1));
    assert b.workers == [FIRST.(holding := None), Worker(-STALE_CLAIM, Some([1]), None)];
    ThreeSteps(FAILED, Begin, Query(1), Claim(1, 1));
    var c := Work(b, Claim(1, 1));
    WorkConcat(FAILED, [Begin, Query(1), Claim(1, 1)], SendSteps(1, Fresh));
    HolderSends(c, 1, 1, Fresh);
  }

  lemma OneWaitsAgain()
    ensures WaitingEvents(FAILED.events, -STALE_CLAIM, OUTBOX_BATCH) == [1]
  {
    var es := FAILED.events;
    assert es[..1] == [COUNTED] && es[..1][..0] == [];
    assert WaitingEvents(es[..1], -STALE_CLAIM, OUTBOX_BATCH) == [];
  }

  /** A claim need not grow old at all: in a run from the empty database during which no time passes, and
      every event has one holder throughout, Telegram accepts a notification, the update that should
      record it fails, and the next processor run sends it again. */
  lemma SentAgain()
    ensures var run := PaidRun() + Outboxed(FirstHalf() + (SendAndFail() + SendOnceMore()));
      AlwaysTimely(run, 0) && AlwaysOwnedOnce(run, 1) &&
      var t := After(EMPTY, run).outbox; |t.events| == 2 && t.events[1].deliveries == 2
  {
    hide Next, After, WorkAll, Work, AlwaysTimely, AlwaysOwnedOnce;
    var steps := SendAndFail() + SendOnceMore();
    var run := PaidRun() + Outboxed(FirstHalf() + steps);
    FailedRecord();
    SentSecondTime();
    WorkConcat(HALF, SendAndFail(), SendOnceMore());
    RunFollows(steps);
    AgesAreBounded(run, 0);
    TimelyIsMonotone(run, 0, 300000);
    OneHolderAtATime(run, 1);
    assert forall k :: 0 <= k < |FirstHalf() + steps| ==> !(FirstHalf() + steps)[k].Reset?;
    NothingFreed(run, 1);
  }

  lemma {:induction false} NothingFreed(run: seq<Step>, i: nat)
    requires forall k :: 0 <= k < |run| ==> !(run[k].Outboxing? && run[k].work.Reset?)
    ensures NeverFreed(run, i)
  {
    hide After;
    if |run| > 0 { NothingFreed(run[..|run| - 1], i); }
  }

  lemma {:induction false} TimelyIsMonotone(run: seq<Step>, a: int, b: int)
    requires AlwaysTimely(run, a) && a <= b
    ensures AlwaysTimely(run, b)
  {
    hide After;
    if |run| > 0 { TimelyIsMonotone(run[..|run| - 1], a, b); }
  }

  // --- a claim that throws -------------------------------------------------------------------------------

  /** A second run reads its batch just before the first claims the notification that both have in theirs. */
  function LateClaim(): seq<WorkStep> { [Begin, Query(1), Claim(0, 1)] }

  const OTHER := Worker(-STALE_CLAIM, Some([1]), None)
  const CLAIMED := Outbox(0, [COUNTED, Event(0, Telegram, Some(0), None, 0)], [FIRST.(holding := Some(Hold(1, 0, Fresh))), OTHER])

  lemma OneClaims()
    ensures WorkAll(HALF, LateClaim()) == CLAIMED
  {
    hide WorkAll, WaitingEvents;
    assert [1][1..] == [];
    OneWaits(None, -STALE_CLAIM);
    var a := Work(HALF, Begin);
    assert a.workers == [IDLE, Worker(-STALE_CLAIM, None, None)];
    var b := Work(a, Query(1));
    assert b.workers == [IDLE, OTHER];
    assert Work(b, Claim(0, 1)) == CLAIMED;
    ThreeSteps(HALF, Begin, Query(1), Claim(0, 1));
  }

  /** Nor need a send be forgotten: in a run from the empty database during which no time passes, the claim
      of a second worker throws for an event of its batch that the first has claimed meanwhile, and its
      catch block frees the event under its holder; it goes on to be delivered twice. */
  lemma FreedUnderHolder() returns (more: seq<WorkStep>)
    ensures var s, step := After(EMPTY, PaidRun() + Outboxed(FirstHalf() + LateClaim())), Outboxing(Reset(1, 1));
      s.outbox.clock == 0 && FreesAt(s, step, 1) &&
      var t := After(Next(s, step), Outboxed(more)).outbox; |t.events| > 1 && t.events[1].deliveries == 2
  {
    hide Next, After, WorkAll, OwnedOnce, Tidy, Disturbs, AlwaysTimely;
    var steps := FirstHalf() + LateClaim();
    var run := PaidRun() + Outboxed(steps);
    RunFollows(LateClaim());
    OneClaims();
    var s := After(EMPTY, run);
    AgesAreBounded(run, 0);
    TimelyIsMonotone(run, 0, 300000);
    assert forall k :: 0 <= k < |steps| ==> !steps[k].Reset? && !steps[k].GiveUp?;
    NothingFreed(run, 1);
    NothingGivenUp(run, 1);
    OneHolderAtATime(run, 1);
    DeliveredOnceIff(run, 1);
    assert Owns(s.outbox, 0, 1);
    FreesDisturbs(s.outbox, Reset(1, 1), 1);
    more := SecondDelivery(s, Outboxing(Reset(1, 1)), 1);
  }

  lemma FreesDisturbs(box: Outbox, step: WorkStep, i: nat)
    requires step.Reset? && step.event == i && exists v :: 0 <= v < |box.workers| && Owns(box, v, i)
    ensures Frees(box, step, i) && Disturbs(box, step, i)
  {
  }

  lemma {:induction false} NothingGivenUp(run: seq<Step>, i: nat)
    requires forall k :: 0 <= k < |run| ==> !(run[k].Outboxing? && run[k].work.GiveUp?)
    ensures NeverForgotten(run, i)
  {
    hide After;
    if |run| > 0 { NothingGivenUp(run[..|run| - 1], i); }
  }
}
