/** The outbox workers keep the invariant: every event stays, and counters move with it once. */
module OutboxProofs {
  import opened Tables
  import opened Sums
  import opened ClosedForms
  import opened Invariants
  import opened Postings
  import opened Engine
  import opened Steps

  /** A worker's step changes at most one event, never which support and kind it is for, and a
      processed event stays processed. */
  ghost predicate EventsAdvance(events: seq<Event>, events': seq<Event>) {
    |events'| == |events| &&
    forall i :: 0 <= i < |events| ==>
      events'[i].sid == events[i].sid && events'[i].kind == events[i].kind &&
      (events[i].processedAt.Some? ==> events'[i].processedAt.Some?)
  }

  lemma WorkAdvances(box: Outbox, step: WorkStep)
    requires CanWork(box, step)
    ensures EventsAdvance(box.events, Work(box, step).events)
  {
  }

  lemma AdvanceMirrors(events: seq<Event>, events': seq<Event>, supports: seq<Support>)
    requires EventsAdvance(events, events') && EventsMirror(events, supports)
    ensures EventsMirror(events', supports)
  {
    forall sid: nat, kind ensures Sum(events', ForEvent(sid, kind)) == Sum(events, ForEvent(sid, kind)) {
      SameCounts(events, events', sid, kind);
    }
  }

  lemma {:induction false} SameCounts(events: seq<Event>, events': seq<Event>, sid: nat, kind: EventKind)
    requires EventsAdvance(events, events')
    ensures Sum(events', ForEvent(sid, kind)) == Sum(events, ForEvent(sid, kind))
  {
    if |events| > 0 {
      SameCounts(events[..|events| - 1], events'[..|events| - 1], sid, kind);
    }
  }

  /** Projecting one unprocessed event moves each counter by what the event is worth. */
  lemma ProjectionCounts(campaigns: seq<Tally>, links: seq<Tally>, events: seq<Event>, supports: seq<Support>, i: nat, at: int)
    requires TalliesExact(campaigns, links, events, supports) && EventsMirror(events, supports)
    requires i < |events| && events[i].kind == Projection && events[i].processedAt.None?
    ensures var p := supports[events[i].sid];
            TalliesExact(Bump(campaigns, p.campaign, p.gross), Bump(links, p.link, p.gross), events[i := Done(events[i], at)], supports)
  {
    var p := supports[events[i].sid];
    var e := Done(events[i], at);
    forall c: nat | c < |campaigns|
      ensures Bump(campaigns, p.campaign, p.gross)[c]
           == Tally(Sum(events[i := e], CampaignRevenue(c, supports)), Sum(events[i := e], CampaignCount(c, supports)))
    {
      SumUpdate(events, i, e, CampaignRevenue(c, supports));
      SumUpdate(events, i, e, CampaignCount(c, supports));
    }
    forall k: nat | k < |links|
      ensures Bump(links, p.link, p.gross)[k]
           == Tally(Sum(events[i := e], LinkRevenue(k, supports)), Sum(events[i := e], LinkCount(k, supports)))
    {
      SumUpdate(events, i, e, LinkRevenue(k, supports));
      SumUpdate(events, i, e, LinkCount(k, supports));
    }
  }

  /** Any other change of a single event leaves the counters alone. */
  lemma OthersCountNothing(campaigns: seq<Tally>, links: seq<Tally>, events: seq<Event>, supports: seq<Support>, i: nat, e: Event)
    requires TalliesExact(campaigns, links, events, supports)
    requires i < |events| && e.sid == events[i].sid && Projected(e, supports) == Projected(events[i], supports)
    ensures TalliesExact(campaigns, links, events[i := e], supports)
  {
    forall c: nat | c < |campaigns|
      ensures campaigns[c] == Tally(Sum(events[i := e], CampaignRevenue(c, supports)), Sum(events[i := e], CampaignCount(c, supports)))
    {
      SumUpdate(events, i, e, CampaignRevenue(c, supports));
      SumUpdate(events, i, e, CampaignCount(c, supports));
    }
    forall k: nat | k < |links|
      ensures links[k] == Tally(Sum(events[i := e], LinkRevenue(k, supports)), Sum(events[i := e], LinkCount(k, supports)))
    {
      SumUpdate(events, i, e, LinkRevenue(k, supports));
      SumUpdate(events, i, e, LinkCount(k, supports));
    }
  }

  /** Which tables a worker's step can touch, and that it adds no counters. */
  lemma WorkFrame(s: State, step: WorkStep)
    requires CanWork(s.outbox, step)
    ensures var t := WorkOn(s, step);
      t == s.(outbox := Work(s.outbox, step), campaigns := t.campaigns, links := t.links) &&
      |t.campaigns| == |s.campaigns| && |t.links| == |s.links| &&
      (!step.Project? ==> t.campaigns == s.campaigns && t.links == s.links)
  {
    hide Work;
  }

  lemma WorkCounts(s: State, step: WorkStep)
    requires CanWork(s.outbox, step)
    requires EventsMirror(s.outbox.events, s.supports) && TalliesExact(s.campaigns, s.links, s.outbox.events, s.supports)
    ensures var t := WorkOn(s, step); TalliesExact(t.campaigns, t.links, t.outbox.events, t.supports)
  {
    var events := s.outbox.events;
    match step
    case Tick(_) =>
    case Begin =>
    case Query(_) =>
    case Claim(w, i) =>
      OthersCountNothing(s.campaigns, s.links, events, s.supports, i, events[i].(startedAt := Some(s.outbox.clock)));
    case Inspect(_) =>
    case Send(w, accepted) =>
      var i := s.outbox.workers[w].holding.value.event;
      OthersCountNothing(s.campaigns, s.links, events, s.supports, i, Told(events[i], accepted));
    case Conclude(w) =>
      var i := s.outbox.workers[w].holding.value.event;
      OthersCountNothing(s.campaigns, s.links, events, s.supports, i, Done(events[i], s.outbox.clock));
    case Project(w) =>
      var i := s.outbox.workers[w].holding.value.event;
      if events[i].processedAt.None? {
        ProjectionCounts(s.campaigns, s.links, events, s.supports, i, s.outbox.clock);
      }
    case GiveUp(w) =>
      var i := s.outbox.workers[w].holding.value.event;
      OthersCountNothing(s.campaigns, s.links, events, s.supports, i, events[i].(startedAt := None));
    case Reset(_, i) =>
      OthersCountNothing(s.campaigns, s.links, events, s.supports, i, events[i].(startedAt := None));
  }

  lemma WorkKeeps(s: State, step: WorkStep)
    requires Inv(s) && CanWork(s.outbox, step)
    ensures Inv(WorkOn(s, step))
  {
    hide RowsOk, KeysBoundOnce, Closed, BooksMirror, BooksAgree, ControlsAgree, EarningsMirror, Audited,
         RewardsCounted, VotesCounted, EventsMirror, TalliesExact, CallsOk;
    WorkFrame(s, step);
    WorkAdvances(s.outbox, step);
    AdvanceMirrors(s.outbox.events, Work(s.outbox, step).events, s.supports);
    WorkCounts(s, step);
  }

  /** The rest of the system touches the outbox only by enqueueing. */
  lemma OthersEnqueue(s: State, step: Step)
    ensures step.Outboxing? || Next(s, step).outbox == s.outbox || exists sid: nat :: Next(s, step).outbox == Enqueued(s.outbox, sid)
  {
    hide Moved, EntriesOf, Enqueued;
    if step.ResolveCall? && Enabled(s, step) && step.verdict == Success {
      var sid, snap := s.calls[step.call].sid, s.calls[step.call].phase.snapshot;
      var r := ApplyPayment(s, sid, snap, step.paidAt, step.holdDays);
      if r.Ok? && r.value.1 {
        assert Next(s, step).outbox == Enqueued(s.outbox, sid);
      }
    }
  }
}
