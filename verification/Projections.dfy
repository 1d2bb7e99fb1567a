/** Projections: each applied support is counted once, when its projection event is processed. */
module Projections {
  import opened Tables
  import opened Sums
  import opened Invariants
  import opened Engine
  import opened Steps
  import opened Conservation
  import OutboxProofs
  import Safety

  /** The projection event of `sid` has been processed. */
  ghost predicate IsProjected(events: seq<Event>, sid: nat) {
    exists i :: 0 <= i < |events| && events[i].sid == sid && events[i].kind == Projection && events[i].processedAt.Some?
  }

  // --- what a support is worth to a counter ------------------------------------------------------

  function GrossFor(c: nat): Support -> int { (p: Support) => if p.campaign == Some(c) then p.gross else 0 }
  function OneFor(c: nat): Support -> int { (p: Support) => if p.campaign == Some(c) then 1 else 0 }
  function GrossVia(k: nat): Support -> int { (p: Support) => if p.link == Some(k) then p.gross else 0 }
  function OneVia(k: nat): Support -> int { (p: Support) => if p.link == Some(k) then 1 else 0 }

  function Worth(s: seq<Support>, worth: Support -> int): Event -> int {
    (e: Event) => if Projected(e, s) then worth(s[e.sid]) else 0
  }

  function WorthOf(s: seq<Support>, worth: Support -> int, sid: nat): Event -> int {
    (e: Event) => if Projected(e, s) && e.sid == sid then worth(s[sid]) else 0
  }

  function WorthBy(s: seq<Support>, worth: Support -> int, events: seq<Event>): nat -> int {
    (sid: nat) => Sum(events, WorthOf(s, worth, sid))
  }

  lemma {:induction false} WorthPerSupport(s: seq<Support>, worth: Support -> int, events: seq<Event>)
    ensures OverUsers(|s|, WorthBy(s, worth, events)) == Sum(events, Worth(s, worth))
  {
    if |events| == 0 {
      OverUsersPoint(|s|, |s|, 0, WorthBy(s, worth, events));
    } else {
      var init, e := events[..|events| - 1], events[|events| - 1];
      WorthPerSupport(s, worth, init);
      var share := (sid: nat) => WorthOf(s, worth, sid)(e);
      OverUsersPoint(|s|, e.sid, Worth(s, worth)(e), share);
      OverUsersPointwise(|s|, WorthBy(s, worth, init), share, WorthBy(s, worth, events));
      assert Sum(events, Worth(s, worth)) == Sum(init, Worth(s, worth)) + Worth(s, worth)(e);
      assert e.sid >= |s| ==> !Projected(e, s) && Worth(s, worth)(e) == 0;
    }
  }

  lemma NoEventNoWorth(s: seq<Support>, worth: Support -> int, events: seq<Event>, sid: nat)
    requires Sum(events, ForEvent(sid, Projection)) == 0
    ensures Sum(events, WorthOf(s, worth, sid)) == 0 && !IsProjected(events, sid)
  {
    SumAtLeast(events, ForEvent(sid, Projection));
    forall i | 0 <= i < |events| ensures WorthOf(s, worth, sid)(events[i]) == 0 {
      assert ForEvent(sid, Projection)(events[i]) <= 0;
    }
    SumOfZero(events, WorthOf(s, worth, sid));
  }

  lemma ProjectedLast(events: seq<Event>, sid: nat)
    requires |events| > 0
    ensures var e := events[|events| - 1];
      IsProjected(events, sid) <==>
        IsProjected(events[..|events| - 1], sid) || (e.sid == sid && e.kind == Projection && e.processedAt.Some?)
  {
    var n := |events| - 1;
    var init := events[..n];
    if IsProjected(init, sid) {
      var i :| 0 <= i < n && init[i].sid == sid && init[i].kind == Projection && init[i].processedAt.Some?;
      assert events[i] == init[i];
    }
    if IsProjected(events, sid) && !(events[n].sid == sid && events[n].kind == Projection && events[n].processedAt.Some?) {
      var i :| 0 <= i <= n && events[i].sid == sid && events[i].kind == Projection && events[i].processedAt.Some?;
      assert init[i] == events[i];
    }
  }

  lemma {:induction false} OneEventOneWorth(s: seq<Support>, worth: Support -> int, events: seq<Event>, sid: nat)
    requires Sum(events, ForEvent(sid, Projection)) <= 1 && sid < |s|
    ensures Sum(events, WorthOf(s, worth, sid)) == if IsProjected(events, sid) then worth(s[sid]) else 0
  {
    hide IsProjected;
    if |events| > 0 {
      var init, e := events[..|events| - 1], events[|events| - 1];
      ProjectedLast(events, sid);
      if e.sid == sid && e.kind == Projection {
        SumAtLeast(init, ForEvent(sid, Projection));
        NoEventNoWorth(s, worth, init, sid);
      } else {
        OneEventOneWorth(s, worth, init, sid);
      }
    } else {
      NoEventNoWorth(s, worth, events, sid);
    }
  }

  /** What support `sid` should have added to a counter: its worth, once, if its projection event has
      been processed. */
  ghost function Counted(worth: Support -> int, s: State): nat -> int {
    (sid: nat) => if sid < |s.supports| && IsProjected(s.outbox.events, sid) then worth(s.supports[sid]) else 0
  }

  lemma {:induction false} OverUsersSame(n: nat, f: nat -> int, g: nat -> int)
    requires forall u: nat :: u < n ==> f(u) == g(u)
    ensures OverUsers(n, f) == OverUsers(n, g)
  {
    if n > 0 { OverUsersSame(n - 1, f, g); }
  }

  lemma EachOnce(s: State, worth: Support -> int)
    requires EventsMirror(s.outbox.events, s.supports)
    ensures Sum(s.outbox.events, Worth(s.supports, worth)) == OverUsers(|s.supports|, Counted(worth, s))
  {
    hide IsProjected;
    var events := s.outbox.events;
    WorthPerSupport(s.supports, worth, events);
    forall sid: nat | sid < |s.supports| ensures WorthBy(s.supports, worth, events)(sid) == Counted(worth, s)(sid) {
      OneEventOneWorth(s.supports, worth, events, sid);
    }
    OverUsersSame(|s.supports|, WorthBy(s.supports, worth, events), Counted(worth, s));
  }

  lemma CampaignCounted(s: State, c: nat)
    requires EventsMirror(s.outbox.events, s.supports) && TalliesExact(s.campaigns, s.links, s.outbox.events, s.supports)
    requires c < |s.campaigns|
    ensures s.campaigns[c] == Tally(OverUsers(|s.supports|, Counted(GrossFor(c), s)), OverUsers(|s.supports|, Counted(OneFor(c), s)))
  {
    hide EventsMirror, OverUsers, Counted;
    EachOnce(s, GrossFor(c));
    EachOnce(s, OneFor(c));
    SumSame(s.outbox.events, CampaignRevenue(c, s.supports), Worth(s.supports, GrossFor(c)));
    SumSame(s.outbox.events, CampaignCount(c, s.supports), Worth(s.supports, OneFor(c)));
  }

  lemma LinkCounted(s: State, k: nat)
    requires EventsMirror(s.outbox.events, s.supports) && TalliesExact(s.campaigns, s.links, s.outbox.events, s.supports)
    requires k < |s.links|
    ensures s.links[k] == Tally(OverUsers(|s.supports|, Counted(GrossVia(k), s)), OverUsers(|s.supports|, Counted(OneVia(k), s)))
  {
    hide EventsMirror, OverUsers, Counted;
    EachOnce(s, GrossVia(k));
    EachOnce(s, OneVia(k));
    SumSame(s.outbox.events, LinkRevenue(k, s.supports), Worth(s.supports, GrossVia(k)));
    SumSame(s.outbox.events, LinkCount(k, s.supports), Worth(s.supports, OneVia(k)));
  }

  /** In every reachable state all four counters, revenue and conversions of campaigns and of deep links,
      are sums over supports in which each support counts once, if its projection event has been
      processed, and not at all otherwise. */
  lemma CountersCountEachOnce(run: seq<Step>)
    ensures var s := After(EMPTY, run);
      (forall c :: 0 <= c < |s.campaigns| ==>
        s.campaigns[c] == Tally(OverUsers(|s.supports|, Counted(GrossFor(c), s)), OverUsers(|s.supports|, Counted(OneFor(c), s)))) &&
      (forall k :: 0 <= k < |s.links| ==>
        s.links[k] == Tally(OverUsers(|s.supports|, Counted(GrossVia(k), s)), OverUsers(|s.supports|, Counted(OneVia(k), s))))
  {
    hide After, Counted, OverUsers, EventsMirror, TalliesExact;
    CountersAreExact(run);
    var s := After(EMPTY, run);
    forall c: nat | c < |s.campaigns|
      ensures s.campaigns[c] == Tally(OverUsers(|s.supports|, Counted(GrossFor(c), s)), OverUsers(|s.supports|, Counted(OneFor(c), s)))
    {
      CampaignCounted(s, c);
    }
    forall k: nat | k < |s.links|
      ensures s.links[k] == Tally(OverUsers(|s.supports|, Counted(GrossVia(k), s)), OverUsers(|s.supports|, Counted(OneVia(k), s)))
    {
      LinkCounted(s, k);
    }
  }

  /** Both counters of campaigns and of deep links equal the sums over processed projection events, and
      exactly the applied supports have events: one of each kind. */
  lemma CountersAreExact(run: seq<Step>)
    ensures var s := After(EMPTY, run);
      TalliesExact(s.campaigns, s.links, s.outbox.events, s.supports) && EventsMirror(s.outbox.events, s.supports)
  {
    hide After, EventsMirror, TalliesExact;
    Safety.ReachableIsSafe(run);
  }

  // --- processed for good ------------------------------------------------------------------------

  /** A step never takes an event away, never changes what it is for, and never un-processes it. */
  ghost predicate Extends(events: seq<Event>, events': seq<Event>) {
    |events| <= |events'| && OutboxProofs.EventsAdvance(events, events'[..|events|])
  }

  lemma StepExtends(s: State, step: Step)
    ensures Extends(s.outbox.events, Next(s, step).outbox.events)
  {
    hide Work, Enqueued;
    if step.Outboxing? {
      if Enabled(s, step) {
        OutboxProofs.WorkAdvances(s.outbox, step.work);
        assert Next(s, step).outbox.events[..|s.outbox.events|] == Next(s, step).outbox.events;
      }
    } else {
      OutboxProofs.OthersEnqueue(s, step);
      if Next(s, step).outbox != s.outbox {
        var sid: nat :| Next(s, step).outbox == Enqueued(s.outbox, sid);
        EnqueueExtends(s.outbox, sid);
      } else {
        assert s.outbox.events[..|s.outbox.events|] == s.outbox.events;
      }
    }
  }

  lemma EnqueueExtends(box: Outbox, sid: nat)
    ensures Extends(box.events, Enqueued(box, sid).events)
  {
  }

  lemma {:induction false} ProcessedStaysProcessed(s: State, run: seq<Step>)
    ensures Extends(s.outbox.events, After(s, run).outbox.events)
  {
    hide Next;
    if |run| > 0 {
      ProcessedStaysProcessed(s, run[..|run| - 1]);
      StepExtends(After(s, run[..|run| - 1]), run[|run| - 1]);
    } else {
      assert s.outbox.events[..|s.outbox.events|] == s.outbox.events;
    }
  }
}
