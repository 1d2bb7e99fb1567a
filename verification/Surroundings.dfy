/** Changes to a support that leave its application mark alone do not disturb the perks, the
    earnings, the outbox, the counters or the calls. */
module Surroundings {
  import opened Tables
  import opened Sums
  import opened Invariants
  import opened Bookkeeping

  /** The same supports are applied, and nothing is in the orders of old ones has changed. */
  ghost predicate SameMarks(s: seq<Support>, s': seq<Support>) {
    SupportsKept(s, s') &&
    forall i :: 0 <= i < |s'| ==> s'[i].Applied() == (i < |s| && s[i].Applied())
  }

  lemma PerksStay(s: State, s': seq<Support>)
    requires SameMarks(s.supports, s')
    requires RewardsCounted(s.rewards, s.unlocks, s.supports) && VotesCounted(s.options, s.votes, s.supports)
    ensures RewardsCounted(s.rewards, s.unlocks, s') && VotesCounted(s.options, s.votes, s')
  {
    forall sid: nat | |s.supports| <= sid < |s'| ensures Sum(s.unlocks, ForUnlockOf(sid)) == Sum(s.votes, ForVoteOf(sid)) == 0 {
      SumOfZero(s.unlocks, ForUnlockOf(sid));
      SumOfZero(s.votes, ForVoteOf(sid));
    }
  }

  lemma EventsStay(events: seq<Event>, s: seq<Support>, s': seq<Support>)
    requires SameMarks(s, s') && EventsMirror(events, s)
    ensures EventsMirror(events, s')
  {
    forall sid: nat, kind | |s| <= sid < |s'| ensures Sum(events, ForEvent(sid, kind)) == 0 {
      SumOfZero(events, ForEvent(sid, kind));
    }
  }

  /** The counters look only at the order of a support, which never changes. */
  lemma TalliesStay(campaigns: seq<Tally>, links: seq<Tally>, events: seq<Event>, s: seq<Support>, s': seq<Support>)
    requires EventsMirror(events, s) && SupportsKept(s, s') && TalliesExact(campaigns, links, events, s)
    ensures TalliesExact(campaigns, links, events, s')
  {
    forall c | 0 <= c < |campaigns|
      ensures campaigns[c] == Tally(Sum(events, CampaignRevenue(c, s')), Sum(events, CampaignCount(c, s')))
    {
      SumSame(events, CampaignRevenue(c, s'), CampaignRevenue(c, s));
      SumSame(events, CampaignCount(c, s'), CampaignCount(c, s));
    }
    forall k | 0 <= k < |links|
      ensures links[k] == Tally(Sum(events, LinkRevenue(k, s')), Sum(events, LinkCount(k, s')))
    {
      SumSame(events, LinkRevenue(k, s'), LinkRevenue(k, s));
      SumSame(events, LinkCount(k, s'), LinkCount(k, s));
    }
  }

  /** Everything outside the wallets, withdrawals, books and calls that looks at supports stays true. */
  lemma SurroundingsStay(s: State, s': seq<Support>)
    requires SameMarks(s.supports, s')
    requires EarningsMirror(s.earnings, s.supports) && EventsMirror(s.outbox.events, s.supports)
    requires RewardsCounted(s.rewards, s.unlocks, s.supports) && VotesCounted(s.options, s.votes, s.supports)
    requires TalliesExact(s.campaigns, s.links, s.outbox.events, s.supports)
    ensures EarningsMirror(s.earnings, s') && EventsMirror(s.outbox.events, s')
    ensures RewardsCounted(s.rewards, s.unlocks, s') && VotesCounted(s.options, s.votes, s')
    ensures TalliesExact(s.campaigns, s.links, s.outbox.events, s')
  {
    PerksStay(s, s');
    EventsStay(s.outbox.events, s.supports, s');
    TalliesStay(s.campaigns, s.links, s.outbox.events, s.supports, s');
    assert EarningsMirror(s.earnings, s');
  }

  lemma CallsStay(calls: seq<Call>, webhooks: map<nat, bool>, s: seq<Support>, s': seq<Support>)
    requires SameMarks(s, s') && CallsOk(calls, webhooks, s)
    ensures CallsOk(calls, webhooks, s')
  {
  }
}
