/** Orders: which wishes are accepted and at what price, what is stored, and what the platform earns. */
module Orders {
  import opened Tables
  import opened Sums
  import opened ClosedForms
  import opened Invariants
  import opened Engine
  import opened Steps
  import opened Texts
  import Fees
  import Conservation
  import Payments
  import Safety

  // --- what is accepted ----------------------------------------------------------------------------

  predicate RewardOffered(s: State, c: Catalogue, q: Wish) {
    q.reward.Some? ==>
      q.reward.value < |s.rewards| && c.rewardOwner(q.reward.value) == q.creator && s.rewards[q.reward.value].active &&
      (s.rewards[q.reward.value].limit.Some? ==> s.rewards[q.reward.value].claimed < s.rewards[q.reward.value].limit.value) &&
      q.supporter.Some? &&
      forall i :: 0 <= i < |s.unlocks| ==> s.unlocks[i].user != q.supporter.value || s.unlocks[i].reward != q.reward.value
  }

  predicate VoteOffered(s: State, c: Catalogue, q: Wish) {
    (q.poll.Some? <==> q.option.Some?) &&
    (q.poll.Some? ==>
      q.reward.None? && q.supporter.Some? && c.pollOwner(q.poll.value) == Some(q.creator) && c.pollActive(q.poll.value) &&
      q.option.value < |s.options| && c.optionPoll(q.option.value) == q.poll.value)
  }

  /** Nothing stands against the wish. */
  predicate Offered(s: State, c: Catalogue, q: Wish) {
    q.creator < |s.wallets| && c.published(q.creator) && RewardOffered(s, c, q) && VoteOffered(s, c, q) &&
    (q.campaign.Some? ==> q.campaign.value < |s.campaigns| && c.campaignOwner(q.campaign.value) == q.creator) &&
    (q.link.Some? ==> q.link.value < |s.links| && c.linkOwner(q.link.value) == q.creator) &&
    (q.featureRequest ==> q.message.Some? && !AllSpace(q.message.value))
  }

  /** A wish is accepted iff nothing stands against it, and becomes an order for exactly what was wished: a
      reward or a vote at its own price, or else the given number of coffees, one if none is given. */
  lemma PreparedIff(s: State, c: Catalogue, q: Wish, tieUp: bool)
    ensures PrepareInitiation(s, c, q, tieUp).Ok? <==> Offered(s, c, q)
    ensures Offered(s, c, q) ==>
      var d := PrepareInitiation(s, c, q, tieUp).value;
      d.creator == q.creator && d.supporter == q.supporter && d.reward == q.reward && d.vote == q.option &&
      d.campaign == q.campaign && d.link == q.link &&
      (q.reward.Some? ==> d.gross == c.rewardPrice(q.reward.value)) &&
      (q.poll.Some? ==> d.gross == c.pollPrice(q.poll.value)) &&
      (q.reward.None? && q.poll.None? && q.coffees.Some? ==> d.gross == q.coffees.value * c.coffeePrice(q.creator)) &&
      (q.reward.None? && q.poll.None? && q.coffees.None? ==> d.gross == c.coffeePrice(q.creator))
  {
    NormalizedIsTrimmed(q.message);
  }

  /** And when it is refused, the error names something that does stand against it. */
  lemma RefusalIsTrue(s: State, c: Catalogue, q: Wish, tieUp: bool)
    requires PrepareInitiation(s, c, q, tieUp).Err?
    ensures match PrepareInitiation(s, c, q, tieUp).error
      case CreatorNotFound => q.creator >= |s.wallets| || !c.published(q.creator)
      case RewardNotFound => q.reward.Some? &&
        (q.reward.value >= |s.rewards| || c.rewardOwner(q.reward.value) != q.creator || !s.rewards[q.reward.value].active)
      case CampaignNotFound => q.campaign.Some? &&
        (q.campaign.value >= |s.campaigns| || c.campaignOwner(q.campaign.value) != q.creator)
      case LinkNotFound => q.link.Some? && (q.link.value >= |s.links| || c.linkOwner(q.link.value) != q.creator)
      case RewardWithVote => q.reward.Some? && q.poll.Some?
      case PollNotFound => q.poll.Some? && (c.pollOwner(q.poll.value) != Some(q.creator) || !c.pollActive(q.poll.value))
      case PollIncomplete => q.poll.Some? != q.option.Some?
      case OptionNotFound => q.poll.Some? && q.option.Some? &&
        (q.option.value >= |s.options| || c.optionPoll(q.option.value) != q.poll.value)
      case SignInRequired => (q.reward.Some? || q.poll.Some?) && q.supporter.None?
      case SoldOut => q.reward.Some? && q.reward.value < |s.rewards| && s.rewards[q.reward.value].limit.Some? &&
        s.rewards[q.reward.value].claimed >= s.rewards[q.reward.value].limit.value
      case AlreadyUnlocked => q.reward.Some? && q.supporter.Some? &&
        exists i :: 0 <= i < |s.unlocks| && s.unlocks[i].user == q.supporter.value && s.unlocks[i].reward == q.reward.value
      case MessageRequired => q.featureRequest && (q.message.None? || AllSpace(q.message.value))
      case _ => false
  {
    NormalizedIsTrimmed(q.message);
  }

  // --- what is stored ------------------------------------------------------------------------------

  /** The row carries the columns of the order and five per cent of its amount as the fee, to the nearest
      cent, the rest being the creator's. */
  predicate Carries(p: Support, d: Draft) {
    p.creator == d.creator && p.gross == d.gross && p.supporter == d.supporter && p.reward == d.reward && p.vote == d.vote &&
    p.campaign == d.campaign && p.link == d.link &&
    -10 <= 20 * p.fee - d.gross <= 10 && p.fee >= 0 && p.fee + p.net == d.gross
  }

  /** Placing an order adds one row, pending and unpaid, and changes nothing else. It is possible iff the rows
      that the order refers to exist and whoever orders a reward or a vote is signed in. */
  lemma OrderIsStored(s: State, d: Draft)
    ensures Enabled(s, StartSupport(d)) <==>
      d.creator < |s.wallets| && (d.supporter.Some? ==> d.supporter.value < |s.wallets|) &&
      (d.reward.Some? || d.vote.Some? ==> d.supporter.Some?) && (d.reward.Some? ==> d.reward.value < |s.rewards|) &&
      (d.vote.Some? ==> d.vote.value < |s.options|) && (d.campaign.Some? ==> d.campaign.value < |s.campaigns|) &&
      (d.link.Some? ==> d.link.value < |s.links|)
    ensures var t := Next(s, StartSupport(d));
      if Enabled(s, StartSupport(d)) then
        |t.supports| == |s.supports| + 1 && t == s.(supports := t.supports) && s.supports <= t.supports &&
        var p := t.supports[|s.supports|];
        Carries(p, d) && p.status == PaymentStatus.Pending && p.intent == PaymentStatus.Pending && p.settlement == Held &&
        p.availableAt == p.appliedAt == None && !p.credited
      else t == s
  {
    Fees.FeeIsNearest(d.gross, d.tieUp, 0);
  }

  /** Step k of the run placed the order that is now support `sid`. */
  ghost predicate PlacedBy(run: seq<Step>, k: int, sid: nat) {
    0 <= k < |run| && run[k].StartSupport? && |After(EMPTY, run[..k]).supports| == sid && Enabled(After(EMPTY, run[..k]), run[k])
  }

  lemma StepAdds(s: State, step: Step)
    requires Inv(s) && !(step.StartSupport? && Enabled(s, step))
    ensures |Next(s, step).supports| == |s.supports|
  {
    hide Inv, Next;
    if step.StartSupport? {
      NotEnabled(s, step);
    } else {
      Payments.OthersKeepCount(s, step);
    }
  }

  /** Every support of every run was ordered by one step of it, and still is what was ordered. */
  lemma {:induction false} EverySupportWasOrdered(run: seq<Step>, sid: nat)
    requires sid < |After(EMPTY, run).supports|
    ensures exists k :: PlacedBy(run, k, sid) && Carries(After(EMPTY, run).supports[sid], run[k].draft)
  {
    hide Inv, Next, Enabled, Carries;
    var n := |run| - 1;
    var s := After(EMPTY, run[..n]);
    Safety.ReachableIsSafe(run[..n]);
    if sid < |s.supports| {
      EverySupportWasOrdered(run[..n], sid);
      var k :| PlacedBy(run[..n], k, sid) && Carries(s.supports[sid], run[k].draft);
      assert run[..n][..k] == run[..k];
      Payments.StepMarches(s, run[n]);
      CarriesOn(s.supports, After(EMPTY, run).supports, sid, run[k].draft);
      assert PlacedBy(run, k, sid);
    } else {
      if !(run[n].StartSupport? && Enabled(s, run[n])) { StepAdds(s, run[n]); }
      OrderIsStored(s, run[n].draft);
      assert PlacedBy(run, n, sid);
    }
  }

  lemma CarriesOn(supports: seq<Support>, supports': seq<Support>, sid: nat, d: Draft)
    requires Payments.AllMarch(supports, supports') && sid < |supports| && Carries(supports[sid], d)
    ensures Carries(supports'[sid], d)
  {
    assert Payments.Marches(supports[sid], supports'[sid]);
  }

  // --- what the platform earns ---------------------------------------------------------------------

  function AppliedCount(): Support -> int { (p: Support) => if p.Applied() then 1 else 0 }

  lemma {:induction false} RoundingAddsUp(supports: seq<Support>)
    requires forall i :: 0 <= i < |supports| ==> -10 <= 20 * supports[i].fee - supports[i].gross <= 10
    ensures var off := 20 * Sum(supports, FeesCharged()) - Sum(supports, GrossCaptured());
      -10 * Sum(supports, AppliedCount()) <= off <= 10 * Sum(supports, AppliedCount())
  {
    if |supports| > 0 { RoundingAddsUp(supports[..|supports| - 1]); }
  }

  /** After every run the platform's revenue account holds five per cent of what the payment processor
      has captured, up to half a cent for each applied support. */
  lemma RevenueIsFivePercent(run: seq<Step>)
    ensures var s := After(EMPTY, run);
      var revenue, captured := Conservation.Total(s, PlatformRevenue), -Conservation.Total(s, ProcessorClearing);
      -10 * Sum(s.supports, AppliedCount()) <= 20 * revenue - captured <= 10 * Sum(s.supports, AppliedCount())
  {
    hide KeysBoundOnce, Closed, BooksMirror, BooksAgree, ControlsAgree, EarningsMirror, Audited, RewardsCounted,
         VotesCounted, EventsMirror, TalliesExact, CallsOk;
    Safety.ReachableIsSafe(run);
    Conservation.TrialBalanceIsZero(run);
    var s := After(EMPTY, run);
    forall i | 0 <= i < |s.supports| ensures -10 <= 20 * s.supports[i].fee - s.supports[i].gross <= 10 {
      assert SupportOk(s.supports[i], SizesOf(s));
    }
    RoundingAddsUp(s.supports);
  }
}
