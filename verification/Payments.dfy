/** Payments over whole runs: what is applied at most once, and what a stale failure can do. */
module Payments {
  import opened Tables
  import opened Sums
  import opened Postings
  import opened ClosedForms
  import opened Invariants
  import opened Engine
  import opened Steps
  import Bookkeeping
  import PaymentProofs
  import OutboxProofs
  import Safety

  // --- applied at most once --------------------------------------------------------------------

  function BatchFor(m: Move): Batch -> int { (b: Batch) => if b.key == m then 1 else 0 }
  function LedgerFor(m: Move): LedgerRow -> int { (r: LedgerRow) => if r.key == m then 1 else 0 }

  lemma LastIsNew<K>(keys: seq<K>, k: K)
    requires |keys| > 0 && Distinct(keys)
    ensures k in keys <==> k in keys[..|keys| - 1] || k == keys[|keys| - 1]
    ensures k in keys[..|keys| - 1] ==> k != keys[|keys| - 1]
  {
    assert keys == keys[..|keys| - 1] + [keys[|keys| - 1]];
  }

  lemma {:induction false} BatchesCounted(batches: seq<Batch>, m: Move)
    requires Distinct(BatchKeys(batches))
    ensures Sum(batches, BatchFor(m)) == One(m in BatchKeys(batches))
  {
    if |batches| > 0 {
      var n := |batches| - 1;
      var keys := BatchKeys(batches);
      assert BatchKeys(batches[..n]) == keys[..n] && keys == keys[..n] + [batches[n].key];
      LastIsNew(keys, m);
      BatchesCounted(batches[..n], m);
    }
  }

  lemma {:induction false} LedgerCounted(ledger: seq<LedgerRow>, m: Move)
    requires Distinct(LedgerKeys(ledger))
    ensures Sum(ledger, LedgerFor(m)) == One(m in LedgerKeys(ledger))
  {
    if |ledger| > 0 {
      var n := |ledger| - 1;
      var keys := LedgerKeys(ledger);
      assert LedgerKeys(ledger[..n]) == keys[..n] && keys == keys[..n] + [ledger[n].key];
      LastIsNew(keys, m);
      LedgerCounted(ledger[..n], m);
    }
  }

  /** Posting keys mirror status: each movement has exactly one batch and one wallet transaction if
      the status says it happened, and none otherwise. */
  lemma PostingsMirrorStatus(run: seq<Step>, m: Move)
    ensures var s := After(EMPTY, run);
      Sum(s.batches, BatchFor(m)) == Sum(s.ledger, LedgerFor(m)) == One(Happened(m, s.supports, s.withdrawals))
  {
    Safety.ReachableIsSafe(run);
    var s := After(EMPTY, run);
    BatchesCounted(s.batches, m);
    LedgerCounted(s.ledger, m);
  }

  /** Everything that applying support `sid` creates, counted. */
  ghost predicate AppliedTimes(s: State, sid: nat, times: int)
    requires sid < |s.supports|
  {
    Sum(s.calls, ConfirmedFor(sid)) == times &&
    Sum(s.batches, BatchFor(Capture(sid))) == times && Sum(s.ledger, LedgerFor(Capture(sid))) == times &&
    Sum(s.outbox.events, ForEvent(sid, Projection)) == times && Sum(s.outbox.events, ForEvent(sid, Telegram)) == times &&
    Sum(s.unlocks, ForUnlockOf(sid)) == (if s.supports[sid].reward.Some? then times else 0) &&
    Sum(s.votes, ForVoteOf(sid)) == (if s.supports[sid].vote.Some? then times else 0)
  }

  lemma TracesCounted(s: State, sid: nat)
    requires Inv(s) && sid < |s.supports|
    ensures var times := One(s.supports[sid].Applied());
      Sum(s.calls, ConfirmedFor(sid)) == times && Sum(s.calls, WebhookFor(sid)) <= 1 &&
      (forall kind :: Sum(s.outbox.events, ForEvent(sid, kind)) == times) &&
      Sum(s.unlocks, ForUnlockOf(sid)) == (if s.supports[sid].reward.Some? then times else 0) &&
      Sum(s.votes, ForVoteOf(sid)) == (if s.supports[sid].vote.Some? then times else 0)
  {
    hide KeysBoundOnce, Closed, BooksMirror, BooksAgree, ControlsAgree, EarningsMirror, Audited, TalliesExact, Sum;
    assert SupportOk(s.supports[sid], SizesOf(s));
  }

  /** Under any interleaving of webhook and verify calls, however stale their snapshots: a support
      is confirmed to exactly one caller if it is applied and to none otherwise, with exactly that
      many pending credits, capture batches, unlocked rewards, paid votes and outbox pairs; and at
      most one webhook call per reference gets past the event table. */
  lemma AppliedAtMostOnce(run: seq<Step>, sid: nat)
    requires sid < |After(EMPTY, run).supports|
    ensures AppliedTimes(After(EMPTY, run), sid, One(After(EMPTY, run).supports[sid].Applied()))
    ensures Sum(After(EMPTY, run).calls, WebhookFor(sid)) <= 1
  {
    hide Inv, After, Sum;
    Safety.ReachableIsSafe(run);
    PostingsMirrorStatus(run, Capture(sid));
    TracesCounted(After(EMPTY, run), sid);
  }

  /** Rewards are counted exactly and never over-claimed, nobody unlocks a reward twice, and the votes
      of an option are the paid votes for it. */
  lemma PerksAreExact(run: seq<Step>)
    ensures var s := After(EMPTY, run);
      (forall r :: 0 <= r < |s.rewards| ==>
        s.rewards[r].claimed == Sum(s.unlocks, ForReward(r)) &&
        (s.rewards[r].limit.Some? ==> s.rewards[r].claimed <= s.rewards[r].limit.value)) &&
      (forall i, j :: 0 <= i < j < |s.unlocks| ==> (s.unlocks[i].user, s.unlocks[i].reward) != (s.unlocks[j].user, s.unlocks[j].reward)) &&
      (forall o :: 0 <= o < |s.options| ==> s.options[o] == Sum(s.votes, ForOption(o)))
  {
    Safety.ReachableIsSafe(run);
    hide RowsOk, KeysBoundOnce, Closed, BooksMirror, BooksAgree, ControlsAgree, EarningsMirror, Audited,
         EventsMirror, TalliesExact, CallsOk;
  }

  /** The order is for a reward that is switched off, sold out, or already unlocked by this supporter. */
  predicate PerkGone(s: State, snap: Support) {
    snap.reward.Some? && snap.reward.value < |s.rewards| && snap.supporter.Some? &&
    (!s.rewards[snap.reward.value].active || SoldOutNow(s.rewards[snap.reward.value]) ||
     HasUnlocked(s.unlocks, snap.supporter.value, snap.reward.value))
  }

  /** Exactly when applying a verified payment throws: the snapshot is no longer pending, or the
      support is not applied yet and its reward is gone or already owned. No other check on the way
      (sign-in, vote, wallet, balances, posting) can throw. */
  lemma ApplyFailsIff(s: State, sid: nat, snap: Support, paidAt: int, holdDays: nat)
    requires Inv(s) && sid < |s.supports| && SameOrder(snap, s.supports[sid])
    ensures s.supports[sid].creator < |s.wallets|
    ensures var r := ApplyPayment(s, sid, snap, paidAt, holdDays);
      (r == Err(InvalidTransition) <==> snap.status != PaymentStatus.Pending || snap.intent != PaymentStatus.Pending) &&
      (r.Err? <==> r == Err(InvalidTransition) || (!s.supports[sid].Applied() && PerkGone(s, snap)))
  {
    hide Inv, Entitle, CastVote, Post, PerkGone, Paid, Enqueued;
    PerkRows(s, sid, snap);
    EntitleFailsIff(s.(supports := s.supports[sid := Paid(s.supports[sid], paidAt, holdDays)]), sid, snap);
    PerkGoneLooksAtPerks(s, s.(supports := s.supports[sid := Paid(s.supports[sid], paidAt, holdDays)]), snap);
  }

  /** What an order refers to exists. */
  lemma PerkRows(s: State, sid: nat, snap: Support)
    requires Inv(s) && sid < |s.supports| && SameOrder(snap, s.supports[sid])
    ensures s.supports[sid].creator < |s.wallets|
    ensures snap.reward.Some? ==> snap.supporter.Some? && snap.reward.value < |s.rewards|
  {
    hide KeysBoundOnce, Closed, BooksMirror, BooksAgree, ControlsAgree, EarningsMirror, Audited, RewardsCounted,
         VotesCounted, EventsMirror, TalliesExact, CallsOk;
    assert SupportOk(s.supports[sid], SizesOf(s));
  }

  lemma EntitleFailsIff(s: State, sid: nat, snap: Support)
    requires snap.reward.Some? ==> snap.supporter.Some? && snap.reward.value < |s.rewards|
    ensures var r := Entitle(s, sid, snap);
      (r.Err? <==> PerkGone(s, snap)) && r != Err(InvalidTransition)
  {
    hide HasUnlocked;
  }

  lemma PerkGoneLooksAtPerks(s: State, t: State, snap: Support)
    requires s.rewards == t.rewards && s.unlocks == t.unlocks
    ensures PerkGone(s, snap) <==> PerkGone(t, snap)
  {
  }

  // --- from validation to the insert -------------------------------------------------------------

  /** Tables only grow. */
  predicate Grown(s: State, t: State) {
    |s.wallets| <= |t.wallets| && |s.rewards| <= |t.rewards| && |s.options| <= |t.options| &&
    |s.campaigns| <= |t.campaigns| && |s.links| <= |t.links|
  }

  lemma ApplyGrows(s: State, sid: nat, snap: Support, paidAt: int, holdDays: nat)
    requires ApplyPayment.requires(s, sid, snap, paidAt, holdDays)
    ensures var r := ApplyPayment(s, sid, snap, paidAt, holdDays); r.Ok? ==> Grown(s, r.value.0)
  {
    hide Moved, EntriesOf, HasUnlocked, Enqueued;
  }

  lemma RequestGrows(s: State, q: Request)
    ensures var r := RequestWithdrawal(s, q); r.Ok? ==> Grown(s, r.value.0)
  {
    hide Moved, EntriesOf;
  }

  lemma UpdateGrows(s: State, actor: nat, wid: nat, target: WithdrawalStatus, at: int)
    requires UpdateStatus.requires(s, actor, wid, target, at)
    ensures var r := UpdateStatus(s, actor, wid, target, at); r.Ok? ==> Grown(s, r.value)
  {
    hide Moved, EntriesOf;
    if UpdateStatus(s, actor, wid, target, at).Ok? {
      assert Advanced(s.withdrawals[wid], target, at).user == s.withdrawals[wid].user < |s.wallets|;
    }
  }

  lemma SettlementGrows(s: State, sid: nat, now: int)
    requires Settle.requires(s, sid, now)
    ensures var r := Settle(s, sid, now); r.Ok? ==> Grown(s, r.value.0)
  {
    hide Moved, EntriesOf;
  }

  lemma StepGrows(s: State, step: Step)
    ensures Grown(s, Next(s, step))
  {
    hide Next, Grown;
    if !Enabled(s, step) {
      NotEnabled(s, step);
      StaysGrown(s);
    } else {
      match step
      case ResolveCall(c, _, paidAt, holdDays) =>
        ApplyGrows(s, s.calls[c].sid, s.calls[c].phase.snapshot, paidAt, holdDays);
        TransactionGrows(s, step);
      case Ask(q) =>
        RequestGrows(s, q);
        TransactionGrows(s, step);
      case SetStatus(actor, wid, target, at) =>
        UpdateGrows(s, actor, wid, target, at);
        TransactionGrows(s, step);
      case SettleOne(sid, now) =>
        SettlementGrows(s, sid, now);
        TransactionGrows(s, step);
      case Outboxing(work) =>
        WorkGrows(s, work);
        TransactionGrows(s, step);
      case _ => OtherGrows(s, step);
    }
  }

  lemma StaysGrown(s: State)
    ensures Grown(s, s)
  {
  }

  lemma WorkGrows(s: State, work: WorkStep)
    requires CanWork(s.outbox, work)
    ensures Grown(s, WorkOn(s, work))
  {
    OutboxProofs.WorkFrame(s, work);
  }

  lemma TransactionGrows(s: State, step: Step)
    requires Enabled(s, step)
    requires match step
      case ResolveCall(c, _, paidAt, holdDays) =>
        var r := ApplyPayment(s, s.calls[c].sid, s.calls[c].phase.snapshot, paidAt, holdDays);
        r.Ok? ==> Grown(s, r.value.0)
      case Ask(q) => var r := RequestWithdrawal(s, q); r.Ok? ==> Grown(s, r.value.0)
      case SetStatus(actor, wid, target, at) => var r := UpdateStatus(s, actor, wid, target, at); r.Ok? ==> Grown(s, r.value)
      case SettleOne(sid, now) => var r := Settle(s, sid, now); r.Ok? ==> Grown(s, r.value.0)
      case Outboxing(work) => Grown(s, WorkOn(s, work))
      case _ => false
    ensures Grown(s, Next(s, step))
  {
    hide ApplyPayment, RequestWithdrawal, UpdateStatus, Settle, WorkOn;
  }

  lemma OtherGrows(s: State, step: Step)
    requires !step.ResolveCall? && !step.Ask? && !step.SetStatus? && !step.SettleOne? && !step.Outboxing?
    ensures Grown(s, Next(s, step))
  {
    hide NewSupport;
  }

  /** For an anonymous or signed-in supporter validation yields an order that refers only to the creator's own, existing rows, asks for a reward or
      a vote but not both, and costs what it asks for; and it can be inserted however much later, after
      any other steps. */
  lemma PreparedStaysPlaceable(s: State, c: Catalogue, q: Wish, tieUp: bool, run: seq<Step>)
    requires q.supporter.Some? ==> q.supporter.value < |s.wallets|
    requires PrepareInitiation(s, c, q, tieUp).Ok?
    ensures var d := PrepareInitiation(s, c, q, tieUp).value;
      Placeable(After(s, run), d) && d.gross == Price(c, q) && !(d.reward.Some? && d.vote.Some?) &&
      (d.reward.Some? ==> c.rewardOwner(d.reward.value) == d.creator) &&
      (d.vote.Some? ==> c.pollOwner(c.optionPoll(d.vote.value)) == Some(d.creator)) &&
      (d.campaign.Some? ==> c.campaignOwner(d.campaign.value) == d.creator) &&
      (d.link.Some? ==> c.linkOwner(d.link.value) == d.creator)
  {
    hide After;
    RunGrows(s, run);
  }

  lemma {:induction false} RunGrows(s: State, run: seq<Step>)
    ensures Grown(s, After(s, run))
  {
    hide Next;
    if |run| > 0 {
      RunGrows(s, run[..|run| - 1]);
      StepGrows(After(s, run[..|run| - 1]), run[|run| - 1]);
    }
  }

  // --- what never changes ----------------------------------------------------------------------

  /** Once written, the application mark stays, with everything written with it; a settled support
      stays settled; the order never changes. */
  ghost predicate Marches(p: Support, q: Support) {
    SameOrder(p, q) &&
    (p.Applied() ==> q.appliedAt == p.appliedAt && q.availableAt == p.availableAt && q.credited == p.credited) &&
    (p.Applied() && p.settlement == Available ==> q.settlement == Available) &&
    (p.Applied() && p.status == Failed ==> q.status == Failed && q.settlement == p.settlement)
  }

  ghost predicate AllMarch(s: seq<Support>, s': seq<Support>) {
    |s| <= |s'| && forall i :: 0 <= i < |s| ==> Marches(s[i], s'[i])
  }

  lemma StepMarches(s: State, step: Step)
    requires Inv(s)
    ensures AllMarch(s.supports, Next(s, step).supports)
  {
    hide Inv, Marches;
    if step.ResolveCall? {
      if Enabled(s, step) { ResolveMarches(s, step); }
    } else if step.SettleOne? {
      SettleMarches(s, step);
    } else {
      OthersLeave(s, step);
      AddingMarches(s.supports, Next(s, step).supports);
    }
    StayingMarches(s.supports);
  }

  lemma StayingMarches(supports: seq<Support>)
    ensures AllMarch(supports, supports)
  {
  }

  lemma AddingMarches(supports: seq<Support>, supports': seq<Support>)
    requires supports <= supports'
    ensures AllMarch(supports, supports')
  {
  }

  lemma OthersLeave(s: State, step: Step)
    requires !step.ResolveCall? && !step.SettleOne?
    ensures s.supports <= Next(s, step).supports
  {
    hide Moved, EntriesOf, Work, Bump, NewSupport, LatestAudit, FindByKey;
  }

  lemma OthersKeepCount(s: State, step: Step)
    requires !step.StartSupport?
    ensures |Next(s, step).supports| == |s.supports|
  {
    hide Next;
    match step
    case ResolveCall(_, _, _, _) => MovesKeepCount(s, step);
    case SettleOne(_, _) => MovesKeepCount(s, step);
    case Ask(_) => WithdrawalsKeepCount(s, step);
    case SetStatus(_, _, _, _) => WithdrawalsKeepCount(s, step);
    case _ => RestKeepsCount(s, step);
  }

  lemma MovesKeepCount(s: State, step: Step)
    requires step.ResolveCall? || step.SettleOne?
    ensures |Next(s, step).supports| == |s.supports|
  {
    hide Moved, EntriesOf, Enqueued, HasUnlocked;
  }

  lemma WithdrawalsKeepCount(s: State, step: Step)
    requires step.Ask? || step.SetStatus?
    ensures |Next(s, step).supports| == |s.supports|
  {
    hide Moved, EntriesOf, LatestAudit, FindByKey;
  }

  lemma RestKeepsCount(s: State, step: Step)
    requires !step.StartSupport? && !step.ResolveCall? && !step.SettleOne? && !step.Ask? && !step.SetStatus?
    ensures |Next(s, step).supports| == |s.supports|
  {
    hide Work, Bump;
  }

  lemma SettleMarches(s: State, step: Step)
    requires step.SettleOne?
    ensures AllMarch(s.supports, Next(s, step).supports)
  {
    hide Moved, EntriesOf;
  }

  lemma RowMarches(supports: seq<Support>, sid: nat, p: Support)
    requires sid < |supports| && Marches(supports[sid], p)
    ensures AllMarch(supports, supports[sid := p])
  {
  }

  lemma ResolveMarches(s: State, step: Step)
    requires step.ResolveCall? && Enabled(s, step)
    ensures AllMarch(s.supports, Next(s, step).supports)
  {
    hide ApplyPayment, AllMarch;
    var sid, snap := s.calls[step.call].sid, s.calls[step.call].phase.snapshot;
    var p := s.supports[sid];
    PaymentProofs.ApplyFrame(s, sid, snap, step.paidAt, step.holdDays);
    if !p.Applied() { RowMarches(s.supports, sid, Paid(p, step.paidAt, step.holdDays)); }
    RowMarches(s.supports, sid, p.(status := Failed, intent := Failed));
    RowMarches(s.supports, sid, p);
    assert s.supports[sid := p] == s.supports;
  }

  lemma {:induction false} RunMarches(s: State, run: seq<Step>)
    requires Inv(s)
    ensures AllMarch(s.supports, After(s, run).supports)
  {
    hide Inv, Next;
    if |run| > 0 {
      var init := run[..|run| - 1];
      RunMarches(s, init);
      Safety.RunKeeps(s, init);
      StepMarches(After(s, init), run[|run| - 1]);
    }
  }

  // --- the stale failure -----------------------------------------------------------------------

  /** Paid for and credited, but marked failed before it was settled. */
  predicate Stranded(p: Support) { p.Applied() && p.status == Failed && p.settlement == Held }

  /** A failure strands a credited support exactly if the support was applied after the caller read
      it: the snapshot still says pending while the row is applied and unsettled. */
  lemma FailureStrandsIff(s: State, sid: nat, snap: Support)
    requires Inv(s) && sid < |s.supports| && !Stranded(s.supports[sid])
    ensures var r := FailPayment(s, sid, snap);
      (r.Ok? && Stranded(r.value.supports[sid])) <==>
      (s.supports[sid].Applied() && s.supports[sid].settlement == Held &&
       snap.status == PaymentStatus.Pending && snap.intent == PaymentStatus.Pending)
  {
    assert SupportOk(s.supports[sid], SizesOf(s));
  }

  /** A stranded support is never settled, by any later run: its net amount stays in the creator's
      pending balance for good. */
  lemma StrandedForever(s: State, sid: nat, run: seq<Step>)
    requires Inv(s) && sid < |s.supports| && Stranded(s.supports[sid])
    ensures var t := After(s, run);
      sid < |t.supports| && Stranded(t.supports[sid]) && t.supports[sid].net == s.supports[sid].net &&
      t.supports[sid].creator < |t.wallets| &&
      t.wallets[t.supports[sid].creator].balances.pending >= s.supports[sid].net
  {
    RunMarches(s, run);
    Safety.RunKeeps(s, run);
    var t := After(s, run);
    assert Marches(s.supports[sid], t.supports[sid]);
    assert SupportOk(t.supports[sid], SizesOf(t));
    Bookkeeping.GuardsHold(t);
  }

  /** Stranded supports are the only ones that settlement passes over: an applied support that is held
      and due is ripe exactly if it is not stranded. */
  lemma RipeIffNotStranded(s: State, sid: nat, now: int)
    requires Inv(s) && sid < |s.supports| && s.supports[sid].Applied() && s.supports[sid].settlement == Held
    requires s.supports[sid].availableAt.Some? ==> s.supports[sid].availableAt.value <= now
    ensures Ripe(s.supports[sid], now) <==> !Stranded(s.supports[sid])
  {
    hide KeysBoundOnce, Closed, BooksMirror, BooksAgree, ControlsAgree, EarningsMirror, Audited, RewardsCounted,
         VotesCounted, EventsMirror, TalliesExact, CallsOk;
    assert SupportOk(s.supports[sid], SizesOf(s));
  }

  /** The run that strands a support: a verify call and a webhook call both read the pending row, one
      is told the payment succeeded and the other that it did not. */
  function StrandingRun(): seq<Step> {
    [ Register, StartSupport(ORDER), OpenCall(Verify, 0), OpenCall(Webhook, 0), LoadCall(0), LoadCall(1),
      ResolveCall(0, Success, 5, 7), ResolveCall(1, Unsuccessful, 6, 7) ]
  }

  const ORDER := Draft(0, 10000, false, None, None, None, None, None)
  const NEW_SUPPORT := Support(0, 10000, 500, 9500, None, None, None, None, None,
                               PaymentStatus.Pending, PaymentStatus.Pending, Held, None, None, false)
  const ORDERED := EMPTY.(wallets := [NEW_WALLET], supports := [NEW_SUPPORT])
  const BOTH_READ := ORDERED.(webhooks := map[0 := false],
                              calls := [Call(Verify, 0, Holding(NEW_SUPPORT)), Call(Webhook, 0, Holding(NEW_SUPPORT))])

  const OPENED := ORDERED.(webhooks := map[0 := false], calls := [Call(Verify, 0, Started), Call(Webhook, 0, Started)])

  lemma OrderPlaced()
    ensures Next(Next(EMPTY, Register), StartSupport(ORDER)) == ORDERED
  {
    var s := Next(EMPTY, Register);
    assert s == EMPTY.(wallets := [NEW_WALLET]);
    assert Next(s, StartSupport(ORDER)).supports == [NEW_SUPPORT];
  }

  lemma CallsOpened()
    ensures Next(Next(ORDERED, OpenCall(Verify, 0)), OpenCall(Webhook, 0)) == OPENED
  {
    var s := Next(ORDERED, OpenCall(Verify, 0));
    assert s == ORDERED.(calls := [Call(Verify, 0, Started)]);
  }

  lemma CallsLoaded()
    ensures Next(Next(OPENED, LoadCall(0)), LoadCall(1)) == BOTH_READ
  {
    var s := Next(OPENED, LoadCall(0));
    assert s.calls == [Call(Verify, 0, Holding(NEW_SUPPORT)), Call(Webhook, 0, Started)];
    assert Next(s, LoadCall(1)).calls == BOTH_READ.calls;
  }

  lemma BothRead()
    ensures After(EMPTY, StrandingRun()[..6]) == BOTH_READ
  {
    hide Next;
    var r := StrandingRun();
    AfterTakes(EMPTY, r, 1);
    AfterTakes(EMPTY, r, 2);
    OrderPlaced();
    AfterTakes(EMPTY, r, 3);
    AfterTakes(EMPTY, r, 4);
    CallsOpened();
    AfterTakes(EMPTY, r, 5);
    AfterTakes(EMPTY, r, 6);
    CallsLoaded();
  }

  const PAID := Paid(NEW_SUPPORT, 5, 7)

  lemma OnePays()
    ensures var t := Next(BOTH_READ, ResolveCall(0, Success, 5, 7));
      t.wallets == [NEW_WALLET.(balances := Balances(0, 9500, 0), earned := 9500)] &&
      t.supports == [PAID] && |t.calls| == 2 && t.calls[1] == BOTH_READ.calls[1]
  {
    hide EntriesOf, Enqueued;
  }

  lemma OtherFails(t: State)
    requires |t.wallets| == 1 && t.supports == [PAID] && |t.calls| == 2 && t.calls[1] == BOTH_READ.calls[1]
    ensures Next(t, ResolveCall(1, Unsuccessful, 6, 7)).supports == [PAID.(status := Failed, intent := Failed)]
  {
    hide ApplyPayment;
  }

  lemma StrandingIsReachable()
    ensures var s := After(EMPTY, StrandingRun()); |s.supports| == 1 && Stranded(s.supports[0])
  {
    hide Next;
    var r := StrandingRun();
    BothRead();
    AfterTakes(EMPTY, r, 7);
    AfterTakes(EMPTY, r, 8);
    assert r[..8] == r;
    OnePays();
    OtherFails(Next(BOTH_READ, r[6]));
  }
}
