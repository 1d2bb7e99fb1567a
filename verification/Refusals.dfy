/** Paid orders that can no longer be applied, because their reward has meanwhile sold out or been
    unlocked by the same supporter. */
module Refusals {
  import opened Tables
  import opened Postings
  import opened ClosedForms
  import opened Invariants
  import opened Engine
  import opened Steps
  import opened Payments
  import PaymentProofs
  import Safety

  // --- rewards only fill up ------------------------------------------------------------------------

  /** Rewards keep their limit and are never unclaimed; unlocks are only added. */
  ghost predicate PerksGrow(s: State, t: State) {
    |s.rewards| <= |t.rewards| && s.unlocks <= t.unlocks &&
    forall r :: 0 <= r < |s.rewards| ==> t.rewards[r].limit == s.rewards[r].limit && t.rewards[r].claimed >= s.rewards[r].claimed
  }

  lemma EntitleGrows(s: State, sid: nat, snap: Support)
    ensures var r := Entitle(s, sid, snap); r.Ok? ==> PerksGrow(s, r.value)
  {
    hide HasUnlocked, SoldOutNow;
  }

  lemma ApplyPerks(s: State, sid: nat, snap: Support, paidAt: int, holdDays: nat)
    requires ApplyPayment.requires(s, sid, snap, paidAt, holdDays)
    ensures var r := ApplyPayment(s, sid, snap, paidAt, holdDays); r.Ok? ==> PerksGrow(s, r.value.0)
  {
    hide Entitle, Moved, EntriesOf, Enqueued, Paid;
    var marked := s.(supports := s.supports[sid := Paid(s.supports[sid], paidAt, holdDays)]);
    EntitleGrows(marked, sid, snap);
  }

  lemma StepPerks(s: State, step: Step)
    ensures PerksGrow(s, Next(s, step))
  {
    hide PerksGrow, Next;
    match step
    case ResolveCall(c, _, paidAt, holdDays) =>
      if Enabled(s, step) { ApplyPerks(s, s.calls[c].sid, s.calls[c].phase.snapshot, paidAt, holdDays); }
      ResolvePerks(s, step);
    case AddReward(_) => RewardSteps(s, step);
    case ToggleReward(_, _) => RewardSteps(s, step);
    case _ =>
      OtherPerks(s, step);
      SamePerks(s, Next(s, step));
  }

  lemma SamePerks(s: State, t: State)
    requires t.rewards == s.rewards && t.unlocks == s.unlocks
    ensures PerksGrow(s, t)
  {
  }

  lemma ResolvePerks(s: State, step: Step)
    requires step.ResolveCall?
    requires Enabled(s, step) ==>
      var r := ApplyPayment(s, s.calls[step.call].sid, s.calls[step.call].phase.snapshot, step.paidAt, step.holdDays);
      r.Ok? ==> PerksGrow(s, r.value.0)
    ensures PerksGrow(s, Next(s, step))
  {
    hide ApplyPayment;
  }

  lemma RewardSteps(s: State, step: Step)
    requires step.AddReward? || step.ToggleReward?
    ensures PerksGrow(s, Next(s, step))
  {
  }

  lemma OtherPerks(s: State, step: Step)
    requires !step.ResolveCall? && !step.AddReward? && !step.ToggleReward?
    ensures Next(s, step).rewards == s.rewards && Next(s, step).unlocks == s.unlocks
  {
    hide Moved, EntriesOf, Work, Bump, NewSupport, LatestAudit, FindByKey;
  }

  // --- denied for good -----------------------------------------------------------------------------

  /** Not applied, and ordered for a reward that is sold out or owned by the supporter already. */
  predicate Denied(s: State, sid: nat) {
    sid < |s.supports| && !s.supports[sid].Applied() &&
    s.supports[sid].reward.Some? && s.supports[sid].supporter.Some? && s.supports[sid].reward.value < |s.rewards| &&
    (SoldOutNow(s.rewards[s.supports[sid].reward.value]) ||
     HasUnlocked(s.unlocks, s.supports[sid].supporter.value, s.supports[sid].reward.value))
  }

  lemma DeniedGrows(s: State, t: State, sid: nat)
    requires Denied(s, sid) && PerksGrow(s, t)
    requires sid < |t.supports| && SameOrder(s.supports[sid], t.supports[sid]) && !t.supports[sid].Applied()
    ensures Denied(t, sid)
  {
    var user, r := s.supports[sid].supporter.value, s.supports[sid].reward.value;
    if HasUnlocked(s.unlocks, user, r) {
      var i :| 0 <= i < |s.unlocks| && s.unlocks[i].user == user && s.unlocks[i].reward == r;
      assert t.unlocks[i] == s.unlocks[i];
    }
  }

  /** Whoever tries to apply it now is refused. */
  lemma DeniedIsRefused(s: State, sid: nat, snap: Support, paidAt: int, holdDays: nat)
    requires Inv(s) && Denied(s, sid) && SameOrder(snap, s.supports[sid])
    ensures s.supports[sid].creator < |s.wallets| && ApplyPayment(s, sid, snap, paidAt, holdDays).Err?
  {
    hide Inv, ApplyPayment;
    ApplyFailsIff(s, sid, snap, paidAt, holdDays);
  }

  lemma HeldSnapshot(s: State, c: nat)
    requires Inv(s) && c < |s.calls|
    ensures SnapshotOk(s.calls[c], s.supports)
  {
    hide RowsOk, KeysBoundOnce, Closed, BooksMirror, BooksAgree, ControlsAgree, EarningsMirror, Audited, RewardsCounted,
         VotesCounted, EventsMirror, TalliesExact, SnapshotOk;
  }

  lemma StepDenied(s: State, step: Step, sid: nat)
    requires Inv(s) && Denied(s, sid)
    ensures Denied(Next(s, step), sid)
  {
    hide Inv, Next, Denied, PerksGrow;
    StepPerks(s, step);
    StepMarches(s, step);
    StillUnapplied(s, step, sid);
    DeniedMarches(s, Next(s, step), sid);
    DeniedGrows(s, Next(s, step), sid);
  }

  lemma DeniedMarches(s: State, t: State, sid: nat)
    requires Denied(s, sid) && AllMarch(s.supports, t.supports)
    ensures sid < |s.supports| && sid < |t.supports| && SameOrder(s.supports[sid], t.supports[sid])
  {
    assert Marches(s.supports[sid], t.supports[sid]);
  }

  lemma StillUnapplied(s: State, step: Step, sid: nat)
    requires Inv(s) && Denied(s, sid)
    ensures sid < |Next(s, step).supports| && !Next(s, step).supports[sid].Applied()
  {
    hide Inv, ApplyPayment, Moved, EntriesOf, Work, Bump, NewSupport, LatestAudit, FindByKey;
    if step.ResolveCall? && Enabled(s, step) {
      var c := step.call;
      HeldSnapshot(s, c);
      PaymentProofs.ApplyFrame(s, s.calls[c].sid, s.calls[c].phase.snapshot, step.paidAt, step.holdDays);
      if s.calls[c].sid == sid { DeniedIsRefused(s, sid, s.calls[c].phase.snapshot, step.paidAt, step.holdDays); }
    }
  }

  /** Once the reward is sold out or owned by this supporter, no later run applies the support, whatever
      the provider says and however many calls try; and each such call ends in an error. */
  lemma {:induction false} DeniedForever(s: State, sid: nat, run: seq<Step>)
    requires Inv(s) && Denied(s, sid)
    ensures Denied(After(s, run), sid) && Inv(After(s, run))
  {
    hide Inv, Next, Denied;
    if |run| > 0 {
      var n := |run| - 1;
      DeniedForever(s, sid, run[..n]);
      StepDenied(After(s, run[..n]), run[n], sid);
    }
    Safety.RunKeeps(s, run);
  }

  lemma DeniedCallRaises(s: State, c: nat, paidAt: int, holdDays: nat)
    requires Enabled(s, ResolveCall(c, Success, paidAt, holdDays)) && Denied(s, s.calls[c].sid) && Inv(s)
    ensures var t := Next(s, ResolveCall(c, Success, paidAt, holdDays));
      t.supports == s.supports && t.wallets == s.wallets && |t.calls| == |s.calls| &&
      t.calls[c].phase.Finished? && t.calls[c].phase.reply.Raised?
  {
    hide Inv, ApplyPayment, Denied;
    HeldSnapshot(s, c);
    DeniedIsRefused(s, s.calls[c].sid, s.calls[c].phase.snapshot, paidAt, holdDays);
  }

  // --- and only those ------------------------------------------------------------------------------

  predicate Waiting(s: State, sid: nat) {
    sid < |s.supports| && !s.supports[sid].Applied() &&
    s.supports[sid].status == PaymentStatus.Pending && s.supports[sid].intent == PaymentStatus.Pending
  }

  lemma Opens(s: State, sid: nat)
    requires Waiting(s, sid)
    ensures Next(s, OpenCall(Verify, sid)) == s.(calls := s.calls + [Call(Verify, sid, Started)])
    ensures var t := Next(Next(s, OpenCall(Verify, sid)), LoadCall(|s.calls|));
      t == s.(calls := s.calls + [Call(Verify, sid, Holding(s.supports[sid]))])
  {
    var o := Next(s, OpenCall(Verify, sid));
    assert Next(o, LoadCall(|s.calls|)).calls == s.calls + [Call(Verify, sid, Holding(s.supports[sid]))];
  }

  lemma Resolves(s: State, c: nat, sid: nat, paidAt: int, holdDays: nat)
    requires Inv(s) && Waiting(s, sid) && !PerkGone(s, s.supports[sid])
    requires c < |s.calls| && s.calls[c].sid == sid && s.calls[c].phase == Holding(s.supports[sid])
    ensures var t := Next(s, ResolveCall(c, Success, paidAt, holdDays));
      t.supports == s.supports[sid := Paid(s.supports[sid], paidAt, holdDays)] && |t.calls| == |s.calls| &&
      s.supports[sid].creator < |s.wallets| && var r := ApplyPayment(s, sid, s.supports[sid], paidAt, holdDays);
      r.Ok? && t.wallets == r.value.0.wallets
  {
    hide Inv, ApplyPayment, PerkGone;
    ApplyFailsIff(s, sid, s.supports[sid], paidAt, holdDays);
    PaymentProofs.ApplyFrame(s, sid, s.supports[sid], paidAt, holdDays);
  }

  function VerifyRun(s: State, sid: nat): seq<Step> {
    [OpenCall(Verify, sid), LoadCall(|s.calls|), ResolveCall(|s.calls|, Success, 0, 0)]
  }

  lemma VerifyApplies(s: State, sid: nat)
    requires Inv(s) && Waiting(s, sid) && !PerkGone(s, s.supports[sid])
    ensures var t := After(s, VerifyRun(s, sid)); sid < |t.supports| && t.supports[sid].Applied()
  {
    hide Inv, Next, PerkGone;
    var r := VerifyRun(s, sid);
    AfterTakes(s, r, 1);
    AfterTakes(s, r, 2);
    AfterTakes(s, r, 3);
    assert r[..3] == r;
    Opens(s, sid);
    Safety.RunKeeps(s, r[..2]);
    var t := After(s, r[..2]);
    PerkGoneLooksAtPerks(s, t, s.supports[sid]);
    Resolves(t, |s.calls|, sid, 0, 0);
  }

  /** A pending support can still be applied by some run exactly if its reward is neither sold out nor
      owned: a reward that is merely switched off can be switched on again. */
  lemma ApplicableIff(s: State, sid: nat)
    requires Inv(s) && Waiting(s, sid)
    ensures (exists run :: sid < |After(s, run).supports| && After(s, run).supports[sid].Applied()) <==> !Denied(s, sid)
  {
    hide Inv, Next, After, PerkGone;
    if Denied(s, sid) {
      forall run ensures !(sid < |After(s, run).supports| && After(s, run).supports[sid].Applied()) {
        DeniedForever(s, sid, run);
      }
    } else {
      var run := ReopenAndVerify(s, sid);
      assert sid < |After(s, run).supports| && After(s, run).supports[sid].Applied();
    }
  }

  lemma ReopenAndVerify(s: State, sid: nat) returns (run: seq<Step>)
    requires Inv(s) && Waiting(s, sid) && !Denied(s, sid)
    ensures sid < |After(s, run).supports| && After(s, run).supports[sid].Applied()
  {
    hide Inv, Next, After, SoldOutNow, HasUnlocked;
    var p := s.supports[sid];
    PerkRows(s, sid, p);
    if p.reward.None? {
      run := VerifyRun(s, sid);
      VerifyApplies(s, sid);
    } else {
      var switch := ToggleReward(p.reward.value, true);
      var t := Next(s, switch);
      Reopened(s, sid);
      Safety.StepKeeps(s, switch);
      run := [switch] + VerifyRun(t, sid);
      VerifyApplies(t, sid);
      AfterConcat(s, [switch], VerifyRun(t, sid));
      AfterOne(s, switch);
    }
  }

  lemma Reopened(s: State, sid: nat)
    requires Waiting(s, sid) && !Denied(s, sid)
    requires s.supports[sid].reward.Some? && s.supports[sid].supporter.Some? && s.supports[sid].reward.value < |s.rewards|
    ensures var t := Next(s, ToggleReward(s.supports[sid].reward.value, true)); t.supports == s.supports && !PerkGone(t, t.supports[sid])
  {
    hide HasUnlocked;
  }

  // --- two supporters, one unit ----------------------------------------------------------------------

  function OrderFor(supporter: nat): Draft { Draft(0, 10000, false, Some(supporter), Some(0), None, None, None) }

  /** Both orders are placed and read while one unit of the reward is left, and both are paid. */
  function RaceRun(): seq<Step> {
    [ Register, Register, Register, AddReward(Some(1)), StartSupport(OrderFor(1)), StartSupport(OrderFor(2)),
      OpenCall(Verify, 0), OpenCall(Verify, 1), LoadCall(0), LoadCall(1),
      ResolveCall(0, Success, 5, 7), ResolveCall(1, Success, 6, 7) ]
  }

  function Ordered(supporter: nat): Support {
    Support(0, 10000, 500, 9500, Some(supporter), Some(0), None, None, None,
            PaymentStatus.Pending, PaymentStatus.Pending, Held, None, None, false)
  }

  const SHELF := EMPTY.(wallets := [NEW_WALLET, NEW_WALLET, NEW_WALLET], rewards := [Reward(Some(1), 0, true)])
  const TWO_ORDERS := SHELF.(supports := [Ordered(1), Ordered(2)])
  const BOTH_OPEN := TWO_ORDERS.(calls := [Call(Verify, 0, Started), Call(Verify, 1, Started)])
  const BOTH_HELD := TWO_ORDERS.(calls := [Call(Verify, 0, Holding(Ordered(1))), Call(Verify, 1, Holding(Ordered(2)))])

  lemma Shelved()
    ensures Next(Next(Next(Next(EMPTY, Register), Register), Register), AddReward(Some(1))) == SHELF
  {
    var a := Next(EMPTY, Register);
    assert a == EMPTY.(wallets := [NEW_WALLET]);
    var b := Next(a, Register);
    assert b == EMPTY.(wallets := [NEW_WALLET, NEW_WALLET]);
    assert Next(b, Register) == EMPTY.(wallets := [NEW_WALLET, NEW_WALLET, NEW_WALLET]);
  }

  /** A catalogue in which the first creator owns everything and everything costs a hundred birr. */
  function Everything(): Catalogue {
    Catalogue(_ => true, _ => 10000, _ => 0, _ => 10000, _ => 0, _ => 0, _ => Some(0), _ => true, _ => 10000, _ => 0)
  }

  function WishOf(supporter: nat): Wish { Wish(0, Some(supporter), Some(0), None, None, None, None, None, false, None) }

  /** Both orders pass validation. */
  lemma BothOrdered()
    ensures PrepareInitiation(SHELF, Everything(), WishOf(1), false) == Ok(OrderFor(1))
    ensures PrepareInitiation(Next(SHELF, StartSupport(OrderFor(1))), Everything(), WishOf(2), false) == Ok(OrderFor(2))
    ensures Next(Next(SHELF, StartSupport(OrderFor(1))), StartSupport(OrderFor(2))) == TWO_ORDERS
  {
    assert Next(SHELF, StartSupport(OrderFor(1))) == SHELF.(supports := [Ordered(1)]);
  }

  lemma BothOpened()
    ensures Next(Next(TWO_ORDERS, OpenCall(Verify, 0)), OpenCall(Verify, 1)) == BOTH_OPEN
  {
    assert Next(TWO_ORDERS, OpenCall(Verify, 0)) == TWO_ORDERS.(calls := [Call(Verify, 0, Started)]);
  }

  lemma BothLoaded()
    ensures Next(Next(BOTH_OPEN, LoadCall(0)), LoadCall(1)) == BOTH_HELD
  {
    assert Next(BOTH_OPEN, LoadCall(0))
        == TWO_ORDERS.(calls := [Call(Verify, 0, Holding(Ordered(1))), Call(Verify, 1, Started)]);
  }

  lemma OneGetsIt()
    ensures var t := Next(BOTH_HELD, ResolveCall(0, Success, 5, 7));
      t.rewards == [Reward(Some(1), 1, true)] && t.supports == [Paid(Ordered(1), 5, 7), Ordered(2)] &&
      |t.wallets| == 3 && t.calls == [Call(Verify, 0, Finished(Confirmed)), BOTH_HELD.calls[1]]
  {
    hide EntriesOf, Enqueued;
  }

  lemma OtherIsRefused(s: State)
    requires s.rewards == [Reward(Some(1), 1, true)] && s.supports == [Paid(Ordered(1), 5, 7), Ordered(2)]
    requires |s.wallets| == 3 && |s.calls| == 2 && s.calls[1] == BOTH_HELD.calls[1]
    ensures var t := Next(s, ResolveCall(1, Success, 6, 7));
      |t.calls| == 2 && t.calls[1].phase == Finished(Raised(RewardUnavailable)) && Denied(t, 1)
  {
  }

  /** Two supporters order and pay for the last unit of a reward; one of them is refused. */
  lemma RaceIsReachable()
    ensures var t := After(EMPTY, RaceRun());
      |t.calls| == 2 && t.calls[1].phase == Finished(Raised(RewardUnavailable)) && Denied(t, 1)
  {
    hide Next, Denied;
    var r := RaceRun();
    AfterTakes(EMPTY, r, 1);
    AfterTakes(EMPTY, r, 2);
    AfterTakes(EMPTY, r, 3);
    AfterTakes(EMPTY, r, 4);
    Shelved();
    AfterTakes(EMPTY, r, 5);
    AfterTakes(EMPTY, r, 6);
    BothOrdered();
    AfterTakes(EMPTY, r, 7);
    AfterTakes(EMPTY, r, 8);
    BothOpened();
    AfterTakes(EMPTY, r, 9);
    AfterTakes(EMPTY, r, 10);
    BothLoaded();
    AfterTakes(EMPTY, r, 11);
    AfterTakes(EMPTY, r, 12);
    OneGetsIt();
    OtherIsRefused(Next(BOTH_HELD, r[10]));
    assert r[..12] == r;
  }
}
