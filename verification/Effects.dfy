/** What each service leaves in the tables, stated table by table, and why none of its checks can fail
    in a state that satisfies the invariant. */
module Effects {
  import opened Tables
  import opened Sums
  import opened Postings
  import opened ClosedForms
  import opened Invariants
  import opened Bookkeeping
  import opened Engine
  import opened Steps
  import Lease
  import Projections
  import WithdrawalProofs
  import PaymentProofs
  import SettlementPass
  import Bulk

  predicate NonNegative(b: Balances) { b.available >= 0 && b.pending >= 0 && b.locked >= 0 }

  /** The outcome of a balance update that re-reads the balances. */
  function Checked(b: Balances): Result<Balances> {
    if NonNegative(b) then Ok(b) else Err(BalanceViolated)
  }

  /** The entries of a movement that is not a capture. */
  function TransferFor(m: Move, user: nat, amount: int): seq<Entry>
    requires !m.Capture?
  {
    match m
    case Settlement(_) => TransferEntries(user, CreatorPending, CreatorAvailable, true, amount)
    case Reserve(_) => TransferEntries(user, CreatorAvailable, CreatorLocked, true, amount)
    case Payout(_) => TransferEntries(user, CreatorLocked, WithdrawalClearing, false, amount)
    case Release(_) => TransferEntries(user, CreatorLocked, CreatorAvailable, true, amount)
  }

  /** The state after a reservation, table by table. */
  function ReservedBy(s: State, q: Request, cents: int): State
    requires q.user < |s.wallets|
  {
    var wid, w := |s.withdrawals|, s.wallets[q.user];
    var after := Balances(w.balances.available - cents, w.balances.pending, w.balances.locked + cents);
    s.(wallets := s.wallets[q.user := w.(balances := after)],
       withdrawals := s.withdrawals + [NewWithdrawal(q, cents)],
       ledger := s.ledger + [LedgerRow(Reserve(wid), q.user, cents, after)],
       batches := s.batches + [Batch(Reserve(wid), TransferEntries(q.user, CreatorAvailable, CreatorLocked, true, cents))])
  }

  lemma ReservedIsPosted(s: State, q: Request, cents: int)
    requires q.user < |s.wallets|
    ensures ReservedBy(s, q, cents)
         == Post(s.(withdrawals := s.withdrawals + [NewWithdrawal(q, cents)]), Reserve(|s.withdrawals|))
  {
  }

  function StatusVerdict(s: State, actor: nat, wid: nat, target: WithdrawalStatus): Result<()>
    requires Linked(s)
  {
    var r := UpdateStatus(s, actor, wid, target, 0);
    if r.Ok? then Ok(()) else Err(r.error)
  }

  /** The wallet covers the withdrawal and its final movements are not in the books yet. */
  ghost predicate FinalPossible(s: State, wid: nat) {
    wid < |s.withdrawals| && s.withdrawals[wid].user < |s.wallets| && s.withdrawals[wid].amount >= 0 &&
    NonNegative(s.wallets[s.withdrawals[wid].user].balances) &&
    s.wallets[s.withdrawals[wid].user].balances.locked >= s.withdrawals[wid].amount &&
    Payout(wid) !in LedgerKeys(s.ledger) && Payout(wid) !in BatchKeys(s.batches) &&
    Release(wid) !in LedgerKeys(s.ledger) && Release(wid) !in BatchKeys(s.batches)
  }

  /** The state after a finalization, table by table. */
  function FinalizedBy(s: State, wid: nat, target: WithdrawalStatus, at: int): State
    requires wid < |s.withdrawals| && s.withdrawals[wid].user < |s.wallets|
  {
    var w := s.withdrawals[wid];
    var wallet := s.wallets[w.user];
    var b := wallet.balances;
    var rejected := target == Rejected;
    var m := if rejected then Release(wid) else Payout(wid);
    var after := Balances(b.available + (if rejected then w.amount else 0), b.pending, b.locked - w.amount);
    var entries := if rejected then TransferEntries(w.user, CreatorLocked, CreatorAvailable, true, w.amount)
                   else TransferEntries(w.user, CreatorLocked, WithdrawalClearing, false, w.amount);
    s.(wallets := s.wallets[w.user := wallet.(balances := after)],
       withdrawals := s.withdrawals[wid := Advanced(w, target, at)],
       ledger := s.ledger + [LedgerRow(m, w.user, w.amount, after)],
       batches := s.batches + [Batch(m, entries)])
  }

  /** The state after a status change, table by table. */
  function ChangedBy(s: State, actor: nat, wid: nat, target: WithdrawalStatus, at: int): State
    requires wid < |s.withdrawals| && (target != Processing ==> s.withdrawals[wid].user < |s.wallets|)
  {
    var w := s.withdrawals[wid];
    var t := if target == Processing then s.(withdrawals := s.withdrawals[wid := Advanced(w, target, at)])
             else FinalizedBy(s, wid, target, at);
    t.(audits := s.audits + [Audit(wid, actor, w.status, target, at)])
  }

  /** The checks leave only changes that the conditional updates accept, that the locked balance
      covers, and that are not in the books yet; and they do what the engine says. */
  lemma UpdateFacts(s: State, actor: nat, wid: nat, target: WithdrawalStatus, at: int)
    requires Inv(s) && Linked(s) && target != WithdrawalStatus.Pending
    ensures var verdict := StatusVerdict(s, actor, wid, target);
      var o := UpdateStatus(s, actor, wid, target, at);
      (verdict.Err? ==> o == Err(verdict.error)) &&
      (verdict.Ok? ==>
        wid < |s.withdrawals| && s.withdrawals[wid].user < |s.wallets| && o == Ok(ChangedBy(s, actor, wid, target, at)) &&
        if target == Processing then Startable(s.withdrawals[wid]) else Finalizable(s.withdrawals[wid]) && FinalPossible(s, wid))
  {
    hide Inv, ChangedBy, FinalPossible;
    if StatusVerdict(s, actor, wid, target).Ok? {
      FinalFacts(s, wid);
      ChangeIsPosted(s, actor, wid, target, at);
    }
  }

  lemma FinalFacts(s: State, wid: nat)
    requires Inv(s) && wid < |s.withdrawals|
    ensures WithdrawalAllowed(s.withdrawals[wid].status, Processing) ==> Startable(s.withdrawals[wid])
    ensures s.withdrawals[wid].status == Processing ==> Finalizable(s.withdrawals[wid]) && FinalPossible(s, wid)
  {
    hide KeysBoundOnce, BooksAgree, ControlsAgree, EarningsMirror, Audited, RewardsCounted, VotesCounted, EventsMirror,
         TalliesExact, CallsOk;
    GuardsHold(s);
    assert WithdrawalOk(s.withdrawals[wid], |s.wallets|);
    assert !Happened(Payout(wid), s.supports, s.withdrawals) || Terminal(s.withdrawals[wid]);
  }

  lemma NextUpdates(s: State, actor: nat, wid: nat, target: WithdrawalStatus, at: int)
    requires Linked(s) && target != WithdrawalStatus.Pending
    ensures var o := UpdateStatus(s, actor, wid, target, at);
      Next(s, SetStatus(actor, wid, target, at)) == (if o.Ok? then o.value else s) &&
      Bulk.Outcome(s, Bulk.Order(actor, target, _ => at), wid) == (if o.Ok? then Ok(()) else Err(o.error))
  {
    hide UpdateStatus;
  }

  predicate Terminal(w: Withdrawal) { w.status == WithdrawalStatus.Completed || w.status == Rejected }

  lemma ChangeIsPosted(s: State, actor: nat, wid: nat, target: WithdrawalStatus, at: int)
    requires Linked(s) && target != WithdrawalStatus.Pending && StatusVerdict(s, actor, wid, target).Ok?
    ensures UpdateStatus(s, actor, wid, target, at) == Ok(ChangedBy(s, actor, wid, target, at))
  {
  }

  ghost predicate SettlePossible(s: State, sid: nat) {
    sid < |s.supports| && s.supports[sid].creator < |s.wallets| && s.supports[sid].net >= 0 &&
    NonNegative(s.wallets[s.supports[sid].creator].balances) &&
    s.wallets[s.supports[sid].creator].balances.pending >= s.supports[sid].net &&
    Settlement(sid) !in LedgerKeys(s.ledger) && Settlement(sid) !in BatchKeys(s.batches)
  }

  /** The state after a settlement, table by table. */
  function SettledBy(s: State, sid: nat): State
    requires sid < |s.supports| && s.supports[sid].creator < |s.wallets|
  {
    var p := s.supports[sid];
    var wallet := s.wallets[p.creator];
    var after := Balances(wallet.balances.available + p.net, wallet.balances.pending - p.net, wallet.balances.locked);
    s.(supports := s.supports[sid := p.(settlement := Available)],
       wallets := s.wallets[p.creator := wallet.(balances := after)],
       ledger := s.ledger + [LedgerRow(Settlement(sid), p.creator, p.net, after)],
       batches := s.batches + [Batch(Settlement(sid), TransferEntries(p.creator, CreatorPending, CreatorAvailable, true, p.net))])
  }

  lemma SettledIsPosted(s: State, sid: nat, now: int)
    requires sid < |s.supports| && s.supports[sid].creator < |s.wallets| && Ripe(s.supports[sid], now)
    requires s.wallets[s.supports[sid].creator].active
    ensures Settle(s, sid, now) == Ok((SettledBy(s, sid), true))
  {
  }

  lemma SettleFacts(s: State, sid: nat, now: int)
    requires Inv(s) && sid < |s.supports| && s.supports[sid].creator < |s.wallets|
    ensures Ripe(s.supports[sid], now) ==> SettlePossible(s, sid)
    ensures Settle(s, sid, now) ==
      if !Ripe(s.supports[sid], now) then Ok((s, false))
      else if !s.wallets[s.supports[sid].creator].active then Err(SettlementInconsistent)
      else Ok((SettledBy(s, sid), true))
  {
    hide SettledBy, KeysBoundOnce, Closed, BooksAgree, ControlsAgree, EarningsMirror, Audited, RewardsCounted, VotesCounted,
         EventsMirror, TalliesExact, CallsOk;
    GuardsHold(s);
    assert SupportOk(s.supports[sid], SizesOf(s));
    if Ripe(s.supports[sid], now) {
      assert !Happened(Settlement(sid), s.supports, s.withdrawals);
      if s.wallets[s.supports[sid].creator].active {
        SettledIsPosted(s, sid, now);
      }
    }
  }

  lemma NextSettles(s: State, sid: nat, now: int)
    requires Enabled(s, SettleOne(sid, now))
    ensures var o := Settle(s, sid, now); Next(s, SettleOne(sid, now)) == if o.Ok? then o.value.0 else s
  {
    hide Settle;
  }

  lemma CreatorExists(s: State, sid: nat)
    requires Inv(s) && sid < |s.supports|
    ensures s.supports[sid].creator < |s.wallets|
  {
    assert SupportOk(s.supports[sid], SizesOf(s));
  }

  /** What a call holds describes the order that is in the table now. */
  lemma CallIsOk(s: State, c: nat)
    requires Inv(s) && c < |s.calls|
    ensures s.calls[c].phase.Holding? ==> s.calls[c].sid < |s.supports| && SameOrder(s.calls[c].phase.snapshot, s.supports[s.calls[c].sid])
  {
    assert SnapshotOk(s.calls[c], s.supports);
  }

  // --- applying a payment ------------------------------------------------------------------------

  /** The wallet exists, the order is balanced, and nothing of the capture is on record. */
  ghost predicate CapturePossible(s: State, sid: nat, snap: Support) {
    snap.creator < |s.wallets| && NonNegative(s.wallets[snap.creator].balances) &&
    snap.net >= 0 && snap.gross == snap.net + snap.fee &&
    Capture(sid) !in LedgerKeys(s.ledger) && Capture(sid) !in BatchKeys(s.batches) &&
    forall kind :: Sum(s.outbox.events, ForEvent(sid, kind)) == 0
  }

  ghost predicate ApplyPossible(s: State, sid: nat, snap: Support) {
    CapturePossible(s, sid, snap) &&
    (forall i :: 0 <= i < |s.rewards| ==> s.rewards[i].claimed == Sum(s.unlocks, ForReward(i))) &&
    Sum(s.unlocks, ForUnlockOf(sid)) == 0 && Sum(s.votes, ForVoteOf(sid)) == 0 &&
    (snap.vote.Some? ==> snap.vote.value < |s.options|)
  }

  lemma CaptureUndisturbed(s: State, t: State, sid: nat, snap: Support)
    requires CapturePossible(s, sid, snap)
    requires t.wallets == s.wallets && t.ledger == s.ledger && t.batches == s.batches && t.outbox == s.outbox
    ensures CapturePossible(t, sid, snap)
  {
  }

  /** The money and the events of a capture, table by table, from the snapshot. */
  function CapturedBy(s: State, sid: nat, snap: Support): State
    requires snap.creator < |s.wallets|
  {
    var w := s.wallets[snap.creator];
    var after := Balances(w.balances.available, w.balances.pending + snap.net, w.balances.locked);
    s.(wallets := s.wallets[snap.creator := w.(balances := after, earned := w.earned + snap.net)],
       ledger := s.ledger + [LedgerRow(Capture(sid), snap.creator, snap.net, after)],
       batches := s.batches + [Batch(Capture(sid), CaptureEntries(snap.creator, snap.gross, snap.net, snap.fee))],
       earnings := s.earnings[sid := snap.fee],
       outbox := Enqueued(s.outbox, sid))
  }

  /** Equal in every table, stated table by table. */
  predicate SameTables(s: State, t: State) {
    s.wallets == t.wallets && s.supports == t.supports && s.withdrawals == t.withdrawals && s.audits == t.audits &&
    s.ledger == t.ledger && s.batches == t.batches && s.earnings == t.earnings &&
    s.rewards == t.rewards && s.unlocks == t.unlocks && s.options == t.options && s.votes == t.votes &&
    s.campaigns == t.campaigns && s.links == t.links && s.outbox == t.outbox && s.webhooks == t.webhooks && s.calls == t.calls
  }

  function AppliedBy(s: State, sid: nat, snap: Support, paidAt: int, holdDays: nat): Result<(State, bool)>
    requires sid < |s.supports| && (!s.supports[sid].Applied() ==> snap.creator < |s.wallets|)
  {
    if !PaymentAllowed(snap.status, PaymentStatus.Completed) || !PaymentAllowed(snap.intent, PaymentStatus.Completed) then Err(InvalidTransition)
    else if s.supports[sid].Applied() then Ok((s, false))
    else
      var marked := s.(supports := s.supports[sid := Paid(s.supports[sid], paidAt, holdDays)]);
      var entitled :- Entitle(marked, sid, snap);
      Ok((CapturedBy(CastVote(entitled, sid, snap), sid, snap), true))
  }

  /** The state and the reply after the provider's answer. */
  function Answered(s: State, sid: nat, snap: Support, verdict: Verdict, paidAt: int, holdDays: nat): (State, Reply)
    requires sid < |s.supports| && s.supports[sid].creator < |s.wallets|
  {
    match verdict
    case Unreachable => (s, Raised(ProviderDown))
    case WrongDetails => (s, Raised(DetailsMismatch))
    case Unsuccessful =>
      var r := FailPayment(s, sid, snap);
      if r.Ok? then (r.value, Declined) else (s, Raised(r.error))
    case Success =>
      var r := ApplyPayment(s, sid, snap, paidAt, holdDays);
      if r.Err? then (s, Raised(r.error)) else (r.value.0, if r.value.1 then Confirmed else AlreadyDone)
  }

  lemma NextResolves(s: State, c: nat, verdict: Verdict, paidAt: int, holdDays: nat)
    requires Enabled(s, ResolveCall(c, verdict, paidAt, holdDays))
    ensures var (t, reply) := Answered(s, s.calls[c].sid, s.calls[c].phase.snapshot, verdict, paidAt, holdDays);
      t.calls == s.calls &&
      Next(s, ResolveCall(c, verdict, paidAt, holdDays)) == t.(calls := s.calls[c := s.calls[c].(phase := Finished(reply))])
  {
    PaymentProofs.ApplyFrame(s, s.calls[c].sid, s.calls[c].phase.snapshot, paidAt, holdDays);
    hide ApplyPayment;
  }

  lemma NextWorks(s: State, step: WorkStep)
    requires CanWork(s.outbox, step)
    ensures Next(s, Outboxing(step)) == WorkOn(s, step)
  {
  }

  /** How handling an event ends: without a throw, in the catch block after a claim, or in the catch block
      because the claim itself threw. `accepted` says whether Telegram took the notification, which it
      may have done even if the worker throws afterwards. */
  datatype Fate = Fine(accepted: bool) | Thrown(accepted: bool) | ClaimThrew

  /** A claimed event after an undisturbed handling: processed, or free again if handling it threw. */
  function Handled(e: Event, now: int, fate: Fate): Event
    requires !fate.ClaimThrew?
  {
    var told := Told(e, e.kind == Telegram && fate.accepted);
    if fate.Thrown? then told.(startedAt := None) else Done(told, now)
  }

  /** An event that was not claimable is left alone, but a claim that threw takes the mark away. */
  function Processed(e: Event, staleBefore: int, now: int, fate: Fate): Event {
    if fate.ClaimThrew? then e.(startedAt := None)
    else if Claimable(e, staleBefore) then Handled(e, now, fate) else e
  }

  /** The steps of a delivery that finds the event unprocessed. */
  function Delivering(w: nat, fate: Fate): (r: seq<WorkStep>)
    requires !fate.ClaimThrew?
    ensures |r| >= 2 && r[0] == Inspect(w)
  {
    if fate == Thrown(false) then [Inspect(w), GiveUp(w)]
    else [Inspect(w), Send(w, fate.accepted), if fate.Thrown? then GiveUp(w) else Conclude(w)]
  }

  /** The steps in which a worker handles an event, if it claims it and finds it unprocessed. */
  function Handling(w: nat, i: nat, kind: EventKind, fate: Fate): seq<WorkStep> {
    if fate.ClaimThrew? then [Reset(w, i)] else [Claim(w, i)] + AfterClaim(w, kind, fate)
  }

  function AfterClaim(w: nat, kind: EventKind, fate: Fate): (r: seq<WorkStep>)
    requires !fate.ClaimThrew?
    ensures |r| >= 1
  {
    if kind == Telegram then Delivering(w, fate) else [if fate.Thrown? then GiveUp(w) else Project(w)]
  }

  lemma HandlingShape(w: nat, i: nat, kind: EventKind, fate: Fate)
    ensures var full := Handling(w, i, kind, fate);
      if fate.ClaimThrew? then full == [Reset(w, i)]
      else
        |full| > 1 && full == [Claim(w, i)] + AfterClaim(w, kind, fate) && full[..1] == [Claim(w, i)] &&
        full[..2] == [Claim(w, i)] + AfterClaim(w, kind, fate)[..1]
  {
    hide AfterClaim;
  }

  // --- one worker among others -------------------------------------------------------------------

  predicate By(work: WorkStep, w: nat) {
    match work
    case Tick(_) => false
    case Begin => false
    case Query(v) => v == w
    case Claim(v, _) => v == w
    case Inspect(v) => v == w
    case Send(v, _) => v == w
    case Conclude(v) => v == w
    case Project(v) => v == w
    case GiveUp(v) => v == w
    case Reset(v, _) => v == w
  }

  /** Steps of everybody but worker `w`: other workers, other services, the clock. */
  predicate Foreign(steps: seq<Step>, w: nat) {
    forall k :: 0 <= k < |steps| ==> !(steps[k].Outboxing? && By(steps[k].work, w))
  }

  /** The trace leads from `s` to `t`, and the steps of worker `w` in it are exactly `own`, each of them
      taken where the state machine allows it. */
  ghost predicate Follows(s: State, trace: seq<Step>, w: nat, own: seq<WorkStep>, t: State)
    decreases |trace|
  {
    if |trace| == 0 then own == [] && t == s
    else
      var init, last := trace[..|trace| - 1], trace[|trace| - 1];
      t == Next(After(s, init), last) &&
      if last.Outboxing? && By(last.work, w) then
        |own| > 0 && last.work == own[|own| - 1] && Enabled(After(s, init), last) &&
        Follows(s, init, w, own[..|own| - 1], After(s, init))
      else Follows(s, init, w, own, After(s, init))
  }

  lemma FollowNothing(s: State, w: nat) returns (trace: seq<Step>, own: seq<WorkStep>)
    ensures trace == [] && own == [] && Follows(s, trace, w, own, s)
  {
    trace, own := [], [];
  }

  lemma FollowsIsAfter(s: State, trace: seq<Step>, w: nat, own: seq<WorkStep>, t: State)
    requires Follows(s, trace, w, own, t)
    ensures t == After(s, trace)
  {
    hide Next;
  }

  lemma FollowOwn(s: State, trace: seq<Step>, w: nat, own: seq<WorkStep>, t: State, work: WorkStep)
    requires Follows(s, trace, w, own, t) && By(work, w) && CanWork(t.outbox, work)
    ensures Follows(s, trace + [Outboxing(work)], w, own + [work], Next(t, Outboxing(work)))
  {
    hide Next, CanWork;
    FollowsIsAfter(s, trace, w, own, t);
    assert (trace + [Outboxing(work)])[..|trace|] == trace;
    assert (own + [work])[..|own|] == own;
  }

  lemma {:induction false} FollowForeign(s: State, trace: seq<Step>, w: nat, own: seq<WorkStep>, t: State, steps: seq<Step>)
    requires Follows(s, trace, w, own, t) && Foreign(steps, w)
    ensures Follows(s, trace + steps, w, own, After(t, steps))
  {
    hide Next;
    if |steps| == 0 {
      assert trace + steps == trace;
    } else {
      var n := |steps| - 1;
      FollowForeign(s, trace, w, own, t, steps[..n]);
      FollowsIsAfter(s, trace + steps[..n], w, own, After(t, steps[..n]));
      assert (trace + steps)[..|trace| + n] == trace + steps[..n];
    }
  }

  lemma {:induction false} FollowConcat(s: State, a: seq<Step>, w: nat, own: seq<WorkStep>, m: State, b: seq<Step>, more: seq<WorkStep>, t: State)
    requires Follows(s, a, w, own, m) && Follows(m, b, w, more, t)
    ensures Follows(s, a + b, w, own + more, t)
    decreases |b|
  {
    hide Next, Enabled;
    if |b| == 0 {
      assert a + b == a && own + more == own;
    } else {
      var init, last := b[..|b| - 1], b[|b| - 1];
      assert (a + b)[..|a + b| - 1] == a + init;
      AfterConcat(s, a, init);
      FollowsIsAfter(s, a, w, own, m);
      if last.Outboxing? && By(last.work, w) {
        FollowConcat(s, a, w, own, m, init, more[..|more| - 1], After(m, init));
        assert (own + more)[..|own + more| - 1] == own + more[..|more| - 1];
      } else {
        FollowConcat(s, a, w, own, m, init, more, After(m, init));
      }
    }
  }

  /** Every claim, also one that throws, is for an event of the batch. */
  predicate ClaimsOnly(own: seq<WorkStep>, batch: seq<nat>) {
    forall n :: 0 <= n < |own| && (own[n].Claim? || own[n].Reset?) ==> own[n].event in batch
  }

  lemma QueryClaimsNothing(w: nat, batch: seq<nat>)
    ensures ClaimsOnly([] + [Query(w)], batch)
  {
  }

  lemma HandlingClaims(w: nat, i: nat, kind: EventKind, fate: Fate, own: seq<WorkStep>, steps: seq<WorkStep>, batch: seq<nat>)
    requires i in batch && ClaimsOnly(own, batch)
    requires var full := Handling(w, i, kind, fate);
      steps == full || steps == full[..1] || (|full| > 1 && steps == full[..2])
    ensures ClaimsOnly(own + steps, batch)
  {
  }

  /** What the steps of others cannot change: the worker's own claim, and what an event is for. */
  lemma {:induction false} OthersKeep(s: State, steps: seq<Step>, w: nat)
    requires Foreign(steps, w) && w < |s.outbox.workers|
    ensures var t := After(s, steps);
      w < |t.outbox.workers| && t.outbox.workers[w] == s.outbox.workers[w] && |s.outbox.events| <= |t.outbox.events| &&
      forall i :: 0 <= i < |s.outbox.events| ==> t.outbox.events[i].kind == s.outbox.events[i].kind
  {
    hide Next;
    if |steps| > 0 {
      var n := |steps| - 1;
      OthersKeep(s, steps[..n], w);
      OneOtherKeeps(After(s, steps[..n]), steps[n], w);
    }
  }

  lemma OneOtherKeeps(s: State, step: Step, w: nat)
    requires !(step.Outboxing? && By(step.work, w)) && w < |s.outbox.workers|
    ensures var t := Next(s, step);
      w < |t.outbox.workers| && t.outbox.workers[w] == s.outbox.workers[w] && |s.outbox.events| <= |t.outbox.events| &&
      forall i :: 0 <= i < |s.outbox.events| ==> t.outbox.events[i].kind == s.outbox.events[i].kind
  {
    hide Next;
    if step.Outboxing? && Enabled(s, step) {
      Lease.StepWorks(s, step.work);
    } else {
      Lease.NotWorking(s, step);
      Projections.StepExtends(s, step);
    }
  }

  lemma NextPlaces(s: State, d: Draft)
    requires Placeable(s, d)
    ensures Next(s, StartSupport(d)) == Initiate(s, d)
  {
  }

  lemma NextOpens(s: State, origin: Origin, ref: nat)
    ensures Next(s, OpenCall(origin, ref)) == Open(s, origin, ref).0
  {
  }

  lemma NextLoads(s: State, c: nat)
    requires Enabled(s, LoadCall(c))
    ensures Next(s, LoadCall(c)) == Load(s, c)
  {
  }

  lemma NextCloses(s: State, c: nat)
    requires Enabled(s, CloseCall(c))
    ensures Next(s, CloseCall(c)) == CloseWebhook(s, c)
  {
  }

  lemma NextAsks(s: State, q: Request)
    ensures var o := Engine.RequestWithdrawal(s, q); Next(s, Ask(q)) == if o.Ok? then o.value.0 else s
  {
    hide Engine.RequestWithdrawal;
  }

  /** An unapplied support has left no trace, so no uniqueness check of the application can fail on
      its own account; and the tables end as the engine says. */
  lemma ApplyFacts(s: State, sid: nat, snap: Support, paidAt: int, holdDays: nat)
    requires Inv(s) && sid < |s.supports| && SameOrder(snap, s.supports[sid])
    ensures s.supports[sid].creator < |s.wallets|
    ensures !s.supports[sid].Applied() ==> ApplyPossible(s, sid, snap)
    ensures AppliedBy(s, sid, snap, paidAt, holdDays) == ApplyPayment(s, sid, snap, paidAt, holdDays)
  {
    assert SupportOk(s.supports[sid], SizesOf(s));
    if !s.supports[sid].Applied() {
      NotCapturedYet(s, sid, snap);
      NoPerksYet(s, sid, snap);
    }
    AppliedIsPosted(s, sid, snap, paidAt, holdDays);
  }

  lemma NotCapturedYet(s: State, sid: nat, snap: Support)
    requires Inv(s) && sid < |s.supports| && SameOrder(snap, s.supports[sid]) && !s.supports[sid].Applied()
    ensures CapturePossible(s, sid, snap)
  {
    hide KeysBoundOnce, Closed, BooksAgree, ControlsAgree, EarningsMirror, Audited, RewardsCounted, VotesCounted,
         TalliesExact, CallsOk;
    GuardsHold(s);
    assert SupportOk(s.supports[sid], SizesOf(s));
    assert !Happened(Capture(sid), s.supports, s.withdrawals);
  }

  lemma NoPerksYet(s: State, sid: nat, snap: Support)
    requires Inv(s) && sid < |s.supports| && SameOrder(snap, s.supports[sid]) && !s.supports[sid].Applied()
    ensures Sum(s.unlocks, ForUnlockOf(sid)) == 0 && Sum(s.votes, ForVoteOf(sid)) == 0
    ensures forall i :: 0 <= i < |s.rewards| ==> s.rewards[i].claimed == Sum(s.unlocks, ForReward(i))
    ensures snap.vote.Some? ==> snap.vote.value < |s.options|
  {
    hide KeysBoundOnce, Closed, BooksMirror, BooksAgree, ControlsAgree, EarningsMirror, Audited, EventsMirror,
         TalliesExact, CallsOk;
    assert SupportOk(s.supports[sid], SizesOf(s));
  }

  lemma AppliedIsPosted(s: State, sid: nat, snap: Support, paidAt: int, holdDays: nat)
    requires sid < |s.supports| && SameOrder(snap, s.supports[sid]) && s.supports[sid].creator < |s.wallets|
    ensures AppliedBy(s, sid, snap, paidAt, holdDays) == ApplyPayment(s, sid, snap, paidAt, holdDays)
  {
    hide HasUnlocked, SoldOutNow;
    var marked := s.(supports := s.supports[sid := Paid(s.supports[sid], paidAt, holdDays)]);
    var entitled := Entitle(marked, sid, snap);
    if entitled.Ok? {
      var t := CastVote(entitled.value, sid, snap);
      assert t.wallets == s.wallets && t.supports == marked.supports;
    }
  }

  /** The position of an event, or the number of events if there is none. */
  function FindEvent(events: seq<Event>, sid: nat, kind: EventKind): (i: nat)
    ensures i <= |events|
    ensures i < |events| ==> events[i].sid == sid && events[i].kind == kind
    ensures i == |events| ==> forall k :: 0 <= k < |events| ==> !(events[k].sid == sid && events[k].kind == kind)
  {
    if |events| == 0 then 0
    else
      var n := |events| - 1;
      var i := FindEvent(events[..n], sid, kind);
      assert forall k :: 0 <= k < n ==> events[..n][k] == events[k];
      if i < n then i else if events[n].sid == sid && events[n].kind == kind then n else n + 1
  }

  /** An upsert: the existing event is reopened, a missing one is added. */
  function Upserted(events: seq<Event>, sid: nat, kind: EventKind): seq<Event> {
    var i := FindEvent(events, sid, kind);
    if i < |events| then events[i := events[i].(processedAt := None, startedAt := None)]
    else events + [Event(sid, kind, None, None, 0)]
  }

  // --- the perks' guards -------------------------------------------------------------------------

  /** The where-clause of the reward claim. */
  predicate CanClaim(rewards: seq<Reward>, reward: nat) {
    reward < |rewards| && rewards[reward].active &&
    (rewards[reward].limit.Some? ==> rewards[reward].claimed < rewards[reward].limit.value)
  }

  /** The unique keys of an unlock: one per support, and one per user and reward. */
  predicate UnlockClashes(unlocks: seq<Unlock>, user: nat, reward: nat, sid: nat) {
    exists i :: 0 <= i < |unlocks| && (unlocks[i].sid == sid || (unlocks[i].user == user && unlocks[i].reward == reward))
  }

  predicate VotedFor(votes: seq<Vote>, sid: nat) {
    exists i :: 0 <= i < |votes| && votes[i].sid == sid
  }

  // --- nothing of this support yet ---------------------------------------------------------------

  /** A support without unlocks can only clash with an earlier unlock of the same reward by this user. */
  lemma NoUnlockOf(unlocks: seq<Unlock>, sid: nat)
    requires Sum(unlocks, ForUnlockOf(sid)) == 0
    ensures forall user, reward :: UnlockClashes(unlocks, user, reward, sid) <==> HasUnlocked(unlocks, user, reward)
  {
    SumAtLeast(unlocks, ForUnlockOf(sid));
    forall i | 0 <= i < |unlocks| ensures unlocks[i].sid != sid {
      assert ForUnlockOf(sid)(unlocks[i]) <= 0;
    }
  }

  lemma NoVoteOf(votes: seq<Vote>, sid: nat)
    requires Sum(votes, ForVoteOf(sid)) == 0
    ensures !VotedFor(votes, sid)
  {
    SumAtLeast(votes, ForVoteOf(sid));
    forall i | 0 <= i < |votes| ensures votes[i].sid != sid {
      assert ForVoteOf(sid)(votes[i]) <= 0;
    }
  }

  lemma NoEventOf(events: seq<Event>, sid: nat, kind: EventKind)
    requires Sum(events, ForEvent(sid, kind)) == 0
    ensures FindEvent(events, sid, kind) == |events|
  {
    SumAtLeast(events, ForEvent(sid, kind));
    forall i | 0 <= i < |events| ensures !(events[i].sid == sid && events[i].kind == kind) {
      assert ForEvent(sid, kind)(events[i]) <= 0;
    }
  }

  /** For a support without events both upserts insert: nothing is ever reopened. */
  lemma EnqueueInserts(box: Outbox, sid: nat)
    requires forall kind :: Sum(box.events, ForEvent(sid, kind)) == 0
    ensures box.(events := Upserted(Upserted(box.events, sid, Projection), sid, Telegram)) == Enqueued(box, sid)
  {
    hide Sum;
    var projection, telegram := Event(sid, Projection, None, None, 0), Event(sid, Telegram, None, None, 0);
    NoEventOf(box.events, sid, Projection);
    SumAppend(box.events, projection, ForEvent(sid, Telegram));
    NoEventOf(box.events + [projection], sid, Telegram);
    assert box.events + [projection] + [telegram] == box.events + [projection, telegram];
  }

  lemma FirstIsMember(s: seq<nat>)
    ensures |s| > 0 ==> s[0] in s
  {
  }

  lemma NothingPresent(selected: seq<Option<nat>>, order: seq<nat>)
    requires forall x :: x in order ==> x in Bulk.Present(selected)
    requires Bulk.Unique(Bulk.Present(selected)) == []
    ensures Bulk.Present(selected) == [] && order == []
  {
    FirstIsMember(order);
  }

  lemma PassStarts(s: State, batch: seq<nat>, clock: nat -> int)
    ensures SettlementPass.Pass(s, batch[..0], clock) == (s, 0)
  {
  }

  lemma PassContinues(s: State, batch: seq<nat>, k: nat, clock: nat -> int)
    requires k < |batch|
    ensures var (before, count) := SettlementPass.Pass(s, batch[..k], clock);
      Enabled(before, SettleOne(batch[k], clock(k))) ==>
        var r := Settle(before, batch[k], clock(k));
        SettlementPass.Pass(s, batch[..k + 1], clock)
        == if r.Ok? then (r.value.0, if r.value.1 then count + 1 else count) else (before, count)
  {
    hide Settle;
    assert batch[..k + 1][..k] == batch[..k];
  }

  lemma SettleKeepsCount(s: State, sid: nat, now: int)
    ensures |Next(s, SettleOne(sid, now)).supports| == |s.supports|
    ensures Enabled(s, SettleOne(sid, now)) ==>
      var o := Settle(s, sid, now); Next(s, SettleOne(sid, now)) == if o.Ok? then o.value.0 else s
  {
    hide Moved, EntriesOf;
  }

  /** Why the reservation can neither collide in the books nor leave a negative balance. */
  lemma RequestFacts(s: State, q: Request)
    requires Inv(s)
    ensures Reserve(|s.withdrawals|) !in LedgerKeys(s.ledger) && Reserve(|s.withdrawals|) !in BatchKeys(s.batches)
    ensures forall u :: 0 <= u < |s.wallets| ==> NonNegative(s.wallets[u].balances)
    ensures NormalizeAmount(q.amount).Ok? ==> NormalizeAmount(q.amount).value >= 0
  {
    hide KeysBoundOnce, BooksAgree, ControlsAgree, EarningsMirror, Audited, RewardsCounted, VotesCounted, EventsMirror,
         TalliesExact, CallsOk, NormalizeAmount;
    GuardsHold(s);
    if NormalizeAmount(q.amount).Ok? {
      WithdrawalProofs.AcceptedIsEnough(q.amount);
    }
  }
}
