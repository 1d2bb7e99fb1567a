/** What each committed database transaction does, as a function from state to state. Checks that
    can never fire in a reachable state are left out here; the methods of `Store` carry every check
    of the source and are proved to do exactly this. */
module Engine {
  import opened Tables
  import opened Postings
  import opened Fees
  import opened Texts

  // --- withdrawals ---------------------------------------------------------------------------

  const MIN_WITHDRAWAL := 100.0

  /** A number as the caller sends it; `scaled` is its product with a hundred as the machine rounds it. */
  datatype Number = Finite(value: real, scaled: real) | NotANumber | Infinite(positive: bool)

  predicate Below(amount: Number, bound: real) {
    match amount
    case Finite(value, _) => value < bound
    case NotANumber => false
    case Infinite(positive) => !positive
  }

  /** A withdrawal request. `verified` and `accountActive` are what the user and financial-account
      tables answer for this user and account. */
  datatype Request = Request(
    user: nat, amount: Number, channel: nat, account: nat, note: Option<string>, key: Option<string>,
    verified: bool, accountActive: bool)

  function Nearest(x: real): int { (x + 0.5).Floor }

  /** The check looks at the rounded product, the result is the amount itself to two decimals. */
  function NormalizeAmount(amount: Number): Result<int> {
    if !amount.Finite? || amount.value <= 0.0 then Err(BadAmount)
    else
      var gap := amount.scaled - Nearest(amount.scaled) as real;
      if gap > 0.00000001 || -gap > 0.00000001 then Err(BadAmount)
      else Ok(Nearest(amount.value * 100.0))
  }

  /** An empty key counts as no key. */
  function UsableKey(key: Option<string>): Option<string> {
    if key == Some("") then None else key
  }

  function FindByKey(withdrawals: seq<Withdrawal>, user: nat, key: Option<string>): (r: Option<nat>)
    ensures r.Some? ==> r.value < |withdrawals| && withdrawals[r.value].user == user && withdrawals[r.value].key == key
    ensures r.None? ==> forall i :: 0 <= i < |withdrawals| ==> withdrawals[i].user != user || withdrawals[i].key != key
  {
    if |withdrawals| == 0 then None
    else
      var n := |withdrawals| - 1;
      var earlier := FindByKey(withdrawals[..n], user, key);
      if earlier.Some? then
        assert withdrawals[..n][earlier.value] == withdrawals[earlier.value];
        earlier
      else
        assert forall i :: 0 <= i < n ==> withdrawals[i] == withdrawals[..n][i];
        if withdrawals[n].user == user && withdrawals[n].key == key then Some(n) else None
  }

  predicate SameRequest(w: Withdrawal, q: Request, cents: int) {
    w.amount == cents && w.channel == q.channel && w.account == q.account && w.note == Normalized(q.note)
  }

  function NewWithdrawal(q: Request, cents: int): Withdrawal {
    Withdrawal(q.user, cents, q.channel, q.account, Normalized(q.note), UsableKey(q.key),
               WithdrawalStatus.Pending, None, None, None, None)
  }

  function RequestWithdrawal(s: State, q: Request): Result<(State, nat)> {
    if Below(q.amount, MIN_WITHDRAWAL) then Err(BelowMinimum)
    else if q.user >= |s.wallets| then Err(UserNotFound)
    else if !q.verified then Err(NotVerified)
    else if !q.accountActive then Err(AccountNotFound)
    else
      var cents :- NormalizeAmount(q.amount);
      var key := UsableKey(q.key);
      var existing := if key.Some? then FindByKey(s.withdrawals, q.user, key) else None;
      if existing.Some? then
        if SameRequest(s.withdrawals[existing.value], q, cents) then Ok((s, existing.value)) else Err(KeyBoundElsewhere)
      else if !s.wallets[q.user].active || s.wallets[q.user].balances.available < cents then Err(InsufficientAvailable)
      else
        var wid := |s.withdrawals|;
        var s1 := s.(withdrawals := s.withdrawals + [NewWithdrawal(q, cents)]);
        Ok((Post(s1, Reserve(wid)), wid))
  }

  predicate WithdrawalAllowed(current: WithdrawalStatus, next: WithdrawalStatus) {
    match current
    case Pending => next == Processing
    case Processing => next == WithdrawalStatus.Completed || next == Rejected
    case Completed => false
    case Rejected => false
  }

  /** The where-clauses of the two conditional status updates. */
  predicate Startable(w: Withdrawal) {
    w.status == WithdrawalStatus.Pending && w.processingStartedAt.None? && w.processedAt.None?
  }

  predicate Finalizable(w: Withdrawal) {
    w.status == Processing && w.processingStartedAt.Some? && w.processedAt.None?
  }

  /** The audit of `wid` with the greatest timestamp. */
  function LatestAudit(audits: seq<Audit>, wid: nat): Option<Audit> {
    if |audits| == 0 then None
    else
      var n := |audits| - 1;
      var earlier := LatestAudit(audits[..n], wid);
      if audits[n].wid == wid && (earlier.None? || earlier.value.at <= audits[n].at) then Some(audits[n]) else earlier
  }

  function Advanced(w: Withdrawal, target: WithdrawalStatus, at: int): Withdrawal {
    match target
    case Pending => w
    case Processing => w.(status := Processing, processingStartedAt := Some(at))
    case Completed => w.(status := WithdrawalStatus.Completed, approvedAt := Some(at), processedAt := Some(at))
    case Rejected => w.(status := Rejected, rejectedAt := Some(at), processedAt := Some(at))
  }

  /** Every withdrawal belongs to a user. */
  predicate Linked(s: State) {
    forall i :: 0 <= i < |s.withdrawals| ==> s.withdrawals[i].user < |s.wallets|
  }

  function UpdateStatus(s: State, actor: nat, wid: nat, target: WithdrawalStatus, at: int): Result<State>
    requires Linked(s)
  {
    if actor >= |s.wallets| then Err(ActorNotFound)
    else if wid >= |s.withdrawals| then Err(WithdrawalNotFound)
    else
      var w := s.withdrawals[wid];
      if w.status == target then Err(AlreadyInState)
      else if !WithdrawalAllowed(w.status, target) then Err(InvalidTransition)
      else if target != Processing && LatestAudit(s.audits, wid).None? then Err(CheckerMissing)
      else if target != Processing && LatestAudit(s.audits, wid).value.actor == actor then Err(SameActor)
      else
        var s1 := s.(withdrawals := s.withdrawals[wid := Advanced(w, target, at)],
                     audits := s.audits + [Audit(wid, actor, w.status, target, at)]);
        Ok(if target == WithdrawalStatus.Completed then Post(s1, Payout(wid))
           else if target == Rejected then Post(s1, Release(wid))
           else s1)
  }

  // --- settlement ----------------------------------------------------------------------------

  predicate Ripe(p: Support, now: int) {
    p.status == PaymentStatus.Completed && p.settlement == Held && p.credited && p.availableAt.Some? && p.availableAt.value <= now
  }

  /** Releases one support if it is ripe; the flag says whether it was. */
  function Settle(s: State, sid: nat, now: int): Result<(State, bool)>
    requires sid < |s.supports| && s.supports[sid].creator < |s.wallets|
  {
    var p := s.supports[sid];
    if !Ripe(p, now) then Ok((s, false))
    else if !s.wallets[p.creator].active then Err(SettlementInconsistent)
    else Ok((Post(s.(supports := s.supports[sid := p.(settlement := Available)]), Settlement(sid)), true))
  }

  // --- supports and payments -----------------------------------------------------------------

  /** What a supporter asks for. */
  datatype Wish = Wish(
    creator: nat, supporter: Option<nat>, reward: Option<nat>, poll: Option<nat>, option: Option<nat>,
    campaign: Option<nat>, link: Option<nat>, coffees: Option<nat>, featureRequest: bool, message: Option<string>)

  /** What the catalogue tables answer: who owns what, what is published or open, and the prices in cents. */
  datatype Catalogue = Catalogue(
    published: nat -> bool, coffeePrice: nat -> nat, rewardOwner: nat -> nat, rewardPrice: nat -> nat,
    campaignOwner: nat -> nat, linkOwner: nat -> nat,
    pollOwner: nat -> Option<nat>, pollActive: nat -> bool, pollPrice: nat -> nat, optionPoll: nat -> nat)

  /** An order with its price; `tieUp` says how an exact tie of the fee is rounded. */
  datatype Draft = Draft(
    creator: nat, gross: nat, tieUp: bool, supporter: Option<nat>, reward: Option<nat>, vote: Option<nat>,
    campaign: Option<nat>, link: Option<nat>)

  function Price(c: Catalogue, q: Wish): nat {
    if q.reward.Some? then c.rewardPrice(q.reward.value)
    else if q.poll.Some? then c.pollPrice(q.poll.value)
    else c.coffeePrice(q.creator) * if q.coffees.Some? then q.coffees.value else 1
  }

  /** Everything that is checked before the supporter is sent to the checkout, and the resulting order. */
  function PrepareInitiation(s: State, c: Catalogue, q: Wish, tieUp: bool): Result<Draft> {
    if q.creator >= |s.wallets| || !c.published(q.creator) then Err(CreatorNotFound)
    else if q.reward.Some? &&
      (q.reward.value >= |s.rewards| || c.rewardOwner(q.reward.value) != q.creator || !s.rewards[q.reward.value].active)
    then Err(RewardNotFound)
    else if q.campaign.Some? && (q.campaign.value >= |s.campaigns| || c.campaignOwner(q.campaign.value) != q.creator)
    then Err(CampaignNotFound)
    else if q.link.Some? && (q.link.value >= |s.links| || c.linkOwner(q.link.value) != q.creator) then Err(LinkNotFound)
    else if q.reward.Some? && q.poll.Some? then Err(RewardWithVote)
    else if q.poll.Some? && (c.pollOwner(q.poll.value) != Some(q.creator) || !c.pollActive(q.poll.value)) then Err(PollNotFound)
    else if q.poll.Some? != q.option.Some? then Err(PollIncomplete)
    else if q.option.Some? && (q.option.value >= |s.options| || c.optionPoll(q.option.value) != q.poll.value) then Err(OptionNotFound)
    else if (q.reward.Some? || q.poll.Some?) && q.supporter.None? then Err(SignInRequired)
    else if q.reward.Some? && SoldOutNow(s.rewards[q.reward.value]) then Err(SoldOut)
    else if q.reward.Some? && HasUnlocked(s.unlocks, q.supporter.value, q.reward.value) then Err(AlreadyUnlocked)
    else if q.featureRequest && Normalized(q.message).None? then Err(MessageRequired)
    else Ok(Draft(q.creator, Price(c, q), tieUp, q.supporter, q.reward, q.option, q.campaign, q.link))
  }

  /** The users and rows the draft refers to exist, and whoever wants a reward or a vote is signed in. When the
      row is inserted, after the checkout call, the other checks may long be stale. */
  predicate Placeable(s: State, d: Draft) {
    d.creator < |s.wallets| && (d.supporter.Some? ==> d.supporter.value < |s.wallets|) &&
    (d.reward.Some? ==> d.supporter.Some? && d.reward.value < |s.rewards|) &&
    (d.vote.Some? ==> d.supporter.Some? && d.vote.value < |s.options|) &&
    (d.campaign.Some? ==> d.campaign.value < |s.campaigns|) &&
    (d.link.Some? ==> d.link.value < |s.links|)
  }

  function NewSupport(d: Draft): Support {
    var fee := Fee(d.gross, d.tieUp);
    Support(d.creator, d.gross, fee, d.gross - fee, d.supporter, d.reward, d.vote, d.campaign, d.link,
            PaymentStatus.Pending, PaymentStatus.Pending, Held, None, None, false)
  }

  function Initiate(s: State, d: Draft): State { s.(supports := s.supports + [NewSupport(d)]) }

  predicate SoldOutNow(r: Reward) { r.limit.Some? && r.claimed >= r.limit.value }

  predicate HasUnlocked(unlocks: seq<Unlock>, user: nat, reward: nat) {
    exists i :: 0 <= i < |unlocks| && unlocks[i].user == user && unlocks[i].reward == reward
  }

  predicate PaymentAllowed(current: PaymentStatus, next: PaymentStatus) {
    match current
    case Pending => next == PaymentStatus.Completed || next == Failed || next == Refunded
    case Completed => next == Refunded
    case Failed => false
    case Refunded => false
  }

  function Entitle(s: State, sid: nat, snap: Support): Result<State> {
    if snap.reward.None? then Ok(s)
    else if snap.supporter.None? then Err(SupporterRequired)
    else
      var r := snap.reward.value;
      if r >= |s.rewards| || !s.rewards[r].active || SoldOutNow(s.rewards[r]) then Err(RewardUnavailable)
      else if HasUnlocked(s.unlocks, snap.supporter.value, r) then Err(UniqueViolation)
      else Ok(s.(rewards := s.rewards[r := s.rewards[r].(claimed := s.rewards[r].claimed + 1)],
                 unlocks := s.unlocks + [Unlock(snap.supporter.value, r, sid)]))
  }

  predicate Votes(snap: Support) { snap.vote.Some? && snap.supporter.Some? }

  function CastVote(s: State, sid: nat, snap: Support): State {
    if !Votes(snap) || snap.vote.value >= |s.options| then s
    else s.(options := s.options[snap.vote.value := s.options[snap.vote.value] + 1],
            votes := s.votes + [Vote(snap.vote.value, snap.supporter.value, sid)])
  }

  function Enqueued(box: Outbox, sid: nat): Outbox {
    box.(events := box.events + [Event(sid, Projection, None, None, 0), Event(sid, Telegram, None, None, 0)])
  }

  const DAY := 24 * 60 * 60 * 1000

  function Paid(p: Support, paidAt: int, holdDays: nat): Support {
    p.(status := PaymentStatus.Completed, intent := PaymentStatus.Completed, settlement := Held, appliedAt := Some(paidAt),
       availableAt := Some(paidAt + holdDays * DAY), credited := true)
  }

  /** Applies a verified payment, decided on the snapshot the caller read earlier and on the
      compare-and-set of the row's application mark. The flag says whether this call applied it. */
  function ApplyPayment(s: State, sid: nat, snap: Support, paidAt: int, holdDays: nat): Result<(State, bool)>
    requires sid < |s.supports| && s.supports[sid].creator < |s.wallets|
  {
    if !PaymentAllowed(snap.status, PaymentStatus.Completed) || !PaymentAllowed(snap.intent, PaymentStatus.Completed) then Err(InvalidTransition)
    else if s.supports[sid].Applied() then Ok((s, false))
    else
      var s1 := s.(supports := s.supports[sid := Paid(s.supports[sid], paidAt, holdDays)]);
      var s2 :- Entitle(s1, sid, snap);
      var s3 := Post(CastVote(s2, sid, snap), Capture(sid));
      Ok((s3.(earnings := s3.earnings[sid := snap.fee], outbox := Enqueued(s3.outbox, sid)), true))
  }

  /** Writes FAILED after looking at the snapshot only. */
  function FailPayment(s: State, sid: nat, snap: Support): Result<State>
    requires sid < |s.supports|
  {
    if snap.status == Failed || snap.intent == Failed then Ok(s)
    else if !PaymentAllowed(snap.status, Failed) || !PaymentAllowed(snap.intent, Failed) then Err(InvalidTransition)
    else Ok(s.(supports := s.supports[sid := s.supports[sid].(status := Failed, intent := Failed)]))
  }

  // --- webhook and verify calls --------------------------------------------------------------

  datatype Verdict = Success | Unsuccessful | WrongDetails | Unreachable

  /** What the provider says about a payment: whether it succeeded, for which reference, in which currency, and
      how many birr. */
  datatype ProviderAnswer = Silence | Verification(success: bool, reference: nat, inBirr: bool, amount: real)

  function Judged(answer: ProviderAnswer, ref: nat, gross: int): Verdict {
    if answer.Silence? then Unreachable
    else if !answer.success || answer.reference != ref then Unsuccessful
    else if !answer.inBirr || answer.amount * 100.0 != gross as real then WrongDetails
    else Success
  }

  datatype Admission = Admitted | AlreadyProcessed | AlreadyConfirmed | Refused(error: Error)

  function Open(s: State, origin: Origin, ref: nat): (State, Admission) {
    match origin
    case Webhook =>
      if ref in s.webhooks then (s, if s.webhooks[ref] then AlreadyProcessed else Refused(UniqueViolation))
      else (s.(webhooks := s.webhooks[ref := false], calls := s.calls + [Call(Webhook, ref, Started)]), Admitted)
    case Verify =>
      if ref >= |s.supports| then (s, Refused(SupportNotFound))
      else if s.supports[ref].status == PaymentStatus.Completed then (s, AlreadyConfirmed)
      else (s.(calls := s.calls + [Call(Verify, ref, Started)]), Admitted)
  }

  /** The read before the transaction: the call keeps the row as it is now. */
  function Load(s: State, c: nat): State
    requires c < |s.calls| && s.calls[c].phase.Started?
  {
    var sid := s.calls[c].sid;
    var phase :=
      if sid >= |s.supports| then Finished(Raised(SupportNotFound))
      else if s.supports[sid].status == Failed then Finished(Declined)
      else if s.supports[sid].Applied() then Finished(AlreadyDone)
      else Holding(s.supports[sid]);
    s.(calls := s.calls[c := s.calls[c].(phase := phase)])
  }

  function Finish(s: State, c: nat, reply: Reply): State
    requires c < |s.calls|
  {
    s.(calls := s.calls[c := s.calls[c].(phase := Finished(reply))])
  }

  /** The provider answered: fail, refuse or apply, from the snapshot. */
  function Resolve(s: State, c: nat, verdict: Verdict, at: int, holdDays: nat): State
    requires c < |s.calls| && s.calls[c].phase.Holding?
    requires s.calls[c].sid < |s.supports| && s.supports[s.calls[c].sid].creator < |s.wallets|
  {
    var sid, snap := s.calls[c].sid, s.calls[c].phase.snapshot;
    match verdict
    case Unreachable => Finish(s, c, Raised(ProviderDown))
    case WrongDetails => Finish(s, c, Raised(DetailsMismatch))
    case Unsuccessful =>
      var r := FailPayment(s, sid, snap);
      if r.Ok? then Finish(r.value, c, Declined) else Finish(s, c, Raised(r.error))
    case Success =>
      var r := ApplyPayment(s, sid, snap, at, holdDays);
      if r.Err? then Finish(s, c, Raised(r.error))
      else if r.value.1 then Finish(r.value.0, c, Confirmed)
      else Finish(r.value.0, c, AlreadyDone)
  }

  function CloseWebhook(s: State, c: nat): State
    requires c < |s.calls| && s.calls[c].phase.Finished? && s.calls[c].origin.Webhook?
  {
    if s.calls[c].phase.reply.Raised? then s else s.(webhooks := s.webhooks[s.calls[c].sid := true])
  }

  // --- outbox --------------------------------------------------------------------------------

  const STALE_CLAIM := 5 * 60 * 1000

  /** The positions of the oldest claimable events, at most `limit`, oldest first. */
  function WaitingEvents(events: seq<Event>, staleBefore: int, limit: nat): (batch: seq<nat>)
    ensures forall i, j :: 0 <= i < j < |batch| ==> batch[i] < batch[j]
    ensures |batch| <= limit && forall k :: 0 <= k < |batch| ==> batch[k] < |events| && Claimable(events[batch[k]], staleBefore)
    ensures forall i :: 0 <= i < |events| && Claimable(events[i], staleBefore) && i !in batch ==>
      |batch| == limit && forall k :: 0 <= k < |batch| ==> batch[k] < i
  {
    if |events| == 0 then []
    else
      var n := |events| - 1;
      var earlier := WaitingEvents(events[..n], staleBefore, limit);
      assert forall i :: 0 <= i < n ==> events[..n][i] == events[i];
      if |earlier| < limit && Claimable(events[n], staleBefore) then earlier + [n] else earlier
  }

  const OUTBOX_BATCH := 50

  /** What a worker does next. `Begin` is a new run of the processor, which fixes its stale bound
      once, and `Query` reads its batch; it claims the events of the batch in their order, each at most
      once. `Inspect` is the re-read before a delivery, `Send` the message
      with Telegram's answer, and `Conclude` the update that records it. A worker may give up at any
      point where it holds a claim, also between the last two. `Reset` is a claim that throws: the catch
      block clears the mark of the event although this worker holds nothing. */
  datatype WorkStep =
    | Tick(to: int) | Begin | Query(worker: nat) | Claim(worker: nat, event: nat) | Inspect(worker: nat)
    | Send(worker: nat, accepted: bool) | Conclude(worker: nat) | Project(worker: nat) | GiveUp(worker: nat)
    | Reset(worker: nat, event: nat)

  predicate Claimable(e: Event, staleBefore: int) {
    e.processedAt.None? && (e.startedAt.None? || e.startedAt.value < staleBefore)
  }

  predicate CanWork(box: Outbox, step: WorkStep) {
    match step
    case Tick(to) => to >= box.clock
    case Begin => true
    case Query(w) => w < |box.workers| && box.workers[w].todo.None? && box.workers[w].holding.None?
    case Claim(w, e) => IsDue(box, w, e)
    case Inspect(w) => Holds(box, w, Telegram) && box.workers[w].holding.value.stage.Fresh?
    case Send(w, _) => Holds(box, w, Telegram) && box.workers[w].holding.value.stage.Inspected?
    case Conclude(w) => Holds(box, w, Telegram) && box.workers[w].holding.value.stage.Sent?
    case Project(w) => Holds(box, w, Projection)
    case GiveUp(w) => Holds(box, w, Projection) || Holds(box, w, Telegram)
    case Reset(w, e) => IsDue(box, w, e)
  }

  predicate Holds(box: Outbox, w: nat, kind: EventKind) {
    w < |box.workers| && box.workers[w].holding.Some? &&
    box.workers[w].holding.value.event < |box.events| && box.events[box.workers[w].holding.value.event].kind == kind
  }

  /** Event `e` is the next of the batch, and the worker is done with the one before. */
  predicate IsDue(box: Outbox, w: nat, e: nat) {
    w < |box.workers| && e < |box.events| && box.workers[w].holding.None? &&
    box.workers[w].todo.Some? && |box.workers[w].todo.value| > 0 && box.workers[w].todo.value[0] == e
  }

  /** The worker's batch without its first event. */
  function Advance(worker: Worker): Worker
    requires worker.todo.Some? && |worker.todo.value| > 0
  {
    worker.(todo := Some(worker.todo.value[1..]))
  }

  function Drop(box: Outbox, w: nat): Outbox
    requires w < |box.workers|
  {
    box.(workers := box.workers[w := box.workers[w].(holding := None)])
  }

  function Reach(box: Outbox, w: nat, stage: Stage): Outbox
    requires w < |box.workers| && box.workers[w].holding.Some?
  {
    box.(workers := box.workers[w := box.workers[w].(holding := Some(box.workers[w].holding.value.(stage := stage)))])
  }

  function Told(e: Event, accepted: bool): Event { if accepted then e.(deliveries := e.deliveries + 1) else e }

  function Done(e: Event, at: int): Event { e.(processedAt := Some(at), startedAt := None) }

  function Work(box: Outbox, step: WorkStep): Outbox
    requires CanWork(box, step)
  {
    match step
    case Tick(to) => box.(clock := to)
    case Begin => box.(workers := box.workers + [Worker(box.clock - STALE_CLAIM, None, None)])
    case Query(w) =>
      var batch := WaitingEvents(box.events, box.workers[w].staleBefore, OUTBOX_BATCH);
      box.(workers := box.workers[w := box.workers[w].(todo := Some(batch))])
    case Claim(w, i) =>
      var worker := Advance(box.workers[w]);
      if !Claimable(box.events[i], worker.staleBefore) then box.(workers := box.workers[w := worker])
      else box.(events := box.events[i := box.events[i].(startedAt := Some(box.clock))],
                workers := box.workers[w := worker.(holding := Some(Hold(i, box.clock, Fresh)))])
    case Inspect(w) =>
      if box.events[box.workers[w].holding.value.event].processedAt.Some? then Drop(box, w)
      else Reach(box, w, Inspected)
    case Send(w, accepted) =>
      var i := box.workers[w].holding.value.event;
      Reach(box.(events := box.events[i := Told(box.events[i], accepted)]), w, Sent(accepted))
    case Conclude(w) =>
      var i := box.workers[w].holding.value.event;
      Drop(box.(events := box.events[i := Done(box.events[i], box.clock)]), w)
    case Project(w) =>
      var i := box.workers[w].holding.value.event;
      if box.events[i].processedAt.Some? then Drop(box, w)
      else Drop(box.(events := box.events[i := Done(box.events[i], box.clock)]), w)
    case GiveUp(w) =>
      var i := box.workers[w].holding.value.event;
      Drop(box.(events := box.events[i := box.events[i].(startedAt := None)]), w)
    case Reset(w, i) =>
      box.(events := box.events[i := box.events[i].(startedAt := None)], workers := box.workers[w := Advance(box.workers[w])])
  }

  function Bumped(t: Tally, gross: int): Tally { Tally(t.revenue + gross, t.conversions + 1) }

  function Bump(tallies: seq<Tally>, target: Option<nat>, gross: int): seq<Tally> {
    if target.None? || target.value >= |tallies| then tallies
    else tallies[target.value := Bumped(tallies[target.value], gross)]
  }

  /** A worker's step; projecting an unprocessed event also moves the counters, in one transaction. */
  function WorkOn(s: State, step: WorkStep): State
    requires CanWork(s.outbox, step)
  {
    var s1 := s.(outbox := Work(s.outbox, step));
    if !step.Project? then s1
    else
      var e := s.outbox.events[s.outbox.workers[step.worker].holding.value.event];
      if e.processedAt.Some? || e.sid >= |s.supports| then s1
      else
        var p := s.supports[e.sid];
        s1.(campaigns := Bump(s.campaigns, p.campaign, p.gross), links := Bump(s.links, p.link, p.gross))
  }
}
