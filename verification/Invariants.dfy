/** What holds between transactions. */
module Invariants {
  import opened Tables
  import opened Sums
  import opened Postings
  import opened ClosedForms

  // --- rows ----------------------------------------------------------------------------------

  /** How many rows the tables have that supports and withdrawals refer to. */
  datatype Sizes = Sizes(users: nat, rewards: nat, options: nat, campaigns: nat, links: nat)

  function SizesOf(s: State): Sizes {
    Sizes(|s.wallets|, |s.rewards|, |s.options|, |s.campaigns|, |s.links|)
  }

  /** A support is charged five per cent to the nearest cent: twenty fees are the gross amount up to ten. */
  ghost predicate SupportOk(p: Support, n: Sizes) {
    p.creator < n.users && p.fee >= 0 && p.net >= 0 && p.gross == p.fee + p.net &&
    -10 <= 20 * p.fee - p.gross <= 10 &&
    (p.credited <==> p.Applied()) && (p.availableAt.Some? <==> p.Applied()) &&
    (p.settlement == Held || p.settlement == Available) && (p.settlement == Available ==> p.Applied()) &&
    (p.status == PaymentStatus.Completed ==> p.Applied()) &&
    (p.Applied() ==> p.status == PaymentStatus.Completed || p.status == Failed) &&
    (p.supporter.Some? ==> p.supporter.value < n.users) &&
    (p.reward.Some? ==> p.supporter.Some? && p.reward.value < n.rewards) &&
    (p.vote.Some? ==> p.supporter.Some? && p.vote.value < n.options) &&
    (p.campaign.Some? ==> p.campaign.value < n.campaigns) &&
    (p.link.Some? ==> p.link.value < n.links)
  }

  /** The timestamps of a withdrawal say exactly what its status says. */
  ghost predicate WithdrawalOk(w: Withdrawal, users: nat) {
    w.user < users && w.amount >= 10000 && w.key != Some("") &&
    (w.processingStartedAt.Some? <==> w.status != WithdrawalStatus.Pending) &&
    (w.processedAt.Some? <==> w.status == WithdrawalStatus.Completed || w.status == Rejected) &&
    (w.approvedAt.Some? <==> w.status == WithdrawalStatus.Completed) &&
    (w.rejectedAt.Some? <==> w.status == Rejected)
  }

  ghost predicate RowsOk(n: Sizes, supports: seq<Support>, withdrawals: seq<Withdrawal>) {
    (forall i :: 0 <= i < |supports| ==> SupportOk(supports[i], n)) &&
    (forall i :: 0 <= i < |withdrawals| ==> WithdrawalOk(withdrawals[i], n.users))
  }

  /** At most one withdrawal per user and idempotency key. */
  ghost predicate KeysBoundOnce(withdrawals: seq<Withdrawal>) {
    forall i, j :: 0 <= i < j < |withdrawals| && withdrawals[i].user == withdrawals[j].user && withdrawals[i].key.Some? ==>
      withdrawals[i].key != withdrawals[j].key
  }

  // --- the books -----------------------------------------------------------------------------

  ghost predicate Distinct<K>(keys: seq<K>) {
    forall i, j :: 0 <= i < j < |keys| ==> keys[i] != keys[j]
  }

  function BatchKeys(batches: seq<Batch>): seq<Move> {
    seq(|batches|, i requires 0 <= i < |batches| => batches[i].key)
  }

  function LedgerKeys(ledger: seq<LedgerRow>): seq<Move> {
    seq(|ledger|, i requires 0 <= i < |ledger| => ledger[i].key)
  }

  /** A list of movements that mirrors the status columns: each movement that happened is listed
      exactly once, and nothing else is. */
  ghost predicate Mirrors(keys: seq<Move>, supports: seq<Support>, withdrawals: seq<Withdrawal>) {
    Distinct(keys) && forall m: Move :: m in keys <==> Happened(m, supports, withdrawals)
  }

  ghost predicate BatchTrue(b: Batch, supports: seq<Support>, withdrawals: seq<Withdrawal>) {
    Known(b.key, supports, withdrawals) && b.entries == EntriesOf(b.key, supports, withdrawals)
  }

  ghost predicate LedgerTrue(r: LedgerRow, supports: seq<Support>, withdrawals: seq<Withdrawal>) {
    Known(r.key, supports, withdrawals) &&
    r.user == Owner(r.key, supports, withdrawals) && r.amount == Amount(r.key, supports, withdrawals)
  }

  ghost predicate BooksMirror(batches: seq<Batch>, ledger: seq<LedgerRow>, supports: seq<Support>, withdrawals: seq<Withdrawal>) {
    Mirrors(BatchKeys(batches), supports, withdrawals) &&
    Mirrors(LedgerKeys(ledger), supports, withdrawals) &&
    (forall i :: 0 <= i < |batches| ==> BatchTrue(batches[i], supports, withdrawals)) &&
    (forall i :: 0 <= i < |ledger| ==> LedgerTrue(ledger[i], supports, withdrawals))
  }

  function JournalBalance(batches: seq<Batch>, user: nat): Balances {
    Balances(Sum(Journal(batches), OfWallet(user, CreatorAvailable)),
             Sum(Journal(batches), OfWallet(user, CreatorPending)),
             Sum(Journal(batches), OfWallet(user, CreatorLocked)))
  }

  /** The three independent records of a wallet agree: columns, journal, latest snapshot. */
  ghost predicate BooksAgree(wallets: seq<Wallet>, batches: seq<Batch>, ledger: seq<LedgerRow>) {
    forall u :: 0 <= u < |wallets| ==>
      JournalBalance(batches, u) == wallets[u].balances == LastSnapshot(ledger, u)
  }

  /** The control accounts hold what the statuses say. */
  ghost predicate ControlsAgree(batches: seq<Batch>, supports: seq<Support>, withdrawals: seq<Withdrawal>) {
    Sum(Journal(batches), OfAccount(ProcessorClearing)) == -Sum(supports, GrossCaptured()) &&
    Sum(Journal(batches), OfAccount(PlatformRevenue)) == Sum(supports, FeesCharged()) &&
    Sum(Journal(batches), OfAccount(WithdrawalClearing)) == Sum(withdrawals, PaidOutTotal())
  }

  ghost predicate EarningsMirror(earnings: map<nat, int>, supports: seq<Support>) {
    (forall sid :: sid in earnings ==> sid < |supports| && earnings[sid] == supports[sid].fee) &&
    (forall sid: nat :: sid < |supports| ==> (sid in earnings <==> supports[sid].Applied()))
  }

  // --- audits --------------------------------------------------------------------------------

  function AuditsOf(audits: seq<Audit>, wid: nat): seq<Audit> {
    if |audits| == 0 then []
    else
      var n := |audits| - 1;
      AuditsOf(audits[..n], wid) + if audits[n].wid == wid then [audits[n]] else []
  }

  /** The audit trail of one withdrawal: nothing before processing, then the processing audit, then
      one final audit by somebody else. */
  ghost predicate Trail(audits: seq<Audit>, status: WithdrawalStatus) {
    match status
    case Pending => audits == []
    case Processing => |audits| == 1 && audits[0].before == WithdrawalStatus.Pending && audits[0].after == Processing
    case Completed => TwoPeople(audits, status)
    case Rejected => TwoPeople(audits, status)
  }

  ghost predicate TwoPeople(audits: seq<Audit>, status: WithdrawalStatus) {
    |audits| == 2 && audits[0].before == WithdrawalStatus.Pending && audits[0].after == Processing &&
    audits[1].before == Processing && audits[1].after == status && audits[0].actor != audits[1].actor
  }

  ghost predicate Audited(audits: seq<Audit>, withdrawals: seq<Withdrawal>) {
    forall wid: nat ::
      if wid < |withdrawals| then Trail(AuditsOf(audits, wid), withdrawals[wid].status)
      else AuditsOf(audits, wid) == []
  }

  // --- perks ---------------------------------------------------------------------------------

  function ForReward(reward: nat): Unlock -> int { (u: Unlock) => if u.reward == reward then 1 else 0 }
  function ForOption(option: nat): Vote -> int { (v: Vote) => if v.option == option then 1 else 0 }
  function ForUnlockOf(sid: nat): Unlock -> int { (u: Unlock) => if u.sid == sid then 1 else 0 }
  function ForVoteOf(sid: nat): Vote -> int { (v: Vote) => if v.sid == sid then 1 else 0 }

  function One(b: bool): int { if b then 1 else 0 }

  ghost predicate VoteCounts(p: Support) { p.Applied() && p.vote.Some? && p.supporter.Some? }

  ghost predicate RewardsCounted(rewards: seq<Reward>, unlocks: seq<Unlock>, supports: seq<Support>) {
    (forall r :: 0 <= r < |rewards| ==>
      rewards[r].claimed == Sum(unlocks, ForReward(r)) &&
      (rewards[r].limit.Some? ==> rewards[r].claimed <= rewards[r].limit.value)) &&
    (forall i, j :: 0 <= i < j < |unlocks| ==> unlocks[i].user != unlocks[j].user || unlocks[i].reward != unlocks[j].reward) &&
    (forall sid: nat :: sid < |supports| ==>
      Sum(unlocks, ForUnlockOf(sid)) == One(supports[sid].Applied() && supports[sid].reward.Some?)) &&
    (forall i :: 0 <= i < |unlocks| ==>
      unlocks[i].sid < |supports| && supports[unlocks[i].sid].reward == Some(unlocks[i].reward) &&
      supports[unlocks[i].sid].supporter == Some(unlocks[i].user))
  }

  ghost predicate VotesCounted(options: seq<int>, votes: seq<Vote>, supports: seq<Support>) {
    (forall o :: 0 <= o < |options| ==> options[o] == Sum(votes, ForOption(o))) &&
    (forall sid: nat :: sid < |supports| ==> Sum(votes, ForVoteOf(sid)) == One(VoteCounts(supports[sid]))) &&
    (forall i :: 0 <= i < |votes| ==>
      votes[i].sid < |supports| && votes[i].option < |options| && supports[votes[i].sid].vote == Some(votes[i].option) &&
      supports[votes[i].sid].supporter == Some(votes[i].user))
  }

  // --- outbox and projections ----------------------------------------------------------------

  function ForEvent(sid: nat, kind: EventKind): Event -> int {
    (e: Event) => if e.sid == sid && e.kind == kind then 1 else 0
  }

  predicate Projected(e: Event, supports: seq<Support>) {
    e.kind == Projection && e.processedAt.Some? && e.sid < |supports|
  }

  function CampaignRevenue(c: nat, supports: seq<Support>): Event -> int {
    (e: Event) => if Projected(e, supports) && supports[e.sid].campaign == Some(c) then supports[e.sid].gross else 0
  }
  function CampaignCount(c: nat, supports: seq<Support>): Event -> int {
    (e: Event) => if Projected(e, supports) && supports[e.sid].campaign == Some(c) then 1 else 0
  }
  function LinkRevenue(k: nat, supports: seq<Support>): Event -> int {
    (e: Event) => if Projected(e, supports) && supports[e.sid].link == Some(k) then supports[e.sid].gross else 0
  }
  function LinkCount(k: nat, supports: seq<Support>): Event -> int {
    (e: Event) => if Projected(e, supports) && supports[e.sid].link == Some(k) then 1 else 0
  }

  ghost predicate EventsMirror(events: seq<Event>, supports: seq<Support>) {
    (forall i :: 0 <= i < |events| ==> events[i].sid < |supports|) &&
    (forall sid: nat, kind :: sid < |supports| ==>
      Sum(events, ForEvent(sid, kind)) == One(supports[sid].Applied()))
  }

  ghost predicate TalliesExact(campaigns: seq<Tally>, links: seq<Tally>, events: seq<Event>, supports: seq<Support>) {
    (forall c :: 0 <= c < |campaigns| ==>
      campaigns[c] == Tally(Sum(events, CampaignRevenue(c, supports)), Sum(events, CampaignCount(c, supports)))) &&
    (forall k :: 0 <= k < |links| ==>
      links[k] == Tally(Sum(events, LinkRevenue(k, supports)), Sum(events, LinkCount(k, supports))))
  }

  // --- calls ---------------------------------------------------------------------------------

  function WebhookFor(ref: nat): Call -> int {
    (c: Call) => if c.origin.Webhook? && c.sid == ref then 1 else 0
  }

  function ConfirmedFor(sid: nat): Call -> int {
    (c: Call) => if c.sid == sid && c.phase == Finished(Confirmed) then 1 else 0
  }

  /** A snapshot may be stale in every status column, never in the order it describes. */
  ghost predicate SnapshotOk(c: Call, supports: seq<Support>) {
    c.phase.Holding? ==> c.sid < |supports| && SameOrder(c.phase.snapshot, supports[c.sid])
  }

  ghost predicate CallsOk(calls: seq<Call>, webhooks: map<nat, bool>, supports: seq<Support>) {
    (forall c :: 0 <= c < |calls| ==> SnapshotOk(calls[c], supports) && (calls[c].origin.Webhook? ==> calls[c].sid in webhooks)) &&
    (forall ref: nat :: Sum(calls, WebhookFor(ref)) == One(ref in webhooks)) &&
    (forall sid: nat :: Sum(calls, ConfirmedFor(sid)) == One(sid < |supports| && supports[sid].Applied()))
  }

  /** Everything except the calls in flight. */
  ghost predicate Core(s: State) {
    RowsOk(SizesOf(s), s.supports, s.withdrawals) &&
    KeysBoundOnce(s.withdrawals) &&
    Closed(s.wallets, s.supports, s.withdrawals) &&
    BooksMirror(s.batches, s.ledger, s.supports, s.withdrawals) &&
    BooksAgree(s.wallets, s.batches, s.ledger) &&
    ControlsAgree(s.batches, s.supports, s.withdrawals) &&
    EarningsMirror(s.earnings, s.supports) &&
    Audited(s.audits, s.withdrawals) &&
    RewardsCounted(s.rewards, s.unlocks, s.supports) &&
    VotesCounted(s.options, s.votes, s.supports) &&
    EventsMirror(s.outbox.events, s.supports) &&
    TalliesExact(s.campaigns, s.links, s.outbox.events, s.supports)
  }

  ghost predicate Inv(s: State) {
    Core(s) && CallsOk(s.calls, s.webhooks, s.supports)
  }
}
