/** Payments, settlement and the calls that drive them keep the invariant. */
module PaymentProofs {
  import opened Tables
  import opened Sums
  import opened Postings
  import opened ClosedForms
  import opened Invariants
  import opened Bookkeeping
  import opened Surroundings
  import opened Engine
  import opened Steps

  // --- settlement ----------------------------------------------------------------------------

  lemma RowChanged(n: Sizes, supports: seq<Support>, withdrawals: seq<Withdrawal>, sid: nat, p: Support)
    requires RowsOk(n, supports, withdrawals) && sid < |supports| && SupportOk(p, n)
    ensures RowsOk(n, supports[sid := p], withdrawals)
  {
    var supports' := supports[sid := p];
    forall i | 0 <= i < |supports'| ensures SupportOk(supports'[i], n) {
      if i != sid { assert SupportOk(supports[i], n); }
    }
  }

  lemma SettleKeeps(s: State, sid: nat, now: int)
    requires Core(s) && sid < |s.supports| && s.supports[sid].creator < |s.wallets|
    ensures var r := Settle(s, sid, now);
            r.Ok? ==> Core(r.value.0) && SameMarks(s.supports, r.value.0.supports) &&
                      r.value.0.calls == s.calls && r.value.0.webhooks == s.webhooks
  {
    hide KeysBoundOnce, Closed, BooksMirror, BooksAgree, ControlsAgree, EarningsMirror, Audited, RewardsCounted,
         VotesCounted, EventsMirror, TalliesExact, CallsOk;
    var r := Settle(s, sid, now);
    if r.Ok? && r.value.1 {
      assert SupportOk(s.supports[sid], SizesOf(s));
      var p := s.supports[sid].(settlement := Available);
      var t := s.(supports := s.supports[sid := p]);
      RowChanged(SizesOf(s), s.supports, s.withdrawals, sid, p);
      PostKeepsMoney(s, t, Settlement(sid));
      SurroundingsStay(s, t.supports);
    }
  }

  // --- failing -------------------------------------------------------------------------------

  lemma StatusKeepsHistory(s: seq<Support>, w: seq<Withdrawal>, sid: nat, p: Support)
    requires sid < |s| && SameOrder(s[sid], p) && p.Applied() == s[sid].Applied() && p.settlement == s[sid].settlement
    ensures SameHistory(s, w, s[sid := p], w) && SameMarks(s, s[sid := p])
  {
  }

  lemma FailKeeps(s: State, sid: nat, snap: Support)
    requires Core(s) && sid < |s.supports|
    ensures var r := FailPayment(s, sid, snap);
            r.Ok? ==> Core(r.value) && SameMarks(s.supports, r.value.supports) &&
                      r.value.calls == s.calls && r.value.webhooks == s.webhooks
  {
    hide KeysBoundOnce, Closed, BooksMirror, BooksAgree, ControlsAgree, EarningsMirror, Audited, RewardsCounted,
         VotesCounted, EventsMirror, TalliesExact, CallsOk;
    var p := s.supports[sid].(status := Failed, intent := Failed);
    assert SupportOk(p, SizesOf(s)) by { assert SupportOk(s.supports[sid], SizesOf(s)); }
    RowChanged(SizesOf(s), s.supports, s.withdrawals, sid, p);
    StatusOnly(s, sid, p);
    StatusKeepsHistory(s.supports, s.withdrawals, sid, p);
    MirrorsStay(s.batches, s.ledger, s.supports, s.withdrawals, s.supports[sid := p], s.withdrawals);
    SurroundingsStay(s, s.supports[sid := p]);
  }

  lemma StatusOnly(s: State, sid: nat, p: Support)
    requires Closed(s.wallets, s.supports, s.withdrawals) && sid < |s.supports|
    requires SameOrder(s.supports[sid], p) && p.Applied() == s.supports[sid].Applied() && p.settlement == s.supports[sid].settlement
    requires ControlsAgree(s.batches, s.supports, s.withdrawals)
    ensures Closed(s.wallets, s.supports[sid := p], s.withdrawals)
    ensures ControlsAgree(s.batches, s.supports[sid := p], s.withdrawals)
  {
    SumUpdate(s.supports, sid, p, GrossCaptured());
    SumUpdate(s.supports, sid, p, FeesCharged());
    forall u | 0 <= u < |s.wallets| ensures WalletClosed(s.wallets[u], u, s.supports[sid := p], s.withdrawals) {
      assert WalletClosed(s.wallets[u], u, s.supports, s.withdrawals);
      SupportChanges(u, s.supports, sid, p);
    }
  }

  // --- applying ------------------------------------------------------------------------------

  /** The support that is being applied. */
  ghost predicate Applying(s: State, sid: nat, p: Support) {
    sid < |s.supports| && SupportOk(s.supports[sid], SizesOf(s)) && SupportOk(p, SizesOf(s)) &&
    SameOrder(s.supports[sid], p) && !s.supports[sid].Applied() && p.Applied() && p.settlement == Held
  }

  lemma EntitleCounts(s: State, sid: nat, p: Support, snap: Support)
    requires Applying(s, sid, p) && SameOrder(snap, p)
    requires RewardsCounted(s.rewards, s.unlocks, s.supports)
    ensures var r := Entitle(s.(supports := s.supports[sid := p]), sid, snap);
            r.Ok? ==> RewardsCounted(r.value.rewards, r.value.unlocks, s.supports[sid := p]) && |r.value.rewards| == |s.rewards|
  {
    hide RewardsCounted, HasUnlocked;
    if snap.reward.Some? {
      var r := snap.reward.value;
      if !SoldOutNow(s.rewards[r]) && !HasUnlocked(s.unlocks, snap.supporter.value, r) {
        RewardClaimed(s.rewards, s.unlocks, s.supports, sid, p);
      }
    } else {
      NoRewardCounts(s, sid, p);
    }
  }

  lemma NoRewardCounts(s: State, sid: nat, p: Support)
    requires Applying(s, sid, p) && p.reward.None?
    requires RewardsCounted(s.rewards, s.unlocks, s.supports)
    ensures RewardsCounted(s.rewards, s.unlocks, s.supports[sid := p])
  {
    hide Sum;
  }

  lemma RewardClaimed(rewards: seq<Reward>, unlocks: seq<Unlock>, s: seq<Support>, sid: nat, p: Support)
    requires sid < |s| && !s[sid].Applied() && p.Applied() && SameOrder(s[sid], p)
    requires RewardsCounted(rewards, unlocks, s)
    requires p.reward.Some? && p.supporter.Some? && p.reward.value < |rewards|
    requires !SoldOutNow(rewards[p.reward.value]) && !HasUnlocked(unlocks, p.supporter.value, p.reward.value)
    ensures var r := p.reward.value;
            RewardsCounted(rewards[r := rewards[r].(claimed := rewards[r].claimed + 1)],
                           unlocks + [Unlock(p.supporter.value, r, sid)], s[sid := p])
  {
    hide Sum;
    UnlockAdded(unlocks, Unlock(p.supporter.value, p.reward.value, sid));
  }

  lemma UnlockAdded(unlocks: seq<Unlock>, u: Unlock)
    ensures forall r: nat :: Sum(unlocks + [u], ForReward(r)) == Sum(unlocks, ForReward(r)) + One(u.reward == r)
    ensures forall x: nat :: Sum(unlocks + [u], ForUnlockOf(x)) == Sum(unlocks, ForUnlockOf(x)) + One(u.sid == x)
  {
    forall r: nat ensures Sum(unlocks + [u], ForReward(r)) == Sum(unlocks, ForReward(r)) + One(u.reward == r) {
      SumAppend(unlocks, u, ForReward(r));
    }
    forall x: nat ensures Sum(unlocks + [u], ForUnlockOf(x)) == Sum(unlocks, ForUnlockOf(x)) + One(u.sid == x) {
      SumAppend(unlocks, u, ForUnlockOf(x));
    }
  }

  /** `t` is any state with the votes of `s`. */
  lemma VoteCountsOnce(s: State, sid: nat, p: Support, snap: Support, t: State)
    requires Applying(s, sid, p) && SameOrder(snap, p)
    requires VotesCounted(s.options, s.votes, s.supports)
    requires t.options == s.options && t.votes == s.votes
    ensures var r := CastVote(t, sid, snap);
            VotesCounted(r.options, r.votes, s.supports[sid := p]) && |r.options| == |s.options|
  {
    if Votes(snap) {
      VoteTaken(s.options, s.votes, s.supports, sid, p);
    }
  }

  lemma VoteTaken(options: seq<int>, votes: seq<Vote>, s: seq<Support>, sid: nat, p: Support)
    requires sid < |s| && !s[sid].Applied() && p.Applied() && SameOrder(s[sid], p)
    requires VotesCounted(options, votes, s)
    requires p.vote.Some? && p.supporter.Some? && p.vote.value < |options|
    ensures var o := p.vote.value;
            VotesCounted(options[o := options[o] + 1], votes + [Vote(o, p.supporter.value, sid)], s[sid := p])
  {
    VoteAdded(votes, Vote(p.vote.value, p.supporter.value, sid));
  }

  lemma VoteAdded(votes: seq<Vote>, v: Vote)
    ensures forall o: nat :: Sum(votes + [v], ForOption(o)) == Sum(votes, ForOption(o)) + One(v.option == o)
    ensures forall x: nat :: Sum(votes + [v], ForVoteOf(x)) == Sum(votes, ForVoteOf(x)) + One(v.sid == x)
  {
    forall o: nat ensures Sum(votes + [v], ForOption(o)) == Sum(votes, ForOption(o)) + One(v.option == o) {
      SumAppend(votes, v, ForOption(o));
    }
    forall x: nat ensures Sum(votes + [v], ForVoteOf(x)) == Sum(votes, ForVoteOf(x)) + One(v.sid == x) {
      SumAppend(votes, v, ForVoteOf(x));
    }
  }

  lemma EnqueueMirrors(s: State, sid: nat, p: Support)
    requires Applying(s, sid, p) && EventsMirror(s.outbox.events, s.supports)
    ensures EventsMirror(Enqueued(s.outbox, sid).events, s.supports[sid := p])
  {
    var a, b := Event(sid, Projection, None, None, 0), Event(sid, Telegram, None, None, 0);
    var events := s.outbox.events;
    assert Enqueued(s.outbox, sid).events == events + [a] + [b];
    forall x: nat, kind ensures
      Sum(events + [a] + [b], ForEvent(x, kind)) == Sum(events, ForEvent(x, kind)) + One(x == sid)
    {
      SumAppend(events, a, ForEvent(x, kind));
      SumAppend(events + [a], b, ForEvent(x, kind));
    }
  }

  lemma EnqueueCountsNothing(s: State, sid: nat, supports: seq<Support>)
    requires TalliesExact(s.campaigns, s.links, s.outbox.events, supports)
    ensures TalliesExact(s.campaigns, s.links, Enqueued(s.outbox, sid).events, supports)
  {
    var a, b := Event(sid, Projection, None, None, 0), Event(sid, Telegram, None, None, 0);
    var events := s.outbox.events;
    assert Enqueued(s.outbox, sid).events == events + [a] + [b];
    forall f: Event -> int | f(a) == 0 && f(b) == 0 ensures Sum(events + [a] + [b], f) == Sum(events, f) {
      SumAppend(events, a, f);
      SumAppend(events + [a], b, f);
    }
  }

  lemma PaidIsOk(s: State, sid: nat, paidAt: int, holdDays: nat)
    requires sid < |s.supports| && SupportOk(s.supports[sid], SizesOf(s)) && !s.supports[sid].Applied()
    ensures Applying(s, sid, Paid(s.supports[sid], paidAt, holdDays))
  {
  }

  /** The state of an application just before its money is posted. */
  function Entitled(s: State, sid: nat, snap: Support, paidAt: int, holdDays: nat): State
    requires sid < |s.supports|
    requires Entitle(s.(supports := s.supports[sid := Paid(s.supports[sid], paidAt, holdDays)]), sid, snap).Ok?
  {
    CastVote(Entitle(s.(supports := s.supports[sid := Paid(s.supports[sid], paidAt, holdDays)]), sid, snap).value, sid, snap)
  }

  lemma ApplyPoised(s: State, sid: nat, snap: Support, paidAt: int, holdDays: nat)
    requires ApplyPayment.requires(s, sid, snap, paidAt, holdDays)
    requires SupportOk(s.supports[sid], SizesOf(s))
    requires ApplyPayment(s, sid, snap, paidAt, holdDays).Ok? && ApplyPayment(s, sid, snap, paidAt, holdDays).value.1
    ensures var t := Entitled(s, sid, snap, paidAt, holdDays);
            Poised(s, t, Capture(sid)) && Amount(Capture(sid), t.supports, t.withdrawals) >= 0
  {
  }

  lemma ApplyMoney(s: State, sid: nat, snap: Support, paidAt: int, holdDays: nat)
    requires MoneyInv(s) && ApplyPayment.requires(s, sid, snap, paidAt, holdDays)
    requires SupportOk(s.supports[sid], SizesOf(s))
    ensures var r := ApplyPayment(s, sid, snap, paidAt, holdDays);
            r.Ok? && r.value.1 ==> MoneyInv(r.value.0)
  {
    var r := ApplyPayment(s, sid, snap, paidAt, holdDays);
    if r.Ok? && r.value.1 {
      ApplyPoised(s, sid, snap, paidAt, holdDays);
      PostKeepsMoney(s, Entitled(s, sid, snap, paidAt, holdDays), Capture(sid));
    }
  }

  lemma ApplyRewards(s: State, sid: nat, snap: Support, paidAt: int, holdDays: nat)
    requires ApplyPayment.requires(s, sid, snap, paidAt, holdDays)
    requires SupportOk(s.supports[sid], SizesOf(s)) && SameOrder(snap, s.supports[sid])
    requires RewardsCounted(s.rewards, s.unlocks, s.supports)
    ensures var r := ApplyPayment(s, sid, snap, paidAt, holdDays);
            r.Ok? && r.value.1 ==> var t := r.value.0; RewardsCounted(t.rewards, t.unlocks, t.supports) && |t.rewards| == |s.rewards|
  {
    hide Moved, EntriesOf;
    if !s.supports[sid].Applied() {
      PaidIsOk(s, sid, paidAt, holdDays);
      EntitleCounts(s, sid, Paid(s.supports[sid], paidAt, holdDays), snap);
    }
  }

  lemma ApplyVotes(s: State, sid: nat, snap: Support, paidAt: int, holdDays: nat)
    requires ApplyPayment.requires(s, sid, snap, paidAt, holdDays)
    requires SupportOk(s.supports[sid], SizesOf(s)) && SameOrder(snap, s.supports[sid])
    requires VotesCounted(s.options, s.votes, s.supports)
    ensures var r := ApplyPayment(s, sid, snap, paidAt, holdDays);
            r.Ok? && r.value.1 ==> var t := r.value.0; VotesCounted(t.options, t.votes, t.supports) && |t.options| == |s.options|
  {
    hide Moved, EntriesOf;
    if !s.supports[sid].Applied() {
      PaidIsOk(s, sid, paidAt, holdDays);
      var p := Paid(s.supports[sid], paidAt, holdDays);
      var entitled := Entitle(s.(supports := s.supports[sid := p]), sid, snap);
      if entitled.Ok? {
        VoteCountsOnce(s, sid, p, snap, entitled.value);
      }
    }
  }

  /** What applying leaves alone, and what it writes outside the perks and the money. */
  lemma ApplyFrame(s: State, sid: nat, snap: Support, paidAt: int, holdDays: nat)
    requires ApplyPayment.requires(s, sid, snap, paidAt, holdDays)
    ensures var r := ApplyPayment(s, sid, snap, paidAt, holdDays);
            r.Ok? ==>
              var t := r.value.0;
              t.withdrawals == s.withdrawals && t.audits == s.audits && t.calls == s.calls && t.webhooks == s.webhooks &&
              t.campaigns == s.campaigns && t.links == s.links && |t.wallets| == |s.wallets| &&
              (!r.value.1 ==> t == s && s.supports[sid].Applied()) &&
              (r.value.1 ==>
                !s.supports[sid].Applied() && t.supports == s.supports[sid := Paid(s.supports[sid], paidAt, holdDays)] &&
                t.earnings == s.earnings[sid := snap.fee] && t.outbox == Enqueued(s.outbox, sid))
  {
    hide Moved, EntriesOf, HasUnlocked, Enqueued;
  }

  lemma ApplyEarnings(s: State, sid: nat, snap: Support, paidAt: int, holdDays: nat)
    requires ApplyPayment.requires(s, sid, snap, paidAt, holdDays)
    requires SameOrder(snap, s.supports[sid]) && EarningsMirror(s.earnings, s.supports)
    ensures var r := ApplyPayment(s, sid, snap, paidAt, holdDays);
            r.Ok? && r.value.1 ==>
              var t := r.value.0;
              EarningsMirror(t.earnings, t.supports) && |t.wallets| == |s.wallets| && |t.campaigns| == |s.campaigns| && |t.links| == |s.links|
  {
    hide ApplyPayment;
    ApplyFrame(s, sid, snap, paidAt, holdDays);
  }

  lemma ApplyOutbox(s: State, sid: nat, snap: Support, paidAt: int, holdDays: nat)
    requires ApplyPayment.requires(s, sid, snap, paidAt, holdDays)
    requires SupportOk(s.supports[sid], SizesOf(s))
    requires EventsMirror(s.outbox.events, s.supports) && TalliesExact(s.campaigns, s.links, s.outbox.events, s.supports)
    ensures var r := ApplyPayment(s, sid, snap, paidAt, holdDays);
            r.Ok? && r.value.1 ==>
              var t := r.value.0;
              EventsMirror(t.outbox.events, t.supports) && TalliesExact(t.campaigns, t.links, t.outbox.events, t.supports)
  {
    hide ApplyPayment, Enqueued, Paid;
    ApplyFrame(s, sid, snap, paidAt, holdDays);
    var r := ApplyPayment(s, sid, snap, paidAt, holdDays);
    if r.Ok? && r.value.1 {
      var p := Paid(s.supports[sid], paidAt, holdDays);
      PaidIsOk(s, sid, paidAt, holdDays);
      EnqueueMirrors(s, sid, p);
      TalliesStay(s.campaigns, s.links, s.outbox.events, s.supports, s.supports[sid := p]);
      EnqueueCountsNothing(s, sid, s.supports[sid := p]);
    }
  }

  /** Applying a payment on a snapshot that describes the same order keeps everything but the calls. */
  lemma ApplyKeeps(s: State, sid: nat, snap: Support, paidAt: int, holdDays: nat)
    requires Core(s) && ApplyPayment.requires(s, sid, snap, paidAt, holdDays)
    requires SameOrder(snap, s.supports[sid])
    ensures var r := ApplyPayment(s, sid, snap, paidAt, holdDays);
            r.Ok? ==> Core(r.value.0)
  {
    hide KeysBoundOnce, Closed, BooksMirror, BooksAgree, ControlsAgree, EarningsMirror, Audited, RewardsCounted,
         VotesCounted, EventsMirror, TalliesExact, CallsOk;
    assert SupportOk(s.supports[sid], SizesOf(s));
    ApplyFrame(s, sid, snap, paidAt, holdDays);
    ApplyMoney(s, sid, snap, paidAt, holdDays);
    ApplyRewards(s, sid, snap, paidAt, holdDays);
    ApplyVotes(s, sid, snap, paidAt, holdDays);
    ApplyEarnings(s, sid, snap, paidAt, holdDays);
    ApplyOutbox(s, sid, snap, paidAt, holdDays);
    if !s.supports[sid].Applied() {
      PaidIsOk(s, sid, paidAt, holdDays);
      RowChanged(SizesOf(s), s.supports, s.withdrawals, sid, Paid(s.supports[sid], paidAt, holdDays));
    }
  }

  // --- calls ---------------------------------------------------------------------------------

  lemma CallOpened(calls: seq<Call>, webhooks: map<nat, bool>, s: seq<Support>, origin: Origin, ref: nat)
    requires CallsOk(calls, webhooks, s) && (origin.Webhook? ==> ref !in webhooks)
    ensures CallsOk(calls + [Call(origin, ref, Started)], if origin.Webhook? then webhooks[ref := false] else webhooks, s)
  {
    var c := Call(origin, ref, Started);
    forall x: nat
      ensures Sum(calls + [c], WebhookFor(x)) == Sum(calls, WebhookFor(x)) + One(origin == Webhook && x == ref)
      ensures Sum(calls + [c], ConfirmedFor(x)) == Sum(calls, ConfirmedFor(x))
    {
      SumAppend(calls, c, WebhookFor(x));
      SumAppend(calls, c, ConfirmedFor(x));
    }
  }

  lemma OpenKeeps(s: State, origin: Origin, ref: nat)
    requires Inv(s)
    ensures Inv(Next(s, OpenCall(origin, ref)))
  {
    hide RowsOk, KeysBoundOnce, Closed, BooksMirror, BooksAgree, ControlsAgree, EarningsMirror, Audited,
         RewardsCounted, VotesCounted, EventsMirror, TalliesExact, CallsOk;
    if origin.Verify? || ref !in s.webhooks {
      CallOpened(s.calls, s.webhooks, s.supports, origin, ref);
    }
  }

  /** A call moves on; `applied` says whether this is the one that applied the payment. */
  lemma CallMoves(calls: seq<Call>, webhooks: map<nat, bool>, s: seq<Support>, s': seq<Support>, c: nat, phase: Phase, applied: bool)
    requires CallsOk(calls, webhooks, s) && c < |calls|
    requires calls[c].phase != Finished(Confirmed) && applied == (phase == Finished(Confirmed))
    requires SupportsKept(s, s') && SnapshotOk(calls[c].(phase := phase), s')
    requires forall i: nat ::
               (i < |s'| && s'[i].Applied()) <==> (i < |s| && s[i].Applied()) || (applied && i == calls[c].sid)
    requires applied ==> calls[c].sid < |s| && !s[calls[c].sid].Applied()
    ensures CallsOk(calls[c := calls[c].(phase := phase)], webhooks, s')
  {
    var call' := calls[c].(phase := phase);
    forall x: nat
      ensures Sum(calls[c := call'], WebhookFor(x)) == Sum(calls, WebhookFor(x))
      ensures Sum(calls[c := call'], ConfirmedFor(x)) == Sum(calls, ConfirmedFor(x)) + One(applied && x == calls[c].sid)
    {
      SumUpdate(calls, c, call', WebhookFor(x));
      SumUpdate(calls, c, call', ConfirmedFor(x));
    }
  }

  lemma LoadKeeps(s: State, c: nat)
    requires Inv(s) && Enabled(s, LoadCall(c))
    ensures Inv(Next(s, LoadCall(c)))
  {
    hide RowsOk, KeysBoundOnce, Closed, BooksMirror, BooksAgree, ControlsAgree, EarningsMirror, Audited,
         RewardsCounted, VotesCounted, EventsMirror, TalliesExact;
    var t := Load(s, c);
    CallMoves(s.calls, s.webhooks, s.supports, s.supports, c, t.calls[c].phase, false);
  }

  lemma CloseKeeps(s: State, c: nat)
    requires Inv(s) && Enabled(s, CloseCall(c))
    ensures Inv(Next(s, CloseCall(c)))
  {
    hide RowsOk, KeysBoundOnce, Closed, BooksMirror, BooksAgree, ControlsAgree, EarningsMirror, Audited,
         RewardsCounted, VotesCounted, EventsMirror, TalliesExact;
  }

  lemma FinishKeeps(s: State, c: nat, reply: Reply)
    requires Core(s) && c < |s.calls|
    ensures Core(Finish(s, c, reply))
  {
    hide RowsOk, KeysBoundOnce, Closed, BooksMirror, BooksAgree, ControlsAgree, EarningsMirror, Audited,
         RewardsCounted, VotesCounted, EventsMirror, TalliesExact, CallsOk;
  }

  lemma ResolveKeepsCore(s: State, c: nat, verdict: Verdict, paidAt: int, holdDays: nat)
    requires Enabled(s, ResolveCall(c, verdict, paidAt, holdDays)) && SnapshotOk(s.calls[c], s.supports) && Core(s)
    ensures Core(Resolve(s, c, verdict, paidAt, holdDays))
  {
    hide RowsOk, KeysBoundOnce, Closed, BooksMirror, BooksAgree, ControlsAgree, EarningsMirror, Audited,
         RewardsCounted, VotesCounted, EventsMirror, TalliesExact, CallsOk;
    var sid, snap := s.calls[c].sid, s.calls[c].phase.snapshot;
    match verdict
    case Unreachable => FinishKeeps(s, c, Raised(ProviderDown));
    case WrongDetails => FinishKeeps(s, c, Raised(DetailsMismatch));
    case Unsuccessful =>
      var r := FailPayment(s, sid, snap);
      FailKeeps(s, sid, snap);
      if r.Ok? { FinishKeeps(r.value, c, Declined); } else { FinishKeeps(s, c, Raised(r.error)); }
    case Success =>
      var r := ApplyPayment(s, sid, snap, paidAt, holdDays);
      ApplyFrame(s, sid, snap, paidAt, holdDays);
      ApplyKeeps(s, sid, snap, paidAt, holdDays);
      if r.Err? { FinishKeeps(s, c, Raised(r.error)); }
      else { FinishKeeps(r.value.0, c, if r.value.1 then Confirmed else AlreadyDone); }
  }

  lemma ResolveKeepsCalls(s: State, c: nat, verdict: Verdict, paidAt: int, holdDays: nat)
    requires CallsOk(s.calls, s.webhooks, s.supports) && Enabled(s, ResolveCall(c, verdict, paidAt, holdDays))
    ensures var t := Resolve(s, c, verdict, paidAt, holdDays); CallsOk(t.calls, t.webhooks, t.supports)
  {
    hide CallsOk, Resolve;
    if verdict == Success {
      ResolveSuccess(s, c, paidAt, holdDays);
    } else {
      ResolveOtherwise(s, c, verdict, paidAt, holdDays);
    }
  }

  lemma ResolveOtherwise(s: State, c: nat, verdict: Verdict, paidAt: int, holdDays: nat)
    requires CallsOk(s.calls, s.webhooks, s.supports) && Enabled(s, ResolveCall(c, verdict, paidAt, holdDays)) && verdict != Success
    ensures var t := Resolve(s, c, verdict, paidAt, holdDays); CallsOk(t.calls, t.webhooks, t.supports)
  {
    hide ApplyPayment, Sum, CallsOk;
    var sid := s.calls[c].sid;
    CallSnapshot(s.calls, s.webhooks, s.supports, c);
    var failed := s.supports[sid].(status := Failed, intent := Failed);
    StatusKeepsHistory(s.supports, s.withdrawals, sid, failed);
    var t := Resolve(s, c, verdict, paidAt, holdDays);
    assert t.supports == s.supports || t.supports == s.supports[sid := failed];
    var phase := t.calls[c].phase;
    assert t.calls == s.calls[c := s.calls[c].(phase := phase)] && t.webhooks == s.webhooks && phase.Finished? && phase != Finished(Confirmed);
    hide Resolve, FailPayment;
    CallMoves(s.calls, s.webhooks, s.supports, t.supports, c, phase, false);
  }

  lemma CallSnapshot(calls: seq<Call>, webhooks: map<nat, bool>, s: seq<Support>, c: nat)
    requires CallsOk(calls, webhooks, s) && c < |calls|
    ensures SnapshotOk(calls[c], s)
  {
  }

  lemma ResolveSuccess(s: State, c: nat, paidAt: int, holdDays: nat)
    requires CallsOk(s.calls, s.webhooks, s.supports) && Enabled(s, ResolveCall(c, Success, paidAt, holdDays))
    ensures var t := Resolve(s, c, Success, paidAt, holdDays); CallsOk(t.calls, t.webhooks, t.supports)
  {
    hide ApplyPayment, CallsOk, Sum;
    CallSnapshot(s.calls, s.webhooks, s.supports, c);
    var sid, snap := s.calls[c].sid, s.calls[c].phase.snapshot;
    var r := ApplyPayment(s, sid, snap, paidAt, holdDays);
    ApplyFrame(s, sid, snap, paidAt, holdDays);
    if r.Err? {
      CallMoves(s.calls, s.webhooks, s.supports, s.supports, c, Finished(Raised(r.error)), false);
    } else {
      var reply := if r.value.1 then Confirmed else AlreadyDone;
      CallMoves(s.calls, s.webhooks, s.supports, r.value.0.supports, c, Finished(reply), r.value.1);
    }
  }

  lemma ResolveKeeps(s: State, c: nat, verdict: Verdict, paidAt: int, holdDays: nat)
    requires Inv(s) && Enabled(s, ResolveCall(c, verdict, paidAt, holdDays))
    ensures Inv(Next(s, ResolveCall(c, verdict, paidAt, holdDays)))
  {
    hide RowsOk, KeysBoundOnce, Closed, BooksMirror, BooksAgree, ControlsAgree, EarningsMirror, Audited,
         RewardsCounted, VotesCounted, EventsMirror, TalliesExact;
    assert SnapshotOk(s.calls[c], s.supports);
    ResolveKeepsCore(s, c, verdict, paidAt, holdDays);
    ResolveKeepsCalls(s, c, verdict, paidAt, holdDays);
  }
}
