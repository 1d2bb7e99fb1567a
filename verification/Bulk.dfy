/** Bulk status updates: one serializable transaction per id, in whatever order the database
    serializes them. */
module Bulk {
  import opened Tables
  import opened Postings
  import opened ClosedForms
  import opened Invariants
  import opened Engine
  import opened Steps
  import Safety

  /** What every update of one bulk request shares. `clock` is the time at which each id is handled. */
  datatype Order = Order(actor: nat, target: WithdrawalStatus, clock: nat -> int)

  function StepFor(o: Order, wid: nat): Step { SetStatus(o.actor, wid, o.target, o.clock(wid)) }

  ghost predicate Bulkable(s: State, o: Order) { Inv(s) && o.target != WithdrawalStatus.Pending }

  lemma UsersExist(s: State)
    requires Inv(s)
    ensures Linked(s)
  {
    forall i | 0 <= i < |s.withdrawals| ensures s.withdrawals[i].user < |s.wallets| {
      assert WithdrawalOk(s.withdrawals[i], |s.wallets|);
    }
  }

  /** How the update of `wid` ends in state `s`. */
  function Outcome(s: State, o: Order, wid: nat): Result<()>
    requires Linked(s)
  {
    var r := UpdateStatus(s, o.actor, wid, o.target, o.clock(wid));
    if r.Ok? then Ok(()) else Err(r.error)
  }

  /** One serialization. */
  function Serial(s: State, o: Order, ids: seq<nat>): State {
    if |ids| == 0 then s else Next(Serial(s, o, ids[..|ids| - 1]), StepFor(o, ids[|ids| - 1]))
  }

  /** The withdrawals after the bulk update, by a formula in which order plays no part. */
  function Updated(s: State, o: Order, ids: seq<nat>, wid: nat): Withdrawal
    requires Linked(s)
    requires wid < |s.withdrawals|
  {
    if wid in ids && Outcome(s, o, wid).Ok? then Advanced(s.withdrawals[wid], o.target, o.clock(wid)) else s.withdrawals[wid]
  }

  /** Everything about `t` that an update of a withdrawal outside `ids` can see is as in `s`. */
  ghost predicate Undisturbed(s: State, t: State, ids: seq<nat>) {
    |t.wallets| == |s.wallets| && t.supports == s.supports && |t.withdrawals| == |s.withdrawals| &&
    (forall u :: 0 <= u < |s.wallets| ==> t.wallets[u].active == s.wallets[u].active && t.wallets[u].earned == s.wallets[u].earned) &&
    (forall wid: nat :: wid !in ids ==> LatestAudit(t.audits, wid) == LatestAudit(s.audits, wid))
  }

  lemma OutcomeElsewhere(s: State, t: State, o: Order, ids: seq<nat>, wid: nat)
    requires Linked(s) && Linked(t)
    requires Undisturbed(s, t, ids) && wid !in ids
    requires wid < |s.withdrawals| ==> t.withdrawals[wid] == s.withdrawals[wid]
    ensures Outcome(t, o, wid) == Outcome(s, o, wid)
  {
    hide Moved, EntriesOf, Owner, Amount;
  }

  lemma LatestElsewhere(audits: seq<Audit>, a: Audit, wid: nat)
    requires a.wid != wid
    ensures LatestAudit(audits + [a], wid) == LatestAudit(audits, wid)
  {
    assert (audits + [a])[..|audits|] == audits;
  }

  lemma OneUpdate(t: State, o: Order, wid: nat)
    requires Linked(t) && o.target != WithdrawalStatus.Pending
    ensures var t' := Next(t, StepFor(o, wid));
      Undisturbed(t, t', [wid]) &&
      (forall x :: 0 <= x < |t.withdrawals| ==> t'.withdrawals[x] == Updated(t, o, [wid], x))
  {
    hide EntriesOf;
    var t' := Next(t, StepFor(o, wid));
    if Outcome(t, o, wid).Ok? {
      var a := Audit(wid, o.actor, t.withdrawals[wid].status, o.target, o.clock(wid));
      assert t'.audits == t.audits + [a];
      forall x: nat | x != wid ensures LatestAudit(t'.audits, x) == LatestAudit(t.audits, x) {
        LatestElsewhere(t.audits, a, x);
      }
    }
  }

  lemma {:induction false} SerialIs(s: State, o: Order, ids: seq<nat>)
    requires Bulkable(s, o) && Distinct(ids)
    ensures var t := Serial(s, o, ids);
      Inv(t) && Undisturbed(s, t, ids) && Linked(s) && Linked(t) &&
      forall wid: nat :: wid < |s.withdrawals| ==> t.withdrawals[wid] == Updated(s, o, ids, wid)
  {
    hide Inv, Next, Outcome, Advanced;
    UsersExist(s);
    if |ids| > 0 {
      var n := |ids| - 1;
      var init, last := ids[..n], ids[n];
      assert ids == init + [last];
      SerialIs(s, o, init);
      var m := Serial(s, o, init);
      assert last !in init;
      OutcomeElsewhere(s, m, o, init, last);
      OneUpdate(m, o, last);
      Safety.StepKeeps(m, StepFor(o, last));
      UsersExist(Serial(s, o, ids));
    }
  }

  /** Each id ends as it would have ended alone: no update of the batch can make another one fail,
      because the locked balance covers all of them. */
  lemma OutcomesAreIndependent(s: State, o: Order, ids: seq<nat>, k: nat)
    requires Bulkable(s, o) && Distinct(ids) && k < |ids|
    ensures Linked(s) && Linked(Serial(s, o, ids[..k]))
    ensures Outcome(Serial(s, o, ids[..k]), o, ids[k]) == Outcome(s, o, ids[k])
  {
    hide Inv, Outcome, Next, Serial, Undisturbed, Advanced;
    assert ids[k] !in ids[..k];
    SerialIs(s, o, ids[..k]);
    OutcomeElsewhere(s, Serial(s, o, ids[..k]), o, ids[..k], ids[k]);
  }

  /** The order in which the database serializes the updates does not matter: the final withdrawals
      and wallets are the same. The wallets follow from the statuses by the closed forms. */
  lemma OrderDoesNotMatter(s: State, o: Order, ids: seq<nat>, ids': seq<nat>)
    requires Bulkable(s, o) && Distinct(ids) && Distinct(ids')
    requires forall x :: x in ids <==> x in ids'
    ensures Serial(s, o, ids).withdrawals == Serial(s, o, ids').withdrawals
    ensures Serial(s, o, ids).wallets == Serial(s, o, ids').wallets
  {
    hide Inv, Next, Outcome, Advanced, Serial;
    SerialIs(s, o, ids);
    SerialIs(s, o, ids');
    var t, t' := Serial(s, o, ids), Serial(s, o, ids');
    assert t.withdrawals == t'.withdrawals;
    forall u | 0 <= u < |t.wallets| ensures t.wallets[u] == t'.wallets[u] {
      WalletFollows(t, t', u);
    }
  }

  /** The closed forms leave no choice: the statuses determine the balances. */
  lemma WalletFollows(t: State, t': State, u: nat)
    requires Inv(t) && Inv(t') && t.supports == t'.supports && t.withdrawals == t'.withdrawals
    requires u < |t.wallets| && u < |t'.wallets| && t.wallets[u].active == t'.wallets[u].active
    ensures t.wallets[u] == t'.wallets[u]
  {
    hide RowsOk, KeysBoundOnce, BooksMirror, BooksAgree, ControlsAgree, EarningsMirror, Audited, RewardsCounted,
         VotesCounted, EventsMirror, TalliesExact, CallsOk, Expected;
    assert WalletClosed(t.wallets[u], u, t.supports, t.withdrawals);
    assert WalletClosed(t'.wallets[u], u, t'.supports, t'.withdrawals);
  }

  // --- the request and its report ----------------------------------------------------------------

  /** The selected ids without blanks. */
  function Present(selected: seq<Option<nat>>): seq<nat> {
    if |selected| == 0 then []
    else
      var n := |selected| - 1;
      Present(selected[..n]) + if selected[n].Some? then [selected[n].value] else []
  }

  /** Each id once, in order of first appearance. */
  function Unique(ids: seq<nat>): (u: seq<nat>)
    ensures Distinct(u)
    ensures forall x :: x in u <==> x in ids
  {
    if |ids| == 0 then []
    else
      var n := |ids| - 1;
      var u := Unique(ids[..n]);
      assert ids == ids[..n] + [ids[n]];
      if ids[n] in u then u else u + [ids[n]]
  }

  datatype BulkReport = BulkReport(requested: nat, succeeded: nat, failed: seq<(nat, Error)>)

  /** How the update of `wid` is reported: an update whose three attempts all failed to serialize is given
      up, any other ends as it would have ended alone. */
  function Reported(s: State, o: Order, gaveUp: set<nat>, wid: nat): Result<()>
    requires Linked(s)
  {
    if wid in gaveUp then Err(SerializationFailure) else Outcome(s, o, wid)
  }

  /** The ids that fail, with their reasons. */
  function Failures(s: State, o: Order, gaveUp: set<nat>, ids: seq<nat>): seq<(nat, Error)>
    requires Linked(s)
  {
    if |ids| == 0 then []
    else
      var n := |ids| - 1;
      var r := Reported(s, o, gaveUp, ids[n]);
      Failures(s, o, gaveUp, ids[..n]) + if r.Err? then [(ids[n], r.error)] else []
  }

  lemma OutcomeByTime(s: State, o: Order, wid: nat)
    requires Linked(s)
    ensures Outcome(s, Order(o.actor, o.target, _ => o.clock(wid)), wid) == Outcome(s, o, wid)
  {
    hide UpdateStatus;
  }

  lemma SerialContinues(s: State, o: Order, ids: seq<nat>, k: nat)
    requires k < |ids|
    ensures Serial(s, o, ids[..k + 1]) == Next(Serial(s, o, ids[..k]), StepFor(o, ids[k]))
  {
    assert ids[..k + 1][..k] == ids[..k];
  }

  lemma FailuresContinue(s: State, o: Order, gaveUp: set<nat>, ids: seq<nat>, k: nat)
    requires Linked(s) && k < |ids|
    ensures var r := Reported(s, o, gaveUp, ids[k]);
      Failures(s, o, gaveUp, ids[..k + 1]) == Failures(s, o, gaveUp, ids[..k]) + if r.Err? then [(ids[k], r.error)] else []
  {
    hide Reported;
    assert ids[..k + 1][..k] == ids[..k];
  }
}
