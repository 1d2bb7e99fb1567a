/** The hourly settlement pass: the earliest matured supports, one transaction each. */
module SettlementPass {
  import opened Tables
  import opened Postings
  import opened ClosedForms
  import opened Invariants
  import opened Engine
  import opened Steps
  import Safety
  import Payments

  function Matured(s: State, now: int): set<nat> {
    set i: nat | i < |s.supports| && Ripe(s.supports[i], now)
  }

  function DueAt(s: State, sid: nat): int
    requires sid < |s.supports| && s.supports[sid].availableAt.Some?
  {
    s.supports[sid].availableAt.value
  }

  /** What the query may return: matured supports, earliest first, at most `limit`, and none left out
      that is earlier than one taken. Equal times may come in any order. */
  ghost predicate IsBatch(s: State, now: int, limit: nat, batch: seq<nat>) {
    Distinct(batch) && (forall k :: 0 <= k < |batch| ==> batch[k] in Matured(s, now)) &&
    (forall j, k :: 0 <= j < k < |batch| ==> DueAt(s, batch[j]) <= DueAt(s, batch[k])) &&
    |batch| == (if |Matured(s, now)| < limit then |Matured(s, now)| else limit) &&
    (forall k, i :: 0 <= k < |batch| && i in Matured(s, now) && i !in batch ==> DueAt(s, batch[k]) <= DueAt(s, i))
  }

  /** A pass over a batch: `clock(k)` is the time at which item k is handled. A failing item is logged
      and skipped. The number counts the items released. */
  function Pass(s: State, batch: seq<nat>, clock: nat -> int): (State, nat) {
    if |batch| == 0 then (s, 0)
    else
      var k := |batch| - 1;
      var (before, count) := Pass(s, batch[..k], clock);
      if Enabled(before, SettleOne(batch[k], clock(k))) then
        var r := Settle(before, batch[k], clock(k));
        if r.Ok? then (r.value.0, if r.value.1 then count + 1 else count) else (before, count)
      else (before, count)
  }

  ghost predicate AllActive(s: State) { forall u :: 0 <= u < |s.wallets| ==> s.wallets[u].active }

  /** A support is released only at a time at or after its due time, and only a release changes the
      settlement status. */
  lemma NothingEarly(s: State, sid: nat, now: int)
    requires Inv(s) && Enabled(s, SettleOne(sid, now))
    ensures var t := Next(s, SettleOne(sid, now));
      |t.supports| == |s.supports| &&
      forall i :: 0 <= i < |s.supports| && t.supports[i] != s.supports[i] ==>
        i == sid && t.supports[i] == s.supports[i].(settlement := Available) && s.supports[i].availableAt.Some? && DueAt(s, i) <= now
  {
    hide Inv, Moved, EntriesOf;
  }

  /** The creator's wallet is switched on. */
  predicate Payable(s: State, sid: nat) {
    sid < |s.supports| && s.supports[sid].creator < |s.wallets| && s.wallets[s.supports[sid].creator].active
  }

  /** The supports after a pass: the items of the batch whose wallet is active are settled. */
  function Released(s: State, batch: seq<nat>, i: nat): Support
    requires i < |s.supports|
  {
    if i in batch && Payable(s, i) then s.supports[i].(settlement := Available) else s.supports[i]
  }

  function PayableCount(s: State, batch: seq<nat>): nat {
    if |batch| == 0 then 0 else PayableCount(s, batch[..|batch| - 1]) + if Payable(s, batch[|batch| - 1]) then 1 else 0
  }

  /** Neither the wallets' switches nor their number change. */
  ghost predicate SameSwitches(s: State, t: State) {
    |t.wallets| == |s.wallets| && forall u :: 0 <= u < |s.wallets| ==> t.wallets[u].active == s.wallets[u].active
  }

  lemma SettleOneRipe(s: State, sid: nat, now: int)
    requires Inv(s) && sid < |s.supports| && Ripe(s.supports[sid], now)
    ensures Enabled(s, SettleOne(sid, now))
    ensures var r := Settle(s, sid, now);
      if Payable(s, sid) then
        r.Ok? && r.value.1 && Inv(r.value.0) && SameSwitches(s, r.value.0) &&
        r.value.0.supports == s.supports[sid := s.supports[sid].(settlement := Available)]
      else r.Err?
  {
    hide EntriesOf, Moved, KeysBoundOnce, Closed, BooksMirror, BooksAgree, ControlsAgree, EarningsMirror, Audited, RewardsCounted,
         VotesCounted, EventsMirror, TalliesExact, CallsOk;
    assert SupportOk(s.supports[sid], SizesOf(s));
    Safety.StepKeeps(s, SettleOne(sid, now));
  }

  /** A pass releases exactly the items of its batch whose wallet is active, and counts them. */
  lemma {:induction false} PassReleasesPayable(s: State, now: int, batch: seq<nat>, clock: nat -> int)
    requires Inv(s)
    requires Distinct(batch) && forall k :: 0 <= k < |batch| ==> batch[k] in Matured(s, now) && clock(k) >= now
    ensures var (t, count) := Pass(s, batch, clock);
      Inv(t) && SameSwitches(s, t) && count == PayableCount(s, batch) && |t.supports| == |s.supports| &&
      forall i: nat :: i < |s.supports| ==> t.supports[i] == Released(s, batch, i)
  {
    hide Inv, Enabled, Settle;
    if |batch| > 0 {
      var k := |batch| - 1;
      assert batch == batch[..k] + [batch[k]];
      PassReleasesPayable(s, now, batch[..k], clock);
      var m := Pass(s, batch[..k], clock).0;
      assert batch[k] in Matured(s, now) && batch[k] !in batch[..k];
      assert m.supports[batch[k]] == s.supports[batch[k]];
      SettleOneRipe(m, batch[k], clock(k));
    }
  }

  lemma {:induction false} AllPayable(s: State, now: int, batch: seq<nat>)
    requires Inv(s) && AllActive(s) && forall k :: 0 <= k < |batch| ==> batch[k] in Matured(s, now)
    ensures PayableCount(s, batch) == |batch| && forall i :: i in batch ==> Payable(s, i)
  {
    hide KeysBoundOnce, Closed, BooksMirror, BooksAgree, ControlsAgree, EarningsMirror, Audited, RewardsCounted,
         VotesCounted, EventsMirror, TalliesExact, CallsOk, Ripe;
    if |batch| > 0 {
      var k := |batch| - 1;
      AllPayable(s, now, batch[..k]);
      assert batch == batch[..k] + [batch[k]];
      assert batch[k] in Matured(s, now) && SupportOk(s.supports[batch[k]], SizesOf(s));
    }
  }

  /** With all wallets active a pass releases its whole batch; in particular the wallet guard, the
      "state is inconsistent" check, never fails. */
  lemma PassReleasesAll(s: State, now: int, batch: seq<nat>, clock: nat -> int)
    requires Inv(s) && AllActive(s)
    requires Distinct(batch) && forall k :: 0 <= k < |batch| ==> batch[k] in Matured(s, now) && clock(k) >= now
    ensures var (t, count) := Pass(s, batch, clock);
      Inv(t) && AllActive(t) && count == |batch| && |t.supports| == |s.supports| &&
      forall i: nat :: i < |s.supports| ==>
        t.supports[i] == if i in batch then s.supports[i].(settlement := Available) else s.supports[i]
  {
    hide Inv, Pass, Ripe;
    PassReleasesPayable(s, now, batch, clock);
    AllPayable(s, now, batch);
  }

  lemma MaturedAfter(s: State, now: int, batch: seq<nat>, clock: nat -> int, cutoff: int)
    requires Inv(s) && AllActive(s)
    requires Distinct(batch) && forall k :: 0 <= k < |batch| ==> batch[k] in Matured(s, now) && clock(k) >= now
    ensures Matured(Pass(s, batch, clock).0, cutoff) == Matured(s, cutoff) - Elements(batch)
  {
    hide Inv, Pass;
    PassReleasesAll(s, now, batch, clock);
    var t := Pass(s, batch, clock).0;
    forall i: nat ensures i in Matured(t, cutoff) <==> i in Matured(s, cutoff) && i !in batch {
      if i < |s.supports| {
        assert t.supports[i] == if i in batch then s.supports[i].(settlement := Available) else s.supports[i];
      }
    }
  }

  function Elements(batch: seq<nat>): set<nat> { set x | x in batch }

  lemma {:induction false} DistinctCount(batch: seq<nat>)
    requires Distinct(batch)
    ensures |Elements(batch)| == |batch|
  {
    if |batch| > 0 {
      var k := |batch| - 1;
      DistinctCount(batch[..k]);
      assert batch == batch[..k] + [batch[k]];
      assert Elements(batch) == Elements(batch[..k]) + {batch[k]};
      assert batch[k] !in Elements(batch[..k]);
    }
  }

  /** One pass takes the earliest supports first: of those due by any cutoff up to now, it releases
      `limit`, or all of them if there are fewer. */
  lemma PassTakesEarliest(s: State, now: int, limit: nat, batch: seq<nat>, clock: nat -> int, cutoff: int)
    requires Inv(s) && AllActive(s) && Legal(s, Run(now, batch, clock), limit) && cutoff <= now
    ensures var left := |Matured(Pass(s, batch, clock).0, cutoff)|;
      left == if |Matured(s, cutoff)| <= limit then 0 else |Matured(s, cutoff)| - limit
    ensures Pass(s, batch, clock).1 == (if |Matured(s, now)| < limit then |Matured(s, now)| else limit)
  {
    hide Inv, Pass, Ripe;
    PassReleasesAll(s, now, batch, clock);
    MaturedAfter(s, now, batch, clock, cutoff);
    DistinctCount(batch);
    EarliestFirst(s, now, limit, batch, cutoff);
    TakenCounts(Matured(s, cutoff), Matured(s, now), Elements(batch), limit);
  }

  /** A batch either contains everything due by the cutoff or nothing else. */
  lemma EarliestFirst(s: State, now: int, limit: nat, batch: seq<nat>, cutoff: int)
    requires IsBatch(s, now, limit, batch) && cutoff <= now
    ensures var due, taken := Matured(s, cutoff), Elements(batch);
      due <= Matured(s, now) && taken <= Matured(s, now) && (due <= taken || taken <= due)
  {
    var due, taken := Matured(s, cutoff), Elements(batch);
    if !(due <= taken) {
      var i :| i in due && i !in taken;
      forall k | 0 <= k < |batch| ensures batch[k] in due {
        assert DueAt(s, batch[k]) <= DueAt(s, i);
      }
    }
  }

  lemma TakenCounts(due: set<nat>, all: set<nat>, taken: set<nat>, limit: nat)
    requires due <= all && taken <= all && (due <= taken || taken <= due)
    requires |taken| == if |all| < limit then |all| else limit
    ensures |due - taken| == if |due| <= limit then 0 else |due| - limit
  {
    if due <= taken {
      Subset(due, taken);
      assert due - taken == {};
    } else {
      StrictSubset(taken, all);
    }
  }

  lemma {:induction false} Subset(a: set<nat>, b: set<nat>)
    requires a <= b
    ensures |a| <= |b|
  {
    assert b == a + (b - a);
  }

  lemma StrictSubset(a: set<nat>, b: set<nat>)
    requires a < b
    ensures |a| < |b|
  {
    var x :| x in b && x !in a;
    Subset(a, b - {x});
  }

  lemma SubsetOfNoMore(a: set<nat>, b: set<nat>)
    requires a <= b && |b| <= |a|
    ensures a == b
  {
    if a != b { StrictSubset(a, b); }
  }

  /** A pass, as the scheduler runs it. */
  datatype Run = Run(now: int, batch: seq<nat>, clock: nat -> int)

  ghost predicate Legal(s: State, r: Run, limit: nat) {
    IsBatch(s, r.now, limit, r.batch) && forall k: nat :: r.clock(k) >= r.now
  }

  ghost predicate Scheduled(s: State, runs: seq<Run>, limit: nat, cutoff: int)
    decreases |runs|
  {
    |runs| > 0 ==>
      Legal(s, runs[0], limit) && cutoff <= runs[0].now &&
      Scheduled(Pass(s, runs[0].batch, runs[0].clock).0, runs[1..], limit, cutoff)
  }

  function Passes(s: State, runs: seq<Run>): State
    decreases |runs|
  {
    if |runs| == 0 then s else Passes(Pass(s, runs[0].batch, runs[0].clock).0, runs[1..])
  }

  /** n passes release n * limit of the supports due by the cutoff, or all of them: with M due and
      limit L, M rounded up over L passes drain the queue, even while more supports fall due. */
  lemma {:induction false} PassesDrain(s: State, runs: seq<Run>, limit: nat, cutoff: int)
    requires Inv(s) && AllActive(s) && Scheduled(s, runs, limit, cutoff)
    ensures var due := |Matured(s, cutoff)|;
      |Matured(Passes(s, runs), cutoff)| == if due <= |runs| * limit then 0 else due - |runs| * limit
    decreases |runs|
  {
    hide Inv, Pass;
    if |runs| > 0 {
      var r := runs[0];
      PassTakesEarliest(s, r.now, limit, r.batch, r.clock, cutoff);
      PassReleasesAll(s, r.now, r.batch, r.clock);
      PassesDrain(Pass(s, r.batch, r.clock).0, runs[1..], limit, cutoff);
      assert |runs| * limit == (|runs| - 1) * limit + limit;
    }
  }

  /** Where the drained queue leaves the books: every applied support that is due by the cutoff is
      settled, unless a stale failure has stranded it. */
  lemma DrainedUnlessStranded(s: State, cutoff: int, sid: nat)
    requires Inv(s) && Matured(s, cutoff) == {}
    requires sid < |s.supports| && s.supports[sid].availableAt.Some? && DueAt(s, sid) <= cutoff
    ensures s.supports[sid].settlement == Available || Payments.Stranded(s.supports[sid])
  {
    hide KeysBoundOnce, Closed, BooksMirror, BooksAgree, ControlsAgree, EarningsMirror, Audited, RewardsCounted,
         VotesCounted, EventsMirror, TalliesExact, CallsOk;
    assert SupportOk(s.supports[sid], SizesOf(s));
    assert sid !in Matured(s, cutoff);
  }

  // --- wallets that are switched off ---------------------------------------------------------------

  lemma {:induction false} NobodyPayable(s: State, batch: seq<nat>)
    ensures PayableCount(s, batch) == 0 <==> forall k :: 0 <= k < |batch| ==> !Payable(s, batch[k])
  {
    if |batch| > 0 { NobodyPayable(s, batch[..|batch| - 1]); }
  }

  /** A pass releases something exactly if some item of its batch has an active wallet. */
  lemma PassIsIdleIff(s: State, now: int, batch: seq<nat>, clock: nat -> int)
    requires Inv(s)
    requires Distinct(batch) && forall k :: 0 <= k < |batch| ==> batch[k] in Matured(s, now) && clock(k) >= now
    ensures Pass(s, batch, clock).1 == 0 <==> forall k :: 0 <= k < |batch| ==> !Payable(s, batch[k])
    ensures Pass(s, batch, clock).1 == 0 ==> Pass(s, batch, clock).0 == s
  {
    hide Inv, Pass;
    PassReleasesPayable(s, now, batch, clock);
    NobodyPayable(s, batch);
    if PayableCount(s, batch) == 0 { IdlePass(s, now, batch, clock); }
  }

  lemma {:induction false} IdlePass(s: State, now: int, batch: seq<nat>, clock: nat -> int)
    requires Inv(s) && forall k :: 0 <= k < |batch| ==> batch[k] in Matured(s, now) && clock(k) >= now && !Payable(s, batch[k])
    ensures Pass(s, batch, clock) == (s, 0)
  {
    hide Inv, Enabled, Settle, Payable;
    if |batch| > 0 {
      var k := |batch| - 1;
      IdlePass(s, now, batch[..k], clock);
      assert batch[k] in Matured(s, now);
      SettleOneRipe(s, batch[k], clock(k));
    }
  }
}
