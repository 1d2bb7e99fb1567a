/** What settlement passes do when some wallets are switched off. The supports of such wallets stay at the
    head of the queue; enough of them keep every payable support behind them from being released. */
module Starvation {
  import opened Tables
  import opened Postings
  import opened Invariants
  import opened Engine
  import opened Steps
  import opened SettlementPass
  import Safety
  import Refusals

  /** The supports due by the cutoff that a pass can release. */
  function Owed(s: State, cutoff: int): set<nat> { set i | i in Matured(s, cutoff) && Payable(s, i) }

  /** The supports due by the cutoff whose wallet is switched off. */
  function Blocked(s: State, cutoff: int): set<nat> { set i | i in Matured(s, cutoff) && !Payable(s, i) }

  /** Something is owed, and before each owed support at least `limit` blocked ones are due. */
  ghost predicate Starved(s: State, now: int, limit: nat) {
    Owed(s, now) != {} && forall p :: p in Owed(s, now) ==> |Blocked(s, DueAt(s, p) - 1)| >= limit
  }

  // --- every order of equal times is a legal batch ---------------------------------------------------

  ghost predicate Dated(s: State, a: set<nat>) { forall i :: i in a ==> i < |s.supports| && s.supports[i].availableAt.Some? }

  /** Every member of `a` is due no later than any member of `b`. */
  ghost predicate Ahead(s: State, a: set<nat>, b: set<nat>)
    requires Dated(s, a) && Dated(s, b)
  {
    forall x, y :: x in a && y in b ==> DueAt(s, x) <= DueAt(s, y)
  }

  lemma {:induction false} FirstDue(s: State, a: set<nat>) returns (m: nat)
    requires Dated(s, a) && a != {}
    ensures m in a && forall i :: i in a ==> DueAt(s, m) <= DueAt(s, i)
  {
    var x :| x in a;
    m := x;
    if a != {x} {
      var y := FirstDue(s, a - {x});
      if DueAt(s, y) < DueAt(s, x) { m := y; }
    }
  }

  /** The `n` earliest members of `a`, earliest first. If all of `v` may come first, then `v` does. */
  lemma {:induction false} Earliest(s: State, a: set<nat>, v: set<nat>, n: nat) returns (b: seq<nat>)
    requires Dated(s, a) && v <= a && Ahead(s, v, a - v) && n <= |a|
    ensures Distinct(b) && |b| == n && Elements(b) <= a && Ahead(s, Elements(b), a - Elements(b))
    ensures InOrder(s, b)
    ensures if n < |v| then Elements(b) <= v else v <= Elements(b)
    decreases n
  {
    if n == 0 { return []; }
    var m := FirstDue(s, if v == {} then a else v);
    var rest := Earliest(s, a - {m}, v - {m}, n - 1);
    b := [m] + rest;
    Prepended(s, m, rest);
  }

  ghost predicate InOrder(s: State, b: seq<nat>) {
    (forall k :: 0 <= k < |b| ==> b[k] < |s.supports| && s.supports[b[k]].availableAt.Some?) &&
    forall j, k :: 0 <= j < k < |b| ==> DueAt(s, b[j]) <= DueAt(s, b[k])
  }

  lemma Prepended(s: State, m: nat, rest: seq<nat>)
    requires Dated(s, {m}) && InOrder(s, rest) && Ahead(s, {m}, Elements(rest)) && Distinct(rest) && m !in Elements(rest)
    ensures InOrder(s, [m] + rest) && Distinct([m] + rest) && Elements([m] + rest) == {m} + Elements(rest)
  {
    assert forall k :: 0 <= k < |rest| ==> rest[k] in Elements(rest);
    assert forall x :: x in [m] + rest <==> x == m || x in rest;
  }

  /** If all of `v` may come first, then some batch takes `v` first. */
  lemma BatchThrough(s: State, now: int, limit: nat, v: set<nat>) returns (b: seq<nat>)
    requires v <= Matured(s, now) && Ahead(s, v, Matured(s, now) - v)
    ensures IsBatch(s, now, limit, b) && if limit < |v| then Elements(b) <= v else v <= Elements(b)
  {
    var all := Matured(s, now);
    Subset(v, all);
    b := Earliest(s, all, v, if |all| < limit then |all| else limit);
    assert forall k :: 0 <= k < |b| ==> b[k] in Elements(b);
    if |all| < limit {
      DistinctCount(b);
      SubsetOfNoMore(Elements(b), all);
    }
  }

  // --- one pass --------------------------------------------------------------------------------------

  lemma OwedIsDue(s: State, now: int, p: nat)
    requires p in Owed(s, now)
    ensures DueAt(s, p) <= now && p in Owed(s, DueAt(s, p)) && p in Matured(s, now)
  {
    hide Payable;
  }

  lemma MaturedGrows(s: State, early: int, late: int)
    requires early <= late
    ensures Matured(s, early) <= Matured(s, late) && Blocked(s, early) <= Blocked(s, late) && Owed(s, early) <= Owed(s, late)
    ensures |Blocked(s, early)| <= |Blocked(s, late)|
    ensures forall i :: i in Matured(s, late) ==> (i in Matured(s, early) <==> DueAt(s, i) <= early)
  {
    hide Payable;
    Subset(Blocked(s, early), Blocked(s, late));
  }

  /** What a batch leaves out comes after a full batch. */
  lemma LeftOut(s: State, now: int, limit: nat, batch: seq<nat>, p: nat)
    requires IsBatch(s, now, limit, batch) && p in Matured(s, now) && p !in batch
    ensures |batch| == limit && |Elements(batch)| == limit && Elements(batch) <= Matured(s, DueAt(s, p))
  {
    DistinctCount(batch);
    MaturedGrows(s, DueAt(s, p), now);
    if |batch| < limit { SubsetOfNoMore(Elements(batch), Matured(s, now)); }
    forall x | x in Elements(batch) ensures x in Matured(s, DueAt(s, p)) {
      var k :| 0 <= k < |batch| && batch[k] == x;
      assert DueAt(s, batch[k]) <= DueAt(s, p);
    }
  }

  /** Behind `limit` blocked supports that are due earlier, a support is in no batch. */
  lemma NeverTaken(s: State, now: int, limit: nat, batch: seq<nat>, p: nat)
    requires IsBatch(s, now, limit, batch) && p in Owed(s, now) && |Blocked(s, DueAt(s, p) - 1)| >= limit
    ensures p !in batch
  {
    hide Payable;
    if p in batch {
      var before := Blocked(s, DueAt(s, p) - 1);
      OwedIsDue(s, now, p);
      MaturedGrows(s, DueAt(s, p) - 1, now);
      var k :| 0 <= k < |batch| && batch[k] == p;
      assert forall x :: x in before ==> x in Matured(s, now) && DueAt(s, x) < DueAt(s, batch[k]);
      DistinctCount(batch);
      assert p in Elements(batch) && p !in before;
      StrictSubset(before, Elements(batch));
    }
  }

  // --- what passes leave alone -----------------------------------------------------------------------

  /** `t` is `s` after payable supports may have been settled. */
  ghost predicate Follows(s: State, t: State) {
    |t.supports| == |s.supports| && SameSwitches(s, t) &&
    forall i :: 0 <= i < |s.supports| ==>
      t.supports[i] == s.supports[i] || (Payable(s, i) && t.supports[i] == s.supports[i].(settlement := Available))
  }

  lemma FollowsFurther(s: State, t: State, u: State)
    requires Follows(s, t) && Follows(t, u)
    ensures Follows(s, u)
  {
  }

  /** Blocked supports stay, and an owed support is either still owed, untouched, or settled. */
  lemma QueuesAfter(s: State, t: State, cutoff: int)
    requires Follows(s, t)
    ensures Blocked(t, cutoff) == Blocked(s, cutoff) && Owed(t, cutoff) <= Owed(s, cutoff)
    ensures forall i :: i in Owed(s, cutoff) ==> i < |t.supports| && t.supports[i].availableAt == s.supports[i].availableAt
    ensures forall i :: i in Owed(s, cutoff) ==>
      if i in Owed(t, cutoff) then t.supports[i] == s.supports[i] else t.supports[i].settlement == Available
  {
    assert forall i :: 0 <= i < |s.supports| ==> (Payable(t, i) <==> Payable(s, i));
    forall i | i in Blocked(s, cutoff) ensures i in Blocked(t, cutoff) {
      assert t.supports[i] == s.supports[i];
    }
  }

  lemma PassFollows(s: State, r: Run, limit: nat, cutoff: int)
    requires Inv(s) && Legal(s, r, limit)
    ensures var t := Pass(s, r.batch, r.clock).0;
      Inv(t) && Follows(s, t) && Owed(t, cutoff) == Owed(s, cutoff) - Elements(r.batch)
  {
    hide Inv, Pass;
    PassReleasesPayable(s, r.now, r.batch, r.clock);
    var t := Pass(s, r.batch, r.clock).0;
    assert forall i: nat :: i < |s.supports| ==> t.supports[i] == Released(s, r.batch, i);
    QueuesAfter(s, t, cutoff);
  }

  lemma {:induction false} PassesFollow(s: State, runs: seq<Run>, limit: nat, cutoff: int)
    requires Inv(s) && Scheduled(s, runs, limit, cutoff)
    ensures Inv(Passes(s, runs)) && Follows(s, Passes(s, runs))
    decreases |runs|
  {
    hide Inv, Pass, Legal;
    if |runs| > 0 {
      var t := Pass(s, runs[0].batch, runs[0].clock).0;
      PassFollows(s, runs[0], limit, cutoff);
      PassesFollow(t, runs[1..], limit, cutoff);
      FollowsFurther(s, t, Passes(t, runs[1..]));
    }
  }

  // --- draining past the blocked ---------------------------------------------------------------------

  /** What is left of `a` when `b` are taken away. */
  function Less(a: nat, b: int): nat { if a <= b then 0 else if b < 0 then a else a - b }

  lemma LessAndLess(a: nat, b: nat, c: nat, rate: nat, n: nat)
    requires b <= Less(a, rate) && c <= Less(b, n * rate)
    ensures c <= Less(a, (n + 1) * rate)
  {
    assert (n + 1) * rate == n * rate + rate;
    assert n * rate >= 0;
  }

  lemma TakenOrBlocked(owed: set<nat>, blocked: set<nat>, taken: set<nat>)
    requires taken <= owed + blocked && |taken| >= |blocked|
    ensures |owed - taken| <= Less(|owed|, |taken| - |blocked|)
  {
    assert taken == (taken - owed) + (taken * owed);
    assert owed == (owed - taken) + (taken * owed);
    Subset(taken - owed, blocked);
  }

  lemma PassDrainsOwed(s: State, r: Run, limit: nat, cutoff: int)
    requires Inv(s) && Legal(s, r, limit) && cutoff <= r.now && limit >= |Blocked(s, cutoff)|
    ensures |Owed(Pass(s, r.batch, r.clock).0, cutoff)| <= Less(|Owed(s, cutoff)|, limit - |Blocked(s, cutoff)|)
  {
    hide Inv, Pass, Payable;
    PassFollows(s, r, limit, cutoff);
    var owed, taken := Owed(s, cutoff), Elements(r.batch);
    if p :| p in owed && p !in taken {
      MaturedGrows(s, cutoff, r.now);
      OwedIsDue(s, cutoff, p);
      LeftOut(s, r.now, limit, r.batch, p);
      MaturedGrows(s, DueAt(s, p), cutoff);
      TakenOrBlocked(owed, Blocked(s, cutoff), taken);
    } else {
      assert owed - taken == {};
    }
  }

  /** With k blocked supports due by the cutoff and a limit L of at least k, each pass releases L - k of the
      owed ones, or all that are left. */
  lemma {:induction false} PassesDrainOwed(s: State, runs: seq<Run>, limit: nat, cutoff: int)
    requires Inv(s) && Scheduled(s, runs, limit, cutoff) && limit >= |Blocked(s, cutoff)|
    ensures |Owed(Passes(s, runs), cutoff)| <= Less(|Owed(s, cutoff)|, |runs| * (limit - |Blocked(s, cutoff)|))
    decreases |runs|
  {
    hide Inv, Pass, Legal, Less, Owed, Blocked;
    if |runs| > 0 {
      var r, rate := runs[0], limit - |Blocked(s, cutoff)|;
      var t := Pass(s, r.batch, r.clock).0;
      PassDrainsOwed(s, r, limit, cutoff);
      PassFollows(s, r, limit, cutoff);
      QueuesAfter(s, t, cutoff);
      PassesDrainOwed(t, runs[1..], limit, cutoff);
      LessAndLess(|Owed(s, cutoff)|, |Owed(t, cutoff)|, |Owed(Passes(s, runs), cutoff)|, rate, |runs| - 1);
    } else {
      LessNothing(|Owed(s, cutoff)|);
    }
  }

  lemma LessNothing(a: nat)
    ensures Less(a, 0) == a
  {
  }

  // --- when a pass releases nothing ------------------------------------------------------------------

  ghost predicate Idles(s: State, r: Run) { Pass(s, r.batch, r.clock) == (s, 0) }

  lemma IdlesIff(s: State, r: Run, limit: nat)
    requires Inv(s) && Legal(s, r, limit)
    ensures Idles(s, r) <==> forall p :: p in Owed(s, r.now) ==> p !in r.batch
  {
    hide Inv, Pass, Payable;
    PassIsIdleIff(s, r.now, r.batch, r.clock);
    assert forall k :: 0 <= k < |r.batch| ==> r.batch[k] in Matured(s, r.now);
    assert forall k :: 0 <= k < |r.batch| && Payable(s, r.batch[k]) ==> r.batch[k] in Owed(s, r.now);
  }

  /** Every pass at this moment is idle exactly if before each owed support at least `limit` blocked ones
      are due. */
  lemma EveryPassIdlesIff(s: State, now: int, limit: nat)
    requires Inv(s)
    ensures (forall r: Run :: r.now == now && Legal(s, r, limit) ==> Idles(s, r)) <==>
      (forall p :: p in Owed(s, now) ==> |Blocked(s, DueAt(s, p) - 1)| >= limit)
  {
    hide Inv, Idles, Payable;
    forall r: Run | r.now == now && Legal(s, r, limit) && forall p :: p in Owed(s, now) ==> |Blocked(s, DueAt(s, p) - 1)| >= limit
      ensures Idles(s, r)
    {
      IdlesIff(s, r, limit);
      forall p | p in Owed(s, now) ensures p !in r.batch { NeverTaken(s, now, limit, r.batch, p); }
    }
    if p :| p in Owed(s, now) && |Blocked(s, DueAt(s, p) - 1)| < limit {
      var r := BusyPass(s, now, limit, p);
      assert !Idles(s, r);
    }
  }

  lemma BusyPass(s: State, now: int, limit: nat, p: nat) returns (r: Run)
    requires Inv(s) && p in Owed(s, now) && |Blocked(s, DueAt(s, p) - 1)| < limit
    ensures r.now == now && Legal(s, r, limit) && !Idles(s, r)
  {
    hide Inv, Idles, Payable, IsBatch;
    var q := FirstDue(s, Owed(s, now));
    var before := Blocked(s, DueAt(s, q) - 1);
    MaturedGrows(s, DueAt(s, q) - 1, DueAt(s, p) - 1);
    MaturedGrows(s, DueAt(s, q) - 1, now);
    var batch := BatchThrough(s, now, limit, before + {q});
    r := Run(now, batch, _ => now);
    IdlesIff(s, r, limit);
  }

  /** Some pass at this moment may be idle, depending on how the query orders equal times, exactly if up to
      each owed support at least `limit` blocked ones are due. */
  lemma SomePassIdlesIff(s: State, now: int, limit: nat)
    requires Inv(s)
    ensures (exists r: Run :: r.now == now && Legal(s, r, limit) && Idles(s, r)) <==>
      (forall p :: p in Owed(s, now) ==> |Blocked(s, DueAt(s, p))| >= limit)
  {
    hide Inv, Idles, Payable;
    forall r: Run, p | r.now == now && Legal(s, r, limit) && Idles(s, r) && p in Owed(s, now)
      ensures |Blocked(s, DueAt(s, p))| >= limit
    {
      IdlesIff(s, r, limit);
      OwedIsDue(s, now, p);
      LeftOut(s, now, limit, r.batch, p);
      MaturedGrows(s, DueAt(s, p), now);
      Subset(Elements(r.batch), Blocked(s, DueAt(s, p)));
    }
    if forall p :: p in Owed(s, now) ==> |Blocked(s, DueAt(s, p))| >= limit {
      var r := IdlePossible(s, now, limit);
      assert Idles(s, r);
    }
  }

  lemma IdlePossible(s: State, now: int, limit: nat) returns (r: Run)
    requires Inv(s) && forall p :: p in Owed(s, now) ==> |Blocked(s, DueAt(s, p))| >= limit
    ensures r.now == now && Legal(s, r, limit) && Idles(s, r)
  {
    hide Inv, Idles, Payable;
    var v := Matured(s, now);
    if Owed(s, now) != {} {
      var q := FirstDue(s, Owed(s, now));
      v := Blocked(s, DueAt(s, q));
      OwedIsDue(s, now, q);
      MaturedGrows(s, DueAt(s, q), now);
    }
    var batch := BatchThrough(s, now, limit, v);
    r := Run(now, batch, _ => now);
    if limit >= |v| && Owed(s, now) != {} {
      DistinctCount(batch);
      SubsetOfNoMore(v, Elements(batch));
    }
    IdlesIff(s, r, limit);
  }

  // --- the fate of one support -----------------------------------------------------------------------

  ghost predicate ReleasedBy(s: State, runs: seq<Run>, p: nat) {
    p < |Passes(s, runs).supports| && Passes(s, runs).supports[p].settlement == Available
  }

  lemma {:induction false} PassesStarve(s: State, runs: seq<Run>, limit: nat, now: int, p: nat)
    requires Inv(s) && Scheduled(s, runs, limit, now) && p in Owed(s, now) && |Blocked(s, DueAt(s, p) - 1)| >= limit
    ensures p in Owed(Passes(s, runs), now) && Passes(s, runs).supports[p] == s.supports[p]
    decreases |runs|
  {
    hide Inv, Pass, Payable;
    if |runs| > 0 {
      var r := runs[0];
      var t := Pass(s, r.batch, r.clock).0;
      MaturedGrows(s, now, r.now);
      NeverTaken(s, r.now, limit, r.batch, p);
      PassFollows(s, r, limit, now);
      QueuesAfter(s, t, now);
      QueuesAfter(s, t, DueAt(s, p) - 1);
      PassesStarve(t, runs[1..], limit, now, p);
    }
  }

  lemma PassesRelease(s: State, runs: seq<Run>, limit: nat, now: int, p: nat)
    requires Inv(s) && Scheduled(s, runs, limit, now) && p in Owed(s, now) && |Blocked(s, DueAt(s, p))| < limit
    requires |runs| >= |Owed(s, DueAt(s, p))|
    ensures ReleasedBy(s, runs, p)
  {
    hide Inv, Pass, Passes, Payable, Scheduled;
    var due := DueAt(s, p);
    OwedIsDue(s, now, p);
    ScheduledEarlier(s, runs, limit, due, now);
    PassesDrainOwed(s, runs, limit, due);
    PassesFollow(s, runs, limit, due);
    QueuesAfter(s, Passes(s, runs), due);
    Multiplied(|runs|, limit - |Blocked(s, due)|);
    assert p !in Owed(Passes(s, runs), due);
  }

  lemma Multiplied(n: nat, rate: nat)
    requires rate >= 1
    ensures n * rate >= n
  {
  }

  lemma {:induction false} ScheduledEarlier(s: State, runs: seq<Run>, limit: nat, early: int, cutoff: int)
    requires Scheduled(s, runs, limit, cutoff) && early <= cutoff
    ensures Scheduled(s, runs, limit, early)
    decreases |runs|
  {
    hide Pass, Legal;
    if |runs| > 0 { ScheduledEarlier(Pass(s, runs[0].batch, runs[0].clock).0, runs[1..], limit, early, cutoff); }
  }

  lemma FavouredBatch(s: State, limit: nat, now: int, p: nat) returns (batch: seq<nat>)
    requires p in Owed(s, now) && |Blocked(s, DueAt(s, p) - 1)| < limit
    ensures IsBatch(s, now, limit, batch) && exists x :: x in batch && x in Owed(s, now)
  {
    hide Payable, IsBatch;
    var due := DueAt(s, p);
    OwedIsDue(s, now, p);
    MaturedGrows(s, due - 1, now);
    batch := BatchThrough(s, now, limit, Matured(s, due - 1) + {p});
    if p !in batch {
      assert p !in Elements(batch);
      LeftOut(s, now, limit, batch, p);
      SomeOwedTaken(s, due - 1, Elements(batch));
    }
  }

  /** If ties are broken for it, fewer than `limit` blocked supports cannot hold up a support for good. */
  lemma {:induction false} FavouredPasses(s: State, limit: nat, now: int, p: nat) returns (runs: seq<Run>)
    requires Inv(s) && p in Owed(s, now) && |Blocked(s, DueAt(s, p) - 1)| < limit
    ensures Scheduled(s, runs, limit, now) && ReleasedBy(s, runs, p)
    decreases |Owed(s, now)|
  {
    hide Inv, Pass, Payable, IsBatch;
    var batch := FavouredBatch(s, limit, now, p);
    var r := Run(now, batch, _ => now);
    var t := Pass(s, r.batch, r.clock).0;
    PassFollows(s, r, limit, now);
    QueuesAfter(s, t, now);
    if p in batch {
      runs := [r];
      assert runs[1..] == [] && Passes(t, []) == t;
    } else {
      QueuesAfter(s, t, DueAt(s, p) - 1);
      StrictSubset(Owed(t, now), Owed(s, now));
      var rest := FavouredPasses(t, limit, now, p);
      runs := [r] + rest;
      assert runs[1..] == rest;
    }
  }

  lemma SomeOwedTaken(s: State, cutoff: int, taken: set<nat>)
    requires taken <= Matured(s, cutoff) && |taken| > |Blocked(s, cutoff)|
    ensures exists x :: x in taken && x in Owed(s, cutoff)
  {
    hide Payable;
    if forall x :: x in taken ==> x !in Owed(s, cutoff) { Subset(taken, Blocked(s, cutoff)); }
  }

  /** If ties are broken against it, `limit` blocked supports hold up a support as long as they like. */
  lemma {:induction false} UnfavourablePasses(s: State, limit: nat, now: int, p: nat, n: nat) returns (runs: seq<Run>)
    requires Inv(s) && p in Owed(s, now) && |Blocked(s, DueAt(s, p))| >= limit
    ensures Scheduled(s, runs, limit, now) && |runs| == n && p in Owed(Passes(s, runs), now) && !ReleasedBy(s, runs, p)
    decreases n
  {
    hide Inv, Pass, Payable;
    if n == 0 { return []; }
    var due := DueAt(s, p);
    OwedIsDue(s, now, p);
    MaturedGrows(s, due - 1, now);
    MaturedGrows(s, due, now);
    var v := Matured(s, due - 1) + Blocked(s, due);
    Subset(Blocked(s, due), v);
    var batch := BatchThrough(s, now, limit, v);
    DistinctCount(batch);
    if limit >= |v| { SubsetOfNoMore(v, Elements(batch)); }
    var r := Run(now, batch, _ => now);
    var t := Pass(s, r.batch, r.clock).0;
    PassFollows(s, r, limit, now);
    QueuesAfter(s, t, now);
    QueuesAfter(s, t, due);
    var rest := UnfavourablePasses(t, limit, now, p, n - 1);
    runs := [r] + rest;
    assert runs[1..] == rest;
  }

  /** Some schedule of passes releases an owed support exactly if fewer than `limit` blocked ones are due
      before it. */
  lemma ReleasableIff(s: State, limit: nat, now: int, p: nat)
    requires Inv(s) && p in Owed(s, now)
    ensures (exists runs :: Scheduled(s, runs, limit, now) && ReleasedBy(s, runs, p)) <==> |Blocked(s, DueAt(s, p) - 1)| < limit
  {
    hide Inv, Payable, Scheduled, Passes;
    if |Blocked(s, DueAt(s, p) - 1)| < limit {
      var runs := FavouredPasses(s, limit, now, p);
      assert ReleasedBy(s, runs, p);
    } else {
      forall runs | Scheduled(s, runs, limit, now) ensures !ReleasedBy(s, runs, p) { PassesStarve(s, runs, limit, now, p); }
    }
  }

  /** Every schedule releases it, with one pass for each support owed by then, exactly if fewer than `limit`
      blocked ones are due before it or at the same time. */
  lemma SurelyReleasedIff(s: State, limit: nat, now: int, p: nat, n: nat)
    requires Inv(s) && p in Owed(s, now) && n >= |Owed(s, DueAt(s, p))|
    ensures (forall runs :: Scheduled(s, runs, limit, now) && |runs| == n ==> ReleasedBy(s, runs, p)) <==>
      |Blocked(s, DueAt(s, p))| < limit
  {
    hide Inv, Payable, Scheduled, Passes;
    if |Blocked(s, DueAt(s, p))| < limit {
      forall runs | Scheduled(s, runs, limit, now) && |runs| == n ensures ReleasedBy(s, runs, p) { PassesRelease(s, runs, limit, now, p); }
    } else {
      var runs := UnfavourablePasses(s, limit, now, p, n);
      assert !ReleasedBy(s, runs, p);
    }
  }

  // --- a starved system ------------------------------------------------------------------------------

  lemma StarvedStays(s: State, now: int, later: int, limit: nat)
    requires Starved(s, now, limit) && now <= later
    ensures Starved(s, later, limit)
  {
    hide Payable;
    MaturedGrows(s, now, later);
    var q :| q in Owed(s, now);
    OwedIsDue(s, now, q);
    forall p | p in Owed(s, later) ensures |Blocked(s, DueAt(s, p) - 1)| >= limit {
      if p !in Owed(s, now) { MaturedGrows(s, DueAt(s, q) - 1, DueAt(s, p) - 1); }
    }
  }

  /** Once starved, passes change nothing, at whatever time and however often they run. */
  lemma {:induction false} StarvedForever(s: State, runs: seq<Run>, limit: nat, now: int)
    requires Inv(s) && Starved(s, now, limit) && Scheduled(s, runs, limit, now)
    ensures Passes(s, runs) == s
    decreases |runs|
  {
    hide Inv, Pass, Legal;
    if |runs| > 0 {
      StarvedStays(s, now, runs[0].now, limit);
      EveryPassIdlesIff(s, runs[0].now, limit);
      assert Idles(s, runs[0]);
      StarvedForever(s, runs[1..], limit, now);
    }
  }

  function OrderTo(creator: nat): Draft { Draft(creator, 10000, false, None, None, None, None, None) }

  function PaidTo(creator: nat, paidAt: int): Support { Paid(NewSupport(OrderTo(creator)), paidAt, 7) }

  /** Support `sid` is ordered and paid for through call `sid`. */
  function Purchase(sid: nat, creator: nat, paidAt: int): seq<Step> {
    [ StartSupport(OrderTo(creator)), OpenCall(Verify, sid), LoadCall(sid), ResolveCall(sid, Success, paidAt, 7) ]
  }

  lemma ApplySwitches(s: State, sid: nat, snap: Support, paidAt: int, holdDays: nat)
    requires ApplyPayment.requires(s, sid, snap, paidAt, holdDays)
    ensures var r := ApplyPayment(s, sid, snap, paidAt, holdDays); r.Ok? ==> SameSwitches(s, r.value.0)
  {
    hide EntriesOf, HasUnlocked, Enqueued;
  }

  lemma Ordered(s: State, creator: nat)
    requires creator < |s.wallets|
    ensures Next(s, StartSupport(OrderTo(creator))) == s.(supports := s.supports + [NewSupport(OrderTo(creator))])
  {
  }

  lemma Purchased(s: State, creator: nat, paidAt: int)
    requires Inv(s) && creator < |s.wallets| && |s.calls| == |s.supports|
    ensures var t := After(s, Purchase(|s.supports|, creator, paidAt));
      Inv(t) && t.supports == s.supports + [PaidTo(creator, paidAt)] && |t.calls| == |t.supports| && SameSwitches(s, t)
  {
    hide Inv, Next, ApplyPayment;
    var sid := |s.supports|;
    var r := Purchase(sid, creator, paidAt);
    AfterTakes(s, r, 1);
    AfterTakes(s, r, 2);
    AfterTakes(s, r, 3);
    AfterTakes(s, r, 4);
    assert r[..4] == r && After(s, r[..0]) == s;
    Ordered(s, creator);
    var a := After(s, r[..1]);
    Refusals.Opens(a, sid);
    Safety.RunKeeps(s, r[..3]);
    Safety.RunKeeps(s, r);
    var b := After(s, r[..3]);
    Refusals.Resolves(b, sid, sid, paidAt, 7);
    ApplySwitches(b, sid, b.supports[sid], paidAt, 7);
  }

  /** Two creators register, and the first one gets `n` supports. */
  function Crowd(n: nat): seq<Step> {
    if n == 0 then [Register, Register] else Crowd(n - 1) + Purchase(n - 1, 0, 5)
  }

  ghost predicate Crowded(s: State, n: nat) {
    Inv(s) && |s.wallets| == 2 && s.wallets[0].active && s.wallets[1].active && |s.calls| == n &&
    |s.supports| == n && forall i :: 0 <= i < n ==> s.supports[i] == PaidTo(0, 5)
  }

  lemma TwoRegistered()
    ensures var s := After(EMPTY, Crowd(0)); s == EMPTY.(wallets := [NEW_WALLET, NEW_WALLET])
  {
    var r := Crowd(0);
    AfterTakes(EMPTY, r, 1);
    AfterTakes(EMPTY, r, 2);
    assert r[..2] == r && r[..0] == [];
    assert Next(EMPTY, Register) == EMPTY.(wallets := [NEW_WALLET]);
  }

  lemma {:induction false} CrowdGathers(n: nat)
    ensures Crowded(After(EMPTY, Crowd(n)), n)
  {
    hide Inv, Next, After;
    if n == 0 {
      TwoRegistered();
      Safety.ReachableIsSafe(Crowd(0));
    } else {
      CrowdGathers(n - 1);
      AfterConcat(EMPTY, Crowd(n - 1), Purchase(n - 1, 0, 5));
      Purchased(After(EMPTY, Crowd(n - 1)), 0, 5);
    }
  }

  /** The first creator has `limit` supports, the second one support that is due a moment later; then the
      first creator's wallet is switched off. */
  function StarvingRun(limit: nat): seq<Step> {
    Crowd(limit) + Purchase(limit, 1, 6) + [ToggleWallet(0, false)]
  }

  function FirstPositions(n: nat): (r: set<nat>)
    ensures |r| == n && forall i: nat :: i in r <==> i < n
  {
    if n == 0 then {} else FirstPositions(n - 1) + {n - 1}
  }

  lemma PaidIsRipe(creator: nat, paidAt: int, now: int)
    ensures var p := PaidTo(creator, paidAt);
      p.creator == creator && p.availableAt == Some(paidAt + 7 * DAY) && (Ripe(p, now) <==> paidAt + 7 * DAY <= now)
  {
  }

  lemma CrowdStarves(s: State, limit: nat)
    requires |s.wallets| == 2 && !s.wallets[0].active && s.wallets[1].active && |s.supports| == limit + 1
    requires s.supports[limit] == PaidTo(1, 6) && forall i :: 0 <= i < limit ==> s.supports[i] == PaidTo(0, 5)
    ensures Starved(s, 6 + 7 * DAY, limit)
  {
    hide PaidTo, Ripe;
    PaidIsRipe(0, 5, 6 + 7 * DAY);
    PaidIsRipe(0, 5, 5 + 7 * DAY);
    PaidIsRipe(1, 6, 6 + 7 * DAY);
    PaidIsRipe(1, 6, 5 + 7 * DAY);
    assert Owed(s, 6 + 7 * DAY) == {limit};
    assert Blocked(s, 5 + 7 * DAY) == FirstPositions(limit);
  }

  /** For every limit some run leads from the empty database to a starved system: a support is owed, and no
      later pass ever releases anything. */
  lemma StarvationIsReachable(limit: nat)
    ensures var s := After(EMPTY, StarvingRun(limit));
      Starved(s, 6 + 7 * DAY, limit) && forall runs :: Scheduled(s, runs, limit, 6 + 7 * DAY) ==> Passes(s, runs) == s
  {
    hide Inv, Next, After, Starved;
    var a, b := Crowd(limit), Purchase(limit, 1, 6);
    CrowdGathers(limit);
    var s := After(EMPTY, a);
    AfterConcat(EMPTY, a, b);
    Purchased(s, 1, 6);
    var t := After(EMPTY, a + b);
    AfterConcat(EMPTY, a + b, [ToggleWallet(0, false)]);
    AfterOne(t, ToggleWallet(0, false));
    Switched(t);
    var u := After(EMPTY, StarvingRun(limit));
    CrowdStarves(u, limit);
    Safety.ReachableIsSafe(StarvingRun(limit));
    forall runs | Scheduled(u, runs, limit, 6 + 7 * DAY) ensures Passes(u, runs) == u {
      StarvedForever(u, runs, limit, 6 + 7 * DAY);
    }
  }

  lemma Switched(t: State)
    requires |t.wallets| > 0
    ensures Next(t, ToggleWallet(0, false)) == t.(wallets := t.wallets[0 := t.wallets[0].(active := false)])
  {
  }
}
