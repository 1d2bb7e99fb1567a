/** Closed forms: what every balance column should be, computed from the status columns alone. */
module ClosedForms {
  import opened Tables
  import opened Sums
  import opened Postings

  // --- weights of a support ------------------------------------------------------------------

  function PendingOf(user: nat): Support -> int {
    (p: Support) => if p.creator == user && p.Applied() && p.settlement == Held then p.net else 0
  }

  function SettledOf(user: nat): Support -> int {
    (p: Support) => if p.creator == user && p.settlement == Available then p.net else 0
  }

  function EarnedOf(user: nat): Support -> int {
    (p: Support) => if p.creator == user && p.Applied() then p.net else 0
  }

  // --- weights of a withdrawal ---------------------------------------------------------------

  function LockedOf(user: nat): Withdrawal -> int {
    (w: Withdrawal) =>
      if w.user == user && (w.status == WithdrawalStatus.Pending || w.status == Processing) then w.amount else 0
  }

  function DrawnOf(user: nat): Withdrawal -> int {
    (w: Withdrawal) => if w.user == user && w.status != Rejected then w.amount else 0
  }

  function PaidOutOf(user: nat): Withdrawal -> int {
    (w: Withdrawal) => if w.user == user && w.status == WithdrawalStatus.Completed then w.amount else 0
  }

  // --- weights of the control accounts ---------------------------------------------------------

  function GrossCaptured(): Support -> int { (p: Support) => if p.Applied() then p.gross else 0 }
  function FeesCharged(): Support -> int { (p: Support) => if p.Applied() then p.fee else 0 }
  function PaidOutTotal(): Withdrawal -> int { (w: Withdrawal) => if w.status == WithdrawalStatus.Completed then w.amount else 0 }

  /** The balances a user should have, from the statuses of supports and withdrawals. */
  function Expected(user: nat, supports: seq<Support>, withdrawals: seq<Withdrawal>): Balances {
    Balances(Sum(supports, SettledOf(user)) - Sum(withdrawals, DrawnOf(user)),
             Sum(supports, PendingOf(user)),
             Sum(withdrawals, LockedOf(user)))
  }

  predicate WalletClosed(wallet: Wallet, user: nat, supports: seq<Support>, withdrawals: seq<Withdrawal>) {
    wallet.balances == Expected(user, supports, withdrawals) &&
    wallet.earned == Sum(supports, EarnedOf(user)) &&
    wallet.balances.available >= 0
  }

  predicate Closed(wallets: seq<Wallet>, supports: seq<Support>, withdrawals: seq<Withdrawal>) {
    forall u :: 0 <= u < |wallets| ==> WalletClosed(wallets[u], u, supports, withdrawals)
  }

  // --- how the closed forms react to one changed row -------------------------------------------

  lemma SupportChanges(user: nat, supports: seq<Support>, sid: nat, p: Support)
    requires sid < |supports|
    ensures forall w :: w == PendingOf(user) || w == SettledOf(user) || w == EarnedOf(user) ==>
              Sum(supports[sid := p], w) == Sum(supports, w) - w(supports[sid]) + w(p)
  {
    SumUpdate(supports, sid, p, PendingOf(user));
    SumUpdate(supports, sid, p, SettledOf(user));
    SumUpdate(supports, sid, p, EarnedOf(user));
  }

  lemma WithdrawalChanges(user: nat, withdrawals: seq<Withdrawal>, wid: nat, w: Withdrawal)
    requires wid < |withdrawals|
    ensures forall f :: f == LockedOf(user) || f == DrawnOf(user) ==>
              Sum(withdrawals[wid := w], f) == Sum(withdrawals, f) - f(withdrawals[wid]) + f(w)
  {
    SumUpdate(withdrawals, wid, w, LockedOf(user));
    SumUpdate(withdrawals, wid, w, DrawnOf(user));
  }

  /** A row that nobody's balance looks at yet. */
  lemma SupportAdded(user: nat, supports: seq<Support>, withdrawals: seq<Withdrawal>, p: Support)
    requires !p.Applied() && p.settlement == Held
    ensures Expected(user, supports + [p], withdrawals) == Expected(user, supports, withdrawals)
    ensures Sum(supports + [p], EarnedOf(user)) == Sum(supports, EarnedOf(user))
  {
    SumAppend(supports, p, PendingOf(user));
    SumAppend(supports, p, SettledOf(user));
    SumAppend(supports, p, EarnedOf(user));
  }

  /** A user no row refers to should have nothing. */
  lemma NothingExpected(user: nat, supports: seq<Support>, withdrawals: seq<Withdrawal>)
    requires forall i :: 0 <= i < |supports| ==> supports[i].creator != user
    requires forall i :: 0 <= i < |withdrawals| ==> withdrawals[i].user != user
    ensures Expected(user, supports, withdrawals) == ZERO
    ensures Sum(supports, EarnedOf(user)) == 0
  {
    var none := (p: Support) => 0;
    SumSame(supports, PendingOf(user), none);
    SumSame(supports, SettledOf(user), none);
    SumSame(supports, EarnedOf(user), none);
    SumOfZero(supports, none);
    var nothing := (w: Withdrawal) => 0;
    SumSame(withdrawals, LockedOf(user), nothing);
    SumSame(withdrawals, DrawnOf(user), nothing);
    SumOfZero(withdrawals, nothing);
  }

  /** The row change behind a movement. */
  predicate Carries(m: Move, s: seq<Support>, w: seq<Withdrawal>, s': seq<Support>, w': seq<Withdrawal>) {
    match m
    case Capture(sid) =>
      w' == w && sid < |s| && |s'| == |s| && s' == s[sid := s'[sid]] && SameOrder(s[sid], s'[sid]) &&
      !s[sid].Applied() && s[sid].settlement == Held && s'[sid].Applied() && s'[sid].settlement == Held
    case Settlement(sid) =>
      w' == w && sid < |s| && s' == s[sid := s[sid].(settlement := Available)] &&
      s[sid].Applied() && s[sid].settlement == Held
    case Reserve(wid) =>
      s' == s && wid == |w| && |w'| == |w| + 1 && w' == w + [w'[wid]] && w'[wid].status == WithdrawalStatus.Pending
    case Payout(wid) =>
      s' == s && wid < |w| && |w'| == |w| && w' == w[wid := w'[wid]] && SameTerms(w[wid], w'[wid]) &&
      w[wid].status == Processing && w'[wid].status == WithdrawalStatus.Completed
    case Release(wid) =>
      s' == s && wid < |w| && |w'| == |w| && w' == w[wid := w'[wid]] && SameTerms(w[wid], w'[wid]) &&
      w[wid].status == Processing && w'[wid].status == Rejected
  }

  /** The columns of a support that no code ever writes after the insert. */
  predicate SameOrder(p: Support, q: Support) {
    p.creator == q.creator && p.gross == q.gross && p.fee == q.fee && p.net == q.net &&
    p.supporter == q.supporter && p.reward == q.reward && p.vote == q.vote &&
    p.campaign == q.campaign && p.link == q.link
  }

  predicate SameTerms(w: Withdrawal, v: Withdrawal) {
    w.user == v.user && w.amount == v.amount && w.key == v.key &&
    w.channel == v.channel && w.account == v.account && w.note == v.note
  }

  /** The status change behind a movement moves the closed forms exactly as the movement moves the
      balance columns: this is what ties the guarded status updates to the balance updates. */
  lemma ExpectedFollows(m: Move, s: seq<Support>, w: seq<Withdrawal>, s': seq<Support>, w': seq<Withdrawal>, user: nat)
    requires Carries(m, s, w, s', w')
    ensures Known(m, s', w')
    ensures Expected(user, s', w')
         == if user == Owner(m, s', w') then Moved(m, Expected(user, s, w), Amount(m, s', w')) else Expected(user, s, w)
    ensures Sum(s', EarnedOf(user))
         == Sum(s, EarnedOf(user)) + if user == Owner(m, s', w') && m.Capture? then Amount(m, s', w') else 0
  {
    hide Sum;
    match m
    case Capture(sid) => SupportChanges(user, s, sid, s'[sid]);
    case Settlement(sid) => SupportChanges(user, s, sid, s'[sid]);
    case Reserve(wid) =>
      SumAppend(w, w'[wid], LockedOf(user));
      SumAppend(w, w'[wid], DrawnOf(user));
    case Payout(wid) => WithdrawalChanges(user, w, wid, w'[wid]);
    case Release(wid) => WithdrawalChanges(user, w, wid, w'[wid]);
  }

  /** The control accounts follow the status change behind a movement, too. */
  lemma ControlsFollow(m: Move, s: seq<Support>, w: seq<Withdrawal>, s': seq<Support>, w': seq<Withdrawal>)
    requires Carries(m, s, w, s', w')
    ensures Known(m, s', w')
    ensures Sum(s', GrossCaptured()) == Sum(s, GrossCaptured()) - Sum(EntriesOf(m, s', w'), OfAccount(ProcessorClearing))
    ensures Sum(s', FeesCharged()) == Sum(s, FeesCharged()) + Sum(EntriesOf(m, s', w'), OfAccount(PlatformRevenue))
    ensures Sum(w', PaidOutTotal()) == Sum(w, PaidOutTotal()) + Sum(EntriesOf(m, s', w'), OfAccount(WithdrawalClearing))
  {
    hide Sum;
    EntriesSum(m, s', w', OfAccount(ProcessorClearing));
    EntriesSum(m, s', w', OfAccount(PlatformRevenue));
    EntriesSum(m, s', w', OfAccount(WithdrawalClearing));
    match m
    case Capture(sid) =>
      SumUpdate(s, sid, s'[sid], GrossCaptured());
      SumUpdate(s, sid, s'[sid], FeesCharged());
    case Settlement(sid) =>
      SumUpdate(s, sid, s'[sid], GrossCaptured());
      SumUpdate(s, sid, s'[sid], FeesCharged());
    case Reserve(wid) => SumAppend(w, w'[wid], PaidOutTotal());
    case Payout(wid) => SumUpdate(w, wid, w'[wid], PaidOutTotal());
    case Release(wid) => SumUpdate(w, wid, w'[wid], PaidOutTotal());
  }
}
