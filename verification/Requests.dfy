/** Withdrawal requests: exactly when one is accepted, what is stored, and that repeating an accepted request
    returns the same withdrawal for good. */
module Requests {
  import opened Tables
  import opened Postings
  import opened ClosedForms
  import opened Invariants
  import opened Engine
  import opened Steps
  import opened Texts
  import Safety
  import Withdrawals
  import Payments

  /** The request carries a key that counts; an empty one does not. */
  predicate HasKey(q: Request) { q.key.Some? && q.key.value != "" }

  /** The withdrawal belongs to this user and key. */
  predicate Answers(w: Withdrawal, q: Request) { HasKey(q) && w.user == q.user && w.key == q.key }

  /** The withdrawal is what the request asks for. */
  predicate Matches(w: Withdrawal, q: Request) {
    NormalizeAmount(q.amount) == Ok(w.amount) && w.channel == q.channel && w.account == q.account && w.note == Normalized(q.note)
  }

  /** The amount is below a hundred birr. What is not a number is not below anything. */
  predicate TooSmall(amount: Number) { amount == Infinite(false) || (amount.Finite? && amount.value < 100.0) }

  /** User, account and amount are in order. */
  predicate Eligible(s: State, q: Request) {
    !TooSmall(q.amount) && q.user < |s.wallets| && q.verified && q.accountActive && NormalizeAmount(q.amount).Ok?
  }

  predicate Bound(s: State, q: Request) { exists i :: 0 <= i < |s.withdrawals| && Answers(s.withdrawals[i], q) }

  predicate BoundToThis(s: State, q: Request) {
    exists i :: 0 <= i < |s.withdrawals| && Answers(s.withdrawals[i], q) && Matches(s.withdrawals[i], q)
  }

  predicate BoundElsewhere(s: State, q: Request) {
    exists i :: 0 <= i < |s.withdrawals| && Answers(s.withdrawals[i], q) && !Matches(s.withdrawals[i], q)
  }

  predicate Affordable(s: State, q: Request)
    requires Eligible(s, q)
  {
    s.wallets[q.user].active && s.wallets[q.user].balances.available >= NormalizeAmount(q.amount).value
  }

  lemma UsableIs(q: Request)
    ensures UsableKey(q.key) == if HasKey(q) then q.key else None
  {
  }

  /** A request is accepted iff it is eligible and either its key belongs to a withdrawal that is the same
      request, or its key is new and the wallet can afford it. Each error has exactly its own cause. */
  lemma AcceptedIff(s: State, q: Request)
    requires Inv(s)
    ensures var r := RequestWithdrawal(s, q);
      (r == Err(BelowMinimum) <==> TooSmall(q.amount)) &&
      (r == Err(UserNotFound) <==> !TooSmall(q.amount) && q.user >= |s.wallets|) &&
      (r == Err(NotVerified) <==> !TooSmall(q.amount) && q.user < |s.wallets| && !q.verified) &&
      (r == Err(AccountNotFound) <==> !TooSmall(q.amount) && q.user < |s.wallets| && q.verified && !q.accountActive) &&
      (r == Err(BadAmount) <==>
        !TooSmall(q.amount) && q.user < |s.wallets| && q.verified && q.accountActive && NormalizeAmount(q.amount).Err?) &&
      (r == Err(KeyBoundElsewhere) <==> Eligible(s, q) && BoundElsewhere(s, q)) &&
      (r == Err(InsufficientAvailable) <==> Eligible(s, q) && !Bound(s, q) && !Affordable(s, q)) &&
      (r.Ok? <==> Eligible(s, q) && (BoundToThis(s, q) || (!Bound(s, q) && Affordable(s, q))))
  {
    hide Inv, Post, NewWithdrawal, Normalized;
    KeyIsUnique(s, q);
    UsableIs(q);
  }

  lemma KeyIsUnique(s: State, q: Request)
    requires Inv(s)
    ensures forall i, j :: 0 <= i < j < |s.withdrawals| ==> !Answers(s.withdrawals[i], q) || !Answers(s.withdrawals[j], q)
  {
    hide RowsOk, Closed, BooksMirror, BooksAgree, ControlsAgree, EarningsMirror, Audited, RewardsCounted,
         VotesCounted, EventsMirror, TalliesExact, CallsOk;
  }

  // --- what is stored ------------------------------------------------------------------------------

  /** The row of a new withdrawal: every column as requested, pending, without any timestamp. */
  predicate Stored(w: Withdrawal, q: Request) {
    w.user == q.user && Matches(w, q) && w.key == (if HasKey(q) then q.key else None) &&
    w.status == WithdrawalStatus.Pending && w.processingStartedAt.None? && w.approvedAt.None? && w.rejectedAt.None? && w.processedAt.None?
  }

  /** The amount goes from the available to the locked balance, in the wallet and in the books. */
  predicate Reserved(s: State, t: State, wid: nat, w: Withdrawal)
    requires w.user < |s.wallets|
  {
    var had := s.wallets[w.user];
    var b := Balances(had.balances.available - w.amount, had.balances.pending, had.balances.locked + w.amount);
    t.wallets == s.wallets[w.user := Wallet(b, had.earned, had.active)] &&
    t.ledger == s.ledger + [LedgerRow(Reserve(wid), w.user, w.amount, b)] &&
    t.batches == s.batches + [Batch(Reserve(wid),
      [ Entry(Some(w.user), CreatorAvailable, Debit, w.amount), Entry(Some(w.user), CreatorLocked, Credit, w.amount) ])]
  }

  /** An accepted request whose key is new adds exactly one withdrawal, the requested one, and locks its
      amount; one whose key is bound returns the bound withdrawal and changes nothing. */
  lemma RequestWrites(s: State, q: Request)
    requires Inv(s) && RequestWithdrawal(s, q).Ok?
    ensures var (t, wid) := RequestWithdrawal(s, q).value;
      Next(s, Ask(q)) == t && wid < |t.withdrawals| &&
      if Bound(s, q) then t == s && Answers(s.withdrawals[wid], q) && Matches(s.withdrawals[wid], q)
      else
        wid == |s.withdrawals| && |t.withdrawals| == wid + 1 && t.withdrawals == s.withdrawals + [t.withdrawals[wid]] &&
        Stored(t.withdrawals[wid], q) && q.user < |s.wallets| && Reserved(s, t, wid, t.withdrawals[wid]) &&
        t == s.(withdrawals := t.withdrawals, wallets := t.wallets, ledger := t.ledger, batches := t.batches)
  {
    hide Inv, Normalized, NormalizeAmount;
    AcceptedIff(s, q);
    UsableIs(q);
  }

  // --- repeating a request -------------------------------------------------------------------------

  /** After an accepted request with a key, whatever happens next and however often, the same request is
      accepted again, returns the same withdrawal, and changes nothing. */
  lemma RepeatReturnsTheSame(s: State, q: Request, run: seq<Step>)
    requires Inv(s) && HasKey(q) && RequestWithdrawal(s, q).Ok?
    ensures var (t, wid) := RequestWithdrawal(s, q).value;
      RequestWithdrawal(After(t, run), q) == Ok((After(t, run), wid))
  {
    hide Inv, Next, After, RequestWithdrawal, Eligible, NormalizeAmount, Normalized;
    var (t, wid) := RequestWithdrawal(s, q).value;
    RequestWrites(s, q);
    AcceptedIff(s, q);
    Safety.StepKeeps(s, Ask(q));
    var u := After(t, run);
    Safety.RunKeeps(t, run);
    TermsStay(t, run, wid);
    Payments.RunGrows(t, run);
    StillEligible(s, u, q);
    StillMatches(t.withdrawals[wid], u.withdrawals[wid], q);
    assert Answers(u.withdrawals[wid], q) && Matches(u.withdrawals[wid], q) && BoundToThis(u, q) && Bound(u, q);
    AcceptedIff(u, q);
    RequestWrites(u, q);
    KeyIsUnique(u, q);
    var (same, again) := RequestWithdrawal(u, q).value;
    assert RequestWithdrawal(u, q) == Ok((same, again));
    assert Answers(u.withdrawals[again], q) && again == wid;
  }

  lemma StillEligible(s: State, u: State, q: Request)
    requires Eligible(s, q) && |s.wallets| <= |u.wallets|
    ensures Eligible(u, q)
  {
  }

  lemma StillMatches(w: Withdrawal, v: Withdrawal, q: Request)
    requires SameTerms(w, v)
    ensures Answers(w, q) ==> Answers(v, q)
    ensures Matches(w, q) ==> Matches(v, q)
  {
  }

  lemma {:induction false} TermsStay(s: State, run: seq<Step>, wid: nat)
    requires Inv(s) && wid < |s.withdrawals|
    ensures wid < |After(s, run).withdrawals| && SameTerms(s.withdrawals[wid], After(s, run).withdrawals[wid])
  {
    hide Inv, Next;
    if |run| > 0 {
      var n := |run| - 1;
      TermsStay(s, run[..n], wid);
      Safety.RunKeeps(s, run[..n]);
      Withdrawals.StepProgresses(After(s, run[..n]), run[n]);
      assert Withdrawals.Progresses(After(s, run[..n]).withdrawals[wid], After(s, run).withdrawals[wid]);
    }
  }
}
