/** One support from the order to the payout, from the empty database. */
module FullCycle {
  import opened Tables
  import opened Invariants
  import opened Engine
  import opened Steps
  import opened Confirmations
  import Orders
  import Refusals
  import Requests
  import Safety
  import StatusChanges
  import WithdrawalProofs

  const GIFT := Draft(0, 20000, false, None, None, None, None, None)
  const WANTED := Request(0, Finite(150.0, 15000.0), 1, 7, None, Some("k"), true, true)
  const DUE := 5 + 7 * 86400000

  /** The creator is user 0, the two admins are users 1 and 2. */
  function PayoutRun(): seq<Step> {
    [ Register, Register, Register, StartSupport(GIFT), OpenCall(Verify, 0), LoadCall(0), ResolveCall(0, Success, 5, 7),
      SettleOne(0, DUE), Ask(WANTED) ] + StatusChanges.TwoPeopleRun(1, 2, 0, WithdrawalStatus.Completed, DUE + 1, DUE + 2)
  }

  const THREE := EMPTY.(wallets := [NEW_WALLET, NEW_WALLET, NEW_WALLET])

  lemma Registered()
    ensures After(EMPTY, PayoutRun()[..3]) == THREE
  {
    hide Next;
    var r := PayoutRun();
    AfterTakes(EMPTY, r, 1);
    AfterTakes(EMPTY, r, 2);
    AfterTakes(EMPTY, r, 3);
    Registers();
  }

  lemma Registers()
    ensures Next(Next(Next(EMPTY, Register), Register), Register) == THREE
  {
    assert Next(EMPTY, Register) == EMPTY.(wallets := [NEW_WALLET]);
    assert Next(EMPTY.(wallets := [NEW_WALLET]), Register) == EMPTY.(wallets := [NEW_WALLET, NEW_WALLET]);
  }

  /** A pending support over two hundred birr, which a verify call has read. */
  ghost predicate Asked(s: State) {
    Inv(s) && s.wallets == THREE.wallets && s.withdrawals == [] && |s.supports| == 1 && |s.calls| == 1 &&
    s.supports[0].creator == 0 && s.supports[0].net == 19000 && s.supports[0].reward.None? && s.supports[0].appliedAt.None? &&
    StillPending(s.supports[0]) && s.calls[0] == Call(Verify, 0, Holding(s.supports[0]))
  }

  lemma AskedFor()
    ensures Asked(After(EMPTY, PayoutRun()[..6]))
  {
    hide Next, Inv;
    var r := PayoutRun();
    Registered();
    AfterTakes(EMPTY, r, 4);
    AfterTakes(EMPTY, r, 5);
    AfterTakes(EMPTY, r, 6);
    Orders.OrderIsStored(THREE, GIFT);
    var s := After(EMPTY, r[..4]);
    Refusals.Opens(s, 0);
    Safety.ReachableIsSafe(r[..6]);
  }

  /** The net amount is in the first wallet, pending until the hold is over. */
  ghost predicate Credited(s: State) {
    Inv(s) && s.wallets == THREE.wallets[0 := Wallet(Balances(0, 19000, 0), 19000, true)] && s.withdrawals == [] &&
    |s.supports| == 1 && s.supports[0].creator == 0 && s.supports[0].net == 19000 && s.supports[0].settlement == Held &&
    s.supports[0].status == PaymentStatus.Completed && s.supports[0].credited && s.supports[0].availableAt == Some(DUE)
  }

  lemma CreditedThen(s: State)
    requires Asked(s)
    ensures Credited(Next(s, ResolveCall(0, Success, 5, 7)))
  {
    hide Next, Inv, PerksGiven, EventsQueued;
    var step := ResolveCall(0, Success, 5, 7);
    SuccessReply(s, 0, 0, 5, 7);
    assert Confirms(s, step, 0);
    ConfirmationWrites(s, step, 0);
    Safety.StepKeeps(s, step);
  }

  lemma ReleasedThen(s: State)
    requires Credited(s)
    ensures var t := Next(s, SettleOne(0, DUE));
      Inv(t) && t.wallets == THREE.wallets[0 := Wallet(Balances(19000, 0, 0), 19000, true)] && t.withdrawals == []
  {
    hide Next, Inv;
    SettlementWrites(s, 0, DUE);
    Safety.StepKeeps(s, SettleOne(0, DUE));
  }

  lemma ReservedThen(s: State)
    requires Inv(s) && s.wallets == THREE.wallets[0 := Wallet(Balances(19000, 0, 0), 19000, true)] && s.withdrawals == []
    ensures var t := Next(s, Ask(WANTED));
      Inv(t) && t.wallets == THREE.wallets[0 := Wallet(Balances(4000, 0, 15000), 19000, true)] &&
      |t.withdrawals| == 1 && t.withdrawals[0].status == WithdrawalStatus.Pending && t.withdrawals[0].user == 0 &&
      t.withdrawals[0].amount == 15000 && t.withdrawals[0].channel == 1 && t.withdrawals[0].account == 7
  {
    hide Next, Inv, NormalizeAmount;
    WithdrawalProofs.NormalizeIsExact(WANTED.amount, 15000);
    Requests.AcceptedIff(s, WANTED);
    Requests.RequestWrites(s, WANTED);
    Safety.StepKeeps(s, Ask(WANTED));
  }

  /** Two hundred birr are given, five per cent of it are the platform's, a hundred and fifty are paid out, and
      the rest stays available. */
  lemma PayoutIsReachable()
    ensures var t := After(EMPTY, PayoutRun());
      |t.withdrawals| == 1 && t.withdrawals[0].status == WithdrawalStatus.Completed && t.withdrawals[0].amount == 15000 &&
      |t.wallets| == 3 && t.wallets[0].balances == Balances(4000, 0, 0)
  {
    hide Next, Inv;
    var r := PayoutRun();
    AskedFor();
    CreditedThen(After(EMPTY, r[..6]));
    AfterTakes(EMPTY, r, 7);
    ReleasedThen(After(EMPTY, r[..7]));
    AfterTakes(EMPTY, r, 8);
    ReservedThen(After(EMPTY, r[..8]));
    AfterTakes(EMPTY, r, 9);
    var s := After(EMPTY, r[..9]);
    var rest := StatusChanges.TwoPeopleRun(1, 2, 0, WithdrawalStatus.Completed, DUE + 1, DUE + 2);
    assert r == r[..9] + rest;
    AfterConcat(EMPTY, r[..9], rest);
    StatusChanges.CanBeFinalized(s, 1, 2, 0, WithdrawalStatus.Completed, DUE + 1, DUE + 2);
    Requests.TermsStay(s, rest, 0);
  }
}
