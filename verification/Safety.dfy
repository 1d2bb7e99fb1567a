/** Every reachable state satisfies the invariant, whatever the interleaving. */
module Safety {
  import opened Tables
  import opened ClosedForms
  import opened Invariants
  import opened Steps
  import EnvironmentProofs
  import Surroundings
  import PaymentProofs
  import WithdrawalProofs
  import OutboxProofs

  lemma EmptyIsSafe()
    ensures Inv(EMPTY)
  {
    hide BooksMirror, BooksAgree, ControlsAgree, Audited, RewardsCounted, VotesCounted, EventsMirror, TalliesExact, CallsOk;
    EmptyBooks();
    EmptyRest();
  }

  lemma EmptyBooks()
    ensures BooksMirror([], [], [], []) && BooksAgree([], [], []) && ControlsAgree([], [], [])
  {
  }

  lemma EmptyRest()
    ensures Audited([], []) && RewardsCounted([], [], []) && VotesCounted([], [], [])
    ensures EventsMirror([], []) && TalliesExact([], [], [], []) && CallsOk([], map[], [])
  {
  }

  lemma StepKeeps(s: State, step: Step)
    requires Inv(s)
    ensures Inv(Next(s, step))
  {
    hide RowsOk, KeysBoundOnce, Closed, BooksMirror, BooksAgree, ControlsAgree, EarningsMirror, Audited,
         RewardsCounted, VotesCounted, EventsMirror, TalliesExact, CallsOk;
    if Enabled(s, step) {
      match step
      case Register => EnvironmentProofs.RegisterKeeps(s);
      case ToggleWallet(u, active) => EnvironmentProofs.ToggleWalletKeeps(s, u, active);
      case AddReward(limit) => EnvironmentProofs.AddRewardKeeps(s, limit);
      case ToggleReward(r, active) => EnvironmentProofs.ToggleRewardKeeps(s, r, active);
      case AddOption => EnvironmentProofs.AddOptionKeeps(s);
      case AddCampaign => EnvironmentProofs.AddCampaignKeeps(s);
      case AddLink => EnvironmentProofs.AddLinkKeeps(s);
      case StartSupport(draft) => EnvironmentProofs.StartSupportKeeps(s, draft);
      case OpenCall(origin, ref) => PaymentProofs.OpenKeeps(s, origin, ref);
      case LoadCall(c) => PaymentProofs.LoadKeeps(s, c);
      case ResolveCall(c, verdict, paidAt, holdDays) => PaymentProofs.ResolveKeeps(s, c, verdict, paidAt, holdDays);
      case CloseCall(c) => PaymentProofs.CloseKeeps(s, c);
      case SettleOne(sid, now) => SettleStepKeeps(s, sid, now);
      case Ask(request) => WithdrawalProofs.RequestKeeps(s, request);
      case SetStatus(actor, wid, target, at) => WithdrawalProofs.UpdateKeeps(s, actor, wid, target, at);
      case Outboxing(work) => OutboxProofs.WorkKeeps(s, work);
    }
  }

  lemma SettleStepKeeps(s: State, sid: nat, now: int)
    requires Inv(s) && Enabled(s, SettleOne(sid, now))
    ensures Inv(Next(s, SettleOne(sid, now)))
  {
    hide RowsOk, KeysBoundOnce, Closed, BooksMirror, BooksAgree, ControlsAgree, EarningsMirror, Audited,
         RewardsCounted, VotesCounted, EventsMirror, TalliesExact, CallsOk;
    PaymentProofs.SettleKeeps(s, sid, now);
    var t := Next(s, SettleOne(sid, now));
    if t != s {
      Surroundings.CallsStay(s.calls, s.webhooks, s.supports, t.supports);
    }
  }

  lemma {:induction false} RunKeeps(s: State, run: seq<Step>)
    requires Inv(s)
    ensures Inv(After(s, run))
  {
    hide Inv, Next;
    if |run| > 0 {
      RunKeeps(s, run[..|run| - 1]);
      StepKeeps(After(s, run[..|run| - 1]), run[|run| - 1]);
    }
  }

  /** Safety over every run: every interleaving of payments with stale snapshots, settlements,
      withdrawals, outbox work and environment steps, from the empty database. */
  lemma ReachableIsSafe(run: seq<Step>)
    ensures Inv(After(EMPTY, run))
  {
    EmptyIsSafe();
    RunKeeps(EMPTY, run);
  }
}
