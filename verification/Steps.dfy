/** The whole system as a state machine: every transaction of the engine, every read that a call
    makes before its transaction, and the environment, in any order. */
module Steps {
  import opened Tables
  import opened Engine

  datatype Step =
    // environment
    | Register | ToggleWallet(user: nat, active: bool)
    | AddReward(limit: Option<nat>) | ToggleReward(reward: nat, active: bool)
    | AddOption | AddCampaign | AddLink
    // supports
    | StartSupport(draft: Draft)
    | OpenCall(origin: Origin, ref: nat) | LoadCall(call: nat)
    | ResolveCall(call: nat, verdict: Verdict, paidAt: int, holdDays: nat) | CloseCall(call: nat)
    | SettleOne(sid: nat, now: int)
    // withdrawals
    | Ask(request: Request)
    | SetStatus(actor: nat, wid: nat, target: WithdrawalStatus, at: int)
    // outbox
    | Outboxing(work: WorkStep)

  /** The rows a step names exist and are in the phase it continues. */
  predicate Enabled(s: State, step: Step) {
    match step
    case ToggleWallet(u, _) => u < |s.wallets|
    case ToggleReward(r, _) => r < |s.rewards|
    case StartSupport(draft) => Placeable(s, draft)
    case LoadCall(c) => c < |s.calls| && s.calls[c].phase.Started?
    case ResolveCall(c, _, _, _) =>
      c < |s.calls| && s.calls[c].phase.Holding? &&
      s.calls[c].sid < |s.supports| && s.supports[s.calls[c].sid].creator < |s.wallets|
    case CloseCall(c) => c < |s.calls| && s.calls[c].phase.Finished? && s.calls[c].origin.Webhook?
    case SettleOne(sid, _) => sid < |s.supports| && s.supports[sid].creator < |s.wallets|
    case SetStatus(_, _, target, _) =>
      target != WithdrawalStatus.Pending && Linked(s)
    case Outboxing(work) => CanWork(s.outbox, work)
    case _ => true
  }

  /** A step that cannot be taken leaves the state alone, and so does a transaction that throws. */
  function Next(s: State, step: Step): State {
    if !Enabled(s, step) then s else
    match step
    case Register => s.(wallets := s.wallets + [NEW_WALLET])
    case ToggleWallet(u, active) => s.(wallets := s.wallets[u := s.wallets[u].(active := active)])
    case AddReward(limit) => s.(rewards := s.rewards + [Reward(limit, 0, true)])
    case ToggleReward(r, active) => s.(rewards := s.rewards[r := s.rewards[r].(active := active)])
    case AddOption => s.(options := s.options + [0])
    case AddCampaign => s.(campaigns := s.campaigns + [Tally(0, 0)])
    case AddLink => s.(links := s.links + [Tally(0, 0)])
    case StartSupport(draft) => Initiate(s, draft)
    case OpenCall(origin, ref) => Open(s, origin, ref).0
    case LoadCall(c) => Load(s, c)
    case ResolveCall(c, verdict, paidAt, holdDays) => Resolve(s, c, verdict, paidAt, holdDays)
    case CloseCall(c) => CloseWebhook(s, c)
    case SettleOne(sid, now) => var r := Settle(s, sid, now); if r.Ok? then r.value.0 else s
    case Ask(request) => var r := RequestWithdrawal(s, request); if r.Ok? then r.value.0 else s
    case SetStatus(actor, wid, target, at) => var r := UpdateStatus(s, actor, wid, target, at); if r.Ok? then r.value else s
    case Outboxing(work) => WorkOn(s, work)
  }

  /** The state after a run, starting from `s`. */
  function After(s: State, run: seq<Step>): State {
    if |run| == 0 then s else Next(After(s, run[..|run| - 1]), run[|run| - 1])
  }

  lemma NotEnabled(s: State, step: Step)
    requires !Enabled(s, step)
    ensures Next(s, step) == s
  {
  }

  lemma AfterTakes(s: State, run: seq<Step>, n: nat)
    requires 0 < n <= |run|
    ensures After(s, run[..n]) == Next(After(s, run[..n - 1]), run[n - 1])
  {
    assert run[..n][..n - 1] == run[..n - 1];
  }

  lemma {:induction false} AfterConcat(s: State, run: seq<Step>, more: seq<Step>)
    ensures After(s, run + more) == After(After(s, run), more)
  {
    hide Next;
    if |more| == 0 {
      assert run + more == run;
    } else {
      var n := |more| - 1;
      AfterConcat(s, run, more[..n]);
      assert (run + more)[..|run| + n] == run + more[..n];
    }
  }

  lemma AfterOne(s: State, step: Step)
    ensures After(s, [step]) == Next(s, step)
  {
    hide Next;
    assert [step][..0] == [];
  }
}
