/** The rows of the database tables that the money engine reads and writes.
    A table is a sequence of rows in insertion order; no row is ever deleted, so the position of a
    row serves as its unique id. Money is counted in integer cents. */
module Tables {

  datatype Option<T> = None | Some(value: T)

  datatype Error =
    | UserNotFound | WalletNotFound | ActorNotFound | WithdrawalNotFound | SupportNotFound
    | AccountNotFound | NotVerified | BelowMinimum | BadAmount | NothingSelected
    | InsufficientAvailable | SettlementInconsistent | LockedInsufficient | BalanceViolated
    | Unbalanced | UniqueViolation | KeyBoundElsewhere
    | AlreadyInState | InvalidTransition | AlreadyFinal | OnlyPending | OnlyProcessing
    | CheckerMissing | SameActor | NotMoved
    | SupporterRequired | RewardUnavailable | VoteRecorded | DetailsMismatch | ProviderDown
    | CreatorNotFound | RewardNotFound | CampaignNotFound | LinkNotFound | OptionNotFound
    | RewardWithVote | PollNotFound | PollIncomplete | SignInRequired | SoldOut | AlreadyUnlocked | MessageRequired
    | SerializationFailure | RetryLimit

  /** The source's exceptions, as values. `PropagateFailure` is total, so that passing on an error that
      is proved never to occur needs no proof of its own. */
  datatype Result<+T> = Ok(value: T) | Err(error: Error) {
    predicate IsFailure() { Err? }
    function PropagateFailure<U>(): Result<U> { if Err? then Err(error) else Err(RetryLimit) }
    function Extract(): T requires Ok? { value }
  }

  // --- wallets -----------------------------------------------------------------------------

  datatype Balances = Balances(available: int, pending: int, locked: int)

  /** One wallet per user, created with the user, all balances zero. */
  datatype Wallet = Wallet(balances: Balances, earned: int, active: bool)

  const ZERO := Balances(0, 0, 0)
  const NEW_WALLET := Wallet(ZERO, 0, true)

  // --- supports ----------------------------------------------------------------------------

  datatype PaymentStatus = Pending | Completed | Failed | Refunded
  /** `Held` and `Returned` are the settlement statuses PENDING and REFUNDED. */
  datatype SettlementStatus = Held | Available | Reserved | PaidOut | Returned

  /** A support row joined with its payment intent (`intent` is the intent's status).
      A support owns one payment attempt, so its id also stands for the provider reference. */
  datatype Support = Support(
    creator: nat, gross: int, fee: int, net: int,
    supporter: Option<nat>, reward: Option<nat>, vote: Option<nat>,
    campaign: Option<nat>, link: Option<nat>,
    status: PaymentStatus, intent: PaymentStatus, settlement: SettlementStatus,
    availableAt: Option<int>, appliedAt: Option<int>, credited: bool)
  {
    predicate Applied() { appliedAt.Some? }
  }

  // --- withdrawals -------------------------------------------------------------------------

  datatype WithdrawalStatus = Pending | Processing | Completed | Rejected

  datatype Withdrawal = Withdrawal(
    user: nat, amount: int, channel: nat, account: nat, note: Option<string>, key: Option<string>,
    status: WithdrawalStatus,
    processingStartedAt: Option<int>, approvedAt: Option<int>, rejectedAt: Option<int>,
    processedAt: Option<int>)

  datatype Audit = Audit(wid: nat, actor: nat, before: WithdrawalStatus, after: WithdrawalStatus, at: int)

  // --- money movements ---------------------------------------------------------------------

  /** What moves money. A movement names a posting batch (its idempotency key) and a wallet
      transaction (its unique pair of entity and reason) at once. */
  datatype Move =
    | Capture(sid: nat) | Settlement(sid: nat)
    | Reserve(wid: nat) | Payout(wid: nat) | Release(wid: nat)

  datatype Account =
    | ProcessorClearing | CreatorPending | CreatorAvailable | CreatorLocked
    | PlatformRevenue | WithdrawalClearing
  datatype Side = Debit | Credit
  datatype Entry = Entry(wallet: Option<nat>, account: Account, side: Side, amount: int)
  datatype Batch = Batch(key: Move, entries: seq<Entry>)

  /** A wallet transaction: the amount moved and the balances right after it. */
  datatype LedgerRow = LedgerRow(key: Move, user: nat, amount: int, after: Balances)

  // --- perks, outbox, calls ----------------------------------------------------------------

  datatype Reward = Reward(limit: Option<nat>, claimed: int, active: bool)
  datatype Unlock = Unlock(user: nat, reward: nat, sid: nat)
  datatype Vote = Vote(option: nat, user: nat, sid: nat)
  datatype Tally = Tally(revenue: int, conversions: int)

  datatype EventKind = Projection | Telegram
  /** An outbox row. `deliveries` counts the notifications Telegram accepted for it; the source
      has no such column, it is the history that delivery claims are about. */
  datatype Event = Event(
    sid: nat, kind: EventKind, startedAt: Option<int>, processedAt: Option<int>, deliveries: nat)
  /** One run of the outbox processor: its stale bound, what is left of the batch it has read, if it has
      read one, and the event it has claimed, if any. */
  datatype Worker = Worker(staleBefore: int, todo: Option<seq<nat>>, holding: Option<Hold>)
  datatype Hold = Hold(event: nat, since: int, stage: Stage)
  /** How far a worker is with a Telegram event: claimed, re-read, or answered but not yet recorded. */
  datatype Stage = Fresh | Inspected | Sent(accepted: bool)
  datatype Outbox = Outbox(clock: int, events: seq<Event>, workers: seq<Worker>)

  datatype Origin = Webhook | Verify
  datatype Reply = Confirmed | AlreadyDone | Declined | Raised(error: Error)
  datatype Phase = Started | Holding(snapshot: Support) | Finished(reply: Reply)
  /** A webhook or verify request in flight. `snapshot` is the support row as this call read it. */
  datatype Call = Call(origin: Origin, sid: nat, phase: Phase)

  datatype State = State(
    wallets: seq<Wallet>, supports: seq<Support>, withdrawals: seq<Withdrawal>,
    audits: seq<Audit>, ledger: seq<LedgerRow>, batches: seq<Batch>, earnings: map<nat, int>,
    rewards: seq<Reward>, unlocks: seq<Unlock>, options: seq<int>, votes: seq<Vote>,
    campaigns: seq<Tally>, links: seq<Tally>, outbox: Outbox,
    webhooks: map<nat, bool>, calls: seq<Call>)

  const EMPTY := State([], [], [], [], [], [], map[], [], [], [], [], [], [], Outbox(0, [], []), map[], [])
}
