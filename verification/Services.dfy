/** The services as they are written: tables updated in place, step by step, with every check and
    every error of the source. A transaction that fails restores the tables. Each transaction is proved
    to do exactly what the engine's step says, in every state that satisfies the invariant. */
module Services {
  import opened Tables
  import opened Sums
  import opened Postings
  import opened ClosedForms
  import opened Invariants
  import opened Engine
  import opened Steps
  import opened Effects
  import OutboxProofs
  import Safety
  import SettlementPass
  import Bulk

  class Store {
    var wallets: seq<Wallet>
    var supports: seq<Support>
    var withdrawals: seq<Withdrawal>
    var audits: seq<Audit>
    var ledger: seq<LedgerRow>
    var batches: seq<Batch>
    var earnings: map<nat, int>
    var rewards: seq<Reward>
    var unlocks: seq<Unlock>
    var options: seq<int>
    var votes: seq<Vote>
    var campaigns: seq<Tally>
    var links: seq<Tally>
    var outbox: Outbox
    var webhooks: map<nat, bool>
    var calls: seq<Call>

    function View(): State
      reads this
    {
      State(wallets, supports, withdrawals, audits, ledger, batches, earnings, rewards, unlocks, options, votes,
            campaigns, links, outbox, webhooks, calls)
    }

    ghost predicate Valid()
      reads this
    {
      Inv(View())
    }

    constructor ()
      ensures Valid() && View() == EMPTY
    {
      wallets, supports, withdrawals, audits, ledger, batches, earnings := [], [], [], [], [], [], map[];
      rewards, unlocks, options, votes, campaigns, links := [], [], [], [], [], [];
      outbox, webhooks, calls := Outbox(0, [], []), map[], [];
      new;
      Safety.EmptyIsSafe();
    }

    /** Rolls a transaction back. */
    method Restore(saved: State)
      modifies this
      ensures View() == saved
    {
      RestoreMoney(saved);
      RestorePerks(saved);
      RestoreRest(saved);
    }

    method RestoreMoney(saved: State)
      modifies this`wallets, this`supports, this`withdrawals, this`audits, this`ledger, this`batches, this`earnings
      ensures wallets == saved.wallets && supports == saved.supports && withdrawals == saved.withdrawals && audits == saved.audits
      ensures ledger == saved.ledger && batches == saved.batches && earnings == saved.earnings
    {
      wallets, supports, withdrawals, audits := saved.wallets, saved.supports, saved.withdrawals, saved.audits;
      ledger, batches, earnings := saved.ledger, saved.batches, saved.earnings;
    }

    method RestorePerks(saved: State)
      modifies this`rewards, this`unlocks, this`options, this`votes
      ensures rewards == saved.rewards && unlocks == saved.unlocks && options == saved.options && votes == saved.votes
    {
      rewards, unlocks, options, votes := saved.rewards, saved.unlocks, saved.options, saved.votes;
    }

    method RestoreRest(saved: State)
      modifies this`campaigns, this`links, this`outbox, this`webhooks, this`calls
      ensures campaigns == saved.campaigns && links == saved.links
      ensures outbox == saved.outbox && webhooks == saved.webhooks && calls == saved.calls
    {
      campaigns, links, outbox, webhooks, calls := saved.campaigns, saved.links, saved.outbox, saved.webhooks, saved.calls;
    }

    // --- balances ------------------------------------------------------------------------------

    method ReserveWithdrawalFunds(user: nat, amount: int) returns (r: Result<Balances>)
      modifies this`wallets
      ensures user >= |old(wallets)| || !old(wallets)[user].active || old(wallets)[user].balances.available < amount ==>
        r == Err(InsufficientAvailable) && wallets == old(wallets)
      ensures user < |old(wallets)| && old(wallets)[user].active && old(wallets)[user].balances.available >= amount ==>
        var w := old(wallets)[user];
        var after := Balances(w.balances.available - amount, w.balances.pending, w.balances.locked + amount);
        wallets == old(wallets)[user := w.(balances := after)] && r == Checked(after)
    {
      if user >= |wallets| || !wallets[user].active || wallets[user].balances.available < amount {
        return Err(InsufficientAvailable);
      }
      var b := wallets[user].balances;
      b := b.(available := b.available - amount, locked := b.locked + amount);
      wallets := wallets[user := wallets[user].(balances := b)];
      return Checked(b);
    }

    method CreditPending(user: nat, amount: int) returns (r: Result<Balances>)
      modifies this`wallets
      ensures user >= |old(wallets)| ==> r == Err(WalletNotFound) && wallets == old(wallets)
      ensures user < |old(wallets)| ==>
        var w := old(wallets)[user];
        var after := Balances(w.balances.available, w.balances.pending + amount, w.balances.locked);
        wallets == old(wallets)[user := w.(balances := after, earned := w.earned + amount)] && r == Checked(after)
    {
      if user >= |wallets| {
        return Err(WalletNotFound);
      }
      var b := wallets[user].balances;
      b := b.(pending := b.pending + amount);
      wallets := wallets[user := wallets[user].(balances := b, earned := wallets[user].earned + amount)];
      return Checked(b);
    }

    method SettlePending(user: nat, amount: int) returns (r: Result<Balances>)
      modifies this`wallets
      ensures user >= |old(wallets)| || !old(wallets)[user].active || old(wallets)[user].balances.pending < amount ==>
        r == Err(SettlementInconsistent) && wallets == old(wallets)
      ensures user < |old(wallets)| && old(wallets)[user].active && old(wallets)[user].balances.pending >= amount ==>
        var w := old(wallets)[user];
        var after := Balances(w.balances.available + amount, w.balances.pending - amount, w.balances.locked);
        wallets == old(wallets)[user := w.(balances := after)] && r == Checked(after)
    {
      if user >= |wallets| || !wallets[user].active || wallets[user].balances.pending < amount {
        return Err(SettlementInconsistent);
      }
      var b := wallets[user].balances;
      b := b.(pending := b.pending - amount, available := b.available + amount);
      wallets := wallets[user := wallets[user].(balances := b)];
      return Checked(b);
    }

    /** Takes the amount out of the locked balance; `back` returns it to the available balance. The
        source has one method for each case, with the same checks. */
    method ReleaseLocked(user: nat, amount: int, back: bool) returns (r: Result<Balances>)
      modifies this`wallets
      ensures user >= |old(wallets)| ==> r == Err(WalletNotFound) && wallets == old(wallets)
      ensures user < |old(wallets)| && !NonNegative(old(wallets)[user].balances) ==> r == Err(BalanceViolated) && wallets == old(wallets)
      ensures user < |old(wallets)| && NonNegative(old(wallets)[user].balances) && old(wallets)[user].balances.locked < amount ==>
        r == Err(LockedInsufficient) && wallets == old(wallets)
      ensures user < |old(wallets)| && NonNegative(old(wallets)[user].balances) && old(wallets)[user].balances.locked >= amount ==>
        var w := old(wallets)[user];
        var after := Balances(w.balances.available + (if back then amount else 0), w.balances.pending, w.balances.locked - amount);
        wallets == old(wallets)[user := w.(balances := after)] && r == Checked(after)
    {
      if user >= |wallets| {
        return Err(WalletNotFound);
      }
      var b := wallets[user].balances;
      if !NonNegative(b) {
        return Err(BalanceViolated);
      }
      if b.locked < amount {
        return Err(LockedInsufficient);
      }
      b := b.(locked := b.locked - amount);
      if back {
        b := b.(available := b.available + amount);
      }
      wallets := wallets[user := wallets[user].(balances := b)];
      return Checked(b);
    }

    // --- ledger and books ----------------------------------------------------------------------

    /** Appends a wallet transaction; a duplicate key is found and silently accepted. */
    method CreateWalletTransaction(row: LedgerRow) returns (r: Result<()>)
      modifies this`ledger
      ensures row.user >= |wallets| ==> r == Err(WalletNotFound) && ledger == old(ledger)
      ensures row.user < |wallets| ==>
        r == Ok(()) && ledger == if row.key in LedgerKeys(old(ledger)) then old(ledger) else old(ledger) + [row]
    {
      if row.user >= |wallets| {
        return Err(WalletNotFound);
      }
      if row.key in LedgerKeys(ledger) {
        return Ok(());
      }
      ledger := ledger + [row];
      return Ok(());
    }

    /** Adds up debits and credits, refuses an unbalanced posting, and appends the batch; a duplicate
        idempotency key is found and silently accepted. */
    method CreatePostingBatch(key: Move, entries: seq<Entry>) returns (r: Result<()>)
      modifies this`batches
      ensures Sum(entries, AnyEntry()) != 0 ==> r == Err(Unbalanced) && batches == old(batches)
      ensures Sum(entries, AnyEntry()) == 0 ==>
        r == Ok(()) && batches == if key in BatchKeys(old(batches)) then old(batches) else old(batches) + [Batch(key, entries)]
    {
      var debits, credits := 0, 0;
      for i := 0 to |entries|
        invariant batches == old(batches)
        invariant credits - debits == Sum(entries[..i], AnyEntry())
      {
        assert entries[..i + 1] == entries[..i] + [entries[i]];
        SumAppend(entries[..i], entries[i], AnyEntry());
        if entries[i].side == Debit {
          debits := debits + entries[i].amount;
        } else {
          credits := credits + entries[i].amount;
        }
      }
      assert entries[..|entries|] == entries;
      if debits != credits {
        return Err(Unbalanced);
      }
      if key in BatchKeys(batches) {
        return Ok(());
      }
      batches := batches + [Batch(key, entries)];
      return Ok(());
    }

    /** The five posting builders: the entries of each movement, posted for an existing wallet. */
    method Record(m: Move, user: nat, gross: int, amount: int, fee: int) returns (r: Result<()>)
      modifies this`batches
      ensures user >= |wallets| ==> r == Err(WalletNotFound) && batches == old(batches)
      ensures user < |wallets| && (m.Capture? ==> gross == amount + fee) ==>
        r == Ok(()) && batches == if m in BatchKeys(old(batches)) then old(batches) else
          old(batches) + [Batch(m,
            match m
            case Capture(_) => CaptureEntries(user, gross, amount, fee)
            case Settlement(_) => TransferEntries(user, CreatorPending, CreatorAvailable, true, amount)
            case Reserve(_) => TransferEntries(user, CreatorAvailable, CreatorLocked, true, amount)
            case Payout(_) => TransferEntries(user, CreatorLocked, WithdrawalClearing, false, amount)
            case Release(_) => TransferEntries(user, CreatorLocked, CreatorAvailable, true, amount))]
      ensures user < |wallets| && m.Capture? && gross != amount + fee ==> r == Err(Unbalanced) && batches == old(batches)
    {
      if user >= |wallets| {
        return Err(WalletNotFound);
      }
      var entries;
      match m {
        case Capture(_) =>
          entries := [ Entry(None, ProcessorClearing, Debit, gross), Entry(Some(user), CreatorPending, Credit, amount),
                       Entry(None, PlatformRevenue, Credit, fee) ];
          SumOfThree(entries[0], entries[1], entries[2], AnyEntry());
        case Settlement(_) =>
          entries := [ Entry(Some(user), CreatorPending, Debit, amount), Entry(Some(user), CreatorAvailable, Credit, amount) ];
        case Reserve(_) =>
          entries := [ Entry(Some(user), CreatorAvailable, Debit, amount), Entry(Some(user), CreatorLocked, Credit, amount) ];
        case Payout(_) =>
          entries := [ Entry(Some(user), CreatorLocked, Debit, amount), Entry(None, WithdrawalClearing, Credit, amount) ];
        case Release(_) =>
          entries := [ Entry(Some(user), CreatorLocked, Debit, amount), Entry(Some(user), CreatorAvailable, Credit, amount) ];
      }
      if |entries| == 2 {
        SumOfTwo(entries[0], entries[1], AnyEntry());
        assert entries == [entries[0], entries[1]];
      }
      r := CreatePostingBatch(m, entries);
    }

    /** The wallet transaction and the posting of a movement inside a wallet. */
    method Book(m: Move, user: nat, amount: int, balances: Balances) returns (r: Result<()>)
      requires user < |wallets| && !m.Capture?
      requires m !in LedgerKeys(ledger) && m !in BatchKeys(batches)
      modifies this`ledger, this`batches
      ensures r == Ok(())
      ensures ledger == old(ledger) + [LedgerRow(m, user, amount, balances)]
      ensures batches == old(batches) + [Batch(m, TransferFor(m, user, amount))]
    {
      hide Sum, LedgerKeys, BatchKeys, TransferEntries;
      var _ :- CreateWalletTransaction(LedgerRow(m, user, amount, balances));
      r := Record(m, user, 0, amount, 0);
    }

    // --- withdrawals ---------------------------------------------------------------------------

    /** The part of a request that moves money. */
    method PlaceWithdrawal(q: Request, cents: int) returns (r: Result<nat>)
      requires q.user < |wallets| && NonNegative(wallets[q.user].balances) && cents >= 0
      requires Reserve(|withdrawals|) !in LedgerKeys(ledger) && Reserve(|withdrawals|) !in BatchKeys(batches)
      modifies this`wallets, this`withdrawals, this`ledger, this`batches
      ensures !old(wallets)[q.user].active || old(wallets)[q.user].balances.available < cents ==>
        r == Err(InsufficientAvailable)
      ensures old(wallets)[q.user].active && old(wallets)[q.user].balances.available >= cents ==>
        var next := ReservedBy(old(View()), q, cents);
        r == Ok(|old(withdrawals)|) &&
        wallets == next.wallets && withdrawals == next.withdrawals && ledger == next.ledger && batches == next.batches
    {
      hide Sum, LedgerKeys, BatchKeys;
      var balances :- ReserveWithdrawalFunds(q.user, cents);
      var wid := |withdrawals|;
      withdrawals := withdrawals + [NewWithdrawal(q, cents)];
      var _ :- Book(Reserve(wid), q.user, cents, balances);
      return Ok(wid);
    }

    method Placed(q: Request, cents: int) returns (r: Result<nat>)
      requires q.user < |wallets| && NonNegative(wallets[q.user].balances) && cents >= 0
      requires Reserve(|withdrawals|) !in LedgerKeys(ledger) && Reserve(|withdrawals|) !in BatchKeys(batches)
      modifies this`wallets, this`withdrawals, this`ledger, this`batches
      ensures !old(wallets)[q.user].active || old(wallets)[q.user].balances.available < cents ==>
        r == Err(InsufficientAvailable)
      ensures old(wallets)[q.user].active && old(wallets)[q.user].balances.available >= cents ==>
        r == Ok(|old(withdrawals)|) && View() == ReservedBy(old(View()), q, cents)
    {
      hide TransferEntries, NewWithdrawal, NonNegative, LedgerKeys, BatchKeys;
      r := PlaceWithdrawal(q, cents);
    }

    /** The checks of a request, up to the lookup of its key: the amount in cents, and the withdrawal
        that already owns the key, if any. */
    method CheckRequest(q: Request) returns (r: Result<(int, Option<nat>)>)
      ensures var s := View();
        var o := Engine.RequestWithdrawal(s, q);
        match r
        case Err(e) => o == Err(e)
        case Ok((cents, Some(wid))) => o == Ok((s, wid))
        case Ok((cents, None)) =>
          q.user < |wallets| && NormalizeAmount(q.amount) == Ok(cents) &&
          o == if !wallets[q.user].active || wallets[q.user].balances.available < cents then Err(InsufficientAvailable)
               else Ok((ReservedBy(s, q, cents), |withdrawals|))
    {
      hide Post, NewWithdrawal, ReservedBy;
      if Below(q.amount, MIN_WITHDRAWAL) {
        return Err(BelowMinimum);
      }
      if q.user >= |wallets| {
        return Err(UserNotFound);
      }
      if !q.verified {
        return Err(NotVerified);
      }
      if !q.accountActive {
        return Err(AccountNotFound);
      }
      var cents :- NormalizeAmount(q.amount);
      var key := UsableKey(q.key);
      if key.Some? {
        var existing := FindByKey(withdrawals, q.user, key);
        if existing.Some? {
          if !SameRequest(withdrawals[existing.value], q, cents) {
            return Err(KeyBoundElsewhere);
          }
          return Ok((cents, existing));
        }
      }
      ReservedIsPosted(View(), q, cents);
      return Ok((cents, None));
    }

    method RequestInside(q: Request) returns (r: Result<nat>)
      requires Valid()
      modifies this`wallets, this`withdrawals, this`ledger, this`batches
      ensures var o := Engine.RequestWithdrawal(old(View()), q);
        if o.Ok? then r == Ok(o.value.1) && View() == o.value.0 else r == Err(o.error)
    {
      ghost var s := View();
      RequestFacts(s, q);
      hide Inv, Engine.RequestWithdrawal, ReservedBy;
      var checked :- CheckRequest(q);
      if checked.1.Some? {
        return Ok(checked.1.value);
      }
      r := Placed(q, checked.0);
    }

    /** Requests a withdrawal, or answers a repeated request with the withdrawal it made. */
    method RequestWithdrawal(q: Request) returns (r: Result<nat>)
      requires Valid()
      modifies this
      ensures Valid()
      ensures View() == Next(old(View()), Ask(q))
      ensures var o := Engine.RequestWithdrawal(old(View()), q);
        r == if o.Ok? then Ok(o.value.1) else Err(o.error)
    {
      hide Inv, Next, Engine.RequestWithdrawal;
      var saved := View();
      Safety.StepKeeps(saved, Ask(q));
      NextAsks(saved, q);
      r := RequestInside(q);
      if r.Err? {
        Restore(saved);
      }
    }

    method MoveToProcessing(wid: nat, at: int) returns (count: nat)
      modifies this`withdrawals
      ensures count == (if wid < |old(withdrawals)| && Startable(old(withdrawals)[wid]) then 1 else 0)
      ensures withdrawals == if count == 1 then old(withdrawals)[wid := Advanced(old(withdrawals)[wid], Processing, at)] else old(withdrawals)
    {
      if wid < |withdrawals| && Startable(withdrawals[wid]) {
        withdrawals := withdrawals[wid := withdrawals[wid].(status := Processing, processingStartedAt := Some(at))];
        return 1;
      }
      return 0;
    }

    method Finalize(wid: nat, target: WithdrawalStatus, at: int) returns (count: nat)
      requires target == WithdrawalStatus.Completed || target == Rejected
      modifies this`withdrawals
      ensures count == (if wid < |old(withdrawals)| && Finalizable(old(withdrawals)[wid]) then 1 else 0)
      ensures withdrawals == if count == 1 then old(withdrawals)[wid := Advanced(old(withdrawals)[wid], target, at)] else old(withdrawals)
    {
      if wid < |withdrawals| && Finalizable(withdrawals[wid]) {
        var w := withdrawals[wid].(status := target, processedAt := Some(at));
        if target == WithdrawalStatus.Completed {
          w := w.(approvedAt := Some(at));
        }
        if target == Rejected {
          w := w.(rejectedAt := Some(at));
        }
        withdrawals := withdrawals[wid := w];
        return 1;
      }
      return 0;
    }

    /** Everything that is checked before a status changes, in the order of the source. */
    method CheckStatusChange(actor: nat, wid: nat, target: WithdrawalStatus) returns (r: Result<()>)
      requires Linked(View()) && target != WithdrawalStatus.Pending
      ensures r == StatusVerdict(View(), actor, wid, target)
    {
      if actor >= |wallets| {
        return Err(ActorNotFound);
      }
      if wid >= |withdrawals| {
        return Err(WithdrawalNotFound);
      }
      var w := withdrawals[wid];
      if w.status == target {
        return Err(AlreadyInState);
      }
      if !WithdrawalAllowed(w.status, target) {
        return Err(InvalidTransition);
      }
      if w.status == WithdrawalStatus.Completed || w.status == Rejected {
        return Err(AlreadyFinal);
      }
      var latest := LatestAudit(audits, wid);
      if target == Processing && w.status != WithdrawalStatus.Pending {
        return Err(OnlyPending);
      }
      if target == WithdrawalStatus.Completed || target == Rejected {
        if w.status != Processing {
          return Err(OnlyProcessing);
        }
        if latest.None? {
          return Err(CheckerMissing);
        }
        if latest.value.actor == actor {
          return Err(SameActor);
        }
      }
      return Ok(());
    }

    /** Finalizes a withdrawal as completed: the locked amount leaves the wallet. */
    method Complete(wid: nat, at: int) returns (r: Result<()>)
      requires wid < |withdrawals| && Finalizable(withdrawals[wid]) && FinalPossible(View(), wid)
      modifies this`wallets, this`withdrawals, this`ledger, this`batches
      ensures r == Ok(())
      ensures var next := FinalizedBy(old(View()), wid, WithdrawalStatus.Completed, at);
        wallets == next.wallets && withdrawals == next.withdrawals && ledger == next.ledger && batches == next.batches
    {
      hide Sum, LedgerKeys, BatchKeys, TransferEntries, Advanced, Finalizable;
      var user, amount := withdrawals[wid].user, withdrawals[wid].amount;
      var count := Finalize(wid, WithdrawalStatus.Completed, at);
      if count != 1 {
        return Err(AlreadyFinal);
      }
      var balances :- ReleaseLocked(user, amount, false);
      r := Book(Payout(wid), user, amount, balances);
    }

    /** Finalizes a withdrawal as rejected: the locked amount becomes available again. */
    method Reject(wid: nat, at: int) returns (r: Result<()>)
      requires wid < |withdrawals| && Finalizable(withdrawals[wid]) && FinalPossible(View(), wid)
      modifies this`wallets, this`withdrawals, this`ledger, this`batches
      ensures r == Ok(())
      ensures var next := FinalizedBy(old(View()), wid, Rejected, at);
        wallets == next.wallets && withdrawals == next.withdrawals && ledger == next.ledger && batches == next.batches
    {
      hide Sum, LedgerKeys, BatchKeys, TransferEntries, Advanced, Finalizable;
      var user, amount := withdrawals[wid].user, withdrawals[wid].amount;
      var count := Finalize(wid, Rejected, at);
      if count != 1 {
        return Err(AlreadyFinal);
      }
      var balances :- ReleaseLocked(user, amount, true);
      r := Book(Release(wid), user, amount, balances);
    }

    method WriteStatus(actor: nat, wid: nat, target: WithdrawalStatus, at: int) returns (r: Result<()>)
      requires wid < |withdrawals| && target != WithdrawalStatus.Pending
      requires if target == Processing then Startable(withdrawals[wid]) else Finalizable(withdrawals[wid]) && FinalPossible(View(), wid)
      modifies this`wallets, this`withdrawals, this`audits, this`ledger, this`batches
      ensures r == Ok(()) && View() == ChangedBy(old(View()), actor, wid, target, at)
    {
      hide Startable, Finalizable, FinalPossible, Advanced, TransferEntries;
      var before := withdrawals[wid].status;
      if target == Processing {
        var count := MoveToProcessing(wid, at);
        if count != 1 {
          return Err(NotMoved);
        }
      } else if target == WithdrawalStatus.Completed {
        var _ :- Complete(wid, at);
      } else {
        var _ :- Reject(wid, at);
      }
      audits := audits + [Audit(wid, actor, before, target, at)];
      return Ok(());
    }

    method ChangeInside(actor: nat, wid: nat, target: WithdrawalStatus, at: int) returns (r: Result<()>)
      requires Valid() && Linked(View()) && target != WithdrawalStatus.Pending
      modifies this`wallets, this`withdrawals, this`audits, this`ledger, this`batches
      ensures var o := UpdateStatus(old(View()), actor, wid, target, at);
        if o.Ok? then r == Ok(()) && View() == o.value else r == Err(o.error)
    {
      UpdateFacts(View(), actor, wid, target, at);
      hide Inv, Linked, UpdateStatus, ChangedBy, Startable, Finalizable, FinalPossible;
      var _ :- CheckStatusChange(actor, wid, target);
      r := WriteStatus(actor, wid, target, at);
    }

    /** Moves a withdrawal to processing, or finalizes it. */
    method UpdateWithdrawalStatus(actor: nat, wid: nat, target: WithdrawalStatus, at: int) returns (r: Result<()>)
      requires Valid() && target != WithdrawalStatus.Pending
      modifies this
      ensures Valid()
      ensures View() == Next(old(View()), SetStatus(actor, wid, target, at))
      ensures Linked(old(View())) && r == Bulk.Outcome(old(View()), Bulk.Order(actor, target, _ => at), wid)
    {
      hide Inv, Next, UpdateStatus, Bulk.Outcome;
      var saved := View();
      Bulk.UsersExist(saved);
      Safety.StepKeeps(saved, SetStatus(actor, wid, target, at));
      NextUpdates(saved, actor, wid, target, at);
      r := ChangeInside(actor, wid, target, at);
      if r.Err? {
        Restore(saved);
      }
    }

    /** Updates the selected withdrawals, each in its own transaction; `gaveUp` are those whose attempts all
        fail to serialize, and `order` is the order in which the database serializes the others. The
        report does not depend on it. */
    method BulkUpdateWithdrawals(o: Bulk.Order, selected: seq<Option<nat>>, order: seq<nat>, gaveUp: set<nat>)
      returns (r: Result<Bulk.BulkReport>)
      requires Valid() && o.target != WithdrawalStatus.Pending
      requires Distinct(order) && forall x :: x in order <==> x in Bulk.Present(selected) && x !in gaveUp
      modifies this
      ensures Valid() && Linked(old(View()))
      ensures View() == Bulk.Serial(old(View()), o, order)
      ensures Bulk.Present(selected) == [] <==> r == Err(NothingSelected)
      ensures r.Ok? ==>
        var ids := Bulk.Unique(Bulk.Present(selected));
        r.value.requested == |ids| && r.value.succeeded + |r.value.failed| == |ids| &&
        r.value.failed == Bulk.Failures(old(View()), o, gaveUp, ids)
    {
      hide Inv, Next, Linked, Bulk.Outcome;
      ghost var s := View();
      Bulk.UsersExist(s);
      var uniqueIds := Bulk.Unique(Bulk.Present(selected));
      if |uniqueIds| == 0 {
        NothingPresent(selected, order);
        return Err(NothingSelected);
      }
      var results := RunUpdates(o, order);
      var report := Summarize(s, o, gaveUp, uniqueIds, results);
      assert uniqueIds[0] in Bulk.Present(selected);
      return Ok(report);
    }

    /** Sorts the settled results into successes and failures, in the order of the ids. */
    static method Summarize(ghost s: State, o: Bulk.Order, gaveUp: set<nat>, ids: seq<nat>, results: map<nat, Result<()>>)
      returns (report: Bulk.BulkReport)
      requires Linked(s) && forall x :: x in ids && x !in gaveUp ==> x in results && results[x] == Bulk.Outcome(s, o, x)
      ensures report.requested == |ids| && report.succeeded + |report.failed| == |ids|
      ensures report.failed == Bulk.Failures(s, o, gaveUp, ids)
    {
      hide Bulk.Outcome;
      var succeeded := 0;
      var failed := [];
      assert ids[..0] == [];
      for k := 0 to |ids|
        invariant failed == Bulk.Failures(s, o, gaveUp, ids[..k])
        invariant succeeded + |failed| == k
      {
        Bulk.FailuresContinue(s, o, gaveUp, ids, k);
        var result := if ids[k] in gaveUp then Err(SerializationFailure) else results[ids[k]];
        if result.Ok? {
          succeeded := succeeded + 1;
        } else {
          failed := failed + [(ids[k], result.error)];
        }
      }
      assert ids[..|ids|] == ids;
      return Bulk.BulkReport(|ids|, succeeded, failed);
    }

    /** The transactions themselves, with the outcome of each. */
    method RunUpdates(o: Bulk.Order, order: seq<nat>) returns (results: map<nat, Result<()>>)
      requires Valid() && Linked(View()) && o.target != WithdrawalStatus.Pending && Distinct(order)
      modifies this
      ensures Valid()
      ensures View() == Bulk.Serial(old(View()), o, order)
      ensures forall x :: x in order ==> x in results && results[x] == Bulk.Outcome(old(View()), o, x)
    {
      hide Inv, Next, Linked, Bulk.Outcome;
      ghost var s := View();
      results := map[];
      assert order[..0] == [];
      for k := 0 to |order|
        invariant Valid()
        invariant View() == Bulk.Serial(s, o, order[..k])
        invariant forall i :: 0 <= i < k ==> order[i] in results && results[order[i]] == Bulk.Outcome(s, o, order[i])
      {
        Bulk.SerialContinues(s, o, order, k);
        Bulk.OutcomesAreIndependent(s, o, order, k);
        Bulk.OutcomeByTime(View(), o, order[k]);
        var result := UpdateWithdrawalStatus(o.actor, order[k], o.target, o.clock(order[k]));
        results := results[order[k] := result];
      }
      assert order[..|order|] == order;
    }

    // --- settlement ----------------------------------------------------------------------------

    method SettleInside(sid: nat, now: int) returns (r: Result<bool>)
      requires sid < |supports| && supports[sid].creator < |wallets| && (Ripe(supports[sid], now) ==> SettlePossible(View(), sid))
      modifies this`supports, this`wallets, this`ledger, this`batches
      ensures !Ripe(old(supports)[sid], now) ==>
        r == Ok(false) && supports == old(supports) && wallets == old(wallets) && ledger == old(ledger) && batches == old(batches)
      ensures Ripe(old(supports)[sid], now) && !old(wallets)[old(supports)[sid].creator].active ==> r == Err(SettlementInconsistent)
      ensures Ripe(old(supports)[sid], now) && old(wallets)[old(supports)[sid].creator].active ==>
        var next := SettledBy(old(View()), sid);
        r == Ok(true) && supports == next.supports && wallets == next.wallets && ledger == next.ledger && batches == next.batches
    {
      hide SettledBy, SettlePossible, Ripe;
      if !Ripe(supports[sid], now) {
        return Ok(false);
      }
      var _ :- ReleaseRipe(sid);
      return Ok(true);
    }

    /** What follows once the conditional update has matched the row. */
    method ReleaseRipe(sid: nat) returns (r: Result<()>)
      requires SettlePossible(View(), sid)
      modifies this`supports, this`wallets, this`ledger, this`batches
      ensures !old(wallets)[old(supports)[sid].creator].active ==> r == Err(SettlementInconsistent)
      ensures old(wallets)[old(supports)[sid].creator].active ==>
        var next := SettledBy(old(View()), sid);
        r == Ok(()) && supports == next.supports && wallets == next.wallets && ledger == next.ledger && batches == next.batches
    {
      hide LedgerKeys, BatchKeys, TransferEntries;
      var user, net := supports[sid].creator, supports[sid].net;
      supports := supports[sid := supports[sid].(settlement := Available)];
      var balances :- SettlePending(user, net);
      r := Book(Settlement(sid), user, net, balances);
    }

    method SettleWhole(sid: nat, now: int) returns (r: Result<bool>)
      requires Valid() && sid < |supports| && supports[sid].creator < |wallets|
      modifies this`supports, this`wallets, this`ledger, this`batches
      ensures var o := Settle(old(View()), sid, now);
        if o.Ok? then r == Ok(o.value.1) && View() == o.value.0 else r == Err(o.error)
    {
      hide Inv, Ripe, SettlePossible, Settle, TransferEntries;
      SettleFacts(View(), sid, now);
      r := SettleInside(sid, now);
    }

    /** Releases one matured support. */
    method SettleSupport(sid: nat, now: int) returns (r: Result<bool>)
      requires Valid() && sid < |supports|
      modifies this
      ensures Valid()
      ensures View() == Next(old(View()), SettleOne(sid, now))
      ensures Enabled(old(View()), SettleOne(sid, now))
      ensures var o := Settle(old(View()), sid, now); r == if o.Ok? then Ok(o.value.1) else Err(o.error)
    {
      hide Inv, Next, Settle;
      var saved := View();
      CreatorExists(saved, sid);
      Safety.StepKeeps(saved, SettleOne(sid, now));
      NextSettles(saved, sid, now);
      r := SettleWhole(sid, now);
      if r.Err? {
        Restore(saved);
      }
    }

    /** The hourly pass over a batch of matured supports: a failing one is logged and skipped. `clock(k)`
        is the time at which item k is handled. */
    method ReleaseMaturedSupports(batch: seq<nat>, clock: nat -> int) returns (settledCount: nat)
      requires Valid() && forall k :: 0 <= k < |batch| ==> batch[k] < |supports|
      modifies this
      ensures Valid()
      ensures (View(), settledCount) == SettlementPass.Pass(old(View()), batch, clock)
    {
      hide Inv, Settle, Next, Enabled, SettlementPass.Pass;
      settledCount := 0;
      ghost var start := View();
      PassStarts(start, batch, clock);
      for k := 0 to |batch|
        invariant Valid() && |supports| == |start.supports|
        invariant (View(), settledCount) == SettlementPass.Pass(start, batch[..k], clock)
      {
        PassContinues(start, batch, k, clock);
        SettleKeepsCount(View(), batch[k], clock(k));
        var settled := SettleSupport(batch[k], clock(k));
        if settled.Ok? && settled.value {
          settledCount := settledCount + 1;
        }
      }
      assert batch[..|batch|] == batch;
    }

    // --- payments ------------------------------------------------------------------------------

    /** Inserts the support of a draft that was validated before the checkout call. */
    method CreateSupport(d: Draft)
      requires Valid() && Placeable(View(), d)
      modifies this`supports
      ensures Valid() && View() == Next(old(View()), StartSupport(d))
    {
      hide Inv, Next, Placeable, NewSupport;
      Safety.StepKeeps(View(), StartSupport(d));
      NextPlaces(View(), d);
      supports := supports + [NewSupport(d)];
    }

    /** The compare-and-set on the application mark; the transition checks look at the snapshot. */
    method MarkPaymentCompleted(sid: nat, snap: Support, paidAt: int, holdDays: nat) returns (r: Result<bool>)
      requires sid < |supports|
      modifies this`supports
      ensures !PaymentAllowed(snap.status, PaymentStatus.Completed) || !PaymentAllowed(snap.intent, PaymentStatus.Completed) ==>
        r == Err(InvalidTransition) && supports == old(supports)
      ensures PaymentAllowed(snap.status, PaymentStatus.Completed) && PaymentAllowed(snap.intent, PaymentStatus.Completed) ==>
        r == Ok(!old(supports)[sid].Applied()) &&
        supports == if old(supports)[sid].Applied() then old(supports) else old(supports)[sid := Paid(old(supports)[sid], paidAt, holdDays)]
    {
      if !PaymentAllowed(snap.status, PaymentStatus.Completed) {
        return Err(InvalidTransition);
      }
      if !PaymentAllowed(snap.intent, PaymentStatus.Completed) {
        return Err(InvalidTransition);
      }
      if supports[sid].appliedAt.Some? {
        return Ok(false);
      }
      var p := supports[sid].(status := PaymentStatus.Completed, appliedAt := Some(paidAt), settlement := Held,
                              availableAt := Some(paidAt + holdDays * DAY), credited := true);
      supports := supports[sid := p.(intent := PaymentStatus.Completed)];
      return Ok(true);
    }

    /** Claims one unit of the reward if any is left, records the unlock, and then overwrites the claim
        count with the number of unlocks. */
    method ApplyRewardEntitlements(sid: nat, snap: Support) returns (r: Result<()>)
      modifies this`rewards, this`unlocks
      ensures snap.reward.None? ==> r == Ok(()) && rewards == old(rewards) && unlocks == old(unlocks)
      ensures snap.reward.Some? && snap.supporter.None? ==> r == Err(SupporterRequired)
      ensures snap.reward.Some? && snap.supporter.Some? ==>
        var reward, user := snap.reward.value, snap.supporter.value;
        if !CanClaim(old(rewards), reward) then r == Err(RewardUnavailable)
        else if UnlockClashes(old(unlocks), user, reward, sid) then r == Err(UniqueViolation)
        else
          r == Ok(()) && unlocks == old(unlocks) + [Unlock(user, reward, sid)] &&
          rewards == old(rewards)[reward := old(rewards)[reward].(claimed := Sum(old(unlocks), ForReward(reward)) + 1)]
    {
      hide Sum;
      if snap.reward.None? {
        return Ok(());
      }
      if snap.supporter.None? {
        return Err(SupporterRequired);
      }
      var reward, user := snap.reward.value, snap.supporter.value;
      if reward >= |rewards| || !rewards[reward].active || !(rewards[reward].limit.None? || rewards[reward].claimed < rewards[reward].limit.value) {
        return Err(RewardUnavailable);
      }
      rewards := rewards[reward := rewards[reward].(claimed := rewards[reward].claimed + 1)];
      if UnlockClashes(unlocks, user, reward, sid) {
        return Err(UniqueViolation);
      }
      SumAppend(unlocks, Unlock(user, reward, sid), ForReward(reward));
      unlocks := unlocks + [Unlock(user, reward, sid)];
      var authoritative := Sum(unlocks, ForReward(reward));
      rewards := rewards[reward := rewards[reward].(claimed := authoritative)];
      return Ok(());
    }

    method RecordPaidVote(sid: nat, snap: Support) returns (r: Result<()>)
      modifies this`options, this`votes
      ensures r.Err? || !Votes(snap) ==> options == old(options) && votes == old(votes)
      ensures !Votes(snap) ==> r == Ok(())
      ensures Votes(snap) && VotedFor(old(votes), sid) ==> r == Err(VoteRecorded)
      ensures Votes(snap) && !VotedFor(old(votes), sid) && snap.vote.value >= |old(options)| ==> r == Err(OptionNotFound)
      ensures Votes(snap) && !VotedFor(old(votes), sid) && snap.vote.value < |old(options)| ==>
        r == Ok(()) && options == old(options)[snap.vote.value := old(options)[snap.vote.value] + 1] &&
        votes == old(votes) + [Vote(snap.vote.value, snap.supporter.value, sid)]
    {
      if snap.vote.None? || snap.supporter.None? {
        return Ok(());
      }
      if VotedFor(votes, sid) {
        return Err(VoteRecorded);
      }
      var option := snap.vote.value;
      if option >= |options| {
        return Err(OptionNotFound);
      }
      options := options[option := options[option] + 1];
      votes := votes + [Vote(option, snap.supporter.value, sid)];
      return Ok(());
    }

    /** Credits the pending balance, records it, and upserts the platform's earning. */
    method CreditPendingSupport(sid: nat, user: nat, net: int, fee: int) returns (r: Result<()>)
      modifies this`wallets, this`ledger, this`earnings
      ensures user >= |old(wallets)| ==> r == Err(WalletNotFound)
      ensures user < |old(wallets)| ==>
        var w := old(wallets)[user];
        var after := Balances(w.balances.available, w.balances.pending + net, w.balances.locked);
        if !NonNegative(after) then r == Err(BalanceViolated)
        else
          r == Ok(()) && wallets == old(wallets)[user := w.(balances := after, earned := w.earned + net)] &&
          ledger == (if Capture(sid) in LedgerKeys(old(ledger)) then old(ledger)
                     else old(ledger) + [LedgerRow(Capture(sid), user, net, after)]) &&
          earnings == old(earnings)[sid := fee]
    {
      hide LedgerKeys;
      var balances :- CreditPending(user, net);
      var _ :- CreateWalletTransaction(LedgerRow(Capture(sid), user, net, balances));
      earnings := earnings[sid := fee];
      return Ok(());
    }

    /** Upserts one outbox event: an existing one is reopened. */
    method UpsertEvent(sid: nat, kind: EventKind)
      modifies this`outbox
      ensures outbox == old(outbox).(events := Upserted(old(outbox).events, sid, kind))
    {
      var i := FindEvent(outbox.events, sid, kind);
      if i < |outbox.events| {
        outbox := outbox.(events := outbox.events[i := outbox.events[i].(processedAt := None, startedAt := None)]);
      } else {
        outbox := outbox.(events := outbox.events + [Event(sid, kind, None, None, 0)]);
      }
    }

    method EnqueuePaymentCompleted(sid: nat)
      modifies this`outbox
      ensures outbox == old(outbox).(events := Upserted(Upserted(old(outbox).events, sid, Projection), sid, Telegram))
    {
      hide Upserted;
      UpsertEvent(sid, Projection);
      UpsertEvent(sid, Telegram);
    }

    /** Rewards and votes of a payment that was just marked. */
    method GrantPerks(sid: nat, snap: Support) returns (r: Result<()>)
      requires forall i :: 0 <= i < |rewards| ==> rewards[i].claimed == Sum(unlocks, ForReward(i))
      requires Sum(unlocks, ForUnlockOf(sid)) == 0 && Sum(votes, ForVoteOf(sid)) == 0
      requires snap.vote.Some? ==> snap.vote.value < |options|
      modifies this`rewards, this`unlocks, this`options, this`votes
      ensures var o := Entitle(old(View()), sid, snap);
        if o.Err? then r == Err(o.error)
        else r == Ok(()) && rewards == o.value.rewards && unlocks == o.value.unlocks &&
             options == CastVote(o.value, sid, snap).options && votes == CastVote(o.value, sid, snap).votes
    {
      hide Sum, HasUnlocked, UnlockClashes, VotedFor;
      NoUnlockOf(unlocks, sid);
      NoVoteOf(votes, sid);
      var _ :- ApplyRewardEntitlements(sid, snap);
      r := RecordPaidVote(sid, snap);
    }

    /** The money and the events of a payment that was just marked. */
    method PostCapture(sid: nat, snap: Support) returns (r: Result<()>)
      requires CapturePossible(View(), sid, snap)
      modifies this`wallets, this`ledger, this`batches, this`earnings, this`outbox
      ensures var next := CapturedBy(old(View()), sid, snap);
        r == Ok(()) && wallets == next.wallets && ledger == next.ledger && batches == next.batches &&
        earnings == next.earnings && outbox == next.outbox
    {
      hide Sum, CaptureEntries, Enqueued, Upserted, BatchKeys, LedgerKeys;
      EnqueueInserts(outbox, sid);
      var _ :- CreditPendingSupport(sid, snap.creator, snap.net, snap.fee);
      var _ :- Record(Capture(sid), snap.creator, snap.gross, snap.net, snap.fee);
      EnqueuePaymentCompleted(sid);
      return Ok(());
    }

    /** Everything after the mark. */
    method FinishMarked(sid: nat, snap: Support) returns (r: Result<()>)
      requires ApplyPossible(View(), sid, snap)
      modifies this`rewards, this`unlocks, this`options, this`votes,
               this`wallets, this`ledger, this`batches, this`earnings, this`outbox
      ensures var o := Entitle(old(View()), sid, snap);
        if o.Err? then r == Err(o.error)
        else r == Ok(()) && SameTables(View(), CapturedBy(CastVote(o.value, sid, snap), sid, snap))
    {
      hide Sum, CapturePossible, CaptureEntries, Enqueued, HasUnlocked, SoldOutNow;
      ghost var s := View();
      var _ :- GrantPerks(sid, snap);
      CaptureUndisturbed(s, View(), sid, snap);
      r := PostCapture(sid, snap);
    }

    method ApplyTables(sid: nat, snap: Support, paidAt: int, holdDays: nat) returns (r: Result<bool>)
      requires sid < |supports| && (!supports[sid].Applied() ==> ApplyPossible(View(), sid, snap))
      modifies this`supports, this`rewards, this`unlocks, this`options, this`votes,
               this`wallets, this`ledger, this`batches, this`earnings, this`outbox
      ensures var o := AppliedBy(old(View()), sid, snap, paidAt, holdDays);
        if o.Err? then r == Err(o.error)
        else r == Ok(o.value.1) && SameTables(View(), o.value.0)
    {
      hide Sum, Paid, PaymentAllowed, CapturedBy, Entitle, CastVote;
      ghost var s := View();
      var completion :- MarkPaymentCompleted(sid, snap, paidAt, holdDays);
      if !completion {
        return Ok(false);
      }
      assert View() == s.(supports := s.supports[sid := Paid(s.supports[sid], paidAt, holdDays)]);
      var _ :- FinishMarked(sid, snap);
      return Ok(true);
    }

    /** One transaction: applies a verified payment or leaves everything as it was. */
    method ApplyCompletedPayment(sid: nat, snap: Support, paidAt: int, holdDays: nat) returns (r: Result<bool>)
      requires Valid() && sid < |supports| && SameOrder(snap, supports[sid])
      modifies this
      ensures ApplyPayment.requires(old(View()), sid, snap, paidAt, holdDays)
      ensures var o := ApplyPayment(old(View()), sid, snap, paidAt, holdDays);
        if o.Ok? then r == Ok(o.value.1) && View() == o.value.0 else r == Err(o.error) && View() == old(View())
    {
      var saved := View();
      ApplyFacts(saved, sid, snap, paidAt, holdDays);
      hide Inv, ApplyPayment, AppliedBy, ApplyPossible, SameOrder;
      r := ApplyTables(sid, snap, paidAt, holdDays);
      if r.Err? {
        Restore(saved);
      }
    }

    /** One transaction: marks the payment failed on the word of the snapshot. */
    method MarkPaymentFailed(sid: nat, snap: Support) returns (r: Result<()>)
      requires sid < |supports|
      modifies this`supports
      ensures var o := FailPayment(old(View()), sid, snap);
        if o.Ok? then r == Ok(()) && supports == o.value.supports && o.value == old(View()).(supports := supports)
        else r == Err(o.error) && supports == old(supports)
    {
      if snap.status == Failed || snap.intent == Failed {
        return Ok(());
      }
      if !PaymentAllowed(snap.status, Failed) {
        return Err(InvalidTransition);
      }
      if !PaymentAllowed(snap.intent, Failed) {
        return Err(InvalidTransition);
      }
      supports := supports[sid := supports[sid].(status := Failed, intent := Failed)];
      return Ok(());
    }

    // --- calls ---------------------------------------------------------------------------------

    /** The webhook's event table admits each reference once. */
    method HandleWebhook(ref: nat) returns (admission: Admission)
      requires Valid()
      modifies this`webhooks, this`calls
      ensures Valid() && View() == Next(old(View()), OpenCall(Webhook, ref)) && admission == Open(old(View()), Webhook, ref).1
    {
      hide Inv, Next;
      Safety.StepKeeps(View(), OpenCall(Webhook, ref));
      NextOpens(View(), Webhook, ref);
      if ref in webhooks {
        if webhooks[ref] {
          return AlreadyProcessed;
        }
        return Refused(UniqueViolation);
      }
      webhooks := webhooks[ref := false];
      calls := calls + [Call(Webhook, ref, Started)];
      return Admitted;
    }

    method VerifyAndComplete(ref: nat) returns (admission: Admission)
      requires Valid()
      modifies this`calls
      ensures Valid() && View() == Next(old(View()), OpenCall(Verify, ref)) && admission == Open(old(View()), Verify, ref).1
    {
      hide Inv, Next;
      Safety.StepKeeps(View(), OpenCall(Verify, ref));
      NextOpens(View(), Verify, ref);
      if ref >= |supports| {
        return Refused(SupportNotFound);
      }
      if supports[ref].status == PaymentStatus.Completed {
        return AlreadyConfirmed;
      }
      calls := calls + [Call(Verify, ref, Started)];
      return Admitted;
    }

    /** The read before the transaction. */
    method GetSupportForPayment(c: nat)
      requires Valid() && Enabled(View(), LoadCall(c))
      modifies this`calls
      ensures Valid() && View() == Next(old(View()), LoadCall(c))
    {
      hide Inv, Next;
      Safety.StepKeeps(View(), LoadCall(c));
      NextLoads(View(), c);
      var sid := calls[c].sid;
      var phase;
      if sid >= |supports| {
        phase := Finished(Raised(SupportNotFound));
      } else if supports[sid].status == Failed {
        phase := Finished(Declined);
      } else if supports[sid].appliedAt.Some? {
        phase := Finished(AlreadyDone);
      } else {
        phase := Holding(supports[sid]);
      }
      calls := calls[c := calls[c].(phase := phase)];
    }

    /** What follows the provider's answer, up to the reply. */
    method Answer(sid: nat, snap: Support, verdict: Verdict, paidAt: int, holdDays: nat) returns (reply: Reply)
      requires Valid() && sid < |supports| && SameOrder(snap, supports[sid])
      modifies this
      ensures ApplyPayment.requires(old(View()), sid, snap, paidAt, holdDays)
      ensures (View(), reply) == Answered(old(View()), sid, snap, verdict, paidAt, holdDays)
    {
      hide Inv, ApplyPayment, FailPayment, SameOrder;
      CreatorExists(View(), sid);
      match verdict {
        case Unreachable => reply := Raised(ProviderDown);
        case WrongDetails => reply := Raised(DetailsMismatch);
        case Unsuccessful =>
          var r := MarkPaymentFailed(sid, snap);
          reply := if r.Ok? then Declined else Raised(r.error);
        case Success =>
          var r := ApplyCompletedPayment(sid, snap, paidAt, holdDays);
          reply := if r.Err? then Raised(r.error) else if r.value then Confirmed else AlreadyDone;
      }
    }

    /** Asks the provider and acts on what it says; `answer` is its reply about this payment. */
    method ProcessPayment(c: nat, answer: ProviderAnswer, paidAt: int, holdDays: nat)
      requires Valid() && Enabled(View(), ResolveCall(c, Success, paidAt, holdDays))
      modifies this
      ensures Valid()
      ensures var s := old(View()); var verdict := Judged(answer, s.calls[c].sid, s.calls[c].phase.snapshot.gross);
        View() == Next(s, ResolveCall(c, verdict, paidAt, holdDays))
    {
      hide Inv, Next, Answered, SameOrder;
      ghost var s := View();
      var sid, snap := calls[c].sid, calls[c].phase.snapshot;
      var verdict;
      if answer.Silence? {
        verdict := Unreachable;
      } else if !answer.success || answer.reference != sid {
        verdict := Unsuccessful;
      } else if !answer.inBirr || answer.amount * 100.0 != snap.gross as real {
        verdict := WrongDetails;
      } else {
        verdict := Success;
      }
      Safety.StepKeeps(s, ResolveCall(c, verdict, paidAt, holdDays));
      CallIsOk(s, c);
      NextResolves(s, c, verdict, paidAt, holdDays);
      var reply := Answer(sid, snap, verdict, paidAt, holdDays);
      calls := calls[c := calls[c].(phase := Finished(reply))];
    }

    method CloseWebhookEvent(c: nat)
      requires Valid() && Enabled(View(), CloseCall(c))
      modifies this`webhooks
      ensures Valid() && View() == Next(old(View()), CloseCall(c))
    {
      hide Inv, Next;
      Safety.StepKeeps(View(), CloseCall(c));
      NextCloses(View(), c);
      if !calls[c].phase.reply.Raised? {
        webhooks := webhooks[calls[c].sid := true];
      }
    }

    // --- outbox --------------------------------------------------------------------------------

    /** A new run of the processor fixes its stale bound. */
    method BeginRun() returns (w: nat)
      requires Valid()
      modifies this`outbox
      ensures Valid() && View() == Next(old(View()), Outboxing(Begin))
      ensures outbox == Work(old(outbox), Begin)
      ensures w == |old(outbox).workers|
    {
      hide Inv, Next, WorkOn;
      Safety.StepKeeps(View(), Outboxing(Begin));
      NextWorks(View(), Begin);
      OutboxProofs.WorkFrame(View(), Begin);
      w := |outbox.workers|;
      outbox := outbox.(workers := outbox.workers + [Worker(outbox.clock - STALE_CLAIM, None, None)]);
    }

    /** The query for the oldest claimable events. */
    method QueryBatch(w: nat) returns (batch: seq<nat>)
      requires Valid() && CanWork(outbox, Query(w))
      modifies this`outbox
      ensures Valid() && View() == Next(old(View()), Outboxing(Query(w)))
      ensures outbox == Work(old(outbox), Query(w))
      ensures batch == WaitingEvents(outbox.events, outbox.workers[w].staleBefore, OUTBOX_BATCH)
    {
      hide Inv, Next, WorkOn, WaitingEvents;
      Safety.StepKeeps(View(), Outboxing(Query(w)));
      NextWorks(View(), Query(w));
      OutboxProofs.WorkFrame(View(), Query(w));
      batch := WaitingEvents(outbox.events, outbox.workers[w].staleBefore, OUTBOX_BATCH);
      outbox := outbox.(workers := outbox.workers[w := outbox.workers[w].(todo := Some(batch))]);
    }

    /** The conditional update that claims an event. */
    method ClaimEvent(w: nat, i: nat) returns (claimed: bool)
      requires Valid() && CanWork(outbox, Claim(w, i))
      modifies this`outbox
      ensures Valid() && View() == Next(old(View()), Outboxing(Claim(w, i)))
      ensures outbox == Work(old(outbox), Claim(w, i))
      ensures claimed == Claimable(old(outbox).events[i], old(outbox).workers[w].staleBefore)
    {
      hide Inv, Next, WorkOn;
      Safety.StepKeeps(View(), Outboxing(Claim(w, i)));
      NextWorks(View(), Claim(w, i));
      OutboxProofs.WorkFrame(View(), Claim(w, i));
      var e := outbox.events[i];
      if e.processedAt.Some? || !(e.startedAt.None? || e.startedAt.value < outbox.workers[w].staleBefore) {
        outbox := outbox.(workers := outbox.workers[w := Advance(outbox.workers[w])]);
        return false;
      }
      outbox := outbox.(events := outbox.events[i := e.(startedAt := Some(outbox.clock))],
                        workers := outbox.workers[w := Advance(outbox.workers[w]).(holding := Some(Hold(i, outbox.clock, Fresh)))]);
      return true;
    }

    /** The counters of a campaign and of a deep link, for one paid support. */
    method ApplyPaymentCompletedProjection(p: Support)
      modifies this`campaigns, this`links
      ensures campaigns == Bump(old(campaigns), p.campaign, p.gross) && links == Bump(old(links), p.link, p.gross)
    {
      if p.campaign.Some? && p.campaign.value < |campaigns| {
        var tally := campaigns[p.campaign.value];
        campaigns := campaigns[p.campaign.value := Tally(tally.revenue + p.gross, tally.conversions + 1)];
      }
      if p.link.Some? && p.link.value < |links| {
        var tally := links[p.link.value];
        links := links[p.link.value := Tally(tally.revenue + p.gross, tally.conversions + 1)];
      }
    }

    method ProjectTables(w: nat)
      requires CanWork(outbox, Project(w))
      modifies this`outbox, this`campaigns, this`links
      ensures outbox == Work(old(outbox), Project(w))
      ensures campaigns == WorkOn(old(View()), Project(w)).campaigns && links == WorkOn(old(View()), Project(w)).links
    {
      hide Bump;
      var i := outbox.workers[w].holding.value.event;
      var e := outbox.events[i];
      if e.processedAt.None? {
        if e.sid < |supports| {
          ApplyPaymentCompletedProjection(supports[e.sid]);
        }
        outbox := outbox.(events := outbox.events[i := e.(processedAt := Some(outbox.clock), startedAt := None)]);
      }
      outbox := outbox.(workers := outbox.workers[w := outbox.workers[w].(holding := None)]);
    }

    /** The projection transaction: re-reads the event, moves the counters, and marks it processed. */
    method ProjectEvent(w: nat)
      requires Valid() && CanWork(outbox, Project(w))
      modifies this`outbox, this`campaigns, this`links
      ensures Valid() && View() == Next(old(View()), Outboxing(Project(w)))
      ensures outbox == Work(old(outbox), Project(w))
    {
      hide Inv, Next, Work, WorkOn, CanWork;
      Safety.StepKeeps(View(), Outboxing(Project(w)));
      NextWorks(View(), Project(w));
      OutboxProofs.WorkFrame(View(), Project(w));
      ProjectTables(w);
    }

    /** The re-read before a delivery; nothing is left to do if somebody else finished the event. */
    method InspectEvent(w: nat) returns (pending: bool)
      requires Valid() && CanWork(outbox, Inspect(w))
      modifies this`outbox
      ensures Valid() && View() == Next(old(View()), Outboxing(Inspect(w)))
      ensures outbox == Work(old(outbox), Inspect(w))
      ensures pending == old(outbox).events[old(outbox).workers[w].holding.value.event].processedAt.None?
    {
      hide Inv, Next, WorkOn;
      Safety.StepKeeps(View(), Outboxing(Inspect(w)));
      NextWorks(View(), Inspect(w));
      OutboxProofs.WorkFrame(View(), Inspect(w));
      var hold := outbox.workers[w].holding.value;
      pending := outbox.events[hold.event].processedAt.None?;
      var holding := if pending then Some(hold.(stage := Inspected)) else None;
      outbox := outbox.(workers := outbox.workers[w := outbox.workers[w].(holding := holding)]);
    }

    /** The message to Telegram, and whether it was accepted; the row is not touched. */
    method NotifyCreator(w: nat, accepted: bool)
      requires Valid() && CanWork(outbox, Send(w, accepted))
      modifies this`outbox
      ensures Valid() && View() == Next(old(View()), Outboxing(Send(w, accepted)))
      ensures outbox == Work(old(outbox), Send(w, accepted))
    {
      hide Inv, Next, WorkOn;
      Safety.StepKeeps(View(), Outboxing(Send(w, accepted)));
      NextWorks(View(), Send(w, accepted));
      OutboxProofs.WorkFrame(View(), Send(w, accepted));
      var hold := outbox.workers[w].holding.value;
      var e := outbox.events[hold.event];
      if accepted {
        e := e.(deliveries := e.deliveries + 1);
      }
      outbox := outbox.(events := outbox.events[hold.event := e],
                        workers := outbox.workers[w := outbox.workers[w].(holding := Some(hold.(stage := Sent(accepted))))]);
    }

    /** The update after Telegram answered with success or with a final refusal. */
    method FinishDelivery(w: nat)
      requires Valid() && CanWork(outbox, Conclude(w))
      modifies this`outbox
      ensures Valid() && View() == Next(old(View()), Outboxing(Conclude(w)))
      ensures outbox == Work(old(outbox), Conclude(w))
    {
      hide Inv, Next, WorkOn;
      Safety.StepKeeps(View(), Outboxing(Conclude(w)));
      NextWorks(View(), Conclude(w));
      OutboxProofs.WorkFrame(View(), Conclude(w));
      var i := outbox.workers[w].holding.value.event;
      var e := outbox.events[i].(processedAt := Some(outbox.clock), startedAt := None);
      outbox := outbox.(events := outbox.events[i := e], workers := outbox.workers[w := outbox.workers[w].(holding := None)]);
    }

    /** The catch block: the claim is dropped without looking at the row. */
    method ReleaseEvent(w: nat)
      requires Valid() && CanWork(outbox, GiveUp(w))
      modifies this`outbox
      ensures Valid() && View() == Next(old(View()), Outboxing(GiveUp(w)))
      ensures outbox == Work(old(outbox), GiveUp(w))
    {
      hide Inv, Next, WorkOn;
      Safety.StepKeeps(View(), Outboxing(GiveUp(w)));
      NextWorks(View(), GiveUp(w));
      OutboxProofs.WorkFrame(View(), GiveUp(w));
      var i := outbox.workers[w].holding.value.event;
      outbox := outbox.(events := outbox.events[i := outbox.events[i].(startedAt := None)],
                        workers := outbox.workers[w := outbox.workers[w].(holding := None)]);
    }

    /** The catch block after a claim that threw: it clears the mark of an event it does not hold. */
    method ResetEvent(w: nat, i: nat)
      requires Valid() && CanWork(outbox, Reset(w, i))
      modifies this`outbox
      ensures Valid() && View() == Next(old(View()), Outboxing(Reset(w, i)))
      ensures outbox == Work(old(outbox), Reset(w, i))
    {
      hide Inv, Next, WorkOn;
      Safety.StepKeeps(View(), Outboxing(Reset(w, i)));
      NextWorks(View(), Reset(w, i));
      OutboxProofs.WorkFrame(View(), Reset(w, i));
      outbox := outbox.(events := outbox.events[i := outbox.events[i].(startedAt := None)],
                        workers := outbox.workers[w := Advance(outbox.workers[w])]);
    }

    /** Whatever everybody else commits meanwhile. */
    method Meanwhile(steps: seq<Step>)
      requires Valid()
      modifies this
      ensures Valid() && View() == After(old(View()), steps)
    {
      hide Inv, After;
      Safety.RunKeeps(View(), steps);
      Restore(After(View(), steps));
    }

    /** The same, seen by worker `w` in the middle of its work. */
    method Wait(ghost s: State, ghost trace: seq<Step>, w: nat, ghost own: seq<WorkStep>, steps: seq<Step>)
      returns (ghost trace': seq<Step>)
      requires Valid() && Follows(s, trace, w, own, View()) && Foreign(steps, w) && w < |outbox.workers|
      modifies this
      ensures Valid() && Follows(s, trace', w, own, View())
      ensures w < |outbox.workers| && outbox.workers[w] == old(outbox).workers[w] && |outbox.events| >= |old(outbox).events|
      ensures forall i :: 0 <= i < |old(outbox).events| ==> outbox.events[i].kind == old(outbox).events[i].kind
      ensures steps == [] ==> outbox == old(outbox)
    {
      hide Inv, Foreign, Follows, Next;
      FollowForeign(s, trace, w, own, View(), steps);
      OthersKeep(View(), steps, w);
      trace' := trace + steps;
      Meanwhile(steps);
    }

    lemma ViewShows()
      ensures View().outbox == outbox
    {
    }

    /** The worker's steps, each noted in the trace. */
    method TakeQuery(ghost s: State, ghost trace: seq<Step>, ghost own: seq<WorkStep>, w: nat)
      returns (batch: seq<nat>, ghost trace': seq<Step>, ghost own': seq<WorkStep>)
      requires Valid() && Follows(s, trace, w, own, View()) && CanWork(outbox, Query(w))
      modifies this
      ensures Valid() && Follows(s, trace', w, own', View()) && own' == own + [Query(w)]
      ensures outbox == Work(old(outbox), Query(w))
      ensures batch == WaitingEvents(outbox.events, outbox.workers[w].staleBefore, OUTBOX_BATCH)
    {
      hide Inv, Next, View, Follows, Work, CanWork;
      ghost var t := View();
      ViewShows();
      batch := QueryBatch(w);
      FollowOwn(s, trace, w, own, t, Query(w));
      trace', own' := trace + [Outboxing(Query(w))], own + [Query(w)];
    }

    method TakeClaim(ghost s: State, ghost trace: seq<Step>, ghost own: seq<WorkStep>, w: nat, i: nat)
      returns (claimed: bool, ghost trace': seq<Step>, ghost own': seq<WorkStep>)
      requires Valid() && Follows(s, trace, w, own, View()) && CanWork(outbox, Claim(w, i))
      modifies this
      ensures Valid() && Follows(s, trace', w, own', View()) && own' == own + [Claim(w, i)]
      ensures outbox == Work(old(outbox), Claim(w, i))
      ensures claimed == Claimable(old(outbox).events[i], old(outbox).workers[w].staleBefore)
    {
      hide Inv, Next, View, Follows, Work, CanWork;
      ghost var t := View();
      ViewShows();
      claimed := ClaimEvent(w, i);
      FollowOwn(s, trace, w, own, t, Claim(w, i));
      trace', own' := trace + [Outboxing(Claim(w, i))], own + [Claim(w, i)];
    }

    method TakeReset(ghost s: State, ghost trace: seq<Step>, ghost own: seq<WorkStep>, w: nat, i: nat)
      returns (ghost trace': seq<Step>, ghost own': seq<WorkStep>)
      requires Valid() && Follows(s, trace, w, own, View()) && CanWork(outbox, Reset(w, i))
      modifies this
      ensures Valid() && Follows(s, trace', w, own', View()) && own' == own + [Reset(w, i)]
      ensures outbox == Work(old(outbox), Reset(w, i))
    {
      hide Inv, Next, View, Follows, Work, CanWork;
      ghost var t := View();
      ViewShows();
      ResetEvent(w, i);
      FollowOwn(s, trace, w, own, t, Reset(w, i));
      trace', own' := trace + [Outboxing(Reset(w, i))], own + [Reset(w, i)];
    }

    method TakeInspect(ghost s: State, ghost trace: seq<Step>, ghost own: seq<WorkStep>, w: nat)
      returns (pending: bool, ghost trace': seq<Step>, ghost own': seq<WorkStep>)
      requires Valid() && Follows(s, trace, w, own, View()) && CanWork(outbox, Inspect(w))
      modifies this
      ensures Valid() && Follows(s, trace', w, own', View()) && own' == own + [Inspect(w)]
      ensures outbox == Work(old(outbox), Inspect(w))
      ensures pending == old(outbox).events[old(outbox).workers[w].holding.value.event].processedAt.None?
    {
      hide Inv, Next, View, Follows, Work, CanWork;
      ghost var t := View();
      ViewShows();
      pending := InspectEvent(w);
      FollowOwn(s, trace, w, own, t, Inspect(w));
      trace', own' := trace + [Outboxing(Inspect(w))], own + [Inspect(w)];
    }

    method TakeSend(ghost s: State, ghost trace: seq<Step>, ghost own: seq<WorkStep>, w: nat, accepted: bool)
      returns (ghost trace': seq<Step>, ghost own': seq<WorkStep>)
      requires Valid() && Follows(s, trace, w, own, View()) && CanWork(outbox, Send(w, accepted))
      modifies this
      ensures Valid() && Follows(s, trace', w, own', View()) && own' == own + [Send(w, accepted)]
      ensures outbox == Work(old(outbox), Send(w, accepted))
    {
      hide Inv, Next, View, Follows, Work, CanWork;
      ghost var t := View();
      ViewShows();
      NotifyCreator(w, accepted);
      FollowOwn(s, trace, w, own, t, Send(w, accepted));
      trace', own' := trace + [Outboxing(Send(w, accepted))], own + [Send(w, accepted)];
    }

    method TakeConclude(ghost s: State, ghost trace: seq<Step>, ghost own: seq<WorkStep>, w: nat)
      returns (ghost trace': seq<Step>, ghost own': seq<WorkStep>)
      requires Valid() && Follows(s, trace, w, own, View()) && CanWork(outbox, Conclude(w))
      modifies this
      ensures Valid() && Follows(s, trace', w, own', View()) && own' == own + [Conclude(w)]
      ensures outbox == Work(old(outbox), Conclude(w))
    {
      hide Inv, Next, View, Follows, Work, CanWork;
      ghost var t := View();
      ViewShows();
      FinishDelivery(w);
      FollowOwn(s, trace, w, own, t, Conclude(w));
      trace', own' := trace + [Outboxing(Conclude(w))], own + [Conclude(w)];
    }

    method TakeProject(ghost s: State, ghost trace: seq<Step>, ghost own: seq<WorkStep>, w: nat)
      returns (ghost trace': seq<Step>, ghost own': seq<WorkStep>)
      requires Valid() && Follows(s, trace, w, own, View()) && CanWork(outbox, Project(w))
      modifies this
      ensures Valid() && Follows(s, trace', w, own', View()) && own' == own + [Project(w)]
      ensures outbox == Work(old(outbox), Project(w))
    {
      hide Inv, Next, View, Follows, Work, CanWork;
      ghost var t := View();
      ViewShows();
      ProjectEvent(w);
      FollowOwn(s, trace, w, own, t, Project(w));
      trace', own' := trace + [Outboxing(Project(w))], own + [Project(w)];
    }

    method TakeGiveUp(ghost s: State, ghost trace: seq<Step>, ghost own: seq<WorkStep>, w: nat)
      returns (ghost trace': seq<Step>, ghost own': seq<WorkStep>)
      requires Valid() && Follows(s, trace, w, own, View()) && CanWork(outbox, GiveUp(w))
      modifies this
      ensures Valid() && Follows(s, trace', w, own', View()) && own' == own + [GiveUp(w)]
      ensures outbox == Work(old(outbox), GiveUp(w))
    {
      hide Inv, Next, View, Follows, Work, CanWork;
      ghost var t := View();
      ViewShows();
      ReleaseEvent(w);
      FollowOwn(s, trace, w, own, t, GiveUp(w));
      trace', own' := trace + [Outboxing(GiveUp(w))], own + [GiveUp(w)];
    }

    /** A Telegram event that was just claimed: re-read, sent, recorded; a throw leads to the catch block
        of the caller. */
    method ProcessTelegramEvent(ghost s: State, ghost trace: seq<Step>, ghost own: seq<WorkStep>, w: nat, fate: Fate, gaps: nat -> seq<Step>)
      returns (ghost trace': seq<Step>, ghost own': seq<WorkStep>)
      requires Valid() && Follows(s, trace, w, own, View()) && CanWork(outbox, Inspect(w))
      requires !fate.ClaimThrew? && forall k: nat :: Foreign(gaps(k), w)
      modifies this
      ensures Valid() && Follows(s, trace', w, own', View())
      ensures own' == own + [Inspect(w)] || own' == own + Delivering(w, fate)
      ensures w < |outbox.workers| && outbox.workers[w] == old(outbox).workers[w].(holding := None)
      ensures |outbox.events| >= |old(outbox).events|
      ensures var i := old(outbox).workers[w].holding.value.event;
        gaps(2) == [] && gaps(3) == [] && old(outbox).events[i].processedAt.None? ==>
          outbox.clock == old(outbox).clock && |outbox.workers| == |old(outbox).workers| &&
          outbox.events == old(outbox).events[i := Handled(old(outbox).events[i], outbox.clock, fate)]
    {
      hide Inv, Next, After, View, Follows, Foreign, WorkOn;
      var pending;
      pending, trace', own' := TakeInspect(s, trace, own, w);
      if !pending {
        return;
      }
      trace' := Wait(s, trace', w, own', gaps(2));
      if fate == Thrown(false) {
        trace', own' := TakeGiveUp(s, trace', own', w);
        return;
      }
      trace', own' := TakeSend(s, trace', own', w, fate.accepted);
      trace' := Wait(s, trace', w, own', gaps(3));
      if fate.Thrown? {
        trace', own' := TakeGiveUp(s, trace', own', w);
      } else {
        trace', own' := TakeConclude(s, trace', own', w);
      }
    }

    /** What follows a successful claim. */
    method ProcessClaimed(ghost s: State, ghost trace: seq<Step>, ghost own: seq<WorkStep>, w: nat, i: nat, fate: Fate, gaps: nat -> seq<Step>)
      returns (ghost trace': seq<Step>, ghost own': seq<WorkStep>)
      requires Valid() && Follows(s, trace, w, own, View()) && w < |outbox.workers| && i < |outbox.events|
      requires outbox.workers[w].holding.Some? && outbox.workers[w].holding.value.event == i && outbox.workers[w].holding.value.stage == Fresh
      requires !fate.ClaimThrew? && forall k: nat :: Foreign(gaps(k), w)
      modifies this
      ensures Valid() && Follows(s, trace', w, own', View())
      ensures var rest := AfterClaim(w, old(outbox).events[i].kind, fate);
        own' == own + rest || own' == own + rest[..1]
      ensures w < |outbox.workers| && outbox.workers[w] == old(outbox).workers[w].(holding := None)
      ensures |outbox.events| >= |old(outbox).events|
      ensures gaps(1) == [] && gaps(2) == [] && gaps(3) == [] && old(outbox).events[i].processedAt.None? ==>
        outbox.clock == old(outbox).clock && |outbox.workers| == |old(outbox).workers| &&
        outbox.events == old(outbox).events[i := Handled(old(outbox).events[i], outbox.clock, fate)]
    {
      hide Inv, Next, After, View, Follows, Foreign, WorkOn;
      trace' := Wait(s, trace, w, own, gaps(1));
      own' := own;
      if outbox.events[i].kind == Telegram {
        trace', own' := ProcessTelegramEvent(s, trace', own', w, fate, gaps);
      } else if fate.Thrown? {
        trace', own' := TakeGiveUp(s, trace', own', w);
      } else {
        trace', own' := TakeProject(s, trace', own', w);
      }
    }

    /** One event of a run: claimed, then projected or delivered, or given up if that throws. `gaps(k)` are
        the steps that others take before the worker's k-th step, among them ticks of the clock. However
        they interfere, the worker takes the steps of `Handling`, unless the claim fails or the re-read
        finds the event done, and takes each where the state machine allows it; undisturbed, the event
        ends as `Processed` says and no other event changes. */
    method ProcessEvent(w: nat, i: nat, fate: Fate, gaps: nat -> seq<Step>)
      returns (ghost trace: seq<Step>, ghost own: seq<WorkStep>)
      requires Valid() && CanWork(outbox, Claim(w, i)) && forall k: nat :: Foreign(gaps(k), w)
      modifies this
      ensures Valid() && Follows(old(View()), trace, w, own, View())
      ensures var full := Handling(w, i, old(outbox).events[i].kind, fate);
        own == full || own == full[..1] || (|full| > 1 && own == full[..2])
      ensures w < |outbox.workers| && outbox.workers[w] == Advance(old(outbox).workers[w]) && |outbox.events| >= |old(outbox).events|
      ensures (forall k: nat :: gaps(k) == []) ==>
        outbox.clock == old(outbox).clock && |outbox.workers| == |old(outbox).workers| &&
        outbox.events == old(outbox).events[i := Processed(old(outbox).events[i], old(outbox).workers[w].staleBefore, outbox.clock, fate)]
    {
      hide Inv, Next, After, View, Follows, Foreign, WorkOn, Handling, AfterClaim;
      HandlingShape(w, i, outbox.events[i].kind, fate);
      ghost var s := View();
      trace, own := FollowNothing(s, w);
      trace := Wait(s, trace, w, own, gaps(0));
      if fate.ClaimThrew? {
        trace, own := TakeReset(s, trace, own, w, i);
        return;
      }
      var claimed;
      claimed, trace, own := TakeClaim(s, trace, own, w, i);
      if claimed {
        trace, own := ProcessClaimed(s, trace, own, w, i, fate, gaps);
      }
    }

    /** A whole run of the processor: it fixes its stale bound, reads its batch, and handles it event after
        event, with whatever others do before the query (`pause`) and around the k-th event (`gaps(k)`).
        Each of its steps is taken where the state machine allows it, it claims nothing but its batch, and
        it has been through all of it and holds nothing in the end. Undisturbed, the oldest claimable
        events end as `Processed` says and no other event changes. */
    method ProcessPendingEvents(fates: nat -> Fate, pause: seq<Step>, gaps: nat -> nat -> seq<Step>)
      returns (ghost batch: seq<nat>, ghost trace: seq<Step>, ghost own: seq<WorkStep>)
      requires Valid() && Foreign(pause, |outbox.workers|) && forall k, j: nat :: Foreign(gaps(k)(j), |outbox.workers|)
      modifies this
      ensures Valid()
      ensures var w := |old(outbox).workers|;
        Follows(Next(old(View()), Outboxing(Begin)), trace, w, own, View()) && ClaimsOnly(own, batch) &&
        w < |outbox.workers| && outbox.workers[w] == Worker(old(outbox).clock - STALE_CLAIM, Some([]), None)
      ensures pause == [] && (forall k, j: nat :: gaps(k)(j) == []) ==>
        var box := old(outbox);
        var stale := box.clock - STALE_CLAIM;
        batch == WaitingEvents(box.events, stale, OUTBOX_BATCH) && |outbox.events| == |box.events| && outbox.clock == box.clock &&
        forall i :: 0 <= i < |box.events| ==>
          outbox.events[i] == if i in batch then Processed(box.events[i], stale, box.clock, fates(i)) else box.events[i]
    {
      hide Inv, Next, After, View, Follows, Foreign, Processed, Claimable, WaitingEvents, ClaimsOnly;
      var w := BeginRun();
      ghost var s := View();
      trace, own := FollowNothing(s, w);
      trace := Wait(s, trace, w, own, pause);
      var items;
      items, trace, own := TakeQuery(s, trace, own, w);
      batch := items;
      QueryClaimsNothing(w, items);
      trace, own := ProcessBatch(s, trace, own, w, items, fates, gaps);
    }

    /** The loop over the batch. */
    method ProcessBatch(ghost s: State, ghost trace: seq<Step>, ghost own: seq<WorkStep>, w: nat, items: seq<nat>,
                        fates: nat -> Fate, gaps: nat -> nat -> seq<Step>)
      returns (ghost trace': seq<Step>, ghost own': seq<WorkStep>)
      requires Valid() && Follows(s, trace, w, own, View()) && ClaimsOnly(own, items)
      requires w < |outbox.workers| && outbox.workers[w].todo == Some(items) && outbox.workers[w].holding == None
      requires forall i, j :: 0 <= i < j < |items| ==> items[i] < items[j]
      requires forall i :: 0 <= i < |items| ==> items[i] < |outbox.events|
      requires forall k, j: nat :: Foreign(gaps(k)(j), w)
      modifies this
      ensures Valid() && Follows(s, trace', w, own', View()) && ClaimsOnly(own', items)
      ensures w < |outbox.workers| && outbox.workers[w] == old(outbox).workers[w].(todo := Some([]))
      ensures (forall k, j: nat :: gaps(k)(j) == []) ==>
        var box := old(outbox);
        |outbox.events| == |box.events| && outbox.clock == box.clock &&
        forall i :: 0 <= i < |box.events| ==>
          outbox.events[i] == if i in items then Processed(box.events[i], box.workers[w].staleBefore, box.clock, fates(i)) else box.events[i]
    {
      hide Inv, Next, After, View, Follows, Foreign, Processed, Claimable, Handling, ClaimsOnly;
      ghost var box := outbox;
      trace', own' := trace, own;
      for k := 0 to |items|
        invariant Valid() && Follows(s, trace', w, own', View()) && ClaimsOnly(own', items)
        invariant w < |outbox.workers| && outbox.workers[w] == box.workers[w].(todo := Some(items[k..]))
        invariant forall i :: 0 <= i < |items| ==> items[i] < |outbox.events|
        invariant (forall k, j: nat :: gaps(k)(j) == []) ==>
          |outbox.events| == |box.events| && outbox.clock == box.clock &&
          forall i :: 0 <= i < |box.events| ==>
            outbox.events[i] == if i in items[..k] then Processed(box.events[i], box.workers[w].staleBefore, box.clock, fates(i))
                                else box.events[i]
      {
        assert items[k] in items && items[k] !in items[..k];
        assert items[..k + 1] == items[..k] + [items[k]] && items[k..][1..] == items[k + 1..];
        ghost var m, kind := View(), outbox.events[items[k]].kind;
        ghost var more, steps;
        more, steps := ProcessEvent(w, items[k], fates(items[k]), gaps(k));
        FollowConcat(s, trace', w, own', m, more, steps, View());
        HandlingClaims(w, items[k], kind, fates(items[k]), own', steps, items);
        trace', own' := trace' + more, own' + steps;
      }
      assert items[..|items|] == items;
    }
  }
}
