/** What the ledger guarantees over whole runs of the settlement protocol, under any
    interleaving, redelivery, duplicate publication, retry, crash and replay. */
module Guarantees {
  import opened Options
  import opened Sums
  import opened LedgerDb
  import opened Settlement
  import opened Solvency
  import DoubleEntry
  import Money

  // ---- The history of a run ---------------------------------------------------------------

  /** The transfers a run has set FAILED while they were not posted. */
  ghost function ReleasedBy(steps: seq<Step>): set<nat> {
    if steps == [] then {}
    else
      var before, step := steps[..|steps| - 1], steps[|steps| - 1];
      var effect := DbEffect(Exec(before), step);
      ReleasedBy(before) + if effect.Some? then Releases(Exec(before).db, effect.value) else {}
  }

  /** The debits of w that the reads of the last transfer created from w have missed. */
  ghost function SlackOf(steps: seq<Step>, w: nat): int {
    if steps == [] then 0
    else
      var before, step := steps[..|steps| - 1], steps[|steps| - 1];
      var effect := DbEffect(Exec(before), step);
      if effect.Some? then SlackAfter(Exec(before).db, effect.value, w, SlackOf(before, w)) else SlackOf(before, w)
  }

  lemma {:induction false} ReleasedExist(steps: seq<Step>)
    ensures forall t | t in ReleasedBy(steps) :: t < |Exec(steps).db.transfers|
  {
    if steps == [] {
    } else {
      var before, step := steps[..|steps| - 1], steps[|steps| - 1];
      ReleasedExist(before);
      DbGrows(Exec(before), step);
    }
  }

  // ---- Solvency ---------------------------------------------------------------------------

  lemma {:induction false} RunIsCovered(steps: seq<Step>, w: nat)
    requires w != SYSTEM_WALLET
    ensures Covered(Exec(steps).db, ReleasedBy(steps), w, SlackOf(steps, w))
  {
    if steps == [] {
    } else {
      var before, step := steps[..|steps| - 1], steps[|steps| - 1];
      var s := Exec(before);
      RunIsCovered(before, w);
      RunKeepsInv(before);
      ReleasedExist(before);
      EffectIsLegal(s, step);
      if DbEffect(s, step).Some? {
        StepIsCovered(s.db, DbEffect(s, step).value, ReleasedBy(before), w, SlackOf(before, w));
      } else {
        assert ReleasedBy(steps) == ReleasedBy(before);
      }
    }
  }

  ghost function ReleasedThenPostedAt(db: Db, released: set<nat>, w: nat): nat -> int {
    (t: nat) =>
      if t < |db.transfers| && db.transfers[t].order.walletFrom == w && t in released && Posted(db, t)
      then db.transfers[t].order.fromAmount else 0
  }

  ghost function ReleasedThenPosted(db: Db, released: set<nat>, w: nat): int {
    Sum(|db.transfers|, ReleasedThenPostedAt(db, released, w))
  }

  /** Solvency: a wallet's balance, with the amounts of its transfers ever released and the
      debits its last creation's reads missed, covers everything it has not yet paid. So the
      balance is short of its open promises by no more than what was released and then posted
      after all, plus those missed debits. */
  lemma SolvencyBound(steps: seq<Step>, w: nat)
    requires w != SYSTEM_WALLET
    ensures var db, released := Exec(steps).db, ReleasedBy(steps);
            && ComputeBalance(db, None, w) + Released(db, released, w) + SlackOf(steps, w) >= Owed(db, w)
            && ComputeBalance(db, None, w) + ReleasedThenPosted(db, released, w) + SlackOf(steps, w)
               >= Open(db, released, w) >= 0
            && SlackOf(steps, w) >= 0
  {
    RunIsCovered(steps, w);
    SplitReleased(Exec(steps).db, ReleasedBy(steps), w);
    OwedIsOpenOrReleased(Exec(steps).db, ReleasedBy(steps), w);
  }

  /** A released transfer is owed until it posts. */
  lemma SplitReleased(db: Db, released: set<nat>, w: nat)
    ensures Owed(db, w) - Released(db, released, w) == Open(db, released, w) - ReleasedThenPosted(db, released, w)
  {
    SplitPointwise(|db.transfers|, OwedAt(db, w), ReleasedAt(db, released, w),
                   OpenAt(db, released, w), ReleasedThenPostedAt(db, released, w));
  }

  lemma {:induction false} SplitPointwise(n: nat, a: nat -> int, b: nat -> int, c: nat -> int, d: nat -> int)
    requires forall t: nat | t < n :: a(t) - b(t) == c(t) - d(t)
    ensures Sum(n, a) - Sum(n, b) == Sum(n, c) - Sum(n, d)
  {
    if n == 0 {
    } else {
      SplitPointwise(n - 1, a, b, c, d);
    }
  }

  predicate IsSplitCommit(step: Step) {
    step.Api? && step.db.Commit?
  }

  lemma OnlySplitCommitsMiss(s: State, step: Step, w: nat)
    requires !IsSplitCommit(step) && DbEffect(s, step).Some?
    ensures SlackAfter(s.db, DbEffect(s, step).value, w, 0) == 0
  {
  }

  /** A run in which every creation is taken as one snapshot misses no debit. */
  lemma {:induction false} SnapshotsMissNothing(steps: seq<Step>, w: nat)
    requires forall step | step in steps :: !IsSplitCommit(step)
    ensures SlackOf(steps, w) == 0
  {
    if steps == [] {
    } else {
      var before, step := steps[..|steps| - 1], steps[|steps| - 1];
      assert step in steps;
      SnapshotsMissNothing(before, w);
      if DbEffect(Exec(before), step).Some? { OnlySplitCommitsMiss(Exec(before), step, w); }
    }
  }

  // ---- Split reads ------------------------------------------------------------------------

  /** However settlement interleaves with the three reads, at commit the computed availability
      exceeds the balance less the open promises by no more than the debits that posted since
      the debit read. */
  lemma SplitReadsOverestimateByMissedDebits(steps: seq<Step>, w: nat)
    requires w != SYSTEM_WALLET && Commits(Exec(steps).db, w)
    ensures var db, tx := Exec(steps).db, Exec(steps).db.locks[w];
            tx.credits.value - tx.debits.value - tx.reserved.value
            <= ComputeBalance(db, None, w) - Open(db, ReleasedBy(steps), w)
               + (Debits(db, None, w) - tx.debits.value)
            && Debits(db, None, w) >= tx.debits.value
  {
    RunIsCovered(steps, w);
  }

  // ---- Reservations -----------------------------------------------------------------------

  /** Posted, but its status does not say so yet. */
  ghost function LaggingAt(db: Db, w: nat): nat -> int {
    (t: nat) =>
      if t < |db.transfers| && db.transfers[t].order.walletFrom == w && Posted(db, t)
         && (db.transfers[t].status == INITIATED || db.transfers[t].status == PROCESSING)
      then db.transfers[t].order.fromAmount else 0
  }

  /** Given up, and not posted so far. */
  ghost function GivenUpAt(db: Db, w: nat): nat -> int {
    (t: nat) =>
      if t < |db.transfers| && db.transfers[t].order.walletFrom == w && !Posted(db, t)
         && db.transfers[t].status == Status.FAILED
      then db.transfers[t].order.fromAmount else 0
  }

  /** What is reserved is what is owed, except that a settlement between its pair and its status
      is counted twice and a transfer that was given up is not counted. */
  lemma ReservationsAreOwedUpToLag(steps: seq<Step>, w: nat)
    requires w < |Exec(steps).db.wallets| && w != SYSTEM_WALLET
    ensures var db := Exec(steps).db;
            ComputePendingOutgoing(db, Some(db.wallets[w].tenant), w)
            == Owed(db, w) + Sum(|db.transfers|, LaggingAt(db, w)) - Sum(|db.transfers|, GivenUpAt(db, w))
  {
    hide Exec;
    var db := Exec(steps).db;
    RunKeepsInv(steps);
    TenantFilterIsTransparent(steps, w);
    forall t: nat | t < |db.transfers|
      ensures ReservedAt(db, None, w)(t) - OwedAt(db, w)(t) == LaggingAt(db, w)(t) - GivenUpAt(db, w)(t)
    {
      assert SoundTransfer(db, t);
    }
    SplitPointwise(|db.transfers|, ReservedAt(db, None, w), OwedAt(db, w), LaggingAt(db, w), GivenUpAt(db, w));
  }

  /** A transfer is refused for funds if and only if the wallet could not pay it with all the others
      that it owes, those in between their pair and their status counted twice and those given up
      left out. With neither, it is refused exactly when it cannot be paid with all others. */
  lemma RefusedIffNotPayable(steps: seq<Step>, w: nat, o: Order)
    requires w < |Exec(steps).db.wallets| && w != SYSTEM_WALLET
    requires o.walletFrom == w && o.tenant == Exec(steps).db.wallets[w].tenant
    ensures var db := Exec(steps).db;
            var lagging, givenUp := Sum(|db.transfers|, LaggingAt(db, w)), Sum(|db.transfers|, GivenUpAt(db, w));
            && lagging >= 0 && givenUp >= 0
            && (Covers(db, o) <==>
                  ComputeBalance(db, None, w) - Owed(db, w) - lagging + givenUp >= o.fromAmount)
            && (lagging == 0 && givenUp == 0 ==>
                  (Covers(db, o) <==> ComputeBalance(db, None, w) - Owed(db, w) >= o.fromAmount))
  {
    hide Exec, ComputeBalance, Owed, ComputePendingOutgoing;
    var db := Exec(steps).db;
    ReservationsAreOwedUpToLag(steps, w);
    TenantFilterIsTransparent(steps, w);
    SumNonNegative(|db.transfers|, LaggingAt(db, w));
    SumNonNegative(|db.transfers|, GivenUpAt(db, w));
  }

  // ---- Posting ----------------------------------------------------------------------------

  /** At most once: no rows, or exactly the pair that the transfer row prescribes. */
  lemma PostedAtMostOnce(steps: seq<Step>, t: nat)
    requires t < |Exec(steps).db.transfers|
    ensures var db := Exec(steps).db;
            if Posted(db, t) then RowsOf(db.journal, t) == PairOf(db, t) else RowsOf(db.journal, t) == []
  {
    RunKeepsInv(steps);
    assert SoundTransfer(Exec(steps).db, t);
    RowsAreMembers(Exec(steps).db.journal, t);
  }

  /** COMPLETED, or a message that reports it anywhere, means both rows exist: in the queue of
      transfer.completed, fallen over into settlement's queues, dead-lettered, persisted, replayed. */
  lemma CompletedMeansPosted(steps: seq<Step>, t: nat)
    requires var s := Exec(steps);
             || (t < |s.db.transfers| && s.db.transfers[t].status == COMPLETED)
             || (exists i :: 0 <= i < |s.tokens| && s.tokens[i].msg.payload.transferId == t
                             && (s.tokens[i].msg.status == COMPLETED || s.tokens[i].place == CompletedQueue))
             || (exists e :: 0 <= e < |s.dlq| && s.dlq[e].payload.transferId == t && s.dlq[e].status == COMPLETED)
    ensures var db := Exec(steps).db;
            t < |db.transfers| && RowsOf(db.journal, t) == PairOf(db, t)
  {
    hide Exec;
    var s := Exec(steps);
    RunKeepsInv(steps);
    if t < |s.db.transfers| && s.db.transfers[t].status == COMPLETED {
      assert SoundTransfer(s.db, t);
    } else if exists i :: 0 <= i < |s.tokens| && s.tokens[i].msg.payload.transferId == t
                          && (s.tokens[i].msg.status == COMPLETED || s.tokens[i].place == CompletedQueue) {
      var i :| 0 <= i < |s.tokens| && s.tokens[i].msg.payload.transferId == t
               && (s.tokens[i].msg.status == COMPLETED || s.tokens[i].place == CompletedQueue);
      assert Wellformed(s.db, s.tokens[i]);
    } else {
      var e :| 0 <= e < |s.dlq| && s.dlq[e].payload.transferId == t && s.dlq[e].status == COMPLETED;
      assert SoundEvent(s.db, s.dlq[e]);
    }
    PostedAtMostOnce(steps, t);
  }

  // ---- Double entry -----------------------------------------------------------------------

  /** Two runs that created the same transfers and posted the same ones, in any order, agree on
      every balance and on the rows of the journal. */
  lemma BalancesDependOnPostingsOnly(run: seq<Step>, other: seq<Step>)
    requires DoubleEntry.SamePostings(Exec(run).db, Exec(other).db)
    ensures multiset(Exec(run).db.journal) == multiset(Exec(other).db.journal)
    ensures forall w: nat :: ComputeBalance(Exec(run).db, None, w) == ComputeBalance(Exec(other).db, None, w)
  {
    RunKeepsInv(run);
    RunKeepsInv(other);
    DoubleEntry.PostingOrderIsIrrelevant(Exec(run).db, Exec(other).db);
  }

  lemma CurrencyNetsToExchanges(steps: seq<Step>, c: Money.Currency)
    ensures var db := Exec(steps).db;
            && SeqSum(db.journal, DoubleEntry.InCurrency(c))
               == Sum(|db.transfers|, DoubleEntry.NetIssueAt(db, c))
            && (DoubleEntry.ExchangesNone(db, c) ==> SeqSum(db.journal, DoubleEntry.InCurrency(c)) == 0)
  {
    RunKeepsInv(steps);
    DoubleEntry.CurrencyIsConserved(Exec(steps).db, c);
  }

  // ---- Tenants ----------------------------------------------------------------------------

  /** The tenant filter of every balance and reservation query hides no row of the wallet. */
  lemma TenantFilterIsTransparent(steps: seq<Step>, w: nat)
    requires w < |Exec(steps).db.wallets| && w != SYSTEM_WALLET
    ensures var db := Exec(steps).db;
            var own := Some(db.wallets[w].tenant);
            && ComputeBalance(db, own, w) == ComputeBalance(db, None, w)
            && ComputePendingOutgoing(db, own, w) == ComputePendingOutgoing(db, None, w)
            && (forall e | e in db.journal && e.walletId == w ::
                  e.tenant == own.value && e.currency == db.wallets[w].currency)
  {
    var db := Exec(steps).db;
    RunKeepsInv(steps);
    ScopeIsTransparent(db, w);
    forall e | e in db.journal && e.walletId == w
      ensures e.tenant == db.wallets[w].tenant && e.currency == db.wallets[w].currency
    {
      EntryIsItsTransfers(db, e);
      assert SoundTransfer(db, e.transferId);
    }
  }
}
