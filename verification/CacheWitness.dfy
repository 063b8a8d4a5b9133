/** A balance that is served although no state of the run ever had it. */
module CacheWitness {
  import opened Options
  import opened Sums
  import opened LedgerDb
  import opened Settlement
  import opened StepFacts
  import opened Solvency
  import opened Guarantees
  import opened NoOverdraft
  import opened BalanceCache
  import opened Scenarios
  import Witnesses

  // ---- Settlement seen from the world -----------------------------------------------------

  function Settlements(steps: seq<Step>): (events: seq<Event>)
    ensures |events| == |steps| && forall i | 0 <= i < |steps| :: events[i] == Settle(steps[i])
  {
    seq(|steps|, i requires 0 <= i < |steps| => Settle(steps[i]))
  }

  predicate AllSmooth(events: seq<Event>) {
    forall i | 0 <= i < |events| && events[i].Settle? :: Smooth(events[i].step)
  }

  function StepsOf(events: seq<Event>): seq<Step> {
    if events == [] then []
    else
      var before, e := StepsOf(events[..|events| - 1]), events[|events| - 1];
      if e.Settle? then before + [e.step] else before
  }

  lemma ExecSnoc(before: seq<Step>, step: Step)
    ensures Exec(before + [step]) == Next(Exec(before), step)
  {
    assert (before + [step])[..|before|] == before;
  }

  lemma LedgerAfter(c: World, e: Event)
    ensures Happen(c, e).ledger == if e.Settle? then Next(c.ledger, e.step) else c.ledger
    ensures e.Settle? ==> Happen(c, e).fills == c.fills && Happen(c, e).cache == c.cache && Happen(c, e).clock == c.clock
  {
    hide Next;
  }

  lemma {:induction false} LedgerIsRun(events: seq<Event>)
    requires AllSmooth(events)
    ensures History(events).ledger == Exec(StepsOf(events)) && AllAre(Smooth, StepsOf(events))
  {
    hide Next, Happen;
    if events == [] {
    } else {
      var before, e := events[..|events| - 1], events[|events| - 1];
      LedgerIsRun(before);
      LedgerAfter(History(before), e);
      if e.Settle? { ExecSnoc(StepsOf(before), e.step); }
    }
  }

  /** Settling steps moves the ledger and nothing that a fill looks at. */
  lemma {:induction false} SettleAll(events: seq<Event>, steps: seq<Step>)
    ensures var c, d := History(events), History(events + Settlements(steps));
            d.ledger == RunFrom(c.ledger, steps) && d.fills == c.fills && d.cache == c.cache && d.clock == c.clock
    decreases |steps|
  {
    hide Next, Happen;
    if steps == [] {
      assert events + Settlements(steps) == events;
    } else {
      hide History, RunFrom;
      var before, step := steps[..|steps| - 1], steps[|steps| - 1];
      SettleAll(events, before);
      assert events + Settlements(steps) == (events + Settlements(before)) + [Settle(step)];
      HistorySnoc(events + Settlements(before), Settle(step));
      LedgerAfter(History(events + Settlements(before)), Settle(step));
      assert steps == before + [step];
      RunSnoc(History(events).ledger, before, step);
    }
  }

  // ---- No state has a negative balance ----------------------------------------------------

  lemma ScopedIsWholeOrNothing(db: Db, w: nat, tenant: nat)
    requires Sound(db) && w != SYSTEM_WALLET
    ensures ComputeBalance(db, Some(tenant), w) == ComputeBalance(db, None, w) || ComputeBalance(db, Some(tenant), w) == 0
  {
    if w < |db.wallets| && db.wallets[w].tenant == tenant {
      ScopeIsTransparent(db, w);
    } else {
      forall e | e in db.journal ensures e.walletId != w || e.tenant != tenant {
        EntryIsItsTransfers(db, e);
        assert SoundTransfer(db, e.transferId);
      }
      SeqSumZero(db.journal, EntryAmount(Some(tenant), w, CREDIT));
      SeqSumZero(db.journal, EntryAmount(Some(tenant), w, DEBIT));
    }
  }

  lemma SmoothRunsAreSolvent(steps: seq<Step>, w: nat, tenant: nat)
    requires AllAre(Smooth, steps) && w != SYSTEM_WALLET
    ensures ComputeBalance(Exec(steps).db, Some(tenant), w) >= 0
  {
    hide Exec, Calm, ComputeBalance;
    assert AllAre(Faultless, steps);
    FaultlessRunsAreCalm(steps);
    forall step | step in steps ensures !IsSplitCommit(step) {
      var i :| 0 <= i < |steps| && steps[i] == step;
      assert Smooth(steps[i]);
    }
    CalmRunsNeverOverdraw(steps, w);
    RunKeepsInv(steps);
    ScopedIsWholeOrNothing(Exec(steps).db, w, tenant);
  }

  lemma NeverNegative(events: seq<Event>, n: nat, key: Key)
    requires AllSmooth(events) && n <= |events| && key.wallet != SYSTEM_WALLET
    ensures Balance(History(events[..n]), key) >= 0
  {
    hide History, Exec, StepsOf;
    LedgerIsRun(events[..n]);
    SmoothRunsAreSolvent(StepsOf(events[..n]), key.wallet, key.tenant);
  }

  // ---- The run ----------------------------------------------------------------------------

  /** Bob is paid, and pays it all back. */
  lemma ThereAndBack(amount: nat) returns (end: State)
    requires amount <= MAX_BIGINT
    ensures Leads(Smooth, Witnesses.Start(amount), end)
    ensures Debits(end.db, Some(1), BOB) == amount
  {
    hide Next, Leads, Apply, Witnesses.Start;
    var start := Witnesses.Start(amount);
    var paid := BobIsPaid(amount);
    Witnesses.Starts(amount);
    Then(Smooth, INIT, start, paid);
    end := BobPaysBack(paid, amount);
    Then(Smooth, start, paid, end);
  }

  lemma BobIsPaid(amount: nat) returns (paid: State)
    requires amount <= MAX_BIGINT
    ensures Leads(Smooth, Witnesses.Start(amount), paid) && Spendable(paid.db, BOB, amount)
    ensures paid.worker.Idle? && PendingRows(paid.db.outbox) == [] && |paid.db.transfers| == 2
    ensures Debits(paid.db, Some(1), BOB) == 0 && !Posted(paid.db, 2)
  {
    hide Next, Leads, Apply;
    var start := Witnesses.Start(amount);
    Funds(amount);
    Witnesses.Starts(amount);
    ReachableInv(Smooth, start);
    paid := Settles(start, 0, 1, ALICE, amount);
    SettlementPosts(start.db, 1, ALICE, amount);
    BobCanSpend(start, paid, amount);
  }

  lemma BobPaysBack(paid: State, amount: nat) returns (end: State)
    requires Leads(Smooth, INIT, paid) && Spendable(paid.db, BOB, amount) && amount <= MAX_BIGINT
    requires paid.worker.Idle? && PendingRows(paid.db.outbox) == [] && |paid.db.transfers| == 2
    requires Debits(paid.db, Some(1), BOB) == 0 && !Posted(paid.db, 2)
    ensures Leads(Smooth, paid, end) && Debits(end.db, Some(1), BOB) == amount
  {
    hide Next, Leads, Apply, PendingRows;
    var back := Paid(paid, BOB, amount);
    Pays(paid, BOB, amount);
    Then(Smooth, INIT, paid, back);
    ReachableInv(Smooth, back);
    end := Settles(back, |paid.tokens|, 2, BOB, amount);
    SettlementPosts(back.db, 2, BOB, amount);
    Then(Smooth, paid, back, end);
  }

  lemma BobCanSpend(start: State, paid: State, amount: nat)
    requires start == Witnesses.Start(amount)
    requires paid.db == SetStatus(AppendPair(start.db, 1, Payload(1, Payment(ALICE, amount))), 1, COMPLETED)
    requires ComputeBalance(paid.db, None, BOB) == amount && ComputeBalance(paid.db, Some(1), BOB) == amount
    requires |Funded(amount).transfers| == 1 && Funded(amount).transfers[0].order.walletFrom == SYSTEM_WALLET
    ensures Spendable(paid.db, BOB, amount) && paid.db.outbox == start.db.outbox && |paid.db.transfers| == 2
  {
    hide ComputeBalance;
  }

  /** Reads Bob's credits before he is paid and his debits after he has paid back. */
  lemma ReadsAcross(before: seq<Event>, steps: seq<Step>, key: Key) returns (events: seq<Event>)
    requires History(before).fills == [] && Lookup(History(before), key).None?
    ensures var c := History(events);
            Served(c, FillStores(0))
            == Some((key, SumOf(History(before), key, CREDIT)
                          - SumIn(RunFrom(History(before).ledger, steps).db.journal, key, DEBIT)))
    ensures events == before + [FillStarts(key), FillReadsCredits(0)] + Settlements(steps) + [FillReadsDebits(0)]
  {
    hide RunFrom, Next;
    var c := History(before);
    HistorySnoc(before, FillStarts(key));
    var started := before + [FillStarts(key)];
    HistorySnoc(started, FillReadsCredits(0));
    var half := started + [FillReadsCredits(0)];
    SettleAll(half, steps);
    var across := half + Settlements(steps);
    HistorySnoc(across, FillReadsDebits(0));
    events := across + [FillReadsDebits(0)];
    assert half == before + [FillStarts(key), FillReadsCredits(0)];
  }

  /** The two aggregates are two statements: with a payment received and one made between them, a
      caller is told a negative balance, though in no state of the run was it negative. Nothing
      fails, nothing is repeated, and no funds are spent twice. */
  lemma ServedBalanceMayNeverHaveBeen(amount: nat)
    requires 0 < amount <= MAX_BIGINT
    ensures exists events, e ::
              && AllSmooth(events)
              && Served(History(events), e) == Some((Key(1, BOB), 0 - amount))
              && forall n: nat | n <= |events| :: Balance(History(events[..n]), Key(1, BOB)) >= 0
  {
    hide Next, Leads, Exec, RunFrom, History, Served, Balance;
    var start, key := Witnesses.Start(amount), Key(1, BOB);
    Witnesses.Starts(amount);
    var steps0 := Executes(Smooth, start);
    var end := ThereAndBack(amount);
    var steps := Follows(start, end);
    var before := Settlements(steps0);
    StartsEmpty(steps0);
    Funds(amount);
    var events := ReadsAcross(before, steps, key);
    assert AllSmooth(events);
    forall n: nat | n <= |events| ensures Balance(History(events[..n]), key) >= 0 { NeverNegative(events, n, key); }
    assert Served(History(events), FillStores(0)) == Some((key, 0 - amount));
  }

  lemma Follows(a: State, b: State) returns (steps: seq<Step>)
    requires Leads(Smooth, a, b)
    ensures AllAre(Smooth, steps) && RunFrom(a, steps) == b
  {
    hide RunFrom;
    steps :| AllAre(Smooth, steps) && RunFrom(a, steps) == b;
  }

  lemma StartsEmpty(steps: seq<Step>)
    ensures var c := History(Settlements(steps));
            c.ledger == Exec(steps) && c.fills == [] && c.cache == map[]
  {
    hide Next, RunFrom, Exec;
    SettleAll([], steps);
    assert [] + Settlements(steps) == Settlements(steps);
    ExecIsRunFromInit(steps);
  }
}
