/** Runs that show where a guarantee ends, and one that shows a proviso can be met. */
module Witnesses {
  import opened Options
  import opened Sums
  import opened LedgerDb
  import opened Settlement
  import opened StepFacts
  import opened Solvency
  import opened Guarantees
  import opened Tracking
  import opened Promises
  import opened NoOverdraft
  import opened Funding
  import opened NoLoss
  import opened CoveredReplays
  import opened Fates
  import opened Scenarios

  /** Alice has been topped up and has paid it all to Bob; the message waits. */
  function Start(amount: nat): State {
    Paid(INIT.(db := Funded(amount)), ALICE, amount)
  }

  lemma Starts(amount: nat)
    requires amount <= MAX_BIGINT
    ensures Leads(Smooth, INIT, Start(amount)) && PendingRows(Start(amount).db.outbox) == []
    ensures forall t: nat :: Posted(Start(amount).db, t) <==> t == 0
    ensures ComputeBalance(Start(amount).db, None, ALICE) == amount
    ensures ComputeBalance(Start(amount).db, None, BOB) == 0 && ComputeBalance(Start(amount).db, Some(1), BOB) == 0
  {
    hide Leads, Next;
    var funded := INIT.(db := Funded(amount));
    Funds(amount);
    Pays(funded, ALICE, amount);
    Then(Smooth, INIT, funded, Start(amount));
  }

  // ---- A replay overdraws -----------------------------------------------------------------

  /** Alice's payment has failed for good; her funds are free again. */
  lemma FirstDies(amount: nat) returns (s: State)
    requires amount <= MAX_BIGINT
    ensures Leads(Unduplicated, INIT, s) && Spendable(s.db, ALICE, amount) && s.worker.Idle? && s.replays == []
    ensures PendingRows(s.db.outbox) == [] && |s.db.transfers| == 2 && !Posted(s.db, 1) && !Posted(s.db, 2)
    ensures s.dlq == [DlqRow(Payload(1, Payment(ALICE, amount)), 1, INITIATED, false)]
    ensures s.db.transfers[1].order == Payment(ALICE, amount) && s.db.transfers[1].status == Status.FAILED
    ensures s.db.transfers[0].order.walletFrom == SYSTEM_WALLET
  {
    hide Next, Leads;
    var start, m := Start(amount), Message(Payload(1, Payment(ALICE, amount)), 1, 0, INITIATED);
    Funds(amount);
    Starts(amount);
    Loosens(Smooth, Unduplicated, INIT, start);
    DiesAndPersists(start, m);
    var letter := Persisted(m.(retryCount := MAX_RETRIES));
    s := Buried(start, 0).(dlq := [letter]);
    assert start.dlq + [letter] == [letter];
    Then(Unduplicated, INIT, start, s);
  }

  lemma PaidPostsNothing(s: State, amount: nat)
    ensures forall t: nat :: Posted(Paid(s, ALICE, amount).db, t) <==> Posted(s.db, t)
    ensures ComputeBalance(Paid(s, ALICE, amount).db, None, ALICE) == ComputeBalance(s.db, None, ALICE)
    ensures Paid(s, ALICE, amount).dlq == s.dlq
  {
  }

  /** The second payment, from the same funds, settles. */
  lemma SecondSettles(s: State, amount: nat) returns (end: State)
    requires Leads(Unrepeated, INIT, s) && Spendable(s.db, ALICE, amount) && amount <= MAX_BIGINT && s.worker.Idle?
    requires PendingRows(s.db.outbox) == [] && |s.db.transfers| == 2 && !Posted(s.db, 1) && !Posted(s.db, 2)
    ensures Leads(Unrepeated, INIT, end) && end.dlq == s.dlq && !Posted(end.db, 1)
    ensures ComputeBalance(end.db, None, ALICE) == 0
    ensures forall j: nat | j < |s.tokens| :: j < |end.tokens| && end.tokens[j] == s.tokens[j]
  {
    hide Next, Leads, Apply, PendingRows, Inv;
    var paid := Paid(s, ALICE, amount);
    Pays(s, ALICE, amount);
    Loosens(Smooth, Unrepeated, s, paid);
    Then(Unrepeated, INIT, s, paid);
    ReachableInv(Unrepeated, paid);
    end := Settles(paid, |s.tokens|, 2, ALICE, amount);
    SettlementPosts(paid.db, 2, ALICE, amount);
    PaidPostsNothing(s, amount);
    Loosens(Smooth, Unrepeated, paid, end);
    Then(Unrepeated, INIT, paid, end);
  }

  /** "No overdraft possible" does not survive a replay: whatever the amount, a run leads from
      the empty system to a balance of minus that amount. */
  lemma ReplaysOverdraw(amount: nat)
    requires amount <= MAX_BIGINT
    ensures exists steps :: ComputeBalance(Exec(steps).db, None, ALICE) == 0 - amount
  {
    hide Next, RunFrom;
    var first := FirstDies(amount);
    Loosens(Unduplicated, Unrepeated, INIT, first);
    var spent := SecondSettles(first, amount);
    ReachableInv(Unrepeated, spent);
    ReplayOverdrawsIffBalanceIsShort(spent, 0);
    var end := RunFrom(spent, ReplayScript(spent, 0));
    Loosens(Unrepeated, AnyStep, INIT, spent);
    Via(AnyStep, spent, ReplayScript(spent, 0));
    Then(AnyStep, INIT, spent, end);
    var steps := Executes(AnyStep, end);
  }

  // ---- A second publication overdraws -----------------------------------------------------

  /** The worker dies after publishing Alice's payment, the message fails for good, and the next
      flush publishes the row again. */
  lemma DiesBetweenPublications(amount: nat) returns (s: State)
    requires amount <= MAX_BIGINT
    ensures Leads(Unrepeated, INIT, s) && Spendable(s.db, ALICE, amount) && s.worker.Idle? && s.dlq == []
    ensures PendingRows(s.db.outbox) == [] && |s.db.transfers| == 2 && !Posted(s.db, 1) && !Posted(s.db, 2)
    ensures |s.tokens| == 4 && s.tokens[3] == Fresh(Payload(1, Payment(ALICE, amount)), 1)
  {
    hide Next, Leads;
    var funded, p := INIT.(db := Funded(amount)), Payload(1, Payment(ALICE, amount));
    Funds(amount);
    Accepts(funded, ALICE, amount);
    var created := funded.(db := Insert(funded.db, Payment(ALICE, amount)));
    Then(Smooth, INIT, funded, created);
    Loosens(Smooth, Unrepeated, INIT, created);
    FlushDies(created, 0);
    var once := created.(tokens := [Fresh(p, 1)]);
    assert created.tokens + [Fresh(p, 1)] == once.tokens;
    Then(Unrepeated, INIT, created, once);
    Dies(once, Message(p, 1, 0, INITIATED));
    var buried := Buried(once, 0);
    Loosens(Unduplicated, Unrepeated, once, buried);
    Then(Unrepeated, INIT, once, buried);
    Flushes(buried, 0);
    s := buried.(db := Apply(buried.db, MarkPublished(0)), tokens := buried.tokens + [Fresh(p, 1)]);
    Loosens(Smooth, Unrepeated, buried, s);
    Then(Unrepeated, INIT, buried, s);
    assert s.db.outbox == [OutboxRow(p, PUBLISHED, 0)];
    assert s.db.outbox[..0] == [];
  }

  /** Nor does it survive the republication that follows a worker's death: no replay, no
      redelivery, no second publisher and no divided creation is needed. */
  lemma RepublicationOverdraws(amount: nat)
    requires amount <= MAX_BIGINT
    ensures exists steps :: AllAre(Unrepeated, steps) && Exec(steps).dlq == []
                            && ComputeBalance(Exec(steps).db, None, ALICE) == 0 - amount
  {
    hide Next, Leads, Exec;
    var first := DiesBetweenPublications(amount);
    var spent := SecondSettles(first, amount);
    assert spent.tokens[3] == first.tokens[3];
    ReachableInv(Unrepeated, spent);
    var end := Settles(spent, 3, 1, ALICE, amount);
    SettlementPosts(spent.db, 1, ALICE, amount);
    Loosens(Smooth, Unrepeated, spent, end);
    Then(Unrepeated, INIT, spent, end);
    var steps := Executes(Unrepeated, end);
  }

  // ---- Three reads overdraw ---------------------------------------------------------------

  lemma FundsAreCredits(amount: nat)
    ensures Credits(Funded(amount), Some(1), ALICE) == amount && Debits(Funded(amount), Some(1), ALICE) == 0
  {
    PairMovesBalances(Opened(), Some(1), 1, Payload(0, TopUpOrder(Opened(), ALICE, amount)), ALICE);
  }

  /** A creation that has read what Alice was paid and what she has spent, and nothing more. */
  function HalfRead(amount: nat): map<nat, Tx> {
    map[ALICE := Tx(Payment(ALICE, amount), Some(amount), Some(0), None)]
  }

  lemma ReadsHalf(s: State, amount: nat)
    requires Admissible(s.db, Payment(ALICE, amount)) && s.db.locks == map[]
    requires Credits(s.db, Some(1), ALICE) == amount && Debits(s.db, Some(1), ALICE) == 0
    ensures Leads(Faultless, s, s.(db := s.db.(locks := HalfRead(amount))))
  {
    hide Next, Leads;
    var o := Payment(ALICE, amount);
    var begun := s.(db := s.db.(locks := map[ALICE := Tx(o, None, None, None)]));
    var once := s.(db := s.db.(locks := map[ALICE := Tx(o, Some(amount), None, None)]));
    var twice := s.(db := s.db.(locks := HalfRead(amount)));
    Requests(Faultless, s, Begin(o));
    Requests(Faultless, begun, ReadCredits(ALICE));
    assert Apply(begun.db, ReadCredits(ALICE)) == once.db;
    Requests(Faultless, once, ReadDebits(ALICE));
    assert Apply(once.db, ReadDebits(ALICE)) == twice.db;
    Then(Faultless, s, begun, once);
    Then(Faultless, s, once, twice);
  }

  /** What it reads of the reservations now, and its commit. */
  lemma CommitsBlindly(s: State, amount: nat)
    requires s.db.locks == HalfRead(amount)
    requires forall t: nat | t < |s.db.transfers| ::
               s.db.transfers[t].order.walletFrom != ALICE || s.db.transfers[t].status == COMPLETED
    ensures Leads(Faultless, s, s.(db := Insert(s.db, Payment(ALICE, amount)).(locks := map[])))
  {
    hide Next, Leads;
    var o := Payment(ALICE, amount);
    var ready := s.(db := s.db.(locks := map[ALICE := Tx(o, Some(amount), Some(0), Some(0))]));
    ZeroSum(|s.db.transfers|, ReservedAt(s.db, Some(1), ALICE));
    Requests(Faultless, s, ReadReserved(ALICE));
    assert Apply(s.db, ReadReserved(ALICE)) == ready.db;
    Requests(Faultless, ready, Commit(ALICE));
    CommitIs(ready.db, o);
    Then(Faultless, s, ready, s.(db := Insert(s.db, o).(locks := map[])));
  }

  lemma CommitIs(db: Db, o: Order)
    requires db.locks == map[ALICE := Tx(o, Some(o.fromAmount), Some(0), Some(0))]
    ensures Apply(db, Commit(ALICE)) == Insert(db, o).(locks := map[])
  {
    assert Commits(db, ALICE);
    assert Unlock(Insert(db, o), ALICE).locks == map[];
  }

  /** Alice's one transfer has settled while the second creation stood between its reads. */
  lemma SettlesInBetween(amount: nat) returns (s: State)
    requires amount <= MAX_BIGINT
    ensures Leads(Faultless, INIT, s) && s.db.locks == HalfRead(amount) && s.worker.Idle?
    ensures |s.tokens| == 2 && |s.db.transfers| == 2 && |s.db.outbox| == 1 && PendingRows(s.db.outbox) == []
    ensures forall t: nat | t < 2 ::
              s.db.transfers[t].order.walletFrom != ALICE || s.db.transfers[t].status == COMPLETED
    ensures ComputeBalance(s.db, None, ALICE) == 0 && !Posted(s.db, 2)
  {
    hide Next, Leads, Inv;
    var start := Start(amount);
    Funds(amount);
    Starts(amount);
    Loosens(Smooth, Faultless, INIT, start);
    FundsAreCredits(amount);
    ReadsHalf(start, amount);
    var half := start.(db := start.db.(locks := HalfRead(amount)));
    Then(Faultless, INIT, start, half);
    ReachableInv(Faultless, half);
    s := Settles(half, 0, 1, ALICE, amount);
    SettlementPosts(half.db, 1, ALICE, amount);
    Loosens(Smooth, Faultless, half, s);
    Then(Faultless, INIT, half, s);
  }

  /** The second transfer is created and published, too. */
  lemma SecondIsPublished(amount: nat) returns (s: State)
    requires amount <= MAX_BIGINT
    ensures Leads(Faultless, INIT, s) && At(s, 2, Work)
    ensures s.tokens[2].msg == Message(Payload(2, Payment(ALICE, amount)), 1, 0, INITIATED)
    ensures ComputeBalance(s.db, None, ALICE) == 0 && !Posted(s.db, 2)
  {
    hide Next, Leads;
    var o, p := Payment(ALICE, amount), Payload(2, Payment(ALICE, amount));
    var between := SettlesInBetween(amount);
    CommitsBlindly(between, amount);
    var created := between.(db := Insert(between.db, o).(locks := map[]));
    Then(Faultless, INIT, between, created);
    OnlyTheLastIsPending(between.db.outbox, p);
    Flushes(created, 1);
    s := created.(db := Apply(created.db, MarkPublished(1)), tokens := created.tokens + [Fresh(p, 1)]);
    Loosens(Smooth, Faultless, created, s);
    Then(Faultless, INIT, created, s);
  }

  /** The wallet's lock alone does not make the three reads one: without a fault, a replay or a
      second copy of any message, a settlement between the reads lets the same funds be spent
      twice, if the pair need not wait for the lock. */
  lemma SplitReadsOverdraw(amount: nat)
    requires amount <= MAX_BIGINT
    ensures exists steps :: AllAre(Faultless, steps) && Calm(steps)
                            && ComputeBalance(Exec(steps).db, None, ALICE) == 0 - amount
  {
    hide Next, Leads, Exec;
    var s := SecondIsPublished(amount);
    ReachableInv(Faultless, s);
    var end := Settles(s, 2, 2, ALICE, amount);
    SettlementPosts(s.db, 2, ALICE, amount);
    Loosens(Smooth, Faultless, s, end);
    Then(Faultless, INIT, s, end);
    var steps := Executes(Faultless, end);
    FaultlessRunsAreCalm(steps);
  }

  // ---- A transfer is lost -----------------------------------------------------------------

  lemma DyingIs(s: State, i: nat)
    requires At(s, i, Work)
    ensures RunFrom(s, [Deliver(i), HandlerError(i), HandlerDies(i)])
            == s.(tokens := s.tokens[i := Token(Gone, s.tokens[i].msg)])
  {
    hide Next;
    var m := s.tokens[i].msg;
    RunThree(s, Deliver(i), HandlerError(i), HandlerDies(i));
    DeliverIs(s, i);
    var received := s.(tokens := s.tokens[i := Token(Handling(Received), m)]);
    AttemptIs(received, i, HandlerError(i));
    var acked := s.(tokens := s.tokens[i := Token(Acked, m)]);
    assert received.tokens[i := Token(Acked, m)] == acked.tokens;
    AckedDeathIs(acked, i);
    assert acked.tokens[i := Token(Gone, m)] == s.tokens[i := Token(Gone, m)];
  }

  lemma AckedDeathIs(s: State, i: nat)
    requires At(s, i, Acked)
    ensures Next(s, HandlerDies(i)) == s.(tokens := s.tokens[i := Token(Gone, s.tokens[i].msg)])
  {
    OnlyMoves(s, HandlerDies(i), i, Token(Gone, s.tokens[i].msg));
  }

  /** One error and one crash after the ack lose a transfer: it stays INITIATED, its funds
      reserved, and no row, message or dead letter knows of it. */
  lemma TransfersAreLost(amount: nat)
    requires amount <= MAX_BIGINT
    ensures exists steps ::
              var s := Exec(steps);
              |s.db.transfers| == 2 && s.db.transfers[1] == Transfer(Payment(ALICE, amount), INITIATED)
              && !Posted(s.db, 1) && !Remembered(s, 1)
  {
    hide Next, RunFrom, Leads, Exec;
    var start := Start(amount);
    Funds(amount);
    Starts(amount);
    Loosens(Smooth, AnyStep, INIT, start);
    var death := [Deliver(0), HandlerError(0), HandlerDies(0)];
    DyingIs(start, 0);
    Via(AnyStep, start, death);
    var end := RunFrom(start, death);
    Then(AnyStep, INIT, start, end);
    assert !Remembered(end, 1);
    var steps := Executes(AnyStep, end);
  }

  // ---- A covered replay -------------------------------------------------------------------

  lemma UnduplicatedIsCareful(steps: seq<Step>, w: nat)
    requires AllAre(Unduplicated, steps)
    ensures Careful(steps, w)
  {
    hide Exec, WithdrawnBy, FundedStep;
    forall n | 0 <= n < |steps|
      ensures Tame(Exec(steps[..n]), WithdrawnBy(steps[..n]), steps[n])
              && FundedStep(Exec(steps[..n]), WithdrawnBy(steps[..n]), steps[n], w)
    {
      assert Unduplicated(steps[n]);
      OnlyCommitsNeedFunds(Exec(steps[..n]), WithdrawnBy(steps[..n]), steps[n], w);
    }
  }

  lemma CarefulSnoc(before: seq<Step>, step: Step, w: nat)
    requires Careful(before, w) && Tame(Exec(before), WithdrawnBy(before), step) && !IsSplitCommit(step)
    ensures Careful(before + [step], w)
    ensures WithdrawnBy(before + [step]) == WithdrawnAfter(Exec(before), WithdrawnBy(before), step)
    ensures Exec(before + [step]) == Next(Exec(before), step)
  {
    hide Tame, FundedStep, WithdrawnAfter, Next;
    var steps := before + [step];
    assert steps[..|before|] == before;
    OnlyCommitsNeedFunds(Exec(before), WithdrawnBy(before), step, w);
    forall n | 0 <= n < |steps|
      ensures Tame(Exec(steps[..n]), WithdrawnBy(steps[..n]), steps[n])
              && FundedStep(Exec(steps[..n]), WithdrawnBy(steps[..n]), steps[n], w)
    {
      if n < |before| { assert steps[..n] == before[..n] && steps[n] == before[n]; }
    }
  }

  /** Given up, with its amount still there: it can be promised again. */
  lemma GivenUpIsAffordable(db: Db, withdrawn: set<nat>, amount: nat)
    requires Keeps(db, withdrawn, ALICE) && Spendable(db, ALICE, amount) && |db.transfers| == 2
    requires db.transfers[0].order.walletFrom != ALICE && !Posted(db, 1)
    requires db.transfers[1].order == Payment(ALICE, amount) && db.transfers[1].status == Status.FAILED
    ensures Affordable(db, 1, withdrawn) && 1 in withdrawn
  {
    ZeroSum(2, OpenAt(db, withdrawn, ALICE));
  }

  lemma ArmingMovesNothing(s: State, k: nat, t: nat)
    requires k < |s.replays| && s.replays[k].Checked? && s.replays[k].event < |s.dlq|
    ensures Weight(Next(s, ReplayArms(k)), Acting, t) == Weight(s, Acting, t)
  {
    hide Next, TokensWeight, RowsWeight;
    ReplayArmsIs(s, k);
  }

  /** The careful runs are not only those without a replay: with the funds still there, the replay
      of a dead letter belongs to one. */
  lemma CoveredReplaysHappen(amount: nat)
    requires amount <= MAX_BIGINT
    ensures exists before, step :: Careful(before + [step], ALICE) && step.ReplaySends? && Duplicates(Exec(before), step)
  {
    hide Exec, Next, WithdrawnBy, Careful, Leads;
    var dead := FirstDies(amount);
    var b0 := Executes(Unduplicated, dead);
    UnduplicatedIsCareful(b0, ALICE);
    CarefulSnoc(b0, ReplayBegins(0), ALICE);
    ReplayBeginsIs(dead, 0);
    ReplayOfFreeFunds(b0 + [ReplayBegins(0)], amount);
  }

  /** From a checked replay on. */
  lemma ReplayOfFreeFunds(checked: seq<Step>, amount: nat)
    requires Careful(checked, ALICE)
    requires var s := Exec(checked);
             && s.replays == [Checked(0)] && |s.dlq| == 1 && s.dlq[0].payload.transferId == 1
             && Spendable(s.db, ALICE, amount) && |s.db.transfers| == 2
             && s.db.transfers[0].order.walletFrom != ALICE && !Posted(s.db, 1)
             && s.db.transfers[1].order == Payment(ALICE, amount) && s.db.transfers[1].status == Status.FAILED
    ensures Careful(checked + [ReplayArms(0)] + [ReplaySends(0)], ALICE)
    ensures Duplicates(Exec(checked + [ReplayArms(0)]), ReplaySends(0))
  {
    hide Exec, Next, WithdrawnBy, WithdrawnAfter, Careful, Keeps, Affordable, Spendable, Weight;
    var s := Exec(checked);
    CarefulRunsKeep(checked, ALICE);
    GivenUpIsAffordable(s.db, WithdrawnBy(checked), amount);
    CarefulRunsHaveSingleActors(checked, ALICE, 1);
    CarefulSnoc(checked, ReplayArms(0), ALICE);
    ReplayArmsIs(s, 0);
    ArmingMovesNothing(s, 0, 1);
    ArmedIsPromised(s, WithdrawnBy(checked));
    CarefulSnoc(checked + [ReplayArms(0)], ReplaySends(0), ALICE);
  }

  lemma ArmedIsPromised(s: State, withdrawn: set<nat>)
    requires |s.replays| == 1 && s.replays[0] == Checked(0) && |s.dlq| == 1 && s.dlq[0].payload.transferId == 1
    requires Affordable(s.db, 1, withdrawn)
    ensures 1 !in WithdrawnAfter(s, withdrawn, ReplayArms(0))
  {
    hide Affordable;
  }
}
