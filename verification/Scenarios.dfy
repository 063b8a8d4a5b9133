/** Runs put together from requests, flushes and deliveries, and from messages that fail for good:
    the material of the runs that show where a guarantee ends. */
module Scenarios {
  import opened Options
  import Money
  import opened Sums
  import opened LedgerDb
  import opened Settlement
  import opened Guarantees
  import opened StepFacts
  import opened NoOverdraft
  import opened Funding
  import opened Fates

  const ALICE: nat := 1
  const BOB: nat := 2

  // ---- Kinds of runs ----------------------------------------------------------------------

  predicate AnyStep(step: Step) {
    true
  }

  /** Requests, flushes and handlers that work: nothing fails, dies, is repeated or replayed. */
  predicate Faultless(step: Step) {
    step.Api? || step.FlushBegins? || step.Publish? || step.MarkHeadPublished? || step.FlushEnds?
    || step.Deliver? || step.WritePair? || step.Stamp? || step.Finish? || step.ConsumeCompleted?
  }

  /** And every creation taken as one snapshot. */
  predicate Smooth(step: Step) {
    Faultless(step) && !IsSplitCommit(step)
  }

  /** Creations as snapshots, one publisher, no redelivery and no replay; but handlers fail and
      processes die. */
  predicate Unrepeated(step: Step) {
    && !IsSplitCommit(step) && !step.Redeliver? && !step.DuplicatePublish?
    && !step.ReplayBegins? && !step.ReplayArms? && !step.ReplaySends? && !step.ReplayStamps? && !step.ReplayDies?
  }

  /** And no process dies between publishing a row and marking it. */
  predicate Unduplicated(step: Step) {
    Unrepeated(step) && !step.WorkerDies? && !step.FlushAborts?
  }

  predicate AllAre(ok: Step -> bool, steps: seq<Step>) {
    forall i | 0 <= i < |steps| :: ok(steps[i])
  }

  /** A run of such steps leads from a to b. */
  ghost predicate Leads(ok: Step -> bool, a: State, b: State) {
    exists steps :: AllAre(ok, steps) && RunFrom(a, steps) == b
  }

  lemma Via(ok: Step -> bool, a: State, steps: seq<Step>)
    requires AllAre(ok, steps)
    ensures Leads(ok, a, RunFrom(a, steps))
  {
    hide RunFrom;
  }

  lemma Then(ok: Step -> bool, a: State, b: State, c: State)
    requires Leads(ok, a, b) && Leads(ok, b, c)
    ensures Leads(ok, a, c)
  {
    hide Next;
    var first :| AllAre(ok, first) && RunFrom(a, first) == b;
    var second :| AllAre(ok, second) && RunFrom(b, second) == c;
    RunAppend(a, first, second);
    Via(ok, a, first + second);
  }

  lemma Loosens(ok: Step -> bool, wider: Step -> bool, a: State, b: State)
    requires Leads(ok, a, b) && forall step :: ok(step) ==> wider(step)
    ensures Leads(wider, a, b)
  {
    hide RunFrom;
    var steps :| AllAre(ok, steps) && RunFrom(a, steps) == b;
    assert AllAre(wider, steps);
  }

  lemma Executes(ok: Step -> bool, s: State) returns (steps: seq<Step>)
    requires Leads(ok, INIT, s)
    ensures AllAre(ok, steps) && Exec(steps) == s
  {
    hide RunFrom;
    steps :| AllAre(ok, steps) && RunFrom(INIT, steps) == s;
    ExecIsRunFromInit(steps);
  }

  lemma ReachableInv(ok: Step -> bool, s: State)
    requires Leads(ok, INIT, s)
    ensures Inv(s)
  {
    hide Inv, Exec;
    var steps := Executes(ok, s);
    RunKeepsInv(steps);
  }

  /** A faultless run duplicates nothing. */
  lemma {:induction false} FaultlessRunsAreCalm(steps: seq<Step>)
    requires AllAre(Faultless, steps)
    ensures Calm(steps)
  {
    hide Exec;
    if steps == [] {
    } else {
      var before := steps[..|steps| - 1];
      assert AllAre(Faultless, before);
      FaultlessRunsAreCalm(before);
      assert Faultless(steps[|steps| - 1]);
    }
  }

  // ---- The parts of a run -----------------------------------------------------------------

  lemma Requests(ok: Step -> bool, s: State, d: DbStep)
    requires IsApi(d) && ok(Api(d))
    ensures Leads(ok, s, s.(db := Apply(s.db, d)))
  {
    assert s.tokens + [] == s.tokens;
    assert Next(s, Api(d)) == s.(db := Apply(s.db, d));
    RunOne(s, Api(d));
    Via(ok, s, [Api(d)]);
  }

  lemma Publishes(s: State, r: nat)
    requires s.worker.Idle? && r < |s.db.outbox| && PendingBatch(s.db.outbox) == [r]
    ensures var p := s.db.outbox[r].payload;
            Leads(Smooth, s, s.(worker := Busy([r], Sent), tokens := s.tokens + [Fresh(p, p.order.tenant)]))
  {
    WorkerOnly(s, FlushBegins);
    assert [r] + [] == [r];
    PublishIs(s.(worker := Busy([r], Unsent)), r, []);
    RunTwo(s, FlushBegins, Publish);
    Via(Smooth, s, [FlushBegins, Publish]);
  }

  lemma Marks(s: State, r: nat)
    requires s.worker == Busy([r], Sent)
    ensures Leads(Smooth, s, s.(db := Apply(s.db, MarkPublished(r)), worker := Idle))
  {
    assert [r] + [] == [r];
    MarkHeadPublishedIs(s, r, []);
    WorkerOnly(s.(db := Apply(s.db, MarkPublished(r)), worker := Busy([], Unsent)), FlushEnds);
    RunTwo(s, MarkHeadPublished, FlushEnds);
    Via(Smooth, s, [MarkHeadPublished, FlushEnds]);
  }

  /** One undisturbed flush of the only pending row. */
  lemma Flushes(s: State, r: nat)
    requires s.worker.Idle? && r < |s.db.outbox| && PendingBatch(s.db.outbox) == [r]
    ensures var p := s.db.outbox[r].payload;
            Leads(Smooth, s, s.(db := Apply(s.db, MarkPublished(r)),
                                tokens := s.tokens + [Fresh(p, p.order.tenant)]))
  {
    hide Leads, Next;
    var p := s.db.outbox[r].payload;
    var sent := s.(worker := Busy([r], Sent), tokens := s.tokens + [Fresh(p, p.order.tenant)]);
    Publishes(s, r);
    Marks(sent, r);
    Then(Smooth, s, sent, sent.(db := Apply(s.db, MarkPublished(r)), worker := Idle));
  }

  /** A flush that dies between publishing its row and marking it. */
  lemma FlushDies(s: State, r: nat)
    requires s.worker.Idle? && r < |s.db.outbox| && PendingBatch(s.db.outbox) == [r]
    ensures var p := s.db.outbox[r].payload;
            Leads(Unrepeated, s, s.(tokens := s.tokens + [Fresh(p, p.order.tenant)]))
  {
    var p := s.db.outbox[r].payload;
    var sent := s.(worker := Busy([r], Sent), tokens := s.tokens + [Fresh(p, p.order.tenant)]);
    Publishes(s, r);
    Loosens(Smooth, Unrepeated, s, sent);
    WorkerDeathIs(sent);
    RunOne(sent, WorkerDies);
    Via(Unrepeated, sent, [WorkerDies]);
    Then(Unrepeated, s, sent, sent.(worker := Idle));
  }

  lemma WorkerDeathIs(s: State)
    ensures Next(s, WorkerDies) == s.(worker := Idle)
  {
    assert s.tokens + [] == s.tokens;
  }

  lemma Persists(s: State, i: nat)
    requires At(s, i, Dead)
    ensures Leads(Unduplicated, s, s.(dlq := s.dlq + [Persisted(s.tokens[i].msg)]))
  {
    assert s.tokens + [] == s.tokens;
    assert Next(s, Persist(i)) == s.(dlq := s.dlq + [Persisted(s.tokens[i].msg)]);
    RunOne(s, Persist(i));
    Via(Unduplicated, s, [Persist(i)]);
  }

  lemma {:induction false} BouncesAreUnduplicated(i: nat, attempt: Step, retriesLeft: nat)
    requires Unduplicated(attempt)
    ensures AllAre(Unduplicated, Bounces(i, attempt, retriesLeft))
  {
    if retriesLeft == 0 {
    } else {
      BouncesAreUnduplicated(i, attempt, retriesLeft - 1);
    }
  }

  /** A message at the end of the bag fails for good. */
  lemma Dies(s: State, m: Message)
    requires |s.tokens| > 0 && s.tokens[|s.tokens| - 1] == Token(Work, m) && m.retryCount == 0
    ensures Leads(Unduplicated, s, Buried(s, |s.tokens| - 1))
  {
    hide Next;
    var i := |s.tokens| - 1;
    FailingMessageIsBuried(s, i, HandlerError(i));
    BouncesAreUnduplicated(i, HandlerError(i), MAX_RETRIES);
    Via(Unduplicated, s, Bounces(i, HandlerError(i), MAX_RETRIES));
  }

  /** And its dead letter is persisted. */
  lemma DiesAndPersists(s: State, m: Message)
    requires |s.tokens| > 0 && s.tokens[|s.tokens| - 1] == Token(Work, m) && m.retryCount == 0
    ensures var i := |s.tokens| - 1;
            Leads(Unduplicated, s,
                  Buried(s, i).(dlq := s.dlq + [Persisted(m.(retryCount := MAX_RETRIES))]))
  {
    hide Leads;
    var i := |s.tokens| - 1;
    Dies(s, m);
    Persists(Buried(s, i), i + 1);
    Then(Unduplicated, s, Buried(s, i), Buried(s, i).(dlq := s.dlq + [Persisted(m.(retryCount := MAX_RETRIES))]));
  }

  // ---- Payments ---------------------------------------------------------------------------

  function Other(payer: nat): nat {
    if payer == ALICE then BOB else ALICE
  }

  /** From Alice to Bob or the other way round. */
  function Payment(payer: nat, amount: nat): Order {
    Order(1, payer, Other(payer), amount, amount, Money.USD, Money.USD, Money.ONE)
  }

  function Opened(): Db {
    EMPTY.(wallets := [Wallet(0, Money.USD), Wallet(1, Money.USD), Wallet(1, Money.USD)])
  }

  /** Alice has been topped up. */
  function Funded(amount: nat): Db {
    Apply(Opened(), TopUp(ALICE, amount))
  }

  /** The payer holds the amount, and none of the payer's transfers is under way. */
  predicate Spendable(db: Db, payer: nat, amount: nat) {
    && (payer == ALICE || payer == BOB) && db.wallets == Opened().wallets && db.locks == map[]
    && ComputeBalance(db, Some(1), payer) == amount && ComputeBalance(db, None, payer) == amount
    && (forall t: nat | t < |db.transfers| ::
          db.transfers[t].order.walletFrom != payer || db.transfers[t].status == Status.FAILED)
  }

  lemma Accounts()
    ensures Leads(Smooth, INIT, INIT.(db := Opened()))
  {
    hide Leads, Next;
    var one := INIT.(db := EMPTY.(wallets := [Wallet(0, Money.USD), Wallet(1, Money.USD)]));
    assert EMPTY.wallets + [Wallet(1, Money.USD)] == one.db.wallets;
    Requests(Smooth, INIT, AddWallet(1, Money.USD));
    Requests(Smooth, one, AddWallet(1, Money.USD));
    assert one.db.wallets + [Wallet(1, Money.USD)] == Opened().wallets;
    Then(Smooth, INIT, one, INIT.(db := Opened()));
  }

  lemma Funds(amount: nat)
    ensures Leads(Smooth, INIT, INIT.(db := Funded(amount))) && Spendable(Funded(amount), ALICE, amount)
    ensures Funded(amount).outbox == [] && |Funded(amount).transfers| == 1
    ensures Funded(amount).transfers[0].order.walletFrom == SYSTEM_WALLET
    ensures forall t: nat :: Posted(Funded(amount), t) <==> t == 0
    ensures ComputeBalance(Funded(amount), None, BOB) == 0 && ComputeBalance(Funded(amount), Some(1), BOB) == 0
    ensures Credits(Funded(amount), Some(1), BOB) == 0 && Debits(Funded(amount), Some(1), BOB) == 0
  {
    hide Leads, Next;
    Accounts();
    Requests(Smooth, INIT.(db := Opened()), TopUp(ALICE, amount));
    Then(Smooth, INIT, INIT.(db := Opened()), INIT.(db := Funded(amount)));
    var p := Payload(0, TopUpOrder(Opened(), ALICE, amount));
    PairMovesBalances(Opened(), Some(1), 1, p, ALICE);
    PairMovesBalances(Opened(), None, 1, p, ALICE);
    PairMovesBalances(Opened(), Some(1), 1, p, BOB);
    PairMovesBalances(Opened(), None, 1, p, BOB);
    forall t: nat { PairPosts(Opened().journal, 1, p, t); }
  }

  lemma IsCovered(db: Db, payer: nat, amount: nat)
    requires Spendable(db, payer, amount) && amount <= MAX_BIGINT
    ensures Creates(db, Payment(payer, amount))
  {
    ZeroSum(|db.transfers|, ReservedAt(db, Some(1), payer));
  }

  lemma OnlyTheLastIsPending(outbox: seq<OutboxRow>, p: Payload)
    requires PendingRows(outbox) == []
    ensures PendingBatch(outbox + [OutboxRow(p, PENDING, 0)]) == [|outbox|]
  {
    assert (outbox + [OutboxRow(p, PENDING, 0)])[..|outbox|] == outbox;
  }

  lemma NoneIsPending(outbox: seq<OutboxRow>, p: Payload)
    requires PendingRows(outbox) == []
    ensures PendingRows(outbox + [OutboxRow(p, PUBLISHED, 0)]) == []
  {
    assert (outbox + [OutboxRow(p, PUBLISHED, 0)])[..|outbox|] == outbox;
  }

  /** Accepted and published. */
  function Paid(s: State, payer: nat, amount: nat): State {
    var p := Payload(|s.db.transfers|, Payment(payer, amount));
    s.(db := s.db.(transfers := s.db.transfers + [Transfer(Payment(payer, amount), INITIATED)],
                   outbox := s.db.outbox + [OutboxRow(p, PUBLISHED, 0)]),
       tokens := s.tokens + [Fresh(p, 1)])
  }

  lemma NewestIsMarked(db: Db, o: Order)
    ensures Apply(Insert(db, o), MarkPublished(|db.outbox|))
            == Insert(db, o).(outbox := db.outbox + [OutboxRow(Payload(|db.transfers|, o), PUBLISHED, 0)])
  {
  }

  /** A payment of all that the payer holds is accepted. */
  lemma Accepts(s: State, payer: nat, amount: nat)
    requires Spendable(s.db, payer, amount) && amount <= MAX_BIGINT && PendingRows(s.db.outbox) == []
    ensures Leads(Smooth, s, s.(db := Insert(s.db, Payment(payer, amount))))
    ensures PendingBatch(Insert(s.db, Payment(payer, amount)).outbox) == [|s.db.outbox|]
  {
    hide Leads, Next;
    IsCovered(s.db, payer, amount);
    Requests(Smooth, s, Create(Payment(payer, amount)));
    OnlyTheLastIsPending(s.db.outbox, Payload(|s.db.transfers|, Payment(payer, amount)));
  }

  /** And published. */
  lemma Pays(s: State, payer: nat, amount: nat)
    requires Spendable(s.db, payer, amount) && amount <= MAX_BIGINT && s.worker.Idle?
    requires PendingRows(s.db.outbox) == []
    ensures Leads(Smooth, s, Paid(s, payer, amount))
    ensures PendingRows(Paid(s, payer, amount).db.outbox) == []
  {
    hide Leads, Next;
    var created := s.(db := Insert(s.db, Payment(payer, amount)));
    Accepts(s, payer, amount);
    Flushes(created, |s.db.outbox|);
    NewestIsMarked(s.db, Payment(payer, amount));
    NoneIsPending(s.db.outbox, Payload(|s.db.transfers|, Payment(payer, amount)));
    Then(Smooth, s, created, Paid(s, payer, amount));
  }

  /** The first delivery of transfer t settles, and touches no other message. */
  lemma Settles(s: State, i: nat, t: nat, payer: nat, amount: nat) returns (end: State)
    requires Inv(s) && At(s, i, Work) && !Posted(s.db, t)
    requires s.tokens[i].msg == Message(Payload(t, Payment(payer, amount)), 1, 0, INITIATED)
    ensures Leads(Smooth, s, end) && end.dlq == s.dlq && end.worker == s.worker && end.replays == s.replays
    ensures |end.tokens| == |s.tokens| + 1 && (forall j: nat | j < |s.tokens| && j != i :: end.tokens[j] == s.tokens[j])
    ensures t < |s.db.transfers|
    ensures end.db == SetStatus(AppendPair(s.db, 1, Payload(t, Payment(payer, amount))), t, COMPLETED)
  {
    hide Next, Apply;
    var p := Payload(t, Payment(payer, amount));
    assert Wellformed(s.db, s.tokens[i]);
    PairFitsIffUnposted(s.db, p);
    FirstDeliveryCompletes(s, i);
    end := RunFrom(s, [Deliver(i), WritePair(i), Stamp(i), Finish(i)]);
    Via(Smooth, s, [Deliver(i), WritePair(i), Stamp(i), Finish(i)]);
  }

  lemma SettlementPosts(db: Db, t: nat, payer: nat, amount: nat)
    requires payer == ALICE || payer == BOB
    ensures var b := SetStatus(AppendPair(db, 1, Payload(t, Payment(payer, amount))), t, COMPLETED);
            && (forall scope | scope == None || scope == Some(1) ::
                  && ComputeBalance(b, scope, payer) == ComputeBalance(db, scope, payer) - amount
                  && ComputeBalance(b, scope, Other(payer)) == ComputeBalance(db, scope, Other(payer)) + amount
                  && Debits(b, scope, payer) == Debits(db, scope, payer) + amount
                  && Debits(b, scope, Other(payer)) == Debits(db, scope, Other(payer)))
            && forall u: nat :: Posted(b, u) <==> Posted(db, u) || u == t
  {
    var p := Payload(t, Payment(payer, amount));
    PairMovesBalances(db, None, 1, p, payer);
    PairMovesBalances(db, Some(1), 1, p, payer);
    PairMovesBalances(db, None, 1, p, Other(payer));
    PairMovesBalances(db, Some(1), 1, p, Other(payer));
    forall u: nat { PairPosts(db.journal, 1, p, u); }
  }
}
