/** The database: wallets, transfers, the append-only journal, the outbox and the open
    transfer-creating transactions. Each DbStep is one committed statement or transaction.
    Rows are identified by their position; no row is ever deleted. */
module LedgerDb {
  import opened Options
  import opened Sums
  import Money

  const SYSTEM_WALLET: nat := 0
  const MAX_BIGINT: nat := 9_223_372_036_854_775_807  // the amount columns are 64-bit

  datatype Wallet = Wallet(tenant: nat, currency: Money.Currency)

  datatype Status = INITIATED | PROCESSING | COMPLETED | FAILED

  /** The columns of a transfer that never change; the outbox payload is a copy of them. */
  datatype Order = Order(
    tenant: nat, walletFrom: nat, walletTo: nat, fromAmount: nat, toAmount: nat,
    fromCurrency: Money.Currency, toCurrency: Money.Currency, fxRate: Money.Dec)

  datatype Transfer = Transfer(order: Order, status: Status)

  datatype Payload = Payload(transferId: nat, order: Order)

  datatype EntryType = DEBIT | CREDIT

  datatype Entry = Entry(
    tenant: nat, walletId: nat, transferId: nat, kind: EntryType, amount: nat, currency: Money.Currency)

  datatype OutboxStatus = PENDING | PUBLISHED | FAILED

  datatype OutboxRow = OutboxRow(payload: Payload, status: OutboxStatus, retryCount: nat)

  /** A transfer-creating transaction that holds the lock on its source wallet. */
  datatype Tx = Tx(order: Order, credits: Option<int>, debits: Option<int>, reserved: Option<int>)

  datatype Db = Db(
    wallets: seq<Wallet>, transfers: seq<Transfer>, journal: seq<Entry>,
    outbox: seq<OutboxRow>, locks: map<nat, Tx>)

  const EMPTY: Db := Db([Wallet(0, Money.USD)], [], [], [], map[])

  // ---- Queries ----------------------------------------------------------------------------

  /** withTenant: a scope restricts a query to one tenant, None is the global administrator. */
  predicate InScope(scope: Option<nat>, tenant: nat) {
    scope.None? || scope.value == tenant
  }

  function EntryAmount(scope: Option<nat>, w: nat, kind: EntryType): Entry -> int {
    (e: Entry) => if e.walletId == w && e.kind == kind && InScope(scope, e.tenant) then e.amount else 0
  }

  function Credits(db: Db, scope: Option<nat>, w: nat): int {
    SeqSum(db.journal, EntryAmount(scope, w, CREDIT))
  }

  function Debits(db: Db, scope: Option<nat>, w: nat): int {
    SeqSum(db.journal, EntryAmount(scope, w, DEBIT))
  }

  /** computeBalance: never stored, always derived. */
  function ComputeBalance(db: Db, scope: Option<nat>, w: nat): int {
    Credits(db, scope, w) - Debits(db, scope, w)
  }

  function ReservedAt(db: Db, scope: Option<nat>, w: nat): nat -> int {
    (t: nat) =>
      if t < |db.transfers| && db.transfers[t].order.walletFrom == w
         && InScope(scope, db.transfers[t].order.tenant)
         && (db.transfers[t].status == INITIATED || db.transfers[t].status == PROCESSING)
      then db.transfers[t].order.fromAmount else 0
  }

  function ComputePendingOutgoing(db: Db, scope: Option<nat>, w: nat): int {
    Sum(|db.transfers|, ReservedAt(db, scope, w))
  }

  /** The journal rows of one transfer, oldest first. */
  function RowsOf(journal: seq<Entry>, t: nat): seq<Entry> {
    if journal == [] then []
    else
      var e := journal[|journal| - 1];
      RowsOf(journal[..|journal| - 1], t) + if e.transferId == t then [e] else []
  }

  predicate InJournal(journal: seq<Entry>, t: nat) {
    exists e :: e in journal && e.transferId == t
  }

  predicate Posted(db: Db, t: nat) {
    InJournal(db.journal, t)
  }

  function DebitRow(tenant: nat, p: Payload): Entry {
    Entry(tenant, p.order.walletFrom, p.transferId, DEBIT, p.order.fromAmount, p.order.fromCurrency)
  }

  function CreditRow(tenant: nat, p: Payload): Entry {
    Entry(tenant, p.order.walletTo, p.transferId, CREDIT, p.order.toAmount, p.order.toCurrency)
  }

  function PairOf(db: Db, t: nat): seq<Entry>
    requires t < |db.transfers|
  {
    var o := db.transfers[t].order;
    [DebitRow(o.tenant, Payload(t, o)), CreditRow(o.tenant, Payload(t, o))]
  }

  /** The unique index over (transferId, walletId, type). */
  predicate Clashes(journal: seq<Entry>, e: Entry) {
    exists i :: 0 <= i < |journal| && journal[i].transferId == e.transferId
                && journal[i].walletId == e.walletId && journal[i].kind == e.kind
  }

  predicate PairFits(db: Db, tenant: nat, p: Payload) {
    !Clashes(db.journal, DebitRow(tenant, p)) && !Clashes(db.journal, CreditRow(tenant, p))
  }

  /** The orders createTransfer submits: two different wallets of the caller's tenant, in their
      own currencies, and no exchange between equal currencies. */
  predicate Submitted(db: Db, o: Order) {
    && o.walletFrom != o.walletTo
    && o.walletFrom < |db.wallets| && db.wallets[o.walletFrom] == Wallet(o.tenant, o.fromCurrency)
    && o.walletTo < |db.wallets| && db.wallets[o.walletTo] == Wallet(o.tenant, o.toCurrency)
    && (o.fromCurrency == o.toCurrency ==> o.fromAmount == o.toAmount)
  }

  predicate FitsColumns(o: Order) {
    o.fromAmount <= MAX_BIGINT && o.toAmount <= MAX_BIGINT
  }

  /** The submitted orders that the columns can hold. */
  predicate Admissible(db: Db, o: Order) {
    Submitted(db, o) && FitsColumns(o)
  }

  // ---- Transactions -----------------------------------------------------------------------

  datatype DbStep =
    | AddWallet(tenant: nat, currency: Money.Currency)
    | TopUp(walletId: nat, amount: nat)
    // createWithOutbox, taken as one snapshot
    | Create(order: Order)
    // createWithOutbox, statement by statement under the wallet lock
    | Begin(order: Order)
    | ReadCredits(lock: nat)
    | ReadDebits(lock: nat)
    | ReadReserved(lock: nat)
    | Commit(lock: nat)
    | Rollback(lock: nat)
    // settlement
    | WriteEntryPair(tenant: nat, payload: Payload)
    | SetCompleted(transferId: nat)
    | CompleteIfInitiated(transferId: nat)
    | SetFailed(transferId: nat)
    | Rearm(transferId: nat)
    // outbox
    | MarkPublished(row: nat)
    | MarkFailed(row: nat)

  function SetStatus(db: Db, t: nat, status: Status): Db {
    if t < |db.transfers|
    then db.(transfers := db.transfers[t := db.transfers[t].(status := status)])
    else db
  }

  /** Inserts the transfer and its outbox row. */
  function Insert(db: Db, o: Order): Db {
    db.(transfers := db.transfers + [Transfer(o, INITIATED)],
        outbox := db.outbox + [OutboxRow(Payload(|db.transfers|, o), PENDING, 0)])
  }

  function Unlock(db: Db, w: nat): Db {
    db.(locks := map k | k in db.locks && k != w :: db.locks[k])
  }

  predicate Covers(db: Db, o: Order) {
    ComputeBalance(db, Some(o.tenant), o.walletFrom)
    - ComputePendingOutgoing(db, Some(o.tenant), o.walletFrom) >= o.fromAmount
  }

  /** A transaction whose three reads are in and leave enough. */
  predicate Commits(db: Db, w: nat) {
    && w in db.locks
    && var tx := db.locks[w];
       tx.credits.Some? && tx.debits.Some? && tx.reserved.Some?
       && tx.credits.value - tx.debits.value - tx.reserved.value >= tx.order.fromAmount
  }

  predicate Creates(db: Db, o: Order) {
    Admissible(db, o) && o.walletFrom !in db.locks && Covers(db, o)
  }

  function TopUpOrder(db: Db, w: nat, amount: nat): Order
    requires w < |db.wallets|
  {
    var c := db.wallets[w].currency;
    Order(db.wallets[w].tenant, SYSTEM_WALLET, w, amount, amount, c, c, Money.ONE)
  }

  function AppendPair(db: Db, tenant: nat, p: Payload): Db {
    db.(journal := db.journal + [DebitRow(tenant, p)] + [CreditRow(tenant, p)])
  }

  /** Every step is total: one that is refused, or whose rows do not exist, changes nothing. */
  function Apply(db: Db, step: DbStep): Db {
    match step
    case AddWallet(tenant, currency) => db.(wallets := db.wallets + [Wallet(tenant, currency)])
    case TopUp(w, amount) =>
      if w < |db.wallets| then
        var o := TopUpOrder(db, w, amount);
        AppendPair(db.(transfers := db.transfers + [Transfer(o, COMPLETED)]), o.tenant,
                   Payload(|db.transfers|, o))
      else db
    case Create(o) => if Creates(db, o) then Insert(db, o) else db
    case Begin(o) =>
      if Admissible(db, o) && o.walletFrom !in db.locks
      then db.(locks := db.locks[o.walletFrom := Tx(o, None, None, None)])
      else db
    case ReadCredits(w) =>
      if w in db.locks && db.locks[w].credits.None? then
        var tx := db.locks[w];
        db.(locks := db.locks[w := tx.(credits := Some(Credits(db, Some(tx.order.tenant), w)))])
      else db
    case ReadDebits(w) =>
      if w in db.locks && db.locks[w].debits.None? then
        var tx := db.locks[w];
        db.(locks := db.locks[w := tx.(debits := Some(Debits(db, Some(tx.order.tenant), w)))])
      else db
    case ReadReserved(w) =>
      if w in db.locks && db.locks[w].credits.Some? && db.locks[w].debits.Some? && db.locks[w].reserved.None? then
        var tx := db.locks[w];
        db.(locks := db.locks[w := tx.(reserved := Some(ComputePendingOutgoing(db, Some(tx.order.tenant), w)))])
      else db
    case Commit(w) => if Commits(db, w) then Unlock(Insert(db, db.locks[w].order), w) else db
    case Rollback(w) => Unlock(db, w)
    case WriteEntryPair(tenant, p) => if PairFits(db, tenant, p) then AppendPair(db, tenant, p) else db
    case SetCompleted(t) => SetStatus(db, t, COMPLETED)
    case CompleteIfInitiated(t) =>
      if t < |db.transfers| && db.transfers[t].status == INITIATED then SetStatus(db, t, COMPLETED) else db
    case SetFailed(t) => SetStatus(db, t, Status.FAILED)
    case Rearm(t) => SetStatus(db, t, INITIATED)
    case MarkPublished(r) =>
      if r < |db.outbox| then db.(outbox := db.outbox[r := db.outbox[r].(status := PUBLISHED)]) else db
    case MarkFailed(r) =>
      if r < |db.outbox| then
        var row := db.outbox[r];
        db.(outbox := db.outbox[r := row.(status := OutboxStatus.FAILED, retryCount := row.retryCount + 1)])
      else db
  }

  /** What the settlement side guarantees of the steps it takes: a pair is written from a payload
      that copies its transfer row, and COMPLETED is set on a posted transfer only. */
  predicate Legal(db: Db, step: DbStep) {
    match step
    case WriteEntryPair(tenant, p) =>
      p.transferId < |db.transfers| && p.order == db.transfers[p.transferId].order && tenant == p.order.tenant
    case SetCompleted(t) => Posted(db, t)
    case CompleteIfInitiated(t) => Posted(db, t)
    case _ => true
  }

  // ---- What every step keeps --------------------------------------------------------------

  predicate OwnTenant(db: Db, w: nat, tenant: nat, currency: Money.Currency) {
    w < |db.wallets| && (w != SYSTEM_WALLET ==> db.wallets[w] == Wallet(tenant, currency))
  }

  predicate SoundTransfer(db: Db, t: nat)
    requires t < |db.transfers|
  {
    var o := db.transfers[t].order;
    && OwnTenant(db, o.walletFrom, o.tenant, o.fromCurrency)
    && OwnTenant(db, o.walletTo, o.tenant, o.toCurrency)
    && (o.fromCurrency == o.toCurrency ==> o.fromAmount == o.toAmount)
    && (RowsOf(db.journal, t) == [] || RowsOf(db.journal, t) == PairOf(db, t))
    && (db.transfers[t].status == COMPLETED ==> Posted(db, t))
  }

  ghost predicate Sound(db: Db) {
    && |db.wallets| > 0
    && (forall t: nat | t < |db.transfers| :: SoundTransfer(db, t))
    && (forall i | 0 <= i < |db.journal| :: db.journal[i].transferId < |db.transfers|)
    && (forall w: nat | w in db.locks :: Admissible(db, db.locks[w].order) && db.locks[w].order.walletFrom == w)
  }

  lemma RowsAppend(j: seq<Entry>, e: Entry, t: nat)
    ensures RowsOf(j + [e], t) == RowsOf(j, t) + if e.transferId == t then [e] else []
  {
    assert (j + [e])[..|j|] == j;
  }

  lemma RowsAppendPair(j: seq<Entry>, tenant: nat, p: Payload, t: nat)
    ensures RowsOf(j + [DebitRow(tenant, p)] + [CreditRow(tenant, p)], t)
            == RowsOf(j, t) + if p.transferId == t then [DebitRow(tenant, p), CreditRow(tenant, p)] else []
  {
    RowsAppend(j, DebitRow(tenant, p), t);
    RowsAppend(j + [DebitRow(tenant, p)], CreditRow(tenant, p), t);
  }

  /** After the pair of t is appended, t is in the journal and nothing else has changed. */
  lemma PairPosts(j: seq<Entry>, tenant: nat, p: Payload, t: nat)
    ensures InJournal(j + [DebitRow(tenant, p)] + [CreditRow(tenant, p)], t) <==> InJournal(j, t) || p.transferId == t
  {
    var k := j + [DebitRow(tenant, p)] + [CreditRow(tenant, p)];
    assert DebitRow(tenant, p) in k;
    assert forall e :: e in k <==> e in j || e == DebitRow(tenant, p) || e == CreditRow(tenant, p);
  }

  /** What a posting does to the two sums of a wallet, in any scope. */
  lemma PairMovesBalances(db: Db, scope: Option<nat>, tenant: nat, p: Payload, w: nat)
    ensures var b := AppendPair(db, tenant, p);
            && Credits(b, scope, w) == Credits(db, scope, w)
               + (if p.order.walletTo == w && InScope(scope, tenant) then p.order.toAmount else 0)
            && Debits(b, scope, w) == Debits(db, scope, w)
               + (if p.order.walletFrom == w && InScope(scope, tenant) then p.order.fromAmount else 0)
  {
    var d, c := DebitRow(tenant, p), CreditRow(tenant, p);
    SeqSumAppend(db.journal, d, EntryAmount(scope, w, CREDIT));
    SeqSumAppend(db.journal + [d], c, EntryAmount(scope, w, CREDIT));
    SeqSumAppend(db.journal, d, EntryAmount(scope, w, DEBIT));
    SeqSumAppend(db.journal + [d], c, EntryAmount(scope, w, DEBIT));
  }

  /** A row of the transfer's journal is a row of the journal, and the other way round. */
  lemma {:induction false} RowsAreMembers(j: seq<Entry>, t: nat)
    ensures forall e :: e in RowsOf(j, t) <==> e in j && e.transferId == t
    ensures RowsOf(j, t) != [] <==> InJournal(j, t)
  {
    if j == [] {
    } else {
      var n := |j| - 1;
      RowsAreMembers(j[..n], t);
      assert j == j[..n] + [j[n]];
    }
    if RowsOf(j, t) != [] { assert RowsOf(j, t)[0] in RowsOf(j, t); }
  }

  /** The unique index refuses exactly the pairs of transfers that are already posted. */
  lemma PairFitsIffUnposted(db: Db, p: Payload)
    requires Sound(db) && Legal(db, WriteEntryPair(p.order.tenant, p))
    ensures PairFits(db, p.order.tenant, p) <==> !Posted(db, p.transferId)
  {
    var t := p.transferId;
    var d := DebitRow(p.order.tenant, p);
    RowsAreMembers(db.journal, t);
    assert SoundTransfer(db, t);
    if Posted(db, t) {
      assert RowsOf(db.journal, t)[0] == d;
      assert d in RowsOf(db.journal, t);
      var i :| 0 <= i < |db.journal| && db.journal[i] == d;
      assert Clashes(db.journal, d);
    }
  }

  /** Rows are only added, and what identifies them never changes. */
  ghost predicate Grows(a: Db, b: Db) {
    && |a.wallets| <= |b.wallets| && b.wallets[..|a.wallets|] == a.wallets
    && |a.transfers| <= |b.transfers|
    && (forall t: nat | t < |a.transfers| :: b.transfers[t].order == a.transfers[t].order)
    && (forall t: nat | Posted(a, t) :: Posted(b, t))
    && |a.outbox| <= |b.outbox|
    && (forall r: nat | r < |a.outbox| :: b.outbox[r].payload == a.outbox[r].payload)
    && a.journal <= b.journal
  }

  lemma StepGrows(db: Db, step: DbStep)
    ensures Grows(db, Apply(db, step))
  {
    var b := Apply(db, step);
    match step {
      case TopUp(w, amount) =>
        if w < |db.wallets| {
          var o := TopUpOrder(db, w, amount);
          forall t: nat { PairPosts(db.journal, o.tenant, Payload(|db.transfers|, o), t); }
        }
      case WriteEntryPair(tenant, p) =>
        forall t: nat { PairPosts(db.journal, tenant, p, t); }
      case _ => assert b.journal == db.journal;
    }
  }

  lemma {:induction false} NoRows(j: seq<Entry>, t: nat)
    requires forall i | 0 <= i < |j| :: j[i].transferId != t
    ensures RowsOf(j, t) == [] && !InJournal(j, t)
  {
    if j == [] {
    } else {
      NoRows(j[..|j| - 1], t);
    }
  }

  lemma InsertIsSound(db: Db, o: Order)
    requires Sound(db)
    requires OwnTenant(db, o.walletFrom, o.tenant, o.fromCurrency) && OwnTenant(db, o.walletTo, o.tenant, o.toCurrency)
    requires o.fromCurrency == o.toCurrency ==> o.fromAmount == o.toAmount
    ensures Sound(Insert(db, o))
  {
    var b := Insert(db, o);
    NoRows(db.journal, |db.transfers|);
    forall t: nat | t < |b.transfers| ensures SoundTransfer(b, t) {
      if t < |db.transfers| { assert SoundTransfer(db, t); }
    }
  }

  lemma StatusIsSound(db: Db, t: nat, status: Status)
    requires Sound(db) && (status == COMPLETED ==> Posted(db, t))
    ensures Sound(SetStatus(db, t, status))
  {
    var b := SetStatus(db, t, status);
    forall u: nat | u < |b.transfers| ensures SoundTransfer(b, u) { assert SoundTransfer(db, u); }
  }

  lemma SoundWithFewerLocks(db: Db, w: nat)
    requires Sound(db)
    ensures Sound(Unlock(db, w))
  {
    var b := Unlock(db, w);
    forall t: nat | t < |b.transfers| ensures SoundTransfer(b, t) { assert SoundTransfer(db, t); }
  }

  lemma PairIsSound(db: Db, p: Payload)
    requires Sound(db) && Legal(db, WriteEntryPair(p.order.tenant, p)) && PairFits(db, p.order.tenant, p)
    ensures Sound(AppendPair(db, p.order.tenant, p))
  {
    var b := AppendPair(db, p.order.tenant, p);
    PairFitsIffUnposted(db, p);
    RowsAreMembers(db.journal, p.transferId);
    forall t: nat | t < |b.transfers| ensures SoundTransfer(b, t) {
      RowsAppendPair(db.journal, p.order.tenant, p, t);
      PairPosts(db.journal, p.order.tenant, p, t);
      assert SoundTransfer(db, t);
    }
  }

  /** A top-up is an insertion, its posting and its completion in one transaction. */
  lemma TopUpIsSound(db: Db, w: nat, amount: nat)
    requires Sound(db) && w < |db.wallets|
    ensures Sound(Apply(db, TopUp(w, amount)))
  {
    var o, n := TopUpOrder(db, w, amount), |db.transfers|;
    var inserted, p := Insert(db, o), Payload(n, o);
    InsertIsSound(db, o);
    NoRows(db.journal, n);
    PairFitsIffUnposted(inserted, p);
    PairIsSound(inserted, p);
    var posted := AppendPair(inserted, o.tenant, p);
    PairPosts(db.journal, o.tenant, p, n);
    StatusIsSound(posted, n, COMPLETED);
    SoundElsewhere(SetStatus(posted, n, COMPLETED), Apply(db, TopUp(w, amount)));
  }

  /** Same journal, same transfers: nothing a transfer's soundness rests on has moved. */
  lemma SoundElsewhere(a: Db, b: Db)
    requires Sound(a) && |a.wallets| <= |b.wallets| && b.wallets[..|a.wallets|] == a.wallets
    requires b.transfers == a.transfers && b.journal == a.journal
    requires forall w: nat | w in b.locks :: Admissible(b, b.locks[w].order) && b.locks[w].order.walletFrom == w
    ensures Sound(b)
  {
    forall t: nat | t < |b.transfers| ensures SoundTransfer(b, t) { assert SoundTransfer(a, t); }
  }

  lemma CommitIsSound(db: Db, w: nat)
    requires Sound(db) && w in db.locks
    ensures Sound(Unlock(Insert(db, db.locks[w].order), w))
  {
    InsertIsSound(db, db.locks[w].order);
    SoundWithFewerLocks(Insert(db, db.locks[w].order), w);
  }

  lemma LockStepIsSound(db: Db, step: DbStep)
    requires Sound(db)
    requires step.Begin? || step.ReadCredits? || step.ReadDebits? || step.ReadReserved?
    ensures Sound(Apply(db, step))
  {
    SoundElsewhere(db, Apply(db, step));
  }

  /** At-most-once posting and the ties between rows survive every legal step. */
  lemma StepIsSound(db: Db, step: DbStep)
    requires Sound(db) && Legal(db, step)
    ensures Sound(Apply(db, step))
  {
    match step {
      case TopUp(w, amount) => if w < |db.wallets| { TopUpIsSound(db, w, amount); }
      case Create(o) => if Creates(db, o) { InsertIsSound(db, o); }
      case Commit(w) =>
        if Commits(db, w) { CommitIsSound(db, w); }
      case Rollback(w) => SoundWithFewerLocks(db, w);
      case SetCompleted(t) => StatusIsSound(db, t, COMPLETED);
      case CompleteIfInitiated(t) => StatusIsSound(db, t, COMPLETED);
      case SetFailed(t) => StatusIsSound(db, t, Status.FAILED);
      case Rearm(t) => StatusIsSound(db, t, INITIATED);
      case WriteEntryPair(tenant, p) => if PairFits(db, tenant, p) { PairIsSound(db, p); }
      case AddWallet(_, _) => SoundElsewhere(db, Apply(db, step));
      case MarkPublished(_) => SoundElsewhere(db, Apply(db, step));
      case MarkFailed(_) => SoundElsewhere(db, Apply(db, step));
      case _ => LockStepIsSound(db, step);
    }
  }
}
