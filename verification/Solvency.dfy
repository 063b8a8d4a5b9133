/** How far a wallet's derived balance can fall behind what it owes. */
module Solvency {
  import opened Options
  import opened Sums
  import opened LedgerDb

  // ---- What a run releases and what its reads miss ----------------------------------------

  /** A transfer whose reservation this step gives up although its debit never posted. */
  ghost function Releases(db: Db, step: DbStep): set<nat> {
    if step.SetFailed? && step.transferId < |db.transfers| && !Posted(db, step.transferId)
    then {step.transferId} else {}
  }

  /** The debits that posted on w between the debit read and the commit of the last transfer
      created from w; a creation taken as one snapshot misses none. */
  ghost function SlackAfter(db: Db, step: DbStep, w: nat, slack: int): int {
    match step
    case Create(o) => if o.walletFrom == w && Creates(db, o) then 0 else slack
    case Commit(k) => if k == w && Commits(db, w) then Debits(db, None, w) - db.locks[w].debits.value else slack
    case _ => slack
  }

  // ---- Per-wallet sums over transfers -----------------------------------------------------

  /** Every outgoing transfer whose debit is not in the journal. */
  ghost function OwedAt(db: Db, w: nat): nat -> int {
    (t: nat) => if t < |db.transfers| && db.transfers[t].order.walletFrom == w && !Posted(db, t)
                then db.transfers[t].order.fromAmount else 0
  }

  ghost function ReleasedAt(db: Db, released: set<nat>, w: nat): nat -> int {
    (t: nat) => if t < |db.transfers| && db.transfers[t].order.walletFrom == w && t in released
                then db.transfers[t].order.fromAmount else 0
  }

  /** Unposted and never released: still a promise the wallet must be able to keep. */
  ghost function OpenAt(db: Db, released: set<nat>, w: nat): nat -> int {
    (t: nat) => if t < |db.transfers| && db.transfers[t].order.walletFrom == w && !Posted(db, t) && t !in released
                then db.transfers[t].order.fromAmount else 0
  }

  ghost function Owed(db: Db, w: nat): int { Sum(|db.transfers|, OwedAt(db, w)) }

  ghost function Released(db: Db, released: set<nat>, w: nat): int {
    Sum(|db.transfers|, ReleasedAt(db, released, w))
  }

  ghost function Open(db: Db, released: set<nat>, w: nat): int {
    Sum(|db.transfers|, OpenAt(db, released, w))
  }

  // ---- The invariant ----------------------------------------------------------------------

  /** What the reads of an open transaction are worth in the present state. */
  ghost predicate ReadsHold(db: Db, released: set<nat>, w: nat, tx: Tx) {
    && (tx.credits.Some? ==> tx.credits.value <= Credits(db, None, w))
    && (tx.debits.Some? ==> tx.debits.value <= Debits(db, None, w))
    && (tx.reserved.Some? ==> tx.reserved.value >= Open(db, released, w))
  }

  ghost predicate FailedAreReleased(db: Db, released: set<nat>) {
    forall t: nat | t < |db.transfers| && db.transfers[t].status == Status.FAILED && !Posted(db, t) :: t in released
  }

  ghost predicate Backed(db: Db, released: set<nat>, w: nat, slack: int) {
    && slack >= 0
    && FailedAreReleased(db, released)
    && ComputeBalance(db, None, w) + Released(db, released, w) + slack >= Owed(db, w)
  }

  ghost predicate LockHolds(db: Db, released: set<nat>, w: nat, locks: map<nat, Tx>) {
    w in locks ==> ReadsHold(db, released, w, locks[w])
  }

  ghost predicate Covered(db: Db, released: set<nat>, w: nat, slack: int) {
    Backed(db, released, w, slack) && LockHolds(db, released, w, db.locks)
  }

  // ---- Tenant scoping ---------------------------------------------------------------------

  lemma EntryIsItsTransfers(db: Db, e: Entry)
    requires Sound(db) && e in db.journal
    ensures e.transferId < |db.transfers| && e in PairOf(db, e.transferId)
  {
    var t := e.transferId;
    assert SoundTransfer(db, t);
    RowsAreMembers(db.journal, t);
    assert e in RowsOf(db.journal, t);
  }

  /** Every query filtered by the wallet's tenant sees the same rows as the unfiltered one. */
  lemma ScopeIsTransparent(db: Db, w: nat)
    requires Sound(db) && w < |db.wallets| && w != SYSTEM_WALLET
    ensures var scope := Some(db.wallets[w].tenant);
            && Credits(db, scope, w) == Credits(db, None, w)
            && Debits(db, scope, w) == Debits(db, None, w)
            && ComputePendingOutgoing(db, scope, w) == ComputePendingOutgoing(db, None, w)
  {
    var scope := Some(db.wallets[w].tenant);
    forall e | e in db.journal && e.walletId == w ensures e.tenant == scope.value {
      EntryIsItsTransfers(db, e);
      assert SoundTransfer(db, e.transferId);
    }
    SeqSumSame(db.journal, EntryAmount(scope, w, CREDIT), EntryAmount(None, w, CREDIT));
    SeqSumSame(db.journal, EntryAmount(scope, w, DEBIT), EntryAmount(None, w, DEBIT));
    forall t: nat | t < |db.transfers| ensures ReservedAt(db, scope, w)(t) == ReservedAt(db, None, w)(t) {
      assert SoundTransfer(db, t);
    }
    SumSame(|db.transfers|, ReservedAt(db, scope, w), ReservedAt(db, None, w));
  }

  /** What is reserved covers every promise that was neither posted nor released. */
  lemma ReservedCoversOpen(db: Db, released: set<nat>, w: nat)
    requires Sound(db) && FailedAreReleased(db, released)
    ensures ComputePendingOutgoing(db, None, w) >= Open(db, released, w)
  {
    forall t: nat | t < |db.transfers| ensures OpenAt(db, released, w)(t) <= ReservedAt(db, None, w)(t) {
      assert SoundTransfer(db, t);
    }
    SumMono(|db.transfers|, OpenAt(db, released, w), ReservedAt(db, None, w));
  }

  /** What a tenant-scoped read of wallet w returns now. */
  ghost predicate ReadsAreCurrent(db: Db, released: set<nat>, w: nat, tenant: nat) {
    && Credits(db, Some(tenant), w) == Credits(db, None, w)
    && Debits(db, Some(tenant), w) == Debits(db, None, w)
    && ComputePendingOutgoing(db, Some(tenant), w) >= Open(db, released, w)
  }

  lemma OwnReadsAreCurrent(db: Db, released: set<nat>, w: nat)
    requires Sound(db) && FailedAreReleased(db, released) && w < |db.wallets| && w != SYSTEM_WALLET
    ensures ReadsAreCurrent(db, released, w, db.wallets[w].tenant)
  {
    ScopeIsTransparent(db, w);
    ReservedCoversOpen(db, released, w);
  }

  lemma OwedIsOpenOrReleased(db: Db, released: set<nat>, w: nat)
    ensures Owed(db, w) <= Open(db, released, w) + Released(db, released, w)
    ensures 0 <= Open(db, released, w) <= Owed(db, w)
  {
    SumBelowBoth(|db.transfers|, OwedAt(db, w), OpenAt(db, released, w), ReleasedAt(db, released, w));
    SumMono(|db.transfers|, OpenAt(db, released, w), OwedAt(db, w));
    SumNonNegative(|db.transfers|, OpenAt(db, released, w));
  }

  // ---- Steps that leave the journal and the set of transfers alone ------------------------

  ghost predicate SameBooks(a: Db, b: Db) {
    && b.journal == a.journal && |b.transfers| == |a.transfers|
    && (forall t: nat | t < |a.transfers| :: b.transfers[t].order == a.transfers[t].order)
  }

  lemma SameBooksSameSums(a: Db, b: Db, released: set<nat>, more: set<nat>, w: nat)
    requires SameBooks(a, b) && released <= more
    ensures Owed(b, w) == Owed(a, w) && ComputeBalance(b, None, w) == ComputeBalance(a, None, w)
    ensures Released(b, more, w) >= Released(a, released, w)
    ensures Open(b, more, w) <= Open(a, released, w)
  {
    var n := |a.transfers|;
    SumSame(n, OwedAt(a, w), OwedAt(b, w));
    SumMono(n, ReleasedAt(a, released, w), ReleasedAt(b, more, w));
    SumMono(n, OpenAt(b, more, w), OpenAt(a, released, w));
  }

  lemma Carry(a: Db, b: Db, released: set<nat>, more: set<nat>, w: nat, slack: int)
    requires Backed(a, released, w, slack) && SameBooks(a, b) && released <= more
    requires FailedAreReleased(b, more) && LockHolds(a, released, w, b.locks)
    ensures Covered(b, more, w, slack)
  {
    SameBooksSameSums(a, b, released, more, w);
  }

  lemma LocksAside(db: Db, locks: map<nat, Tx>, released: set<nat>, w: nat, slack: int)
    requires Backed(db, released, w, slack) && LockHolds(db, released, w, locks)
    ensures Covered(db.(locks := locks), released, w, slack)
  {
    assert FailedAreReleased(db.(locks := locks), released);
    Carry(db, db.(locks := locks), released, released, w, slack);
  }

  // ---- Steps that add a transfer ----------------------------------------------------------

  ghost predicate NextIdUnused(db: Db, released: set<nat>) {
    !Posted(db, |db.transfers|) && |db.transfers| !in released
  }

  function AmountFrom(o: Order, w: nat): nat {
    if o.walletFrom == w then o.fromAmount else 0
  }

  lemma InsertOwes(db: Db, o: Order, w: nat)
    requires !Posted(db, |db.transfers|)
    ensures Owed(Insert(db, o), w) == Owed(db, w) + AmountFrom(o, w)
  {
    SumGrow(|db.transfers|, OwedAt(db, w), OwedAt(Insert(db, o), w));
  }

  lemma InsertOpens(db: Db, o: Order, released: set<nat>, w: nat)
    requires NextIdUnused(db, released)
    ensures Open(Insert(db, o), released, w) == Open(db, released, w) + AmountFrom(o, w)
  {
    SumGrow(|db.transfers|, OpenAt(db, released, w), OpenAt(Insert(db, o), released, w));
  }

  lemma InsertReleases(db: Db, o: Order, released: set<nat>, w: nat)
    requires NextIdUnused(db, released)
    ensures Released(Insert(db, o), released, w) == Released(db, released, w)
  {
    SumGrow(|db.transfers|, ReleasedAt(db, released, w), ReleasedAt(Insert(db, o), released, w));
  }

  lemma InsertReleasesNothing(db: Db, o: Order, released: set<nat>)
    requires FailedAreReleased(db, released)
    ensures FailedAreReleased(Insert(db, o), released)
  {
    var b := Insert(db, o);
    forall t: nat | t < |b.transfers| && b.transfers[t].status == Status.FAILED && !Posted(b, t) ensures t in released {
      assert b.transfers[t] == db.transfers[t] && !Posted(db, t);
    }
  }

  /** A new transfer is backed as soon as what was read leaves enough for it, up to the
      debits the reads have missed. */
  lemma InsertIsBacked(db: Db, o: Order, released: set<nat>, w: nat, slack: int)
    requires NextIdUnused(db, released) && FailedAreReleased(db, released)
    requires o.walletFrom == w && slack >= 0
    requires ComputeBalance(db, None, w) + slack - Open(db, released, w) >= o.fromAmount
    ensures Backed(Insert(db, o), released, w, slack)
  {
    InsertOwes(db, o, w);
    InsertReleases(db, o, released, w);
    OwedIsOpenOrReleased(db, released, w);
    InsertReleasesNothing(db, o, released);
  }

  lemma InsertElsewhereIsCovered(db: Db, o: Order, released: set<nat>, w: nat, slack: int)
    requires NextIdUnused(db, released) && Covered(db, released, w, slack)
    requires o.walletFrom != w
    ensures Covered(Insert(db, o), released, w, slack)
  {
    InsertOwes(db, o, w);
    InsertOpens(db, o, released, w);
    InsertReleases(db, o, released, w);
    InsertReleasesNothing(db, o, released);
  }

  lemma CommitHereIsCovered(db: Db, released: set<nat>, w: nat)
    requires NextIdUnused(db, released) && FailedAreReleased(db, released)
    requires Commits(db, w) && db.locks[w].order.walletFrom == w && ReadsHold(db, released, w, db.locks[w])
    ensures var slack := Debits(db, None, w) - db.locks[w].debits.value;
            Covered(Unlock(Insert(db, db.locks[w].order), w), released, w, slack)
  {
    var o, slack := db.locks[w].order, Debits(db, None, w) - db.locks[w].debits.value;
    InsertIsBacked(db, o, released, w, slack);
    LocksAside(Insert(db, o), Unlock(db, w).locks, released, w, slack);
  }

  lemma CommitElsewhereIsCovered(db: Db, o: Order, released: set<nat>, w: nat, slack: int, k: nat)
    requires NextIdUnused(db, released) && Covered(db, released, w, slack) && o.walletFrom != w && k != w
    ensures Covered(Unlock(Insert(db, o), k), released, w, slack)
  {
    InsertElsewhereIsCovered(db, o, released, w, slack);
    LocksAside(Insert(db, o), Unlock(db, k).locks, released, w, slack);
  }

  lemma CreateIsCovered(db: Db, released: set<nat>, w: nat, slack: int, o: Order)
    requires NextIdUnused(db, released) && Covered(db, released, w, slack)
    requires Creates(db, o)
    requires o.walletFrom == w ==> ReadsAreCurrent(db, released, w, o.tenant)
    ensures Covered(Insert(db, o), released, w, SlackAfter(db, Create(o), w, slack))
  {
    if o.walletFrom != w {
      InsertElsewhereIsCovered(db, o, released, w, slack);
    } else {
      InsertIsBacked(db, o, released, w, 0);
    }
  }

  // ---- Steps that post --------------------------------------------------------------------

  lemma PostingPaysOff(db: Db, p: Payload, w: nat)
    requires Legal(db, WriteEntryPair(p.order.tenant, p)) && !Posted(db, p.transferId)
    ensures Owed(AppendPair(db, p.order.tenant, p), w) == Owed(db, w) - AmountFrom(p.order, w)
  {
    var b := AppendPair(db, p.order.tenant, p);
    forall u: nat ensures Posted(b, u) <==> Posted(db, u) || u == p.transferId {
      PairPosts(db.journal, p.order.tenant, p, u);
    }
    SumBump(|db.transfers|, OwedAt(db, w), OwedAt(b, w), p.transferId);
  }

  lemma PostingOnlyCloses(db: Db, p: Payload, released: set<nat>, w: nat)
    ensures var b := AppendPair(db, p.order.tenant, p);
            Released(b, released, w) == Released(db, released, w) && Open(b, released, w) <= Open(db, released, w)
  {
    var b := AppendPair(db, p.order.tenant, p);
    forall u: nat ensures Posted(b, u) <==> Posted(db, u) || u == p.transferId {
      PairPosts(db.journal, p.order.tenant, p, u);
    }
    SumSame(|db.transfers|, ReleasedAt(db, released, w), ReleasedAt(b, released, w));
    SumMono(|db.transfers|, OpenAt(b, released, w), OpenAt(db, released, w));
  }

  lemma PostingReleasesNothing(db: Db, tenant: nat, p: Payload, released: set<nat>)
    requires FailedAreReleased(db, released)
    ensures FailedAreReleased(AppendPair(db, tenant, p), released)
  {
    var b := AppendPair(db, tenant, p);
    forall t: nat | t < |b.transfers| && b.transfers[t].status == Status.FAILED && !Posted(b, t) ensures t in released {
      PairPosts(db.journal, tenant, p, t);
    }
  }

  lemma PostingIsCovered(db: Db, p: Payload, released: set<nat>, w: nat, slack: int)
    requires Covered(db, released, w, slack)
    requires Legal(db, WriteEntryPair(p.order.tenant, p)) && !Posted(db, p.transferId)
    ensures Covered(AppendPair(db, p.order.tenant, p), released, w, slack)
  {
    PairMovesBalances(db, None, p.order.tenant, p, w);
    PostingPaysOff(db, p, w);
    PostingOnlyCloses(db, p, released, w);
    PostingReleasesNothing(db, p.order.tenant, p, released);
  }

  lemma TopUpReleasesNothing(db: Db, k: nat, amount: nat, released: set<nat>)
    requires FailedAreReleased(db, released) && k < |db.wallets|
    ensures FailedAreReleased(Apply(db, TopUp(k, amount)), released)
  {
    var o, b := TopUpOrder(db, k, amount), Apply(db, TopUp(k, amount));
    forall t: nat | t < |b.transfers| && b.transfers[t].status == Status.FAILED && !Posted(b, t) ensures t in released {
      PairPosts(db.journal, o.tenant, Payload(|db.transfers|, o), t);
    }
  }

  /** A top-up is an insertion from the system wallet followed at once by its posting. */
  lemma TopUpIsCovered(db: Db, k: nat, amount: nat, released: set<nat>, w: nat, slack: int)
    requires NextIdUnused(db, released) && Covered(db, released, w, slack)
    requires k < |db.wallets| && w != SYSTEM_WALLET
    ensures Covered(Apply(db, TopUp(k, amount)), released, w, slack)
  {
    var o, n := TopUpOrder(db, k, amount), |db.transfers|;
    var p, inserted := Payload(n, o), Insert(db, o);
    InsertElsewhereIsCovered(db, o, released, w, slack);
    PostingIsCovered(inserted, p, released, w, slack);
    var posted, b := AppendPair(inserted, o.tenant, p), Apply(db, TopUp(k, amount));
    TopUpReleasesNothing(db, k, amount, released);
    Carry(posted, b, released, released, w, slack);
  }

  // ---- One step ---------------------------------------------------------------------------

  predicate IsRead(step: DbStep) {
    step.Begin? || step.ReadCredits? || step.ReadDebits? || step.ReadReserved?
  }

  lemma ReadHolds(db: Db, step: DbStep, released: set<nat>, w: nat)
    requires IsRead(step) && LockHolds(db, released, w, db.locks)
    requires w in db.locks ==> ReadsAreCurrent(db, released, w, db.locks[w].order.tenant)
    ensures LockHolds(db, released, w, Apply(db, step).locks)
  {
  }

  lemma ReadChangesLocksOnly(db: Db, step: DbStep)
    requires IsRead(step)
    ensures Apply(db, step) == db.(locks := Apply(db, step).locks)
  {
  }

  lemma ReadIsCovered(db: Db, step: DbStep, released: set<nat>, w: nat, slack: int)
    requires IsRead(step) && Covered(db, released, w, slack)
    requires w in db.locks ==> ReadsAreCurrent(db, released, w, db.locks[w].order.tenant)
    ensures Covered(Apply(db, step), released, w, slack)
  {
    ReadHolds(db, step, released, w);
    ReadChangesLocksOnly(db, step);
    LocksAside(db, Apply(db, step).locks, released, w, slack);
  }

  lemma AsideIsCovered(db: Db, b: Db, released: set<nat>, w: nat, slack: int)
    requires Covered(db, released, w, slack)
    requires b.transfers == db.transfers && b.journal == db.journal && b.locks == db.locks
    ensures Covered(b, released, w, slack)
  {
    assert FailedAreReleased(b, released);
    Carry(db, b, released, released, w, slack);
  }

  lemma StatusIsCovered(db: Db, t: nat, status: Status, released: set<nat>, w: nat, slack: int)
    requires Covered(db, released, w, slack)
    ensures status != Status.FAILED ==> Covered(SetStatus(db, t, status), released, w, slack)
    ensures status == Status.FAILED ==>
              Covered(SetStatus(db, t, status), released + Releases(db, SetFailed(t)), w, slack)
  {
    var b := SetStatus(db, t, status);
    var more := if status == Status.FAILED then released + Releases(db, SetFailed(t)) else released;
    forall u: nat | u < |b.transfers| && b.transfers[u].status == Status.FAILED && !Posted(b, u) ensures u in more {
      assert !Posted(db, u);
    }
    Carry(db, b, released, more, w, slack);
  }

  ghost predicate StaysCovered(db: Db, step: DbStep, released: set<nat>, w: nat, slack: int) {
    Covered(Apply(db, step), released + Releases(db, step), w, SlackAfter(db, step, w, slack))
  }

  lemma StatusStepIsCovered(db: Db, step: DbStep, released: set<nat>, w: nat, slack: int)
    requires Covered(db, released, w, slack)
    requires step.SetCompleted? || step.CompleteIfInitiated? || step.SetFailed? || step.Rearm?
    ensures StaysCovered(db, step, released, w, slack)
  {
    hide Covered, Credits, Debits, ComputeBalance, Owed, Released;
    if !step.SetFailed? { assert released + Releases(db, step) == released; }
    StatusIsCovered(db, step.transferId,
                    if step.SetFailed? then Status.FAILED else if step.Rearm? then INITIATED else COMPLETED,
                    released, w, slack);
  }

  lemma QuietStepIsCovered(db: Db, step: DbStep, released: set<nat>, w: nat, slack: int)
    requires Covered(db, released, w, slack)
    requires step.AddWallet? || step.MarkPublished? || step.MarkFailed?
    ensures StaysCovered(db, step, released, w, slack)
  {
    hide Credits, Debits, ComputeBalance, Owed, Released;
    assert released + Releases(db, step) == released;
    AsideIsCovered(db, Apply(db, step), released, w, slack);
  }

  lemma RollbackIsCovered(db: Db, k: nat, released: set<nat>, w: nat, slack: int)
    requires Covered(db, released, w, slack)
    ensures StaysCovered(db, Rollback(k), released, w, slack)
  {
    assert released + Releases(db, Rollback(k)) == released;
    LocksAside(db, Unlock(db, k).locks, released, w, slack);
  }

  lemma TopUpStepIsCovered(db: Db, step: DbStep, released: set<nat>, w: nat, slack: int)
    requires Covered(db, released, w, slack) && NextIdUnused(db, released) && step.TopUp? && w != SYSTEM_WALLET
    ensures StaysCovered(db, step, released, w, slack)
  {
    assert released + Releases(db, step) == released;
    if step.walletId < |db.wallets| { TopUpIsCovered(db, step.walletId, step.amount, released, w, slack); }
  }

  lemma PairStepIsCovered(db: Db, tenant: nat, p: Payload, released: set<nat>, w: nat, slack: int)
    requires Covered(db, released, w, slack) && Legal(db, WriteEntryPair(tenant, p))
    requires PairFits(db, tenant, p) ==> !Posted(db, p.transferId)
    ensures StaysCovered(db, WriteEntryPair(tenant, p), released, w, slack)
  {
    assert released + Releases(db, WriteEntryPair(tenant, p)) == released;
    if PairFits(db, tenant, p) { PostingIsCovered(db, p, released, w, slack); }
  }

  lemma ReadStepIsCovered(db: Db, step: DbStep, released: set<nat>, w: nat, slack: int)
    requires IsRead(step) && Covered(db, released, w, slack)
    requires w in db.locks ==> ReadsAreCurrent(db, released, w, db.locks[w].order.tenant)
    ensures StaysCovered(db, step, released, w, slack)
  {
    assert released + Releases(db, step) == released;
    ReadIsCovered(db, step, released, w, slack);
  }

  /** What soundness contributes to the preservation of the bound. */
  ghost predicate Groundwork(db: Db, step: DbStep, released: set<nat>, w: nat) {
    && NextIdUnused(db, released)
    && (w < |db.wallets| ==> ReadsAreCurrent(db, released, w, db.wallets[w].tenant))
    && (forall k: nat | k in db.locks :: db.locks[k].order.walletFrom == k)
    && (w in db.locks ==> w < |db.wallets| && db.wallets[w].tenant == db.locks[w].order.tenant)
    && (step.WriteEntryPair? && PairFits(db, step.tenant, step.payload) ==> !Posted(db, step.payload.transferId))
  }

  lemma SoundnessGivesGroundwork(db: Db, step: DbStep, released: set<nat>, w: nat)
    requires Sound(db) && Legal(db, step) && FailedAreReleased(db, released)
    requires w != SYSTEM_WALLET && (forall t | t in released :: t < |db.transfers|)
    ensures Groundwork(db, step, released, w)
  {
    NoRows(db.journal, |db.transfers|);
    if w < |db.wallets| { OwnReadsAreCurrent(db, released, w); }
    if step.WriteEntryPair? { PairFitsIffUnposted(db, step.payload); }
  }

  lemma CreatingStepIsCovered(db: Db, step: DbStep, released: set<nat>, w: nat, slack: int)
    requires Groundwork(db, step, released, w) && Covered(db, released, w, slack)
    requires step.Create? || step.Commit?
    ensures StaysCovered(db, step, released, w, slack)
  {
    assert released + Releases(db, step) == released;
    match step {
      case Create(o) => if Creates(db, o) { CreateIsCovered(db, released, w, slack, o); }
      case Commit(k) =>
        if Commits(db, k) {
          if k == w {
            CommitHereIsCovered(db, released, w);
          } else {
            CommitElsewhereIsCovered(db, db.locks[k].order, released, w, slack, k);
          }
        }
    }
  }

  lemma GroundedStepIsCovered(db: Db, step: DbStep, released: set<nat>, w: nat, slack: int)
    requires Groundwork(db, step, released, w) && Legal(db, step) && Covered(db, released, w, slack)
    requires w != SYSTEM_WALLET
    ensures StaysCovered(db, step, released, w, slack)
  {
    if step.Create? || step.Commit? {
      CreatingStepIsCovered(db, step, released, w, slack);
    } else if step.TopUp? {
      TopUpStepIsCovered(db, step, released, w, slack);
    } else if step.WriteEntryPair? {
      PairStepIsCovered(db, step.tenant, step.payload, released, w, slack);
    } else if IsRead(step) {
      ReadStepIsCovered(db, step, released, w, slack);
    } else if step.SetCompleted? || step.CompleteIfInitiated? || step.SetFailed? || step.Rearm? {
      StatusStepIsCovered(db, step, released, w, slack);
    } else if step.Rollback? {
      RollbackIsCovered(db, step.lock, released, w, slack);
    } else {
      QuietStepIsCovered(db, step, released, w, slack);
    }
  }

  /** Every legal step keeps the wallet covered, with what it releases and what its reads missed. */
  lemma StepIsCovered(db: Db, step: DbStep, released: set<nat>, w: nat, slack: int)
    requires Sound(db) && Legal(db, step) && Covered(db, released, w, slack)
    requires w != SYSTEM_WALLET && (forall t | t in released :: t < |db.transfers|)
    ensures StaysCovered(db, step, released, w, slack)
  {
    SoundnessGivesGroundwork(db, step, released, w);
    GroundedStepIsCovered(db, step, released, w, slack);
  }
}
