/** When a wallet's balance covers its open promises, step by step: which database steps keep it
    so, and the exact condition of the two that may not. A set of transfers counts as withdrawn;
    a promise is an unposted transfer that is not. */
module Promises {
  import opened Options
  import opened Sums
  import opened LedgerDb
  import opened Solvency

  ghost predicate Keeps(db: Db, withdrawn: set<nat>, w: nat) {
    FailedAreReleased(db, withdrawn) && ComputeBalance(db, None, w) >= Open(db, withdrawn, w)
  }

  /** What is left of the balance after all promises. */
  ghost function Free(db: Db, withdrawn: set<nat>, w: nat): int {
    ComputeBalance(db, None, w) - Open(db, withdrawn, w)
  }

  /** A commit that creates a transfer finds its amount free at that moment, whatever its reads say. */
  ghost predicate FundedCommit(db: Db, withdrawn: set<nat>, step: DbStep, w: nat) {
    step.Commit? && step.lock == w && Commits(db, w) ==> Free(db, withdrawn, w) >= db.locks[w].order.fromAmount
  }

  lemma InsertUses(db: Db, o: Order, withdrawn: set<nat>, w: nat)
    requires NextIdUnused(db, withdrawn)
    ensures Free(Insert(db, o), withdrawn, w) == Free(db, withdrawn, w) - AmountFrom(o, w)
    ensures FailedAreReleased(db, withdrawn) ==> FailedAreReleased(Insert(db, o), withdrawn)
  {
    InsertOpens(db, o, withdrawn, w);
    if FailedAreReleased(db, withdrawn) { InsertReleasesNothing(db, o, withdrawn); }
  }

  /** Writing the pair of a promise of w takes it off balance and promises alike; a pair of another
      wallet can only add to the balance. */
  lemma PairIsNeutral(db: Db, p: Payload, withdrawn: set<nat>, w: nat)
    requires Legal(db, WriteEntryPair(p.order.tenant, p)) && !Posted(db, p.transferId) && p.transferId !in withdrawn
    ensures Free(AppendPair(db, p.order.tenant, p), withdrawn, w)
            == Free(db, withdrawn, w) + if p.order.walletTo == w then p.order.toAmount else 0
  {
    var b := AppendPair(db, p.order.tenant, p);
    forall u: nat ensures Posted(b, u) <==> Posted(db, u) || u == p.transferId {
      PairPosts(db.journal, p.order.tenant, p, u);
    }
    SumBump(|db.transfers|, OpenAt(db, withdrawn, w), OpenAt(b, withdrawn, w), p.transferId);
    PairMovesBalances(db, None, p.order.tenant, p, w);
  }

  lemma PairKeeps(db: Db, p: Payload, withdrawn: set<nat>, w: nat)
    requires Keeps(db, withdrawn, w)
    requires Legal(db, WriteEntryPair(p.order.tenant, p)) && !Posted(db, p.transferId) && p.transferId !in withdrawn
    ensures Keeps(AppendPair(db, p.order.tenant, p), withdrawn, w)
  {
    PairIsNeutral(db, p, withdrawn, w);
    PostingReleasesNothing(db, p.order.tenant, p, withdrawn);
  }

  lemma CreateKeeps(db: Db, o: Order, withdrawn: set<nat>, w: nat)
    requires NextIdUnused(db, withdrawn) && Keeps(db, withdrawn, w) && Creates(db, o)
    requires o.walletFrom == w ==> ReadsAreCurrent(db, withdrawn, w, o.tenant)
    ensures Keeps(Insert(db, o), withdrawn, w)
  {
    InsertUses(db, o, withdrawn, w);
  }

  lemma SameBooksKeep(a: Db, b: Db, withdrawn: set<nat>, more: set<nat>, w: nat)
    requires Keeps(a, withdrawn, w) && SameBooks(a, b) && withdrawn <= more && FailedAreReleased(b, more)
    ensures Keeps(b, more, w)
  {
    SameBooksSameSums(a, b, withdrawn, more, w);
  }

  lemma TopUpKeeps(db: Db, k: nat, amount: nat, withdrawn: set<nat>, w: nat)
    requires NextIdUnused(db, withdrawn) && Keeps(db, withdrawn, w) && k < |db.wallets| && w != SYSTEM_WALLET
    ensures Keeps(Apply(db, TopUp(k, amount)), withdrawn, w)
  {
    var o, n := TopUpOrder(db, k, amount), |db.transfers|;
    var inserted, p := Insert(db, o), Payload(n, o);
    InsertUses(db, o, withdrawn, w);
    PairKeeps(inserted, p, withdrawn, w);
    TopUpReleasesNothing(db, k, amount, withdrawn);
    SameBooksKeep(AppendPair(inserted, o.tenant, p), Apply(db, TopUp(k, amount)), withdrawn, withdrawn, w);
  }

  lemma StatusKeeps(db: Db, t: nat, status: Status, withdrawn: set<nat>, w: nat)
    requires Keeps(db, withdrawn, w)
    ensures status != Status.FAILED ==> Keeps(SetStatus(db, t, status), withdrawn, w)
    ensures status == Status.FAILED ==> Keeps(SetStatus(db, t, status), withdrawn + Releases(db, SetFailed(t)), w)
  {
    var b := SetStatus(db, t, status);
    var more := if status == Status.FAILED then withdrawn + Releases(db, SetFailed(t)) else withdrawn;
    forall u: nat | u < |b.transfers| && b.transfers[u].status == Status.FAILED && !Posted(b, u) ensures u in more {
      assert !Posted(db, u);
    }
    SameBooksKeep(db, b, withdrawn, more, w);
  }

  /** A commit leaves the promises of its wallet covered if and only if its amount was free. */
  lemma CommitKeepsIffFunded(db: Db, withdrawn: set<nat>, w: nat)
    requires Sound(db) && Keeps(db, withdrawn, w) && Commits(db, w)
    requires forall t | t in withdrawn :: t < |db.transfers|
    ensures Keeps(Apply(db, Commit(w)), withdrawn, w) <==> FundedCommit(db, withdrawn, Commit(w), w)
  {
    NoRows(db.journal, |db.transfers|);
    CommitUses(db, withdrawn, w, w);
  }

  lemma CommitUses(db: Db, withdrawn: set<nat>, k: nat, w: nat)
    requires NextIdUnused(db, withdrawn) && FailedAreReleased(db, withdrawn) && k in db.locks && Commits(db, k)
    ensures var b := Apply(db, Commit(k));
            FailedAreReleased(b, withdrawn)
            && Free(b, withdrawn, w) == Free(db, withdrawn, w) - AmountFrom(db.locks[k].order, w)
  {
    hide Commits, Free, FailedAreReleased, Insert, NextIdUnused, AmountFrom;
    var inserted := Insert(db, db.locks[k].order);
    InsertUses(db, db.locks[k].order, withdrawn, w);
    LocksDoNotMatter(inserted, Unlock(inserted, k).locks, withdrawn, w);
  }

  lemma CommitKeeps(db: Db, withdrawn: set<nat>, k: nat, w: nat)
    requires NextIdUnused(db, withdrawn) && Keeps(db, withdrawn, w) && Commits(db, k)
    requires FundedCommit(db, withdrawn, Commit(k), w) && (k != w ==> db.locks[k].order.walletFrom != w)
    ensures Keeps(Apply(db, Commit(k)), withdrawn, w)
  {
    hide Apply, Open, ComputeBalance, FailedAreReleased, NextIdUnused;
    CommitUses(db, withdrawn, k, w);
  }

  lemma LocksDoNotMatter(db: Db, locks: map<nat, Tx>, withdrawn: set<nat>, w: nat)
    ensures Free(db.(locks := locks), withdrawn, w) == Free(db, withdrawn, w)
    ensures FailedAreReleased(db, withdrawn) ==> FailedAreReleased(db.(locks := locks), withdrawn)
  {
    SumSame(|db.transfers|, OpenAt(db, withdrawn, w), OpenAt(db.(locks := locks), withdrawn, w));
  }

  /** What one step needs so that the promises stay covered. */
  ghost predicate Harmless(db: Db, step: DbStep, withdrawn: set<nat>, w: nat) {
    && FundedCommit(db, withdrawn, step, w)
    && (step.WriteEntryPair? && PairFits(db, step.tenant, step.payload) ==> step.payload.transferId !in withdrawn)
  }

  lemma GroundedStepKeeps(db: Db, step: DbStep, withdrawn: set<nat>, w: nat)
    requires Groundwork(db, step, withdrawn, w) && Legal(db, step)
    requires Keeps(db, withdrawn, w) && Harmless(db, step, withdrawn, w) && w != SYSTEM_WALLET
    ensures Keeps(Apply(db, step), withdrawn + Releases(db, step), w)
  {
    hide Keeps, Free, Open, ComputeBalance, FailedAreReleased;
    if !step.SetFailed? { assert withdrawn + Releases(db, step) == withdrawn; }
    match step {
      case TopUp(k, amount) => if k < |db.wallets| { TopUpKeeps(db, k, amount, withdrawn, w); }
      case Create(o) => if Creates(db, o) { CreateKeeps(db, o, withdrawn, w); }
      case Commit(k) => if Commits(db, k) { CommitKeeps(db, withdrawn, k, w); }
      case WriteEntryPair(tenant, p) => if PairFits(db, tenant, p) { PairKeeps(db, p, withdrawn, w); }
      case SetCompleted(t) => StatusKeeps(db, t, COMPLETED, withdrawn, w);
      case CompleteIfInitiated(t) => StatusKeeps(db, t, COMPLETED, withdrawn, w);
      case SetFailed(t) => StatusKeeps(db, t, Status.FAILED, withdrawn, w);
      case Rearm(t) => StatusKeeps(db, t, INITIATED, withdrawn, w);
      case _ => AsideKeeps(db, Apply(db, step), withdrawn, w);
    }
  }

  lemma AsideKeeps(db: Db, b: Db, withdrawn: set<nat>, w: nat)
    requires Keeps(db, withdrawn, w) && b.transfers == db.transfers && b.journal == db.journal
    ensures Keeps(b, withdrawn, w)
  {
    assert FailedAreReleased(b, withdrawn);
    SameBooksKeep(db, b, withdrawn, withdrawn, w);
  }

  /** Every legal step but an unfunded commit and the pair of a withdrawn transfer keeps the
      promises covered. */
  lemma StepKeeps(db: Db, step: DbStep, withdrawn: set<nat>, w: nat)
    requires Sound(db) && Legal(db, step) && Keeps(db, withdrawn, w) && Harmless(db, step, withdrawn, w)
    requires w != SYSTEM_WALLET && (forall t | t in withdrawn :: t < |db.transfers|)
    ensures Keeps(Apply(db, step), withdrawn + Releases(db, step), w)
  {
    SoundnessGivesGroundwork(db, step, withdrawn, w);
    GroundedStepKeeps(db, step, withdrawn, w);
  }

  // ---- Every step, exactly ----------------------------------------------------------------

  /** A pair that pays a withdrawn transfer out of w finds its amount free. */
  ghost predicate FundedPair(db: Db, withdrawn: set<nat>, step: DbStep, w: nat) {
    step.WriteEntryPair? && PairFits(db, step.tenant, step.payload) && step.payload.transferId in withdrawn
    && step.payload.order.walletFrom == w ==>
      Free(db, withdrawn, w) + (if step.payload.order.walletTo == w then step.payload.order.toAmount else 0)
      >= step.payload.order.fromAmount
  }

  /** The pair of a withdrawn transfer takes its amount out of what is free: no promise goes with it. */
  lemma WithdrawnPairUses(db: Db, p: Payload, withdrawn: set<nat>, w: nat)
    requires p.transferId in withdrawn
    ensures Free(AppendPair(db, p.order.tenant, p), withdrawn, w)
            == Free(db, withdrawn, w) - AmountFrom(p.order, w) + if p.order.walletTo == w then p.order.toAmount else 0
    ensures FailedAreReleased(db, withdrawn) ==> FailedAreReleased(AppendPair(db, p.order.tenant, p), withdrawn)
  {
    var b := AppendPair(db, p.order.tenant, p);
    forall u: nat ensures Posted(b, u) <==> Posted(db, u) || u == p.transferId {
      PairPosts(db.journal, p.order.tenant, p, u);
    }
    SumSame(|db.transfers|, OpenAt(db, withdrawn, w), OpenAt(b, withdrawn, w));
    PairMovesBalances(db, None, p.order.tenant, p, w);
  }

  lemma WithdrawnPairKeepsIffFunded(db: Db, p: Payload, withdrawn: set<nat>, w: nat)
    requires Keeps(db, withdrawn, w) && PairFits(db, p.order.tenant, p) && p.transferId in withdrawn
    ensures Keeps(Apply(db, WriteEntryPair(p.order.tenant, p)), withdrawn, w)
            <==> FundedPair(db, withdrawn, WriteEntryPair(p.order.tenant, p), w)
  {
    hide PairFits, ComputeBalance, Open, FailedAreReleased, AppendPair;
    WithdrawnPairUses(db, p, withdrawn, w);
  }

  /** Any legal step leaves the promises of w covered if and only if, should it commit a creation or
      pay a withdrawn transfer out of w, the amount is free. */
  lemma StepKeepsIffFunded(db: Db, step: DbStep, withdrawn: set<nat>, w: nat)
    requires Sound(db) && Legal(db, step) && Keeps(db, withdrawn, w)
    requires w != SYSTEM_WALLET && (forall t | t in withdrawn :: t < |db.transfers|)
    ensures Keeps(Apply(db, step), withdrawn + Releases(db, step), w)
            <==> FundedCommit(db, withdrawn, step, w) && FundedPair(db, withdrawn, step, w)
  {
    hide Keeps, Sound, Apply, FailedAreReleased, Free;
    if step.Commit? && step.lock == w && Commits(db, w) {
      assert withdrawn + Releases(db, step) == withdrawn;
      CommitKeepsIffFunded(db, withdrawn, w);
    } else if step.WriteEntryPair? && PairFits(db, step.tenant, step.payload) && step.payload.transferId in withdrawn {
      assert withdrawn + Releases(db, step) == withdrawn;
      WithdrawnPairKeepsIffFunded(db, step.payload, withdrawn, w);
    } else {
      StepKeeps(db, step, withdrawn, w);
    }
  }

  // ---- Promising again --------------------------------------------------------------------

  /** The amount of a withdrawn, unposted transfer is free, so that it can be promised again. */
  ghost predicate Affordable(db: Db, t: nat, withdrawn: set<nat>) {
    && t < |db.transfers| && !Posted(db, t)
    && var o := db.transfers[t].order;
       Free(db, withdrawn, o.walletFrom) >= o.fromAmount
  }

  /** Counting an unposted transfer as a promise again takes its amount from what is free. */
  lemma RearmUses(db: Db, t: nat, withdrawn: set<nat>, w: nat)
    requires t < |db.transfers| && !Posted(db, t) && t in withdrawn
    ensures Free(Apply(db, Rearm(t)), withdrawn - {t}, w)
            == Free(db, withdrawn, w) - AmountFrom(db.transfers[t].order, w)
    ensures FailedAreReleased(db, withdrawn) ==> FailedAreReleased(Apply(db, Rearm(t)), withdrawn - {t})
  {
    var b := Apply(db, Rearm(t));
    PromisesAgain(db, b, t, withdrawn, w);
  }

  lemma PromisesAgain(db: Db, b: Db, t: nat, withdrawn: set<nat>, w: nat)
    requires t < |db.transfers| && !Posted(db, t) && t in withdrawn
    requires SameBooks(db, b)
    ensures Open(b, withdrawn - {t}, w) == Open(db, withdrawn, w) + AmountFrom(db.transfers[t].order, w)
    ensures ComputeBalance(b, None, w) == ComputeBalance(db, None, w)
  {
    SumBump(|db.transfers|, OpenAt(db, withdrawn, w), OpenAt(b, withdrawn - {t}, w), t);
  }

  /** Re-arming a withdrawn transfer leaves its wallet's promises covered, it included, if and only
      if its amount was free; every other wallet's stay covered. */
  lemma RearmKeepsIffAffordable(db: Db, t: nat, withdrawn: set<nat>, w: nat)
    requires t < |db.transfers| && !Posted(db, t) && t in withdrawn && Keeps(db, withdrawn, w)
    ensures Keeps(Apply(db, Rearm(t)), withdrawn - {t}, w)
            <==> (db.transfers[t].order.walletFrom == w ==> Affordable(db, t, withdrawn))
  {
    RearmUses(db, t, withdrawn, w);
  }

  /** The check that a creation makes is enough for a replay too. */
  lemma CreationCheckSuffices(db: Db, t: nat, withdrawn: set<nat>)
    requires Sound(db) && FailedAreReleased(db, withdrawn) && t < |db.transfers| && !Posted(db, t)
    requires db.transfers[t].order.walletFrom != SYSTEM_WALLET && Covers(db, db.transfers[t].order)
    ensures Affordable(db, t, withdrawn)
  {
    assert SoundTransfer(db, t);
    OwnReadsAreCurrent(db, withdrawn, db.transfers[t].order.walletFrom);
  }
}
