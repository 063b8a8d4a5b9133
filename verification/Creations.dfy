/** createWithOutbox in its statements: together they are the snapshot, abandoned they are nothing. */
module Creations {
  import opened Options
  import opened Sums
  import opened LedgerDb

  function ApplyAll(db: Db, steps: seq<DbStep>): Db {
    if steps == [] then db else Apply(ApplyAll(db, steps[..|steps| - 1]), steps[|steps| - 1])
  }

  lemma ApplySnoc(db: Db, steps: seq<DbStep>, step: DbStep)
    ensures ApplyAll(db, steps + [step]) == Apply(ApplyAll(db, steps), step)
  {
    assert (steps + [step])[..|steps|] == steps;
  }

  /** The three reads, the two of the journal in either order. */
  function Reads(w: nat, debitsFirst: bool): seq<DbStep> {
    (if debitsFirst then [ReadDebits(w), ReadCredits(w)] else [ReadCredits(w), ReadDebits(w)]) + [ReadReserved(w)]
  }

  lemma ApplyFour(db: Db, a: DbStep, b: DbStep, c: DbStep, d: DbStep)
    ensures ApplyAll(db, [a] + ([b, c] + [d])) == Apply(Apply(Apply(Apply(db, a), b), c), d)
  {
    hide Apply;
    assert ApplyAll(db, []) == db;
    ApplySnoc(db, [], a);
    ApplySnoc(db, [] + [a], b);
    ApplySnoc(db, [] + [a] + [b], c);
    ApplySnoc(db, [] + [a] + [b] + [c], d);
    assert [a] + ([b, c] + [d]) == [] + [a] + [b] + [c] + [d];
  }

  /** Locks do not enter into any sum. */
  lemma SameSums(a: Db, b: Db, scope: Option<nat>, w: nat)
    requires b.journal == a.journal && b.transfers == a.transfers
    ensures Credits(b, scope, w) == Credits(a, scope, w) && Debits(b, scope, w) == Debits(a, scope, w)
    ensures ComputePendingOutgoing(b, scope, w) == ComputePendingOutgoing(a, scope, w)
  {
    SumSame(|a.transfers|, ReservedAt(a, scope, w), ReservedAt(b, scope, w));
  }

  lemma JournalReadingsAre(begun: Db, o: Order, debitsFirst: bool)
    requires o.walletFrom in begun.locks && begun.locks[o.walletFrom] == Tx(o, None, None, None)
    ensures var w, scope := o.walletFrom, Some(o.tenant);
            var first, second := Reads(w, debitsFirst)[0], Reads(w, debitsFirst)[1];
            Apply(Apply(begun, first), second)
            == begun.(locks := begun.locks[w := Tx(o, Some(Credits(begun, scope, w)), Some(Debits(begun, scope, w)), None)])
  {
    var w, scope := o.walletFrom, Some(o.tenant);
    var once := Apply(begun, Reads(w, debitsFirst)[0]);
    SameSums(begun, once, scope, w);
  }

  lemma ReadingsAre(db: Db, o: Order, debitsFirst: bool)
    requires Admissible(db, o) && o.walletFrom !in db.locks
    ensures var w, scope := o.walletFrom, Some(o.tenant);
            ApplyAll(db, [Begin(o)] + Reads(w, debitsFirst))
            == db.(locks := db.locks[w := Tx(o, Some(Credits(db, scope, w)), Some(Debits(db, scope, w)),
                                             Some(ComputePendingOutgoing(db, scope, w)))])
  {
    hide Admissible, ApplyAll, Credits, Debits, ComputePendingOutgoing;
    var w, scope := o.walletFrom, Some(o.tenant);
    var first, second := Reads(w, debitsFirst)[0], Reads(w, debitsFirst)[1];
    var begun := db.(locks := db.locks[w := Tx(o, None, None, None)]);
    ApplyFour(db, Begin(o), first, second, ReadReserved(w));
    assert Reads(w, debitsFirst) == [first, second] + [ReadReserved(w)];
    JournalReadingsAre(begun, o, debitsFirst);
    SameSums(db, begun, scope, w);
    SameSums(db, Apply(Apply(begun, first), second), scope, w);
  }

  /** If nothing interleaves, the statements of a creation, whichever sum is read first, are its
      snapshot: with enough funds, both rows and no lock; without, nothing once it is rolled back. */
  lemma UndisturbedCreationIsSnapshot(db: Db, o: Order, debitsFirst: bool)
    requires Admissible(db, o) && o.walletFrom !in db.locks
    ensures var w := o.walletFrom;
            var read := ApplyAll(db, [Begin(o)] + Reads(w, debitsFirst));
            Apply(if Commits(read, w) then Apply(read, Commit(w)) else read, Rollback(w)) == Apply(db, Create(o))
            && (Commits(read, w) <==> Creates(db, o)) && (Commits(read, w) ==> w !in Apply(read, Commit(w)).locks)
  {
    hide Admissible, ApplyAll;
    ReadingsAre(db, o, debitsFirst);
    var w := o.walletFrom;
    var read := ApplyAll(db, [Begin(o)] + Reads(w, debitsFirst));
    assert Unlock(read, w).locks == db.locks;
    assert Unlock(Unlock(read, w), w).locks == db.locks;
  }

  predicate IsRead(step: DbStep, w: nat) {
    step == ReadCredits(w) || step == ReadDebits(w) || step == ReadReserved(w)
  }

  lemma ReadTouchesTheLockOnly(db: Db, w: nat, query: DbStep)
    requires w in db.locks && IsRead(query, w)
    ensures var end := Apply(db, query); w in end.locks && end == db.(locks := db.locks[w := end.locks[w]])
  {
    hide Credits, Debits, ComputePendingOutgoing;
  }

  lemma {:induction false} ReadsTouchTheLockOnly(db: Db, o: Order, queries: seq<DbStep>)
    requires Admissible(db, o) && o.walletFrom !in db.locks
    requires forall i | 0 <= i < |queries| :: IsRead(queries[i], o.walletFrom)
    ensures var end := ApplyAll(db, [Begin(o)] + queries);
            o.walletFrom in end.locks && end == db.(locks := db.locks[o.walletFrom := end.locks[o.walletFrom]])
  {
    if queries == [] {
      assert ApplyAll(db, []) == db && [] + [Begin(o)] == [Begin(o)] + queries;
      ApplySnoc(db, [], Begin(o));
    } else {
      hide ApplyAll, Apply;
      var n := |queries| - 1;
      ReadsTouchTheLockOnly(db, o, queries[..n]);
      assert [Begin(o)] + queries == ([Begin(o)] + queries[..n]) + [queries[n]];
      ApplySnoc(db, [Begin(o)] + queries[..n], queries[n]);
      ReadTouchesTheLockOnly(ApplyAll(db, [Begin(o)] + queries[..n]), o.walletFrom, queries[n]);
    }
  }

  /** A creation that is abandoned, after whichever of its reads, leaves no trace. */
  lemma AbandonedCreationLeavesNoTrace(db: Db, o: Order, queries: seq<DbStep>)
    requires Admissible(db, o) && o.walletFrom !in db.locks
    requires forall i | 0 <= i < |queries| :: IsRead(queries[i], o.walletFrom)
    ensures ApplyAll(db, [Begin(o)] + queries + [Rollback(o.walletFrom)]) == db
  {
    hide ApplyAll, Admissible;
    var read := ApplyAll(db, [Begin(o)] + queries);
    ReadsTouchTheLockOnly(db, o, queries);
    ApplySnoc(db, [Begin(o)] + queries, Rollback(o.walletFrom));
    assert Unlock(read, o.walletFrom).locks == db.locks;
  }

  /** A creation on a wallet that another one holds waits, and each of the statements of that other one
      runs once, the reservations after both sums. */
  lemma HeldWalletsWait(db: Db, w: nat)
    requires w in db.locks
    ensures forall o: Order | o.walletFrom == w :: Apply(db, Begin(o)) == db && Apply(db, Create(o)) == db
    ensures var tx := db.locks[w];
            && (tx.credits.Some? ==> Apply(db, ReadCredits(w)) == db)
            && (tx.debits.Some? ==> Apply(db, ReadDebits(w)) == db)
            && (tx.reserved.Some? || tx.credits.None? || tx.debits.None? ==> Apply(db, ReadReserved(w)) == db)
            && (tx.reserved.None? ==> Apply(db, Commit(w)) == db)
  {
  }

  /** A transfer reserves its amount in its source wallet, within its tenant, as long as it is INITIATED
      or PROCESSING: a new status moves the reservation by exactly that. */
  lemma StatusMovesReservation(db: Db, t: nat, status: Status, scope: Option<nat>, w: nat)
    requires t < |db.transfers|
    ensures var o, was := db.transfers[t].order, db.transfers[t].status;
            ComputePendingOutgoing(SetStatus(db, t, status), scope, w) - ComputePendingOutgoing(db, scope, w)
            == if o.walletFrom != w || (scope.Some? && scope.value != o.tenant) then 0
               else (if status in {INITIATED, PROCESSING} then o.fromAmount else 0)
                    - (if was in {INITIATED, PROCESSING} then o.fromAmount else 0)
  {
    var b := SetStatus(db, t, status);
    SumBump(|db.transfers|, ReservedAt(db, scope, w), ReservedAt(b, scope, w), t);
  }
}
