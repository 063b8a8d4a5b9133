/** The tables, queues and dead letters that all services share, updated in place, and the
    repositories over them. Each method commits one step of the settlement machine. */
module Store {
  import opened Options
  import Money
  import opened LedgerDb
  import opened Settlement
  import Tracking

  datatype Exception =
    | UniqueViolation      // Prisma code P2002
    | DatabaseError
    | InternalServerError

  datatype Outcome = Done | Threw(error: Exception)

  /** A write whose connection fails, before it commits or after. */
  datatype WriteFault = Works | Fails | CommitsAndFails

  datatype Insertion = Inserted(id: nat) | Insufficient | InsertFailed | KeyTaken

  class Store {
    var wallets: seq<Wallet>
    var transfers: seq<Transfer>
    var journal: seq<Entry>
    var outbox: seq<OutboxRow>
    var locks: map<nat, Tx>
    var tokens: seq<Token>
    var dlq: seq<DlqRow>
    var keys: map<nat, nat>  // the unique idempotency keys, and the transfer that has each

    ghost function Rows(): Db
      reads this
    {
      Db(wallets, transfers, journal, outbox, locks)
    }

    /** The machine state, given what lives in process memory. */
    ghost function View(worker: Worker, replays: seq<Replay>): State
      reads this
    {
      State(Rows(), tokens, worker, dlq, replays)
    }

    constructor ()
      ensures View(Idle, []) == INIT && keys == map[]
    {
      wallets, transfers, journal, outbox, locks := [Wallet(0, Money.USD)], [], [], [], map[];
      tokens, dlq, keys := [], [], map[];
    }

    // ---- LedgerRepository -----------------------------------------------------------------

    /** Both rows or neither: the unique index decides before anything is written. A caller that is
        told of an error cannot know which. */
    method WriteEntryPair(tenant: nat, p: Payload, fault: WriteFault) returns (r: Outcome)
      modifies this`journal
      ensures r == if fault == Fails then Threw(DatabaseError)
                   else if !PairFits(old(Rows()), tenant, p) then Threw(UniqueViolation)
                   else if fault == CommitsAndFails then Threw(DatabaseError) else Done
      ensures journal
              == if fault == Fails || !PairFits(old(Rows()), tenant, p) then old(journal)
                 else old(journal)
                      + [Entry(tenant, p.order.walletFrom, p.transferId, DEBIT, p.order.fromAmount, p.order.fromCurrency)]
                      + [Entry(tenant, p.order.walletTo, p.transferId, CREDIT, p.order.toAmount, p.order.toCurrency)]
      ensures fault != Fails ==> Rows() == Apply(old(Rows()), LedgerDb.WriteEntryPair(tenant, p))
    {
      if fault == Fails { return Threw(DatabaseError); }
      var debit, credit := DebitRow(tenant, p), CreditRow(tenant, p);
      if Clashes(journal, debit) || Clashes(journal, credit) { return Threw(UniqueViolation); }
      journal := journal + [debit];
      journal := journal + [credit];
      return if fault == CommitsAndFails then Threw(DatabaseError) else Done;
    }

    // ---- TransferRepository ---------------------------------------------------------------

    method UpdateStatus(t: nat, status: Status) returns (r: Outcome)
      modifies this`transfers
      ensures Rows() == SetStatus(old(Rows()), t, status)
      ensures transfers == if t >= |old(transfers)| then old(transfers)
                           else old(transfers)[t := Transfer(old(transfers)[t].order, status)]
      ensures r == if t < |old(transfers)| then Done else Threw(DatabaseError)
    {
      if t >= |transfers| { return Threw(DatabaseError); }
      transfers := transfers[t := transfers[t].(status := status)];
      return Done;
    }

    /** createWithOutbox run without interference: read, compare, insert both rows. Funds are
        compared before an insert can fail, on an amount that its column cannot hold or on an
        idempotency key that another transfer has. */
    method CreateWithOutbox(o: Order, key: Option<nat>) returns (r: Insertion)
      requires Submitted(Rows(), o) && o.walletFrom !in locks
      modifies this`transfers, this`outbox, this`keys
      ensures r == if old(ComputeBalance(Rows(), Some(o.tenant), o.walletFrom)
                           - ComputePendingOutgoing(Rows(), Some(o.tenant), o.walletFrom)) < o.fromAmount
                   then Insufficient
                   else if o.fromAmount >= 0x8000_0000_0000_0000 || o.toAmount >= 0x8000_0000_0000_0000
                   then InsertFailed
                   else if key.Some? && key.value in old(keys) then KeyTaken
                   else Inserted(|old(transfers)|)
      ensures Rows() == if r.Inserted? then Apply(old(Rows()), Create(o)) else old(Rows())
      ensures r.Inserted? ==> Creates(old(Rows()), o)
      ensures r.Inserted? ==>
                && transfers == old(transfers) + [Transfer(o, INITIATED)]
                && outbox == old(outbox) + [OutboxRow(Payload(|old(transfers)|, o), PENDING, 0)]
      ensures keys == if r.Inserted? && key.Some? then old(keys)[key.value := r.id] else old(keys)
    {
      var db := Db(wallets, transfers, journal, outbox, locks);
      var balance := ComputeBalance(db, Some(o.tenant), o.walletFrom);
      var reserved := ComputePendingOutgoing(db, Some(o.tenant), o.walletFrom);
      var available := balance - reserved;
      if available < o.fromAmount { return Insufficient; }
      if !FitsColumns(o) { return InsertFailed; }
      if key.Some? && key.value in keys { return KeyTaken; }
      r := Inserted(|transfers|);
      transfers := transfers + [Transfer(o, INITIATED)];
      outbox := outbox + [OutboxRow(Payload(r.id, o), PENDING, 0)];
      if key.Some? { keys := keys[key.value := r.id]; }
    }

    // ---- OutboxRepository -----------------------------------------------------------------

    /** PUBLISHED: the row leaves the list of waiting rows, which is otherwise as it was. */
    method MarkPublished(r: nat)
      requires r < |outbox|
      modifies this`outbox
      ensures Rows() == Apply(old(Rows()), LedgerDb.MarkPublished(r))
      ensures outbox == old(outbox)[r := OutboxRow(old(outbox)[r].payload, PUBLISHED, old(outbox)[r].retryCount)]
      ensures PendingRows(outbox) == Tracking.Without(old(PendingRows(outbox)), r)
    {
      hide PendingRows, Tracking.Without;
      Tracking.MarkedRowStopsWaiting(outbox, r, outbox[r].(status := PUBLISHED));
      outbox := outbox[r := outbox[r].(status := PUBLISHED)];
    }

    /** FAILED, however few its retries: it is not waiting any more, either. */
    method MarkFailed(r: nat)
      requires r < |outbox|
      modifies this`outbox
      ensures Rows() == Apply(old(Rows()), LedgerDb.MarkFailed(r))
      ensures var row := old(outbox)[r];
              outbox == old(outbox)[r := OutboxRow(row.payload, OutboxStatus.FAILED, row.retryCount + 1)]
      ensures PendingRows(outbox) == Tracking.Without(old(PendingRows(outbox)), r)
    {
      hide PendingRows, Tracking.Without;
      var row := outbox[r].(status := OutboxStatus.FAILED, retryCount := outbox[r].retryCount + 1);
      Tracking.MarkedRowStopsWaiting(outbox, r, row);
      outbox := outbox[r := row];
    }

    // ---- Channel --------------------------------------------------------------------------

    method Publish(tok: Token)
      modifies this`tokens
      ensures tokens == old(tokens) + [tok]
    {
      tokens := tokens + [tok];
    }

    method Move(i: nat, tok: Token)
      requires i < |tokens|
      modifies this`tokens
      ensures tokens == old(tokens)[i := tok]
    {
      tokens := tokens[i := tok];
    }
  }
}
