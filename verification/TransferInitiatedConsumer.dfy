/** The settlement handler as written: nested statements, one catch for all errors. */
module TransferInitiatedConsumer {
  import opened LedgerDb
  import opened Settlement
  import opened Store
  import opened StepFacts
  import Fates

  /** Which of the awaited calls fail during one handling. */
  datatype Faults = Faults(pairWrite: WriteFault, statusUpdate: bool, cacheDelete: bool, failedUpdate: bool)

  /** scheduleRetryOrDlq for a message with this retry count. */
  function FailureScript(i: nat, retryCount: nat, f: Faults): seq<Step> {
    [Reschedule(i)]
    + if retryCount < MAX_RETRIES then [] else [if f.failedUpdate then HandlerDies(i) else MarkTransferFailed(i)]
  }

  predicate Succeeds(db: Db, m: Message, f: Faults) {
    f.pairWrite == Works && PairFits(db, m.tenant, m.payload) && !f.statusUpdate && !f.cacheDelete
  }

  function CompletionScript(i: nat, f: Faults): seq<Step> {
    if f.statusUpdate then [HandlerError(i)]
    else if f.cacheDelete then [Stamp(i), HandlerError(i)]
    else [Stamp(i), Finish(i)]
  }

  /** The steps of the guarded part, up to the publication or to the error that is caught. */
  function TryScript(db: Db, i: nat, m: Message, f: Faults): seq<Step> {
    if f.pairWrite == Fails then [HandlerError(i)]
    else if !PairFits(db, m.tenant, m.payload) then [WritePair(i)]
    else if f.pairWrite == CommitsAndFails then [WritePair(i), HandlerError(i)]
    else [WritePair(i)] + CompletionScript(i, f)
  }

  /** The machine steps one undisturbed handling of token i takes. */
  function HandlerScript(db: Db, i: nat, m: Message, f: Faults): seq<Step> {
    [Deliver(i)] + TryScript(db, i, m, f)
    + if Succeeds(db, m, f) then [] else FailureScript(i, m.retryCount, f)
  }

  /** What a failed write comes to: nothing but the error, or the pair and then the error. */
  lemma FailedWriteIs(s: State, i: nat, f: Faults)
    requires At(s, i, Handling(Received))
    requires f.pairWrite != Works || !PairFits(s.db, s.tokens[i].msg.tenant, s.tokens[i].msg.payload)
    ensures var m := s.tokens[i].msg;
            RunFrom(s, TryScript(s.db, i, m, f))
            == s.(db := if f.pairWrite == CommitsAndFails && PairFits(s.db, m.tenant, m.payload)
                        then AppendPair(s.db, m.tenant, m.payload) else s.db,
                  tokens := s.tokens[i := Token(Acked, m)])
  {
    hide Next, PairFits;
    var m := s.tokens[i].msg;
    if f.pairWrite == Fails {
      Fates.AttemptIs(s, i, HandlerError(i));
      RunOne(s, HandlerError(i));
    } else if !PairFits(s.db, m.tenant, m.payload) {
      Fates.AttemptIs(s, i, WritePair(i));
      RunOne(s, WritePair(i));
    } else {
      WritePairIs(s, i);
      var written := Next(s, WritePair(i));
      ErrorAfterWrite(written, i);
      RunTwo(s, WritePair(i), HandlerError(i));
      assert s.tokens[i := Token(Handling(PairWritten), m)][i := Token(Acked, m)] == s.tokens[i := Token(Acked, m)];
    }
  }

  lemma ErrorAfterWrite(s: State, i: nat)
    requires InHand(s, i)
    ensures Next(s, HandlerError(i)) == s.(tokens := s.tokens[i := Token(Acked, s.tokens[i].msg)])
  {
    OnlyMoves(s, HandlerError(i), i, Token(Acked, s.tokens[i].msg));
  }

  // ---- What one delivery comes to ---------------------------------------------------------

  /** From the written pair on: COMPLETED if the update goes through, and the event if nothing fails. */
  lemma CompletionEnds(s: State, i: nat, f: Faults)
    requires At(s, i, Handling(PairWritten)) && s.tokens[i].msg.payload.transferId < |s.db.transfers|
    ensures var m := s.tokens[i].msg;
            var t := m.payload.transferId;
            RunFrom(s, CompletionScript(i, f))
            == s.(db := s.db.(transfers := if f.statusUpdate then s.db.transfers
                                           else s.db.transfers[t := s.db.transfers[t].(status := COMPLETED)]),
                  tokens := if f.statusUpdate || f.cacheDelete then s.tokens[i := Token(Acked, m)]
                            else s.tokens[i := Token(Gone, m)]
                                 + [Token(CompletedQueue, Message(m.payload, m.tenant, 0, COMPLETED))])
  {
    hide Next;
    var m := s.tokens[i].msg;
    if f.statusUpdate {
      ErrorAfterWrite(s, i);
      RunOne(s, HandlerError(i));
    } else {
      StampIs(s, i);
      var stamped := Next(s, Stamp(i));
      if f.cacheDelete {
        ErrorAfterWrite(stamped, i);
        RunTwo(s, Stamp(i), HandlerError(i));
        assert stamped.tokens[i := Token(Acked, m)] == s.tokens[i := Token(Acked, m)];
      } else {
        FinishIs(stamped, i);
        RunTwo(s, Stamp(i), Finish(i));
        assert stamped.tokens[i := Token(Gone, m)] == s.tokens[i := Token(Gone, m)];
      }
    }
  }

  /** From the ack after an error on: the next delay queue, or the dead letter, FAILED and its event. */
  lemma FailureEnds(s: State, i: nat, f: Faults)
    requires At(s, i, Acked) && s.tokens[i].msg.payload.transferId < |s.db.transfers|
    ensures var m := s.tokens[i].msg;
            var t, n := m.payload.transferId, m.retryCount;
            RunFrom(s, FailureScript(i, n, f))
            == s.(db := s.db.(transfers := if n < 3 || f.failedUpdate then s.db.transfers
                                           else s.db.transfers[t := s.db.transfers[t].(status := Status.FAILED)]),
                  tokens := if n < 3 then s.tokens[i := Token(Delay(n), Message(m.payload, m.tenant, n + 1, m.status))]
                            else s.tokens[i := Token(Gone, m)] + [Token(Dead, m)]
                                 + if f.failedUpdate then []
                                   else [Token(FailedEvent, Message(m.payload, m.tenant, n, Status.FAILED))])
  {
    hide Next, RunFrom;
    var m := s.tokens[i].msg;
    RescheduleIs(s, i);
    if m.retryCount < 3 {
      assert FailureScript(i, m.retryCount, f) == [Reschedule(i)];
      RunOne(s, Reschedule(i));
    } else {
      var last := if f.failedUpdate then HandlerDies(i) else MarkTransferFailed(i);
      assert FailureScript(i, m.retryCount, f) == [Reschedule(i), last];
      RunTwo(s, Reschedule(i), last);
      GivingUpEnds(Next(s, Reschedule(i)), i, f);
      assert (s.tokens[i := Token(Failing, m)] + [Token(Dead, m)])[i := Token(Gone, m)]
             == s.tokens[i := Token(Gone, m)] + [Token(Dead, m)];
    }
  }

  /** The last step of a message that has no retry left. */
  lemma GivingUpEnds(s: State, i: nat, f: Faults)
    requires At(s, i, Failing) && s.tokens[i].msg.payload.transferId < |s.db.transfers|
    ensures var m := s.tokens[i].msg;
            var t := m.payload.transferId;
            Next(s, if f.failedUpdate then HandlerDies(i) else MarkTransferFailed(i))
            == s.(db := s.db.(transfers := if f.failedUpdate then s.db.transfers
                                           else s.db.transfers[t := s.db.transfers[t].(status := Status.FAILED)]),
                  tokens := s.tokens[i := Token(Gone, m)]
                            + if f.failedUpdate then []
                              else [Token(FailedEvent, Message(m.payload, m.tenant, m.retryCount, Status.FAILED))])
  {
    hide Next;
    var m := s.tokens[i].msg;
    if f.failedUpdate {
      DiesGivingUp(s, i);
      assert s.tokens[i := Token(Gone, m)] + [] == s.tokens[i := Token(Gone, m)];
    } else {
      MarkTransferFailedIs(s, i);
    }
  }

  lemma DiesGivingUp(s: State, i: nat)
    requires At(s, i, Failing)
    ensures Next(s, HandlerDies(i)) == s.(tokens := s.tokens[i := Token(Gone, s.tokens[i].msg)])
  {
    OnlyMoves(s, HandlerDies(i), i, Token(Gone, s.tokens[i].msg));
  }

  /** The guarded part, from the delivered message on. */
  lemma AttemptEnds(s: State, i: nat, f: Faults)
    requires At(s, i, Handling(Received)) && s.tokens[i].msg.payload.transferId < |s.db.transfers|
    ensures var m := s.tokens[i].msg;
            var t, o := m.payload.transferId, m.payload.order;
            var fits := PairFits(s.db, m.tenant, m.payload);
            RunFrom(s, TryScript(s.db, i, m, f))
            == s.(db := s.db.(journal := if !fits || f.pairWrite == Fails then s.db.journal
                                         else s.db.journal
                                              + [Entry(m.tenant, o.walletFrom, t, DEBIT, o.fromAmount, o.fromCurrency)]
                                              + [Entry(m.tenant, o.walletTo, t, CREDIT, o.toAmount, o.toCurrency)],
                              transfers := if !fits || f.pairWrite != Works || f.statusUpdate then s.db.transfers
                                           else s.db.transfers[t := s.db.transfers[t].(status := COMPLETED)]),
                  tokens := if fits && f.pairWrite == Works && !f.statusUpdate && !f.cacheDelete
                            then s.tokens[i := Token(Gone, m)]
                                 + [Token(CompletedQueue, Message(m.payload, m.tenant, 0, COMPLETED))]
                            else s.tokens[i := Token(Acked, m)])
  {
    hide Next, PairFits, RunFrom, TryScript;
    var m := s.tokens[i].msg;
    if f.pairWrite != Works || !PairFits(s.db, m.tenant, m.payload) {
      FailedWriteIs(s, i, f);
    } else {
      WritePairIs(s, i);
      var written := Next(s, WritePair(i));
      TryIsWriteAndComplete(s, i, f);
      CompletionEnds(written, i, f);
      assert written.tokens[i := Token(Acked, m)] == s.tokens[i := Token(Acked, m)];
      assert written.tokens[i := Token(Gone, m)] == s.tokens[i := Token(Gone, m)];
    }
  }

  lemma TryIsWriteAndComplete(s: State, i: nat, f: Faults)
    requires At(s, i, Handling(Received)) && f.pairWrite == Works
    requires PairFits(s.db, s.tokens[i].msg.tenant, s.tokens[i].msg.payload)
    ensures RunFrom(s, TryScript(s.db, i, s.tokens[i].msg, f))
            == RunFrom(Next(s, WritePair(i)), CompletionScript(i, f))
  {
    hide Next, PairFits;
    RunCons(s, WritePair(i), CompletionScript(i, f));
  }

  /** The script of a delivery is its attempt and, unless that succeeds, what becomes of a failure. */
  lemma HandlerParts(s: State, i: nat, f: Faults)
    requires At(s, i, Work)
    ensures var m := s.tokens[i].msg;
            var received := s.(tokens := s.tokens[i := Token(Handling(Received), m)]);
            var tried := RunFrom(received, TryScript(s.db, i, m, f));
            RunFrom(s, HandlerScript(s.db, i, m, f))
            == if Succeeds(s.db, m, f) then tried else RunFrom(tried, FailureScript(i, m.retryCount, f))
  {
    hide Next, TryScript, FailureScript, Succeeds;
    var m := s.tokens[i].msg;
    var try, rest := TryScript(s.db, i, m, f), if Succeeds(s.db, m, f) then [] else FailureScript(i, m.retryCount, f);
    DeliverIs(s, i);
    assert HandlerScript(s.db, i, m, f) == [Deliver(i)] + (try + rest);
    RunCons(s, Deliver(i), try + rest);
    RunAppend(Next(s, Deliver(i)), try, rest);
  }

  /** One delivery of a message ends in one of three ways. If its pair fits and no call fails, with the
      pair in the journal, COMPLETED, and the completion published with retry count zero. Otherwise, below
      three retries, in the next delay queue with one retry more; and from three on as a dead letter,
      with FAILED and the failed event unless that update fails too. Only a pair that is refused or fails
      before its commit leaves no rows, and a failure behind the status update leaves COMPLETED. */
  lemma DeliveryEnds(s: State, i: nat, f: Faults)
    requires At(s, i, Work) && s.tokens[i].msg.payload.transferId < |s.db.transfers|
    ensures var m, end := s.tokens[i].msg, RunFrom(s, HandlerScript(s.db, i, s.tokens[i].msg, f));
            var t, o, n := m.payload.transferId, m.payload.order, m.retryCount;
            var fits := PairFits(s.db, m.tenant, m.payload);
            var completes := fits && f.pairWrite == Works && !f.statusUpdate && !f.cacheDelete;
            var stamps := fits && f.pairWrite == Works && !f.statusUpdate;
            && end == s.(db := end.db, tokens := end.tokens)
            && end.db == s.db.(journal := end.db.journal, transfers := end.db.transfers)
            && end.db.journal == (if fits && f.pairWrite != Fails
                                  then s.db.journal
                                       + [Entry(m.tenant, o.walletFrom, t, DEBIT, o.fromAmount, o.fromCurrency)]
                                       + [Entry(m.tenant, o.walletTo, t, CREDIT, o.toAmount, o.toCurrency)]
                                  else s.db.journal)
            && end.db.transfers
               == s.db.transfers[t := s.db.transfers[t].(status :=
                    if !completes && n >= 3 && !f.failedUpdate then Status.FAILED
                    else if stamps then COMPLETED else s.db.transfers[t].status)]
            && end.tokens
               == (if completes then
                     s.tokens[i := Token(Gone, m)]
                     + [Token(CompletedQueue, Message(m.payload, m.tenant, 0, COMPLETED))]
                   else if n < 3 then
                     s.tokens[i := Token(Delay(n), Message(m.payload, m.tenant, n + 1, m.status))]
                   else
                     s.tokens[i := Token(Gone, m)] + [Token(Dead, m)]
                     + if f.failedUpdate then []
                       else [Token(FailedEvent, Message(m.payload, m.tenant, n, Status.FAILED))])
  {
    hide Next, RunFrom, PairFits, TryScript, FailureScript, HandlerScript;
    var m := s.tokens[i].msg;
    var received := s.(tokens := s.tokens[i := Token(Handling(Received), m)]);
    HandlerParts(s, i, f);
    AttemptEnds(received, i, f);
    var tried := RunFrom(received, TryScript(s.db, i, m, f));
    if !Succeeds(s.db, m, f) {
      FailureEnds(tried, i, f);
    }
  }

  /** So a delivery completes its transfer and says so if and only if its pair fits and no call fails. */
  lemma DeliveryCompletesIff(s: State, i: nat, f: Faults)
    requires At(s, i, Work) && s.tokens[i].msg.payload.transferId < |s.db.transfers|
    ensures var m, end := s.tokens[i].msg, RunFrom(s, HandlerScript(s.db, i, s.tokens[i].msg, f));
            && |end.db.transfers| == |s.db.transfers|
            && (end.db.transfers[m.payload.transferId].status == COMPLETED
                && end.tokens == s.tokens[i := Token(Gone, m)]
                                 + [Token(CompletedQueue, Message(m.payload, m.tenant, 0, COMPLETED))]
            <==> PairFits(s.db, m.tenant, m.payload)
                 && f.pairWrite == Works && !f.statusUpdate && !f.cacheDelete)
  {
    hide RunFrom, PairFits, HandlerScript;
    DeliveryEnds(s, i, f);
    var end := RunFrom(s, HandlerScript(s.db, i, s.tokens[i].msg, f));
    assert |end.tokens| > |s.tokens| ==> end.tokens[|s.tokens|].place in {CompletedQueue, Dead};
    assert s.tokens[i].msg.retryCount >= 3 ==> |end.tokens| > |s.tokens|;
  }

  class TransferInitiatedConsumer {
    const store: Store

    constructor (store: Store)
      ensures this.store == store
    {
      this.store := store;
    }

    /** LedgerService.writeJournalEntries: whatever goes wrong surfaces as an internal error. */
    method WriteJournalEntries(tenant: nat, p: Payload, fault: WriteFault) returns (r: Outcome)
      modifies store`journal
      ensures r == if fault == Works && PairFits(old(store.Rows()), tenant, p) then Done else Threw(InternalServerError)
      ensures store.journal
              == if fault == Fails || !PairFits(old(store.Rows()), tenant, p) then old(store.journal)
                 else old(store.journal)
                      + [Entry(tenant, p.order.walletFrom, p.transferId, DEBIT, p.order.fromAmount, p.order.fromCurrency)]
                      + [Entry(tenant, p.order.walletTo, p.transferId, CREDIT, p.order.toAmount, p.order.toCurrency)]
    {
      r := store.WriteEntryPair(tenant, p, fault);
      if r.Threw? { r := Threw(InternalServerError); }
    }

    /** The guarded part. An error leaves the message acked, ready to be scheduled again. */
    method TryToSettle(i: nat, f: Faults, ghost worker: Worker, ghost replays: seq<Replay>) returns (r: Outcome)
      requires At(store.View(worker, replays), i, Handling(Received))
      requires store.tokens[i].msg.payload.transferId < |store.transfers|
      modifies store`journal, store`transfers, store`tokens
      ensures var m := old(store.tokens)[i].msg;
              var t, o := m.payload.transferId, m.payload.order;
              var fits := PairFits(old(store.Rows()), m.tenant, m.payload);
              && r == (if fits && f.pairWrite == Works && !f.statusUpdate && !f.cacheDelete then Done
                       else if fits && f.pairWrite == Works && f.statusUpdate then Threw(DatabaseError)
                       else Threw(InternalServerError))
              && store.journal == (if !fits || f.pairWrite == Fails then old(store.journal)
                                   else old(store.journal)
                                        + [Entry(m.tenant, o.walletFrom, t, DEBIT, o.fromAmount, o.fromCurrency)]
                                        + [Entry(m.tenant, o.walletTo, t, CREDIT, o.toAmount, o.toCurrency)])
              && store.transfers == (if !fits || f.pairWrite != Works || f.statusUpdate then old(store.transfers)
                                     else old(store.transfers)[t := old(store.transfers)[t].(status := COMPLETED)])
              && store.tokens == (if r.Done? then old(store.tokens)[i := Token(Gone, m)]
                                    + [Token(CompletedQueue, Message(m.payload, m.tenant, 0, COMPLETED))]
                                  else old(store.tokens)[i := Token(Acked, m)])
      ensures store.View(worker, replays)
              == RunFrom(old(store.View(worker, replays)),
                         TryScript(old(store.Rows()), i, old(store.tokens)[i].msg, f))
    {
      hide Next;
      var m := store.tokens[i].msg;
      ghost var s := store.View(worker, replays);
      AttemptEnds(s, i, f);

      r := WriteJournalEntries(m.tenant, m.payload, f.pairWrite);
      if r.Threw? {
        store.Move(i, Token(Acked, m));
        FailedWriteIs(s, i, f);
        return;
      }
      store.Move(i, Token(Handling(PairWritten), m));
      WritePairIs(s, i);
      r := Complete(i, f, worker, replays);
      RunCons(s, WritePair(i), CompletionScript(i, f));
    }

    /** From the written pair on: status, cache, event. */
    method Complete(i: nat, f: Faults, ghost worker: Worker, ghost replays: seq<Replay>) returns (r: Outcome)
      requires At(store.View(worker, replays), i, Handling(PairWritten))
      requires store.tokens[i].msg.payload.transferId < |store.transfers|
      modifies store`transfers, store`tokens
      ensures r == if f.statusUpdate then Threw(DatabaseError)
                   else if f.cacheDelete then Threw(InternalServerError) else Done
      ensures var m := old(store.tokens)[i].msg;
              var t := m.payload.transferId;
              && store.transfers == (if f.statusUpdate then old(store.transfers)
                                     else old(store.transfers)[t := old(store.transfers)[t].(status := COMPLETED)])
              && store.tokens == (if r.Threw? then old(store.tokens)[i := Token(Acked, m)]
                                  else old(store.tokens)[i := Token(Gone, m)]
                                       + [Token(CompletedQueue, Message(m.payload, m.tenant, 0, COMPLETED))])
      ensures store.View(worker, replays) == RunFrom(old(store.View(worker, replays)), CompletionScript(i, f))
    {
      hide Next;
      var m := store.tokens[i].msg;
      ghost var s := store.View(worker, replays);

      r := if f.statusUpdate then Threw(DatabaseError) else Done;
      if r.Threw? {
        store.Move(i, Token(Acked, m));
        OnlyMoves(s, HandlerError(i), i, Token(Acked, m));
        RunOne(s, HandlerError(i));
        return;
      }
      r := store.UpdateStatus(m.payload.transferId, COMPLETED);
      store.Move(i, Token(Handling(Stamped), m));
      StampIs(s, i);
      ghost var stamped := store.View(worker, replays);

      r := if f.cacheDelete then Threw(InternalServerError) else Done;
      if r.Threw? {
        store.Move(i, Token(Acked, m));
        OnlyMoves(stamped, HandlerError(i), i, Token(Acked, m));
        RunTwo(s, Stamp(i), HandlerError(i));
        return;
      }
      store.Move(i, Token(Gone, m));
      store.Publish(Token(CompletedQueue, CompletedMessage(m)));
      FinishIs(stamped, i);
      RunTwo(s, Stamp(i), Finish(i));
    }

    /** Publishes the retry, or the dead letter and then the terminal status. */
    method ScheduleRetryOrDlq(i: nat, f: Faults, ghost worker: Worker, ghost replays: seq<Replay>)
      requires At(store.View(worker, replays), i, Acked)
      requires store.tokens[i].msg.payload.transferId < |store.transfers|
      modifies store`transfers, store`tokens
      ensures var m := old(store.tokens)[i].msg;
              var t, n := m.payload.transferId, m.retryCount;
              && store.transfers == (if n < 3 || f.failedUpdate then old(store.transfers)
                                     else old(store.transfers)[t := old(store.transfers)[t].(status := Status.FAILED)])
              && store.tokens
                 == (if n < 3 then
                       old(store.tokens)[i := Token(Delay(n), Message(m.payload, m.tenant, n + 1, m.status))]
                     else
                       old(store.tokens)[i := Token(Gone, m)] + [Token(Dead, m)]
                       + if f.failedUpdate then []
                         else [Token(FailedEvent, Message(m.payload, m.tenant, n, Status.FAILED))])
      ensures store.View(worker, replays)
              == RunFrom(old(store.View(worker, replays)), FailureScript(i, old(store.tokens)[i].msg.retryCount, f))
    {
      hide Next;
      var m := store.tokens[i].msg;
      ghost var s := store.View(worker, replays);
      FailureEnds(s, i, f);
      RescheduleIs(s, i);
      if m.retryCount < MAX_RETRIES {
        store.Move(i, Retried(m));
        RunOne(s, Reschedule(i));
      } else {
        store.Move(i, Token(Failing, m));
        store.Publish(Token(Dead, m));
        ghost var failing := store.View(worker, replays);
        MarkTransferFailed(i, f, worker, replays);
        RunTwo(s, Reschedule(i), FailureScript(i, m.retryCount, f)[1]);
        assert FailureScript(i, m.retryCount, f) == [Reschedule(i), FailureScript(i, m.retryCount, f)[1]];
      }
    }

    /** An error here is logged and swallowed: the transfer keeps its status. */
    method MarkTransferFailed(i: nat, f: Faults, ghost worker: Worker, ghost replays: seq<Replay>)
      requires At(store.View(worker, replays), i, Failing)
      requires store.tokens[i].msg.payload.transferId < |store.transfers|
      modifies store`transfers, store`tokens
      ensures var m := old(store.tokens)[i].msg;
              var t := m.payload.transferId;
              && store.transfers == (if f.failedUpdate then old(store.transfers)
                                     else old(store.transfers)[t := old(store.transfers)[t].(status := Status.FAILED)])
              && store.tokens == old(store.tokens)[i := Token(Gone, m)]
                                 + if f.failedUpdate then []
                                   else [Token(FailedEvent, Message(m.payload, m.tenant, m.retryCount, Status.FAILED))]
      ensures store.View(worker, replays)
              == Next(old(store.View(worker, replays)),
                      if f.failedUpdate then HandlerDies(i) else Settlement.MarkTransferFailed(i))
    {
      hide Next;
      var m := store.tokens[i].msg;
      ghost var s := store.View(worker, replays);
      var r := Threw(DatabaseError);
      if !f.failedUpdate {
        r := store.UpdateStatus(m.payload.transferId, Status.FAILED);
      }
      store.Move(i, Token(Gone, m));
      if r.Done? {
        store.Publish(Token(FailedEvent, FailedMessage(m)));
        MarkTransferFailedIs(s, i);
      } else {
        OnlyMoves(s, HandlerDies(i), i, Token(Gone, m));
      }
    }

    /** Delivers token i and handles it to the end of this attempt. */
    method HandleMessage(i: nat, f: Faults, ghost worker: Worker, ghost replays: seq<Replay>)
      requires At(store.View(worker, replays), i, Work)
      requires store.tokens[i].msg.payload.transferId < |store.transfers|
      modifies store`journal, store`transfers, store`tokens
      ensures store.View(worker, replays)
              == RunFrom(old(store.View(worker, replays)),
                         HandlerScript(old(store.Rows()), i, old(store.tokens)[i].msg, f))
      ensures var m := old(store.tokens)[i].msg;
              var t, o := m.payload.transferId, m.payload.order;
              var fits := PairFits(old(store.Rows()), m.tenant, m.payload);
              store.journal == if !fits || f.pairWrite == Fails then old(store.journal)
                               else old(store.journal)
                                    + [Entry(m.tenant, o.walletFrom, t, DEBIT, o.fromAmount, o.fromCurrency)]
                                    + [Entry(m.tenant, o.walletTo, t, CREDIT, o.toAmount, o.toCurrency)]
      ensures var m := old(store.tokens)[i].msg;
              var t, n := m.payload.transferId, m.retryCount;
              var posts := PairFits(old(store.Rows()), m.tenant, m.payload) && f.pairWrite == Works;
              if posts && !f.statusUpdate && !f.cacheDelete then
                && store.transfers == old(store.transfers)[t := old(store.transfers)[t].(status := COMPLETED)]
                && store.tokens == old(store.tokens)[i := Token(Gone, m)]
                                   + [Token(CompletedQueue, Message(m.payload, m.tenant, 0, COMPLETED))]
              else
                var status := if posts && !f.statusUpdate then COMPLETED else old(store.transfers)[t].status;
                && store.transfers == old(store.transfers)[t := old(store.transfers)[t].(status :=
                                        if n >= 3 && !f.failedUpdate then Status.FAILED else status)]
                && store.tokens
                   == if n < 3 then
                        old(store.tokens)[i := Token(Delay(n), Message(m.payload, m.tenant, n + 1, m.status))]
                      else
                        old(store.tokens)[i := Token(Gone, m)] + [Token(Dead, m)]
                        + if f.failedUpdate then []
                          else [Token(FailedEvent, Message(m.payload, m.tenant, n, Status.FAILED))]
    {
      hide RunFrom, HandlerScript, TryScript, FailureScript, PairFits;
      var m := store.tokens[i].msg;
      HandlerParts(store.View(worker, replays), i, f);

      store.Move(i, Token(Handling(Received), m));
      var r := TryToSettle(i, f, worker, replays);
      if r.Threw? {
        if r.error == UniqueViolation {
          // never taken: a refused pair arrives here as an internal error
          assert false;
        }
        ScheduleRetryOrDlq(i, f, worker, replays);
      }
    }
  }
}
