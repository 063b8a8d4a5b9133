/** What the faults put in circulation: a message of a transfer that is already posted, in whatever
    way there comes to be one, ends with the transfer FAILED and dead-lettered. */
module SecondCopies {
  import opened LedgerDb
  import opened Settlement
  import opened StepFacts
  import opened Fates

  /** The message at i, handled to its end, finds its transfer posted. */
  lemma PostedMessageFails(s: State, i: nat)
    requires At(s, i, Work) && s.tokens[i].msg.retryCount <= 3
    requires var m := s.tokens[i].msg;
             m.payload.transferId < |s.db.transfers| && !PairFits(s.db, m.tenant, m.payload)
    ensures var m := s.tokens[i].msg;
            var end := RunFrom(s, Bounces(i, WritePair(i), 3 - m.retryCount));
            && end.db.journal == s.db.journal
            && m.payload.transferId < |end.db.transfers|
            && end.db.transfers[m.payload.transferId].status == Status.FAILED
            && Token(Dead, Message(m.payload, m.tenant, 3, m.status)) in end.tokens
  {
    hide Next, RunFrom, Bounces, PairFits;
    FailingMessageIsBuried(s, i, WritePair(i));
    var end := Buried(s, i);
    assert end.tokens[|s.tokens|] == Token(Dead, s.tokens[i].msg.(retryCount := MAX_RETRIES));
  }

  lemma FailsAfter(s: State, before: seq<Step>, i: nat, m: Message)
    requires var mid := RunFrom(s, before);
             && At(mid, i, Work) && mid.tokens[i].msg == m && m.retryCount <= 3
             && m.payload.transferId < |mid.db.transfers| && !PairFits(mid.db, m.tenant, m.payload)
    ensures var end := RunFrom(s, before + Bounces(i, WritePair(i), 3 - m.retryCount));
            && end.db.journal == RunFrom(s, before).db.journal
            && m.payload.transferId < |end.db.transfers|
            && end.db.transfers[m.payload.transferId].status == Status.FAILED
            && Token(Dead, Message(m.payload, m.tenant, 3, m.status)) in end.tokens
  {
    hide Next, RunFrom, Bounces, PairFits;
    RunAppend(s, before, Bounces(i, WritePair(i), 3 - m.retryCount));
    PostedMessageFails(RunFrom(s, before), i);
  }

  lemma PostedPairClashes(db: Db, tenant: nat, p: Payload)
    ensures !PairFits(AppendPair(db, tenant, p), tenant, p)
  {
    var j := AppendPair(db, tenant, p).journal;
    assert j[|db.journal|] == DebitRow(tenant, p);
  }

  // ---- Redelivery -------------------------------------------------------------------------

  lemma RedeliverIs(s: State, i: nat)
    requires InHand(s, i)
    ensures Next(s, Redeliver(i)) == s.(tokens := s.tokens + [Token(Work, s.tokens[i].msg)])
  {
  }

  lemma RedeliveredAndPosted(s: State, i: nat)
    requires At(s, i, Work) && PairFits(s.db, s.tokens[i].msg.tenant, s.tokens[i].msg.payload)
    ensures var m := s.tokens[i].msg;
            RunFrom(s, [Deliver(i), Redeliver(i)] + [WritePair(i), Stamp(i), Finish(i)])
            == s.(db := SetStatus(AppendPair(s.db, m.tenant, m.payload), m.payload.transferId, COMPLETED),
                  tokens := s.tokens[i := Token(Gone, m)] + [Token(Work, m)]
                            + [Token(CompletedQueue, Message(m.payload, m.tenant, 0, COMPLETED))])
  {
    hide Next, PairFits;
    var m := s.tokens[i].msg;
    RunAppend(s, [Deliver(i), Redeliver(i)], [WritePair(i), Stamp(i), Finish(i)]);
    RunTwo(s, Deliver(i), Redeliver(i));
    DeliverIs(s, i);
    RedeliverIs(Next(s, Deliver(i)), i);
    var a := s.(tokens := s.tokens[i := Token(Handling(Received), m)] + [Token(Work, m)]);
    RunThree(a, WritePair(i), Stamp(i), Finish(i));
    WritePairIs(a, i);
    StampIs(Next(a, WritePair(i)), i);
    FinishIs(Next(Next(a, WritePair(i)), Stamp(i)), i);
    assert Next(Next(a, WritePair(i)), Stamp(i)).tokens[i := Token(Gone, m)]
           == s.tokens[i := Token(Gone, m)] + [Token(Work, m)];
  }

  /** A message that the broker redelivers while its handler still runs: the first handling completes the
      transfer, the second takes it back to FAILED, though its pair is in the journal. */
  lemma RedeliveredTransfersEndFailed(s: State, i: nat)
    requires At(s, i, Work) && s.tokens[i].msg.retryCount <= 3
    requires var m := s.tokens[i].msg; m.payload.transferId < |s.db.transfers| && PairFits(s.db, m.tenant, m.payload)
    ensures var m, j := s.tokens[i].msg, |s.tokens|;
            var completed := [Deliver(i), Redeliver(i)] + [WritePair(i), Stamp(i), Finish(i)];
            var mid := RunFrom(s, completed).db;
            var end := RunFrom(s, completed + Bounces(j, WritePair(j), 3 - m.retryCount)).db;
            && m.payload.transferId < |mid.transfers| && m.payload.transferId < |end.transfers|
            && mid.transfers[m.payload.transferId].status == COMPLETED && Posted(end, m.payload.transferId)
            && end.transfers[m.payload.transferId].status == Status.FAILED
  {
    hide RunFrom, Next, PairFits, Bounces;
    var m := s.tokens[i].msg;
    RedeliveredAndPosted(s, i);
    PostedPairClashes(s.db, m.tenant, m.payload);
    FitsByJournal(AppendPair(s.db, m.tenant, m.payload),
                  SetStatus(AppendPair(s.db, m.tenant, m.payload), m.payload.transferId, COMPLETED), m);
    PairPosts(s.db.journal, m.tenant, m.payload, m.payload.transferId);
    FailsAfter(s, [Deliver(i), Redeliver(i)] + [WritePair(i), Stamp(i), Finish(i)], |s.tokens|, m);
  }

  /** Whether a pair fits is a matter of the journal alone. */
  lemma FitsByJournal(a: Db, b: Db, m: Message)
    requires a.journal == b.journal
    ensures PairFits(a, m.tenant, m.payload) <==> PairFits(b, m.tenant, m.payload)
  {
  }

  // ---- A crash before the ack -------------------------------------------------------------

  lemma HandlerDiesIs(s: State, i: nat)
    requires InHand(s, i)
    ensures Next(s, HandlerDies(i)) == s.(tokens := s.tokens[i := Token(Work, s.tokens[i].msg)])
  {
    OnlyMoves(s, HandlerDies(i), i, Token(Work, s.tokens[i].msg));
  }

  lemma PostedThenBack(s: State, i: nat)
    requires At(s, i, Work) && PairFits(s.db, s.tokens[i].msg.tenant, s.tokens[i].msg.payload)
    ensures var m := s.tokens[i].msg;
            RunFrom(s, [Deliver(i), WritePair(i), HandlerDies(i)])
            == s.(db := AppendPair(s.db, m.tenant, m.payload))
  {
    hide Next, PairFits;
    var m := s.tokens[i].msg;
    RunThree(s, Deliver(i), WritePair(i), HandlerDies(i));
    DeliverIs(s, i);
    WritePairIs(Next(s, Deliver(i)), i);
    HandlerDiesIs(Next(Next(s, Deliver(i)), WritePair(i)), i);
    assert s.tokens[i := Token(Handling(Received), m)][i := Token(Handling(PairWritten), m)][i := Token(Work, m)]
           == s.tokens;
  }

  /** A handler that dies between the pair and its ack: the message comes back as it was, and handling
      it again ends FAILED, though the pair is in the journal. */
  lemma CrashAfterPairEndsFailed(s: State, i: nat)
    requires At(s, i, Work) && s.tokens[i].msg.retryCount <= 3
    requires var m := s.tokens[i].msg; m.payload.transferId < |s.db.transfers| && PairFits(s.db, m.tenant, m.payload)
    ensures var m := s.tokens[i].msg;
            var end := RunFrom(s, [Deliver(i), WritePair(i), HandlerDies(i)]
                                  + Bounces(i, WritePair(i), 3 - m.retryCount)).db;
            && m.payload.transferId < |end.transfers| && Posted(end, m.payload.transferId)
            && end.transfers[m.payload.transferId].status == Status.FAILED
  {
    hide RunFrom, Next, PairFits, Bounces;
    var m := s.tokens[i].msg;
    PostedThenBack(s, i);
    PostedPairClashes(s.db, m.tenant, m.payload);
    PairPosts(s.db.journal, m.tenant, m.payload, m.payload.transferId);
    FailsAfter(s, [Deliver(i), WritePair(i), HandlerDies(i)], i, m);
  }

  // ---- A second publisher -----------------------------------------------------------------

  lemma DuplicatePublishIs(s: State, r: nat)
    requires r < |s.db.outbox|
    ensures var p := s.db.outbox[r].payload;
            Next(s, DuplicatePublish(r))
            == s.(tokens := s.tokens + [Token(Work, Message(p, p.order.tenant, 0, INITIATED))])
  {
  }

  /** A row that a second process publishes again after its transfer was posted. */
  lemma RepublishedTransfersEndFailed(s: State, r: nat)
    requires Inv(s) && r < |s.db.outbox| && Posted(s.db, s.db.outbox[r].payload.transferId)
    ensures var t, j := s.db.outbox[r].payload.transferId, |s.tokens|;
            var end := RunFrom(s, [DuplicatePublish(r)] + Bounces(j, WritePair(j), 3)).db;
            t < |end.transfers| && end.journal == s.db.journal && end.transfers[t].status == Status.FAILED
  {
    hide RunFrom, Next, PairFits, Bounces;
    var p := s.db.outbox[r].payload;
    assert Copies(s.db, p);
    PairFitsIffUnposted(s.db, p);
    RunOne(s, DuplicatePublish(r));
    DuplicatePublishIs(s, r);
    FailsAfter(s, [DuplicatePublish(r)], |s.tokens|, Message(p, p.order.tenant, 0, INITIATED));
  }

  // ---- The completion's own consumer ------------------------------------------------------

  /** It completes the transfer if it is INITIATED, and leaves any other status alone. */
  lemma ConfirmationIs(s: State, i: nat)
    requires At(s, i, CompletedQueue)
    ensures var m := s.tokens[i].msg;
            var t := m.payload.transferId;
            Next(s, ConsumeCompleted(i))
            == s.(db := s.db.(transfers := if t >= |s.db.transfers| || s.db.transfers[t].status != INITIATED
                                           then s.db.transfers
                                           else s.db.transfers[t := s.db.transfers[t].(status := COMPLETED)]),
                  tokens := s.tokens[i := Token(Gone, m)])
  {
    var m := s.tokens[i].msg;
    assert s.tokens[i := Token(Gone, m)] + [] == s.tokens[i := Token(Gone, m)];
  }

  lemma CompletedErrorIs(s: State, i: nat)
    requires At(s, i, CompletedQueue) && s.tokens[i].msg.retryCount < 3
    ensures var m := s.tokens[i].msg;
            Next(s, CompletedError(i))
            == s.(tokens := s.tokens[i := Token(Delay(m.retryCount), m.(retryCount := m.retryCount + 1))])
  {
    var m := s.tokens[i].msg;
    OnlyMoves(s, CompletedError(i), i, Retried(m));
  }

  lemma CompletionFallsBack(s: State, i: nat)
    requires At(s, i, CompletedQueue) && s.tokens[i].msg.retryCount < 3
    ensures var m := s.tokens[i].msg;
            RunFrom(s, [CompletedError(i), Expire(i)])
            == s.(tokens := s.tokens[i := Token(Work, m.(retryCount := m.retryCount + 1))])
  {
    hide Next;
    var m := s.tokens[i].msg;
    RunTwo(s, CompletedError(i), Expire(i));
    CompletedErrorIs(s, i);
    ExpireIs(Next(s, CompletedError(i)), i);
  }

  /** If the completion's consumer fails once, its message expires into settlement, and there the
      completed transfer ends FAILED and dead-lettered. */
  lemma FailedConfirmationsFailTransfers(s: State, i: nat)
    requires Inv(s) && At(s, i, CompletedQueue) && s.tokens[i].msg.retryCount < 3
    ensures var m := s.tokens[i].msg;
            var end := RunFrom(s, [CompletedError(i), Expire(i)] + Bounces(i, WritePair(i), 2 - m.retryCount));
            && m.payload.transferId < |end.db.transfers| && end.db.journal == s.db.journal
            && Posted(end.db, m.payload.transferId)
            && end.db.transfers[m.payload.transferId].status == Status.FAILED
            && Token(Dead, Message(m.payload, m.tenant, 3, m.status)) in end.tokens
  {
    hide RunFrom, Next, PairFits, Bounces;
    var m := s.tokens[i].msg;
    assert Wellformed(s.db, s.tokens[i]);
    PairFitsIffUnposted(s.db, m.payload);
    CompletionFallsBack(s, i);
    FailsAfter(s, [CompletedError(i), Expire(i)], i, m.(retryCount := m.retryCount + 1));
  }
}
