/** What becomes of one delivered message, followed to its end, and where the documented
    "no overdraft possible" gives way. */
module Fates {
  import opened Options
  import opened LedgerDb
  import opened Settlement
  import opened StepFacts

  // ---- A message whose every attempt fails ------------------------------------------------

  /** An attempt that ends in an error: a failed statement, or a pair the unique index refuses. */
  predicate FailedAttempt(db: Db, m: Message, i: nat, attempt: Step) {
    || attempt == HandlerError(i)
    || (attempt == WritePair(i) && !PairFits(db, m.tenant, m.payload))
  }

  lemma AttemptIs(s: State, i: nat, attempt: Step)
    requires At(s, i, Handling(Received)) && FailedAttempt(s.db, s.tokens[i].msg, i, attempt)
    ensures Next(s, attempt) == s.(tokens := s.tokens[i := Token(Acked, s.tokens[i].msg)])
  {
    var tok := Token(Acked, s.tokens[i].msg);
    if attempt == HandlerError(i) {
      OnlyMoves(s, attempt, i, tok);
    } else {
      assert s.tokens[i := tok] + [] == s.tokens[i := tok];
      assert NextDb(s, attempt) == s.db;
    }
  }

  /** Deliver, fail and reschedule until the retries are exhausted, then write FAILED. */
  function Bounces(i: nat, attempt: Step, retriesLeft: nat): seq<Step> {
    [Deliver(i), attempt, Reschedule(i)]
    + if retriesLeft == 0 then [MarkTransferFailed(i)] else [Expire(i)] + Bounces(i, attempt, retriesLeft - 1)
  }

  function Buried(s: State, i: nat): State
    requires i < |s.tokens|
  {
    var m := s.tokens[i].msg.(retryCount := MAX_RETRIES);
    s.(db := SetStatus(s.db, m.payload.transferId, Status.FAILED),
       tokens := s.tokens[i := Token(Gone, m)] + [Token(Dead, m), Token(FailedEvent, FailedMessage(m))])
  }

  lemma OneBounce(s: State, i: nat, attempt: Step)
    requires At(s, i, Work) && FailedAttempt(s.db, s.tokens[i].msg, i, attempt)
    ensures var m := s.tokens[i].msg;
            RunFrom(s, [Deliver(i), attempt, Reschedule(i)])
            == s.(tokens := if m.retryCount < MAX_RETRIES then s.tokens[i := Retried(m)]
                            else s.tokens[i := Token(Failing, m)] + [Token(Dead, m)])
  {
    hide Next;
    var m := s.tokens[i].msg;
    RunThree(s, Deliver(i), attempt, Reschedule(i));
    DeliverIs(s, i);
    var a := s.(tokens := s.tokens[i := Token(Handling(Received), m)]);
    AttemptIs(a, i, attempt);
    var b := s.(tokens := s.tokens[i := Token(Acked, m)]);
    assert a.tokens[i := Token(Acked, m)] == b.tokens;
    RescheduleIs(b, i);
    assert b.tokens[i := Token(Failing, m)] == s.tokens[i := Token(Failing, m)];
    if m.retryCount < MAX_RETRIES { assert b.tokens[i := Retried(m)] == s.tokens[i := Retried(m)]; }
  }

  /** The end of the last attempt, once the run `once` has spent it. */
  lemma LastBounce(s: State, i: nat, once: seq<Step>)
    requires i < |s.tokens| && s.tokens[i].msg.retryCount == MAX_RETRIES
    requires RunFrom(s, once)
             == s.(tokens := s.tokens[i := Token(Failing, s.tokens[i].msg)] + [Token(Dead, s.tokens[i].msg)])
    ensures RunFrom(s, once + [MarkTransferFailed(i)]) == Buried(s, i)
  {
    hide Next;
    var m := s.tokens[i].msg;
    var after := RunFrom(s, once);
    RunSnoc(s, once, MarkTransferFailed(i));
    MarkTransferFailedIs(after, i);
    assert after.tokens[i := Token(Gone, m)] + [Token(FailedEvent, FailedMessage(m))] == Buried(s, i).tokens;
  }

  /** Token i back in the work queue with one retry counted. */
  function Again(s: State, i: nat): State
    requires i < |s.tokens|
  {
    var m := s.tokens[i].msg;
    s.(tokens := s.tokens[i := Token(Work, m.(retryCount := m.retryCount + 1))])
  }

  /** An attempt that left retries, and the wait in the delay queue. */
  lemma BounceAndExpire(s: State, i: nat, once: seq<Step>, rest: seq<Step>)
    requires i < |s.tokens| && s.tokens[i].msg.retryCount < MAX_RETRIES
    requires RunFrom(s, once) == s.(tokens := s.tokens[i := Retried(s.tokens[i].msg)])
    ensures RunFrom(s, once + ([Expire(i)] + rest)) == RunFrom(Again(s, i), rest)
  {
    hide Next;
    var after := RunFrom(s, once);
    RunAppend(s, once, [Expire(i)] + rest);
    RunCons(after, Expire(i), rest);
    ExpireIs(after, i);
    assert after.tokens[i := Token(Work, after.tokens[i].msg)] == Again(s, i).tokens;
  }

  /** A message that fails whenever it is handled ends in the dead-letter queue with its transfer
      FAILED, after exactly as many attempts as it had retries left and one more. */
  lemma {:induction false} FailingMessageIsBuried(s: State, i: nat, attempt: Step)
    requires At(s, i, Work) && s.tokens[i].msg.retryCount <= MAX_RETRIES
    requires FailedAttempt(s.db, s.tokens[i].msg, i, attempt)
    ensures RunFrom(s, Bounces(i, attempt, MAX_RETRIES - s.tokens[i].msg.retryCount)) == Buried(s, i)
    decreases MAX_RETRIES - s.tokens[i].msg.retryCount
  {
    hide Next;
    var left, once := MAX_RETRIES - s.tokens[i].msg.retryCount, [Deliver(i), attempt, Reschedule(i)];
    OneBounce(s, i, attempt);
    if left == 0 {
      LastBounce(s, i, once);
    } else {
      BounceAndExpire(s, i, once, Bounces(i, attempt, left - 1));
      FailingMessageIsBuried(Again(s, i), i, attempt);
      assert Buried(Again(s, i), i).tokens == Buried(s, i).tokens;
    }
  }

  // ---- A message handled by a healthy system ----------------------------------------------

  function HealthyHandling(s: State, i: nat): seq<Step>
    requires i < |s.tokens| && s.tokens[i].msg.retryCount <= MAX_RETRIES
  {
    var m := s.tokens[i].msg;
    if PairFits(s.db, m.tenant, m.payload) then [Deliver(i), WritePair(i), Stamp(i), Finish(i)]
    else Bounces(i, WritePair(i), MAX_RETRIES - m.retryCount)
  }

  lemma FirstDeliveryCompletes(s: State, i: nat)
    requires At(s, i, Work) && PairFits(s.db, s.tokens[i].msg.tenant, s.tokens[i].msg.payload)
    ensures var m := s.tokens[i].msg;
            RunFrom(s, [Deliver(i), WritePair(i), Stamp(i), Finish(i)])
            == s.(db := SetStatus(AppendPair(s.db, m.tenant, m.payload), m.payload.transferId, COMPLETED),
                  tokens := s.tokens[i := Token(Gone, m)]
                            + [Token(CompletedQueue, Message(m.payload, m.tenant, 0, COMPLETED))])
  {
    hide Next;
    var m := s.tokens[i].msg;
    assert [Deliver(i), WritePair(i), Stamp(i), Finish(i)] == [Deliver(i)] + [WritePair(i), Stamp(i), Finish(i)];
    RunCons(s, Deliver(i), [WritePair(i), Stamp(i), Finish(i)]);
    DeliverIs(s, i);
    var a := Next(s, Deliver(i));
    RunThree(a, WritePair(i), Stamp(i), Finish(i));
    WritePairIs(a, i);
    var b := Next(a, WritePair(i));
    StampIs(b, i);
    var c := Next(b, Stamp(i));
    FinishIs(c, i);
    assert c.tokens[i := Token(Gone, m)] == s.tokens[i := Token(Gone, m)];
  }

  /** With every statement succeeding, handling a message to its end completes the transfer if
      and only if it was not posted before. A second delivery is not skipped: it ends FAILED and
      dead-lettered although its pair is in the journal. */
  lemma HealthyHandlingCompletesIffUnposted(s: State, i: nat)
    requires Inv(s) && At(s, i, Work)
    ensures s.tokens[i].msg.retryCount <= MAX_RETRIES
    ensures var t := s.tokens[i].msg.payload.transferId;
            var end := RunFrom(s, HealthyHandling(s, i)).db;
            && t < |end.transfers| && Posted(end, t)
            && end.transfers[t].status == (if Posted(s.db, t) then Status.FAILED else COMPLETED)
            && (Posted(s.db, t) ==> end.journal == s.db.journal)
  {
    hide Next;
    var m := s.tokens[i].msg;
    assert Wellformed(s.db, s.tokens[i]);
    PairFitsIffUnposted(s.db, m.payload);
    if Posted(s.db, m.payload.transferId) {
      FailingMessageIsBuried(s, i, WritePair(i));
    } else {
      FirstDeliveryPosts(s, i);
    }
  }

  lemma FirstDeliveryPosts(s: State, i: nat)
    requires At(s, i, Work) && PairFits(s.db, s.tokens[i].msg.tenant, s.tokens[i].msg.payload)
    requires s.tokens[i].msg.payload.transferId < |s.db.transfers|
    ensures var t := s.tokens[i].msg.payload.transferId;
            var end := RunFrom(s, [Deliver(i), WritePair(i), Stamp(i), Finish(i)]).db;
            t < |end.transfers| && Posted(end, t) && end.transfers[t].status == COMPLETED
  {
    hide Next;
    var m := s.tokens[i].msg;
    FirstDeliveryCompletes(s, i);
    PairPosts(s.db.journal, m.tenant, m.payload, m.payload.transferId);
  }

  // ---- Replay posts without asking for funds ----------------------------------------------

  function ReplayScript(s: State, event: nat): seq<Step> {
    var k, i := |s.replays|, |s.tokens|;
    [ReplayBegins(event), ReplayArms(k), ReplaySends(k), Deliver(i), WritePair(i)]
  }

  /** The operator's part: re-arm, then inject with all its retries, whatever the wallet holds. */
  lemma ReplayInjects(s: State, event: nat)
    requires event < |s.dlq| && !s.dlq[event].replayed
    ensures var e, k := s.dlq[event], |s.replays|;
            RunFrom(s, [ReplayBegins(event), ReplayArms(k), ReplaySends(k)])
            == s.(db := SetStatus(s.db, e.payload.transferId, INITIATED),
                  tokens := s.tokens + [Token(Work, Message(e.payload, e.tenant, 0, e.status))],
                  replays := s.replays + [Injected(event)])
  {
    hide Next;
    var e, k := s.dlq[event], |s.replays|;
    ReplayRearms(s, event);
    var b := s.(db := SetStatus(s.db, e.payload.transferId, INITIATED), replays := s.replays + [Armed(event)]);
    RunSnoc(s, [ReplayBegins(event), ReplayArms(k)], ReplaySends(k));
    assert [ReplayBegins(event), ReplayArms(k)] + [ReplaySends(k)] == [ReplayBegins(event), ReplayArms(k), ReplaySends(k)];
    ReplaySendsIs(b, k);
    assert b.replays[k := Injected(event)] == s.replays + [Injected(event)];
  }

  lemma ReplayRearms(s: State, event: nat)
    requires event < |s.dlq| && !s.dlq[event].replayed
    ensures RunFrom(s, [ReplayBegins(event), ReplayArms(|s.replays|)])
            == s.(db := SetStatus(s.db, s.dlq[event].payload.transferId, INITIATED),
                  replays := s.replays + [Armed(event)])
  {
    hide Next;
    var k := |s.replays|;
    RunTwo(s, ReplayBegins(event), ReplayArms(k));
    ReplayBeginsIs(s, event);
    var a := s.(replays := s.replays + [Checked(event)]);
    ReplayArmsIs(a, k);
    assert a.replays[k := Armed(event)] == s.replays + [Armed(event)];
  }

  lemma ReplayRuns(s: State, event: nat)
    requires event < |s.dlq| && !s.dlq[event].replayed
    requires PairFits(s.db, s.dlq[event].tenant, s.dlq[event].payload)
    ensures var e := s.dlq[event];
            RunFrom(s, ReplayScript(s, event)).db
            == AppendPair(SetStatus(s.db, e.payload.transferId, INITIATED), e.tenant, e.payload)
  {
    hide Next;
    var k, i := |s.replays|, |s.tokens|;
    var inject, settle := [ReplayBegins(event), ReplayArms(k), ReplaySends(k)], [Deliver(i), WritePair(i)];
    assert ReplayScript(s, event) == inject + settle;
    RunAppend(s, inject, settle);
    ReplayInjects(s, event);
    var injected := RunFrom(s, inject);
    RunTwo(injected, Deliver(i), WritePair(i));
    DeliverIs(injected, i);
    WritePairIs(Next(injected, Deliver(i)), i);
  }

  /** Replaying the dead letter of an unposted transfer takes its amount from the source wallet
      whatever the balance is, so the wallet ends overdrawn exactly when it held less. */
  lemma ReplayOverdrawsIffBalanceIsShort(s: State, event: nat)
    requires Inv(s) && event < |s.dlq| && !s.dlq[event].replayed
    requires !Posted(s.db, s.dlq[event].payload.transferId)
    ensures var o := s.dlq[event].payload.order;
            var before := ComputeBalance(s.db, None, o.walletFrom);
            var after := ComputeBalance(RunFrom(s, ReplayScript(s, event)).db, None, o.walletFrom);
            o.walletFrom != o.walletTo ==>
              after == before - o.fromAmount && (after < 0 <==> before < o.fromAmount)
  {
    hide Next;
    var e := s.dlq[event];
    assert SoundEvent(s.db, e);
    PairFitsIffUnposted(s.db, e.payload);
    ReplayRuns(s, event);
    var armed := SetStatus(s.db, e.payload.transferId, INITIATED);
    PairMovesBalances(armed, None, e.tenant, e.payload, e.payload.order.walletFrom);
  }

  /** Funds are looked at when a transfer is created and never again. So a step overdraws a wallet
      exactly when it writes the pair of an unposted transfer that takes more than there is. */
  lemma StepOverdrawsIffPairIsUnfunded(s: State, step: Step, w: nat)
    requires Inv(s) && w != SYSTEM_WALLET && ComputeBalance(s.db, None, w) >= 0
    ensures ComputeBalance(NextDb(s, step), None, w) < 0 <==>
              && step.WritePair? && At(s, step.i, Handling(Received))
              && (var p := s.tokens[step.i].msg.payload;
                  && !Posted(s.db, p.transferId) && p.order.walletFrom == w
                  && ComputeBalance(s.db, None, w) + (if p.order.walletTo == w then p.order.toAmount else 0)
                     < p.order.fromAmount)
  {
    if step.Api? && step.db.TopUp? {
      TopUpOnlyAdds(s.db, step.db.walletId, step.db.amount, w);
    } else {
      JournalChange(s, step);
      if step.WritePair? && At(s, step.i, Handling(Received)) {
        var m := s.tokens[step.i].msg;
        assert Wellformed(s.db, s.tokens[step.i]);
        PairFitsIffUnposted(s.db, m.payload);
        PairMovesBalances(s.db, None, m.tenant, m.payload, w);
      }
    }
  }

  lemma TopUpOnlyAdds(db: Db, k: nat, amount: nat, w: nat)
    requires w != SYSTEM_WALLET
    ensures ComputeBalance(Apply(db, TopUp(k, amount)), None, w) >= ComputeBalance(db, None, w)
  {
    if k < |db.wallets| {
      var o := TopUpOrder(db, k, amount);
      PairMovesBalances(db.(transfers := db.transfers + [Transfer(o, COMPLETED)]), None, o.tenant,
                        Payload(|db.transfers|, o), w);
    }
  }
}
