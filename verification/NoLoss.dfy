/** No transfer is forgotten, and no outbox row is published twice, unless a process dies at
    one particular moment. */
module NoLoss {
  import opened Options
  import opened Sums
  import opened LedgerDb
  import opened Settlement
  import opened Tracking
  import opened NoOverdraft

  // ---- Every unposted transfer is remembered somewhere ------------------------------------

  /** The one step that forgets: a handler dies after acking and before publishing the retry. */
  predicate Forgets(s: State, step: Step) {
    step.HandlerDies? && At(s, step.i, Acked)
  }

  ghost predicate LossFree(steps: seq<Step>) {
    steps == []
    || (LossFree(steps[..|steps| - 1]) && !Forgets(Exec(steps[..|steps| - 1]), steps[|steps| - 1]))
  }

  /** An outbox row still to be published or marked FAILED, a message in the queues or in a
      handler, or a dead letter. */
  ghost predicate Remembered(s: State, t: nat) {
    || (exists r :: 0 <= r < |s.db.outbox| && s.db.outbox[r].payload.transferId == t
                    && s.db.outbox[r].status != PUBLISHED)
    || (exists i :: 0 <= i < |s.tokens| && s.tokens[i].msg.payload.transferId == t
                    && Counts(Holding, s.tokens[i].place))
  }

  lemma TokensHold(s: State, step: Step, t: nat)
    requires Inv(s) && !Forgets(s, step) && !Posted(NextDb(s, step), t)
    ensures TokenGain(s, step, Holding, t) >= if Publishes(s, step, t) then 1 else 0
  {
    hide Inv, Posted, NextDb, PairFits;
    if step.Finish? && At(s, step.i, Handling(Stamped)) { CompletedIsPosted(s, step.i, step); }
  }

  lemma HeadRowHolds(s: State, step: Step, r: nat)
    requires WorkerInv(s) && HeadRow(s) == Some(r)
    ensures r < |s.db.outbox| && r < |NextDb(s, step).outbox|
    ensures NextDb(s, step).outbox[r].payload == s.db.outbox[r].payload
    ensures var before := RowCounts(Holding, s.db.outbox[r], InFlight(s.worker) == Some(r));
            var after := RowCounts(Holding, NextDb(s, step).outbox[r], InFlight(NextWorker(s, step)) == Some(r));
            (step.Publish? && HeadIs(s, Unsent)) || (before ==> after)
  {
    assert r == s.worker.batch[0];
    DbGrows(s, step);
    if !step.MarkHeadPublished? && !step.MarkHeadFailed? { OutboxKeepsRows(s, step); }
  }

  lemma RowsHold(s: State, step: Step, t: nat)
    requires WorkerInv(s) && t < |s.db.transfers|
    ensures RowGain(s, step, Holding, t) >= if Publishes(s, step, t) then -1 else 0
  {
    hide NextDb, NextTokens, NextWorker, NextDlq, NextReplays, WorkerInv;
    if HeadRow(s).Some? { HeadRowHolds(s, step, HeadRow(s).value); }
  }

  lemma TopUpsArePosted(db: Db, w: nat, amount: nat, t: nat)
    requires |db.transfers| <= t < |Apply(db, TopUp(w, amount)).transfers|
    ensures Posted(Apply(db, TopUp(w, amount)), t)
  {
    var o := TopUpOrder(db, w, amount);
    PairPosts(db.journal, o.tenant, Payload(|db.transfers|, o), t);
  }

  lemma CreationsAreQueued(s: State, step: Step, t: nat)
    requires WorkerInv(s) && |s.db.transfers| <= t < |NextDb(s, step).transfers|
    requires step.Api? && !step.db.TopUp?
    ensures TokenGain(s, step, Holding, t) == 0 && RowGain(s, step, Holding, t) == 1
  {
  }

  lemma CreationIsHeld(s: State, step: Step, t: nat)
    requires WorkerInv(s) && |s.db.transfers| <= t < |NextDb(s, step).transfers|
    requires !Posted(NextDb(s, step), t)
    ensures Weight(Next(s, step), Holding, t) >= 1
  {
    if step.db.TopUp? { TopUpsArePosted(s.db, step.db.walletId, step.db.amount, t); }
    CreationsAreQueued(s, step, t);
    WeightChange(s, step, Holding, t);
    WeightIsNatural(s, Holding, t);
  }

  lemma StepHolds(s: State, step: Step, t: nat)
    requires Inv(s) && WorkerInv(s) && !Forgets(s, step)
    requires t < |s.db.transfers| && !Posted(s.db, t) ==> Weight(s, Holding, t) >= 1
    requires t < |NextDb(s, step).transfers| && !Posted(NextDb(s, step), t)
    ensures Weight(Next(s, step), Holding, t) >= 1
  {
    if t < |s.db.transfers| {
      DbGrows(s, step);
      WeightChange(s, step, Holding, t);
      TokensHold(s, step, t);
      RowsHold(s, step, t);
    } else {
      CreationIsHeld(s, step, t);
    }
  }

  lemma {:induction false} RunHolds(steps: seq<Step>, t: nat)
    requires LossFree(steps) && t < |Exec(steps).db.transfers| && !Posted(Exec(steps).db, t)
    ensures Weight(Exec(steps), Holding, t) >= 1
  {
    if steps == [] {
    } else {
      var before, step := steps[..|steps| - 1], steps[|steps| - 1];
      var s := Exec(before);
      RunKeepsInv(before);
      RunKeepsWorkerInv(before);
      if t < |s.db.transfers| && !Posted(s.db, t) { RunHolds(before, t); }
      StepHolds(s, step, t);
    }
  }

  lemma WeightMeansRemembered(s: State, t: nat)
    requires Weight(s, Holding, t) >= 1
    ensures Remembered(s, t)
  {
    if !Remembered(s, t) {
      SeqSumZero(s.tokens, TokenWeight(Holding, t));
      ZeroSum(|s.db.outbox|, RowWeight(Holding, s.db.outbox, InFlight(s.worker), t));
    }
  }

  /** As long as no handler dies between acking a failed message and publishing its retry, every
      transfer that is not posted is still held by a row, a message or a dead letter. */
  lemma NothingIsLost(steps: seq<Step>, t: nat)
    requires LossFree(steps) && t < |Exec(steps).db.transfers| && !Posted(Exec(steps).db, t)
    ensures Remembered(Exec(steps), t)
  {
    RunHolds(steps, t);
    WeightMeansRemembered(Exec(steps), t);
  }

  lemma HandlerDeathChangesTokensOnly(s: State, i: nat)
    ensures Next(s, HandlerDies(i)) == s.(tokens := NextTokens(s, HandlerDies(i)))
  {
  }

  lemma AckedWeighsOne(s: State, i: nat, t: nat)
    requires At(s, i, Acked)
    ensures TokenGain(s, HandlerDies(i), Holding, t) == if s.tokens[i].msg.payload.transferId == t then -1 else 0
  {
    assert Moved(s, HandlerDies(i)) == Some((i, s.tokens[i].(place := Gone))) && Added(s, HandlerDies(i)) == None;
  }

  /** That moment is the exception: a handler that dies then takes one memory of its transfer
      with it. */
  lemma DyingAfterAckForgets(s: State, i: nat, t: nat)
    requires At(s, i, Acked)
    ensures Weight(Next(s, HandlerDies(i)), Holding, t)
            == Weight(s, Holding, t) - if s.tokens[i].msg.payload.transferId == t then 1 else 0
  {
    hide Next, NextTokens, TokenGain, TokensWeight, RowsWeight;
    HandlerDeathChangesTokensOnly(s, i);
    TokensChange(s, HandlerDies(i), Holding, t);
    AckedWeighsOne(s, i, t);
  }

  /** The exact condition: a step makes the system forget an unposted transfer if and only if it is
      the death of a handler between ack and republication, of the last thing that held it. */
  lemma StepForgetsIff(s: State, step: Step, t: nat)
    requires Inv(s) && WorkerInv(s) && t < |s.db.transfers|
    requires Weight(s, Holding, t) >= 1 && !Posted(NextDb(s, step), t)
    ensures Weight(Next(s, step), Holding, t) == 0 <==>
              Forgets(s, step) && s.tokens[step.i].msg.payload.transferId == t && Weight(s, Holding, t) == 1
  {
    hide Weight, Next, NextDb, Inv, WorkerInv, Posted;
    DbGrows(s, step);
    if Forgets(s, step) { DyingAfterAckForgets(s, step.i, t); } else { StepHolds(s, step, t); }
  }

  // ---- Each outbox row is published at most once ------------------------------------------

  /** How often a run has published row r: by the worker, or by another process altogether. */
  ghost function PublicationsOf(steps: seq<Step>, r: nat): nat {
    if steps == [] then 0
    else
      var before, step := steps[..|steps| - 1], steps[|steps| - 1];
      var s := Exec(before);
      PublicationsOf(before, r)
      + if (step.Publish? && HeadIs(s, Unsent) && s.worker.batch[0] == r) || (step.DuplicatePublish? && step.row == r)
        then 1 else 0
  }

  /** A flush ends between publishing a row and marking it, or a second publisher is at work. */
  predicate LosesMark(s: State, step: Step) {
    step.DuplicatePublish? || ((step.WorkerDies? || step.FlushAborts?) && InFlight(s.worker).Some?)
  }

  ghost predicate MarksKept(steps: seq<Step>) {
    steps == []
    || (MarksKept(steps[..|steps| - 1]) && !LosesMark(Exec(steps[..|steps| - 1]), steps[|steps| - 1]))
  }

  ghost predicate PublishedOnce(s: State, r: nat, publications: nat) {
    && publications <= 1
    && (r < |s.db.outbox| && s.db.outbox[r].status == PENDING && InFlight(s.worker) != Some(r) ==> publications == 0)
    && (r >= |s.db.outbox| ==> publications == 0)
  }

  lemma StepPublishesOnce(s: State, step: Step, r: nat, publications: nat)
    requires WorkerInv(s) && !LosesMark(s, step) && PublishedOnce(s, r, publications)
    ensures PublishedOnce(Next(s, step), r, publications + if step.Publish? && HeadIs(s, Unsent) && s.worker.batch[0] == r then 1 else 0)
  {
    DbGrows(s, step);
    if !step.MarkHeadPublished? && !step.MarkHeadFailed? { OutboxKeepsRows(s, step); }
  }

  /** Whatever flushes begin, overlap, throw or end, no row is published a second time while
      every published row also gets one of its marks. */
  lemma {:induction false} RowsArePublishedAtMostOnce(steps: seq<Step>, r: nat)
    requires MarksKept(steps)
    ensures PublishedOnce(Exec(steps), r, PublicationsOf(steps, r))
  {
    if steps == [] {
    } else {
      var before, step := steps[..|steps| - 1], steps[|steps| - 1];
      RowsArePublishedAtMostOnce(before, r);
      RunKeepsWorkerInv(before);
      StepPublishesOnce(Exec(before), step, r, PublicationsOf(before, r));
    }
  }

  // ---- A marked row is left alone ---------------------------------------------------------

  lemma StatusIsFinal(s: State, step: Step, r: nat)
    requires WorkerInv(s) && r < |s.db.outbox| && s.db.outbox[r].status != PENDING
    ensures r < |NextDb(s, step).outbox| && NextDb(s, step).outbox[r] == s.db.outbox[r]
    ensures !(step.Publish? && HeadIs(s, Unsent) && s.worker.batch[0] == r)
  {
    if !step.MarkHeadPublished? && !step.MarkHeadFailed? { OutboxKeepsRows(s, step); }
  }

  /** A row that was once marked, PUBLISHED or FAILED, keeps its mark and is never picked up by
      the worker again: what failed to publish is not retried. */
  lemma {:induction false} MarkedRowsAreLeftAlone(steps: seq<Step>, more: seq<Step>, r: nat)
    requires r < |Exec(steps).db.outbox| && Exec(steps).db.outbox[r].status != PENDING
    ensures var s := Exec(steps + more);
            && r < |s.db.outbox| && s.db.outbox[r] == Exec(steps).db.outbox[r]
            && !(HeadIs(s, Unsent) && s.worker.batch[0] == r)
    decreases |more|
  {
    hide NextDb, NextTokens, NextWorker, NextDlq, NextReplays, WorkerInv;
    if more == [] {
      assert steps + more == steps;
    } else {
      var n := |more| - 1;
      MarkedRowsAreLeftAlone(steps, more[..n], r);
      assert (steps + more)[..|steps + more| - 1] == steps + more[..n];
      RunKeepsWorkerInv(steps + more[..n]);
      StatusIsFinal(Exec(steps + more[..n]), more[n], r);
    }
    RunKeepsWorkerInv(steps + more);
    StatusIsFinal(Exec(steps + more), Publish, r);
  }
}
