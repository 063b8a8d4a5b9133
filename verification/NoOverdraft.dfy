/** Without a second copy of a settlement message no released transfer ever posts, so no
    wallet is overdrawn. */
module NoOverdraft {
  import opened Options
  import opened Sums
  import opened LedgerDb
  import opened Settlement
  import opened Solvency
  import opened Guarantees
  import opened Promises
  import opened Funding
  import opened Tracking

  /** The steps that can put a second settlement message of a transfer in circulation: broker
      redelivery beside a running handler, a repeated publication, an operator replay, and a
      flush that ends between publishing a row and marking it. */
  predicate Duplicates(s: State, step: Step) {
    match step
    case Redeliver(i) => InHand(s, i)
    case DuplicatePublish(r) => r < |s.db.outbox|
    case ReplaySends(k) => k < |s.replays| && s.replays[k].Armed?
    case WorkerDies => InFlight(s.worker).Some?
    case FlushAborts => InFlight(s.worker).Some?
    case _ => false
  }

  /** A run none of whose steps duplicates a message. Handlers may still crash and be retried,
      completed messages may still fall back into the settlement queue. */
  ghost predicate Calm(steps: seq<Step>) {
    steps == []
    || (Calm(steps[..|steps| - 1]) && !Duplicates(Exec(steps[..|steps| - 1]), steps[|steps| - 1]))
  }

  /** At most one place can still act on an unposted transfer, none once it is released; and a
      released transfer is unposted. */
  ghost predicate SingleActor(s: State, released: set<nat>, t: nat) {
    if t >= |s.db.transfers| then Weight(s, Acting, t) == 0 && t !in released
    else
      && (!Posted(s.db, t) ==> Weight(s, Acting, t) <= 1)
      && (t in released ==> !Posted(s.db, t) && Weight(s, Acting, t) == 0)
  }

  /** A stamped handling and a completed message are those of a posted transfer. */
  lemma CompletedIsPosted(s: State, i: nat, step: Step)
    requires Inv(s) && (At(s, i, CompletedQueue) || At(s, i, Handling(Stamped)))
    ensures Posted(NextDb(s, step), s.tokens[i].msg.payload.transferId)
  {
    assert Wellformed(s.db, s.tokens[i]);
    DbGrows(s, step);
  }

  lemma TokenGainOfUnposted(s: State, step: Step, t: nat)
    requires Inv(s) && !Duplicates(s, step) && !Posted(NextDb(s, step), t)
    ensures TokenGain(s, step, Acting, t) <= if Publishes(s, step, t) then 1 else 0
    ensures step.MarkTransferFailed? && At(s, step.i, Failing) && s.tokens[step.i].msg.payload.transferId == t
            ==> TokenGain(s, step, Acting, t) <= -1
  {
    hide Inv, Posted, NextDb, PairFits, InFlight, Wellformed;
    if step.CompletedError? && At(s, step.i, CompletedQueue) { CompletedIsPosted(s, step.i, step); }
  }

  predicate Publishes(s: State, step: Step, t: nat) {
    && step.Publish? && HeadIs(s, Unsent) && s.worker.batch[0] < |s.db.outbox|
    && s.db.outbox[s.worker.batch[0]].payload.transferId == t
  }

  /** Marking or publishing the head row never makes it count again, and publishing it makes it
      stop counting. */
  lemma HeadRowStopsCounting(s: State, step: Step, r: nat)
    requires WorkerInv(s) && !Duplicates(s, step) && HeadRow(s) == Some(r)
    ensures r < |s.db.outbox| && r < |NextDb(s, step).outbox|
    ensures NextDb(s, step).outbox[r].payload == s.db.outbox[r].payload
    ensures var before := RowCounts(Acting, s.db.outbox[r], InFlight(s.worker) == Some(r));
            var after := RowCounts(Acting, NextDb(s, step).outbox[r], InFlight(NextWorker(s, step)) == Some(r));
            if step.Publish? && HeadIs(s, Unsent) then before && !after else after ==> before
  {
    assert r == s.worker.batch[0];
    DbGrows(s, step);
    if !step.MarkHeadPublished? && !step.MarkHeadFailed? { OutboxKeepsRows(s, step); }
  }

  lemma RowGainOfExisting(s: State, step: Step, t: nat)
    requires WorkerInv(s) && !Duplicates(s, step) && t < |s.db.transfers|
    ensures RowGain(s, step, Acting, t) <= if Publishes(s, step, t) then -1 else 0
  {
    hide NextDb, NextTokens, NextWorker, NextDlq, NextReplays, WorkerInv, Duplicates;
    PublishingKeepsTables(s);
    if HeadRow(s).Some? { HeadRowStopsCounting(s, step, HeadRow(s).value); }
  }

  lemma PublishingKeepsTables(s: State)
    ensures NextDb(s, Publish) == s.db
  {
  }

  /** While a transfer stays unposted its actors never multiply, and releasing it removes one. */
  lemma ActorsOfUnposted(s: State, step: Step, t: nat)
    requires Inv(s) && WorkerInv(s) && !Duplicates(s, step) && t < |s.db.transfers|
    requires !Posted(NextDb(s, step), t)
    ensures Weight(Next(s, step), Acting, t) <= Weight(s, Acting, t)
    ensures t in ReleasedIn(s, step) ==> Weight(Next(s, step), Acting, t) < Weight(s, Acting, t)
  {
    hide Apply, Next, NextDb, TokenGain, RowGain, Weight, Inv, WorkerInv, Duplicates, Posted, ReleasedIn;
    WeightChange(s, step, Acting, t);
    TokenGainOfUnposted(s, step, t);
    RowGainOfExisting(s, step, t);
    if t in ReleasedIn(s, step) { ReleasingPostsNothing(s, step, t); }
  }

  lemma ExistingStaysSingle(s: State, step: Step, released: set<nat>, t: nat)
    requires Inv(s) && WorkerInv(s) && !Duplicates(s, step) && SingleActor(s, released, t)
    requires t < |s.db.transfers|
    ensures SingleActor(Next(s, step), released + ReleasedIn(s, step), t)
  {
    hide Apply, DbEffect, NextTokens, NextWorker, NextDlq, NextReplays, Inv, WorkerInv, Duplicates, Weight, ReleasedIn, Posted;
    var after := Next(s, step);
    DbGrows(s, step);
    ActorsAreCounted(after, t);
    if !Posted(after.db, t) {
      assert !Posted(s.db, t);
      ActorsOfUnposted(s, step, t);
    } else if t in released {
      ReleasedNeverPosts(s, step, t);
    } else if t in ReleasedIn(s, step) {
      ReleasingPostsNothing(s, step, t);
    }
  }

  lemma ActorsAreCounted(s: State, t: nat)
    ensures Weight(s, Acting, t) >= 0
  {
    WeightIsNatural(s, Acting, t);
  }

  lemma ReleasingPostsNothing(s: State, step: Step, t: nat)
    requires t in ReleasedIn(s, step)
    ensures !Posted(NextDb(s, step), t) && step.MarkTransferFailed? && At(s, step.i, Failing)
            && s.tokens[step.i].msg.payload.transferId == t
  {
  }

  lemma OnlyPairsPost(db: Db, step: DbStep, t: nat)
    requires Posted(Apply(db, step), t) && t < |db.transfers|
    ensures Posted(db, t) || (step.WriteEntryPair? && step.payload.transferId == t)
  {
    match step {
      case WriteEntryPair(tenant, p) => PairPosts(db.journal, tenant, p, t);
      case TopUp(w, amount) =>
        if w < |db.wallets| {
          var o := TopUpOrder(db, w, amount);
          PairPosts(db.journal, o.tenant, Payload(|db.transfers|, o), t);
        }
      case _ => assert Apply(db, step).journal == db.journal;
    }
  }

  /** Only a delivered message of the transfer itself can post it. */
  lemma PostingNeedsAnActor(s: State, step: Step, t: nat)
    requires t < |s.db.transfers| && !Posted(s.db, t) && Posted(NextDb(s, step), t)
    ensures step.WritePair? && At(s, step.i, Handling(Received)) && s.tokens[step.i].msg.payload.transferId == t
  {
    OnlyPairsPost(s.db, DbEffect(s, step).value, t);
  }

  lemma ReleasedNeverPosts(s: State, step: Step, t: nat)
    requires Inv(s) && t < |s.db.transfers| && !Posted(s.db, t) && Weight(s, Acting, t) == 0
    ensures !Posted(NextDb(s, step), t)
  {
    if Posted(NextDb(s, step), t) {
      PostingNeedsAnActor(s, step, t);
      var g := TokenWeight(Acting, t);
      SeqSumAtLeast(s.tokens, step.i, g);
      WeightIsNatural(s, Acting, t);
    }
  }

  lemma {:induction false} NobodyKnows(s: State, t: nat)
    requires Inv(s) && t >= |s.db.transfers|
    ensures Weight(s, Acting, t) == 0
  {
    forall tok | tok in s.tokens ensures TokenWeight(Acting, t)(tok) == 0 {
      var i :| 0 <= i < |s.tokens| && s.tokens[i] == tok;
      assert Wellformed(s.db, s.tokens[i]);
    }
    SeqSumZero(s.tokens, TokenWeight(Acting, t));
    forall r: nat | r < |s.db.outbox| ensures RowWeight(Acting, s.db.outbox, InFlight(s.worker), t)(r) == 0 {
      assert Copies(s.db, s.db.outbox[r].payload);
    }
    SumMono(|s.db.outbox|, RowWeight(Acting, s.db.outbox, InFlight(s.worker), t), (r: nat) => 0);
    SumMono(|s.db.outbox|, (r: nat) => 0, RowWeight(Acting, s.db.outbox, InFlight(s.worker), t));
    WeightIsNatural(s, Acting, t);
    ZeroSum(|s.db.outbox|, RowWeight(Acting, s.db.outbox, InFlight(s.worker), t));
  }

  lemma StillUnknown(s: State, step: Step, released: set<nat>, t: nat)
    requires Inv(s) && SingleActor(s, released, t) && t >= |NextDb(s, step).transfers|
    ensures SingleActor(Next(s, step), released + ReleasedIn(s, step), t)
  {
    StepKeepsInv(s, step);
    NobodyKnows(Next(s, step), t);
    DbGrows(s, step);
  }

  /** The transfer a step creates is known to its outbox row alone. */
  lemma NewcomerIsSingle(s: State, step: Step, released: set<nat>, t: nat)
    requires WorkerInv(s) && SingleActor(s, released, t)
    requires |s.db.transfers| <= t < |NextDb(s, step).transfers|
    ensures SingleActor(Next(s, step), released + ReleasedIn(s, step), t)
  {
    WeightChange(s, step, Acting, t);
    CreationGains(s, step, t);
  }

  lemma CreationGains(s: State, step: Step, t: nat)
    requires WorkerInv(s) && |s.db.transfers| <= t < |NextDb(s, step).transfers|
    ensures TokenGain(s, step, Acting, t) == 0 && RowGain(s, step, Acting, t) <= 1
    ensures ReleasedIn(s, step) == {}
  {
    assert step.Api? && NextWorker(s, step) == s.worker;
    OutboxKeepsRows(s, step);
    if HeadRow(s).Some? { assert s.worker.batch[0] < |s.db.outbox|; }
  }

  lemma StepStaysSingle(s: State, step: Step, released: set<nat>, t: nat)
    requires Inv(s) && WorkerInv(s) && !Duplicates(s, step) && SingleActor(s, released, t)
    ensures SingleActor(Next(s, step), released + ReleasedIn(s, step), t)
  {
    hide SingleActor, Inv, WorkerInv, Duplicates, Apply;
    if t < |s.db.transfers| {
      ExistingStaysSingle(s, step, released, t);
    } else if t >= |NextDb(s, step).transfers| {
      StillUnknown(s, step, released, t);
    } else {
      NewcomerIsSingle(s, step, released, t);
    }
  }

  lemma {:induction false} CalmRunsHaveSingleActors(steps: seq<Step>, t: nat)
    requires Calm(steps)
    ensures SingleActor(Exec(steps), ReleasedBy(steps), t)
  {
    hide Inv, WorkerInv, Next;
    if steps == [] {
    } else {
      var before, step := steps[..|steps| - 1], steps[|steps| - 1];
      CalmRunsHaveSingleActors(before, t);
      RunKeepsInv(before);
      RunKeepsWorkerInv(before);
      StepStaysSingle(Exec(before), step, ReleasedBy(before), t);
    }
  }

  // ---- Calm runs and their commits --------------------------------------------------------

  /** The pair that a single actor writes is not that of a released transfer. */
  lemma WrittenPairIsNotReleased(s: State, step: Step, released: set<nat>)
    requires Inv(s) && WritesPair(s, step)
    requires SingleActor(s, released, s.tokens[step.i].msg.payload.transferId)
    ensures s.tokens[step.i].msg.payload.transferId !in released
  {
    var t := s.tokens[step.i].msg.payload.transferId;
    assert Wellformed(s.db, s.tokens[step.i]);
    PairPostsItsTransfer(s, step);
    if t in released { ReleasedNeverPosts(s, step, t); }
  }

  lemma EffectOfPair(s: State, step: Step)
    ensures DbEffect(s, step).Some? && DbEffect(s, step).value.WriteEntryPair?
            && PairFits(s.db, DbEffect(s, step).value.tenant, DbEffect(s, step).value.payload)
            ==> WritesPair(s, step) && DbEffect(s, step).value.payload == s.tokens[step.i].msg.payload
  {
  }

  /** One step of a run in which every transfer has a single actor. */
  lemma SingleActorsKeep(s: State, step: Step, released: set<nat>, w: nat)
    requires Inv(s) && w != SYSTEM_WALLET && Keeps(s.db, released, w) && FundedStep(s, released, step, w)
    requires forall t: nat :: SingleActor(s, released, t)
    requires forall t | t in released :: t < |s.db.transfers|
    ensures Keeps(NextDb(s, step), released + ReleasedIn(s, step), w)
  {
    hide Keeps, SingleActor, Inv, Apply, Releases, WritesPair;
    EffectIsLegal(s, step);
    EffectOfPair(s, step);
    InvIsSound(s);
    if DbEffect(s, step).Some? {
      var d := DbEffect(s, step).value;
      if d.WriteEntryPair? && PairFits(s.db, d.tenant, d.payload) { WrittenPairIsNotReleased(s, step, released); }
      StepKeeps(s.db, d, released, w);
    } else {
      assert released + {} == released;
    }
  }

  lemma {:induction false} CalmPrefix(steps: seq<Step>, n: nat)
    requires Calm(steps) && n <= |steps|
    ensures Calm(steps[..n])
    decreases |steps|
  {
    if n == |steps| {
      assert steps[..n] == steps;
    } else {
      CalmPrefix(steps[..|steps| - 1], n);
      assert steps[..|steps| - 1][..n] == steps[..n];
    }
  }

  /** In a calm run no pair pays a transfer that was given up. */
  lemma CalmPairsArePaidFor(before: seq<Step>, step: Step, w: nat)
    requires Calm(before)
    ensures FundedStep(Exec(before), ReleasedBy(before), step, w)
            <==> PaidFor(Exec(before), ReleasedBy(before), step, w)
  {
    hide Exec, ReleasedBy, Calm, SingleActor, Inv, FundedCommit, WritesPair;
    var s := Exec(before);
    RunKeepsInv(before);
    EffectOfPair(s, step);
    if WritesPair(s, step) {
      CalmRunsHaveSingleActors(before, WrittenTransfer(s, step));
      WrittenPairIsNotReleased(s, step, ReleasedBy(before));
    }
  }

  function WrittenTransfer(s: State, step: Step): nat
    requires WritesPair(s, step)
  {
    s.tokens[step.i].msg.payload.transferId
  }

  lemma CalmIsPaidForIffFunded(steps: seq<Step>, w: nat)
    requires Calm(steps)
    ensures FundedCommits(steps, w) <==> AllPaidFor(steps, w)
  {
    hide Exec, ReleasedBy, Calm, FundedStep, PaidFor;
    forall n | 0 <= n < |steps|
      ensures FundedStep(Exec(steps[..n]), ReleasedBy(steps[..n]), steps[n], w)
              <==> PaidFor(Exec(steps[..n]), ReleasedBy(steps[..n]), steps[n], w)
    {
      CalmPrefix(steps, n);
      CalmPairsArePaidFor(steps[..n], steps[n], w);
    }
  }

  /** Hence for a calm run: the balance covers the open promises at every point if and only if every
      commit found its amount free, whatever its three reads said. */
  lemma CalmRunsKeepIffCommitsAreFunded(steps: seq<Step>, w: nat)
    requires Calm(steps) && w != SYSTEM_WALLET
    ensures (forall n: nat | n <= |steps| :: KeepsAfter(steps[..n], w)) <==> FundedCommits(steps, w)
  {
    hide KeepsAfter, FundedCommits, AllPaidFor;
    CalmIsPaidForIffFunded(steps, w);
    RunsKeepIffPaidFor(steps, w);
  }

  /** In a calm run a transfer released once never posts. A balance covers its open promises up to
      the debits its reads missed; it covers them outright, and so is never negative, if every
      commit found its amount free, as it is when creations are taken as one snapshot. */
  lemma CalmRunsNeverOverdraw(steps: seq<Step>, w: nat)
    requires Calm(steps) && w != SYSTEM_WALLET
    ensures forall t | t in ReleasedBy(steps) :: !Posted(Exec(steps).db, t)
    ensures ComputeBalance(Exec(steps).db, None, w) + SlackOf(steps, w)
            >= Open(Exec(steps).db, ReleasedBy(steps), w) >= 0
    ensures FundedCommits(steps, w) ==>
              ComputeBalance(Exec(steps).db, None, w) >= Open(Exec(steps).db, ReleasedBy(steps), w) >= 0
    ensures (forall step | step in steps :: !IsSplitCommit(step)) ==> FundedCommits(steps, w)
  {
    var db, released := Exec(steps).db, ReleasedBy(steps);
    forall t | t in released ensures !Posted(db, t) {
      CalmRunsHaveSingleActors(steps, t);
      ReleasedExist(steps);
    }
    SolvencyBound(steps, w);
    ZeroSum(|db.transfers|, ReleasedThenPostedAt(db, released, w));
    if FundedCommits(steps, w) {
      CalmIsPaidForIffFunded(steps, w);
      PaidRunsKeep(steps, w);
    }
    if forall step | step in steps :: !IsSplitCommit(step) { SnapshotsAreFunded(steps, w); }
  }
}
