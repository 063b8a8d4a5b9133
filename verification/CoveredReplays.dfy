/** Replays that ask for funds: what an operator, or the service, would have to check for a replay
    to be as safe as a creation. */
module CoveredReplays {
  import opened Options
  import opened LedgerDb
  import opened Settlement
  import opened Solvency
  import opened Guarantees
  import opened Tracking
  import opened Promises
  import opened NoOverdraft
  import opened Funding

  /** The transfer that a step re-arms although it was withdrawn, if its amount is free. */
  ghost function PromisedAgain(s: State, withdrawn: set<nat>, step: Step): set<nat> {
    var effect := DbEffect(s, step);
    if effect.Some? && effect.value.Rearm? && Affordable(s.db, effect.value.transferId, withdrawn)
    then {effect.value.transferId} else {}
  }

  ghost function WithdrawnAfter(s: State, withdrawn: set<nat>, step: Step): set<nat> {
    withdrawn + ReleasedIn(s, step) - PromisedAgain(s, withdrawn, step)
  }

  /** The transfers given up and not promised again. */
  ghost function WithdrawnBy(steps: seq<Step>): set<nat> {
    if steps == [] then {}
    else
      var before, step := steps[..|steps| - 1], steps[|steps| - 1];
      WithdrawnAfter(Exec(before), WithdrawnBy(before), step)
  }

  /** A replay whose transfer counts as promised when its message is sent, and that nothing else
      can post: no row, message or handler is left for it. One that is posted does no harm. */
  ghost predicate CoveredSend(s: State, withdrawn: set<nat>, step: Step) {
    && step.ReplaySends? && step.k < |s.replays|
    && s.replays[step.k].Armed? && s.replays[step.k].event < |s.dlq|
    && var t := s.dlq[s.replays[step.k].event].payload.transferId;
       Posted(s.db, t) || (Weight(s, Acting, t) == 0 && t !in withdrawn)
  }

  ghost predicate Tame(s: State, withdrawn: set<nat>, step: Step) {
    !Duplicates(s, step) || CoveredSend(s, withdrawn, step)
  }

  /** Calm but for covered replays; and every creation finds its amount free when it commits. */
  ghost predicate Careful(steps: seq<Step>, w: nat) {
    forall n | 0 <= n < |steps| ::
      Tame(Exec(steps[..n]), WithdrawnBy(steps[..n]), steps[n])
      && FundedStep(Exec(steps[..n]), WithdrawnBy(steps[..n]), steps[n], w)
  }

  lemma CarefulBefore(steps: seq<Step>, w: nat)
    requires Careful(steps, w) && steps != []
    ensures var before, step := steps[..|steps| - 1], steps[|steps| - 1];
            && Careful(before, w)
            && Tame(Exec(before), WithdrawnBy(before), step)
            && FundedStep(Exec(before), WithdrawnBy(before), step, w)
  {
    hide Exec, WithdrawnBy, Tame, FundedStep;
    var before := steps[..|steps| - 1];
    forall n | 0 <= n < |before|
      ensures Tame(Exec(before[..n]), WithdrawnBy(before[..n]), before[n])
              && FundedStep(Exec(before[..n]), WithdrawnBy(before[..n]), before[n], w)
    {
      assert before[..n] == steps[..n] && before[n] == steps[n];
    }
  }

  // ---- One step ---------------------------------------------------------------------------

  lemma SendAddsOneActor(s: State, k: nat, t: nat)
    requires WorkerInv(s)
    requires k < |s.replays| && s.replays[k].Armed? && s.replays[k].event < |s.dlq|
    ensures Weight(Next(s, ReplaySends(k)), Acting, t)
            == Weight(s, Acting, t) + if s.dlq[s.replays[k].event].payload.transferId == t then 1 else 0
    ensures Next(s, ReplaySends(k)).db == s.db
  {
    hide Weight, Apply, WorkerInv;
    WeightChange(s, ReplaySends(k), Acting, t);
  }

  lemma CoveredSendStaysSingle(s: State, withdrawn: set<nat>, step: Step, t: nat)
    requires Inv(s) && WorkerInv(s) && Duplicates(s, step) && CoveredSend(s, withdrawn, step)
    requires SingleActor(s, withdrawn, t)
    ensures SingleActor(Next(s, step), withdrawn, t)
  {
    hide Next, Weight, WorkerInv, Posted;
    SendAddsOneActor(s, step.k, t);
    assert SoundEvent(s.db, s.dlq[s.replays[step.k].event]);
  }

  lemma FewerWithdrawn(s: State, withdrawn: set<nat>, fewer: set<nat>, t: nat)
    requires SingleActor(s, withdrawn, t) && fewer <= withdrawn
    ensures SingleActor(s, fewer, t)
  {
  }

  lemma TameStaysSingle(s: State, withdrawn: set<nat>, step: Step, t: nat)
    requires Inv(s) && WorkerInv(s) && Tame(s, withdrawn, step) && SingleActor(s, withdrawn, t)
    ensures SingleActor(Next(s, step), WithdrawnAfter(s, withdrawn, step), t)
  {
    hide SingleActor, Inv, WorkerInv, Duplicates, CoveredSend, Next;
    if !Duplicates(s, step) {
      StepStaysSingle(s, step, withdrawn, t);
      FewerWithdrawn(Next(s, step), withdrawn + ReleasedIn(s, step), WithdrawnAfter(s, withdrawn, step), t);
    } else {
      CoveredSendStaysSingle(s, withdrawn, step, t);
      SendReleasesNothing(s, withdrawn, step);
      FewerWithdrawn(Next(s, step), withdrawn, WithdrawnAfter(s, withdrawn, step), t);
    }
  }

  lemma SendReleasesNothing(s: State, withdrawn: set<nat>, step: Step)
    requires CoveredSend(s, withdrawn, step)
    ensures WithdrawnAfter(s, withdrawn, step) == withdrawn
  {
  }

  lemma TameKeeps(s: State, withdrawn: set<nat>, step: Step, w: nat)
    requires Inv(s) && w != SYSTEM_WALLET && Keeps(s.db, withdrawn, w) && FundedStep(s, withdrawn, step, w)
    requires forall t: nat :: SingleActor(s, withdrawn, t)
    requires forall t | t in withdrawn :: t < |s.db.transfers|
    ensures Keeps(NextDb(s, step), WithdrawnAfter(s, withdrawn, step), w)
  {
    hide Keeps, SingleActor, Inv, FundedStep, Affordable;
    SingleActorsKeep(s, step, withdrawn, w);
    var effect := DbEffect(s, step);
    if PromisedAgain(s, withdrawn, step) == {} {
      assert WithdrawnAfter(s, withdrawn, step) == withdrawn + ReleasedIn(s, step);
    } else {
      var t := effect.value.transferId;
      assert ReleasedIn(s, step) == {} && withdrawn + {} == withdrawn;
      if t in withdrawn {
        AffordableRearmKeeps(s.db, t, withdrawn, w);
      } else {
        assert withdrawn - {t} == withdrawn;
      }
      assert WithdrawnAfter(s, withdrawn, step) == withdrawn - {t};
    }
  }

  lemma AffordableRearmKeeps(db: Db, t: nat, withdrawn: set<nat>, w: nat)
    requires Affordable(db, t, withdrawn) && t in withdrawn && Keeps(db, withdrawn, w)
    ensures Keeps(Apply(db, Rearm(t)), withdrawn - {t}, w)
  {
    hide Keeps, Apply;
    RearmKeepsIffAffordable(db, t, withdrawn, w);
  }

  // ---- Whole runs -------------------------------------------------------------------------

  lemma {:induction false} WithdrawnExist(steps: seq<Step>)
    ensures forall t | t in WithdrawnBy(steps) :: t < |Exec(steps).db.transfers|
  {
    if steps == [] {
    } else {
      var before, step := steps[..|steps| - 1], steps[|steps| - 1];
      WithdrawnExist(before);
      DbGrows(Exec(before), step);
    }
  }

  lemma {:induction false} CarefulRunsHaveSingleActors(steps: seq<Step>, w: nat, t: nat)
    requires Careful(steps, w)
    ensures SingleActor(Exec(steps), WithdrawnBy(steps), t)
  {
    hide Tame, FundedStep, Next, WithdrawnAfter;
    if steps == [] {
    } else {
      var before, step := steps[..|steps| - 1], steps[|steps| - 1];
      CarefulBefore(steps, w);
      CarefulRunsHaveSingleActors(before, w, t);
      RunKeepsInv(before);
      RunKeepsWorkerInv(before);
      TameStaysSingle(Exec(before), WithdrawnBy(before), step, t);
    }
  }

  lemma {:induction false} CarefulRunsKeep(steps: seq<Step>, w: nat)
    requires Careful(steps, w) && w != SYSTEM_WALLET
    ensures Keeps(Exec(steps).db, WithdrawnBy(steps), w)
  {
    hide Keeps, SingleActor, Tame, FundedStep, WithdrawnAfter, NextDb;
    if steps == [] {
      KeepsInitially(w);
    } else {
      var before, step := steps[..|steps| - 1], steps[|steps| - 1];
      CarefulBefore(steps, w);
      CarefulRunsKeep(before, w);
      RunKeepsInv(before);
      WithdrawnExist(before);
      forall t: nat { CarefulRunsHaveSingleActors(before, w, t); }
      TameKeeps(Exec(before), WithdrawnBy(before), step, w);
    }
  }

  /** Replays are as safe as creations if the amount is free when the transfer is re-armed and
      nothing else can post it when the message is sent: every balance covers all promises, the
      re-armed ones included, and is never negative. */
  lemma CoveredReplaysNeverOverdraw(steps: seq<Step>, w: nat)
    requires Careful(steps, w) && w != SYSTEM_WALLET
    ensures forall t | t in WithdrawnBy(steps) :: !Posted(Exec(steps).db, t)
    ensures ComputeBalance(Exec(steps).db, None, w) >= Open(Exec(steps).db, WithdrawnBy(steps), w) >= 0
  {
    CarefulRunsKeep(steps, w);
    OwedIsOpenOrReleased(Exec(steps).db, WithdrawnBy(steps), w);
    forall t | t in WithdrawnBy(steps) ensures !Posted(Exec(steps).db, t) {
      CarefulRunsHaveSingleActors(steps, w, t);
      WithdrawnExist(steps);
    }
  }
}
