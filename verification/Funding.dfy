/** Over every run whatever: when a wallet's balance covers its open promises. */
module Funding {
  import opened Options
  import opened LedgerDb
  import opened Settlement
  import opened Solvency
  import opened Guarantees
  import opened Promises

  ghost function ReleasedIn(s: State, step: Step): set<nat> {
    if DbEffect(s, step).Some? then Releases(s.db, DbEffect(s, step).value) else {}
  }

  /** If the step commits a creation from w, its amount is free at that moment. */
  ghost predicate FundedStep(s: State, withdrawn: set<nat>, step: Step, w: nat) {
    DbEffect(s, step).Some? ==> FundedCommit(s.db, withdrawn, DbEffect(s, step).value, w)
  }

  ghost predicate FundedCommits(steps: seq<Step>, w: nat) {
    forall n | 0 <= n < |steps| :: FundedStep(Exec(steps[..n]), ReleasedBy(steps[..n]), steps[n], w)
  }

  ghost predicate KeepsAfter(steps: seq<Step>, w: nat) {
    Keeps(Exec(steps).db, ReleasedBy(steps), w)
  }

  /** And if it pays a transfer that was given up out of w, that amount is, too. */
  ghost predicate PaidFor(s: State, withdrawn: set<nat>, step: Step, w: nat) {
    FundedStep(s, withdrawn, step, w)
    && (DbEffect(s, step).Some? ==> FundedPair(s.db, withdrawn, DbEffect(s, step).value, w))
  }

  ghost predicate AllPaidFor(steps: seq<Step>, w: nat) {
    forall n | 0 <= n < |steps| :: PaidFor(Exec(steps[..n]), ReleasedBy(steps[..n]), steps[n], w)
  }

  lemma InvIsSound(s: State)
    requires Inv(s)
    ensures Sound(s.db)
  {
  }

  lemma KeepsInitially(w: nat)
    ensures Keeps(EMPTY, {}, w)
  {
  }

  lemma ReleasedSnoc(before: seq<Step>, step: Step)
    ensures ReleasedBy(before + [step]) == ReleasedBy(before) + ReleasedIn(Exec(before), step)
    ensures Exec(before + [step]).db == NextDb(Exec(before), step)
  {
    assert (before + [step])[..|before|] == before;
  }

  lemma AllPaidForPrefix(steps: seq<Step>, n: nat, w: nat)
    requires AllPaidFor(steps, w) && n <= |steps|
    ensures AllPaidFor(steps[..n], w)
  {
    hide Exec, ReleasedBy, PaidFor;
    var a := steps[..n];
    forall k | 0 <= k < |a| ensures PaidFor(Exec(a[..k]), ReleasedBy(a[..k]), a[k], w) {
      assert a[..k] == steps[..k] && a[k] == steps[k];
    }
  }

  /** One step of any run. */
  lemma StepKeepsIffPaidFor(before: seq<Step>, step: Step, w: nat)
    requires KeepsAfter(before, w) && w != SYSTEM_WALLET
    ensures KeepsAfter(before + [step], w) <==> PaidFor(Exec(before), ReleasedBy(before), step, w)
  {
    hide Keeps, Exec, ReleasedBy, Apply, Inv, FundedCommit, FundedPair;
    var s := Exec(before);
    RunKeepsInv(before);
    InvIsSound(s);
    ReleasedExist(before);
    ReleasedSnoc(before, step);
    EffectIsLegal(s, step);
    if DbEffect(s, step).Some? {
      StepKeepsIffFunded(s.db, DbEffect(s, step).value, ReleasedBy(before), w);
    } else {
      assert ReleasedBy(before) + {} == ReleasedBy(before);
    }
  }

  lemma KeepsAtFirst(w: nat)
    ensures KeepsAfter([], w)
  {
    hide Keeps;
    KeepsInitially(w);
  }

  lemma {:induction false} PaidRunsKeep(steps: seq<Step>, w: nat)
    requires AllPaidFor(steps, w) && w != SYSTEM_WALLET
    ensures KeepsAfter(steps, w)
  {
    hide Exec, ReleasedBy, KeepsAfter, PaidFor;
    if steps == [] {
      KeepsAtFirst(w);
    } else {
      var before, step := steps[..|steps| - 1], steps[|steps| - 1];
      AllPaidForPrefix(steps, |before|, w);
      PaidRunsKeep(before, w);
      StepKeepsIffPaidFor(before, step, w);
      assert steps == before + [step];
    }
  }

  /** The exact condition, over every run, with duplicates, replays, crashes and divided creations:
      the balance of w covers its open promises at every point if and only if every commit of a
      creation and every pair of a transfer that was given up found its amount free. */
  lemma RunsKeepIffPaidFor(steps: seq<Step>, w: nat)
    requires w != SYSTEM_WALLET
    ensures (forall n: nat | n <= |steps| :: KeepsAfter(steps[..n], w)) <==> AllPaidFor(steps, w)
  {
    hide Exec, ReleasedBy, KeepsAfter, PaidFor;
    if AllPaidFor(steps, w) {
      forall n: nat | n <= |steps| ensures KeepsAfter(steps[..n], w) {
        AllPaidForPrefix(steps, n, w);
        PaidRunsKeep(steps[..n], w);
      }
    }
    if forall n: nat | n <= |steps| :: KeepsAfter(steps[..n], w) {
      forall n | 0 <= n < |steps| ensures PaidFor(Exec(steps[..n]), ReleasedBy(steps[..n]), steps[n], w) {
        assert steps[..n + 1] == steps[..n] + [steps[n]];
        StepKeepsIffPaidFor(steps[..n], steps[n], w);
      }
    }
  }

  /** And a balance that covers its promises is not negative. */
  lemma KeepingIsSolvent(steps: seq<Step>, w: nat)
    requires KeepsAfter(steps, w)
    ensures ComputeBalance(Exec(steps).db, None, w) >= Open(Exec(steps).db, ReleasedBy(steps), w) >= 0
  {
    hide Exec, ReleasedBy;
    OwedIsOpenOrReleased(Exec(steps).db, ReleasedBy(steps), w);
  }

  lemma SnapshotsAreFunded(steps: seq<Step>, w: nat)
    requires forall step | step in steps :: !IsSplitCommit(step)
    ensures FundedCommits(steps, w)
  {
    hide Exec, ReleasedBy, FundedStep;
    forall n | 0 <= n < |steps| ensures FundedStep(Exec(steps[..n]), ReleasedBy(steps[..n]), steps[n], w) {
      assert steps[n] in steps;
      OnlyCommitsNeedFunds(Exec(steps[..n]), ReleasedBy(steps[..n]), steps[n], w);
    }
  }

  lemma OnlyCommitsNeedFunds(s: State, released: set<nat>, step: Step, w: nat)
    requires !IsSplitCommit(step)
    ensures FundedStep(s, released, step, w)
  {
  }
}
