/** The lock that closes the gap between a creation's three reads. A journal row references its
    wallet, so inserting it waits for a creating transaction that holds the wallet's row. */
module KeyLocks {
  import opened Options
  import opened LedgerDb
  import opened Settlement
  import opened Solvency
  import opened Guarantees
  import opened NoOverdraft
  import opened Funding
  import opened Promises

  /** No pair is written while one of its wallets is held. */
  predicate WaitsForWallets(s: State, step: Step) {
    step.WritePair? && At(s, step.i, Handling(Received)) ==>
      var o := s.tokens[step.i].msg.payload.order;
      o.walletFrom !in s.db.locks && o.walletTo !in s.db.locks
  }

  ghost predicate KeyLocked(steps: seq<Step>) {
    forall n | 0 <= n < |steps| :: WaitsForWallets(Exec(steps[..n]), steps[n])
  }

  ghost predicate DebitsCurrent(db: Db, w: nat) {
    w in db.locks && db.locks[w].debits.Some? ==> db.locks[w].debits.value == Debits(db, None, w)
  }

  lemma ReadDebitsAreCurrent(db: Db, w: nat)
    requires Sound(db) && w != SYSTEM_WALLET && DebitsCurrent(db, w)
    ensures DebitsCurrent(Apply(db, ReadDebits(w)), w)
  {
    if w in db.locks && db.locks[w].debits.None? { ScopeIsTransparent(db, w); }
  }

  /** A debit read stays current as long as the lock is held and pairs wait for it. */
  lemma StepKeepsDebits(db: Db, step: DbStep, w: nat)
    requires Sound(db) && w != SYSTEM_WALLET && DebitsCurrent(db, w)
    requires step.WriteEntryPair? && step.payload.order.walletFrom == w ==> w !in db.locks
    ensures DebitsCurrent(Apply(db, step), w)
  {
    match step {
      case TopUp(k, amount) =>
        if k < |db.wallets| {
          var o := TopUpOrder(db, k, amount);
          PairMovesBalances(db.(transfers := db.transfers + [Transfer(o, COMPLETED)]), None, o.tenant,
                            Payload(|db.transfers|, o), w);
        }
      case WriteEntryPair(tenant, p) => PairMovesBalances(db, None, tenant, p, w);
      case ReadDebits(k) => if k == w { ReadDebitsAreCurrent(db, w); }
      case _ => assert Apply(db, step).journal == db.journal;
    }
  }

  lemma KeyLockedBefore(steps: seq<Step>)
    requires KeyLocked(steps) && steps != []
    ensures KeyLocked(steps[..|steps| - 1])
    ensures WaitsForWallets(Exec(steps[..|steps| - 1]), steps[|steps| - 1])
  {
    hide Exec, WaitsForWallets;
    var before := steps[..|steps| - 1];
    forall n | 0 <= n < |before| ensures WaitsForWallets(Exec(before[..n]), before[n]) {
      assert before[..n] == steps[..n] && before[n] == steps[n];
    }
  }

  lemma EffectKeepsDebits(s: State, step: Step, w: nat)
    requires Inv(s) && WaitsForWallets(s, step) && w != SYSTEM_WALLET && DebitsCurrent(s.db, w)
    ensures DebitsCurrent(NextDb(s, step), w)
  {
    hide Apply, DebitsCurrent, Sound;
    InvIsSound(s);
    if DbEffect(s, step).Some? { StepKeepsDebits(s.db, DbEffect(s, step).value, w); }
  }

  lemma {:induction false} RunKeepsDebits(steps: seq<Step>, w: nat)
    requires KeyLocked(steps) && w != SYSTEM_WALLET
    ensures DebitsCurrent(Exec(steps).db, w)
  {
    hide DebitsCurrent, WaitsForWallets, NextDb;
    if steps == [] {
      NothingIsLocked(w);
    } else {
      var before, step := steps[..|steps| - 1], steps[|steps| - 1];
      KeyLockedBefore(steps);
      RunKeepsDebits(before, w);
      RunKeepsInv(before);
      EffectKeepsDebits(Exec(before), step, w);
    }
  }

  lemma NothingIsLocked(w: nat)
    ensures DebitsCurrent(EMPTY, w)
  {
  }

  /** What the reads of a committing creation are worth when its debits are current. */
  lemma CurrentDebitsFund(db: Db, released: set<nat>, step: DbStep, w: nat, slack: int)
    requires Covered(db, released, w, slack) && DebitsCurrent(db, w)
    ensures FundedCommit(db, released, step, w)
    ensures slack == 0 ==> SlackAfter(db, step, w, slack) == 0
  {
  }

  /** With pairs that wait, no creation misses a debit, in any run: the slack of the solvency bound
      is zero and every commit finds its amount free. */
  lemma {:induction false} KeyLockedRunsMissNothing(steps: seq<Step>, w: nat)
    requires KeyLocked(steps) && w != SYSTEM_WALLET
    ensures SlackOf(steps, w) == 0 && FundedCommits(steps, w)
  {
    hide DebitsCurrent, WaitsForWallets, Covered, Exec, FundedCommit, SlackAfter;
    if steps == [] {
    } else {
      var before, step := steps[..|steps| - 1], steps[|steps| - 1];
      KeyLockedBefore(steps);
      KeyLockedRunsMissNothing(before, w);
      RunKeepsDebits(before, w);
      RunIsCovered(before, w);
      var effect := DbEffect(Exec(before), step);
      if effect.Some? { CurrentDebitsFund(Exec(before).db, ReleasedBy(before), effect.value, w, 0); }
      FundedSnoc(before, step, w);
      assert steps == before + [step];
    }
  }

  lemma FundedSnoc(before: seq<Step>, step: Step, w: nat)
    requires FundedCommits(before, w) && FundedStep(Exec(before), ReleasedBy(before), step, w)
    ensures FundedCommits(before + [step], w)
  {
    hide Exec, ReleasedBy, FundedStep;
    var steps := before + [step];
    forall n | 0 <= n < |steps| ensures FundedStep(Exec(steps[..n]), ReleasedBy(steps[..n]), steps[n], w) {
      if n < |before| {
        assert steps[..n] == before[..n] && steps[n] == before[n];
      } else {
        assert steps[..n] == before;
      }
    }
  }

  /** So with the reads as three statements, too, no calm run overdraws a wallet. */
  lemma KeyLockedCalmRunsNeverOverdraw(steps: seq<Step>, w: nat)
    requires Calm(steps) && KeyLocked(steps) && w != SYSTEM_WALLET
    ensures ComputeBalance(Exec(steps).db, None, w) >= Open(Exec(steps).db, ReleasedBy(steps), w) >= 0
  {
    KeyLockedRunsMissNothing(steps, w);
    CalmRunsNeverOverdraw(steps, w);
  }

  /** And a run of any kind, duplicates and replays included, keeps balances at or above their open
      promises if and only if every pair of a transfer that was given up found its amount free. */
  lemma KeyLockedRunsKeepIffPairsAreFunded(steps: seq<Step>, w: nat)
    requires KeyLocked(steps) && w != SYSTEM_WALLET
    ensures (forall n: nat | n <= |steps| :: KeepsAfter(steps[..n], w)) <==> PairsFunded(steps, w)
  {
    hide Exec, ReleasedBy, KeepsAfter, FundedStep, FundedPair;
    KeyLockedRunsMissNothing(steps, w);
    RunsKeepIffPaidFor(steps, w);
    if PairsFunded(steps, w) {
      forall n | 0 <= n < |steps| ensures PaidFor(Exec(steps[..n]), ReleasedBy(steps[..n]), steps[n], w) {
        assert FundedStep(Exec(steps[..n]), ReleasedBy(steps[..n]), steps[n], w);
      }
    }
    if AllPaidFor(steps, w) {
      forall n | 0 <= n < |steps| ensures PairFunded(Exec(steps[..n]), ReleasedBy(steps[..n]), steps[n], w) {
        assert PaidFor(Exec(steps[..n]), ReleasedBy(steps[..n]), steps[n], w);
      }
    }
  }

  ghost predicate PairFunded(s: State, withdrawn: set<nat>, step: Step, w: nat) {
    DbEffect(s, step).Some? ==> FundedPair(s.db, withdrawn, DbEffect(s, step).value, w)
  }

  ghost predicate PairsFunded(steps: seq<Step>, w: nat) {
    forall n | 0 <= n < |steps| :: PairFunded(Exec(steps[..n]), ReleasedBy(steps[..n]), steps[n], w)
  }
}
