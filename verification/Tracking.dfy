/** Following one transfer through outbox, queues and handlers: how many places can still act
    on it, and whether any place still remembers it. */
module Tracking {
  import opened Options
  import opened Sums
  import opened LedgerDb
  import opened Settlement

  // ---- The worker's batch -----------------------------------------------------------------

  ghost predicate BatchPending(outbox: seq<OutboxRow>, batch: seq<nat>) {
    && (forall k | 0 <= k < |batch| :: batch[k] < |outbox| && outbox[batch[k]].status == PENDING)
    && (forall j, k | 0 <= j < k < |batch| :: batch[j] < batch[k])
  }

  ghost predicate WorkerInv(s: State) {
    s.worker.Busy? ==> BatchPending(s.db.outbox, s.worker.batch)
  }

  lemma PendingExtends(init: seq<OutboxRow>, row: OutboxRow, rows: seq<nat>)
    requires BatchPending(init, rows)
    ensures BatchPending(init + [row], rows)
    ensures row.status == PENDING ==> BatchPending(init + [row], rows + [|init|])
  {
  }

  lemma {:induction false} PendingRowsArePending(outbox: seq<OutboxRow>)
    ensures BatchPending(outbox, PendingRows(outbox))
  {
    hide BatchPending;
    if outbox == [] {
      NothingPends();
    } else {
      var n := |outbox| - 1;
      var init := outbox[..n];
      PendingRowsArePending(init);
      PendingExtends(init, outbox[n], PendingRows(init));
      assert outbox == init + [outbox[n]];
      assert PendingRows(init) + [] == PendingRows(init);
    }
  }

  lemma NothingPends()
    ensures BatchPending([], [])
  {
  }

  lemma {:induction false} PendingRowsAreAll(outbox: seq<OutboxRow>, r: nat)
    requires r < |outbox| && outbox[r].status == PENDING && outbox[r].retryCount < OUTBOX_MAX_RETRIES
    ensures r in PendingRows(outbox)
  {
    if r == |outbox| - 1 {
    } else {
      PendingRowsAreAll(outbox[..|outbox| - 1], r);
    }
  }

  lemma {:induction false} PendingRowsHaveRetries(outbox: seq<OutboxRow>)
    ensures forall k | 0 <= k < |PendingRows(outbox)| ::
              PendingRows(outbox)[k] < |outbox| && outbox[PendingRows(outbox)[k]].retryCount < OUTBOX_MAX_RETRIES
  {
    if outbox == [] {
    } else {
      PendingRowsHaveRetries(outbox[..|outbox| - 1]);
    }
  }

  /** A batch holds the oldest rows that are waiting: one that is passed over is newer than
      every row of a full batch. */
  lemma BatchIsOldest(outbox: seq<OutboxRow>, r: nat)
    requires r < |outbox| && outbox[r].status == PENDING && outbox[r].retryCount < 3
    ensures var batch := PendingBatch(outbox);
            && BatchPending(outbox, batch) && |batch| <= 50
            && (forall k | 0 <= k < |batch| :: batch[k] < |outbox| && outbox[batch[k]].retryCount < 3)
            && (r in batch || (|batch| == 50 && forall k | 0 <= k < |batch| :: batch[k] < r))
  {
    var rows := PendingRows(outbox);
    PendingRowsArePending(outbox);
    PendingRowsAreAll(outbox, r);
    PendingRowsHaveRetries(outbox);
    var k :| 0 <= k < |rows| && rows[k] == r;
    if k < BATCH_SIZE { assert PendingBatch(outbox)[k] == r; }
  }

  /** The list without r, its order kept. */
  function Without(rows: seq<nat>, r: nat): seq<nat> {
    if rows == [] then []
    else
      var before := Without(rows[..|rows| - 1], r);
      if rows[|rows| - 1] == r then before else before + [rows[|rows| - 1]]
  }

  lemma {:induction false} WithoutAbsent(rows: seq<nat>, r: nat)
    requires r !in rows
    ensures Without(rows, r) == rows
  {
    if rows == [] {
    } else {
      WithoutAbsent(rows[..|rows| - 1], r);
    }
  }

  lemma WithoutAppend(rows: seq<nat>, x: nat, r: nat)
    ensures Without(rows + [x], r) == if x == r then Without(rows, r) else Without(rows, r) + [x]
  {
    assert (rows + [x])[..|rows|] == rows;
  }

  predicate Waits(row: OutboxRow) {
    row.status == PENDING && row.retryCount < OUTBOX_MAX_RETRIES
  }

  lemma PendingSnoc(outbox: seq<OutboxRow>, row: OutboxRow)
    ensures PendingRows(outbox + [row]) == PendingRows(outbox) + if Waits(row) then [|outbox|] else []
  {
    assert (outbox + [row])[..|outbox|] == outbox;
  }

  lemma NotWaiting(outbox: seq<OutboxRow>, r: nat)
    requires r < |outbox| ==> outbox[r].status != PENDING
    ensures r !in PendingRows(outbox)
  {
    hide PendingRows;
    PendingRowsArePending(outbox);
  }

  lemma LastRowStopsWaiting(init: seq<OutboxRow>, was: OutboxRow, row: OutboxRow)
    requires row.status != PENDING
    ensures PendingRows(init + [row]) == Without(PendingRows(init + [was]), |init|)
  {
    hide PendingRows, Without;
    var rows := PendingRows(init);
    PendingSnoc(init, was);
    PendingSnoc(init, row);
    NotWaiting(init, |init|);
    WithoutAbsent(rows, |init|);
    WithoutAppend(rows, |init|, |init|);
    assert rows + [] == rows;
  }

  lemma EarlierRowStopsWaiting(init: seq<OutboxRow>, marked: seq<OutboxRow>, last: OutboxRow, r: nat)
    requires |marked| == |init| > r && PendingRows(marked) == Without(PendingRows(init), r)
    ensures PendingRows(marked + [last]) == Without(PendingRows(init + [last]), r)
  {
    hide PendingRows, Without;
    var rows, others := PendingRows(init), PendingRows(marked);
    PendingSnoc(init, last);
    PendingSnoc(marked, last);
    WithoutAppend(rows, |init|, r);
    assert rows + [] == rows && others + [] == others;
  }

  /** Whatever mark a row gets, it leaves the list of waiting rows and every other row keeps its
      place in it. */
  lemma {:induction false} MarkedRowStopsWaiting(outbox: seq<OutboxRow>, r: nat, row: OutboxRow)
    requires r < |outbox| && row.status != PENDING
    ensures PendingRows(outbox[r := row]) == Without(PendingRows(outbox), r)
    ensures r !in PendingRows(outbox[r := row])
  {
    hide PendingRows, Without;
    var n := |outbox| - 1;
    var init := outbox[..n];
    assert outbox == init + [outbox[n]];
    if r == n {
      assert outbox[r := row] == init + [row];
      LastRowStopsWaiting(init, outbox[n], row);
    } else {
      assert outbox[r := row] == init[r := row] + [outbox[n]];
      MarkedRowStopsWaiting(init, r, row);
      EarlierRowStopsWaiting(init, init[r := row], outbox[n], r);
    }
    NotWaiting(outbox[r := row], r);
  }

  lemma MarkKeepsWorkerInv(s: State, step: Step)
    requires WorkerInv(s) && (step.MarkHeadPublished? || step.MarkHeadFailed?)
    ensures WorkerInv(Next(s, step))
  {
  }

  lemma OtherStepKeepsWorkerInv(s: State, step: Step)
    requires WorkerInv(s) && !step.MarkHeadPublished? && !step.MarkHeadFailed? && !step.FlushBegins?
    ensures WorkerInv(Next(s, step))
  {
    OutboxKeepsRows(s, step);
    assert NextWorker(s, step).Busy? ==> s.worker.Busy? && NextWorker(s, step).batch == s.worker.batch;
  }

  lemma StepKeepsWorkerInv(s: State, step: Step)
    requires WorkerInv(s)
    ensures WorkerInv(Next(s, step))
  {
    if step.FlushBegins? {
      PendingRowsArePending(s.db.outbox);
    } else if step.MarkHeadPublished? || step.MarkHeadFailed? {
      MarkKeepsWorkerInv(s, step);
    } else {
      OtherStepKeepsWorkerInv(s, step);
    }
  }

  /** Only the worker's marks change a row; everything else at most appends one. */
  lemma OutboxKeepsRows(s: State, step: Step)
    requires !step.MarkHeadPublished? && !step.MarkHeadFailed?
    ensures s.db.outbox <= NextDb(s, step).outbox && |NextDb(s, step).outbox| <= |s.db.outbox| + 1
    ensures |NextDb(s, step).outbox| > |s.db.outbox| ==>
              step.Api? && NextDb(s, step).outbox[|s.db.outbox|].payload.transferId == |s.db.transfers|
              && NextDb(s, step).outbox[|s.db.outbox|].status == PENDING
              && |NextDb(s, step).transfers| == |s.db.transfers| + 1
  {
  }

  lemma {:induction false} RunKeepsWorkerInv(steps: seq<Step>)
    ensures WorkerInv(Exec(steps))
  {
    if steps == [] {
    } else {
      RunKeepsWorkerInv(steps[..|steps| - 1]);
      StepKeepsWorkerInv(Exec(steps[..|steps| - 1]), steps[|steps| - 1]);
    }
  }

  // ---- Weights ----------------------------------------------------------------------------

  /** Two readings of a place: can it still act on its transfer, or does it still hold it? */
  datatype Reading = Acting | Holding

  predicate Counts(reading: Reading, place: Place) {
    || place == Work || place.Delay? || place.Handling? || place == Acked
    || place == (if reading == Acting then Failing else Dead)
  }

  ghost function TokenWeight(reading: Reading, t: nat): Token -> int {
    (tok: Token) => if tok.msg.payload.transferId == t && Counts(reading, tok.place) then 1 else 0
  }

  /** The outbox row whose message the worker has published without having marked it yet. */
  function InFlight(w: Worker): Option<nat> {
    if w.Busy? && w.batch != [] && (w.head == Sent || w.head == Erring(true)) then Some(w.batch[0]) else None
  }

  predicate RowCounts(reading: Reading, row: OutboxRow, sent: bool) {
    (row.status == PENDING && !sent) || (reading == Holding && row.status == OutboxStatus.FAILED)
  }

  ghost function RowWeight(reading: Reading, outbox: seq<OutboxRow>, sent: Option<nat>, t: nat): nat -> int {
    (r: nat) =>
      if r < |outbox| && outbox[r].payload.transferId == t && RowCounts(reading, outbox[r], sent == Some(r))
      then 1 else 0
  }

  ghost function RowsWeight(reading: Reading, outbox: seq<OutboxRow>, sent: Option<nat>, t: nat): int {
    Sum(|outbox|, RowWeight(reading, outbox, sent, t))
  }

  ghost function TokensWeight(reading: Reading, tokens: seq<Token>, t: nat): int {
    SeqSum(tokens, TokenWeight(reading, t))
  }

  ghost function Weight(s: State, reading: Reading, t: nat): int {
    TokensWeight(reading, s.tokens, t) + RowsWeight(reading, s.db.outbox, InFlight(s.worker), t)
  }

  lemma WeightIsNatural(s: State, reading: Reading, t: nat)
    ensures TokensWeight(reading, s.tokens, t) >= 0
    ensures RowsWeight(reading, s.db.outbox, InFlight(s.worker), t) >= 0
  {
    SeqSumNonNegative(s.tokens, TokenWeight(reading, t));
    SumNonNegative(|s.db.outbox|, RowWeight(reading, s.db.outbox, InFlight(s.worker), t));
  }

  // ---- How a step changes the weights -----------------------------------------------------

  ghost function TokenGain(s: State, step: Step, reading: Reading, t: nat): int {
    (match Moved(s, step)
     case None => 0
     case Some((i, tok)) => TokenWeight(reading, t)(tok) - TokenWeight(reading, t)(s.tokens[i]))
    + (match Added(s, step) case None => 0 case Some(tok) => TokenWeight(reading, t)(tok))
  }

  lemma TokensChange(s: State, step: Step, reading: Reading, t: nat)
    ensures TokensWeight(reading, NextTokens(s, step), t)
            == TokensWeight(reading, s.tokens, t) + TokenGain(s, step, reading, t)
  {
    var g := TokenWeight(reading, t);
    var moved := s.tokens;
    if Moved(s, step).Some? {
      var (i, tok) := Moved(s, step).value;
      SeqSumUpdate(s.tokens, i, tok, g);
      moved := s.tokens[i := tok];
    }
    if Added(s, step).Some? {
      SeqSumAppend(moved, Added(s, step).value, g);
    } else {
      assert moved + [] == moved;
    }
  }

  /** The outbox row at the head of the worker's batch. */
  function HeadRow(s: State): Option<nat> {
    if s.worker.Busy? && s.worker.batch != [] then Some(s.worker.batch[0]) else None
  }

  ghost function RowGain(s: State, step: Step, reading: Reading, t: nat): int {
    var after := Next(s, step);
    if |after.db.outbox| > |s.db.outbox| then (if |s.db.transfers| == t then 1 else 0)
    else
      match HeadRow(s)
      case None => 0
      case Some(r) =>
        RowWeight(reading, after.db.outbox, InFlight(after.worker), t)(r)
        - RowWeight(reading, s.db.outbox, InFlight(s.worker), t)(r)
  }

  /** Apart from an appended row, only the head row of the batch can change its weight. */
  lemma OtherRowsKeepTheirWeight(s: State, step: Step, reading: Reading, t: nat, r: nat)
    requires r < |s.db.outbox| && HeadRow(s) != Some(r)
    ensures var after := Next(s, step);
            RowWeight(reading, after.db.outbox, InFlight(after.worker), t)(r)
            == RowWeight(reading, s.db.outbox, InFlight(s.worker), t)(r)
  {
    hide Apply;
    RowUntouched(s, step, r);
    NotTheHead(s, step, r);
  }

  lemma RowUntouched(s: State, step: Step, r: nat)
    requires r < |s.db.outbox| && HeadRow(s) != Some(r)
    ensures r < |NextDb(s, step).outbox| && NextDb(s, step).outbox[r] == s.db.outbox[r]
  {
    if !step.MarkHeadPublished? && !step.MarkHeadFailed? { OutboxKeepsRows(s, step); }
  }

  lemma NotTheHead(s: State, step: Step, r: nat)
    requires HeadRow(s) != Some(r)
    ensures InFlight(s.worker) != Some(r) && InFlight(NextWorker(s, step)) != Some(r)
  {
  }

  lemma RowsChange(s: State, step: Step, reading: Reading, t: nat)
    requires WorkerInv(s)
    ensures var after := Next(s, step);
            RowsWeight(reading, after.db.outbox, InFlight(after.worker), t)
            == RowsWeight(reading, s.db.outbox, InFlight(s.worker), t) + RowGain(s, step, reading, t)
  {
    var after, n := Next(s, step), |s.db.outbox|;
    OutboxNeverShrinks(s, step);
    OthersKeepTheirWeight(s, step, reading, t);
    if |after.db.outbox| > n { AppendedRow(s, step, reading, t); }
    SumOverRows(n, |after.db.outbox|, RowWeight(reading, s.db.outbox, InFlight(s.worker), t),
                RowWeight(reading, after.db.outbox, InFlight(after.worker), t), HeadRow(s));
  }

  lemma OthersKeepTheirWeight(s: State, step: Step, reading: Reading, t: nat)
    ensures var after := Next(s, step);
            forall r: nat | r < |s.db.outbox| && HeadRow(s) != Some(r) ::
              RowWeight(reading, s.db.outbox, InFlight(s.worker), t)(r)
              == RowWeight(reading, after.db.outbox, InFlight(after.worker), t)(r)
  {
    var after := Next(s, step);
    forall r: nat | r < |s.db.outbox| && HeadRow(s) != Some(r)
      ensures RowWeight(reading, s.db.outbox, InFlight(s.worker), t)(r)
              == RowWeight(reading, after.db.outbox, InFlight(after.worker), t)(r)
    {
      OtherRowsKeepTheirWeight(s, step, reading, t, r);
    }
  }

  /** Sums of two functions that agree except at one place, the second over one index more at most. */
  lemma SumOverRows(n: nat, m: nat, f: nat -> int, g: nat -> int, place: Option<nat>)
    requires n <= m <= n + 1 && (place.Some? ==> place.value < n)
    requires forall r: nat | r < n && place != Some(r) :: f(r) == g(r)
    requires m > n && place.Some? ==> f(place.value) == g(place.value)
    ensures Sum(m, g) == Sum(n, f) + if m > n then g(n) else if place.Some? then g(place.value) - f(place.value) else 0
  {
    if m > n { SumGrow(n, f, g); } else if place.Some? { SumBump(n, f, g, place.value); } else { SumSame(n, f, g); }
  }

  lemma OutboxNeverShrinks(s: State, step: Step)
    ensures |NextDb(s, step).outbox| >= |s.db.outbox|
  {
    DbGrows(s, step);
  }

  lemma AppendedRow(s: State, step: Step, reading: Reading, t: nat)
    requires WorkerInv(s) && |Next(s, step).db.outbox| > |s.db.outbox|
    ensures var after := Next(s, step);
            var n := |s.db.outbox|;
            && |after.db.outbox| == n + 1
            && RowWeight(reading, after.db.outbox, InFlight(after.worker), t)(n) == (if |s.db.transfers| == t then 1 else 0)
            && (HeadRow(s).Some? ==>
                  RowWeight(reading, after.db.outbox, InFlight(after.worker), t)(HeadRow(s).value)
                  == RowWeight(reading, s.db.outbox, InFlight(s.worker), t)(HeadRow(s).value))
  {
    if !step.MarkHeadPublished? && !step.MarkHeadFailed? {
      OutboxKeepsRows(s, step);
      assert step.Api? && NextWorker(s, step) == s.worker;
    }
  }

  lemma WeightChange(s: State, step: Step, reading: Reading, t: nat)
    requires WorkerInv(s)
    ensures Weight(Next(s, step), reading, t)
            == Weight(s, reading, t) + TokenGain(s, step, reading, t) + RowGain(s, step, reading, t)
  {
    TokensChange(s, step, reading, t);
    RowsChange(s, step, reading, t);
  }
}
