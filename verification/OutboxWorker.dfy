/** The outbox publisher: one flush at a time, row by row, each row published and then marked. */
module OutboxWorker {
  import opened LedgerDb
  import opened Settlement
  import opened Store
  import opened StepFacts
  import Tracking

  /** What goes wrong while one row is handled. */
  datatype RowFault = Clean | PublishFails | MarkFails | PublishAndMarkFail | BothMarksFail

  predicate Aborts(f: RowFault) {
    f == PublishAndMarkFail || f == BothMarksFail
  }

  predicate Sends(f: RowFault) {
    f != PublishFails && f != PublishAndMarkFail
  }

  function TryScript(f: RowFault): seq<Step> {
    if f == Clean then [Publish, MarkHeadPublished]
    else if Sends(f) then [Publish, MarkPublishedThrows]
    else [PublishThrows]
  }

  function RowScript(f: RowFault): seq<Step> {
    TryScript(f) + if f == Clean then [] else [if Aborts(f) then FlushAborts else MarkHeadFailed]
  }

  /** The rest of a flush, from row k of its batch on. */
  function BatchScript(n: nat, k: nat, faults: nat -> RowFault): seq<Step>
    decreases n - k
  {
    if k >= n then [FlushEnds]
    else RowScript(faults(k)) + if Aborts(faults(k)) then [] else BatchScript(n, k + 1, faults)
  }

  // ---- What a flush does to rows and messages ---------------------------------------------

  /** Rows 0 to stop - 1 are handled: all, or those up to the first that aborts. */
  predicate StopsAtFirstAbort(stop: nat, n: nat, faults: nat -> RowFault) {
    && stop <= n
    && (forall k: nat | k + 1 < stop :: !Aborts(faults(k)))
    && (stop < n ==> stop > 0 && Aborts(faults(stop - 1)))
  }

  /** The handled rows whose publication did not throw, in order. */
  ghost predicate PicksPublished(sent: seq<nat>, stop: nat, faults: nat -> RowFault) {
    && (forall a, b | 0 <= a < b < |sent| :: sent[a] < sent[b])
    && (forall k: nat :: k in sent <==> k < stop && Sends(faults(k)))
  }

  /** The first `done` rows of the batch have their marks, every other row is as it was. */
  ghost predicate MarkedUpTo(before: seq<OutboxRow>, after: seq<OutboxRow>, batch: seq<nat>,
                             faults: nat -> RowFault, done: nat) {
    && |after| == |before|
    && (forall r: nat | r < |before| && r !in batch :: after[r] == before[r])
    && forall k: nat | k < |batch| ::
         batch[k] < |before|
         && var row := before[batch[k]];
            after[batch[k]]
            == if k < done && faults(k) == Clean then OutboxRow(row.payload, PUBLISHED, row.retryCount)
               else if k < done && !Aborts(faults(k))
               then OutboxRow(row.payload, OutboxStatus.FAILED, row.retryCount + 1)
               else row
  }

  /** What was published is one fresh message for each of these rows of the batch. */
  ghost predicate PublishedInOrder(outbox: seq<OutboxRow>, before: seq<Token>, after: seq<Token>,
                                   batch: seq<nat>, sent: seq<nat>) {
    && |after| == |before| + |sent| && after[..|before|] == before
    && forall a | 0 <= a < |sent| ::
         && sent[a] < |batch| && batch[sent[a]] < |outbox|
         && var p := outbox[batch[sent[a]]].payload;
            after[|before| + a] == Token(Work, Message(p, p.order.tenant, 0, INITIATED))
  }

  lemma NothingDone(outbox: seq<OutboxRow>, tokens: seq<Token>, batch: seq<nat>, faults: nat -> RowFault)
    requires forall k | 0 <= k < |batch| :: batch[k] < |outbox|
    ensures MarkedUpTo(outbox, outbox, batch, faults, 0) && PublishedInOrder(outbox, tokens, tokens, batch, [])
    ensures PicksPublished([], 0, faults)
  {
  }

  lemma RowKeepsPayload(before: seq<OutboxRow>, after: seq<OutboxRow>, batch: seq<nat>,
                        faults: nat -> RowFault, k: nat)
    requires MarkedUpTo(before, after, batch, faults, k) && k < |batch|
    ensures batch[k] < |after| == |before| && after[batch[k]] == before[batch[k]]
  {
  }

  lemma OneMoreMarked(before: seq<OutboxRow>, after: seq<OutboxRow>, batch: seq<nat>,
                      faults: nat -> RowFault, k: nat)
    requires MarkedUpTo(before, after, batch, faults, k) && k < |batch|
    requires forall i, j | 0 <= i < j < |batch| :: batch[i] < batch[j]
    ensures var row := after[batch[k]];
            MarkedUpTo(before,
                       after[batch[k] := if faults(k) == Clean then OutboxRow(row.payload, PUBLISHED, row.retryCount)
                                         else if Aborts(faults(k)) then row
                                         else OutboxRow(row.payload, OutboxStatus.FAILED, row.retryCount + 1)],
                       batch, faults, k + 1)
  {
  }

  lemma OneMorePublished(outbox: seq<OutboxRow>, before: seq<Token>, after: seq<Token>,
                         batch: seq<nat>, sent: seq<nat>, k: nat)
    requires PublishedInOrder(outbox, before, after, batch, sent) && k < |batch| && batch[k] < |outbox|
    ensures var p := outbox[batch[k]].payload;
            PublishedInOrder(outbox, before, after + [Token(Work, Message(p, p.order.tenant, 0, INITIATED))],
                             batch, sent + [k])
  {
  }

  lemma OneMorePicked(sent: seq<nat>, k: nat, faults: nat -> RowFault)
    requires PicksPublished(sent, k, faults)
    ensures PicksPublished(if Sends(faults(k)) then sent + [k] else sent, k + 1, faults)
  {
    forall a | 0 <= a < |sent| ensures sent[a] < k { assert sent[a] in sent; }
  }

  /** One turn of the loop. */
  lemma OneMoreRow(rows: seq<OutboxRow>, outbox: seq<OutboxRow>, messages: seq<Token>, tokens: seq<Token>,
                   batch: seq<nat>, faults: nat -> RowFault, k: nat, sent: seq<nat>)
    requires forall i, j | 0 <= i < j < |batch| :: batch[i] < batch[j]
    requires k < |batch| && PicksPublished(sent, k, faults)
    requires MarkedUpTo(rows, outbox, batch, faults, k) && PublishedInOrder(rows, messages, tokens, batch, sent)
    ensures |outbox| == |rows| && batch[k] < |outbox|
    ensures var f, row := faults(k), outbox[batch[k]];
            var more := if Sends(f) then sent + [k] else sent;
            && PicksPublished(more, k + 1, faults)
            && MarkedUpTo(rows,
                          outbox[batch[k] := if f == Clean then OutboxRow(row.payload, PUBLISHED, row.retryCount)
                                             else if Aborts(f) then row
                                             else OutboxRow(row.payload, OutboxStatus.FAILED, row.retryCount + 1)],
                          batch, faults, k + 1)
            && PublishedInOrder(rows, messages,
                                tokens + if !Sends(f) then []
                                         else [Token(Work, Message(row.payload, row.payload.order.tenant, 0, INITIATED))],
                                batch, more)
  {
    hide MarkedUpTo, PublishedInOrder, PicksPublished;
    RowKeepsPayload(rows, outbox, batch, faults, k);
    OneMoreMarked(rows, outbox, batch, faults, k);
    OneMorePublished(rows, messages, tokens, batch, sent, k);
    OneMorePicked(sent, k, faults);
    assert tokens + [] == tokens;
  }

  class OutboxWorker {
    const store: Store
    var isRunning: bool

    constructor (store: Store)
      ensures this.store == store && !isRunning
    {
      this.store := store;
      isRunning := false;
    }

    /** The guarded part of publish: true if the row was published and marked. */
    method PublishAndMark(r: nat, f: RowFault, ghost rest: seq<nat>, ghost replays: seq<Replay>) returns (marked: bool)
      requires r < |store.outbox|
      modifies store`tokens, store`outbox
      ensures marked == (f == Clean)
      ensures var row := old(store.outbox)[r];
              && store.outbox == (if f != Clean then old(store.outbox)
                                  else old(store.outbox)[r := OutboxRow(row.payload, PUBLISHED, row.retryCount)])
              && store.tokens == old(store.tokens)
                                 + if f == PublishFails || f == PublishAndMarkFail then []
                                   else [Token(Work, Message(row.payload, row.payload.order.tenant, 0, INITIATED))]
      ensures store.View(if marked then Busy(rest, Unsent) else Busy([r] + rest, Erring(Sends(f))), replays)
              == RunFrom(old(store.View(Busy([r] + rest, Unsent), replays)), TryScript(f))
    {
      hide Next, PendingRows, Tracking.Without;
      var payload := store.outbox[r].payload;
      ghost var s := store.View(Busy([r] + rest, Unsent), replays);
      if !Sends(f) {
        RunOne(s, PublishThrows);
        WorkerOnly(s, PublishThrows);
        return false;
      }
      store.Publish(Fresh(payload, payload.order.tenant));
      ghost var sent := store.View(Busy([r] + rest, Sent), replays);
      PublishIs(s, r, rest);
      if f == Clean {
        store.MarkPublished(r);
        RunTwo(s, Settlement.Publish, MarkHeadPublished);
        MarkHeadPublishedIs(sent, r, rest);
        return true;
      }
      RunTwo(s, Settlement.Publish, MarkPublishedThrows);
      WorkerOnly(sent, MarkPublishedThrows);
      return false;
    }

    /** One row at the head of the batch; `aborted` says that its status update failed too. */
    method PublishRow(r: nat, f: RowFault, ghost rest: seq<nat>, ghost replays: seq<Replay>) returns (aborted: bool)
      requires r < |store.outbox|
      modifies store`tokens, store`outbox
      ensures aborted == (f == PublishAndMarkFail || f == BothMarksFail)
      ensures var row := old(store.outbox)[r];
              && store.outbox
                 == old(store.outbox)[r := if f == Clean then OutboxRow(row.payload, PUBLISHED, row.retryCount)
                                           else if aborted then row
                                           else OutboxRow(row.payload, OutboxStatus.FAILED, row.retryCount + 1)]
              && store.tokens == old(store.tokens)
                                 + if f == PublishFails || f == PublishAndMarkFail then []
                                   else [Token(Work, Message(row.payload, row.payload.order.tenant, 0, INITIATED))]
      ensures store.View(if aborted then Idle else Busy(rest, Unsent), replays)
              == RunFrom(old(store.View(Busy([r] + rest, Unsent), replays)), RowScript(f))
    {
      hide Next, PendingRows, Tracking.Without;
      ghost var s := store.View(Busy([r] + rest, Unsent), replays);
      var marked := PublishAndMark(r, f, rest, replays);
      if marked {
        assert RowScript(f) == TryScript(f);
        return false;
      }
      ghost var erring := store.View(Busy([r] + rest, Erring(Sends(f))), replays);
      if Aborts(f) {
        RunSnoc(s, TryScript(f), FlushAborts);
        WorkerOnly(erring, FlushAborts);
        return true;
      }
      store.MarkFailed(r);
      RunSnoc(s, TryScript(f), MarkHeadFailed);
      MarkHeadFailedIs(erring, r, rest, Sends(f));
      return false;
    }

    /** The loop over the batch. Its rows are handled up to `stop`, the end or the first that aborts;
        those at `sent` among them were published, in this order. */
    method DrainBatch(batch: seq<nat>, faults: nat -> RowFault, ghost replays: seq<Replay>)
      returns (ghost stop: nat, ghost sent: seq<nat>)
      requires forall k | 0 <= k < |batch| :: batch[k] < |store.outbox|
      requires forall j, k | 0 <= j < k < |batch| :: batch[j] < batch[k]
      modifies store`tokens, store`outbox
      ensures store.View(Idle, replays)
              == RunFrom(old(store.View(Busy(batch, Unsent), replays)), BatchScript(|batch|, 0, faults))
      ensures StopsAtFirstAbort(stop, |batch|, faults) && PicksPublished(sent, stop, faults)
      ensures MarkedUpTo(old(store.outbox), store.outbox, batch, faults, stop)
      ensures PublishedInOrder(old(store.outbox), old(store.tokens), store.tokens, batch, sent)
    {
      hide Next, PendingRows, Tracking.Without, RunFrom, RowScript, BatchScript;
      hide MarkedUpTo, PublishedInOrder, PicksPublished;
      ghost var n := |batch|;
      ghost var rows, messages := store.outbox, store.tokens;
      ghost var goal := RunFrom(store.View(Busy(batch, Unsent), replays), BatchScript(n, 0, faults));
      assert batch[0..] == batch;
      sent := [];
      NothingDone(rows, messages, batch, faults);
      for k := 0 to |batch|
        invariant |store.outbox| == |rows|
        invariant goal == RunFrom(store.View(Busy(batch[k..], Unsent), replays), BatchScript(n, k, faults))
        invariant forall j: nat | j < k :: !Aborts(faults(j))
        invariant PicksPublished(sent, k, faults)
        invariant MarkedUpTo(rows, store.outbox, batch, faults, k)
        invariant PublishedInOrder(rows, messages, store.tokens, batch, sent)
      {
        assert batch[k..] == [batch[k]] + batch[k + 1..];
        ghost var before := store.View(Busy(batch[k..], Unsent), replays);
        OneMoreRow(rows, store.outbox, messages, store.tokens, batch, faults, k, sent);
        var aborted := PublishRow(batch[k], faults(k), batch[k + 1..], replays);
        OneRow(before, n, k, faults);
        if Sends(faults(k)) { sent := sent + [k]; }
        if aborted { return k + 1, sent; }
      }
      stop := n;
      assert batch[n..] == [];
      FlushFinishes(store.View(Busy([], Unsent), replays), n, faults);
    }

    /** flush: returns at once when another flush is running; otherwise drains one batch, up to the
        first row that aborts. A row of it ends PUBLISHED exactly if its fault is Clean, and has one
        fresh message exactly if its publication did not throw; all others are as they were. */
    method Flush(faults: nat -> RowFault, ghost replays: seq<Replay>)
      returns (ghost stop: nat, ghost sent: seq<nat>)
      modifies this`isRunning, store`tokens, store`outbox
      ensures old(isRunning) ==> isRunning && store.tokens == old(store.tokens) && store.outbox == old(store.outbox)
      ensures !old(isRunning) ==>
                && !isRunning
                && store.View(Idle, replays)
                   == RunFrom(old(store.View(Idle, replays)),
                              [FlushBegins] + BatchScript(|PendingBatch(old(store.outbox))|, 0, faults))
      ensures !old(isRunning) ==>
                var rows, batch := old(store.outbox), PendingBatch(old(store.outbox));
                && StopsAtFirstAbort(stop, |batch|, faults) && PicksPublished(sent, stop, faults)
                && MarkedUpTo(rows, store.outbox, batch, faults, stop)
                && PublishedInOrder(rows, old(store.tokens), store.tokens, batch, sent)
      ensures var rows, batch, n := old(store.outbox), PendingBatch(old(store.outbox)), |old(store.tokens)|;
              !old(isRunning) && (forall k: nat | k < |batch| :: faults(k) == Clean) ==>
                && |store.outbox| == |rows| && |store.tokens| == n + |batch| && store.tokens[..n] == old(store.tokens)
                && forall k: nat | k < |batch| ::
                     && batch[k] < |rows|
                     && var row := rows[batch[k]];
                        && store.outbox[batch[k]] == OutboxRow(row.payload, PUBLISHED, row.retryCount)
                        && store.tokens[n + k]
                           == Token(Work, Message(row.payload, row.payload.order.tenant, 0, INITIATED))
    {
      hide Next, PendingRows, RunFrom, BatchScript, MarkedUpTo, PublishedInOrder, PicksPublished;
      if isRunning { return 0, []; }
      isRunning := true;
      ghost var rows, messages := store.outbox, store.tokens;
      FlushStarts(store.View(Idle, replays), faults);
      var batch := PendingBatch(store.outbox);
      Tracking.PendingRowsArePending(store.outbox);
      stop, sent := DrainBatch(batch, faults, replays);
      isRunning := false;
      if forall k: nat | k < |batch| :: faults(k) == Clean {
        CleanFlush(rows, store.outbox, messages, store.tokens, batch, faults, stop, sent);
      }
    }
  }

  lemma {:induction false} Enumerates(sent: seq<nat>, n: nat)
    requires forall a, b | 0 <= a < b < |sent| :: sent[a] < sent[b]
    requires forall k: nat :: k in sent <==> k < n
    ensures |sent| == n && forall k | 0 <= k < n :: sent[k] == k
  {
    if sent == [] {
      assert 0 in sent <==> 0 < n;
    } else {
      var last := |sent| - 1;
      assert sent[last] in sent;
      var greatest: nat := n - 1;
      assert greatest in sent;
      forall k: nat ensures k in sent[..last] <==> k < n - 1 {
        if k < n - 1 { assert k in sent; }
      }
      Enumerates(sent[..last], n - 1);
    }
  }

  /** Without a fault every row of the batch is published and marked, in order. */
  lemma CleanFlush(rows: seq<OutboxRow>, after: seq<OutboxRow>, messages: seq<Token>, tokens: seq<Token>,
                   batch: seq<nat>, faults: nat -> RowFault, stop: nat, sent: seq<nat>)
    requires forall k: nat | k < |batch| :: faults(k) == Clean
    requires StopsAtFirstAbort(stop, |batch|, faults) && PicksPublished(sent, stop, faults)
    requires MarkedUpTo(rows, after, batch, faults, stop) && PublishedInOrder(rows, messages, tokens, batch, sent)
    ensures |after| == |rows| && |tokens| == |messages| + |batch| && tokens[..|messages|] == messages
    ensures forall k: nat | k < |batch| ::
              && batch[k] < |rows|
              && var row := rows[batch[k]];
                 && after[batch[k]] == OutboxRow(row.payload, PUBLISHED, row.retryCount)
                 && tokens[|messages| + k] == Token(Work, Message(row.payload, row.payload.order.tenant, 0, INITIATED))
  {
    assert stop == |batch|;
    Enumerates(sent, stop);
    forall k: nat | k < |batch|
      ensures batch[k] < |rows|
      ensures var row := rows[batch[k]];
              && after[batch[k]] == OutboxRow(row.payload, PUBLISHED, row.retryCount)
              && tokens[|messages| + k] == Token(Work, Message(row.payload, row.payload.order.tenant, 0, INITIATED))
    {
      assert sent[k] == k;
    }
  }

  lemma FlushStarts(s: State, faults: nat -> RowFault)
    requires s.worker == Idle
    ensures var batch := PendingBatch(s.db.outbox);
            RunFrom(s, [FlushBegins] + BatchScript(|batch|, 0, faults))
            == RunFrom(s.(worker := Busy(batch, Unsent)), BatchScript(|batch|, 0, faults))
  {
    hide Next;
    RunCons(s, FlushBegins, BatchScript(|PendingBatch(s.db.outbox)|, 0, faults));
    WorkerOnly(s, FlushBegins);
  }

  lemma OneRow(s: State, n: nat, k: nat, faults: nat -> RowFault)
    requires k < n
    ensures var after := RunFrom(s, RowScript(faults(k)));
            RunFrom(s, BatchScript(n, k, faults))
            == if Aborts(faults(k)) then after else RunFrom(after, BatchScript(n, k + 1, faults))
  {
    hide Next;
    RunAppend(s, RowScript(faults(k)), if Aborts(faults(k)) then [] else BatchScript(n, k + 1, faults));
  }

  lemma FlushFinishes(s: State, n: nat, faults: nat -> RowFault)
    requires s.worker == Busy([], Unsent)
    ensures RunFrom(s, BatchScript(n, n, faults)) == s.(worker := Idle)
  {
    hide Next;
    RunOne(s, FlushEnds);
    WorkerOnly(s, FlushEnds);
  }
}
