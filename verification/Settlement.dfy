/** The settlement protocol: database, outbox worker, broker, handlers in flight and operator
    replay, as one machine. A token is one message together with where it is; queues are bags,
    so any token of a queue may move next. Every step is total: a step whose token, row or
    phase is not there changes nothing, so every sequence of steps is a run. */
module Settlement {
  import opened Options
  import opened LedgerDb

  const MAX_RETRIES: nat := 3
  const BATCH_SIZE: nat := 50
  const OUTBOX_MAX_RETRIES: nat := 3

  datatype Phase = Received | PairWritten | Stamped

  datatype Place =
    | Work                    // queue transfer.initiated
    | Delay(k: nat)           // queue transfer.retry.delay.(k+1)
    | Handling(phase: Phase)  // delivered and not yet acked
    | Acked                   // acked after an error, not yet published again
    | Failing                 // retries exhausted: dead-lettered, FAILED not yet written
    | Dead                    // queue transfer.initiated.dlq
    | CompletedQueue          // queue transfer.completed
    | FailedEvent             // the published transfer.failed event
    | Gone

  /** The body is the payload with a status that says which event it reports. */
  datatype Message = Message(payload: Payload, tenant: nat, retryCount: nat, status: Status)

  datatype Token = Token(place: Place, msg: Message)

  /** Where flush stands with the row at the head of its batch. */
  datatype Head = Unsent | Sent | Erring(sent: bool)

  datatype Worker = Idle | Busy(batch: seq<nat>, head: Head)

  datatype DlqRow = DlqRow(payload: Payload, tenant: nat, status: Status, replayed: bool)

  datatype Replay = Checked(event: nat) | Armed(event: nat) | Injected(event: nat) | Finished

  datatype State = State(
    db: Db, tokens: seq<Token>, worker: Worker, dlq: seq<DlqRow>, replays: seq<Replay>)

  const INIT: State := State(EMPTY, [], Idle, [], [])

  datatype Step =
    // requests and the top-up script
    | Api(db: DbStep)
    // outbox worker
    | FlushBegins
    | Publish
    | PublishThrows
    | MarkHeadPublished
    | MarkPublishedThrows
    | MarkHeadFailed
    | FlushAborts
    | FlushEnds
    // settlement handler
    | Deliver(i: nat)
    | WritePair(i: nat)
    | Stamp(i: nat)
    | Finish(i: nat)
    | HandlerError(i: nat)
    | Reschedule(i: nat)
    | Expire(i: nat)
    | MarkTransferFailed(i: nat)
    // transfer.completed handler
    | ConsumeCompleted(i: nat)
    | CompletedError(i: nat)
    // dead letters
    | Persist(i: nat)
    | ReplayBegins(event: nat)
    | ReplayArms(k: nat)
    | ReplaySends(k: nat)
    | ReplayStamps(k: nat)
    // faults
    | HandlerDies(i: nat)
    | Redeliver(i: nat)
    | DuplicatePublish(row: nat)
    | WorkerDies
    | ReplayDies(k: nat)

  predicate At(s: State, i: nat, place: Place) {
    i < |s.tokens| && s.tokens[i].place == place
  }

  predicate InHand(s: State, i: nat) {
    i < |s.tokens| && s.tokens[i].place.Handling?
  }

  /** The steps that requests take on the database. */
  predicate IsApi(d: DbStep) {
    d.AddWallet? || d.TopUp? || d.Create? || d.Begin? || d.ReadCredits? || d.ReadDebits? || d.ReadReserved?
    || d.Commit? || d.Rollback?
  }

  /** findPendingBatch, oldest rows first. */
  function PendingRows(outbox: seq<OutboxRow>): seq<nat> {
    if outbox == [] then []
    else
      var n := |outbox| - 1;
      PendingRows(outbox[..n])
      + if outbox[n].status == PENDING && outbox[n].retryCount < OUTBOX_MAX_RETRIES then [n] else []
  }

  function PendingBatch(outbox: seq<OutboxRow>): seq<nat> {
    var rows := PendingRows(outbox);
    if |rows| <= BATCH_SIZE then rows else rows[..BATCH_SIZE]
  }

  predicate HeadIs(s: State, head: Head) {
    s.worker.Busy? && s.worker.batch != [] && s.worker.head == head
  }

  predicate HeadErring(s: State) {
    s.worker.Busy? && s.worker.batch != [] && s.worker.head.Erring?
  }

  // ---- The effect of a step, part by part -------------------------------------------------

  /** The one database statement or transaction a step commits, if any. */
  function DbEffect(s: State, step: Step): Option<DbStep> {
    match step
    case Api(d) => if IsApi(d) then Some(d) else None
    case MarkHeadPublished => if HeadIs(s, Sent) then Some(MarkPublished(s.worker.batch[0])) else None
    case MarkHeadFailed => if HeadErring(s) then Some(MarkFailed(s.worker.batch[0])) else None
    case WritePair(i) =>
      if At(s, i, Handling(Received)) then Some(WriteEntryPair(s.tokens[i].msg.tenant, s.tokens[i].msg.payload))
      else None
    case Stamp(i) =>
      if At(s, i, Handling(PairWritten)) then Some(SetCompleted(s.tokens[i].msg.payload.transferId)) else None
    case MarkTransferFailed(i) =>
      if At(s, i, Failing) then Some(SetFailed(s.tokens[i].msg.payload.transferId)) else None
    case ConsumeCompleted(i) =>
      if At(s, i, CompletedQueue) then Some(CompleteIfInitiated(s.tokens[i].msg.payload.transferId)) else None
    case ReplayArms(k) =>
      if k < |s.replays| && s.replays[k].Checked? && s.replays[k].event < |s.dlq|
      then Some(Rearm(s.dlq[s.replays[k].event].payload.transferId)) else None
    case _ => None
  }

  function Fresh(payload: Payload, tenant: nat): Token {
    Token(Work, Message(payload, tenant, 0, INITIATED))
  }

  /** The body of a dead letter, back in the work queue with its retries reset. */
  function Resent(e: DlqRow): Token {
    Token(Work, Message(e.payload, e.tenant, 0, e.status))
  }

  /** The row that persists a dead letter. */
  function Persisted(m: Message): DlqRow {
    DlqRow(m.payload, m.tenant, m.status, false)
  }

  function CompletedMessage(m: Message): Message {
    m.(retryCount := 0, status := COMPLETED)
  }

  function FailedMessage(m: Message): Message {
    m.(status := Status.FAILED)
  }

  /** Retry number n waits in delay queue n; the message counts it. */
  function Retried(m: Message): Token
    requires m.retryCount < MAX_RETRIES
  {
    Token(Delay(m.retryCount), m.(retryCount := m.retryCount + 1))
  }

  /** The token a step moves, and what it becomes. */
  function Moved(s: State, step: Step): (r: Option<(nat, Token)>)
    ensures r.Some? ==> r.value.0 < |s.tokens|
  {
    match step
    case Deliver(i) => if At(s, i, Work) then Some((i, s.tokens[i].(place := Handling(Received)))) else None
    case WritePair(i) =>
      if At(s, i, Handling(Received)) then
        // a refused pair surfaces as an internal error, never as a unique violation
        var m := s.tokens[i].msg;
        Some((i, Token(if PairFits(s.db, m.tenant, m.payload) then Handling(PairWritten) else Acked, m)))
      else None
    case Stamp(i) =>
      if At(s, i, Handling(PairWritten)) then Some((i, s.tokens[i].(place := Handling(Stamped)))) else None
    case Finish(i) => if At(s, i, Handling(Stamped)) then Some((i, s.tokens[i].(place := Gone))) else None
    case HandlerError(i) => if InHand(s, i) then Some((i, s.tokens[i].(place := Acked))) else None
    case Reschedule(i) =>
      if At(s, i, Acked) then
        var m := s.tokens[i].msg;
        Some((i, if m.retryCount < MAX_RETRIES then Retried(m) else Token(Failing, m)))
      else None
    case Expire(i) =>
      if i < |s.tokens| && s.tokens[i].place.Delay? then Some((i, s.tokens[i].(place := Work))) else None
    case MarkTransferFailed(i) => if At(s, i, Failing) then Some((i, s.tokens[i].(place := Gone))) else None
    case ConsumeCompleted(i) => if At(s, i, CompletedQueue) then Some((i, s.tokens[i].(place := Gone))) else None
    case CompletedError(i) =>
      // the delay queues are shared and expire into transfer.initiated
      if At(s, i, CompletedQueue) then
        var m := s.tokens[i].msg;
        Some((i, if m.retryCount < MAX_RETRIES then Retried(m) else Token(Gone, m)))
      else None
    case HandlerDies(i) =>
      // an unacked message goes back to its queue, what was acked is lost
      if InHand(s, i) then Some((i, s.tokens[i].(place := Work)))
      else if At(s, i, Acked) || At(s, i, Failing) then Some((i, s.tokens[i].(place := Gone)))
      else None
    case _ => None
  }

  /** The token a step adds: a message it publishes, or a copy the broker makes. */
  function Added(s: State, step: Step): Option<Token> {
    match step
    case Publish =>
      if HeadIs(s, Unsent) && s.worker.batch[0] < |s.db.outbox| then
        var p := s.db.outbox[s.worker.batch[0]].payload;
        Some(Fresh(p, p.order.tenant))
      else None
    case Finish(i) =>
      if At(s, i, Handling(Stamped)) then Some(Token(CompletedQueue, CompletedMessage(s.tokens[i].msg))) else None
    case Reschedule(i) =>
      if At(s, i, Acked) && s.tokens[i].msg.retryCount >= MAX_RETRIES
      then Some(Token(Dead, s.tokens[i].msg)) else None
    case MarkTransferFailed(i) => if At(s, i, Failing) then Some(Token(FailedEvent, FailedMessage(s.tokens[i].msg))) else None
    case ReplaySends(k) =>
      if k < |s.replays| && s.replays[k].Armed? && s.replays[k].event < |s.dlq| then
        Some(Resent(s.dlq[s.replays[k].event]))
      else None
    case Redeliver(i) => if InHand(s, i) then Some(s.tokens[i].(place := Work)) else None
    case DuplicatePublish(r) =>
      if r < |s.db.outbox| then
        var p := s.db.outbox[r].payload;
        Some(Fresh(p, p.order.tenant))
      else None
    case _ => None
  }

  function NextTokens(s: State, step: Step): seq<Token> {
    (match Moved(s, step) case None => s.tokens case Some((i, tok)) => s.tokens[i := tok])
    + (match Added(s, step) case None => [] case Some(tok) => [tok])
  }

  function NextWorker(s: State, step: Step): Worker {
    match step
    case FlushBegins => if s.worker.Idle? then Busy(PendingBatch(s.db.outbox), Unsent) else s.worker
    case Publish => if HeadIs(s, Unsent) then s.worker.(head := Sent) else s.worker
    case PublishThrows => if HeadIs(s, Unsent) then s.worker.(head := Erring(false)) else s.worker
    case MarkHeadPublished => if HeadIs(s, Sent) then Busy(s.worker.batch[1..], Unsent) else s.worker
    case MarkPublishedThrows => if HeadIs(s, Sent) then s.worker.(head := Erring(true)) else s.worker
    case MarkHeadFailed => if HeadErring(s) then Busy(s.worker.batch[1..], Unsent) else s.worker
    case FlushAborts => if HeadErring(s) then Idle else s.worker
    case FlushEnds => if s.worker.Busy? && s.worker.batch == [] then Idle else s.worker
    case WorkerDies => Idle
    case _ => s.worker
  }

  function NextDlq(s: State, step: Step): seq<DlqRow> {
    match step
    case Persist(i) =>
      if At(s, i, Dead) then s.dlq + [Persisted(s.tokens[i].msg)] else s.dlq
    case ReplayStamps(k) =>
      if k < |s.replays| && s.replays[k].Injected? && s.replays[k].event < |s.dlq| then
        var e := s.replays[k].event;
        s.dlq[e := s.dlq[e].(replayed := true)]
      else s.dlq
    case _ => s.dlq
  }

  function NextReplays(s: State, step: Step): seq<Replay> {
    match step
    case ReplayBegins(e) =>
      if e < |s.dlq| && !s.dlq[e].replayed then s.replays + [Checked(e)] else s.replays
    case ReplayArms(k) =>
      if k < |s.replays| && s.replays[k].Checked? then s.replays[k := Armed(s.replays[k].event)] else s.replays
    case ReplaySends(k) =>
      if k < |s.replays| && s.replays[k].Armed? then s.replays[k := Injected(s.replays[k].event)] else s.replays
    case ReplayStamps(k) =>
      if k < |s.replays| && s.replays[k].Injected? then s.replays[k := Finished] else s.replays
    case ReplayDies(k) => if k < |s.replays| then s.replays[k := Finished] else s.replays
    case _ => s.replays
  }

  function NextDb(s: State, step: Step): Db {
    match DbEffect(s, step)
    case None => s.db
    case Some(d) => Apply(s.db, d)
  }

  function Next(s: State, step: Step): State {
    State(NextDb(s, step), NextTokens(s, step), NextWorker(s, step), NextDlq(s, step), NextReplays(s, step))
  }

  /** A run from the empty system. */
  function Exec(steps: seq<Step>): State {
    if steps == [] then INIT else Next(Exec(steps[..|steps| - 1]), steps[|steps| - 1])
  }

  /** A run from any state. */
  function RunFrom(s: State, steps: seq<Step>): State
    decreases |steps|
  {
    if steps == [] then s else RunFrom(Next(s, steps[0]), steps[1..])
  }

  // ---- What every run keeps ---------------------------------------------------------------

  /** The payload copies the transfer row it names. */
  predicate Copies(db: Db, p: Payload) {
    p.transferId < |db.transfers| && p.order == db.transfers[p.transferId].order
  }

  predicate Wellformed(db: Db, tok: Token) {
    && Copies(db, tok.msg.payload)
    && tok.msg.tenant == tok.msg.payload.order.tenant
    && tok.msg.retryCount <= MAX_RETRIES
    && (tok.place.Delay? ==> tok.place.k < MAX_RETRIES && tok.msg.retryCount == tok.place.k + 1)
    && (tok.place in {Handling(PairWritten), Handling(Stamped), CompletedQueue}
        ==> Posted(db, tok.msg.payload.transferId))
    && (tok.msg.status == COMPLETED ==> Posted(db, tok.msg.payload.transferId))
  }

  ghost predicate TokensWellformed(db: Db, tokens: seq<Token>) {
    forall i | 0 <= i < |tokens| :: Wellformed(db, tokens[i])
  }

  ghost predicate RowsCopy(db: Db) {
    forall r | 0 <= r < |db.outbox| :: Copies(db, db.outbox[r].payload)
  }

  predicate SoundEvent(db: Db, e: DlqRow) {
    && Copies(db, e.payload) && e.tenant == e.payload.order.tenant
    && (e.status == COMPLETED ==> Posted(db, e.payload.transferId))
  }

  ghost predicate EventsCopy(db: Db, dlq: seq<DlqRow>) {
    forall e | 0 <= e < |dlq| :: SoundEvent(db, dlq[e])
  }

  ghost predicate ReplaysPoint(dlq: seq<DlqRow>, replays: seq<Replay>) {
    forall k | 0 <= k < |replays| && !replays[k].Finished? :: replays[k].event < |dlq|
  }

  ghost predicate Inv(s: State) {
    && Sound(s.db)
    && TokensWellformed(s.db, s.tokens)
    && RowsCopy(s.db)
    && EventsCopy(s.db, s.dlq)
    && ReplaysPoint(s.dlq, s.replays)
  }

  /** No step ever writes a foreign pair or completes an unposted transfer. */
  lemma EffectIsLegal(s: State, step: Step)
    requires Inv(s)
    ensures DbEffect(s, step).Some? ==> Legal(s.db, DbEffect(s, step).value)
  {
    match step {
      case WritePair(i) => if i < |s.tokens| { assert Wellformed(s.db, s.tokens[i]); }
      case Stamp(i) => if i < |s.tokens| { assert Wellformed(s.db, s.tokens[i]); }
      case ConsumeCompleted(i) => if i < |s.tokens| { assert Wellformed(s.db, s.tokens[i]); }
      case _ =>
    }
  }

  lemma DbGrows(s: State, step: Step)
    ensures Grows(s.db, NextDb(s, step))
  {
    if DbEffect(s, step).Some? { StepGrows(s.db, DbEffect(s, step).value); }
  }

  lemma CopiesStay(a: Db, b: Db, p: Payload)
    requires Grows(a, b) && Copies(a, p)
    ensures Copies(b, p)
  {
  }

  lemma StaysWellformed(a: Db, b: Db, tok: Token)
    requires Grows(a, b) && Wellformed(a, tok)
    ensures Wellformed(b, tok)
  {
    if Posted(a, tok.msg.payload.transferId) { assert Posted(b, tok.msg.payload.transferId); }
  }

  ghost predicate WritesPair(s: State, step: Step) {
    step.WritePair? && At(s, step.i, Handling(Received))
    && PairFits(s.db, s.tokens[step.i].msg.tenant, s.tokens[step.i].msg.payload)
  }

  lemma MovedIsWellformed(s: State, step: Step)
    requires Inv(s) && Moved(s, step).Some?
    ensures if WritesPair(s, step) then Wellformed(s.db, Moved(s, step).value.1.(place := Work))
            else Wellformed(s.db, Moved(s, step).value.1)
  {
    assert Wellformed(s.db, s.tokens[Moved(s, step).value.0]);
  }

  lemma AddedIsWellformed(s: State, step: Step)
    requires Inv(s) && Added(s, step).Some?
    ensures Wellformed(s.db, Added(s, step).value)
  {
    if step.Finish? || step.Reschedule? || step.MarkTransferFailed? || step.Redeliver? {
      assert Wellformed(s.db, s.tokens[step.i]);
    }
  }

  lemma TokensStayWellformed(s: State, step: Step)
    requires Inv(s)
    ensures TokensWellformed(NextDb(s, step), NextTokens(s, step))
  {
    var db, after := NextDb(s, step), NextTokens(s, step);
    DbGrows(s, step);
    forall j | 0 <= j < |after| ensures Wellformed(db, after[j]) {
      if Moved(s, step).Some? && j == Moved(s, step).value.0 {
        MovedIsWellformed(s, step);
        if WritesPair(s, step) {
          PairPostsItsTransfer(s, step);
          StaysWellformed(s.db, db, after[j].(place := Work));
        } else {
          StaysWellformed(s.db, db, after[j]);
        }
      } else if j < |s.tokens| {
        assert Wellformed(s.db, s.tokens[j]);
        StaysWellformed(s.db, db, after[j]);
      } else {
        AddedIsWellformed(s, step);
        StaysWellformed(s.db, db, after[j]);
      }
    }
  }

  lemma PairPostsItsTransfer(s: State, step: Step)
    requires WritesPair(s, step)
    ensures Posted(NextDb(s, step), s.tokens[step.i].msg.payload.transferId)
  {
    var m := s.tokens[step.i].msg;
    PairPosts(s.db.journal, m.tenant, m.payload, m.payload.transferId);
  }

  lemma RowsStayCopies(s: State, step: Step)
    requires Inv(s)
    ensures RowsCopy(NextDb(s, step))
  {
    hide Sound, TokensWellformed, EventsCopy, Posted, Apply;
    var db := NextDb(s, step);
    DbGrows(s, step);
    forall r | 0 <= r < |db.outbox| ensures Copies(db, db.outbox[r].payload) {
      if r < |s.db.outbox| {
        CopiesStay(s.db, db, s.db.outbox[r].payload);
      } else {
        NewRowCopies(s, step);
      }
    }
  }

  lemma NewRowCopies(s: State, step: Step)
    requires |NextDb(s, step).outbox| > |s.db.outbox|
    ensures var db := NextDb(s, step);
            |db.outbox| == |s.db.outbox| + 1 && Copies(db, db.outbox[|s.db.outbox|].payload)
  {
    assert step.Api? && (step.db.Create? || step.db.Commit?);
  }

  lemma EventsStayCopies(s: State, step: Step)
    requires Inv(s)
    ensures EventsCopy(NextDb(s, step), NextDlq(s, step)) && ReplaysPoint(NextDlq(s, step), NextReplays(s, step))
  {
    var db, dlq := NextDb(s, step), NextDlq(s, step);
    DbGrows(s, step);
    forall e | 0 <= e < |dlq| ensures SoundEvent(db, dlq[e]) {
      if e < |s.dlq| {
        EventStaysSound(s.db, db, s.dlq[e]);
      } else {
        assert Wellformed(s.db, s.tokens[step.i]);
        EventStaysSound(s.db, db, Persisted(s.tokens[step.i].msg));
      }
    }
  }

  lemma EventStaysSound(a: Db, b: Db, e: DlqRow)
    requires Grows(a, b) && SoundEvent(a, e)
    ensures forall replayed: bool :: SoundEvent(b, e.(replayed := replayed))
  {
    if Posted(a, e.payload.transferId) { assert Posted(b, e.payload.transferId); }
  }

  lemma StepKeepsInv(s: State, step: Step)
    requires Inv(s)
    ensures Inv(Next(s, step))
  {
    EffectIsLegal(s, step);
    if DbEffect(s, step).Some? { StepIsSound(s.db, DbEffect(s, step).value); }
    DbGrows(s, step);
    TokensStayWellformed(s, step);
    RowsStayCopies(s, step);
    EventsStayCopies(s, step);
  }

  /** Whatever is redelivered, duplicated, retried, replayed or lost, every run keeps Inv. */
  lemma {:induction false} RunKeepsInv(steps: seq<Step>)
    ensures Inv(Exec(steps))
  {
    if steps == [] {
    } else {
      RunKeepsInv(steps[..|steps| - 1]);
      StepKeepsInv(Exec(steps[..|steps| - 1]), steps[|steps| - 1]);
    }
  }
}
