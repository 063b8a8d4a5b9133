/** Settlement follows the retry discipline with three retries. */
module SettlementRetries {
  import opened Options
  import opened LedgerDb
  import opened Settlement
  import R = RetryQueue

  function PlaceOf(p: Place): R.Place {
    match p
    case Work => R.Queued
    case Delay(k) => R.Waiting(k)
    case Handling(_) => R.InHand
    case Acked => R.Acked
    case _ => R.Aside
  }

  function ItemOf(tok: Token): R.Item {
    R.Item(PlaceOf(tok.place), tok.msg.retryCount)
  }

  function Items(tokens: seq<Token>): (items: seq<R.Item>)
    ensures |items| == |tokens| && forall i | 0 <= i < |tokens| :: items[i] == ItemOf(tokens[i])
  {
    seq(|tokens|, i requires 0 <= i < |tokens| => ItemOf(tokens[i]))
  }

  // ---- Each step is at most two events of the discipline ----------------------------------

  function After(items: seq<R.Item>, e: Option<R.Event>): seq<R.Item> {
    match e
    case None => items
    case Some(e) => R.Next(MAX_RETRIES, items, e)
  }

  /** What a settlement step does to the token it moves. */
  function MoveEvent(s: State, step: Step): Option<R.Event> {
    match Moved(s, step)
    case None => None
    case Some((i, tok)) =>
      match step
      case Deliver(_) => Some(R.Take(i))
      case WritePair(_) => if tok.place == Acked then Some(R.Fail(i)) else None
      case Finish(_) => Some(R.Settle(i))
      case HandlerError(_) => Some(R.Fail(i))
      case Reschedule(_) => Some(R.Requeue(i))
      case Expire(_) => Some(R.Expire(i))
      case CompletedError(_) => Some(R.Adopt(i))
      case HandlerDies(_) => if tok.place == Work then Some(R.PutBack(i)) else Some(R.Drop(i))
      case _ => None
  }

  /** The token it adds: a copy of the moved one, a fresh message, or one that never is queued. */
  function AddEvent(s: State, step: Step): Option<R.Event> {
    match Added(s, step)
    case None => None
    case Some(tok) =>
      if step.Redeliver? then Some(R.Copy(step.i))
      else if tok.place == Work then Some(R.Inject(tok.msg.retryCount))
      else Some(R.SetAside(tok.msg.retryCount))
  }

  function Unchanged(s: State, step: Step): seq<Token> {
    match Moved(s, step) case None => s.tokens case Some((i, tok)) => s.tokens[i := tok]
  }

  /** The event turns the moved item into what the move makes of it. */
  lemma MovedItem(s: State, step: Step)
    requires Inv(s) && Moved(s, step).Some?
    ensures var (i, tok) := Moved(s, step).value;
            match MoveEvent(s, step)
            case None => ItemOf(tok) == ItemOf(s.tokens[i])
            case Some(e) => !R.Adds(e) && e.i == i && R.Turn(MAX_RETRIES, ItemOf(s.tokens[i]), e) == ItemOf(tok)
  {
    hide PairFits, Posted, Sound, RowsCopy, EventsCopy, ReplaysPoint;
    assert Wellformed(s.db, s.tokens[Moved(s, step).value.0]);
  }

  lemma MoveIsAnEvent(s: State, step: Step)
    requires Inv(s)
    ensures After(Items(s.tokens), MoveEvent(s, step)) == Items(Unchanged(s, step))
  {
    if Moved(s, step).Some? {
      var (i, tok) := Moved(s, step).value;
      hide Moved, MoveEvent, Inv;
      MovedItem(s, step);
      assert Items(s.tokens[i := tok]) == Items(s.tokens)[i := ItemOf(tok)];
    }
  }

  lemma AddIsAnEvent(s: State, step: Step)
    ensures After(Items(Unchanged(s, step)), AddEvent(s, step)) == Items(NextTokens(s, step))
  {
    var moved := Unchanged(s, step);
    if Added(s, step).Some? {
      var tok := Added(s, step).value;
      assert Items(moved + [tok]) == Items(moved) + [ItemOf(tok)];
    } else {
      assert moved + [] == moved;
    }
  }

  /** Seen through its places and retry counts, a settlement step is a move and an addition of
      the retry discipline. */
  lemma SettlementRefinesRetryQueue(s: State, step: Step)
    requires Inv(s)
    ensures Items(Next(s, step).tokens) == After(After(Items(s.tokens), MoveEvent(s, step)), AddEvent(s, step))
    ensures R.AllInRange(MAX_RETRIES, Items(s.tokens))
  {
    MoveIsAnEvent(s, step);
    AddIsAnEvent(s, step);
    InvIsInRange(s);
  }

  lemma InvIsInRange(s: State)
    requires Inv(s)
    ensures R.AllInRange(MAX_RETRIES, Items(s.tokens))
  {
    forall i | 0 <= i < |s.tokens| ensures R.InRange(MAX_RETRIES, Items(s.tokens)[i]) {
      assert Wellformed(s.db, s.tokens[i]);
    }
  }

  // ---- The count over whole runs ----------------------------------------------------------

  /** A message in hand is acked without having settled. */
  predicate Fails(s: State, step: Step) {
    Moved(s, step).Some? && s.tokens[Moved(s, step).value.0].place.Handling? && Moved(s, step).value.1.place == Acked
  }

  /** A message is published, replayed or redelivered into the work queue, or falls into a delay
      queue from transfer.completed. */
  predicate Circulates(s: State, step: Step) {
    || (Added(s, step).Some? && Added(s, step).value.place == Work)
    || (step.CompletedError? && At(s, step.i, CompletedQueue))
  }

  function FailedHandlings(steps: seq<Step>): nat {
    if steps == [] then 0
    else
      var before, step := steps[..|steps| - 1], steps[|steps| - 1];
      FailedHandlings(before) + if Fails(Exec(before), step) then 1 else 0
  }

  function Circulations(steps: seq<Step>): nat {
    if steps == [] then 0
    else
      var before, step := steps[..|steps| - 1], steps[|steps| - 1];
      Circulations(before) + if Circulates(Exec(before), step) then 1 else 0
  }

  /** The attempts that the messages of a state have left. */
  function AttemptsLeft(s: State): int {
    R.Potential(MAX_RETRIES, Items(s.tokens))
  }

  lemma MoveSpends(s: State, step: Step)
    requires Inv(s)
    ensures var change := R.Potential(MAX_RETRIES, Items(Unchanged(s, step))) - AttemptsLeft(s);
            && (Fails(s, step) ==> change == -1)
            && change <= Gain(MoveEvent(s, step))
  {
    hide Inv, Items, Unchanged;
    MoveIsAnEvent(s, step);
    InvIsInRange(s);
    if MoveEvent(s, step).Some? { R.StepSpends(MAX_RETRIES, Items(s.tokens), MoveEvent(s, step).value); }
  }

  lemma AddSpends(s: State, step: Step)
    requires Inv(s)
    ensures R.Potential(MAX_RETRIES, Items(NextTokens(s, step))) - R.Potential(MAX_RETRIES, Items(Unchanged(s, step)))
            <= Gain(AddEvent(s, step))
  {
    AddIsAnEvent(s, step);
    MoveIsAnEvent(s, step);
    InvIsInRange(s);
    if MoveEvent(s, step).Some? { R.StepStaysInRange(MAX_RETRIES, Items(s.tokens), MoveEvent(s, step).value); }
    if AddEvent(s, step).Some? { R.StepSpends(MAX_RETRIES, Items(Unchanged(s, step)), AddEvent(s, step).value); }
  }

  function Gain(e: Option<R.Event>): nat {
    if e.Some? && R.IsInjection(e.value) then MAX_RETRIES + 1 else 0
  }

  lemma OnlyCirculationGains(s: State, step: Step)
    ensures Gain(MoveEvent(s, step)) + Gain(AddEvent(s, step)) == if Circulates(s, step) then MAX_RETRIES + 1 else 0
    ensures Fails(s, step) ==> Added(s, step) == None
  {
  }

  /** A failed handling uses up exactly one attempt, and only circulating a message adds any. */
  lemma StepSpends(s: State, step: Step)
    requires Inv(s)
    ensures Fails(s, step) ==> AttemptsLeft(Next(s, step)) == AttemptsLeft(s) - 1
    ensures AttemptsLeft(Next(s, step)) <= AttemptsLeft(s) + if Circulates(s, step) then MAX_RETRIES + 1 else 0
  {
    MoveSpends(s, step);
    AddSpends(s, step);
    OnlyCirculationGains(s, step);
    if Fails(s, step) { assert Unchanged(s, step) + [] == Unchanged(s, step); }
  }

  lemma {:induction false} RunSpends(steps: seq<Step>)
    ensures FailedHandlings(steps) + AttemptsLeft(Exec(steps)) <= (MAX_RETRIES + 1) * Circulations(steps)
  {
    if steps == [] {
    } else {
      var before, step := steps[..|steps| - 1], steps[|steps| - 1];
      RunSpends(before);
      RunKeepsInv(before);
      StepSpends(Exec(before), step);
    }
  }

  /** Over a whole run, each message published, replayed, redelivered or fallen over from
      transfer.completed fails at most four times. */
  lemma SettlementFailuresAreBounded(steps: seq<Step>)
    ensures FailedHandlings(steps) <= 4 * Circulations(steps)
  {
    RunSpends(steps);
    RunKeepsInv(steps);
    InvIsInRange(Exec(steps));
    R.PotentialIsNatural(MAX_RETRIES, Items(Exec(steps).tokens));
  }
}
