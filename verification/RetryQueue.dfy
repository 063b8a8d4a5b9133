/** The retry discipline shared by the consumers: a failed message is acked, waits in the delay
    queue its retry count selects, and is buried after `limit` retries. Generic in the limit;
    there are as many delay queues as retries. */
module RetryQueue {
  import opened Sums

  datatype Place = Queued | Waiting(k: nat) | InHand | Acked | Aside

  datatype Item = Item(place: Place, retryCount: nat)

  datatype Event =
    | Inject(retryCount: nat)  // a message is published, replayed or routed into the queue
    | Copy(i: nat)     // the broker redelivers a message whose handler still runs
    | Adopt(i: nat)    // a message of another consumer falls into a shared delay queue
    | Take(i: nat)
    | Settle(i: nat)
    | Fail(i: nat)     // a failed handling
    | Requeue(i: nat)
    | Expire(i: nat)
    | PutBack(i: nat)  // a handler dies before acking
    | Drop(i: nat)     // a handler dies after acking
    | SetAside(retryCount: nat)

  predicate Has(items: seq<Item>, i: nat, place: Place) {
    i < |items| && items[i].place == place
  }

  function Backoff(limit: nat, it: Item): Item {
    if it.retryCount < limit then Item(Waiting(it.retryCount), it.retryCount + 1) else it.(place := Aside)
  }

  function Move(it: Item, from: Place, to: Place): Item {
    if it.place == from then it.(place := to) else it
  }

  /** What an event makes of the message it is about. */
  function Turn(limit: nat, it: Item, e: Event): Item {
    match e
    case Take(_) => Move(it, Queued, InHand)
    case Settle(_) => Move(it, InHand, Aside)
    case Fail(_) => Move(it, InHand, Acked)
    case PutBack(_) => Move(it, InHand, Queued)
    case Drop(_) => Move(it, Acked, Aside)
    case Expire(_) => if it.place.Waiting? then it.(place := Queued) else it
    case Requeue(_) => if it.place == Acked then Backoff(limit, it) else it
    case Adopt(_) => if it.place == Aside then Backoff(limit, it) else it
    case _ => it
  }

  predicate Adds(e: Event) {
    e.Inject? || e.Copy? || e.SetAside?
  }

  function Next(limit: nat, items: seq<Item>, e: Event): seq<Item> {
    match e
    case Inject(r) => items + [Item(Queued, r)]
    case SetAside(r) => items + [Item(Aside, r)]
    case Copy(i) => if Has(items, i, InHand) then items + [items[i].(place := Queued)] else items
    case _ => if e.i < |items| then items[e.i := Turn(limit, items[e.i], e)] else items
  }

  function Play(limit: nat, events: seq<Event>): seq<Item> {
    if events == [] then [] else Next(limit, Play(limit, events[..|events| - 1]), events[|events| - 1])
  }

  // ---- Accounts of a run ------------------------------------------------------------------

  predicate IsInjection(e: Event) {
    e.Inject? || e.Copy? || e.Adopt?
  }

  function Injections(events: seq<Event>): nat {
    if events == [] then 0
    else Injections(events[..|events| - 1]) + if IsInjection(events[|events| - 1]) then 1 else 0
  }

  function Failures(limit: nat, events: seq<Event>): nat {
    if events == [] then 0
    else
      var before, e := events[..|events| - 1], events[|events| - 1];
      Failures(limit, before) + if e.Fail? && Has(Play(limit, before), e.i, InHand) then 1 else 0
  }

  /** How often a message with this count can still fail. One that arrives with more than the limit
      fails once. */
  function Left(limit: nat, retryCount: nat): (n: nat)
    ensures 1 <= n <= limit + 1
  {
    if retryCount <= limit then limit + 1 - retryCount else 1
  }

  /** How many more times a message can fail. */
  function Attempts(limit: nat): Item -> int {
    (it: Item) =>
      match it.place
      case Aside => 0
      case Acked => Left(limit, it.retryCount) - 1
      case _ => Left(limit, it.retryCount)
  }

  function Potential(limit: nat, items: seq<Item>): int {
    SeqSum(items, Attempts(limit))
  }

  /** A message that waits for its n-th retry is in delay queue n, and there is one. */
  predicate InRange(limit: nat, it: Item) {
    it.place.Waiting? ==> it.place.k < limit && it.retryCount == it.place.k + 1
  }

  ghost predicate AllInRange(limit: nat, items: seq<Item>) {
    forall i | 0 <= i < |items| :: InRange(limit, items[i])
  }

  lemma StepStaysInRange(limit: nat, items: seq<Item>, e: Event)
    requires AllInRange(limit, items)
    ensures AllInRange(limit, Next(limit, items, e))
  {
  }

  /** A failed handling uses up exactly one attempt; nothing but an injection adds any, and an
      injection adds at most limit + 1. */
  lemma StepSpends(limit: nat, items: seq<Item>, e: Event)
    ensures var change := Potential(limit, Next(limit, items, e)) - Potential(limit, items);
            && (e.Fail? && Has(items, e.i, InHand) ==> change == -1)
            && change <= (if IsInjection(e) then limit + 1 else 0)
  {
    var g := Attempts(limit);
    match e {
      case Inject(r) => SeqSumAppend(items, Item(Queued, r), g);
      case SetAside(r) => SeqSumAppend(items, Item(Aside, r), g);
      case Copy(i) => if Has(items, i, InHand) { SeqSumAppend(items, items[i].(place := Queued), g); }
      case _ => UpdateSpends(limit, items, e);
    }
  }

  lemma UpdateSpends(limit: nat, items: seq<Item>, e: Event)
    requires !Adds(e)
    ensures Potential(limit, Next(limit, items, e))
            == Potential(limit, items)
               + if e.i < |items| then Attempts(limit)(Turn(limit, items[e.i], e)) - Attempts(limit)(items[e.i]) else 0
  {
    if e.i < |items| { SeqSumUpdate(items, e.i, Turn(limit, items[e.i], e), Attempts(limit)); }
  }

  lemma {:induction false} RunStaysInRange(limit: nat, events: seq<Event>)
    ensures AllInRange(limit, Play(limit, events))
  {
    if events == [] {
    } else {
      RunStaysInRange(limit, events[..|events| - 1]);
      StepStaysInRange(limit, Play(limit, events[..|events| - 1]), events[|events| - 1]);
    }
  }

  lemma {:induction false} RunSpends(limit: nat, events: seq<Event>)
    ensures Failures(limit, events) + Potential(limit, Play(limit, events)) <= (limit + 1) * Injections(events)
  {
    if events == [] {
    } else {
      var before, e := events[..|events| - 1], events[|events| - 1];
      RunSpends(limit, before);
      StepSpends(limit, Play(limit, before), e);
      assert (limit + 1) * (Injections(before) + 1) == (limit + 1) * Injections(before) + (limit + 1);
    }
  }

  lemma PotentialIsNatural(limit: nat, items: seq<Item>)
    ensures Potential(limit, items) >= 0
  {
    SeqSumNonNegative(items, Attempts(limit));
  }

  /** Over a whole run every delay queue index is in range and each message put into
      circulation fails at most limit + 1 times. */
  lemma FailuresAreBounded(limit: nat, events: seq<Event>)
    ensures AllInRange(limit, Play(limit, events))
    ensures Failures(limit, events) <= (limit + 1) * Injections(events)
  {
    RunSpends(limit, events);
    RunStaysInRange(limit, events);
    PotentialIsNatural(limit, Play(limit, events));
  }
}
