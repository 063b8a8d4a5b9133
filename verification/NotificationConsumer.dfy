/** The webhook consumer: the second instance of the retry discipline, with one retry. */
module NotificationConsumer {
  import opened RetryQueue

  const NOTIFICATION_MAX_RETRIES: nat := 1

  /** What one delivery runs into. */
  datatype Delivery = NotAWebhookEvent | MalformedBody | Delivered | WebhookFails

  /** The retry events that end one handling of item i. */
  function Outcome(i: nat, d: Delivery): seq<Event> {
    if d == WebhookFails then [Fail(i), Requeue(i)] else [Settle(i)]
  }

  function HandlerEvents(i: nat, d: Delivery): seq<Event> {
    [Take(i)] + Outcome(i, d)
  }

  function PlayFrom(items: seq<Item>, events: seq<Event>): seq<Item>
    decreases |events|
  {
    if events == [] then items else PlayFrom(Next(NOTIFICATION_MAX_RETRIES, items, events[0]), events[1..])
  }

  lemma PlayTwo(items: seq<Item>, a: Event, b: Event)
    ensures PlayFrom(items, [a, b]) == Next(NOTIFICATION_MAX_RETRIES, Next(NOTIFICATION_MAX_RETRIES, items, a), b)
  {
    assert [a, b][1..] == [b] && [b][1..] == [];
    var once := Next(NOTIFICATION_MAX_RETRIES, items, a);
    assert PlayFrom(once, [b]) == PlayFrom(Next(NOTIFICATION_MAX_RETRIES, once, b), []);
  }

  lemma PlayThree(items: seq<Item>, a: Event, b: Event, c: Event)
    ensures PlayFrom(items, [a, b, c])
            == Next(NOTIFICATION_MAX_RETRIES,
                    Next(NOTIFICATION_MAX_RETRIES, Next(NOTIFICATION_MAX_RETRIES, items, a), b), c)
  {
    assert [a, b, c][1..] == [b, c];
    PlayTwo(Next(NOTIFICATION_MAX_RETRIES, items, a), b, c);
  }

  /** Playing on from where a run of the discipline has come. */
  lemma {:induction false} PlayFromContinues(before: seq<Event>, events: seq<Event>)
    ensures PlayFrom(Play(NOTIFICATION_MAX_RETRIES, before), events) == Play(NOTIFICATION_MAX_RETRIES, before + events)
    decreases |events|
  {
    hide Next;
    if events == [] {
      assert before + events == before;
    } else {
      assert (before + [events[0]])[..|before|] == before;
      assert before + events == (before + [events[0]]) + events[1..];
      PlayFromContinues(before + [events[0]], events[1..]);
    }
  }

  // ---- Whole runs -------------------------------------------------------------------------

  /** An event arrives, counting retries already if it fell over from another consumer; the delay
      of a message expires; a message is handled, and meanwhile perhaps redelivered; or its handler
      dies, before its ack or between the ack and the republication. */
  datatype Act =
    | Arrives(retryCount: nat)
    | Expires(i: nat)
    | Handled(i: nat, d: Delivery)
    | Redelivered(i: nat, d: Delivery)
    | Dies(i: nat)
    | DiesAfterAck(i: nat)

  function ActEvents(act: Act): seq<Event> {
    match act
    case Arrives(retryCount) => [Inject(retryCount)]
    case Expires(i) => [Expire(i)]
    case Handled(i, d) => HandlerEvents(i, d)
    case Redelivered(i, d) => [Take(i), Copy(i)] + Outcome(i, d)
    case Dies(i) => [Take(i), PutBack(i)]
    case DiesAfterAck(i) => [Take(i), Fail(i), Drop(i)]
  }

  function EventsOf(acts: seq<Act>): seq<Event> {
    if acts == [] then [] else EventsOf(acts[..|acts| - 1]) + ActEvents(acts[|acts| - 1])
  }

  /** The messages after these acts. */
  function Messages(acts: seq<Act>): seq<Item> {
    if acts == [] then [] else PlayFrom(Messages(acts[..|acts| - 1]), ActEvents(acts[|acts| - 1]))
  }

  /** Messages that arrived, and copies that the broker made. */
  function Arrivals(acts: seq<Act>): nat {
    if acts == [] then 0
    else
      var last := acts[|acts| - 1];
      Arrivals(acts[..|acts| - 1]) + if last.Arrives? || last.Redelivered? then 1 else 0
  }

  /** A message waiting in the queue is handled and its webhook fails. */
  predicate WebhookFailsOn(items: seq<Item>, act: Act) {
    match act
    case Handled(i, d) => d == WebhookFails && Has(items, i, Queued)
    case Redelivered(i, d) => d == WebhookFails && Has(items, i, Queued)
    case DiesAfterAck(i) => Has(items, i, Queued)
    case _ => false
  }

  function WebhookFailures(acts: seq<Act>): nat {
    if acts == [] then 0
    else
      var before := acts[..|acts| - 1];
      WebhookFailures(before) + if WebhookFailsOn(Messages(before), acts[|acts| - 1]) then 1 else 0
  }

  lemma {:induction false} MessagesArePlayed(acts: seq<Act>)
    ensures Messages(acts) == Play(NOTIFICATION_MAX_RETRIES, EventsOf(acts))
  {
    hide Next, ActEvents;
    if acts == [] {
    } else {
      var before, events := acts[..|acts| - 1], ActEvents(acts[|acts| - 1]);
      MessagesArePlayed(before);
      PlayFromContinues(EventsOf(before), events);
    }
  }

  lemma CountsSnoc(before: seq<Event>, e: Event)
    ensures Injections(before + [e]) == Injections(before) + if IsInjection(e) then 1 else 0
    ensures Failures(NOTIFICATION_MAX_RETRIES, before + [e])
            == Failures(NOTIFICATION_MAX_RETRIES, before)
               + if e.Fail? && Has(Play(NOTIFICATION_MAX_RETRIES, before), e.i, InHand) then 1 else 0
    ensures Play(NOTIFICATION_MAX_RETRIES, before + [e])
            == Next(NOTIFICATION_MAX_RETRIES, Play(NOTIFICATION_MAX_RETRIES, before), e)
  {
    assert (before + [e])[..|before|] == before;
  }

  lemma TwoEvents(before: seq<Event>, a: Event, b: Event)
    ensures before + [a, b] == before + [a] + [b]
    ensures Injections(before + [a, b])
            == Injections(before) + (if IsInjection(a) then 1 else 0) + if IsInjection(b) then 1 else 0
    ensures Failures(NOTIFICATION_MAX_RETRIES, before + [a, b])
            >= Failures(NOTIFICATION_MAX_RETRIES, before)
               + if b.Fail? && Has(Play(NOTIFICATION_MAX_RETRIES, before + [a]), b.i, InHand) then 1 else 0
  {
    hide Injections, Failures, Play, Next;
    assert before + [a, b] == before + [a] + [b];
    CountsSnoc(before, a);
    CountsSnoc(before + [a], b);
  }

  lemma TakenIsInHand(before: seq<Event>, i: nat)
    ensures Has(Play(NOTIFICATION_MAX_RETRIES, before), i, Queued) ==>
              && Has(Play(NOTIFICATION_MAX_RETRIES, before + [Take(i)]), i, InHand)
              && Has(Play(NOTIFICATION_MAX_RETRIES, before + [Take(i)] + [Copy(i)]), i, InHand)
  {
    hide Play, Injections, Failures;
    CountsSnoc(before, Take(i));
    CountsSnoc(before + [Take(i)], Copy(i));
  }

  lemma ActCounts(before: seq<Event>, act: Act)
    ensures var events := before + ActEvents(act);
            && Injections(events) == Injections(before) + (if act.Arrives? || act.Redelivered? then 1 else 0)
            && Failures(NOTIFICATION_MAX_RETRIES, events)
               >= Failures(NOTIFICATION_MAX_RETRIES, before)
                  + if WebhookFailsOn(Play(NOTIFICATION_MAX_RETRIES, before), act) then 1 else 0
  {
    hide Injections, Failures, Play, Next;
    match act {
      case Arrives(r) => CountsSnoc(before, Inject(r));
      case Expires(i) => CountsSnoc(before, Expire(i));
      case Dies(i) => TwoEvents(before, Take(i), PutBack(i));
      case DiesAfterAck(i) => FailureCounts(before, i, Drop(i));
      case Handled(i, d) =>
        if d == WebhookFails {
          FailureCounts(before, i, Requeue(i));
          assert HandlerEvents(i, d) == [Take(i), Fail(i), Requeue(i)];
        } else {
          TwoEvents(before, Take(i), Settle(i));
          assert HandlerEvents(i, d) == [Take(i), Settle(i)];
        }
      case Redelivered(i, d) => CopyCounts(before, i, d);
    }
  }

  lemma FailureCounts(before: seq<Event>, i: nat, last: Event)
    requires last == Requeue(i) || last == Drop(i)
    ensures var events := before + [Take(i), Fail(i), last];
            && Injections(events) == Injections(before)
            && Failures(NOTIFICATION_MAX_RETRIES, events)
               >= Failures(NOTIFICATION_MAX_RETRIES, before)
                  + if Has(Play(NOTIFICATION_MAX_RETRIES, before), i, Queued) then 1 else 0
  {
    hide Injections, Failures, Play, Next;
    TakenIsInHand(before, i);
    TwoEvents(before, Take(i), Fail(i));
    CountsSnoc(before + [Take(i), Fail(i)], last);
    assert before + [Take(i), Fail(i), last] == before + [Take(i), Fail(i)] + [last];
  }

  lemma CopyCounts(before: seq<Event>, i: nat, d: Delivery)
    ensures var events := before + ([Take(i), Copy(i)] + Outcome(i, d));
            && Injections(events) == Injections(before) + 1
            && Failures(NOTIFICATION_MAX_RETRIES, events)
               >= Failures(NOTIFICATION_MAX_RETRIES, before)
                  + if d == WebhookFails && Has(Play(NOTIFICATION_MAX_RETRIES, before), i, Queued) then 1 else 0
  {
    hide Injections, Failures, Play, Next;
    var copied := before + [Take(i), Copy(i)];
    TakenIsInHand(before, i);
    TwoEvents(before, Take(i), Copy(i));
    if d == WebhookFails {
      CountsSnoc(copied, Fail(i));
      CountsSnoc(copied + [Fail(i)], Requeue(i));
      assert before + ([Take(i), Copy(i)] + Outcome(i, d)) == copied + [Fail(i)] + [Requeue(i)];
    } else {
      CountsSnoc(copied, Settle(i));
      assert before + ([Take(i), Copy(i)] + Outcome(i, d)) == copied + [Settle(i)];
    }
  }

  lemma {:induction false} RunCounts(acts: seq<Act>)
    ensures Injections(EventsOf(acts)) == Arrivals(acts)
    ensures Failures(NOTIFICATION_MAX_RETRIES, EventsOf(acts)) >= WebhookFailures(acts)
  {
    hide Injections, Failures, Play, WebhookFailsOn;
    if acts == [] {
      NothingCounted();
    } else {
      var before, act := acts[..|acts| - 1], acts[|acts| - 1];
      RunCounts(before);
      MessagesArePlayed(before);
      ActCounts(EventsOf(before), act);
    }
  }

  lemma NothingCounted()
    ensures Injections([]) == 0 && Failures(NOTIFICATION_MAX_RETRIES, []) == 0
  {
  }

  /** Over every run, crashes and redeliveries included, webhook deliveries fail at most twice per
      message that arrived or was redelivered, and every waiting message is in the one delay queue
      there is. */
  lemma WebhookFailuresAreBounded(acts: seq<Act>)
    ensures WebhookFailures(acts) <= 2 * Arrivals(acts)
    ensures forall i | 0 <= i < |Messages(acts)| && Messages(acts)[i].place.Waiting? :: Messages(acts)[i].place.k == 0
  {
    RunCounts(acts);
    MessagesArePlayed(acts);
    FailuresAreBounded(NOTIFICATION_MAX_RETRIES, EventsOf(acts));
    forall i | 0 <= i < |Messages(acts)| && Messages(acts)[i].place.Waiting? ensures Messages(acts)[i].place.k == 0 {
      assert InRange(NOTIFICATION_MAX_RETRIES, Play(NOTIFICATION_MAX_RETRIES, EventsOf(acts))[i]);
    }
  }

  class NotificationConsumer {
    var items: seq<Item>   // the messages of the queue, its delay queue and its dead letters
    var buried: nat        // dead letters published and persisted

    constructor ()
      ensures items == [] && buried == 0
    {
      items, buried := [], 0;
    }

    /** Acks in every case and is done with the message, its count as it was, unless the webhook fails
        and was not retried yet: then, and only then, it waits for its one retry. */
    method HandleMessage(i: nat, d: Delivery)
      requires Has(items, i, Queued)
      modifies this
      ensures var it := old(items)[i];
              items == old(items)[i := if d == WebhookFails && it.retryCount == 0 then Item(Waiting(0), 1)
                                       else Item(Aside, it.retryCount)]
      ensures items == PlayFrom(old(items), HandlerEvents(i, d))
      ensures buried == old(buried)
                        + if d == MalformedBody
                             || (d == WebhookFails && old(items)[i].retryCount >= 1)
                          then 1 else 0
    {
      ghost var before := items;
      var it := items[i];
      items := items[i := it.(place := InHand)];
      if d == WebhookFails {
        items := items[i := it.(place := Acked)];
        ScheduleRetryOrDlq(i);
        PlayThree(before, Take(i), Fail(i), Requeue(i));
      } else {
        items := items[i := it.(place := Aside)];
        if d == MalformedBody { buried := buried + 1; }
        PlayTwo(before, Take(i), Settle(i));
      }
    }

    method ScheduleRetryOrDlq(i: nat)
      requires Has(items, i, Acked)
      modifies this
      ensures items == Next(NOTIFICATION_MAX_RETRIES, old(items), Requeue(i))
      ensures var it := old(items)[i];
              items == old(items)[i := if it.retryCount == 0 then Item(Waiting(0), 1) else Item(Aside, it.retryCount)]
      ensures buried == old(buried) + if old(items)[i].retryCount >= 1 then 1 else 0
    {
      var it := items[i];
      if it.retryCount < NOTIFICATION_MAX_RETRIES {
        items := items[i := Item(Waiting(it.retryCount), it.retryCount + 1)];
      } else {
        items := items[i := it.(place := Aside)];
        buried := buried + 1;
      }
    }
  }
}
