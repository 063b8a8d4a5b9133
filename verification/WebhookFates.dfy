/** What whole runs of the webhook consumer make of one message. */
module WebhookFates {
  import opened RetryQueue
  import opened NotificationConsumer

  /** Between two acts no message is in a handler's hands. */
  ghost predicate Resting(items: seq<Item>) {
    forall i | 0 <= i < |items| :: items[i].place != InHand && items[i].place != Acked
  }

  function PlayAct(items: seq<Item>, act: Act): seq<Item> {
    PlayFrom(items, ActEvents(act))
  }

  lemma PlayOne(items: seq<Item>, e: Event)
    ensures PlayFrom(items, [e]) == Next(NOTIFICATION_MAX_RETRIES, items, e)
  {
    hide Next;
    assert [e][1..] == [];
    assert PlayFrom(Next(NOTIFICATION_MAX_RETRIES, items, e), []) == Next(NOTIFICATION_MAX_RETRIES, items, e);
  }

  /** What an undisturbed handling makes of a message. */
  lemma HandledIs(items: seq<Item>, i: nat, d: Delivery)
    requires Resting(items)
    ensures PlayAct(items, Handled(i, d))
            == if !Has(items, i, Queued) then items
               else items[i := if d == WebhookFails && items[i].retryCount == 0 then Item(Waiting(0), 1)
                               else Item(Aside, items[i].retryCount)]
  {
    if d == WebhookFails {
      assert ActEvents(Handled(i, d)) == [Take(i), Fail(i), Requeue(i)];
      PlayThree(items, Take(i), Fail(i), Requeue(i));
    } else {
      assert ActEvents(Handled(i, d)) == [Take(i), Settle(i)];
      PlayTwo(items, Take(i), Settle(i));
    }
  }

  lemma PlayFour(items: seq<Item>, a: Event, b: Event, c: Event, d: Event)
    ensures PlayFrom(items, [a, b, c, d])
            == Next(NOTIFICATION_MAX_RETRIES,
                    Next(NOTIFICATION_MAX_RETRIES,
                         Next(NOTIFICATION_MAX_RETRIES, Next(NOTIFICATION_MAX_RETRIES, items, a), b), c), d)
  {
    hide Next;
    assert [a, b, c, d][1..] == [b, c, d];
    PlayThree(Next(NOTIFICATION_MAX_RETRIES, items, a), b, c, d);
  }

  /** A copy made in between comes last, whatever becomes of the message itself. */
  lemma CopyLast(items: seq<Item>, i: nat, a: Event, b: Event)
    requires Resting(items) && a == Fail(i) && b == Requeue(i)
    ensures var limit := NOTIFICATION_MAX_RETRIES;
            var taken := Next(limit, items, Take(i));
            Next(limit, Next(limit, Next(limit, taken, Copy(i)), a), b)
            == if Has(items, i, Queued) then Next(limit, Next(limit, taken, a), b) + [items[i]]
               else Next(limit, Next(limit, taken, a), b)
  {
  }

  /** With a redelivery in between there is a second message as well, as the first one was. */
  lemma RedeliveredIs(items: seq<Item>, i: nat, d: Delivery)
    requires Resting(items)
    ensures PlayAct(items, Redelivered(i, d))
            == if !Has(items, i, Queued) then items else PlayAct(items, Handled(i, d)) + [items[i]]
  {
    hide PlayFrom;
    if d == WebhookFails {
      assert ActEvents(Redelivered(i, d)) == [Take(i), Copy(i), Fail(i), Requeue(i)];
      assert ActEvents(Handled(i, d)) == [Take(i), Fail(i), Requeue(i)];
      PlayFour(items, Take(i), Copy(i), Fail(i), Requeue(i));
      PlayThree(items, Take(i), Fail(i), Requeue(i));
      CopyLast(items, i, Fail(i), Requeue(i));
    } else {
      assert ActEvents(Redelivered(i, d)) == [Take(i), Copy(i), Settle(i)];
      assert ActEvents(Handled(i, d)) == [Take(i), Settle(i)];
      PlayThree(items, Take(i), Copy(i), Settle(i));
      PlayTwo(items, Take(i), Settle(i));
    }
  }

  lemma DiesIs(items: seq<Item>, i: nat)
    requires Resting(items)
    ensures PlayAct(items, Dies(i)) == items
    ensures PlayAct(items, DiesAfterAck(i)) == if !Has(items, i, Queued) then items else items[i := items[i].(place := Aside)]
  {
    PlayTwo(items, Take(i), PutBack(i));
    PlayThree(items, Take(i), Fail(i), Drop(i));
  }

  lemma ArrivesIs(items: seq<Item>, retryCount: nat)
    ensures PlayAct(items, Arrives(retryCount)) == items + [Item(Queued, retryCount)]
  {
    PlayOne(items, Inject(retryCount));
  }

  lemma ExpiresIs(items: seq<Item>, i: nat)
    ensures PlayAct(items, Expires(i))
            == if i < |items| && items[i].place.Waiting? then items[i := items[i].(place := Queued)] else items
  {
    PlayOne(items, Expire(i));
  }

  // ---- Deliveries -------------------------------------------------------------------------

  /** The act delivers the webhook of message i. */
  predicate DeliversOn(items: seq<Item>, act: Act, i: nat) {
    (act == Handled(i, Delivered) || act == Redelivered(i, Delivered)) && Has(items, i, Queued)
  }

  predicate Delivers(items: seq<Item>, act: Act) {
    (act.Handled? || act.Redelivered?) && DeliversOn(items, act, act.i)
  }

  function Deliveries(acts: seq<Act>): nat {
    if acts == [] then 0
    else
      var before := acts[..|acts| - 1];
      Deliveries(before) + if Delivers(Messages(before), acts[|acts| - 1]) then 1 else 0
  }

  /** The messages not done with. */
  function Pending(items: seq<Item>): nat {
    if items == [] then 0
    else Pending(items[..|items| - 1]) + if items[|items| - 1].place == Aside then 0 else 1
  }

  lemma PendingAppend(items: seq<Item>, it: Item)
    ensures Pending(items + [it]) == Pending(items) + if it.place == Aside then 0 else 1
  {
    assert (items + [it])[..|items|] == items;
  }

  lemma {:induction false} PendingUpdate(items: seq<Item>, i: nat, it: Item)
    requires i < |items|
    ensures Pending(items[i := it]) + (if items[i].place == Aside then 0 else 1)
            == Pending(items) + if it.place == Aside then 0 else 1
  {
    var n := |items| - 1;
    if i == n {
      assert items[i := it][..n] == items[..n];
    } else {
      assert items[i := it][..n] == items[..n][i := it];
      PendingUpdate(items[..n], i, it);
    }
  }

  /** Only an arrival or a redelivery adds a message to do; a delivery finishes one. */
  lemma ActFinishes(items: seq<Item>, act: Act)
    requires Resting(items)
    ensures var after := PlayAct(items, act);
            && Resting(after)
            && Pending(after) + (if Delivers(items, act) then 1 else 0)
               <= Pending(items) + if act.Arrives? || act.Redelivered? then 1 else 0
  {
    hide PlayAct, Pending;
    match act {
      case Arrives(r) => ArrivesIs(items, r); PendingAppend(items, Item(Queued, r));
      case Expires(i) =>
        ExpiresIs(items, i);
        if i < |items| { PendingUpdate(items, i, items[i].(place := Queued)); }
      case Dies(i) => DiesIs(items, i);
      case DiesAfterAck(i) =>
        DiesIs(items, i);
        if i < |items| { PendingUpdate(items, i, items[i].(place := Aside)); }
      case Handled(i, d) => HandlingFinishes(items, i, d);
      case Redelivered(i, d) =>
        HandlingFinishes(items, i, d);
        RedeliveredIs(items, i, d);
        if i < |items| { PendingAppend(PlayAct(items, Handled(i, d)), items[i]); }
    }
  }

  lemma HandlingFinishes(items: seq<Item>, i: nat, d: Delivery)
    requires Resting(items)
    ensures var after := PlayAct(items, Handled(i, d));
            && Resting(after)
            && Pending(after) + (if d == Delivered && Has(items, i, Queued) then 1 else 0) <= Pending(items)
  {
    hide PlayAct, Pending;
    HandledIs(items, i, d);
    if Has(items, i, Queued) {
      PendingUpdate(items, i, if d == WebhookFails && items[i].retryCount == 0 then Item(Waiting(0), 1)
                              else Item(Aside, items[i].retryCount));
    }
  }

  lemma {:induction false} RunFinishes(acts: seq<Act>)
    ensures Resting(Messages(acts))
    ensures Deliveries(acts) + Pending(Messages(acts)) <= Arrivals(acts)
  {
    hide PlayFrom, ActEvents, Pending, Delivers, Resting;
    if acts == [] {
      NothingPends();
    } else {
      var before, act := acts[..|acts| - 1], acts[|acts| - 1];
      RunFinishes(before);
      ActFinishes(Messages(before), act);
    }
  }

  lemma NothingPends()
    ensures Resting([]) && Pending([]) == 0
  {
  }

  /** Over every run, crashes included, webhooks are delivered at most once per message that arrived or
      was redelivered, and every message still to do leaves room for its own. */
  lemma DeliveriesAreBounded(acts: seq<Act>)
    ensures Deliveries(acts) + Pending(Messages(acts)) <= Arrivals(acts)
  {
    RunFinishes(acts);
  }

  lemma DoneStaysDone(items: seq<Item>, act: Act, i: nat)
    requires Resting(items) && Has(items, i, Aside)
    ensures Has(PlayAct(items, act), i, Aside) && PlayAct(items, act)[i] == items[i]
    ensures !DeliversOn(items, act, i)
  {
    hide PlayAct;
    match act {
      case Arrives(r) => ArrivesIs(items, r);
      case Expires(j) => ExpiresIs(items, j);
      case Dies(j) => DiesIs(items, j);
      case DiesAfterAck(j) => DiesIs(items, j);
      case Handled(j, d) => HandledIs(items, j, d);
      case Redelivered(j, d) => HandledIs(items, j, d); RedeliveredIs(items, j, d);
    }
  }

  /** Once its webhook is delivered a message is done with: in every continuation of the run it stays
      aside with its count unchanged, so that it is not in the queue for any handler. */
  lemma {:induction false} DeliveredMessagesAreDone(acts: seq<Act>, act: Act, i: nat, more: seq<Act>)
    requires DeliversOn(Messages(acts), act, i)
    ensures var end := Messages(acts + [act] + more);
            i < |end| && end[i] == Item(Aside, Messages(acts)[i].retryCount)
    decreases |more|
  {
    hide PlayFrom, ActEvents;
    var items := Messages(acts);
    RunFinishes(acts);
    if more == [] {
      assert acts + [act] + more == acts + [act] && (acts + [act])[..|acts|] == acts;
      HandledIs(items, i, Delivered);
      RedeliveredIs(items, i, Delivered);
    } else {
      var n := |more| - 1;
      var before := acts + [act] + more[..n];
      DeliveredMessagesAreDone(acts, act, i, more[..n]);
      assert (acts + [act] + more)[..|before|] == before && (acts + [act] + more)[|before|] == more[n];
      RunFinishes(before);
      DoneStaysDone(Messages(before), more[n], i);
    }
  }
}
