/** Operator replay of a dead letter: check, re-arm the reservation, inject, stamp. */
module DlqService {
  import opened Options
  import opened LedgerDb
  import opened Settlement
  import opened Store
  import opened StepFacts
  import opened Burial
  import Fates

  datatype ReplayResult = Replayed | NotFound | Conflict

  function ReplaySteps(event: nat, k: nat): seq<Step> {
    [ReplayBegins(event), ReplayArms(k), ReplaySends(k)] + [ReplayStamps(k)]
  }

  /** The transfer is INITIATED again, one message with no retry counted waits for settlement, and the
      event is stamped; nothing else has moved. */
  lemma ReplayEffect(s: State, event: nat)
    requires event < |s.dlq| && !s.dlq[event].replayed
    ensures var e := s.dlq[event];
            var t := e.payload.transferId;
            RunFrom(s, ReplaySteps(event, |s.replays|))
            == s.(db := s.db.(transfers := if t >= |s.db.transfers| then s.db.transfers
                                           else s.db.transfers[t := s.db.transfers[t].(status := INITIATED)]),
                  tokens := s.tokens + [Token(Work, Message(e.payload, e.tenant, 0, e.status))],
                  dlq := s.dlq[event := DlqRow(e.payload, e.tenant, e.status, true)],
                  replays := s.replays + [Finished])
  {
    hide Next;
    var k := |s.replays|;
    Fates.ReplayInjects(s, event);
    RunSnoc(s, [ReplayBegins(event), ReplayArms(k), ReplaySends(k)], ReplayStamps(k));
    var injected := RunFrom(s, [ReplayBegins(event), ReplayArms(k), ReplaySends(k)]);
    ReplayStampsIs(injected, k);
    assert injected.replays[k := Finished] == s.replays + [Finished];
  }

  /** A replayed message starts over: whatever interleaves, if no handling of it succeeds and none dies
      after its ack, it fails at most four times; once done with, it has failed exactly four times, is a
      dead letter again, and its transfer has been set FAILED again. */
  lemma ReplayedMessagesFailFourTimes(s: State, event: nat, steps: seq<Step>)
    requires event < |s.dlq| && !s.dlq[event].replayed
    requires NeverSucceeds(RunFrom(s, ReplaySteps(event, |s.replays|)), steps, |s.tokens|)
    ensures var e, i, armed := s.dlq[event], |s.tokens|, RunFrom(s, ReplaySteps(event, |s.replays|));
            var end := RunFrom(armed, steps);
            && FailuresOf(armed, steps, i) <= 4 && i < |end.tokens|
            && (end.tokens[i].place == Gone ==>
                  && FailuresOf(armed, steps, i) == 4
                  && Holds(end, Token(Dead, Message(e.payload, e.tenant, 3, e.status)))
                  && Holds(end, Token(FailedEvent, Message(e.payload, e.tenant, 3, Status.FAILED)))
                  && WasSetFailed(armed, steps, i))
  {
    hide RunFrom, FailuresOf, NeverSucceeds, WasSetFailed, Holds;
    ReplayEffect(s, event);
    var armed := RunFrom(s, ReplaySteps(event, |s.replays|));
    UnsuccessfulMessagesAreBuried(armed, steps, |s.tokens|);
  }

  lemma ReplayDiesIs(s: State, k: nat)
    requires k < |s.replays|
    ensures Next(s, ReplayDies(k)) == s.(replays := s.replays[k := Finished])
  {
    assert s.tokens + [] == s.tokens;
  }

  lemma FinishedReplaysRest(s: State, k: nat)
    requires k < |s.replays| && s.replays[k].Finished?
    ensures Next(s, ReplaySends(k)) == s && Next(s, ReplayStamps(k)) == s
  {
    assert s.tokens + [] == s.tokens;
  }

  lemma DyingReplayIs(s: State, event: nat)
    requires event < |s.dlq| && !s.dlq[event].replayed
    ensures RunFrom(s, [ReplayBegins(event), ReplayArms(|s.replays|)] + [ReplayDies(|s.replays|)])
            == s.(db := SetStatus(s.db, s.dlq[event].payload.transferId, INITIATED), replays := s.replays + [Finished])
  {
    hide Next, RunFrom, SetStatus;
    var k := |s.replays|;
    Fates.ReplayRearms(s, event);
    var armed := RunFrom(s, [ReplayBegins(event), ReplayArms(k)]);
    RunSnoc(s, [ReplayBegins(event), ReplayArms(k)], ReplayDies(k));
    ReplayDiesIs(armed, k);
    assert (s.replays + [Armed(event)])[k := Finished] == s.replays + [Finished];
  }

  /** A replay that dies after re-arming: the transfer is INITIATED, so its amount is reserved again, but
      no message goes out, now or later, and the event is not stamped, so another replay can begin. */
  lemma DyingReplaysSendNothing(s: State, event: nat)
    requires event < |s.dlq| && !s.dlq[event].replayed
    ensures var t, k := s.dlq[event].payload.transferId, |s.replays|;
            var end := RunFrom(s, [ReplayBegins(event), ReplayArms(k)] + [ReplayDies(k)]);
            && end == s.(db := s.db.(transfers := if t >= |s.db.transfers| then s.db.transfers
                                                  else s.db.transfers[t := s.db.transfers[t].(status := INITIATED)]),
                         replays := s.replays + [Finished])
            && Next(end, ReplaySends(k)) == end && Next(end, ReplayStamps(k)) == end
            && Next(end, ReplayBegins(event)) == end.(replays := end.replays + [Checked(event)])
  {
    hide Next, RunFrom;
    DyingReplayIs(s, event);
    var k := |s.replays|;
    var end := RunFrom(s, [ReplayBegins(event), ReplayArms(k)] + [ReplayDies(k)]);
    FinishedReplaysRest(end, k);
    ReplayBeginsIs(end, event);
  }

  lemma StepKeepsStamps(s: State, step: Step, event: nat)
    requires event < |s.dlq| && s.dlq[event].replayed
    ensures event < |Next(s, step).dlq| && Next(s, step).dlq[event].replayed
    ensures Next(s, ReplayBegins(event)) == s
  {
    assert s.tokens + [] == s.tokens;
  }

  /** Once an event is stamped no further replay of it begins, in whatever continuation of the run. */
  lemma {:induction false} StampedEventsAreDone(s: State, event: nat, steps: seq<Step>)
    requires event < |s.dlq| && s.dlq[event].replayed
    ensures var end := RunFrom(s, steps);
            event < |end.dlq| && end.dlq[event].replayed && Next(end, ReplayBegins(event)) == end
    decreases |steps|
  {
    hide Next;
    StepKeepsStamps(s, ReplayBegins(event), event);
    if steps == [] {
    } else {
      StepKeepsStamps(s, steps[0], event);
      StampedEventsAreDone(Next(s, steps[0]), event, steps[1..]);
    }
  }

  class DlqService {
    const store: Store

    constructor (store: Store)
      ensures this.store == store
    {
      this.store := store;
    }

    /** A replay that is refused changes nothing; one that goes through takes the four steps of the
        machine, without a look at the wallet's funds. */
    method ReplayEvent(event: nat, scope: Option<nat>, ghost worker: Worker, ghost replays: seq<Replay>)
      returns (r: ReplayResult)
      requires event < |store.dlq| ==> store.dlq[event].payload.transferId < |store.transfers|
      modifies store`transfers, store`tokens, store`dlq
      ensures r == NotFound <==>
                event >= |old(store.dlq)| || (scope.Some? && scope.value != old(store.dlq)[event].tenant)
      ensures r == Conflict <==> r != NotFound && old(store.dlq)[event].replayed
      ensures r != Replayed ==> store.View(worker, replays) == old(store.View(worker, replays))
      ensures r == Replayed ==>
                var e := old(store.dlq)[event];
                var t := e.payload.transferId;
                && store.transfers == old(store.transfers)[t := old(store.transfers)[t].(status := INITIATED)]
                && store.tokens == old(store.tokens) + [Token(Work, Message(e.payload, e.tenant, 0, e.status))]
                && store.dlq == old(store.dlq)[event := DlqRow(e.payload, e.tenant, e.status, true)]
      ensures r == Replayed ==>
                store.View(worker, replays + [Finished])
                == RunFrom(old(store.View(worker, replays)), ReplaySteps(event, |replays|))
    {
      hide Next;
      if event >= |store.dlq| || !InScope(scope, store.dlq[event].tenant) { return NotFound; }
      if store.dlq[event].replayed { return Conflict; }
      ReplayEffect(store.View(worker, replays), event);
      var e := store.dlq[event];
      var _ := store.UpdateStatus(e.payload.transferId, INITIATED);
      store.Publish(Resent(e));
      store.dlq := store.dlq[event := e.(replayed := true)];
      return Replayed;
    }
  }
}
