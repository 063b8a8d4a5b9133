/** A message no handling of which succeeds, in whatever run: interleaved with anything, failing in
    whatever way, its handlers dying before their acks as often as they like. */
module Burial {
  import opened Options
  import opened LedgerDb
  import opened Settlement
  import opened StepFacts

  /** The step neither writes the pair of message i nor loses the message after its ack. */
  predicate Spares(s: State, step: Step, i: nat) {
    && !(step.WritePair? && step.i == i && At(s, i, Handling(Received))
         && PairFits(s.db, s.tokens[i].msg.tenant, s.tokens[i].msg.payload))
    && !(step.HandlerDies? && step.i == i && (At(s, i, Acked) || At(s, i, Failing)))
  }

  ghost predicate NeverSucceeds(s: State, steps: seq<Step>, i: nat) {
    forall n | 0 <= n < |steps| :: Spares(RunFrom(s, steps[..n]), steps[n], i)
  }

  predicate FailsOn(s: State, step: Step, i: nat) {
    At(s, i, Handling(Received))
    && (step == HandlerError(i)
        || (step == WritePair(i) && !PairFits(s.db, s.tokens[i].msg.tenant, s.tokens[i].msg.payload)))
  }

  /** How often the run has failed to handle message i. */
  ghost function FailuresOf(s: State, steps: seq<Step>, i: nat): nat {
    if steps == [] then 0
    else
      var before := steps[..|steps| - 1];
      FailuresOf(s, before, i) + if FailsOn(RunFrom(s, before), steps[|steps| - 1], i) then 1 else 0
  }

  /** The handler of message i sets its transfer, if there is one, FAILED. */
  predicate SetsFailed(s: State, step: Step, i: nat) {
    && step == MarkTransferFailed(i) && At(s, i, Failing)
    && var t := s.tokens[i].msg.payload.transferId;
       t < |s.db.transfers| ==>
         t < |NextDb(s, step).transfers| && NextDb(s, step).transfers[t].status == Status.FAILED
  }

  lemma MarkingSetsFailed(s: State, i: nat)
    requires At(s, i, Failing)
    ensures SetsFailed(s, MarkTransferFailed(i), i)
  {
    MarkTransferFailedIs(s, i);
  }

  /** The transfer of message i has been set FAILED in the run, by the message's own handler. */
  ghost predicate WasSetFailed(s: State, steps: seq<Step>, i: nat) {
    exists n :: 0 <= n < |steps| && SetsFailed(RunFrom(s, steps[..n]), steps[n], i)
  }

  ghost predicate Holds(s: State, tok: Token) {
    exists j :: 0 <= j < |s.tokens| && s.tokens[j] == tok
  }

  /** Where the message stands after this many failures, having set out with `first` retries. */
  ghost predicate OnItsWay(s: State, i: nat, m: Message, failures: nat, setFailed: bool) {
    && i < |s.tokens|
    && var now := s.tokens[i].msg;
       now == m.(retryCount := now.retryCount) && m.retryCount <= now.retryCount <= MAX_RETRIES
       && match s.tokens[i].place
          case Work => failures == now.retryCount - m.retryCount
          case Delay(_) => failures == now.retryCount - m.retryCount
          case Handling(phase) => phase == Received && failures == now.retryCount - m.retryCount
          case Acked => failures == now.retryCount - m.retryCount + 1
          case Failing => now.retryCount == MAX_RETRIES && failures == MAX_RETRIES - m.retryCount + 1
                          && Holds(s, Token(Dead, now))
          case Gone => now.retryCount == MAX_RETRIES && failures == MAX_RETRIES - m.retryCount + 1
                       && Holds(s, Token(Dead, now)) && Holds(s, Token(FailedEvent, FailedMessage(now))) && setFailed
          case _ => false
  }

  lemma RestsStay(s: State, step: Step, tok: Token)
    requires Holds(s, tok) && (tok.place == Dead || tok.place == FailedEvent)
    ensures Holds(Next(s, step), tok)
  {
    var j :| 0 <= j < |s.tokens| && s.tokens[j] == tok;
    assert Next(s, step).tokens[j] == tok;
  }

  /** The step moves another message, or none. */
  lemma OthersPass(s: State, step: Step, i: nat, m: Message, failures: nat, setFailed: bool)
    requires OnItsWay(s, i, m, failures, setFailed) && (Moved(s, step).None? || Moved(s, step).value.0 != i)
    ensures OnItsWay(Next(s, step), i, m, failures, setFailed)
    ensures !FailsOn(s, step, i)
  {
    var now := s.tokens[i].msg;
    assert Next(s, step).tokens[i] == s.tokens[i];
    if s.tokens[i].place == Failing || s.tokens[i].place == Gone { RestsStay(s, step, Token(Dead, now)); }
    if s.tokens[i].place == Gone { RestsStay(s, step, Token(FailedEvent, FailedMessage(now))); }
  }

  lemma LastIsHeld(s: State, step: Step)
    requires Added(s, step).Some?
    ensures Holds(Next(s, step), Added(s, step).value)
  {
    var after := Next(s, step).tokens;
    assert after[|after| - 1] == Added(s, step).value;
  }

  /** The step moves message i itself. */
  lemma ItMoves(s: State, step: Step, i: nat, m: Message, failures: nat, setFailed: bool)
    requires OnItsWay(s, i, m, failures, setFailed) && Spares(s, step, i)
    requires Moved(s, step).Some? && Moved(s, step).value.0 == i
    ensures OnItsWay(Next(s, step), i, m, failures + (if FailsOn(s, step, i) then 1 else 0),
                     setFailed || SetsFailed(s, step, i))
  {
    var now := s.tokens[i].msg;
    assert Next(s, step).tokens[i] == Moved(s, step).value.1;
    if step.Reschedule? && now.retryCount >= MAX_RETRIES { LastIsHeld(s, step); }
    if step.MarkTransferFailed? {
      MarkingSetsFailed(s, i);
      LastIsHeld(s, step);
      RestsStay(s, step, Token(Dead, now));
    }
  }

  lemma SparedBefore(s: State, steps: seq<Step>, i: nat)
    requires NeverSucceeds(s, steps, i) && steps != []
    ensures NeverSucceeds(s, steps[..|steps| - 1], i)
    ensures Spares(RunFrom(s, steps[..|steps| - 1]), steps[|steps| - 1], i)
  {
    hide RunFrom, Spares;
    var before := steps[..|steps| - 1];
    forall n | 0 <= n < |before| ensures Spares(RunFrom(s, before[..n]), before[n], i) {
      assert before[..n] == steps[..n] && before[n] == steps[n];
    }
  }

  lemma SetFailedSnoc(s: State, before: seq<Step>, step: Step, i: nat)
    ensures WasSetFailed(s, before, i) || SetsFailed(RunFrom(s, before), step, i)
            ==> WasSetFailed(s, before + [step], i)
  {
    hide RunFrom, SetsFailed;
    var steps := before + [step];
    if WasSetFailed(s, before, i) {
      var n :| 0 <= n < |before| && SetsFailed(RunFrom(s, before[..n]), before[n], i);
      assert steps[..n] == before[..n] && steps[n] == before[n];
    } else if SetsFailed(RunFrom(s, before), step, i) {
      assert steps[..|before|] == before && steps[|before|] == step;
    }
  }

  lemma {:induction false} StaysOnItsWay(s: State, steps: seq<Step>, i: nat)
    requires At(s, i, Work) && s.tokens[i].msg.retryCount <= MAX_RETRIES && NeverSucceeds(s, steps, i)
    ensures OnItsWay(RunFrom(s, steps), i, s.tokens[i].msg, FailuresOf(s, steps, i), WasSetFailed(s, steps, i))
    decreases |steps|
  {
    hide Next, Moved, Spares, FailsOn, SetsFailed, WasSetFailed;
    var m := s.tokens[i].msg;
    if steps == [] {
      assert RunFrom(s, steps) == s;
    } else {
      hide RunFrom;
      var before, step := steps[..|steps| - 1], steps[|steps| - 1];
      SparedBefore(s, steps, i);
      StaysOnItsWay(s, before, i);
      assert steps == before + [step];
      RunSnoc(s, before, step);
      SetFailedSnoc(s, before, step, i);
      OneMore(RunFrom(s, before), step, i, m, FailuresOf(s, before, i),
              WasSetFailed(s, before, i), WasSetFailed(s, steps, i));
    }
  }

  lemma OneMore(s: State, step: Step, i: nat, m: Message, failures: nat, before: bool, after: bool)
    requires OnItsWay(s, i, m, failures, before) && Spares(s, step, i)
    requires before || SetsFailed(s, step, i) ==> after
    ensures OnItsWay(Next(s, step), i, m, failures + (if FailsOn(s, step, i) then 1 else 0), after)
  {
    hide Next, Moved, Spares, FailsOn, SetsFailed;
    if Moved(s, step).Some? && Moved(s, step).value.0 == i {
      ItMoves(s, step, i, m, failures, before);
    } else {
      OthersPass(s, step, i, m, failures, before);
    }
  }

  /** In any run in which no handling of a message succeeds it fails at most as often as it has
      retries left and once more; when it is done with, it has failed exactly that often, its dead
      letter and the failed event are out, and its transfer has been set FAILED. */
  lemma UnsuccessfulMessagesAreBuried(s: State, steps: seq<Step>, i: nat)
    requires At(s, i, Work) && s.tokens[i].msg.retryCount <= MAX_RETRIES && NeverSucceeds(s, steps, i)
    ensures var m, end := s.tokens[i].msg, RunFrom(s, steps);
            && FailuresOf(s, steps, i) <= 4 - m.retryCount
            && i < |end.tokens|
            && (end.tokens[i].place == Gone ==>
                  && FailuresOf(s, steps, i) == 4 - m.retryCount
                  && Holds(end, Token(Dead, Message(m.payload, m.tenant, 3, m.status)))
                  && Holds(end, Token(FailedEvent, Message(m.payload, m.tenant, 3, Status.FAILED)))
                  && WasSetFailed(s, steps, i))
  {
    hide RunFrom, FailuresOf, WasSetFailed, NeverSucceeds;
    StaysOnItsWay(s, steps, i);
  }
}
