/** Runs put together from parts, and what each step does to a state that enables it. */
module StepFacts {
  import opened Options
  import opened LedgerDb
  import opened Settlement

  lemma {:induction false} RunAppend(s: State, a: seq<Step>, b: seq<Step>)
    ensures RunFrom(s, a + b) == RunFrom(RunFrom(s, a), b)
    decreases |a|
  {
    hide Next;
    if a == [] {
      assert a + b == b;
    } else {
      assert (a + b)[1..] == a[1..] + b;
      RunAppend(Next(s, a[0]), a[1..], b);
    }
  }

  lemma {:induction false} ExecIsRunFromInit(steps: seq<Step>)
    ensures Exec(steps) == RunFrom(INIT, steps)
  {
    hide Next;
    if steps == [] {
    } else {
      var n := |steps| - 1;
      ExecIsRunFromInit(steps[..n]);
      assert steps == steps[..n] + [steps[n]];
      RunAppend(INIT, steps[..n], [steps[n]]);
      assert RunFrom(Exec(steps[..n]), [steps[n]]) == RunFrom(Exec(steps), []);
    }
  }

  lemma RunOne(s: State, a: Step)
    ensures RunFrom(s, [a]) == Next(s, a)
  {
    hide Next;
    assert [a][1..] == [] && RunFrom(Next(s, a), []) == Next(s, a);
  }

  lemma RunCons(s: State, a: Step, rest: seq<Step>)
    ensures RunFrom(s, [a] + rest) == RunFrom(Next(s, a), rest)
  {
    hide Next;
    assert ([a] + rest)[0] == a && ([a] + rest)[1..] == rest;
  }

  lemma RunSnoc(s: State, steps: seq<Step>, step: Step)
    ensures RunFrom(s, steps + [step]) == Next(RunFrom(s, steps), step)
  {
    hide Next;
    RunAppend(s, steps, [step]);
    RunOne(RunFrom(s, steps), step);
  }

  lemma RunTwo(s: State, a: Step, b: Step)
    ensures RunFrom(s, [a, b]) == Next(Next(s, a), b)
  {
    hide Next;
    assert [a, b] == [a] + [b];
    RunCons(s, a, [b]);
    RunOne(Next(s, a), b);
  }

  lemma RunThree(s: State, a: Step, b: Step, c: Step)
    ensures RunFrom(s, [a, b, c]) == Next(Next(Next(s, a), b), c)
  {
    hide Next;
    assert [a, b, c] == [a] + [b, c];
    RunCons(s, a, [b, c]);
    RunTwo(Next(s, a), b, c);
  }

  // ---- Single steps -----------------------------------------------------------------------

  /** A step that leaves the journal alone, or the successful write of a pair. */
  lemma JournalChange(s: State, step: Step)
    requires !(step.Api? && step.db.TopUp?)
    ensures NextDb(s, step).journal
            == if WritesPair(s, step)
               then AppendPair(s.db, s.tokens[step.i].msg.tenant, s.tokens[step.i].msg.payload).journal
               else s.db.journal
  {
  }

  /** A step that does nothing but turn token i into tok. */
  lemma OnlyMoves(s: State, step: Step, i: nat, tok: Token)
    requires i < |s.tokens| && Moved(s, step) == Some((i, tok)) && Added(s, step) == None
    requires DbEffect(s, step) == None && NextWorker(s, step) == s.worker
    requires NextDlq(s, step) == s.dlq && NextReplays(s, step) == s.replays
    ensures Next(s, step) == s.(tokens := s.tokens[i := tok])
  {
    assert s.tokens[i := tok] + [] == s.tokens[i := tok];
  }

  lemma DeliverIs(s: State, i: nat)
    requires At(s, i, Work)
    ensures Next(s, Deliver(i)) == s.(tokens := s.tokens[i := Token(Handling(Received), s.tokens[i].msg)])
  {
    OnlyMoves(s, Deliver(i), i, Token(Handling(Received), s.tokens[i].msg));
  }

  lemma ExpireIs(s: State, i: nat)
    requires i < |s.tokens| && s.tokens[i].place.Delay?
    ensures Next(s, Expire(i)) == s.(tokens := s.tokens[i := Token(Work, s.tokens[i].msg)])
  {
    OnlyMoves(s, Expire(i), i, Token(Work, s.tokens[i].msg));
  }

  lemma RescheduleIs(s: State, i: nat)
    requires At(s, i, Acked)
    ensures var m := s.tokens[i].msg;
            Next(s, Reschedule(i))
            == s.(tokens := if m.retryCount < MAX_RETRIES then s.tokens[i := Retried(m)]
                            else s.tokens[i := Token(Failing, m)] + [Token(Dead, m)])
  {
    var m := s.tokens[i].msg;
    if m.retryCount < MAX_RETRIES { OnlyMoves(s, Reschedule(i), i, Retried(m)); }
  }

  lemma MarkTransferFailedIs(s: State, i: nat)
    requires At(s, i, Failing)
    ensures var m := s.tokens[i].msg;
            Next(s, MarkTransferFailed(i))
            == s.(db := SetStatus(s.db, m.payload.transferId, Status.FAILED),
                  tokens := s.tokens[i := Token(Gone, m)] + [Token(FailedEvent, FailedMessage(m))])
  {
  }

  lemma WritePairIs(s: State, i: nat)
    requires At(s, i, Handling(Received)) && PairFits(s.db, s.tokens[i].msg.tenant, s.tokens[i].msg.payload)
    ensures var m := s.tokens[i].msg;
            Next(s, WritePair(i))
            == s.(db := AppendPair(s.db, m.tenant, m.payload),
                  tokens := s.tokens[i := Token(Handling(PairWritten), m)])
  {
    var m := s.tokens[i].msg;
    assert s.tokens[i := Token(Handling(PairWritten), m)] + [] == s.tokens[i := Token(Handling(PairWritten), m)];
  }

  lemma StampIs(s: State, i: nat)
    requires At(s, i, Handling(PairWritten))
    ensures var m := s.tokens[i].msg;
            Next(s, Stamp(i))
            == s.(db := SetStatus(s.db, m.payload.transferId, COMPLETED),
                  tokens := s.tokens[i := Token(Handling(Stamped), m)])
  {
    var m := s.tokens[i].msg;
    assert s.tokens[i := Token(Handling(Stamped), m)] + [] == s.tokens[i := Token(Handling(Stamped), m)];
  }

  lemma FinishIs(s: State, i: nat)
    requires At(s, i, Handling(Stamped))
    ensures var m := s.tokens[i].msg;
            Next(s, Finish(i))
            == s.(tokens := s.tokens[i := Token(Gone, m)] + [Token(CompletedQueue, CompletedMessage(m))])
  {
  }

  lemma ReplayBeginsIs(s: State, event: nat)
    requires event < |s.dlq| && !s.dlq[event].replayed
    ensures Next(s, ReplayBegins(event)) == s.(replays := s.replays + [Checked(event)])
  {
    assert s.tokens + [] == s.tokens;
  }

  lemma ReplayArmsIs(s: State, k: nat)
    requires k < |s.replays| && s.replays[k].Checked? && s.replays[k].event < |s.dlq|
    ensures var e := s.replays[k].event;
            Next(s, ReplayArms(k))
            == s.(db := SetStatus(s.db, s.dlq[e].payload.transferId, INITIATED),
                  replays := s.replays[k := Armed(e)])
  {
    assert s.tokens + [] == s.tokens;
  }

  lemma ReplaySendsIs(s: State, k: nat)
    requires k < |s.replays| && s.replays[k].Armed? && s.replays[k].event < |s.dlq|
    ensures var e := s.replays[k].event;
            Next(s, ReplaySends(k))
            == s.(tokens := s.tokens + [Resent(s.dlq[e])],
                  replays := s.replays[k := Injected(e)])
  {
  }

  // ---- Single steps of the worker and of replay -------------------------------------------

  lemma PublishIs(s: State, r: nat, rest: seq<nat>)
    requires s.worker == Busy([r] + rest, Unsent) && r < |s.db.outbox|
    ensures var p := s.db.outbox[r].payload;
            Next(s, Publish)
            == s.(worker := Busy([r] + rest, Sent), tokens := s.tokens + [Fresh(p, p.order.tenant)])
  {
  }

  /** Steps that change nothing but the worker. */
  lemma WorkerOnly(s: State, step: Step)
    requires step.FlushBegins? || step.PublishThrows? || step.MarkPublishedThrows? || step.FlushAborts? || step.FlushEnds?
    ensures Next(s, step) == s.(worker := NextWorker(s, step))
  {
    assert s.tokens + [] == s.tokens;
  }

  lemma MarkHeadPublishedIs(s: State, r: nat, rest: seq<nat>)
    requires s.worker == Busy([r] + rest, Sent)
    ensures Next(s, MarkHeadPublished) == s.(db := Apply(s.db, MarkPublished(r)), worker := Busy(rest, Unsent))
  {
    assert s.tokens + [] == s.tokens && ([r] + rest)[1..] == rest;
  }

  lemma MarkHeadFailedIs(s: State, r: nat, rest: seq<nat>, sent: bool)
    requires s.worker == Busy([r] + rest, Erring(sent))
    ensures Next(s, MarkHeadFailed) == s.(db := Apply(s.db, MarkFailed(r)), worker := Busy(rest, Unsent))
  {
    assert s.tokens + [] == s.tokens && ([r] + rest)[1..] == rest;
  }

  lemma ReplayStampsIs(s: State, k: nat)
    requires k < |s.replays| && s.replays[k].Injected? && s.replays[k].event < |s.dlq|
    ensures var e := s.replays[k].event;
            Next(s, ReplayStamps(k))
            == s.(dlq := s.dlq[e := s.dlq[e].(replayed := true)], replays := s.replays[k := Finished])
  {
    assert s.tokens + [] == s.tokens;
  }
}
