/** Where a logged message goes, and that it can always get to the output while the logger is open
    (logutil/logutil.go). */
module LoggerProgress {
  import opened Options
  import opened Machine
  import opened Logger

  /** A Write goes through the channel exactly when it finds the logger open and the channel not full, and otherwise
      straight to the output. */
  lemma WritesGoToTheChannelIff(s: State, m: Message, w: nat)
    ensures Step(s, WriteCheck(m)).Some? <==> s.flusher == Idle
    ensures s.flusher == Idle ==>
              Step(s, WriteCheck(m)).value.writers == s.writers + [if s.closed then Direct(m) else Checked(m)]
    ensures w < |s.writers| && s.writers[w].Checked? ==>
              && Step(s, WriteSend(w)).Some?
              && var s', message := Step(s, WriteSend(w)).value, s.writers[w].message;
              if |s.chan| < 10000 then
                && s'.chan == s.chan + [message] && s'.enqueued == s.enqueued + [message]
                && s'.writers == s.writers[..w] + s.writers[w + 1..]
              else
                s'.chan == s.chan && s'.enqueued == s.enqueued && s'.writers == s.writers[w := Direct(message)]
    ensures w < |s.writers| && s.writers[w].Direct? && s.writeMu == Nobody ==>
              && Step(s, WriteDirect(w)).Some?
              && Step(s, WriteDirect(w)).value.out == s.out + [Output(s.writers[w].message, false)]
  {
    hide WorkerStep, FlusherStep;
  }

  /** The worker moves the oldest message of the channel to its batch, and starts to write the batch exactly when that
      brings it to fifty messages; a smaller one that is not empty it can write at any tick. */
  lemma BatchWrittenIff(s: State)
    ensures s.worker == Selecting && s.chan != [] ==>
              && Step(s, WorkerReceive).Some?
              && var s' := Step(s, WorkerReceive).value;
              && s'.batch == s.batch + [s.chan[0]] && [s.chan[0]] + s'.chan == s.chan
              && s'.worker == if |s'.batch| >= 50 then BatchReady(false) else Selecting
    ensures Step(s, WorkerTick).Some? <==> s.worker == Selecting && s.batch != []
    ensures Step(s, WorkerTick).Some? ==> Step(s, WorkerTick).value.worker == BatchReady(false)
  {
    hide WriterStep, FlusherStep;
  }

  lemma FlushActions(s: State)
    ensures Step(s, FlushEnter).Some? <==> s.flusher == Idle
    ensures s.flusher == Idle ==>
              var s' := Step(s, FlushEnter).value;
              s'.closed && if s.closed then s'.flusher == FlushReady else s'.flusher == Waiting && s'.done
    ensures Step(s, FlushSeesExit).Some? <==> s.flusher == Waiting && s.worker == Exited
    ensures Step(s, FlushTimesOut).Some? <==> s.flusher == Waiting
    ensures Step(s, FlushLocks).Some? <==> s.flusher == FlushReady && s.writeMu == Nobody
    ensures Step(s, FlushUnlocks).Some? <==> s.flusher == FlushDraining && s.chan == []
  {
    hide WriterStep, WorkerStep;
  }

  lemma WritersLeaveFlush(s: State, e: Event)
    requires e.WriteCheck? || e.WriteSend? || e.WriteDirect?
    ensures Step(s, e).Some? ==> Step(s, e).value.flusher == s.flusher
  {
    hide WorkerStep, FlusherStep;
  }

  lemma WorkerLeavesFlush(s: State, e: Event)
    requires e.WorkerReceive? || e.WorkerTick? || e.WorkerSeesDone? || e.WorkerLocks? || e.WorkerWrites?
             || e.WorkerUnlocks? || e.WorkerTakes?
    ensures Step(s, e).Some? ==> Step(s, e).value.flusher == s.flusher
  {
    hide WriterStep, FlusherStep;
  }

  /** What Flush does: the first closes the logger and waits for the worker, any later one goes on to drain the channel;
      and it returns exactly when the worker it waits for has exited or the channel it drains is empty. */
  lemma FlushReturnsIff(s: State, e: Event)
    ensures Step(s, FlushEnter).Some? <==> s.flusher == Idle
    ensures s.flusher == Idle ==>
              var s' := Step(s, FlushEnter).value;
              s'.closed && if s.closed then s'.flusher == FlushReady else s'.flusher == Waiting && s'.done
    ensures Step(s, FlushSeesExit).Some? <==> s.flusher == Waiting && s.worker == Exited
    ensures Step(s, FlushTimesOut).Some? <==> s.flusher == Waiting
    ensures Step(s, FlushLocks).Some? <==> s.flusher == FlushReady && s.writeMu == Nobody
    ensures Step(s, FlushUnlocks).Some? <==> s.flusher == FlushDraining && s.chan == []
    ensures Step(s, e).Some? && s.flusher != Idle ==>
              (Step(s, e).value.flusher == Idle <==> e == FlushSeesExit || e == FlushUnlocks)
  {
    FlushActions(s);
    if e.WriteCheck? || e.WriteSend? || e.WriteDirect? {
      WritersLeaveFlush(s, e);
      hide Step;
    } else if e.WorkerReceive? || e.WorkerTick? || e.WorkerSeesDone? || e.WorkerLocks? || e.WorkerWrites?
              || e.WorkerUnlocks? || e.WorkerTakes? {
      WorkerLeavesFlush(s, e);
      hide Step;
    } else {
      hide WriterStep, WorkerStep;
    }
  }

  /** In every reachable state the channel holds at most ten thousand messages and the batch at most fifty. */
  lemma BuffersAreBounded(s: State)
    requires Reachable(Step, START, s)
    ensures |s.chan| <= 10000 && |s.batch| <= 50
  {
    ReachableInv(s);
    hide Step;
  }

  /** The next action of the worker or of a writer that brings an open logger closer to rest. */
  function NextAction(s: State): Event {
    match s.worker
    case Selecting =>
      if s.chan != [] then WorkerReceive
      else if s.batch != [] then WorkerTick
      else if s.writers != [] then if s.writers[0].Checked? then WriteSend(0) else WriteDirect(0)
      else WorkerReceive
    case BatchReady(_) => WorkerLocks
    case WritingBatch(written, _) => if written < |s.batch| then WorkerWrites else WorkerUnlocks
    case _ => WorkerReceive
  }

  /** Nothing is on its way to the output. */
  ghost predicate AtRest(s: State) {
    s.worker == Selecting && s.chan == [] && s.batch == [] && s.writers == []
  }

  ghost predicate Open(s: State) {
    Inv(s) && !s.closed && s.flusher == Idle
  }

  lemma NextActionEnabled(s: State)
    requires Open(s) && !AtRest(s)
    ensures Step(s, NextAction(s)).Some?
    ensures var s' := Step(s, NextAction(s)).value;
            !s'.closed && s'.flusher == Idle && s'.accepted == s.accepted
  {
    hide ExactlyOnce, Fifo, Broken, Flushed, FlusherStep;
  }

  lemma NextActionShrinks(s: State)
    requires Open(s) && !AtRest(s)
    ensures Step(s, NextAction(s)).Some? && Effort(Step(s, NextAction(s)).value) < Effort(s)
  {
    NextActionEnabled(s);
    var e := NextAction(s);
    if FromWorker(e) {
      hide NextAction, WriterStep, FlusherStep, Effort;
      WorkerEffortShrinks(s, e);
    } else {
      WriterEffortAt(s.writers, e.w, Direct(s.writers[e.w].message));
      hide WriterEffort, WorkerStep, FlusherStep;
    }
  }

  lemma TakeNextAction(s: State) returns (e: Event, t: State)
    requires Open(s) && !AtRest(s)
    ensures Step(s, e) == Some(t) && !e.WriteCheck? && Open(t) && t.accepted == s.accepted
    ensures 0 <= Effort(t) < Effort(s)
  {
    e := NextAction(s);
    assert !e.WriteCheck?;
    NextActionEnabled(s);
    NextActionShrinks(s);
    t := Step(s, e).value;
    StepKeepsInv(s, e);
    hide Step, NextAction, Effort, ExactlyOnce, Fifo, Broken, Flushed;
    EffortIsNatural(t);
  }

  /** While the logger is open nothing gets stuck: from every state the worker and the writers alone can bring every
      accepted message to the output. A partly filled batch does not wait for more messages. */
  lemma {:induction false} EverythingCanBeWritten(s: State) returns (events: seq<Event>, s': State)
    requires Open(s)
    ensures Exec(Step, s, events) == Some(s') && forall k :: 0 <= k < |events| ==> !events[k].WriteCheck?
    ensures AtRest(s') && s'.accepted == s.accepted && multiset(Written(s'.out)) == s.accepted
    decreases Effort(s)
  {
    hide Step, Open, Effort, AtRest, Exec, Written;
    if AtRest(s) {
      events, s' := [], s;
      NothingPending(s);
    } else {
      var e, t := TakeNextAction(s);
      var rest;
      rest, s' := EverythingCanBeWritten(t);
      OneStepMore(s, e, rest);
      events := [e] + rest;
    }
  }

  lemma NothingPending(s: State)
    requires Open(s) && AtRest(s)
    ensures multiset(Written(s.out)) == s.accepted && Exec(Step, s, []) == Some(s)
  {
    hide Shape, Fifo, Broken, Flushed, Step;
    assert Pending(s) == [];
    assert InFlight(s.writers) == multiset{};
  }

  /** The same for every open state of every run. */
  lemma OpenLoggerDelivers(s: State) returns (events: seq<Event>, s': State)
    requires Reachable(Step, START, s) && !s.closed && s.flusher == Idle
    ensures Exec(Step, s, events) == Some(s') && forall k :: 0 <= k < |events| ==> !events[k].WriteCheck?
    ensures s'.chan == [] && s'.batch == [] && s'.writers == [] && s'.accepted == s.accepted
    ensures multiset(Written(s'.out)) == s.accepted
  {
    ReachableInv(s);
    hide Inv, Step;
    events, s' := EverythingCanBeWritten(s);
  }
}
