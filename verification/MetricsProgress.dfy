/** That recorded metrics can always get to the registry while the processor runs (metric/fast_metrics.go). */
module MetricsProgress {
  import opened Options
  import opened Machine
  import opened Prometheus
  import opened FastMetrics

  /** The processor is between two rounds of its loop; everything else is as it was. */
  ghost predicate Idle(s: State, s': State) {
    && s'.processor == Selecting && s'.config == s.config && s'.accepted == s.accepted && s'.dropped == s.dropped
    && s'.recorders == s.recorders && s'.cachers == s.cachers && s'.cancelled == s.cancelled
  }

  lemma FirstProcessed(r: Registry, us: seq<Update>)
    requires us != []
    ensures ProcessAll(r, us) == ProcessAll(Process(r, us[0]), us[1..])
  {
    hide Process;
    assert [us[0]][..0] == [] && [us[0]] + us[1..] == us;
    ProcessAllAppend(r, [us[0]], us[1..]);
  }

  lemma FlushOneRun(start: State, before: seq<Event>, s: State) returns (events: seq<Event>, s': State)
    requires Exec(Step, start, before) == Some(s) && s.processor.Flushing? && s.processor.rest != []
    ensures Exec(Step, start, events) == Some(s')
    ensures s' == s.(processor := Flushing(s.processor.rest[1..], s.processor.next),
                     flushed := s.flushed + [s.processor.rest[0]],
                     registry := Process(s.registry, s.processor.rest[0]))
  {
    hide Exec, RecorderStep, CacheStep, Process;
    events, s' := Extend(Step, start, before, s, FlushOne);
  }

  /** A flush applies its updates, all of them in order. */
  lemma {:induction false} FlushRun(start: State, before: seq<Event>, s: State)
    returns (events: seq<Event>, s': State)
    requires Exec(Step, start, before) == Some(s) && s.processor.Flushing?
    ensures Exec(Step, start, events) == Some(s')
    ensures s' == s.(processor := Flushing([], s.processor.next), flushed := s.flushed + s.processor.rest,
                     registry := ProcessAll(s.registry, s.processor.rest))
    decreases |s.processor.rest|
  {
    hide Exec, Step, Process;
    var rest := s.processor.rest;
    if rest == [] {
      events, s' := before, s;
      assert s.flushed + [] == s.flushed;
    } else {
      FirstProcessed(s.registry, rest);
      assert s.flushed + [rest[0]] + rest[1..] == s.flushed + rest;
      hide ProcessAll;
      events, s' := FlushOneRun(start, before, s);
      events, s' := FlushRun(start, events, s');
    }
  }

  /** A tick flushes a partly filled batch. */
  lemma TickRun(start: State, before: seq<Event>, s: State) returns (events: seq<Event>, s': State)
    requires Exec(Step, start, before) == Some(s) && s.processor == Selecting
    ensures Exec(Step, start, events) == Some(s') && Idle(s, s')
    ensures s'.updates == [] && s'.chan == s.chan && s'.flushed == s.flushed + s.updates
  {
    hide Exec, RecorderStep, CacheStep, Process, ProcessAll;
    events, s' := Extend(Step, start, before, s, Tick);
    events, s' := FlushRun(start, events, s');
    events, s' := Extend(Step, start, events, s', FlushEnd);
    var t := s';
    events, s' := SyncRun(start, events, s');
  }

  lemma SyncRun(start: State, before: seq<Event>, s: State) returns (events: seq<Event>, s': State)
    requires Exec(Step, start, before) == Some(s) && s.processor == Syncing
    ensures Exec(Step, start, events) == Some(s') && Idle(s, s')
    ensures s'.updates == s.updates && s'.chan == s.chan && s'.flushed == s.flushed
  {
    hide Exec, RecorderStep, CacheStep, Process;
    events, s' := Extend(Step, start, before, s, LoadHits);
    events, s' := Extend(Step, start, events, s', Sync([]));
    events, s' := Extend(Step, start, events, s', SendOwnEnd);
  }

  /** Taking one update from the channel, and flushing if that fills the batch. */
  lemma ReceiveRun(start: State, before: seq<Event>, s: State) returns (events: seq<Event>, s': State)
    requires Exec(Step, start, before) == Some(s) && s.processor == Selecting && s.chan != []
    ensures Exec(Step, start, events) == Some(s') && Idle(s, s')
    ensures s'.chan == s.chan[1..] && s'.flushed + s'.updates == s.flushed + s.updates + [s.chan[0]]
  {
    hide Exec, RecorderStep, CacheStep, Process, ProcessAll;
    events, s' := Extend(Step, start, before, s, Receive);
    var updates := s.updates + [s.chan[0]];
    assert s.flushed + updates == s.flushed + s.updates + [s.chan[0]];
    if |updates| >= s.config.batchSize {
      events, s' := FlushRun(start, events, s');
      events, s' := Extend(Step, start, events, s', FlushEnd);
      assert s'.flushed + [] == s'.flushed;
    }
  }

  /** While the processor runs nothing gets stuck: from every state in which it is between two rounds it alone can bring
      everything in its batch and in the channel to the registry. */
  lemma {:induction false} EverythingCanBeFlushed(start: State, before: seq<Event>, s: State)
    returns (events: seq<Event>, s': State)
    requires Exec(Step, start, before) == Some(s) && s.processor == Selecting
    ensures Exec(Step, start, events) == Some(s') && Idle(s, s')
    ensures s'.chan == [] && s'.updates == [] && s'.flushed == s.flushed + s.updates + s.chan
    decreases |s.chan|
  {
    hide Step, Exec;
    if s.chan == [] {
      events, s' := TickRun(start, before, s);
      assert s.flushed + s.updates + [] == s.flushed + s.updates;
    } else {
      events, s' := ReceiveRun(start, before, s);
      var t := s';
      events, s' := EverythingCanBeFlushed(start, events, s');
      assert s.chan == [s.chan[0]] + s.chan[1..];
      assert s.flushed + s.updates + s.chan == s.flushed + s.updates + [s.chan[0]] + s.chan[1..];
    }
  }

  /** The processor's batch never reaches the batch size between two rounds: it is flushed as soon as it is full. */
  ghost predicate BatchOk(s: State) {
    s.updates != [] ==> |s.updates| < s.config.batchSize
  }

  lemma BatchStaysSmall(config: Config, s: State)
    requires Reachable(Step, Start(config), s)
    ensures s.updates != [] ==> |s.updates| < config.batchSize
  {
    var inv := (x: State) => BatchOk(x) && x.config == config;
    assert inv(Start(config));
    hide Step;
    forall x, e | inv(x) && Step(x, e).Some?
      ensures inv(Step(x, e).value)
    {
      StepKeepsBatch(x, e);
    }
    assert Preserved(Step, inv);
    InvariantReachable(Step, Start(config), inv, s);
  }

  lemma StepKeepsBatch(s: State, e: Event)
    requires BatchOk(s) && Step(s, e).Some?
    ensures BatchOk(Step(s, e).value) && Step(s, e).value.config == s.config
  {
    hide Process, Words.Wrap;
    if FromProcessor(e) {
      hide RecorderStep, CacheStep;
    } else if FromCacher(e) {
      hide ProcessorStep, RecorderStep;
    } else {
      hide ProcessorStep, CacheStep;
    }
  }
}
