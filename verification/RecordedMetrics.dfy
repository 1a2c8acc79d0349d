/** What reaches the registry (metric/fast_metrics.go): when a send is dropped, and what is counted when none is. */
module RecordedMetrics {
  import opened Options
  import opened Machine
  import opened Prometheus
  import opened FastMetrics

  /** The update a step tries to send, if it is a sending step. */
  function Sending(s: State, e: Event): Option<Update> {
    match e
    case RecordSend(t) =>
      if t !in s.recorders then None
      else if s.recorders[t].SendDomain? then Some(s.recorders[t].domain) else Some(s.recorders[t].query)
    case OtherSend(u) => Some(u)
    case CacheSend(t) => if t in s.cachers then Some(Update(s.cachers[t], 0, 0, [])) else None
    case SendOwn => if s.processor.Sending? && s.processor.todo != [] then Some(s.processor.todo[0]) else None
    case _ => None
  }

  /** The step sends its update if the channel has room, and drops it if not; a step without one does neither. */
  ghost predicate SendsOrDrops(s: State, s': State, sending: Option<Update>) {
    match sending
    case Some(u) =>
      if |s.chan| < s.config.channelSize then
        s'.chan == s.chan + [u] && s'.accepted == s.accepted + [u] && s'.dropped == s.dropped
      else
        s'.chan == s.chan && s'.accepted == s.accepted && s'.dropped == s.dropped + [u]
    case None =>
      s'.accepted == s.accepted && s'.dropped == s.dropped && |s'.chan| <= |s.chan|
  }

  lemma RecorderSends(s: State, e: Event)
    requires RecorderStep(s, e).Some?
    ensures SendsOrDrops(s, RecorderStep(s, e).value, Sending(s, e))
  {
    hide Words.Wrap;
  }

  lemma CacherSends(s: State, e: Event)
    requires CacheStep(s, e).Some?
    ensures SendsOrDrops(s, CacheStep(s, e).value, Sending(s, e))
  {
    hide Words.Wrap;
  }

  lemma ProcessorSends(s: State, e: Event)
    requires FromProcessor(e) && ProcessorStep(s, e).Some?
    ensures SendsOrDrops(s, ProcessorStep(s, e).value, Sending(s, e))
  {
    hide Process;
  }

  /** A step sends exactly when the channel has room: then its update goes to the end of the channel; else, and only
      when the channel is full, it is dropped. Nothing else is accepted or dropped. */
  lemma SentIffRoom(config: Config, s: State, e: Event)
    requires Reachable(Step, Start(config), s) && Step(s, e).Some?
    ensures var s' := Step(s, e).value;
            match Sending(s, e)
            case Some(u) =>
              if |s.chan| < config.channelSize then
                s'.chan == s.chan + [u] && s'.accepted == s.accepted + [u] && s'.dropped == s.dropped
              else
                && |s.chan| == config.channelSize
                && s'.chan == s.chan && s'.accepted == s.accepted && s'.dropped == s.dropped + [u]
            case None =>
              s'.accepted == s.accepted && s'.dropped == s.dropped && |s'.chan| <= |s.chan|
  {
    ReachableInv(config, s);
    assert |s.chan| <= config.channelSize;
    hide Inv, Sending, RecorderStep, CacheStep, ProcessorStep;
    if FromProcessor(e) {
      ProcessorSends(s, e);
    } else if FromCacher(e) {
      CacherSends(s, e);
    } else {
      RecorderSends(s, e);
    }
  }

  /** Recording never waits, whatever the processor does and however full the channel is: a goroutine that records
      nothing yet can start, and one that has started can send. Updates of the other kinds can be sent at any time, and
      the cancellation can come at any time. */
  lemma RecordingNeverWaits(s: State, t: nat, a: string, status: string, domain: string, d: int, kind: Kind, u: Update)
    ensures Step(s, RecordStart(t, a, status, domain, d)).Some? <==> t !in s.recorders
    ensures Step(s, RecordSend(t)).Some? <==> t in s.recorders
    ensures Step(s, CacheStart(t, kind)).Some? <==> t !in s.cachers && (kind == CacheHit || kind == CacheMiss)
    ensures Step(s, CacheSend(t)).Some? <==> t in s.cachers
    ensures Step(s, OtherSend(u)).Some? <==> u.kind != DNSQuery && u.kind != CacheHit && u.kind != CacheMiss
    ensures Step(s, InlineHit).Some? && Step(s, Cancel).Some?
  {
    hide Words.Wrap, ProcessorStep;
  }

  /** What the processor's loop may do next: take an update if there is one, tick at any time, and stop exactly when it
      has been cancelled, flushing its batch before it drains the channel. */
  lemma LoopSelects(s: State)
    requires s.processor == Selecting
    ensures Step(s, Receive).Some? <==> s.chan != []
    ensures Step(s, Tick).Some?
    ensures Step(s, SeeCancel).Some? <==> s.cancelled
    ensures s.cancelled ==>
              Step(s, SeeCancel).value == s.(processor := Flushing(s.updates, ThenDrain(0)), updates := [])
  {
    hide RecorderStep, CacheStep, Process;
  }

  /** The channel has room at every moment of the run. */
  ghost predicate NeverFull(config: Config, events: seq<Event>) {
    forall k :: 0 <= k < |events| ==>
      var r := Exec(Step, Start(config), events[..k]); r.Some? && |r.value.chan| < config.channelSize
  }

  lemma {:induction false} NothingDropped(config: Config, events: seq<Event>)
    requires Exec(Step, Start(config), events).Some? && NeverFull(config, events)
    ensures Exec(Step, Start(config), events).value.dropped == []
  {
    if events != [] {
      var front, e := events[..|events| - 1], events[|events| - 1];
      forall k | 0 <= k < |front|
        ensures var r := Exec(Step, Start(config), front[..k]); r.Some? && |r.value.chan| < config.channelSize
      {
        assert front[..k] == events[..k];
      }
      NothingDropped(config, front);
      var s := Exec(Step, Start(config), front).value;
      assert Reachable(Step, Start(config), s);
      hide Step, Sending;
      SentIffRoom(config, s, e);
    }
  }

  /** The call that starts with this event records something in the series. */
  predicate Records(e: Event, x: Series) {
    || (e.RecordStart? && x == Series(DNSQuery, [e.queryType, e.status]))
    || (e.RecordStart? && e.domain != "" && x == Series(DomainQuery, [e.domain, e.status]))
    || (e.CacheStart? && x == Series(e.kind, []))
    || (e.OtherSend? && |e.update.labels| >= RequiredLabels(e.update.kind)
        && x == Series(e.update.kind, e.update.labels[..RequiredLabels(e.update.kind)]))
  }

  /** How many calls of a run have recorded something in the series. */
  ghost function Recorded(events: seq<Event>, x: Series): nat {
    if events == [] then 0
    else Recorded(events[..|events| - 1], x) + if Records(events[|events| - 1], x) then 1 else 0
  }

  /** A recorder that has yet to send to the series. */
  ghost predicate Owes(r: Recorder, x: Series) {
    Addresses(r.query, x) || (r.SendDomain? && Addresses(r.domain, x))
  }

  ghost function Owing(recorders: map<nat, Recorder>, x: Series): set<nat> {
    set t | t in recorders && Owes(recorders[t], x)
  }

  ghost function OwingCachers(cachers: map<nat, Kind>, x: Series): set<nat> {
    set t | t in cachers && x == Series(cachers[t], [])
  }

  /** What has been sent to the series, successfully or not. */
  ghost function Tried(s: State, x: Series): nat {
    Addressing(s.accepted, x) + Addressing(s.dropped, x)
  }

  /** What is still to be sent to the series. */
  ghost function Owed(s: State, x: Series): nat {
    |Owing(s.recorders, x)| + |OwingCachers(s.cachers, x)|
  }

  lemma OwingMoved(recorders: map<nat, Recorder>, t: nat, r: Recorder, x: Series)
    ensures |Owing(recorders[t := r], x)|
            == |Owing(recorders, x)| - (if t in recorders && Owes(recorders[t], x) then 1 else 0)
               + (if Owes(r, x) then 1 else 0)
  {
    hide Owes;
    assert t in Owing(recorders, x) <==> t in recorders && Owes(recorders[t], x);
    assert Owing(recorders[t := r], x) == if Owes(r, x) then Owing(recorders, x) + {t} else Owing(recorders, x) - {t};
  }

  lemma OwingGone(recorders: map<nat, Recorder>, t: nat, x: Series)
    requires t in recorders
    ensures |Owing(recorders - {t}, x)| == |Owing(recorders, x)| - if Owes(recorders[t], x) then 1 else 0
  {
    hide Owes;
    assert t in Owing(recorders, x) <==> Owes(recorders[t], x);
    assert Owing(recorders - {t}, x) == Owing(recorders, x) - {t};
  }

  lemma CacherAdded(cachers: map<nat, Kind>, t: nat, kind: Kind, x: Series)
    requires t !in cachers
    ensures |OwingCachers(cachers[t := kind], x)|
            == |OwingCachers(cachers, x)| + if x == Series(kind, []) then 1 else 0
  {
    assert OwingCachers(cachers[t := kind], x)
           == if x == Series(kind, []) then OwingCachers(cachers, x) + {t} else OwingCachers(cachers, x);
  }

  lemma CacherGone(cachers: map<nat, Kind>, t: nat, x: Series)
    requires t in cachers
    ensures |OwingCachers(cachers - {t}, x)|
            == |OwingCachers(cachers, x)| - if x == Series(cachers[t], []) then 1 else 0
  {
    assert t in OwingCachers(cachers, x) <==> x == Series(cachers[t], []);
    assert OwingCachers(cachers - {t}, x) == OwingCachers(cachers, x) - {t};
  }

  ghost function One(b: bool): nat {
    if b then 1 else 0
  }

  lemma SentCounts(s: State, s': State, sending: Option<Update>, x: Series)
    requires SendsOrDrops(s, s', sending)
    ensures Tried(s', x) == Tried(s, x) + One(sending.Some? && Addresses(sending.value, x))
  {
    hide Addressing, Addresses;
    if sending.Some? {
      var u := sending.value;
      AddressingOne(u, x);
      AddressingAppend(s.accepted, [u], x);
      AddressingAppend(s.dropped, [u], x);
    }
  }

  ghost predicate CounterSeries(x: Series) {
    IsCounter(x.kind) && |x.labels| == RequiredLabels(x.kind)
  }

  /** What a step does to the recorders. */
  lemma RecorderMoves(s: State, e: Event)
    requires Step(s, e).Some?
    ensures var s' := Step(s, e).value;
            match e
            case RecordStart(t, queryType, status, domain, duration) =>
              && t !in s.recorders && s'.cachers == s.cachers
              && var query := Update(DNSQuery, 0, duration, [queryType, status]);
              && s'.recorders
                 == s.recorders[t := if domain != "" then SendDomain(Update(DomainQuery, 0, 0, [domain, status]), query)
                                     else SendQuery(query)]
            case RecordSend(t) =>
              && t in s.recorders && s'.cachers == s.cachers
              && s'.recorders == if s.recorders[t].SendDomain? then s.recorders[t := SendQuery(s.recorders[t].query)]
                                 else s.recorders - {t}
            case CacheStart(t, kind) =>
              (kind == CacheHit || kind == CacheMiss) && t !in s.cachers && s'.recorders == s.recorders
              && s'.cachers == s.cachers[t := kind]
            case CacheSend(t) =>
              t in s.cachers && s'.recorders == s.recorders && s'.cachers == s.cachers - {t}
            case _ => s'.recorders == s.recorders && s'.cachers == s.cachers
  {
    hide Process, Words.Wrap;
    if FromProcessor(e) {
      hide RecorderStep, CacheStep;
    } else if FromCacher(e) {
      hide ProcessorStep, RecorderStep;
    } else {
      hide ProcessorStep, CacheStep;
    }
  }

  /** The updates of a query name the series it records in. */
  lemma QuerySeries(queryType: string, status: string, domain: string, duration: int, x: Series)
    requires CounterSeries(x)
    ensures var query := Update(DNSQuery, 0, duration, [queryType, status]);
            && (Addresses(query, x) <==> x == Series(DNSQuery, [queryType, status]))
            && (Addresses(Update(DomainQuery, 0, 0, [domain, status]), x)
                <==> x == Series(DomainQuery, [domain, status]))
  {
    assert [queryType, status][..2] == [queryType, status] && [domain, status][..2] == [domain, status];
  }

  lemma CacheSeries(kind: Kind, x: Series)
    requires kind == CacheHit || kind == CacheMiss
    ensures Addresses(Update(kind, 0, 0, []), x) <==> x == Series(kind, [])
  {
  }

  lemma StartOwes(s: State, e: Event, x: Series)
    requires CounterSeries(x) && e.RecordStart? && Step(s, e).Some?
    ensures Owed(Step(s, e).value, x) == Owed(s, x) + One(Records(e, x))
  {
    RecorderMoves(s, e);
    QuerySeries(e.queryType, e.status, e.domain, e.duration, x);
    var s' := Step(s, e).value;
    assert Owes(s'.recorders[e.t], x) <==> Records(e, x);
    hide Step, Addresses, Owes, Owing, OwingCachers, Records, CounterSeries;
    OwingMoved(s.recorders, e.t, s'.recorders[e.t], x);
  }

  /** The update a recorder sends next settles what it owes by it. */
  lemma OwesOneAtATime(r: Recorder, x: Series)
    requires RecorderOk(r)
    ensures r.SendDomain? ==> One(Owes(r, x)) == One(Addresses(r.domain, x)) + One(Owes(SendQuery(r.query), x))
    ensures r.SendQuery? ==> One(Owes(r, x)) == One(Addresses(r.query, x))
  {
  }

  lemma SendSettles(s: State, e: Event, x: Series)
    requires Counted(s) && e.RecordSend? && Step(s, e).Some?
    ensures Sending(s, e).Some?
    ensures Owed(Step(s, e).value, x) + One(Addresses(Sending(s, e).value, x)) == Owed(s, x)
  {
    RecorderMoves(s, e);
    var r := s.recorders[e.t];
    assert RecorderOk(r);
    hide Step, Counted, RecorderOk, Addresses, Owes, Owing, OwingCachers;
    OwesOneAtATime(r, x);
    if r.SendDomain? { OwingMoved(s.recorders, e.t, SendQuery(r.query), x); } else { OwingGone(s.recorders, e.t, x); }
  }

  lemma CacheStartOwes(s: State, e: Event, x: Series)
    requires e.CacheStart? && Step(s, e).Some?
    ensures Owed(Step(s, e).value, x) == Owed(s, x) + One(Records(e, x))
  {
    RecorderMoves(s, e);
    hide Step, Owing, OwingCachers;
    CacherAdded(s.cachers, e.t, e.kind, x);
  }

  lemma CacheSendSettles(s: State, e: Event, x: Series)
    requires Tallied(s) && e.CacheSend? && Step(s, e).Some?
    ensures Sending(s, e).Some?
    ensures Owed(Step(s, e).value, x) + One(Addresses(Sending(s, e).value, x)) == Owed(s, x)
  {
    RecorderMoves(s, e);
    CacheSeries(s.cachers[e.t], x);
    hide Step, Tallied, Addresses, Owing, OwingCachers;
    CacherGone(s.cachers, e.t, x);
  }

  /** The other steps owe nothing; what they send they record, but for the processor's gauges. */
  lemma OthersOweNothing(s: State, e: Event, x: Series)
    requires Counted(s) && CounterSeries(x) && Step(s, e).Some?
    requires !e.RecordStart? && !e.RecordSend? && !e.CacheStart? && !e.CacheSend?
    ensures Owed(Step(s, e).value, x) == Owed(s, x)
    ensures Records(e, x) <==> Sending(s, e).Some? && Addresses(Sending(s, e).value, x)
  {
    RecorderMoves(s, e);
    hide Step, Owing, OwingCachers;
    if e.SendOwn? && Sending(s, e).Some? { assert IsGauge(Sending(s, e).value); }
  }

  lemma NoSending(s: State, e: Event, x: Series)
    ensures e.RecordStart? || e.CacheStart? ==> Sending(s, e) == None
    ensures e.RecordSend? || e.CacheSend? ==> !Records(e, x)
  {
  }

  lemma StepKeepsRecorded(config: Config, s: State, e: Event, x: Series)
    requires Reachable(Step, Start(config), s) && Step(s, e).Some? && CounterSeries(x)
    ensures var s' := Step(s, e).value;
            Tried(s', x) + Owed(s', x) == Tried(s, x) + Owed(s, x) + One(Records(e, x))
  {
    var s' := Step(s, e).value;
    ReachableInv(config, s);
    SentIffRoom(config, s, e);
    assert SendsOrDrops(s, s', Sending(s, e));
    hide Step, Order, Counted, Applied, Bounds, Tallied, CounterSeries, Records, Sending, SendsOrDrops, Addresses;
    hide Tried, Owed;
    SentCounts(s, s', Sending(s, e), x);
    NoSending(s, e, x);
    if e.RecordStart? {
      StartOwes(s, e, x);
    } else if e.RecordSend? {
      SendSettles(s, e, x);
    } else if e.CacheStart? {
      CacheStartOwes(s, e, x);
    } else if e.CacheSend? {
      CacheSendSettles(s, e, x);
    } else {
      OthersOweNothing(s, e, x);
    }
  }

  /** Over every run, what was recorded in a counter series was accepted, dropped, or is still to be sent. */
  lemma {:induction false} NothingUnaccounted(config: Config, events: seq<Event>, x: Series)
    requires CounterSeries(x) && Exec(Step, Start(config), events).Some?
    ensures var s := Exec(Step, Start(config), events).value;
            Recorded(events, x) == Addressing(s.accepted, x) + Addressing(s.dropped, x) + Owed(s, x)
  {
    if events == [] {
      assert Owing(map[], x) == {} && OwingCachers(map[], x) == {};
    } else {
      var front, e := events[..|events| - 1], events[|events| - 1];
      NothingUnaccounted(config, front, x);
      var s := Exec(Step, Start(config), front).value;
      assert Reachable(Step, Start(config), s);
      hide Step, Addressing, Owed, CounterSeries, Records;
      StepKeepsRecorded(config, s, e, x);
    }
  }

  /** When the channel is never full the registry counts everything: once nothing is left to send, pending or in the
      channel, it reads, for each query type and status, and for each domain and status, the number of recorded
      queries with them. */
  lemma EveryQueryReachesTheRegistry(config: Config, events: seq<Event>, a: string, status: string)
    requires Exec(Step, Start(config), events).Some? && NeverFull(config, events)
    requires var s := Exec(Step, Start(config), events).value;
             s.recorders == map[] && s.cachers == map[] && s.chan == [] && Pending(s) == []
    ensures var r := Exec(Step, Start(config), events).value.registry;
            && r.dnsQueries[(a, status)] == Recorded(events, Series(DNSQuery, [a, status]))
            && r.domainQueries[(a, status)] == Recorded(events, Series(DomainQuery, [a, status]))
  {
    var s := Exec(Step, Start(config), events).value;
    var x, y := Series(DNSQuery, [a, status]), Series(DomainQuery, [a, status]);
    NothingDropped(config, events);
    NothingUnaccounted(config, events, x);
    NothingUnaccounted(config, events, y);
    assert Owing(s.recorders, x) == {} && OwingCachers(s.cachers, x) == {};
    assert Owing(s.recorders, y) == {} && OwingCachers(s.cachers, y) == {};
    assert Reachable(Step, Start(config), s);
    NothingLostOrReordered(config, s);
    assert s.flushed + ([] + []) == s.flushed;
    CountersCount(s.flushed, x);
    CountersCount(s.flushed, y);
    hide Step, Exec, Process, ProcessAll, Addressing;
  }

  /** How often a run counts a query, a hit and a miss. */
  ghost function QueriesIn(events: seq<Event>): nat {
    if events == [] then 0 else QueriesIn(events[..|events| - 1]) + One(events[|events| - 1].RecordStart?)
  }

  ghost function HitsIn(events: seq<Event>): nat {
    if events == [] then 0
    else
      var e := events[|events| - 1];
      HitsIn(events[..|events| - 1]) + One(e.InlineHit? || (e.CacheStart? && e.kind == CacheHit))
  }

  ghost function MissesIn(events: seq<Event>): nat {
    if events == [] then 0
    else
      var e := events[|events| - 1];
      MissesIn(events[..|events| - 1]) + One(e.CacheStart? && e.kind == CacheMiss)
  }

  ghost function SyncsIn(events: seq<Event>): nat {
    if events == [] then 0 else SyncsIn(events[..|events| - 1]) + One(events[|events| - 1].Sync?)
  }

  lemma CountersMove(s: State, e: Event)
    requires Step(s, e).Some?
    ensures var s' := Step(s, e).value;
            && s'.dnsQueriesCount == (if e.RecordStart? then Words.Wrap(s.dnsQueriesCount + 1) else s.dnsQueriesCount)
            && s'.hits == s.hits + One(e.InlineHit? || (e.CacheStart? && e.kind == CacheHit))
            && s'.misses == s.misses + One(e.CacheStart? && e.kind == CacheMiss)
            && s'.ticks == if !e.Sync? then s.ticks else if s.ticks + 1 >= 10 then 0 else s.ticks + 1
  {
    hide Process, Words.Wrap;
    if FromProcessor(e) {
      hide RecorderStep, CacheStep;
    } else if FromCacher(e) {
      hide ProcessorStep, RecorderStep;
    } else {
      hide ProcessorStep, CacheStep;
    }
  }

  /** What a step has to do with the totals of a run. */
  ghost predicate Totals(s: State, queries: nat, hits: nat, misses: nat, syncs: nat) {
    && s.dnsQueriesCount == queries % Words.WORD && s.hits == hits && s.misses == misses && s.ticks == syncs % 10
  }

  lemma TotalsMove(s: State, e: Event, queries: nat, hits: nat, misses: nat, syncs: nat)
    requires Step(s, e).Some? && Totals(s, queries, hits, misses, syncs)
    ensures Totals(Step(s, e).value, queries + One(e.RecordStart?),
                   hits + One(e.InlineHit? || (e.CacheStart? && e.kind == CacheHit)),
                   misses + One(e.CacheStart? && e.kind == CacheMiss), syncs + One(e.Sync?))
  {
    CountersMove(s, e);
    Words.WrapSuccessor(queries);
    hide Step;
  }

  lemma {:induction false} TotalsOfRun(config: Config, events: seq<Event>)
    requires Exec(Step, Start(config), events).Some?
    ensures Totals(Exec(Step, Start(config), events).value,
                   QueriesIn(events), HitsIn(events), MissesIn(events), SyncsIn(events))
  {
    hide Step;
    if events != [] {
      hide Totals, One;
      var front, e := events[..|events| - 1], events[|events| - 1];
      TotalsOfRun(config, front);
      TotalsMove(Exec(Step, Start(config), front).value, e,
                 QueriesIn(front), HitsIn(front), MissesIn(front), SyncsIn(front));
    }
  }

  /** Over every run the atomic counters are the numbers of recorded queries, hits and misses, modulo the 64-bit word,
      however many of the updates were dropped. */
  lemma AtomicsCountCalls(config: Config, events: seq<Event>)
    requires Exec(Step, Start(config), events).Some?
    ensures var s := Exec(Step, Start(config), events).value;
            && s.dnsQueriesCount == QueriesIn(events) % 0x1_0000_0000_0000_0000
            && s.cacheHitsCount == HitsIn(events) % 0x1_0000_0000_0000_0000 && s.hits == HitsIn(events)
            && s.cacheMissesCount == MissesIn(events) % 0x1_0000_0000_0000_0000 && s.misses == MissesIn(events)
  {
    var s := Exec(Step, Start(config), events).value;
    TotalsOfRun(config, events);
    assert Reachable(Step, Start(config), s);
    hide Step, Exec, QueriesIn, HitsIn, MissesIn;
    CacheCountersCountTicks(config, s);
  }

  lemma SyncSends(s: State, gauges: seq<Update>)
    requires Step(s, Sync(gauges)).Some?
    ensures Step(s, Sync(gauges)).value.processor == FastMetrics.Sending(if s.ticks + 1 >= 10 then gauges else [])
  {
    hide Process, RecorderStep, CacheStep;
  }

  /** The processor sends the gauges it has read at every tenth tick and at no other. */
  lemma GaugesEveryTenthTick(config: Config, events: seq<Event>, gauges: seq<Update>)
    requires Exec(Step, Start(config), events + [Sync(gauges)]).Some?
    ensures Exec(Step, Start(config), events + [Sync(gauges)]).value.processor
            == FastMetrics.Sending(if (SyncsIn(events) + 1) % 10 == 0 then gauges else [])
  {
    hide Step;
    assert (events + [Sync(gauges)])[..|events|] == events;
    TotalsOfRun(config, events);
    SyncSends(Exec(Step, Start(config), events).value, gauges);
  }
}
