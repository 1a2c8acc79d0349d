/** The batched metrics recorder (metric/fast_metrics.go): any number of recording goroutines, one batch processor,
    and its bounded drain at shutdown. */
module FastMetrics {
  import opened Options
  import opened Machine
  import opened Prometheus
  import opened Words

  const DEVICE_UPDATE_INTERVAL := 10

  datatype Config = Config(batchSize: int, channelSize: nat, maxDrainUpdates: int, drainBatchSize: int)

  /** Where the processor continues after a flush. */
  datatype Next = Resume | ThenSync | ThenDrain(pulled: nat) | ThenClose

  datatype Processor =
    | Selecting
    | Flushing(rest: seq<Update>, next: Next)
    | Syncing
    | SyncingMisses(hits: bool)
    | Sending(todo: seq<Update>)
    | Draining(pending: seq<Update>, pulled: nat)
    | Closed

  /** A running FastRecordDNSQueryWithDeviceIPAndDomain that has counted its query. */
  datatype Recorder = SendDomain(domain: Update, query: Update) | SendQuery(query: Update)

  /** `recorders` are the running DNS query recorders, `cachers` the running FastRecordCacheHit and
      FastRecordCacheMiss that have counted theirs. History: `accepted` are the successful channel sends in order,
      `dropped` the failed ones, `flushed` the channel updates processed, `hitTicks` and `missTicks` the ticks that
      found the atomic hit or miss counter positive, `hits`, `misses` and `inlineHits` how often each counter was
      raised, and how often without a send. */
  datatype State = State(
    config: Config,
    chan: seq<Update>,
    updates: seq<Update>,
    processor: Processor,
    ticks: nat,
    cancelled: bool,
    registry: Registry,
    dnsQueriesCount: nat,
    cacheHitsCount: nat,
    cacheMissesCount: nat,
    recorders: map<nat, Recorder>,
    cachers: map<nat, Kind>,
    accepted: seq<Update>,
    dropped: seq<Update>,
    flushed: seq<Update>,
    hitTicks: nat,
    missTicks: nat,
    hits: nat,
    misses: nat,
    inlineHits: nat)

  datatype Event =
    | RecordStart(t: nat, queryType: string, status: string, domain: string, duration: int)
    | RecordSend(t: nat)
    | OtherSend(update: Update)
    | InlineHit
    | CacheStart(t: nat, kind: Kind)
    | CacheSend(t: nat)
    | Cancel
    | SeeCancel
    | Receive
    | Tick
    | FlushOne
    | FlushEnd
    | LoadHits
    | Sync(gauges: seq<Update>)
    | SendOwn
    | SendOwnEnd
    | DrainPull
    | DrainStop(timeUp: bool)

  function Start(config: Config): State {
    State(config, [], [], Selecting, 0, false, NO_METRICS, 0, 0, 0, map[], map[], [], [], [], 0, 0, 0, 0, 0)
  }

  /** A select with a default case: the send succeeds exactly when the channel has room. */
  function TrySend(s: State, u: Update): State {
    if |s.chan| < s.config.channelSize then s.(chan := s.chan + [u], accepted := s.accepted + [u])
    else s.(dropped := s.dropped + [u])
  }

  function QueryUpdate(queryType: string, status: string, duration: int): Update {
    Update(DNSQuery, 0, duration, [queryType, status])
  }

  function DomainUpdate(domain: string, status: string): Update {
    Update(DomainQuery, 0, 0, [domain, status])
  }

  function CacheUpdate(kind: Kind): Update {
    Update(kind, 0, 0, [])
  }

  predicate IsGauge(u: Update) {
    u.kind == DeviceIPDNSQuery || u.kind == DomainHit
  }

  function RecorderStep(s: State, e: Event): Option<State> {
    match e
    case RecordStart(t, queryType, status, domain, duration) =>
      if t !in s.recorders then
        var query := QueryUpdate(queryType, status, duration);
        Some(s.(dnsQueriesCount := Wrap(s.dnsQueriesCount + 1),
                recorders := s.recorders[t := if domain != "" then SendDomain(DomainUpdate(domain, status), query)
                                              else SendQuery(query)]))
      else None
    case RecordSend(t) =>
      if t in s.recorders then
        match s.recorders[t]
        case SendDomain(domain, query) =>
          Some(TrySend(s, domain).(recorders := s.recorders[t := SendQuery(query)]))
        case SendQuery(query) =>
          Some(TrySend(s, query).(recorders := s.recorders - {t}))
      else None
    case OtherSend(u) =>
      if u.kind != DNSQuery && !IsCache(u.kind) then Some(TrySend(s, u)) else None
    case Cancel => Some(s.(cancelled := true))
    case _ => None
  }

  predicate IsCache(kind: Kind) {
    kind == CacheHit || kind == CacheMiss
  }

  /** InlineCacheHit only counts; FastRecordCacheHit and FastRecordCacheMiss count and then try to send an update. */
  function CacheStep(s: State, e: Event): Option<State> {
    match e
    case InlineHit =>
      Some(s.(cacheHitsCount := Wrap(s.cacheHitsCount + 1), hits := s.hits + 1, inlineHits := s.inlineHits + 1))
    case CacheStart(t, kind) =>
      if t in s.cachers then None
      else if kind == CacheHit then
        Some(s.(cacheHitsCount := Wrap(s.cacheHitsCount + 1), hits := s.hits + 1, cachers := s.cachers[t := kind]))
      else if kind == CacheMiss then
        Some(s.(cacheMissesCount := Wrap(s.cacheMissesCount + 1), misses := s.misses + 1,
                cachers := s.cachers[t := kind]))
      else None
    case CacheSend(t) =>
      if t in s.cachers then Some(TrySend(s, CacheUpdate(s.cachers[t])).(cachers := s.cachers - {t})) else None
    case _ => None
  }

  function ProcessorStep(s: State, e: Event): Option<State> {
    match e
    case SeeCancel =>
      if s.processor == Selecting && s.cancelled then
        Some(s.(processor := Flushing(s.updates, ThenDrain(0)), updates := []))
      else None
    case Receive =>
      if s.processor == Selecting && s.chan != [] then
        var updates := s.updates + [s.chan[0]];
        if |updates| >= s.config.batchSize then
          Some(s.(chan := s.chan[1..], updates := [], processor := Flushing(updates, Resume)))
        else
          Some(s.(chan := s.chan[1..], updates := updates))
      else None
    case Tick =>
      if s.processor == Selecting then Some(s.(processor := Flushing(s.updates, ThenSync), updates := [])) else None
    case FlushOne =>
      if s.processor.Flushing? && s.processor.rest != [] then
        var u := s.processor.rest[0];
        Some(s.(registry := Process(s.registry, u), flushed := s.flushed + [u],
                processor := Flushing(s.processor.rest[1..], s.processor.next)))
      else None
    case FlushEnd =>
      if s.processor.Flushing? && s.processor.rest == [] then
        Some(s.(processor :=
                  match s.processor.next
                  case Resume => Selecting
                  case ThenSync => Syncing
                  case ThenDrain(pulled) => Draining([], pulled)
                  case ThenClose => Closed))
      else None
    case LoadHits =>
      if s.processor == Syncing then Some(s.(processor := SyncingMisses(s.cacheHitsCount > 0))) else None
    case Sync(gauges) =>
      if s.processor.SyncingMisses? && forall i :: 0 <= i < |gauges| ==> IsGauge(gauges[i]) then
        var hits, misses := s.processor.hits, s.cacheMissesCount > 0;
        var r := if hits then Process(s.registry, CacheUpdate(CacheHit)) else s.registry;
        Some(s.(registry := if misses then Process(r, CacheUpdate(CacheMiss)) else r,
                hitTicks := s.hitTicks + (if hits then 1 else 0),
                missTicks := s.missTicks + (if misses then 1 else 0),
                ticks := if s.ticks + 1 >= DEVICE_UPDATE_INTERVAL then 0 else s.ticks + 1,
                processor := Sending(if s.ticks + 1 >= DEVICE_UPDATE_INTERVAL then gauges else [])))
      else None
    case SendOwn =>
      if s.processor.Sending? && s.processor.todo != [] then
        Some(TrySend(s, s.processor.todo[0]).(processor := Sending(s.processor.todo[1..])))
      else None
    case SendOwnEnd =>
      if s.processor.Sending? && s.processor.todo == [] then Some(s.(processor := Selecting)) else None
    case DrainPull =>
      if s.processor.Draining? && s.processor.pulled < s.config.maxDrainUpdates && s.chan != [] then
        var pending, pulled := s.processor.pending + [s.chan[0]], s.processor.pulled + 1;
        Some(s.(chan := s.chan[1..],
                processor := if |pending| >= s.config.drainBatchSize then Flushing(pending, ThenDrain(pulled))
                             else Draining(pending, pulled)))
      else None
    case DrainStop(timeUp) =>
      if s.processor.Draining? && (timeUp || s.chan == [] || s.processor.pulled >= s.config.maxDrainUpdates) then
        Some(s.(processor := Flushing(s.processor.pending, ThenClose)))
      else None
    case _ => None
  }

  predicate FromCacher(e: Event) {
    e.InlineHit? || e.CacheStart? || e.CacheSend?
  }

  ghost predicate FromProcessor(e: Event) {
    !(e.RecordStart? || e.RecordSend? || e.OtherSend? || e.Cancel?) && !FromCacher(e)
  }

  function Step(s: State, e: Event): Option<State> {
    match e
    case RecordStart(_, _, _, _, _) => RecorderStep(s, e)
    case RecordSend(_) => RecorderStep(s, e)
    case OtherSend(_) => RecorderStep(s, e)
    case Cancel => RecorderStep(s, e)
    case InlineHit => CacheStep(s, e)
    case CacheStart(_, _) => CacheStep(s, e)
    case CacheSend(_) => CacheStep(s, e)
    case _ => ProcessorStep(s, e)
  }

  /** What the processor has taken from the channel and not yet processed. */
  ghost function Pending(s: State): seq<Update> {
    match s.processor
    case Flushing(rest, _) => rest
    case Draining(pending, _) => pending
    case _ => s.updates
  }

  /** Nothing accepted is lost, duplicated or reordered. */
  ghost predicate Order(s: State) {
    && s.flushed + (Pending(s) + s.chan) == s.accepted
    && (s.processor != Selecting ==> s.updates == [])
  }

  ghost predicate RecorderOk(r: Recorder) {
    IsQuery(r.query) && (r.SendDomain? ==> r.domain.kind == DomainQuery)
  }

  ghost predicate WellLabelled(us: seq<Update>) {
    forall i :: 0 <= i < |us| && us[i].kind == DNSQuery ==> |us[i].labels| >= 2
  }

  /** Every counted query is accepted, dropped, or still in its recorder's hands. */
  ghost predicate Counted(s: State) {
    && (forall t :: t in s.recorders ==> RecorderOk(s.recorders[t]))
    && (s.processor.Sending? ==> forall i :: 0 <= i < |s.processor.todo| ==> IsGauge(s.processor.todo[i]))
    && WellLabelled(s.accepted)
    && s.dnsQueriesCount == Wrap(Queries(s.accepted) + Queries(s.dropped) + |s.recorders|)
  }

  /** The registry with so many more cache hits and misses. */
  ghost function Plus(r: Registry, hits: nat, misses: nat): Registry {
    r.(cacheHits := r.cacheHits + hits, cacheMisses := r.cacheMisses + misses)
  }

  /** The registry is what processing the flushed updates one by one gives, with one hit and one miss more for every
      tick that found hits or misses counted. */
  ghost predicate Applied(s: State) {
    s.registry == Plus(ProcessAll(NO_METRICS, s.flushed), s.hitTicks, s.missTicks)
  }

  ghost function Limit(config: Config): int {
    if config.maxDrainUpdates < 0 then 0 else config.maxDrainUpdates
  }

  ghost predicate Bounds(s: State) {
    && |s.chan| <= s.config.channelSize
    && (s.processor.Draining? ==> s.processor.pulled <= Limit(s.config))
    && (s.processor.Flushing? && s.processor.next.ThenDrain? ==> s.processor.next.pulled <= Limit(s.config))
    && (ShuttingDown(s) ==> s.cancelled)
  }

  ghost predicate ShuttingDown(s: State) {
    || s.processor.Draining? || s.processor == Closed
    || (s.processor.Flushing? && (s.processor.next.ThenDrain? || s.processor.next.ThenClose?))
  }

  function HitSeries(): Series {
    Series(CacheHit, [])
  }

  function MissSeries(): Series {
    Series(CacheMiss, [])
  }

  /** The running recorders of cache hits, or of misses. */
  ghost function Cachers(cachers: map<nat, Kind>, kind: Kind): set<nat> {
    set t | t in cachers && cachers[t] == kind
  }

  /** Every counted hit and miss was counted inline, or its update is accepted, dropped, or still to be sent. */
  ghost predicate Tallied(s: State) {
    && (forall t :: t in s.cachers ==> IsCache(s.cachers[t]))
    && s.cacheHitsCount == Wrap(s.hits) && s.cacheMissesCount == Wrap(s.misses)
    && s.hits == s.inlineHits + |Cachers(s.cachers, CacheHit)|
                 + Addressing(s.accepted, HitSeries()) + Addressing(s.dropped, HitSeries())
    && s.misses == |Cachers(s.cachers, CacheMiss)|
                   + Addressing(s.accepted, MissSeries()) + Addressing(s.dropped, MissSeries())
  }

  ghost predicate Inv(s: State) {
    Order(s) && Counted(s) && Applied(s) && Bounds(s) && Tallied(s)
  }

  lemma Regroup(f: seq<Update>, p: seq<Update>, u: Update, c: seq<Update>)
    ensures f + ((p + [u]) + c) == f + (p + ([u] + c))
    ensures (f + [u]) + (p + c) == f + (([u] + p) + c)
    ensures f + (p + (c + [u])) == f + (p + c) + [u]
  {
  }

  lemma TrySendKeepsOrder(s: State, u: Update)
    requires Order(s)
    ensures Order(TrySend(s, u))
  {
    Regroup(s.flushed, Pending(s), u, s.chan);
  }

  lemma RecorderKeepsOrder(s: State, e: Event)
    requires Order(s) && RecorderStep(s, e).Some?
    ensures Order(RecorderStep(s, e).value)
  {
    hide Wrap, TrySend;
    match e
    case RecordSend(t) =>
      var u := if s.recorders[t].SendDomain? then s.recorders[t].domain else s.recorders[t].query;
      TrySendKeepsOrder(s, u);
    case OtherSend(u) => TrySendKeepsOrder(s, u);
    case _ =>
  }

  lemma ProcessorKeepsOrder(s: State, e: Event)
    requires Order(s) && ProcessorStep(s, e).Some?
    ensures Order(ProcessorStep(s, e).value)
  {
    hide Process;
    match e
    case Receive =>
      assert s.chan == [s.chan[0]] + s.chan[1..];
      Regroup(s.flushed, s.updates, s.chan[0], s.chan[1..]);
    case DrainPull =>
      assert s.chan == [s.chan[0]] + s.chan[1..];
      Regroup(s.flushed, s.processor.pending, s.chan[0], s.chan[1..]);
    case FlushOne =>
      assert s.processor.rest == [s.processor.rest[0]] + s.processor.rest[1..];
      Regroup(s.flushed, s.processor.rest[1..], s.processor.rest[0], s.chan);
    case SendOwn =>
      TrySendKeepsOrder(s, s.processor.todo[0]);
    case _ =>
  }

  lemma TrySendCounts(s: State, u: Update)
    requires u.kind == DNSQuery ==> |u.labels| >= 2
    requires WellLabelled(s.accepted)
    ensures var s' := TrySend(s, u);
            && WellLabelled(s'.accepted)
            && Queries(s'.accepted) + Queries(s'.dropped)
               == Queries(s.accepted) + Queries(s.dropped) + if u.kind == DNSQuery then 1 else 0
  {
    hide Queries;
    QueriesOne(u);
    QueriesAppend(s.accepted, [u]);
    QueriesAppend(s.dropped, [u]);
  }

  lemma StartKeepsCounted(s: State, e: Event)
    requires Counted(s) && e.RecordStart? && RecorderStep(s, e).Some?
    ensures Counted(RecorderStep(s, e).value)
  {
    hide Queries, Wrap;
    WrapSuccessor(Queries(s.accepted) + Queries(s.dropped) + |s.recorders|);
    assert |RecorderStep(s, e).value.recorders| == |s.recorders| + 1;
  }

  lemma SendDomainKeepsCounted(s: State, t: nat)
    requires Counted(s) && t in s.recorders && s.recorders[t].SendDomain?
    ensures Counted(RecorderStep(s, RecordSend(t)).value)
  {
    hide Queries, TrySend, Wrap;
    var s' := RecorderStep(s, RecordSend(t)).value;
    var u := s.recorders[t].domain;
    assert RecorderOk(s.recorders[t]);
    TrySendCounts(s, u);
    TrySendFrame(s, u);
    assert s'.recorders.Keys == s.recorders.Keys;
    assert |s'.recorders.Keys| == |s.recorders.Keys|;
  }

  lemma SendQueryKeepsCounted(s: State, t: nat)
    requires Counted(s) && t in s.recorders && s.recorders[t].SendQuery?
    ensures Counted(RecorderStep(s, RecordSend(t)).value)
  {
    hide Queries, TrySend, Wrap;
    var s' := RecorderStep(s, RecordSend(t)).value;
    var u := s.recorders[t].query;
    assert RecorderOk(s.recorders[t]);
    TrySendCounts(s, u);
    TrySendFrame(s, u);
    assert s'.recorders.Keys == s.recorders.Keys - {t};
    assert |s'.recorders.Keys| == |s.recorders.Keys| - 1;
  }

  lemma OtherSendKeepsCounted(s: State, u: Update)
    requires Counted(s) && RecorderStep(s, OtherSend(u)).Some?
    ensures Counted(RecorderStep(s, OtherSend(u)).value)
  {
    hide Queries, TrySend, Wrap;
    TrySendCounts(s, u);
    TrySendFrame(s, u);
  }

  lemma RecorderKeepsCounted(s: State, e: Event)
    requires Counted(s) && RecorderStep(s, e).Some?
    ensures Counted(RecorderStep(s, e).value)
  {
    hide Queries, TrySend, Wrap;
    match e
    case RecordStart(_, _, _, _, _) =>
      hide Counted, RecorderStep;
      StartKeepsCounted(s, e);
    case RecordSend(t) =>
      hide Counted;
      if s.recorders[t].SendDomain? { SendDomainKeepsCounted(s, t); } else { SendQueryKeepsCounted(s, t); }
    case OtherSend(u) =>
      hide Counted, RecorderStep;
      OtherSendKeepsCounted(s, u);
    case _ =>
  }

  lemma CacherKeepsOrder(s: State, e: Event)
    requires Order(s) && CacheStep(s, e).Some?
    ensures Order(CacheStep(s, e).value)
  {
    hide Wrap, TrySend;
    if e.CacheSend? { TrySendKeepsOrder(s, CacheUpdate(s.cachers[e.t])); }
  }

  lemma CacherKeepsCounted(s: State, e: Event)
    requires Counted(s) && (forall t :: t in s.cachers ==> IsCache(s.cachers[t])) && CacheStep(s, e).Some?
    ensures Counted(CacheStep(s, e).value)
  {
    hide Queries, TrySend, Wrap;
    if e.CacheSend? {
      TrySendCounts(s, CacheUpdate(s.cachers[e.t]));
      TrySendFrame(s, CacheUpdate(s.cachers[e.t]));
    }
  }

  lemma TrySendFrame(s: State, u: Update)
    ensures TrySend(s, u) == s.(chan := TrySend(s, u).chan, accepted := TrySend(s, u).accepted,
                                dropped := TrySend(s, u).dropped)
    ensures |s.chan| <= s.config.channelSize ==> |TrySend(s, u).chan| <= s.config.channelSize
  {
  }

  lemma ProcessorKeepsCounted(s: State, e: Event)
    requires Counted(s) && ProcessorStep(s, e).Some?
    ensures Counted(ProcessorStep(s, e).value)
  {
    hide Queries, TrySend, Wrap, Process;
    if e.SendOwn? {
      assert IsGauge(s.processor.todo[0]);
      TrySendCounts(s, s.processor.todo[0]);
      TrySendFrame(s, s.processor.todo[0]);
    }
  }

  lemma ProcessPlus(r: Registry, u: Update, hits: nat, misses: nat)
    ensures Process(Plus(r, hits, misses), u) == Plus(Process(r, u), hits, misses)
  {
    if u.kind.DNSQuery? || u.kind.UpstreamQuery? {
      ProcessTimedPlus(r, u, hits, misses);
    } else if IsCounter(u.kind) {
      ProcessCounterPlus(r, u, hits, misses);
    } else {
      if RequiredLabels(u.kind) == 1 { ProcessLabelledPlus(r, u, hits, misses); }
    }
    hide Process, Plus;
  }

  lemma ProcessTimedPlus(r: Registry, u: Update, hits: nat, misses: nat)
    requires u.kind.DNSQuery? || u.kind.UpstreamQuery?
    ensures Process(Plus(r, hits, misses), u) == Plus(Process(r, u), hits, misses)
  {
  }

  lemma ProcessCounterPlus(r: Registry, u: Update, hits: nat, misses: nat)
    requires u.kind.Error? || u.kind.DomainQuery? || u.kind.CacheHit? || u.kind.CacheMiss?
    ensures Process(Plus(r, hits, misses), u) == Plus(Process(r, u), hits, misses)
  {
  }

  lemma ProcessLabelledPlus(r: Registry, u: Update, hits: nat, misses: nat)
    requires u.kind.UpstreamServerReachable? || u.kind.DeviceIPDNSQuery? || u.kind.DomainHit?
    ensures Process(Plus(r, hits, misses), u) == Plus(Process(r, u), hits, misses)
  {
    if |u.labels| >= 1 {
      var name, value := u.labels[0], u.value;
      match u.kind
      case UpstreamServerReachable => assert Process(r, u) == r.(reachable := r.reachable[name := value]);
      case DeviceIPDNSQuery => assert Process(r, u) == r.(deviceQueries := r.deviceQueries[name := value]);
      case DomainHit => assert Process(r, u) == r.(domainHits := r.domainHits[name := value]);
    }
  }

  lemma SyncPlus(r: Registry, hits: nat, misses: nat)
    ensures Process(Plus(r, hits, misses), CacheUpdate(CacheHit)) == Plus(r, hits + 1, misses)
    ensures Process(Plus(r, hits, misses), CacheUpdate(CacheMiss)) == Plus(r, hits, misses + 1)
  {
  }

  lemma StepKeepsApplied(s: State, e: Event)
    requires Applied(s) && Step(s, e).Some?
    ensures Applied(Step(s, e).value)
  {
    hide TrySend, Process, Wrap, Plus;
    var s' := Step(s, e).value;
    if e.FlushOne? {
      var u := s.processor.rest[0];
      assert s'.flushed[..|s.flushed|] == s.flushed;
      ProcessPlus(ProcessAll(NO_METRICS, s.flushed), u, s.hitTicks, s.missTicks);
    } else if e.Sync? {
      var r := ProcessAll(NO_METRICS, s.flushed);
      SyncPlus(r, s.hitTicks, s.missTicks);
      SyncPlus(r, s.hitTicks + 1, s.missTicks);
    } else {
      RegistryFrame(s, e);
    }
  }

  lemma RegistryFrame(s: State, e: Event)
    requires Step(s, e).Some? && !e.FlushOne? && !e.Sync?
    ensures var s' := Step(s, e).value;
            && s'.flushed == s.flushed && s'.registry == s.registry
            && s'.hitTicks == s.hitTicks && s'.missTicks == s.missTicks
  {
    if FromProcessor(e) {
      hide Process, Wrap, RecorderStep, CacheStep;
    } else {
      SendersOnlySend(s, e);
      hide Step;
    }
  }

  /** The recorders leave the processor and the registry alone, and only add to the channel. */
  ghost predicate OnlySent(s: State, s': State) {
    && s'.processor == s.processor && s'.config == s.config && s'.registry == s.registry && s'.flushed == s.flushed
    && s'.hitTicks == s.hitTicks && s'.missTicks == s.missTicks && s.chan <= s'.chan
    && (s.cancelled ==> s'.cancelled)
    && (|s.chan| <= s.config.channelSize ==> |s'.chan| <= s.config.channelSize)
  }

  lemma RecordersOnlySend(s: State, e: Event)
    requires RecorderStep(s, e).Some?
    ensures OnlySent(s, RecorderStep(s, e).value)
  {
    hide Wrap;
  }

  lemma CachersOnlySend(s: State, e: Event)
    requires CacheStep(s, e).Some?
    ensures OnlySent(s, CacheStep(s, e).value)
  {
    hide Wrap;
  }

  lemma SendersOnlySend(s: State, e: Event)
    requires Step(s, e).Some? && !FromProcessor(e)
    ensures OnlySent(s, Step(s, e).value)
  {
    hide RecorderStep, CacheStep, ProcessorStep;
    if FromCacher(e) { CachersOnlySend(s, e); } else { RecordersOnlySend(s, e); }
  }

  lemma ProcessorKeepsBounds(s: State, e: Event)
    requires Bounds(s) && ProcessorStep(s, e).Some?
    ensures Bounds(ProcessorStep(s, e).value)
  {
    hide Process;
  }

  lemma StepKeepsBounds(s: State, e: Event)
    requires Bounds(s) && Step(s, e).Some?
    ensures Bounds(Step(s, e).value)
  {
    hide ProcessorStep, RecorderStep, CacheStep;
    if FromProcessor(e) {
      ProcessorKeepsBounds(s, e);
    } else {
      SendersOnlySend(s, e);
      hide Step;
    }
  }

  lemma StepKeepsInv(s: State, e: Event)
    requires Inv(s) && Step(s, e).Some?
    ensures Inv(Step(s, e).value) && Step(s, e).value.config == s.config
  {
    hide RecorderStep, ProcessorStep, CacheStep, Order, Counted, Applied, Bounds;
    StepKeepsBounds(s, e);
    StepKeepsApplied(s, e);
    ConfigFrame(s, e);
    if FromProcessor(e) {
      ProcessorKeepsOrder(s, e);
      ProcessorKeepsCounted(s, e);
      ProcessorKeepsTallied(s, e);
    } else if FromCacher(e) {
      CacherKeepsOrder(s, e);
      CacherKeepsCounted(s, e);
      CacherKeepsTallied(s, e);
    } else {
      RecorderKeepsOrder(s, e);
      RecorderKeepsCounted(s, e);
      RecorderKeepsTallied(s, e);
    }
  }

  lemma TrySendAddresses(s: State, u: Update, x: Series)
    ensures var s' := TrySend(s, u);
            Addressing(s'.accepted, x) + Addressing(s'.dropped, x)
            == Addressing(s.accepted, x) + Addressing(s.dropped, x) + if Addresses(u, x) then 1 else 0
  {
    hide Addressing, Addresses;
    AddressingOne(u, x);
    AddressingAppend(s.accepted, [u], x);
    AddressingAppend(s.dropped, [u], x);
  }

  lemma AddressesCache(u: Update)
    ensures Addresses(u, HitSeries()) <==> u.kind == CacheHit
    ensures Addresses(u, MissSeries()) <==> u.kind == CacheMiss
  {
  }

  /** Sending an update that is no hit or miss changes no tally. */
  lemma OtherSendTallied(s: State, s': State, u: Update)
    requires Tallied(s) && !IsCache(u.kind)
    requires s'.accepted == TrySend(s, u).accepted && s'.dropped == TrySend(s, u).dropped
    requires && s'.cachers == s.cachers && s'.hits == s.hits && s'.misses == s.misses && s'.inlineHits == s.inlineHits
             && s'.cacheHitsCount == s.cacheHitsCount && s'.cacheMissesCount == s.cacheMissesCount
    ensures Tallied(s')
  {
    hide Addressing, Addresses, TrySend, Cachers, Wrap;
    AddressesCache(u);
    TrySendAddresses(s, u, HitSeries());
    TrySendAddresses(s, u, MissSeries());
  }

  lemma RecorderKeepsTallied(s: State, e: Event)
    requires Tallied(s) && Counted(s) && RecorderStep(s, e).Some?
    ensures Tallied(RecorderStep(s, e).value)
  {
    hide Addressing, Cachers, Wrap, TrySend, Queries;
    match e
    case RecordSend(t) =>
      assert RecorderOk(s.recorders[t]);
      var u := if s.recorders[t].SendDomain? then s.recorders[t].domain else s.recorders[t].query;
      TrySendFrame(s, u);
      OtherSendTallied(s, RecorderStep(s, e).value, u);
    case OtherSend(u) =>
      TrySendFrame(s, u);
      OtherSendTallied(s, RecorderStep(s, e).value, u);
    case _ =>
  }

  lemma ProcessorKeepsTallied(s: State, e: Event)
    requires Tallied(s) && Counted(s) && ProcessorStep(s, e).Some?
    ensures Tallied(ProcessorStep(s, e).value)
  {
    hide Addressing, Cachers, Wrap, TrySend, Queries, Process;
    if e.SendOwn? {
      var u := s.processor.todo[0];
      assert IsGauge(u);
      TrySendFrame(s, u);
      OtherSendTallied(s, ProcessorStep(s, e).value, u);
    }
  }

  lemma CacherAdded(cachers: map<nat, Kind>, t: nat, kind: Kind, k: Kind)
    requires t !in cachers
    ensures |Cachers(cachers[t := kind], k)| == |Cachers(cachers, k)| + if k == kind then 1 else 0
  {
    assert Cachers(cachers[t := kind], k) == if k == kind then Cachers(cachers, k) + {t} else Cachers(cachers, k);
  }

  lemma CacherGone(cachers: map<nat, Kind>, t: nat, k: Kind)
    requires t in cachers
    ensures |Cachers(cachers - {t}, k)| == |Cachers(cachers, k)| - if k == cachers[t] then 1 else 0
  {
    assert Cachers(cachers - {t}, k) == Cachers(cachers, k) - {t};
    assert t in Cachers(cachers, k) <==> k == cachers[t];
  }

  lemma CacherKeepsTallied(s: State, e: Event)
    requires Tallied(s) && CacheStep(s, e).Some?
    ensures Tallied(CacheStep(s, e).value)
  {
    hide Addressing, Addresses, Cachers, Wrap, TrySend;
    match e
    case InlineHit =>
      WrapSuccessor(s.hits);
    case CacheStart(t, kind) =>
      WrapSuccessor(s.hits);
      WrapSuccessor(s.misses);
      CacherAdded(s.cachers, t, kind, CacheHit);
      CacherAdded(s.cachers, t, kind, CacheMiss);
    case CacheSend(t) =>
      var u := CacheUpdate(s.cachers[t]);
      CacherGone(s.cachers, t, CacheHit);
      CacherGone(s.cachers, t, CacheMiss);
      TrySendFrame(s, u);
      AddressesCache(u);
      TrySendAddresses(s, u, HitSeries());
      TrySendAddresses(s, u, MissSeries());
    case _ =>
  }

  lemma ConfigFrame(s: State, e: Event)
    requires Step(s, e).Some?
    ensures Step(s, e).value.config == s.config
  {
    if FromProcessor(e) {
      hide Process, RecorderStep, CacheStep;
    } else {
      SendersOnlySend(s, e);
      hide Step;
    }
  }

  lemma ReachableInv(config: Config, s: State)
    requires Reachable(Step, Start(config), s)
    ensures Inv(s) && s.config == config
  {
    assert Inv(Start(config));
    hide Inv, Step;
    var inv := (x: State) => Inv(x) && x.config == config;
    forall x, e | inv(x) && Step(x, e).Some? ensures inv(Step(x, e).value) { StepKeepsInv(x, e); }
    assert Preserved(Step, inv);
    InvariantReachable(Step, Start(config), inv, s);
  }

  /** In every reachable state the flushed updates, the processor's pending ones and the channel, in this order, are
      the accepted sends in order; and the registry is what processing the flushed ones one at a time gives, plus the
      hits and misses of the ticks. */
  lemma NothingLostOrReordered(config: Config, s: State)
    requires Reachable(Step, Start(config), s)
    ensures s.flushed + (Pending(s) + s.chan) == s.accepted
    ensures s.registry == Plus(ProcessAll(NO_METRICS, s.flushed), s.hitTicks, s.missTicks)
  {
    ReachableInv(config, s);
  }

  /** What the two cache counters of the registry count: the flushed hit and miss updates, and one more for every tick
      that found the atomic counter positive. The atomic counters count every hit and miss. */
  lemma CacheCountersCountTicks(config: Config, s: State)
    requires Reachable(Step, Start(config), s)
    ensures s.registry.cacheHits == Addressing(s.flushed, HitSeries()) + s.hitTicks
    ensures s.registry.cacheMisses == Addressing(s.flushed, MissSeries()) + s.missTicks
    ensures s.cacheHitsCount == Wrap(s.hits) && s.cacheMissesCount == Wrap(s.misses)
  {
    ReachableInv(config, s);
    hide Step, Addressing, Process, ProcessAll;
    CountersCount(s.flushed, HitSeries());
    CountersCount(s.flushed, MissSeries());
  }

  lemma AcceptedAddressing(s: State, x: Series)
    requires Order(s)
    ensures Addressing(s.accepted, x)
            == Addressing(s.flushed, x) + Addressing(Pending(s), x) + Addressing(s.chan, x)
  {
    hide Addressing, Addresses, Pending;
    AddressingAppend(s.flushed, Pending(s) + s.chan, x);
    AddressingAppend(Pending(s), s.chan, x);
  }

  /** When the registry's totals are right: between recording calls, its hit counter equals the number of hits exactly
      when the ticks that found hits are as many as the hits without a flushed update (counted inline, dropped, pending
      or in the channel); and its miss counter likewise. */
  lemma CacheTotalsIff(config: Config, s: State)
    requires Reachable(Step, Start(config), s) && s.cachers == map[]
    ensures s.registry.cacheHits == s.hits <==>
            s.hitTicks == s.inlineHits + Addressing(s.dropped, HitSeries())
                          + Addressing(Pending(s), HitSeries()) + Addressing(s.chan, HitSeries())
    ensures s.registry.cacheMisses == s.misses <==>
            s.missTicks == Addressing(s.dropped, MissSeries())
                           + Addressing(Pending(s), MissSeries()) + Addressing(s.chan, MissSeries())
    ensures s.hits < WORD && s.misses < WORD ==> s.cacheHitsCount == s.hits && s.cacheMissesCount == s.misses
  {
    hide Addressing, Addresses, Pending, Order, Counted, Applied, Bounds, Step;
    ReachableInv(config, s);
    CacheCountersCountTicks(config, s);
    AcceptedAddressing(s, HitSeries());
    AcceptedAddressing(s, MissSeries());
    assert Cachers(s.cachers, CacheHit) == {} && Cachers(s.cachers, CacheMiss) == {};
  }

  /** A tick with nothing to flush, after hits and misses. */
  lemma IdleTick(start: State, before: seq<Event>, s: State) returns (events: seq<Event>, s': State)
    requires Exec(Step, start, before) == Some(s) && s.processor == Selecting && s.updates == []
    requires s.cacheHitsCount > 0 && s.cacheMissesCount > 0
    ensures Exec(Step, start, events) == Some(s')
    ensures s' == s.(registry := s'.registry, ticks := s'.ticks, hitTicks := s.hitTicks + 1,
                     missTicks := s.missTicks + 1)
    ensures s'.registry.cacheHits == s.registry.cacheHits + 1
    ensures s'.registry.cacheMisses == s.registry.cacheMisses + 1
  {
    hide Exec, RecorderStep, CacheStep, Process;
    events, s' := Extend(Step, start, before, s, Tick);
    events, s' := Extend(Step, start, events, s', FlushEnd);
    events, s' := Extend(Step, start, events, s', LoadHits);
    assert s' == s.(processor := SyncingMisses(true));
    SyncAdds(s');
    hide ProcessorStep;
    events, s' := Extend(Step, start, events, s', Sync([]));
    SendingEnds(s');
    events, s' := Extend(Step, start, events, s', SendOwnEnd);
    assert s.(processor := Selecting) == s;
  }

  lemma SyncAdds(s: State)
    requires s.processor == SyncingMisses(true) && s.cacheMissesCount > 0
    ensures Step(s, Sync([])).Some?
    ensures var s' := Step(s, Sync([])).value;
            && s' == s.(processor := Sending([]), registry := s'.registry, ticks := s'.ticks,
                        hitTicks := s.hitTicks + 1, missTicks := s.missTicks + 1)
            && s'.registry.cacheHits == s.registry.cacheHits + 1
            && s'.registry.cacheMisses == s.registry.cacheMisses + 1
  {
    hide RecorderStep, CacheStep;
  }

  lemma SendingEnds(s: State)
    requires s.processor == Sending([])
    ensures Step(s, SendOwnEnd) == Some(s.(processor := Selecting))
  {
    hide RecorderStep, CacheStep, Process;
  }

  /** The first miss, recorded undisturbed. */
  lemma FirstMiss(start: State, before: seq<Event>, s: State) returns (events: seq<Event>, s': State)
    requires Exec(Step, start, before) == Some(s) && s.cachers == map[] && s.cacheMissesCount == 0
    ensures Exec(Step, start, events) == Some(s') && OnlySent(s, s') && s'.updates == s.updates
    ensures s'.cachers == map[] && s'.cacheMissesCount == 1 && s'.cacheHitsCount == s.cacheHitsCount
  {
    WrapSuccessor(0);
    hide Exec, ProcessorStep, RecorderStep, TrySend, Wrap;
    events, s' := Extend(Step, start, before, s, CacheStart(0, CacheMiss));
    CachersOnlySend(s, CacheStart(0, CacheMiss));
    TrySendFrame(s', CacheUpdate(CacheMiss));
    CachersOnlySend(s', CacheSend(0));
    events, s' := Extend(Step, start, events, s', CacheSend(0));
    assert s'.cachers == map[];
  }

  /** A run in which the totals are wrong, whatever the configuration: one hit, one miss and two ticks give a registry
      that says two of each. */
  lemma CacheTotalsFail(config: Config) returns (events: seq<Event>, s: State)
    ensures Exec(Step, Start(config), events) == Some(s) && s.cachers == map[]
    ensures s.cacheHitsCount == 1 && s.cacheMissesCount == 1
    ensures s.registry.cacheHits == 2 && s.registry.cacheMisses == 2
  {
    var start := Start(config);
    WrapSuccessor(0);
    assert Exec(Step, start, []) == Some(start);
    assert Step(start, InlineHit) == Some(start.(cacheHitsCount := 1, hits := 1, inlineHits := 1));
    hide Step, Exec;
    events, s := Extend(Step, start, [], start, InlineHit);
    events, s := FirstMiss(start, events, s);
    events, s := IdleTick(Start(config), events, s);
    events, s := IdleTick(Start(config), events, s);
  }

  /** Between recording calls every counted query is in the registry, pending, in the channel, or was dropped. */
  lemma QueriesConserved(config: Config, s: State)
    requires Reachable(Step, Start(config), s) && s.recorders == map[]
    ensures s.dnsQueriesCount ==
            Wrap(|s.registry.dnsQueries| + Queries(Pending(s)) + Queries(s.chan) + Queries(s.dropped))
  {
    hide Queries, Pending, Order, Counted, Applied, Bounds, Wrap, Step;
    ReachableInv(config, s);
    RegistryQueries(s);
    AcceptedQueries(s);
    QuiescentCount(s);
  }

  lemma QuiescentCount(s: State)
    requires Counted(s) && s.recorders == map[]
    ensures s.dnsQueriesCount == Wrap(Queries(s.accepted) + Queries(s.dropped))
  {
    hide Queries;
  }

  lemma RegistryQueries(s: State)
    requires Order(s) && Counted(s) && Applied(s)
    ensures |s.registry.dnsQueries| == Queries(s.flushed)
  {
    FlushedWellLabelled(s);
    SameQueries(s);
    QueriesCounted(s.flushed);
    hide Process, ProcessAll, Queries;
  }

  lemma AcceptedQueries(s: State)
    requires Order(s)
    ensures Queries(s.accepted) == Queries(s.flushed) + Queries(Pending(s)) + Queries(s.chan)
  {
    hide Queries, Pending;
    QueriesAppend(s.flushed, Pending(s) + s.chan);
    QueriesAppend(Pending(s), s.chan);
  }

  lemma FlushedWellLabelled(s: State)
    requires Order(s) && Counted(s)
    ensures WellLabelled(s.flushed)
  {
    forall i | 0 <= i < |s.flushed| ensures s.flushed[i] == s.accepted[i] {}
  }

  lemma SameQueries(s: State)
    requires Applied(s)
    ensures s.registry.dnsQueries == ProcessAll(NO_METRICS, s.flushed).dnsQueries
  {
    hide Process, ProcessAll;
  }

  /** The processor's own sends never wait for room, and it always has a next action. */
  lemma ProcessorNeverBlocks(config: Config, s: State)
    requires Reachable(Step, Start(config), s) && s.processor != Closed
    ensures s.processor.Sending? ==> Step(s, if s.processor.todo == [] then SendOwnEnd else SendOwn).Some?
    ensures exists e :: FromProcessor(e) && Step(s, e).Some?
  {
    hide Process;
    var e := match s.processor
      case Selecting => Tick
      case Flushing(rest, _) => if rest == [] then FlushEnd else FlushOne
      case Syncing => LoadHits
      case SyncingMisses(_) => Sync([])
      case Sending(todo) => if todo == [] then SendOwnEnd else SendOwn
      case Draining(_, _) => DrainStop(true)
      case Closed => Tick;
    assert FromProcessor(e) && Step(s, e).Some?;
  }

  /** When done is closed, everything the processor pulled has been flushed; what it left stays in the channel. */
  lemma ClosedHasFlushed(config: Config, s: State)
    requires Reachable(Step, Start(config), s) && s.processor == Closed
    ensures s.cancelled && Pending(s) == [] && s.flushed + s.chan == s.accepted
  {
    hide Counted, Applied, Step;
    ReachableInv(config, s);
    assert [] + s.chan == s.chan;
  }

  /** Before its deadline the drain goes on as long as the channel holds an update and it has pulled fewer than the
      maximum, and pulls the oldest one; then, and only then, it stops. */
  lemma DrainGoesOnIff(s: State)
    requires s.processor.Draining?
    ensures Step(s, DrainPull).Some? <==> s.chan != [] && s.processor.pulled < s.config.maxDrainUpdates
    ensures Step(s, DrainStop(false)).Some? <==> !Step(s, DrainPull).Some?
    ensures Step(s, DrainPull).Some? ==>
              var s' := Step(s, DrainPull).value;
              && [s.chan[0]] + s'.chan == s.chan && Pending(s') == Pending(s) + [s.chan[0]]
              && (s'.processor.Flushing? <==> |Pending(s')| >= s.config.drainBatchSize)
  {
    hide RecorderStep, CacheStep, Process;
  }

  /** Processor actions left until done closes, once it has seen the cancellation. */
  ghost function DrainEffort(s: State): int {
    match s.processor
    case Draining(pending, pulled) => 4 * (Limit(s.config) - pulled) + 2 * |pending| + 3
    case Flushing(rest, ThenDrain(pulled)) => 4 * (Limit(s.config) - pulled) + 2 * |rest| + 4
    case Flushing(rest, ThenClose) => 2 * |rest| + 1
    case _ => 0
  }

  /** Updates the drain may still pull. */
  ghost function PullsLeft(s: State): int {
    match s.processor
    case Draining(_, pulled) => Limit(s.config) - pulled
    case Flushing(_, ThenDrain(pulled)) => Limit(s.config) - pulled
    case _ => 0
  }

  /** One step of a shutdown: each processor action brings done closer, no other action delays it, and each pull uses
      up one of the maxDrainUpdates. */
  lemma ShutdownProgresses(s: State, e: Event)
    requires Bounds(s) && ShuttingDown(s) && Step(s, e).Some?
    ensures var s' := Step(s, e).value;
            && Bounds(s') && ShuttingDown(s') && s'.config == s.config
            && 0 <= DrainEffort(s') <= DrainEffort(s) && 0 <= PullsLeft(s') <= PullsLeft(s)
            && (FromProcessor(e) ==> DrainEffort(s') < DrainEffort(s))
            && (e == DrainPull ==> PullsLeft(s') < PullsLeft(s))
            && (e != DrainPull ==> s.chan <= s'.chan)
            && (s'.processor != Closed ==> DrainEffort(s') > 0)
  {
    StepKeepsBounds(s, e);
    if FromProcessor(e) {
      hide Process, RecorderStep, CacheStep;
    } else {
      SendersOnlySend(s, e);
      hide Step;
    }
  }

  /** The processor's actions in a run. */
  ghost function Actions(events: seq<Event>): nat {
    if events == [] then 0
    else Actions(events[..|events| - 1]) + if FromProcessor(events[|events| - 1]) then 1 else 0
  }

  /** The updates the drain pulls in a run. */
  ghost function Pulls(events: seq<Event>): nat {
    if events == [] then 0 else Pulls(events[..|events| - 1]) + if events[|events| - 1] == DrainPull then 1 else 0
  }

  lemma {:induction false} ShutdownRun(s: State, events: seq<Event>)
    requires Bounds(s) && ShuttingDown(s) && Exec(Step, s, events).Some?
    ensures var s' := Exec(Step, s, events).value;
            && Bounds(s') && ShuttingDown(s') && s'.config == s.config
            && Actions(events) + DrainEffort(s') <= DrainEffort(s) && 0 <= DrainEffort(s')
            && Pulls(events) + PullsLeft(s') <= PullsLeft(s) && 0 <= PullsLeft(s')
            && (s'.processor != Closed ==> DrainEffort(s') > 0)
  {
    if events == [] {
      hide Step;
    } else {
      var front, e := events[..|events| - 1], events[|events| - 1];
      ShutdownRun(s, front);
      ShutdownProgresses(Exec(Step, s, front).value, e);
      hide Step, Bounds, ShuttingDown, DrainEffort, PullsLeft;
    }
  }

  /** Shutdown is bounded over whole runs, whatever the recorders do meanwhile: from the moment the processor sees the
      cancellation it pulls at most maxDrainUpdates more, and done is closed at the latest with its action number
      4 * maxDrainUpdates + 2 * |updates| + 4. */
  lemma ShutdownIsBounded(config: Config, s: State, events: seq<Event>)
    requires Reachable(Step, Start(config), s) && Step(s, SeeCancel).Some?
    requires Exec(Step, Step(s, SeeCancel).value, events).Some?
    ensures Pulls(events) <= Limit(config)
    ensures Actions(events) <= 4 * Limit(config) + 2 * |s.updates| + 4
    ensures Actions(events) == 4 * Limit(config) + 2 * |s.updates| + 4 ==>
              Exec(Step, Step(s, SeeCancel).value, events).value.processor == Closed
  {
    ReachableInv(config, s);
    var t := Step(s, SeeCancel).value;
    StepKeepsBounds(s, SeeCancel);
    ShutdownRun(t, events);
    assert ShuttingDown(t) && DrainEffort(t) == 4 * Limit(config) + 2 * |s.updates| + 4;
    hide Exec, Step, Actions, Pulls;
  }
}
