/** Metric updates and their effect on the Prometheus registry (metric/optimized_common.go, processMetricUpdate). */
module Prometheus {

  datatype Kind =
    | DNSQuery | CacheHit | CacheMiss | Error | UpstreamQuery | CacheSize
    | UpstreamServerReachable | UpstreamServersTotal | DeviceIPDNSQuery | DomainQuery | DomainHit

  /** A queued update. Durations are in nanoseconds; gauge values are whole numbers. */
  datatype Update = Update(kind: Kind, value: int, duration: int, labels: seq<string>)

  type Pair = (string, string)

  /** A counter vector is the multiset of its increments' labels; a histogram, of its observations. */
  datatype Registry = Registry(
    dnsQueries: multiset<Pair>,
    dnsDurations: multiset<(Pair, int)>,
    cacheHits: nat,
    cacheMisses: nat,
    errors: multiset<Pair>,
    upstreamQueries: multiset<Pair>,
    upstreamDurations: multiset<(Pair, int)>,
    cacheSize: int,
    reachable: map<string, int>,
    serversTotal: int,
    deviceQueries: map<string, int>,
    domainQueries: multiset<Pair>,
    domainHits: map<string, int>)

  const NO_METRICS := Registry(multiset{}, multiset{}, 0, 0, multiset{}, multiset{}, multiset{}, 0, map[], 0, map[],
                               multiset{}, map[])

  function TwoLabels(u: Update): Pair
    requires |u.labels| >= 2
  {
    (u.labels[0], u.labels[1])
  }

  /** `processMetricUpdate`: an update without the labels its kind needs is ignored. */
  function Process(r: Registry, u: Update): Registry {
    match u.kind
    case DNSQuery =>
      if |u.labels| >= 2 then
        r.(dnsQueries := r.dnsQueries + multiset{TwoLabels(u)},
           dnsDurations := r.dnsDurations + multiset{(TwoLabels(u), u.duration)})
      else r
    case CacheHit => r.(cacheHits := r.cacheHits + 1)
    case CacheMiss => r.(cacheMisses := r.cacheMisses + 1)
    case Error => if |u.labels| >= 2 then r.(errors := r.errors + multiset{TwoLabels(u)}) else r
    case UpstreamQuery =>
      if |u.labels| >= 2 then
        r.(upstreamQueries := r.upstreamQueries + multiset{TwoLabels(u)},
           upstreamDurations := r.upstreamDurations + multiset{(TwoLabels(u), u.duration)})
      else r
    case CacheSize => r.(cacheSize := u.value)
    case UpstreamServerReachable =>
      if |u.labels| >= 1 then r.(reachable := r.reachable[u.labels[0] := u.value]) else r
    case UpstreamServersTotal => r.(serversTotal := u.value)
    case DeviceIPDNSQuery =>
      if |u.labels| >= 1 then r.(deviceQueries := r.deviceQueries[u.labels[0] := u.value]) else r
    case DomainQuery => if |u.labels| >= 2 then r.(domainQueries := r.domainQueries + multiset{TwoLabels(u)}) else r
    case DomainHit => if |u.labels| >= 1 then r.(domainHits := r.domainHits[u.labels[0] := u.value]) else r
  }

  /** Processing a list of updates one by one. */
  function ProcessAll(r: Registry, us: seq<Update>): Registry {
    if us == [] then r else Process(ProcessAll(r, us[..|us| - 1]), us[|us| - 1])
  }

  lemma {:induction false} ProcessAllAppend(r: Registry, a: seq<Update>, b: seq<Update>)
    ensures ProcessAll(r, a + b) == ProcessAll(ProcessAll(r, a), b)
  {
    hide Process;
    if b == [] {
      assert a + b == a;
    } else {
      ProcessAllAppend(r, a, b[..|b| - 1]);
      assert (a + b)[..|a + b| - 1] == a + b[..|b| - 1];
    }
  }

  /** The registry as the batch processor updates it. */
  class Metrics {
    var registry: Registry

    constructor ()
      ensures registry == NO_METRICS
    {
      registry := NO_METRICS;
    }

    method ProcessMetricUpdate(u: Update)
      modifies this
      ensures registry == Process(old(registry), u)
    {
      var r := registry;
      match u.kind {
      case DNSQuery =>
        if |u.labels| >= 2 {
          r := r.(dnsQueries := r.dnsQueries + multiset{TwoLabels(u)});
          r := r.(dnsDurations := r.dnsDurations + multiset{(TwoLabels(u), u.duration)});
        }
      case CacheHit => r := r.(cacheHits := r.cacheHits + 1);
      case CacheMiss => r := r.(cacheMisses := r.cacheMisses + 1);
      case Error =>
        if |u.labels| >= 2 { r := r.(errors := r.errors + multiset{TwoLabels(u)}); }
      case UpstreamQuery =>
        if |u.labels| >= 2 {
          r := r.(upstreamQueries := r.upstreamQueries + multiset{TwoLabels(u)});
          r := r.(upstreamDurations := r.upstreamDurations + multiset{(TwoLabels(u), u.duration)});
        }
      case CacheSize => r := r.(cacheSize := u.value);
      case UpstreamServerReachable =>
        if |u.labels| >= 1 { r := r.(reachable := r.reachable[u.labels[0] := u.value]); }
      case UpstreamServersTotal => r := r.(serversTotal := u.value);
      case DeviceIPDNSQuery =>
        if |u.labels| >= 1 { r := r.(deviceQueries := r.deviceQueries[u.labels[0] := u.value]); }
      case DomainQuery =>
        if |u.labels| >= 2 { r := r.(domainQueries := r.domainQueries + multiset{TwoLabels(u)}); }
      case DomainHit =>
        if |u.labels| >= 1 { r := r.(domainHits := r.domainHits[u.labels[0] := u.value]); }
      }
      registry := r;
    }

    /** `flushUpdates`. */
    method FlushUpdates(updates: seq<Update>)
      modifies this
      ensures registry == ProcessAll(old(registry), updates)
    {
      hide Process;
      for i := 0 to |updates|
        invariant registry == ProcessAll(old(registry), updates[..i])
      {
        assert updates[..i + 1][..i] == updates[..i];
        ProcessMetricUpdate(updates[i]);
      }
      assert updates[..|updates|] == updates;
    }
  }

  ghost predicate IsQuery(u: Update) {
    u.kind == DNSQuery && |u.labels| >= 2
  }

  ghost function Queries(us: seq<Update>): nat {
    if us == [] then 0 else Queries(us[..|us| - 1]) + if us[|us| - 1].kind == DNSQuery then 1 else 0
  }

  lemma {:induction false} QueriesAppend(a: seq<Update>, b: seq<Update>)
    ensures Queries(a + b) == Queries(a) + Queries(b)
  {
    if b == [] {
      assert a + b == a;
    } else {
      QueriesAppend(a, b[..|b| - 1]);
      assert (a + b)[..|a + b| - 1] == a + b[..|b| - 1];
    }
  }

  lemma QueriesOne(u: Update)
    ensures Queries([u]) == if u.kind == DNSQuery then 1 else 0
  {
    assert [u][..0] == [];
  }

  /** The queries counted in the registry are the well-labelled query updates processed. */
  lemma {:induction false} QueriesCounted(us: seq<Update>)
    requires forall i :: 0 <= i < |us| && us[i].kind == DNSQuery ==> |us[i].labels| >= 2
    ensures |ProcessAll(NO_METRICS, us).dnsQueries| == Queries(us)
    ensures |ProcessAll(NO_METRICS, us).dnsDurations| == Queries(us)
  {
    if us != [] {
      QueriesCounted(us[..|us| - 1]);
    }
  }

  /** The table of how many labels each kind needs. */
  function RequiredLabels(kind: Kind): nat {
    match kind
    case DNSQuery => 2
    case Error => 2
    case UpstreamQuery => 2
    case DomainQuery => 2
    case UpstreamServerReachable => 1
    case DeviceIPDNSQuery => 1
    case DomainHit => 1
    case CacheHit => 0
    case CacheMiss => 0
    case CacheSize => 0
    case UpstreamServersTotal => 0
  }

  predicate IsCounter(kind: Kind) {
    kind.DNSQuery? || kind.Error? || kind.UpstreamQuery? || kind.DomainQuery? || kind.CacheHit? || kind.CacheMiss?
  }

  /** One time series of the registry: a kind of metric with its labels. */
  datatype Series = Series(kind: Kind, labels: seq<string>)

  ghost predicate Addresses(u: Update, x: Series) {
    && u.kind == x.kind && |u.labels| >= RequiredLabels(u.kind)
    && x.labels == u.labels[..RequiredLabels(u.kind)]
  }

  function GaugeIn(values: map<string, int>, name: string): int {
    if name in values then values[name] else 0
  }

  /** What a scrape reads from a series: the count of a counter, the value of a gauge (zero before it is set). */
  function Reading(r: Registry, x: Series): int
    requires |x.labels| == RequiredLabels(x.kind)
  {
    match x.kind
    case DNSQuery => r.dnsQueries[(x.labels[0], x.labels[1])]
    case Error => r.errors[(x.labels[0], x.labels[1])]
    case UpstreamQuery => r.upstreamQueries[(x.labels[0], x.labels[1])]
    case DomainQuery => r.domainQueries[(x.labels[0], x.labels[1])]
    case UpstreamServerReachable => GaugeIn(r.reachable, x.labels[0])
    case DeviceIPDNSQuery => GaugeIn(r.deviceQueries, x.labels[0])
    case DomainHit => GaugeIn(r.domainHits, x.labels[0])
    case CacheHit => r.cacheHits
    case CacheMiss => r.cacheMisses
    case CacheSize => r.cacheSize
    case UpstreamServersTotal => r.serversTotal
  }

  lemma AddressesByLabel(u: Update, x: Series)
    requires |x.labels| == RequiredLabels(x.kind)
    ensures Addresses(u, x) <==>
            && u.kind == x.kind && |u.labels| >= |x.labels|
            && (|x.labels| >= 1 ==> x.labels[0] == u.labels[0])
            && (|x.labels| >= 2 ==> x.labels[1] == u.labels[1])
  {
    if u.kind == x.kind && |u.labels| >= |x.labels| {
      assert forall i :: 0 <= i < |x.labels| ==> u.labels[..|x.labels|][i] == u.labels[i];
    }
  }

  /** An update moves the series it addresses, by one or to its value, and no other. */
  lemma ProcessMovesItsSeries(r: Registry, u: Update, x: Series)
    requires |x.labels| == RequiredLabels(x.kind)
    ensures Reading(Process(r, u), x) ==
            if !Addresses(u, x) then Reading(r, x) else if IsCounter(x.kind) then Reading(r, x) + 1 else u.value
  {
    AddressesByLabel(u, x);
    hide Addresses;
    if u.kind == x.kind {
      SameKindMoves(r, u, x);
    } else {
      OtherKindStays(r, u, x);
    }
    hide Process, Reading;
  }

  lemma OtherKindStays(r: Registry, u: Update, x: Series)
    requires |x.labels| == RequiredLabels(x.kind) && u.kind != x.kind
    ensures Reading(Process(r, u), x) == Reading(r, x)
  {
  }

  lemma SameKindMoves(r: Registry, u: Update, x: Series)
    requires |x.labels| == RequiredLabels(x.kind) && u.kind == x.kind
    ensures Reading(Process(r, u), x) ==
            if |u.labels| < |x.labels| || (|x.labels| >= 1 && x.labels[0] != u.labels[0])
               || (|x.labels| >= 2 && x.labels[1] != u.labels[1]) then Reading(r, x)
            else if IsCounter(x.kind) then Reading(r, x) + 1 else u.value
  {
  }

  ghost function Addressing(us: seq<Update>, x: Series): nat {
    if us == [] then 0 else Addressing(us[..|us| - 1], x) + if Addresses(us[|us| - 1], x) then 1 else 0
  }

  lemma {:induction false} AddressingAppend(a: seq<Update>, b: seq<Update>, x: Series)
    ensures Addressing(a + b, x) == Addressing(a, x) + Addressing(b, x)
  {
    if b == [] {
      assert a + b == a;
    } else {
      AddressingAppend(a, b[..|b| - 1], x);
      assert (a + b)[..|a + b| - 1] == a + b[..|b| - 1];
    }
  }

  lemma AddressingOne(u: Update, x: Series)
    ensures Addressing([u], x) == if Addresses(u, x) then 1 else 0
  {
    assert [u][..0] == [];
  }

  /** After any updates a counter reads how many of them addressed it. */
  lemma {:induction false} CountersCount(us: seq<Update>, x: Series)
    requires |x.labels| == RequiredLabels(x.kind) && IsCounter(x.kind)
    ensures Reading(ProcessAll(NO_METRICS, us), x) == Addressing(us, x)
  {
    if us != [] {
      CountersCount(us[..|us| - 1], x);
      ProcessMovesItsSeries(ProcessAll(NO_METRICS, us[..|us| - 1]), us[|us| - 1], x);
      hide Process, Reading, Addresses;
    }
  }

  /** After any updates a gauge reads the value of the last one that addressed it. */
  lemma {:induction false} GaugesKeepTheLast(us: seq<Update>, x: Series, i: nat)
    requires |x.labels| == RequiredLabels(x.kind) && !IsCounter(x.kind)
    requires i < |us| && Addresses(us[i], x) && forall j :: i < j < |us| ==> !Addresses(us[j], x)
    ensures Reading(ProcessAll(NO_METRICS, us), x) == us[i].value
  {
    var front := us[..|us| - 1];
    ProcessMovesItsSeries(ProcessAll(NO_METRICS, front), us[|us| - 1], x);
    hide Process, Reading, Addresses;
    if i < |us| - 1 { GaugesKeepTheLast(front, x, i); }
  }

  ghost predicate Observes(u: Update, kind: Kind, p: Pair, duration: int) {
    u.kind == kind && |u.labels| >= 2 && TwoLabels(u) == p && u.duration == duration
  }

  ghost function Observations(us: seq<Update>, kind: Kind, p: Pair, duration: int): nat {
    if us == [] then 0
    else Observations(us[..|us| - 1], kind, p, duration) + if Observes(us[|us| - 1], kind, p, duration) then 1 else 0
  }

  lemma ObservationAdded(before: multiset<(Pair, int)>, q: Pair, d: int, p: Pair, duration: int)
    ensures (before + multiset{(q, d)})[(p, duration)]
            == before[(p, duration)] + if q == p && d == duration then 1 else 0
  {
    assert (q, d) == (p, duration) <==> q == p && d == duration;
  }

  lemma ProcessObserves(r: Registry, u: Update, p: Pair, duration: int)
    ensures Process(r, u).dnsDurations[(p, duration)]
            == r.dnsDurations[(p, duration)] + if Observes(u, DNSQuery, p, duration) then 1 else 0
    ensures Process(r, u).upstreamDurations[(p, duration)]
            == r.upstreamDurations[(p, duration)] + if Observes(u, UpstreamQuery, p, duration) then 1 else 0
  {
    if |u.labels| >= 2 && (u.kind.DNSQuery? || u.kind.UpstreamQuery?) {
      var q := TwoLabels(u);
      ObservationAdded(r.dnsDurations, q, u.duration, p, duration);
      ObservationAdded(r.upstreamDurations, q, u.duration, p, duration);
      assert Observes(u, u.kind, p, duration) <==> q == p && u.duration == duration;
      hide TwoLabels;
    } else {
      assert Process(r, u).dnsDurations == r.dnsDurations && Process(r, u).upstreamDurations == r.upstreamDurations;
      hide Process;
    }
  }

  /** The two histograms hold exactly the durations of the query updates, each under its labels. */
  lemma {:induction false} DurationsObserved(us: seq<Update>, p: Pair, duration: int)
    ensures var r := ProcessAll(NO_METRICS, us);
            && r.dnsDurations[(p, duration)] == Observations(us, DNSQuery, p, duration)
            && r.upstreamDurations[(p, duration)] == Observations(us, UpstreamQuery, p, duration)
  {
    if us != [] {
      hide Process, Observes;
      DurationsObserved(us[..|us| - 1], p, duration);
      ProcessObserves(ProcessAll(NO_METRICS, us[..|us| - 1]), us[|us| - 1], p, duration);
    }
  }
}
