/** Which servers a client's query may reach (dnssource/dnssource.go, dnsresolver/dnsresolver.go). */
module ServerSelection {
  import opened Finite
  import opened Machine
  import opened HealthCheck
  import opened ClientRouting

  /** The published lists of reachable servers. */
  datatype ServerCache = ServerCache(privateServers: seq<string>, publicServers: seq<string>)

  /** The non-empty servers in order of first occurrence. */
  function Deduplicated(servers: seq<string>): seq<string> {
    if servers == [] then []
    else
      var front, last := Deduplicated(servers[..|servers| - 1]), servers[|servers| - 1];
      if last == "" || last in front then front else front + [last]
  }

  lemma {:induction false} DeduplicatedServers(servers: seq<string>)
    ensures Distinct(Deduplicated(servers))
    ensures forall x :: x in Deduplicated(servers) <==> x in servers && x != ""
  {
    if servers != [] {
      var front, last := servers[..|servers| - 1], servers[|servers| - 1];
      DeduplicatedServers(front);
      assert servers == front + [last];
      if last !in Deduplicated(front) { DistinctSnoc(Deduplicated(front), last); }
    }
  }

  function Combined(config: Config): seq<string> {
    config.privateServers + config.publicServers
  }

  /** What one call of UpdateDNSServersCache does to the published lists, for some schedule and some outcomes of
      the exchanges. */
  ghost predicate Refreshed(config: Config, before: ServerCache, after: ServerCache) {
    var servers := Combined(config);
    if |servers| == 0 || servers == [""] then after == before
    else
      exists s :: Reachable(Step, Start(config, Deduplicated(servers)), s) && Swap(s, after)
  }

  ghost predicate Swap(s: State, after: ServerCache) {
    s.spawner == Published && after == ServerCache(s.reachablePrivate, s.reachablePublic)
  }

  /** Published lists are duplicate-free and hold configured servers of their own type only. */
  ghost predicate CacheOk(config: Config, cache: ServerCache) {
    && Distinct(cache.privateServers) && Distinct(cache.publicServers)
    && (forall x :: x in cache.privateServers ==> x != "" && x in config.privateServers && x !in config.publicServers)
    && (forall x :: x in cache.publicServers ==> x != "" && x in config.publicServers)
  }

  lemma RefreshKeepsCacheOk(config: Config, before: ServerCache, after: ServerCache)
    requires CacheOk(config, before) && Refreshed(config, before, after)
    ensures CacheOk(config, after)
  {
    var servers := Combined(config);
    if !(|servers| == 0 || servers == [""]) {
      var s :| Reachable(Step, Start(config, Deduplicated(servers)), s) && Swap(s, after);
      DeduplicatedServers(servers);
      PublishedLists(config, Deduplicated(servers), s);
    }
  }

  lemma PublishedImpliesConfigured(config: Config, cache: ServerCache)
    requires CacheOk(config, cache)
    ensures cache.publicServers != [] ==> config.publicServers != []
    ensures cache.privateServers != [] ==> config.privateServers != []
    ensures cache.publicServers != [] ==> HasServer(cache.publicServers) && HasServer(config.publicServers)
    ensures cache != ServerCache([], []) ==>
              HasServer(cache.privateServers + cache.publicServers) && HasServer(Combined(config))
  {
    var listed, all := cache.privateServers + cache.publicServers, Combined(config);
    assert forall i :: 0 <= i < |config.publicServers| ==> all[|config.privateServers| + i] == config.publicServers[i];
    assert forall i :: 0 <= i < |config.privateServers| ==> all[i] == config.privateServers[i];
    if cache.publicServers != [] {
      assert cache.publicServers[0] in cache.publicServers;
      assert listed[|cache.privateServers|] == cache.publicServers[0];
    }
    if cache.privateServers != [] {
      assert cache.privateServers[0] in cache.privateServers;
      assert listed[0] == cache.privateServers[0];
    }
  }

  /** The published lists are a permutation of the reachable servers: every configured non-empty server is in exactly
      one of them if its exchange succeeded, and in none otherwise. */
  lemma RefreshPublishesReachable(config: Config, s: State)
    requires Reachable(Step, Start(config, Deduplicated(Combined(config))), s) && s.spawner == Published
    ensures forall x :: x in Combined(config) && x != "" <==> x in s.checkers
    ensures forall x :: x in s.checkers ==> s.checkers[x].Finished?
    ensures forall x :: multiset(s.reachablePrivate + s.reachablePublic)[x] ==
                        if x in s.checkers && s.checkers[x].ok then 1 else 0
  {
    var servers := Deduplicated(Combined(config));
    DeduplicatedServers(Combined(config));
    PublishedLists(config, servers, s);
    forall x
      ensures multiset(s.reachablePrivate + s.reachablePublic)[x] ==
              if x in s.checkers && s.checkers[x].ok then 1 else 0
    {
      DistinctCount(s.reachablePrivate, x);
      DistinctCount(s.reachablePublic, x);
      assert x in servers ==> TypeOf(config, x) != Unknown;
    }
  }

  lemma {:induction false} DistinctCount(s: seq<string>, x: string)
    requires Distinct(s)
    ensures multiset(s)[x] == if x in s then 1 else 0
  {
    if s != [] {
      var front, last := s[..|s| - 1], s[|s| - 1];
      DistinctCount(front, x);
      assert s == front + [last];
      assert last !in front;
    }
  }

  /** `dnssource`'s package state after InitDNSSource. */
  class DnsSource {
    const config: Config
    var serverTypes: map<string, ServerType>
    var fallback: seq<string>
    var publicFallback: seq<string>
    var cache: ServerCache

    ghost predicate Valid()
      reads this
    {
      && (forall x :: TypeOf(config, x) == if x in serverTypes then serverTypes[x] else Unknown)
      && fallback == Combined(config)
      && publicFallback == config.publicServers
      && CacheOk(config, cache)
    }

    /** `InitDNSSource`. */
    constructor (config: Config)
      ensures Valid() && this.config == config && cache == ServerCache([], [])
    {
      this.config := config;
      serverTypes := map[];
      fallback := [];
      publicFallback := [];
      cache := ServerCache([], []);
      new;
      for i := 0 to |config.privateServers|
        invariant forall x :: x in serverTypes <==> x != "" && x in config.privateServers[..i]
        invariant forall x :: x in serverTypes ==> serverTypes[x] == Private
        invariant cache == ServerCache([], [])
      {
        assert config.privateServers[..i + 1] == config.privateServers[..i] + [config.privateServers[i]];
        if config.privateServers[i] != "" {
          serverTypes := serverTypes[config.privateServers[i] := Private];
        }
      }
      assert config.privateServers[..|config.privateServers|] == config.privateServers;
      for i := 0 to |config.publicServers|
        invariant forall x :: x in serverTypes <==>
                    x != "" && (x in config.privateServers || x in config.publicServers[..i])
        invariant forall x :: x in serverTypes ==>
                    serverTypes[x] == if x in config.publicServers[..i] then Public else Private
        invariant cache == ServerCache([], [])
      {
        assert config.publicServers[..i + 1] == config.publicServers[..i] + [config.publicServers[i]];
        if config.publicServers[i] != "" {
          serverTypes := serverTypes[config.publicServers[i] := Public];
        }
      }
      assert config.publicServers[..|config.publicServers|] == config.publicServers;
      fallback := config.privateServers + config.publicServers;
      publicFallback := config.publicServers;
    }

    /** `categorizeServer`. */
    method CategorizeServer(server: string) returns (isPrivate: bool, isPublic: bool)
      requires Valid()
      ensures isPrivate == (TypeOf(config, server) == Private)
      ensures isPublic == (TypeOf(config, server) == Public)
    {
      var serverType := if server in serverTypes then serverTypes[server] else Unknown;
      return serverType == Private, serverType == Public;
    }

    /** The loop of UpdateDNSServersCache that collects the unique servers. */
    static method UniqueServers(servers: seq<string>) returns (unique: seq<string>)
      ensures unique == Deduplicated(servers)
    {
      unique := [];
      var serverSet: set<string> := {};
      for i := 0 to |servers|
        invariant unique == Deduplicated(servers[..i])
        invariant forall x :: x in serverSet <==> x in unique
      {
        assert servers[..i + 1][..i] == servers[..i];
        if servers[i] != "" {
          if servers[i] !in serverSet {
            serverSet := serverSet + {servers[i]};
            unique := unique + [servers[i]];
          }
        }
      }
      assert servers[..|servers|] == servers;
    }

    /** The atomic swap at the end of a health check. */
    method SwapCache(after: ServerCache)
      requires Valid() && Refreshed(config, cache, after)
      modifies this`cache
      ensures Valid() && cache == after
    {
      RefreshKeepsCacheOk(config, cache, after);
      cache := after;
    }

    /** `GetServersForClient`, for a client whose entry of the ARP table reads `arp` at time `now`. */
    method GetServersForClient(router: ClientRouter, clientIP: string, arp: string, now: int)
      returns (privateServers: seq<string>, publicServers: seq<string>, ghost usePublic: bool)
      requires Valid() && router.Valid()
      modifies router`macCache, router`readings, router.normalizer
      ensures Valid() && router.Valid() && router.Decision(clientIP, now, usePublic)
      ensures (privateServers, publicServers) == Chosen(config, cache, usePublic)
      ensures ServersFor(config, cache, usePublic, privateServers, publicServers)
      ensures InOrder(config, cache, usePublic, privateServers, publicServers)
      ensures PrivateFirst(config, privateServers + publicServers)
    {
      PublishedImpliesConfigured(config, cache);
      ChosenInOrder(config, cache, true);
      ChosenInOrder(config, cache, false);
      var public := router.ShouldUsePublicServers(clientIP, arp, now);
      usePublic := public;
      if public {
        if |cache.publicServers| > 0 {
          return [], cache.publicServers, usePublic;
        }
        return [], publicFallback, usePublic;
      }
      if |cache.privateServers| == 0 && |cache.publicServers| == 0 {
        assert [] + fallback == fallback;
        return [], fallback, usePublic;
      }
      return cache.privateServers, cache.publicServers, usePublic;
    }
  }

  /** Which servers a client gets, in which order: a public-only client the published public servers, or the configured
      ones when none is published; any other client the published private servers before the published public ones, or
      when nothing is published all configured private servers before all configured public ones. */
  ghost predicate InOrder(config: Config, cache: ServerCache, usePublic: bool,
                          privateServers: seq<string>, publicServers: seq<string>) {
    if usePublic then
      && privateServers == []
      && publicServers == if cache.publicServers != [] then cache.publicServers else config.publicServers
    else if cache.privateServers == [] && cache.publicServers == [] then
      privateServers + publicServers == config.privateServers + config.publicServers
    else
      privateServers == cache.privateServers && publicServers == cache.publicServers
  }

  ghost predicate PrivateOnly(config: Config, server: string) {
    server in config.privateServers && server !in config.publicServers
  }

  ghost predicate PublicOnlyServer(config: Config, server: string) {
    server in config.publicServers && server !in config.privateServers
  }

  /** No public-only server stands before a private-only one. */
  ghost predicate PrivateFirst(config: Config, servers: seq<string>) {
    forall i, j :: 0 <= i < j < |servers| && PrivateOnly(config, servers[j]) ==> !PublicOnlyServer(config, servers[i])
  }

  lemma ChosenInOrder(config: Config, cache: ServerCache, usePublic: bool)
    requires CacheOk(config, cache)
    ensures var chosen := Chosen(config, cache, usePublic);
            && InOrder(config, cache, usePublic, chosen.0, chosen.1)
            && PrivateFirst(config, chosen.0 + chosen.1)
  {
    var chosen := Chosen(config, cache, usePublic);
    var all := chosen.0 + chosen.1;
    if usePublic {
      assert all == chosen.1;
    } else if cache == ServerCache([], []) {
      assert all == config.privateServers + config.publicServers;
    } else {
      assert forall j :: |cache.privateServers| <= j < |all| ==> all[j] in cache.publicServers;
    }
    forall i, j | 0 <= i < j < |all| && PrivateOnly(config, all[j])
      ensures !PublicOnlyServer(config, all[i])
    {
    }
  }

  /** Some server in the list has a name. */
  ghost predicate HasServer(servers: seq<string>) {
    exists i :: 0 <= i < |servers| && servers[i] != ""
  }

  /** What a client is promised: a public-only client gets no private list and only public servers; every client gets
      configured servers only, and at least one that has a name if any of those it may use has one; and whoever gets a
      private list gets one disjoint from the public servers. */
  ghost predicate ServersFor(config: Config, cache: ServerCache, usePublic: bool,
                             privateServers: seq<string>, publicServers: seq<string>) {
    && (usePublic ==>
          && privateServers == []
          && (forall x :: x in publicServers ==> x in config.publicServers)
          && (publicServers != [] <==> config.publicServers != [])
          && (HasServer(publicServers) <==> HasServer(config.publicServers))
          && (cache.publicServers != [] ==> publicServers == cache.publicServers))
    && (!usePublic ==>
          && (forall x :: x in privateServers + publicServers ==> x in Combined(config))
          && (privateServers + publicServers != [] <==> Combined(config) != [])
          && (HasServer(privateServers + publicServers) <==> HasServer(Combined(config)))
          && (forall x :: x in privateServers ==> x in config.privateServers && x !in config.publicServers)
          && (cache != ServerCache([], []) ==>
                privateServers == cache.privateServers && publicServers == cache.publicServers))
  }

  /** Any number of health checks. */
  ghost predicate Refreshes(config: Config, caches: seq<ServerCache>) {
    && |caches| > 0 && caches[0] == ServerCache([], [])
    && forall i :: 0 <= i < |caches| - 1 ==> Refreshed(config, caches[i], caches[i + 1])
  }

  lemma {:induction false} AllRefreshesOk(config: Config, caches: seq<ServerCache>)
    requires Refreshes(config, caches)
    ensures CacheOk(config, caches[|caches| - 1])
  {
    if |caches| > 1 {
      AllRefreshesOk(config, caches[..|caches| - 1]);
      RefreshKeepsCacheOk(config, caches[|caches| - 2], caches[|caches| - 1]);
    }
  }

  /** After any number of health checks, whatever their outcomes and schedules, a client is served as promised: one that
      is listed by address, MAC address or vendor prefix as a public-only client, any other as one that is not. */
  lemma SelectionOverAllRuns(config: Config, caches: seq<ServerCache>, enabled: bool, lists: Lists, clientIP: string,
                             raw: string)
    requires Refreshes(config, caches)
    ensures var cache := caches[|caches| - 1];
            var usePublic := enabled && PublicOnly(lists, clientIP, raw);
            var chosen := Chosen(config, cache, usePublic);
            && ServersFor(config, cache, usePublic, chosen.0, chosen.1)
            && InOrder(config, cache, usePublic, chosen.0, chosen.1)
            && PrivateFirst(config, chosen.0 + chosen.1)
  {
    AllRefreshesOk(config, caches);
    assert [] + Combined(config) == Combined(config);
    PublishedImpliesConfigured(config, caches[|caches| - 1]);
    ChosenInOrder(config, caches[|caches| - 1], enabled && PublicOnly(lists, clientIP, raw));
  }

  /** The choice as a function of the published lists. */
  function Chosen(config: Config, cache: ServerCache, usePublic: bool): (seq<string>, seq<string>) {
    if usePublic then ([], if cache.publicServers != [] then cache.publicServers else config.publicServers)
    else if cache == ServerCache([], []) then ([], Combined(config))
    else (cache.privateServers, cache.publicServers)
  }
}
