/** The cache as a transition system: queries, the access tracker, the stale updater, the snapshot writer and loader,
    the janitor and restarts, interleaved at their atomic actions (cache/cache.go, cache/access_tracker.go,
    cache/stale_updater.go, cache/persistence.go). */
module CacheSystem {
  import opened Options
  import opened Dns
  import opened CacheTtl
  import opened CacheState

  /** A running goroutine, named after what it does next. */
  datatype Proc =
    // ResolverWithCache
    | Looking(key: string, domain: string, qtype: Uint16)
    | Asking(key: string, domain: string, qtype: Uint16)
    | Filling(key: string, answer: Answer)
    // TrackAccess, after a hit
    | Tracking(key: string, domain: string, qtype: Uint16)
    | Adding(key: string, info: nat, at: int)
    | Stamping(key: string, info: nat, at: int)
    | Inserting(key: string, domain: string, qtype: Uint16, at: int)
    // updateStaleEntry; these hold a semaphore token
    | RefreshLooking(key: string)
    | RefreshAsking(key: string, domain: string, qtype: Uint16)
    | RefreshFilling(key: string, answer: Answer)
    | RefreshEnding
    // SaveCacheToFile
    | SaveStarting(items: map<string, Item>)
    | Saving(items: map<string, Item>, now: int, entries: seq<Entry>)
    // LoadCacheFromFile
    | Loading(entries: seq<Entry>, now: int)
    | LoadSetting(entry: Entry, answers: seq<RR>, ttl: int, readAt: int, rest: seq<Entry>, now: int)
    | LoadTracking(entry: Entry, rest: seq<Entry>, now: int)

  /** A key GetFrequentlyAccessed returned, with the object and the count it saw. */
  datatype Seen = Seen(key: string, info: nat, count: int)

  /** The stale updater's ticker goroutine. */
  datatype Scanner =
    | Resting
    | Cleaning(present: set<string>)
    | Counting(visited: set<string>, found: seq<Seen>)
    | Selecting(todo: seq<Seen>)
    | Deciding(seen: Seen, expiration: int, todo: seq<Seen>)

  /** An AccessInfo object. History: the key it was stored under, and the count it was restored with (None when
      TrackAccess created it). */
  datatype Object = Object(info: Info, key: string, restored: Option<int>)

  /** History: a completed TrackAccess call on a key, and the object it was counted in. */
  datatype Counted = Counted(key: string, info: nat)

  /** History of the stale updater: a refresh started in scan `scan` after seeing `seen` with `remaining` to expiry. */
  datatype Start = Start(seen: Seen, remaining: int, scan: nat)

  /** History: an answer served from the cache, when, and the entry it came from. */
  datatype Served = Served(domain: string, qtype: Uint16, answers: seq<RR>, at: int, entry: Item)

  /** History: `resolved` all resolutions so far, `served` the cache hits, `counted` the completed TrackAccess
      calls, `drift` the total lag of all reloads, `starts` the refreshes started. */
  datatype State = State(
    lib: Library,
    settings: Settings,
    now: int,
    cache: map<string, Item>,
    objects: seq<Object>,
    tracker: map<string, nat>,
    procs: map<nat, Proc>,
    scanner: Scanner,
    tokens: nat,
    disk: Option<Snapshot>,
    resolved: set<Answer>,
    served: set<Served>,
    counted: seq<Counted>,
    drift: int,
    scan: nat,
    starts: seq<Start>)

  datatype Event =
    | Elapse(d: nat)
    | Evict(key: string)
    | Restart
    | Query(t: nat, domain: string, qtype: Uint16)
    | Look(t: nat)
    | Resolve(t: nat, records: seq<RR>)
    | Fill(t: nat)
    | TrackLoad(t: nat)
    | TrackAdd(t: nat)
    | TrackStamp(t: nat)
    | TrackInsert(t: nat)
    | RefreshLook(t: nat)
    | RefreshEnd(t: nat)
    | ScanStart
    | CleanKey(key: string)
    | CleanEnd
    | CountKey(key: string)
    | CountEnd
    | SelectLook
    | SelectDecide(t: nat)
    | SelectEnd
    | SaveStart(t: nat)
    | SaveClock(t: nat)
    | SaveEntry(t: nat, key: string)
    | SaveWrite(t: nat)
    | SaveFail(t: nat)
    | LoadStart(t: nat)
    | LoadEntry(t: nat)
    | LoadSet(t: nat)
    | LoadTrack(t: nat)

  function Init(lib: Library, settings: Settings, now: int): State {
    State(lib, settings, now, map[], [], map[], map[], Resting, 0, None, {}, {}, [], 0, 0, [])
  }

  /** Storing an answer at the present time. */
  function Stored(s: State, answer: Answer): Item {
    Item(answer.records, s.now + FillTtl(s.settings.defaultTtl, answer.records), answer, s.now, 0, 0)
  }

  function GlobalStep(s: State, e: Event): Option<State> {
    match e
    case Elapse(d) => Some(s.(now := s.now + d))
    case Evict(key) =>
      if key in s.cache && !Live(s.cache[key], s.now) then Some(s.(cache := s.cache - {key})) else None
    case Restart =>
      Some(s.(cache := map[], tracker := map[], procs := map[], scanner := Resting, tokens := 0))
    case _ => None
  }

  function QueryStep(s: State, e: Event): Option<State> {
    match e
    case Query(t, domain, qtype) =>
      if t !in s.procs then Some(s.(procs := s.procs[t := Looking(Key(s.lib, domain, qtype), domain, qtype)]))
      else None
    case Look(t) =>
      if t in s.procs && s.procs[t].Looking? then
        var p := s.procs[t];
        if p.key in s.cache && Live(s.cache[p.key], s.now) then
          Some(s.(served := s.served + {Served(p.domain, p.qtype, s.cache[p.key].answers, s.now, s.cache[p.key])},
                  procs := if s.settings.staleUpdater then s.procs[t := Tracking(p.key, p.domain, p.qtype)]
                           else s.procs - {t}))
        else
          Some(s.(procs := s.procs[t := Asking(p.key, p.domain, p.qtype)]))
      else None
    case Resolve(t, records) =>
      if t in s.procs && s.procs[t].Asking? then
        var answer := Answer(s.procs[t].domain, s.procs[t].qtype, records);
        Some(s.(resolved := s.resolved + {answer}, procs := s.procs[t := Filling(s.procs[t].key, answer)]))
      else if t in s.procs && s.procs[t].RefreshAsking? then
        var answer := Answer(s.procs[t].domain, s.procs[t].qtype, records);
        Some(s.(resolved := s.resolved + {answer}, procs := s.procs[t := RefreshFilling(s.procs[t].key, answer)]))
      else None
    case Fill(t) =>
      if t in s.procs && s.procs[t].Filling? then
        Some(s.(cache := s.cache[s.procs[t].key := Stored(s, s.procs[t].answer)], procs := s.procs - {t}))
      else if t in s.procs && s.procs[t].RefreshFilling? then
        Some(s.(cache := s.cache[s.procs[t].key := Stored(s, s.procs[t].answer)],
                procs := s.procs[t := RefreshEnding]))
      else None
    case _ => None
  }

  function TrackStep(s: State, e: Event): Option<State> {
    match e
    case TrackLoad(t) =>
      if t in s.procs && s.procs[t].Tracking? then
        var p := s.procs[t];
        Some(s.(procs := s.procs[t := if p.key in s.tracker then Adding(p.key, s.tracker[p.key], s.now)
                                      else Inserting(p.key, p.domain, p.qtype, s.now)]))
      else None
    case TrackAdd(t) =>
      if t in s.procs && s.procs[t].Adding? && s.procs[t].info < |s.objects| then
        var i := s.procs[t].info;
        var tracked := s.objects[i];
        Some(s.(objects := s.objects[i := tracked.(info := tracked.info.(count := tracked.info.count + 1))],
                counted := s.counted + [Counted(s.procs[t].key, i)],
                procs := s.procs[t := Stamping(s.procs[t].key, i, s.procs[t].at)]))
      else None
    case TrackStamp(t) =>
      if t in s.procs && s.procs[t].Stamping? && s.procs[t].info < |s.objects| then
        var i := s.procs[t].info;
        var tracked := s.objects[i];
        Some(s.(objects := s.objects[i := tracked.(info := tracked.info.(lastAccess := s.procs[t].at))],
                procs := s.procs - {t}))
      else None
    case TrackInsert(t) =>
      if t in s.procs && s.procs[t].Inserting? then
        var p := s.procs[t];
        Some(s.(objects := s.objects + [Object(Info(p.domain, p.qtype, 1, p.at, p.at), p.key, None)],
                tracker := s.tracker[p.key := |s.objects|],
                counted := s.counted + [Counted(p.key, |s.objects|)],
                procs := s.procs - {t}))
      else None
    case _ => None
  }

  function RefreshStep(s: State, e: Event): Option<State> {
    match e
    case RefreshLook(t) =>
      if t in s.procs && s.procs[t].RefreshLooking? then
        var key := s.procs[t].key;
        if key in s.tracker && s.tracker[key] < |s.objects| then
          var info := s.objects[s.tracker[key]].info;
          Some(s.(procs := s.procs[t := RefreshAsking(key, info.domain, info.qtype)]))
        else
          Some(s.(procs := s.procs[t := RefreshEnding]))
      else None
    case RefreshEnd(t) =>
      if t in s.procs && s.procs[t].RefreshEnding? && s.tokens > 0 then
        Some(s.(procs := s.procs - {t}, tokens := s.tokens - 1))
      else None
    case _ => None
  }

  function ScanStep(s: State, e: Event): Option<State> {
    match e
    case ScanStart =>
      if s.scanner == Resting && s.settings.staleUpdater then
        Some(s.(scanner := Cleaning(LiveItems(s.cache, s.now).Keys), scan := s.scan + 1))
      else None
    case CleanKey(key) =>
      if s.scanner.Cleaning? && key in s.tracker && key !in s.scanner.present then
        Some(s.(tracker := s.tracker - {key}))
      else None
    case CleanEnd =>
      if s.scanner.Cleaning? then Some(s.(scanner := Counting({}, []))) else None
    case CountKey(key) =>
      if s.scanner.Counting? && key in s.tracker && s.tracker[key] < |s.objects| && key !in s.scanner.visited then
        var i := s.tracker[key];
        var count := s.objects[i].info.count;
        Some(s.(scanner := Counting(s.scanner.visited + {key},
                                    if count >= s.settings.minAccessCount then s.scanner.found + [Seen(key, i, count)]
                                    else s.scanner.found)))
      else None
    case CountEnd =>
      if s.scanner.Counting? then Some(s.(scanner := Selecting(s.scanner.found))) else None
    case SelectLook =>
      if s.scanner.Selecting? && s.scanner.todo != [] then
        var seen, rest := s.scanner.todo[0], s.scanner.todo[1..];
        if seen.key in s.cache && Live(s.cache[seen.key], s.now) && s.cache[seen.key].expiration > 0 then
          Some(s.(scanner := Deciding(seen, s.cache[seen.key].expiration, rest)))
        else
          Some(s.(scanner := Selecting(rest)))
      else None
    case SelectDecide(t) =>
      if s.scanner.Deciding? then
        var remaining := s.scanner.expiration - s.now;
        if 0 < remaining <= s.settings.staleThreshold && s.tokens < s.settings.maxConcurrent then
          if t !in s.procs then
            Some(s.(procs := s.procs[t := RefreshLooking(s.scanner.seen.key)], tokens := s.tokens + 1,
                    starts := s.starts + [Start(s.scanner.seen, remaining, s.scan)],
                    scanner := Selecting(s.scanner.todo)))
          else None
        else Some(s.(scanner := Selecting(s.scanner.todo)))
      else None
    case SelectEnd =>
      if s.scanner.Selecting? && s.scanner.todo == [] then Some(s.(scanner := Resting)) else None
    case _ => None
  }

  /** The access information saved with a key. */
  function AccessOf(s: State, key: string): Option<Info> {
    if s.settings.staleUpdater && key in s.tracker && s.tracker[key] < |s.objects| then
      Some(s.objects[s.tracker[key]].info)
    else None
  }

  function SaveStep(s: State, e: Event): Option<State> {
    match e
    case SaveStart(t) =>
      if s.settings.persistence && t !in s.procs then
        Some(s.(procs := s.procs[t := SaveStarting(LiveItems(s.cache, s.now))]))
      else None
    case SaveClock(t) =>
      if t in s.procs && s.procs[t].SaveStarting? then
        Some(s.(procs := s.procs[t := Saving(s.procs[t].items, s.now, [])]))
      else None
    case SaveEntry(t, key) =>
      if t in s.procs && s.procs[t].Saving? && key in s.procs[t].items then
        var p := s.procs[t];
        var entries := if Live(p.items[key], p.now)
                       then p.entries + [EntryOf(s.lib, key, p.items[key], AccessOf(s, key))]
                       else p.entries;
        Some(s.(procs := s.procs[t := Saving(p.items - {key}, p.now, entries)]))
      else None
    case SaveWrite(t) =>
      if t in s.procs && s.procs[t].Saving? && s.procs[t].items == map[] then
        Some(s.(disk := Some(Snapshot(s.procs[t].entries, s.procs[t].now)), procs := s.procs - {t}))
      else None
    case SaveFail(t) =>
      // The file was truncated but not completely written: it will not decode.
      if t in s.procs && s.procs[t].Saving? then Some(s.(disk := None, procs := s.procs - {t})) else None
    case _ => None
  }

  function LoadStep(s: State, e: Event): Option<State> {
    match e
    case LoadStart(t) =>
      if s.settings.persistence && t !in s.procs && s.disk.Some?
         && s.now - s.disk.value.timestamp <= s.settings.maxAge then
        Some(s.(procs := s.procs[t := Loading(s.disk.value.entries, s.now)]))
      else None
    case LoadEntry(t) =>
      if t in s.procs && s.procs[t].Loading? && s.procs[t].entries != [] then
        var p := s.procs[t];
        var entry, rest := p.entries[0], p.entries[1..];
        var answers := Parsed(s.lib, entry.answers);
        var ttl := RemainingTtl(s.settings, entry, s.now);
        if Expired(entry, p.now) || answers == [] || (entry.expiration.Some? && ttl <= 0) then
          Some(s.(procs := s.procs[t := Loading(rest, p.now)]))
        else
          Some(s.(procs := s.procs[t := LoadSetting(entry, answers, ttl, s.now, rest, p.now)]))
      else None
    case LoadSet(t) =>
      if t in s.procs && s.procs[t].LoadSetting? then
        var p := s.procs[t];
        var lag := s.now - p.readAt;
        Some(s.(cache := s.cache[p.entry.key := Item(p.answers, s.now + p.ttl, p.entry.origin, p.entry.filledAt,
                                                     p.entry.lag + lag, p.entry.reloads + 1)],
                drift := s.drift + lag,
                procs := s.procs[t := LoadTracking(p.entry, p.rest, p.now)]))
      else None
    case LoadTrack(t) =>
      if t in s.procs && s.procs[t].LoadTracking? then
        var p := s.procs[t];
        var s' := s.(procs := s.procs[t := Loading(p.rest, p.now)]);
        if s.settings.staleUpdater && p.entry.access.Some? then
          var info := p.entry.access.value;
          Some(s'.(objects := s.objects + [Object(info, p.entry.key, Some(info.count))],
                   tracker := s.tracker[p.entry.key := |s.objects|]))
        else Some(s')
      else None
    case _ => None
  }

  datatype Part = Global | QueryPart | TrackPart | RefreshPart | ScanPart | SavePart | LoadPart

  function PartOf(e: Event): Part {
    match e
    case Elapse(_) => Global
    case Evict(_) => Global
    case Restart => Global
    case Query(_, _, _) => QueryPart
    case Look(_) => QueryPart
    case Resolve(_, _) => QueryPart
    case Fill(_) => QueryPart
    case TrackLoad(_) => TrackPart
    case TrackAdd(_) => TrackPart
    case TrackStamp(_) => TrackPart
    case TrackInsert(_) => TrackPart
    case RefreshLook(_) => RefreshPart
    case RefreshEnd(_) => RefreshPart
    case SaveStart(_) => SavePart
    case SaveClock(_) => SavePart
    case SaveEntry(_, _) => SavePart
    case SaveWrite(_) => SavePart
    case SaveFail(_) => SavePart
    case LoadStart(_) => LoadPart
    case LoadEntry(_) => LoadPart
    case LoadSet(_) => LoadPart
    case LoadTrack(_) => LoadPart
    case _ => ScanPart
  }

  function Step(s: State, e: Event): Option<State> {
    match PartOf(e)
    case Global => GlobalStep(s, e)
    case QueryPart => QueryStep(s, e)
    case TrackPart => TrackStep(s, e)
    case RefreshPart => RefreshStep(s, e)
    case ScanPart => ScanStep(s, e)
    case SavePart => SaveStep(s, e)
    case LoadPart => LoadStep(s, e)
  }

  /** No step changes the configuration or the libraries. */
  lemma SettingsFrame(s: State, e: Event)
    requires Step(s, e).Some?
    ensures Step(s, e).value.settings == s.settings && Step(s, e).value.lib == s.lib
  {
    hide Live, LiveItems, Parsed, EntryOf, AccessOf, Stored, Key, Expired, RemainingTtl;
    if PartOf(e) == SavePart || PartOf(e) == LoadPart {
      hide QueryStep, TrackStep, RefreshStep, ScanStep;
    } else {
      hide SaveStep, LoadStep;
    }
  }
}
