/** Where cached answers come from and how long they live, over every interleaving and across restarts. */
module CacheProvenance {
  import opened Options
  import opened Machine
  import opened Dns
  import opened CacheKeys
  import opened CacheTtl
  import opened CacheState
  import opened CacheSystem

  /** The answer was resolved for a question that its key encodes. */
  ghost predicate AnswersKey(s: State, key: string, answer: Answer) {
    answer in s.resolved && Key(s.lib, answer.domain, answer.qtype) == key
  }

  /** The expiration is exactly the fill time plus the life of the answer plus the reload lag. */
  ghost predicate TimesOk(s: State, expiration: int, answer: Answer, filledAt: int, lag: int) {
    && 0 <= filledAt <= s.now && 0 <= lag <= s.drift
    && expiration == filledAt + FillTtl(s.settings.defaultTtl, answer.records) + lag
  }

  ghost predicate ItemOk(s: State, key: string, item: Item) {
    && AnswersKey(s, key, item.origin) && item.answers == Rounds(s.lib, item.origin.records, item.reloads)
    && (item.answers == [] <==> item.origin.records == [])
    && TimesOk(s, item.expiration, item.origin, item.filledAt, item.lag)
  }

  ghost predicate InfoOk(s: State, key: string, info: Info) {
    Key(s.lib, info.domain, info.qtype) == key
  }

  ghost predicate EntryOk(s: State, entry: Entry) {
    && AnswersKey(s, entry.key, entry.origin)
    && entry.answers == Printed(s.lib, Rounds(s.lib, entry.origin.records, entry.reloads))
    && (entry.answers == [] <==> entry.origin.records == [])
    && entry.expiration.Some?
    && TimesOk(s, entry.expiration.value, entry.origin, entry.filledAt, entry.lag)
    && (entry.access.Some? ==> InfoOk(s, entry.key, entry.access.value))
  }

  ghost predicate EntriesOk(s: State, entries: seq<Entry>) {
    forall i :: 0 <= i < |entries| ==> EntryOk(s, entries[i])
  }

  ghost predicate CacheOk(s: State, cache: map<string, Item>) {
    forall k :: k in cache ==> ItemOk(s, k, cache[k])
  }

  ghost predicate ProcOk(s: State, p: Proc) {
    match p
    case Looking(key, domain, qtype) => Key(s.lib, domain, qtype) == key
    case Asking(key, domain, qtype) => Key(s.lib, domain, qtype) == key
    case Filling(key, answer) => AnswersKey(s, key, answer)
    case Tracking(key, domain, qtype) => Key(s.lib, domain, qtype) == key
    case Adding(key, i, _) => i < |s.objects| && s.objects[i].key == key
    case Stamping(key, i, _) => i < |s.objects| && s.objects[i].key == key
    case Inserting(key, domain, qtype, _) => Key(s.lib, domain, qtype) == key
    case RefreshLooking(_) => true
    case RefreshAsking(key, domain, qtype) => Key(s.lib, domain, qtype) == key
    case RefreshFilling(key, answer) => AnswersKey(s, key, answer)
    case RefreshEnding => true
    case SaveStarting(items) => CacheOk(s, items)
    case Saving(items, _, entries) => CacheOk(s, items) && EntriesOk(s, entries)
    case Loading(entries, _) => EntriesOk(s, entries)
    case LoadSetting(entry, answers, ttl, readAt, rest, _) =>
      && EntryOk(s, entry) && EntriesOk(s, rest)
      && answers == Rounds(s.lib, entry.origin.records, entry.reloads + 1)
      && answers != [] && entry.origin.records != []
      && readAt <= s.now && ttl == entry.expiration.value - readAt
    case LoadTracking(entry, rest, _) => EntryOk(s, entry) && EntriesOk(s, rest)
  }

  ghost predicate TrackerOk(s: State) {
    && (forall i :: 0 <= i < |s.objects| ==> InfoOk(s, s.objects[i].key, s.objects[i].info))
    && (forall k :: k in s.tracker ==> s.tracker[k] < |s.objects| && s.objects[s.tracker[k]].key == k)
  }

  /** Every hit was served an entry of its own key, between its fill and its expiration. */
  ghost predicate ServedOk(s: State, served: Served) {
    && ItemOk(s, Key(s.lib, served.domain, served.qtype), served.entry)
    && served.answers == served.entry.answers
    && served.entry.filledAt <= served.at <= served.entry.expiration && served.at <= s.now
  }

  ghost predicate Inv(s: State) {
    && Validated(s.settings) && 0 <= s.now && 0 <= s.drift
    && CacheOk(s, s.cache)
    && TrackerOk(s)
    && (forall t :: t in s.procs ==> ProcOk(s, s.procs[t]))
    && (s.disk.Some? ==> EntriesOk(s, s.disk.value.entries))
    && (forall x :: x in s.served ==> ServedOk(s, x))
  }

  /** What every step keeps or only extends. */
  ghost predicate Grows(s: State, s': State) {
    && s'.lib == s.lib && s'.settings == s.settings
    && s.now <= s'.now && s.drift <= s'.drift && s.resolved <= s'.resolved
    && |s.objects| <= |s'.objects|
    && forall i :: 0 <= i < |s.objects| ==>
         && s'.objects[i].key == s.objects[i].key
         && s'.objects[i].info.domain == s.objects[i].info.domain
         && s'.objects[i].info.qtype == s.objects[i].info.qtype
  }

  lemma ItemStays(s: State, s': State, key: string, item: Item)
    requires Grows(s, s') && ItemOk(s, key, item)
    ensures ItemOk(s', key, item)
  {
    hide FillTtl, CacheKey;
  }

  lemma EntryStays(s: State, s': State, entry: Entry)
    requires Grows(s, s') && EntryOk(s, entry)
    ensures EntryOk(s', entry)
  {
    hide FillTtl, CacheKey, Printed;
  }

  lemma ProcStays(s: State, s': State, p: Proc)
    requires Grows(s, s') && ProcOk(s, p)
    ensures ProcOk(s', p)
  {
    hide ItemOk, EntryOk, Printed, CacheKey;
    forall k, item | ItemOk(s, k, item) ensures ItemOk(s', k, item) { ItemStays(s, s', k, item); }
    forall entry | EntryOk(s, entry) ensures EntryOk(s', entry) { EntryStays(s, s', entry); }
  }

  /** The parts of the invariant a step has left alone still hold. */
  lemma RestStays(s: State, s': State)
    requires Inv(s) && Grows(s, s')
    ensures forall k :: k in s.cache ==> ItemOk(s', k, s.cache[k])
    ensures forall t :: t in s.procs ==> ProcOk(s', s.procs[t])
    ensures s.disk.Some? ==> EntriesOk(s', s.disk.value.entries)
    ensures forall x :: x in s.served ==> ServedOk(s', x)
    ensures Validated(s'.settings) && 0 <= s'.now && 0 <= s'.drift
  {
    hide ItemOk, EntryOk, ProcOk, TrackerOk, Validated;
    forall k | k in s.cache ensures ItemOk(s', k, s.cache[k]) { ItemStays(s, s', k, s.cache[k]); }
    forall t | t in s.procs ensures ProcOk(s', s.procs[t]) { ProcStays(s, s', s.procs[t]); }
    if s.disk.Some? {
      forall i | 0 <= i < |s.disk.value.entries|
        ensures EntryOk(s', s.disk.value.entries[i])
      {
        EntryStays(s, s', s.disk.value.entries[i]);
      }
    }
    forall x | x in s.served ensures ServedOk(s', x) { ServedStays(s, s', x); }
  }

  lemma ServedStays(s: State, s': State, x: Served)
    requires Grows(s, s') && ServedOk(s, x)
    ensures ServedOk(s', x)
  {
    hide ItemOk, CacheKey;
    ItemStays(s, s', Key(s.lib, x.domain, x.qtype), x.entry);
  }

  /** A step that only moves one goroutine. */
  lemma ProcMoves(s: State, t: nat, p: Proc)
    requires Inv(s) && ProcOk(s, p)
    ensures Inv(s.(procs := s.procs[t := p]))
  {
    hide ItemOk, EntryOk, ProcOk, ServedOk, Validated;
    var s' := s.(procs := s.procs[t := p]);
    RestStays(s, s');
    ProcStays(s, s', p);
  }

  lemma GlobalKeeps(s: State, e: Event)
    requires Inv(s) && GlobalStep(s, e).Some?
    ensures Inv(GlobalStep(s, e).value)
  {
    hide ItemOk, EntryOk, ProcOk, ServedOk, Validated, Live;
    RestStays(s, GlobalStep(s, e).value);
  }

  lemma StoredOk(s: State, key: string, answer: Answer)
    requires AnswersKey(s, key, answer) && 0 <= s.now && 0 <= s.drift
    ensures ItemOk(s, key, Stored(s, answer))
  {
  }

  lemma HitOk(s: State, key: string, domain: string, qtype: Uint16)
    requires key in s.cache && ItemOk(s, key, s.cache[key]) && Key(s.lib, domain, qtype) == key
    requires Validated(s.settings) && Live(s.cache[key], s.now)
    ensures ServedOk(s, Served(domain, qtype, s.cache[key].answers, s.now, s.cache[key]))
  {
    FillTtlPositive(s.settings.defaultTtl, s.cache[key].origin.records);
    hide CacheKey, FillTtl, Rounds;
  }

  lemma LookKeeps(s: State, t: nat)
    requires Inv(s) && QueryStep(s, Look(t)).Some?
    ensures Inv(QueryStep(s, Look(t)).value)
  {
    hide ItemOk, EntryOk, EntriesOk, ServedOk, Validated, Live, CacheKey;
    var s' := QueryStep(s, Look(t)).value;
    var p := s.procs[t];
    assert ProcOk(s, p);
    RestStays(s, s');
    if p.key in s.cache && Live(s.cache[p.key], s.now) {
      HitOk(s, p.key, p.domain, p.qtype);
      ServedStays(s, s', Served(p.domain, p.qtype, s.cache[p.key].answers, s.now, s.cache[p.key]));
    }
  }

  lemma FillKeeps(s: State, t: nat)
    requires Inv(s) && QueryStep(s, Fill(t)).Some?
    ensures Inv(QueryStep(s, Fill(t)).value)
  {
    hide ItemOk, EntryOk, EntriesOk, ServedOk, Validated, Stored;
    var s' := QueryStep(s, Fill(t)).value;
    var p := s.procs[t];
    assert ProcOk(s, p);
    RestStays(s, s');
    StoredOk(s, p.key, p.answer);
    ItemStays(s, s', p.key, Stored(s, p.answer));
  }

  lemma MoreResolved(s: State, answer: Answer)
    requires Inv(s)
    ensures Inv(s.(resolved := s.resolved + {answer}))
  {
    hide ItemOk, EntryOk, EntriesOk, ProcOk, ServedOk, Validated;
    RestStays(s, s.(resolved := s.resolved + {answer}));
  }

  lemma ResolveKeeps(s: State, t: nat, records: seq<RR>)
    requires Inv(s) && QueryStep(s, Resolve(t, records)).Some?
    ensures Inv(QueryStep(s, Resolve(t, records)).value)
  {
    var s', p := QueryStep(s, Resolve(t, records)).value, s.procs[t];
    assert ProcOk(s, p);
    hide Inv, CacheKey;
    var answer := Answer(p.domain, p.qtype, records);
    MoreResolved(s, answer);
    assert ProcOk(s.(resolved := s.resolved + {answer}), s'.procs[t]);
    hide ProcOk;
    ProcMoves(s.(resolved := s.resolved + {answer}), t, s'.procs[t]);
  }

  lemma QueryKeeps(s: State, e: Event)
    requires Inv(s) && QueryStep(s, e).Some?
    ensures Inv(QueryStep(s, e).value)
  {
    match e
    case Query(t, domain, qtype) =>
      hide Inv, CacheKey;
      ProcMoves(s, t, Looking(Key(s.lib, domain, qtype), domain, qtype));
    case Look(t) =>
      hide Inv, QueryStep;
      LookKeeps(s, t);
    case Resolve(t, records) =>
      hide Inv, QueryStep;
      ResolveKeeps(s, t, records);
    case Fill(t) =>
      hide Inv, QueryStep;
      FillKeeps(s, t);
    case _ =>
  }

  lemma InsertKeeps(s: State, t: nat)
    requires Inv(s) && TrackStep(s, TrackInsert(t)).Some?
    ensures Inv(TrackStep(s, TrackInsert(t)).value)
  {
    hide ItemOk, EntryOk, EntriesOk, ServedOk, Validated, CacheKey;
    assert ProcOk(s, s.procs[t]);
    RestStays(s, TrackStep(s, TrackInsert(t)).value);
  }

  lemma CountingKeeps(s: State, e: Event)
    requires Inv(s) && (e.TrackAdd? || e.TrackStamp?) && TrackStep(s, e).Some?
    ensures Inv(TrackStep(s, e).value)
  {
    hide ItemOk, EntryOk, EntriesOk, ServedOk, Validated, CacheKey;
    assert ProcOk(s, s.procs[e.t]);
    RestStays(s, TrackStep(s, e).value);
  }

  lemma TrackKeeps(s: State, e: Event)
    requires Inv(s) && TrackStep(s, e).Some?
    ensures Inv(TrackStep(s, e).value)
  {
    match e
    case TrackLoad(t) =>
      assert ProcOk(s, s.procs[t]);
      hide ItemOk, EntryOk, EntriesOk, ServedOk, Validated, CacheKey;
      ProcMoves(s, t, TrackStep(s, e).value.procs[t]);
    case TrackInsert(t) => InsertKeeps(s, t);
    case _ => CountingKeeps(s, e);
  }

  lemma RefreshKeeps(s: State, e: Event)
    requires Inv(s) && RefreshStep(s, e).Some?
    ensures Inv(RefreshStep(s, e).value)
  {
    hide ItemOk, EntryOk, EntriesOk, ServedOk, Validated, CacheKey;
    RestStays(s, RefreshStep(s, e).value);
  }

  lemma ScanTouches(s: State, e: Event)
    requires ScanStep(s, e).Some?
    ensures var s' := ScanStep(s, e).value;
            && s' == s.(tracker := s'.tracker, procs := s'.procs, tokens := s'.tokens, starts := s'.starts,
                        scan := s'.scan, scanner := s'.scanner)
            && (forall k :: k in s'.tracker ==> k in s.tracker && s'.tracker[k] == s.tracker[k])
            && (forall t :: t in s'.procs ==>
                  (t in s.procs && s'.procs[t] == s.procs[t]) || s'.procs[t].RefreshLooking?)
  {
    hide Live, LiveItems;
  }

  lemma ScanKeeps(s: State, e: Event)
    requires Inv(s) && ScanStep(s, e).Some?
    ensures Inv(ScanStep(s, e).value)
  {
    hide ItemOk, EntryOk, EntriesOk, ServedOk, Validated, CacheKey, ScanStep;
    ScanTouches(s, e);
    RestStays(s, ScanStep(s, e).value);
  }

  lemma EntryOfOk(s: State, key: string, item: Item)
    requires ItemOk(s, key, item) && TrackerOk(s) && Validated(s.settings)
    ensures EntryOk(s, EntryOf(s.lib, key, item, AccessOf(s, key)))
  {
    hide CacheKey, Rounds;
    assert Printed(s.lib, item.answers) == [] <==> item.answers == [];
    FillTtlPositive(s.settings.defaultTtl, item.origin.records);
  }

  lemma FillTtlPositive(defaultTtl: int, answers: seq<RR>)
    requires MIN_CACHE_TTL <= defaultTtl <= MAX_CACHE_TTL
    ensures 0 < FillTtl(defaultTtl, answers) <= MAX_CACHE_TTL
    ensures answers != [] ==> MIN_CACHE_TTL <= FillTtl(defaultTtl, answers)
  {
    TtlIsBounded(defaultTtl, answers);
  }

  lemma SaveEntryKeeps(s: State, t: nat, key: string)
    requires Inv(s) && SaveStep(s, SaveEntry(t, key)).Some?
    ensures Inv(SaveStep(s, SaveEntry(t, key)).value)
  {
    var p := s.procs[t];
    assert ProcOk(s, p);
    EntryOfOk(s, key, p.items[key]);
    hide ItemOk, EntryOk, ServedOk, Validated, Live, AccessOf, EntryOf;
    assert ProcOk(s, SaveStep(s, SaveEntry(t, key)).value.procs[t]);
    hide Inv, ProcOk;
    ProcMoves(s, t, SaveStep(s, SaveEntry(t, key)).value.procs[t]);
  }

  lemma SaveStartKeeps(s: State, t: nat)
    requires Inv(s) && SaveStep(s, SaveStart(t)).Some?
    ensures Inv(SaveStep(s, SaveStart(t)).value)
  {
    hide ItemOk, EntryOk, EntriesOk, ServedOk, TrackerOk, Validated, CacheKey, Live;
    var p := SaveStarting(LiveItems(s.cache, s.now));
    assert ProcOk(s, p);
    hide Inv, ProcOk, LiveItems;
    ProcMoves(s, t, p);
  }

  lemma SaveEndKeeps(s: State, e: Event)
    requires Inv(s) && (e.SaveClock? || e.SaveWrite? || e.SaveFail?) && SaveStep(s, e).Some?
    ensures Inv(SaveStep(s, e).value)
  {
    hide ItemOk, EntryOk, ServedOk, Validated, CacheKey, Live, AccessOf, EntryOf;
    var s' := SaveStep(s, e).value;
    RestStays(s, s');
    assert ProcOk(s, s.procs[e.t]);
    ProcStays(s, s', s.procs[e.t]);
  }

  lemma SaveKeeps(s: State, e: Event)
    requires Inv(s) && SaveStep(s, e).Some?
    ensures Inv(SaveStep(s, e).value)
  {
    hide Inv, LiveItems, Live, EntryOf, AccessOf;
    match e
    case SaveStart(t) => SaveStartKeeps(s, t);
    case SaveEntry(t, key) => SaveEntryKeeps(s, t, key);
    case SaveClock(t) => SaveEndKeeps(s, e);
    case SaveWrite(t) => SaveEndKeeps(s, e);
    case SaveFail(t) => SaveEndKeeps(s, e);
    case _ =>
  }

  lemma LoadEntryOk(s: State, p: Proc)
    requires p.Loading? && p.entries != [] && ProcOk(s, p)
    ensures EntryOk(s, p.entries[0]) && EntriesOk(s, p.entries[1..])
    ensures Parsed(s.lib, p.entries[0].answers)
            == Rounds(s.lib, p.entries[0].origin.records, p.entries[0].reloads + 1)
    ensures Parsed(s.lib, p.entries[0].answers) != [] ==> p.entries[0].origin.records != []
  {
    assert p.entries[0].answers == [] ==> Parsed(s.lib, p.entries[0].answers) == [];
    hide ItemOk, TimesOk, Parsed, Printed;
  }

  lemma ReloadedOk(s: State, s': State, p: Proc)
    requires p.LoadSetting? && ProcOk(s, p) && Grows(s, s') && s'.now == s.now
    requires s'.drift == s.drift + (s.now - p.readAt)
    ensures ItemOk(s', p.entry.key, Item(p.answers, s.now + p.ttl, p.entry.origin, p.entry.filledAt,
                                         p.entry.lag + (s.now - p.readAt), p.entry.reloads + 1))
  {
    hide CacheKey, Printed, EntriesOk, Rounds;
  }

  /** Both continuations of the loading loop are in order. */
  lemma LoadContinues(s: State, p: Proc)
    requires p.Loading? && p.entries != [] && ProcOk(s, p)
    ensures p.entries[0].expiration.Some?
    ensures ProcOk(s, Loading(p.entries[1..], p.now))
    ensures Parsed(s.lib, p.entries[0].answers) != [] ==>
              ProcOk(s, LoadSetting(p.entries[0], Parsed(s.lib, p.entries[0].answers),
                                    RemainingTtl(s.settings, p.entries[0], s.now), s.now, p.entries[1..], p.now))
  {
    LoadEntryOk(s, p);
    EntryExpires(s, p.entries[0]);
    hide EntryOk, Parsed;
  }

  lemma LoadEntryKeeps(s: State, t: nat)
    requires Inv(s) && LoadStep(s, LoadEntry(t)).Some?
    ensures Inv(LoadStep(s, LoadEntry(t)).value)
  {
    assert ProcOk(s, s.procs[t]);
    LoadContinues(s, s.procs[t]);
    hide Inv, ProcOk, Parsed, RemainingTtl;
    ProcMoves(s, t, LoadStep(s, LoadEntry(t)).value.procs[t]);
  }

  lemma LoadSetKeeps(s: State, t: nat)
    requires Inv(s) && LoadStep(s, LoadSet(t)).Some?
    ensures Inv(LoadStep(s, LoadSet(t)).value)
  {
    var s' := LoadStep(s, LoadSet(t)).value;
    assert ProcOk(s, s.procs[t]);
    hide ItemOk, EntryOk, EntriesOk, ServedOk, Validated;
    ReloadedOk(s, s', s.procs[t]);
    ProcStays(s, s', LoadTracking(s.procs[t].entry, s.procs[t].rest, s.procs[t].now));
    RestStays(s, s');
  }

  /** Restoring access information that holds a question of its key. */
  lemma RestoreKeeps(s: State, key: string, info: Info)
    requires Inv(s) && InfoOk(s, key, info)
    ensures Inv(s.(objects := s.objects + [Object(info, key, Some(info.count))],
                   tracker := s.tracker[key := |s.objects|]))
  {
    hide ItemOk, EntryOk, EntriesOk, ProcOk, ServedOk, Validated, CacheKey;
    RestStays(s, s.(objects := s.objects + [Object(info, key, Some(info.count))],
                    tracker := s.tracker[key := |s.objects|]));
  }

  lemma LoadTrackKeeps(s: State, t: nat)
    requires Inv(s) && LoadStep(s, LoadTrack(t)).Some?
    ensures Inv(LoadStep(s, LoadTrack(t)).value)
  {
    var p := s.procs[t];
    assert ProcOk(s, p);
    EntryExpires(s, p.entry);
    assert ProcOk(s, Loading(p.rest, p.now));
    hide Inv, ProcOk, EntryOk, EntriesOk;
    ProcMoves(s, t, Loading(p.rest, p.now));
    if s.settings.staleUpdater && p.entry.access.Some? {
      RestoreKeeps(s.(procs := s.procs[t := Loading(p.rest, p.now)]), p.entry.key, p.entry.access.value);
    }
  }

  lemma LoadKeeps(s: State, e: Event)
    requires Inv(s) && LoadStep(s, e).Some?
    ensures Inv(LoadStep(s, e).value)
  {
    match e
    case LoadStart(t) =>
      hide ItemOk, EntryOk, EntriesOk, ServedOk, Validated;
      RestStays(s, LoadStep(s, e).value);
    case LoadEntry(t) => LoadEntryKeeps(s, t);
    case LoadSet(t) => LoadSetKeeps(s, t);
    case LoadTrack(t) => LoadTrackKeeps(s, t);
    case _ =>
  }

  lemma EntryExpires(s: State, entry: Entry)
    ensures EntryOk(s, entry) ==>
              entry.expiration.Some? && (entry.access.Some? ==> InfoOk(s, entry.key, entry.access.value))
  {
  }

  lemma StepKeepsInv(s: State, e: Event)
    requires Inv(s) && Step(s, e).Some?
    ensures Inv(Step(s, e).value)
  {
    hide Inv, GlobalStep, QueryStep, TrackStep, RefreshStep, ScanStep, SaveStep, LoadStep;
    match PartOf(e)
    case Global => GlobalKeeps(s, e);
    case QueryPart => QueryKeeps(s, e);
    case TrackPart => TrackKeeps(s, e);
    case RefreshPart => RefreshKeeps(s, e);
    case ScanPart => ScanKeeps(s, e);
    case SavePart => SaveKeeps(s, e);
    case LoadPart => LoadKeeps(s, e);
  }

  lemma ReachableInv(lib: Library, settings: Settings, now: int, s: State)
    requires Validated(settings) && 0 <= now
    requires Reachable(Step, Init(lib, settings, now), s)
    ensures Inv(s)
  {
    assert Inv(Init(lib, settings, now));
    hide Inv, Step;
    forall x, e | Inv(x) && Step(x, e).Some? ensures Inv(Step(x, e).value) { StepKeepsInv(x, e); }
    assert Preserved(Step, Inv);
    InvariantReachable(Step, Init(lib, settings, now), Inv, s);
  }

  /** Provenance: in every reachable state the answers under a key are those of a resolution of a question the key
      encodes, as the saves and reloads since have left them. If its records print again, they are the same in print;
      and if nothing was reloaded they are the same. */
  lemma Provenance(lib: Library, settings: Settings, now: int, s: State, k: string)
    requires Validated(settings) && 0 <= now
    requires Reachable(Step, Init(lib, settings, now), s) && k in s.cache
    ensures var item, answer := s.cache[k], s.cache[k].origin;
            && answer in s.resolved && Key(s.lib, answer.domain, answer.qtype) == k
            && item.answers == Rounds(s.lib, answer.records, item.reloads)
            && (item.answers == [] <==> answer.records == [])
            && (item.reloads == 0 ==> item.answers == answer.records)
            && ((forall i :: 0 <= i < |answer.records| ==> PrintsAgain(s.lib, answer.records[i])) ==>
                  Printed(s.lib, item.answers) == Printed(s.lib, answer.records))
  {
    ReachableInv(lib, settings, now, s);
    assert ItemOk(s, k, s.cache[k]);
    hide CacheKey, Printed, PrintsAgain;
    var answer := s.cache[k].origin;
    if forall i :: 0 <= i < |answer.records| ==> PrintsAgain(s.lib, answer.records[i]) {
      RoundsPrintAlike(s.lib, answer.records, s.cache[k].reloads);
    }
  }

  /** The access information under a key holds a question that the key encodes. */
  lemma TrackerProvenance(lib: Library, settings: Settings, now: int, s: State, k: string)
    requires Validated(settings) && 0 <= now
    requires Reachable(Step, Init(lib, settings, now), s) && k in s.tracker
    ensures s.tracker[k] < |s.objects|
    ensures var info := s.objects[s.tracker[k]].info; Key(s.lib, info.domain, info.qtype) == k
  {
    ReachableInv(lib, settings, now, s);
    hide CacheKey;
    assert InfoOk(s, s.objects[s.tracker[k]].key, s.objects[s.tracker[k]].info);
  }

  /** A client served from the cache gets an answer to its own question: one resolved for the same completed name
      and the same type, the same in print if its records print again. */
  lemma HitsAreHonest(lib: Library, settings: Settings, now: int, s: State, x: Served)
    requires Validated(settings) && 0 <= now
    requires Reachable(Step, Init(lib, settings, now), s) && x in s.served
    ensures var answer := x.entry.origin;
            && answer in s.resolved && x.answers == Rounds(s.lib, answer.records, x.entry.reloads)
            && s.lib.fqdn(answer.domain) == s.lib.fqdn(x.domain) && answer.qtype == x.qtype
            && ((forall i :: 0 <= i < |answer.records| ==> PrintsAgain(s.lib, answer.records[i])) ==>
                  Printed(s.lib, x.answers) == Printed(s.lib, answer.records))
  {
    ReachableInv(lib, settings, now, s);
    assert ServedOk(s, x);
    var answer := x.entry.origin;
    KeysEqualIff(s.lib.fqdn, answer.domain, answer.qtype, x.domain, x.qtype);
    hide CacheKey, Printed, PrintsAgain;
    if forall i :: 0 <= i < |answer.records| ==> PrintsAgain(s.lib, answer.records[i]) {
      RoundsPrintAlike(s.lib, answer.records, x.entry.reloads);
    }
  }

  /** Nothing is served after its time: every hit falls between the fill of its answer and that fill plus the answer's
      life plus the lag of its reloads, hence within 24 hours of the fill when there is no lag. */
  lemma NothingServedLate(lib: Library, settings: Settings, now: int, s: State, x: Served)
    requires Validated(settings) && 0 <= now
    requires Reachable(Step, Init(lib, settings, now), s) && x in s.served
    ensures x.entry.filledAt <= x.at <= s.now
    ensures x.at <= x.entry.expiration
    ensures x.at <= x.entry.filledAt + FillTtl(s.settings.defaultTtl, x.entry.origin.records) + x.entry.lag
    ensures x.at <= x.entry.filledAt + 24 * 3600 * 1_000_000_000 + x.entry.lag && 0 <= x.entry.lag <= s.drift
  {
    ReachableInv(lib, settings, now, s);
    assert ServedOk(s, x);
    FillTtlPositive(s.settings.defaultTtl, x.entry.origin.records);
    hide CacheKey, FillTtl, Rounds;
  }

  /** When a query is a hit: it is served from the cache exactly when the cache has an entry under its key that has not
      expired; any other query goes on to ask a resolver. */
  lemma HitIff(lib: Library, settings: Settings, now: int, s: State, t: nat)
    requires Validated(settings) && 0 <= now
    requires Reachable(Step, Init(lib, settings, now), s) && t in s.procs && s.procs[t].Looking?
    ensures Step(s, Look(t)).Some?
    ensures var p, s' := s.procs[t], Step(s, Look(t)).value;
            && s'.cache == s.cache && s'.resolved == s.resolved
            && if p.key in s.cache && s.now <= s.cache[p.key].expiration then
                 && s'.served == s.served + {Served(p.domain, p.qtype, s.cache[p.key].answers, s.now, s.cache[p.key])}
                 && (if s.settings.staleUpdater then s'.procs == s.procs[t := Tracking(p.key, p.domain, p.qtype)]
                     else s'.procs == s.procs - {t})
               else
                 s'.served == s.served && s'.procs == s.procs[t := Asking(p.key, p.domain, p.qtype)]
  {
    ReachableInv(lib, settings, now, s);
    if s.procs[t].key in s.cache {
      assert ItemOk(s, s.procs[t].key, s.cache[s.procs[t].key]);
      FillTtlPositive(s.settings.defaultTtl, s.cache[s.procs[t].key].origin.records);
    }
    hide Inv, FillTtl, Rounds, CacheKey;
  }

  /** A stale refresh asks the question its key encodes. */
  lemma RefreshAsksItsKey(lib: Library, settings: Settings, now: int, s: State, t: nat)
    requires Validated(settings) && 0 <= now
    requires Reachable(Step, Init(lib, settings, now), s) && t in s.procs && s.procs[t].RefreshAsking?
    ensures Key(s.lib, s.procs[t].domain, s.procs[t].qtype) == s.procs[t].key
  {
    ReachableInv(lib, settings, now, s);
    assert ProcOk(s, s.procs[t]);
  }

  /** Bounded life: every entry expires, exactly its fill time plus its TTL plus the lag of its reloads after it was
      filled. Without lag that is at most 24 hours, at least 30 seconds for a positive answer, and a quarter of the
      default TTL for a negative one. The branches for entries without expiration are never taken. */
  lemma BoundedLife(lib: Library, settings: Settings, now: int, s: State, k: string)
    requires Validated(settings) && 0 <= now
    requires Reachable(Step, Init(lib, settings, now), s) && k in s.cache
    ensures var item := s.cache[k];
            var life := item.expiration - item.filledAt - item.lag;
            && 0 < item.expiration
            && 0 <= item.filledAt <= s.now && 0 <= item.lag <= s.drift
            && 0 < life <= MAX_CACHE_TTL
            && (item.answers != [] ==> MIN_CACHE_TTL <= life)
            && (item.answers == [] ==> life == s.settings.defaultTtl / 4)
  {
    ReachableInv(lib, settings, now, s);
    assert ItemOk(s, k, s.cache[k]);
    FillTtlPositive(s.settings.defaultTtl, s.cache[k].origin.records);
  }

  /** Every entry of a snapshot this program wrote has an expiration. */
  lemma SnapshotsExpire(lib: Library, settings: Settings, now: int, s: State, i: nat)
    requires Validated(settings) && 0 <= now
    requires Reachable(Step, Init(lib, settings, now), s) && s.disk.Some? && i < |s.disk.value.entries|
    ensures s.disk.value.entries[i].expiration.Some?
  {
    ReachableInv(lib, settings, now, s);
    EntryExpires(s, s.disk.value.entries[i]);
  }

  /** Reloading an entry moves its expiration by exactly the time between the two clock readings. */
  lemma ReloadMovesExpiration(lib: Library, settings: Settings, now: int, s: State, t: nat)
    requires Validated(settings) && 0 <= now
    requires Reachable(Step, Init(lib, settings, now), s) && Step(s, LoadSet(t)).Some?
    ensures var entry := s.procs[t].entry;
            var item := Step(s, LoadSet(t)).value.cache[entry.key];
            && entry.expiration.Some?
            && item.expiration == entry.expiration.value + (s.now - s.procs[t].readAt)
            && (item.expiration == entry.expiration.value <==> s.now == s.procs[t].readAt)
  {
    ReachableInv(lib, settings, now, s);
    assert ProcOk(s, s.procs[t]);
    EntryExpires(s, s.procs[t].entry);
    hide Inv, ProcOk;
  }

  /** Every entry of the run is reloaded at one clock reading. */
  ghost predicate ReloadsAtOneReading(start: State, events: seq<Event>) {
    forall k :: 0 <= k < |events| ==> PromptEvent(start, events[..k], events[k])
  }

  ghost predicate PromptEvent(start: State, before: seq<Event>, e: Event) {
    var r := Exec(Step, start, before);
    e.LoadSet? && r.Some? && e.t in r.value.procs && r.value.procs[e.t].LoadSetting? ==>
      r.value.procs[e.t].readAt == r.value.now
  }

  lemma DriftFromReloads(s: State, e: Event)
    requires Step(s, e).Some? && !e.LoadSet?
    ensures Step(s, e).value.drift == s.drift
  {
    hide Live, LiveItems, Parsed, EntryOf;
  }

  /** Over a run whose reloads each use one clock reading, no chain of saves, restarts and loads postpones any
      expiration: every entry's is exactly its fill time plus its TTL. */
  lemma {:induction false} NoDrift(lib: Library, settings: Settings, now: int, events: seq<Event>)
    requires Exec(Step, Init(lib, settings, now), events).Some?
    requires ReloadsAtOneReading(Init(lib, settings, now), events)
    ensures Exec(Step, Init(lib, settings, now), events).value.drift == 0
  {
    if events != [] {
      var front, e := events[..|events| - 1], events[|events| - 1];
      var start := Init(lib, settings, now);
      forall k | 0 <= k < |front| ensures PromptEvent(start, front[..k], front[k]) {
        assert PromptEvent(start, events[..k], events[k]);
        assert front[..k] == events[..k];
      }
      NoDrift(lib, settings, now, front);
      var s := Exec(Step, start, front).value;
      assert PromptEvent(start, front, e);
      if !e.LoadSet? {
        hide Step;
        DriftFromReloads(s, e);
      }
    }
  }

  lemma LifeWithoutDrift(lib: Library, settings: Settings, now: int, events: seq<Event>, k: string)
    requires Validated(settings) && 0 <= now
    requires Exec(Step, Init(lib, settings, now), events).Some?
    requires ReloadsAtOneReading(Init(lib, settings, now), events)
    requires k in Exec(Step, Init(lib, settings, now), events).value.cache
    ensures var item := Exec(Step, Init(lib, settings, now), events).value.cache[k];
            && item.expiration == item.filledAt + FillTtl(settings.defaultTtl, item.origin.records)
            && item.filledAt < item.expiration <= item.filledAt + MAX_CACHE_TTL
  {
    var start := Init(lib, settings, now);
    var s := Exec(Step, start, events).value;
    NoDrift(lib, settings, now, events);
    assert Reachable(Step, start, s);
    ReachableInv(lib, settings, now, s);
    SettingsStay(start, events);
    BoundedLife(lib, settings, now, s, k);
    assert ItemOk(s, k, s.cache[k]);
  }

  lemma {:induction false} SettingsStay(start: State, events: seq<Event>)
    requires Exec(Step, start, events).Some?
    ensures Exec(Step, start, events).value.settings == start.settings
  {
    if events != [] {
      SettingsStay(start, events[..|events| - 1]);
      var s := Exec(Step, start, events[..|events| - 1]).value;
      SettingsFrame(s, events[|events| - 1]);
      hide Step;
    }
  }
}
