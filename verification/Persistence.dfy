/** Saving the cache to the snapshot file and loading it back (cache/persistence.go). */
module Persistence {
  import opened Options
  import opened Finite
  import opened Dns
  import opened CacheState
  import opened Pools

  /** A cached answer as go-cache holds it: the records are in an array of the cache's own. */
  datatype Held = Held(answers: array<RR>, expiration: int, origin: Answer, filledAt: int, lag: int,
                       reloads: nat)

  function Read(held: Held): Item
    reads held.answers
  {
    Item(held.answers[..], held.expiration, held.origin, held.filledAt, held.lag, held.reloads)
  }

  /** A snapshot line before encoding: the printed records are in an array of their own. */
  datatype Line = Line(key: string, answers: array<string>, expiration: Option<int>, access: Option<Info>,
                       origin: Answer, filledAt: int, lag: int, reloads: nat)

  function Encoded(lines: seq<Line>): seq<Entry>
    reads set l | l in lines :: l.answers
  {
    if lines == [] then []
    else
      var l := lines[|lines| - 1];
      Encoded(lines[..|lines| - 1])
      + [Entry(l.key, l.answers[..], l.expiration, l.access, l.origin, l.filledAt, l.lag, l.reloads)]
  }

  /** The snapshot file as a reader finds it. */
  datatype File = Missing | Unreadable | Undecodable | Readable(snapshot: Snapshot)

  /** The readings of the clock while one entry is loaded: for its remaining life, and when it is stored. */
  datatype Reading = Reading(until: int, store: int)

  /** The cache and the tracker, and how many entries have been loaded into them. */
  datatype Contents = Contents(cache: map<string, Item>, tracked: map<string, Info>, loaded: nat)

  predicate Skipped(lib: Library, settings: Settings, entry: Entry, now: int, until: int) {
    || Expired(entry, now)
    || Parsed(lib, entry.answers) == []
    || (entry.expiration.Some? && RemainingTtl(settings, entry, until) <= 0)
  }

  /** What the cache gets from an entry. */
  function ItemOf(lib: Library, settings: Settings, entry: Entry, r: Reading): Item {
    Item(Parsed(lib, entry.answers), r.store + RemainingTtl(settings, entry, r.until), entry.origin, entry.filledAt,
         entry.lag + (r.store - r.until), entry.reloads + 1)
  }

  /** What loading one entry makes of the cache and the tracker. */
  function LoadOne(lib: Library, settings: Settings, c: Contents, entry: Entry, now: int, r: Reading): Contents {
    if Skipped(lib, settings, entry, now, r.until) then c
    else
      Contents(
        c.cache[entry.key := ItemOf(lib, settings, entry, r)],
        if settings.staleUpdater && entry.access.Some? then c.tracked[entry.key := entry.access.value] else c.tracked,
        c.loaded + 1)
  }

  /** Loading entries one after the other, each once. */
  function LoadAll(lib: Library, settings: Settings, c: Contents, entries: seq<Entry>, now: int,
                   clock: nat -> Reading): Contents
  {
    if entries == [] then c
    else
      var last := |entries| - 1;
      LoadOne(lib, settings, LoadAll(lib, settings, c, entries[..last], now, clock), entries[last], now, clock(last))
  }

  /** Loading a snapshot file: nothing happens unless it can be decoded and is young enough. */
  function LoadFile(lib: Library, settings: Settings, c: Contents, file: File, checkedAt: int, now: int,
                    clock: nat -> Reading): Contents
  {
    if settings.persistence && file.Readable? && checkedAt - file.snapshot.timestamp <= settings.maxAge then
      LoadAll(lib, settings, c, file.snapshot.entries, now, clock)
    else c
  }

  /** Exactly the items not in `todo` have been visited, each once. */
  ghost predicate Visited(order: seq<string>, todo: set<string>, items: map<string, Item>) {
    && Distinct(order)
    && (forall i :: 0 <= i < |order| ==> order[i] in items && order[i] !in todo)
    && (forall k :: k in items ==> k in todo || k in order)
  }

  lemma Visit(order: seq<string>, todo: set<string>, items: map<string, Item>, key: string)
    requires Visited(order, todo, items) && key in todo && key in items
    ensures Visited(order + [key], todo - {key}, items)
  {
    forall k | k in items ensures k in todo - {key} || k in order + [key] {}
  }

  lemma NothingVisited(lib: Library, settings: Settings, items: map<string, Item>, tracked: map<string, Info>, now: int)
    ensures Visited([], items.Keys, items)
    ensures SavedEntries(lib, settings, items, tracked, [], now) == Encoded([])
  {
  }

  datatype LoadResult = Done | ReadFailed | DecodeFailed

  function AccessIn(settings: Settings, tracked: map<string, Info>, key: string): Option<Info> {
    if settings.staleUpdater && key in tracked then Some(tracked[key]) else None
  }

  /** The snapshot entries of the unexpired items, in the order in which the keys are visited. */
  function SavedEntries(lib: Library, settings: Settings, items: map<string, Item>, tracked: map<string, Info>,
                        order: seq<string>, now: int): seq<Entry>
    requires forall i :: 0 <= i < |order| ==> order[i] in items
  {
    if order == [] then []
    else
      var key := order[|order| - 1];
      var before := SavedEntries(lib, settings, items, tracked, order[..|order| - 1], now);
      if Live(items[key], now) then before + [EntryOf(lib, key, items[key], AccessIn(settings, tracked, key))]
      else before
  }

  const BATCH_SIZE := 100

  /** The cache and the tracker of the running program, with the pools of slices the snapshot code reuses. */
  class Store {
    const lib: Library
    const settings: Settings
    const records: SlicePool<RR>
    const texts: SlicePool<string>
    var items: map<string, Held>
    var tracked: map<string, Info>

    /** No array the cache holds is waiting for reuse. */
    ghost predicate Valid()
      reads this, records
    {
      forall k :: k in items ==> items[k].answers !in records.free
    }

    ghost function HeldArrays(): set<array<RR>>
      reads this
    {
      set k | k in items :: items[k].answers
    }

    function Cache(): map<string, Item>
      reads this, set k | k in items :: items[k].answers
    {
      map k | k in items :: Read(items[k])
    }

    constructor (lib: Library, settings: Settings)
      ensures Valid() && fresh(records) && fresh(texts) && records.free == {} && texts.free == {}
      ensures this.lib == lib && this.settings == settings
      ensures Cache() == map[] && tracked == map[]
    {
      this.lib := lib;
      this.settings := settings;
      records := new SlicePool();
      texts := new SlicePool();
      items := map[];
      tracked := map[];
    }

    /** Parses the printed records, dropping those that do not parse. */
    method ParseInto(lines: seq<string>, start: Slice<RR>) returns (answers: Slice<RR>)
      requires start.Ok() && start.len == 0
      modifies start.backing
      ensures answers.Ok() && (answers.backing == start.backing || fresh(answers.backing))
      ensures answers.View() == Parsed(lib, lines)
    {
      answers := start;
      for i := 0 to |lines|
        invariant answers.Ok() && (answers.backing == start.backing || fresh(answers.backing))
        invariant answers.View() == Parsed(lib, lines[..i])
      {
        assert lines[..i + 1][..i] == lines[..i];
        match lib.parse(lines[i])
        case None =>
        case Some(rr) => answers := Append(answers, rr);
      }
      assert lines[..|lines|] == lines;
    }

    /** go-cache's Set, of a copy of the slice. */
    method SetCopy(key: string, answers: Slice<RR>, item: Item)
      requires Valid() && answers.Ok() && answers.View() == item.answers
      modifies this`items
      ensures Valid()
      ensures Cache() == old(Cache())[key := item]
      ensures key in items && fresh(items[key].answers)
      ensures items == old(items)[key := items[key]]
    {
      var cached := Copied(answers);
      items := items[key := Held(cached, item.expiration, item.origin, item.filledAt, item.lag, item.reloads)];
    }

    /** Stores the parsed records of an entry for what remains of its life, and restores its access information. */
    method StoreEntry(entry: Entry, answers: Slice<RR>, now: int, r: Reading, before: nat) returns (loaded: nat)
      requires Valid() && answers.Ok() && answers.View() == Parsed(lib, entry.answers) && !Expired(entry, now)
      modifies this
      ensures Valid()
      ensures Contents(Cache(), tracked, loaded)
              == LoadOne(lib, settings, Contents(old(Cache()), old(tracked), before), entry, now, r)
      ensures forall k :: k in items ==> (k in old(items) && items[k] == old(items[k])) || fresh(items[k].answers)
    {
      hide Expired, Parsed, RemainingTtl;
      loaded := before;
      if answers.len > 0 {
        var ttl := RemainingTtl(settings, entry, r.until);
        if entry.expiration.Some? && ttl <= 0 { return; }
        SetCopy(entry.key, answers, Item(answers.View(), r.store + ttl, entry.origin, entry.filledAt,
                                         entry.lag + (r.store - r.until), entry.reloads + 1));
        loaded := loaded + 1;
        if settings.staleUpdater && entry.access.Some? {
          tracked := tracked[entry.key := entry.access.value];
        }
      }
    }

    /** Parses into a slice from the pool. */
    method ParseLines(lines: seq<string>) returns (answers: Slice<RR>)
      requires Valid()
      modifies records, records.free
      ensures Valid() && answers.Ok() && answers.View() == Parsed(lib, lines)
      ensures answers.backing !in records.free && answers.backing !in HeldArrays()
      ensures answers.backing in old(records.free) || fresh(answers.backing)
      ensures Cache() == old(Cache())
      ensures forall a :: a in records.free ==> a in old(records.free)
    {
      var slice := records.Get();
      answers := ParseInto(lines, slice);
    }

    /** Loads one entry. The slice it works in comes from the pool and goes back there; the cache gets a copy. */
    method LoadEntry(entry: Entry, now: int, r: Reading, before: nat) returns (loaded: nat)
      requires Valid()
      modifies this, records, records.free
      ensures Valid()
      ensures Contents(Cache(), tracked, loaded)
              == LoadOne(lib, settings, Contents(old(Cache()), old(tracked), before), entry, now, r)
      ensures forall a :: a in old(HeldArrays()) ==> a[..] == old(a[..])
      ensures forall a :: a in records.free ==> a in old(records.free) || fresh(a)
    {
      hide RemainingTtl, Expired, Parsed;
      loaded := before;
      if Expired(entry, now) { return; }
      var answers := ParseLines(entry.answers);
      hide LoadOne;
      loaded := StoreEntry(entry, answers, now, r, before);
      records.Put(answers);
    }

    /** Loads the snapshot file in batches: every entry exactly once, in order. */
    method LoadCacheFromFile(file: File, checkedAt: int, now: int, clock: nat -> Reading)
      returns (result: LoadResult, loaded: nat)
      requires Valid()
      modifies this, records, records.free
      ensures Valid()
      ensures Contents(Cache(), tracked, loaded)
              == LoadFile(lib, settings, Contents(old(Cache()), old(tracked), 0), file, checkedAt, now, clock)
      ensures result == if !settings.persistence then Done
                        else match file
                          case Unreadable => ReadFailed
                          case Undecodable => DecodeFailed
                          case _ => Done
      ensures forall a :: a in old(HeldArrays()) ==> a[..] == old(a[..])
      ensures forall a :: a in records.free ==> a in old(records.free) || fresh(a)
    {
      loaded := 0;
      if !settings.persistence { return Done, 0; }
      match file
      case Missing => return Done, 0;
      case Unreadable => return ReadFailed, 0;
      case Undecodable => return DecodeFailed, 0;
      case Readable(snapshot) =>
        if checkedAt - snapshot.timestamp > settings.maxAge { return Done, 0; }
        loaded := LoadEntries(snapshot.entries, now, clock);
        return Done, loaded;
    }

    method LoadEntries(entries: seq<Entry>, now: int, clock: nat -> Reading) returns (loaded: nat)
      requires Valid()
      modifies this, records, records.free
      ensures Valid()
      ensures Contents(Cache(), tracked, loaded)
              == LoadAll(lib, settings, Contents(old(Cache()), old(tracked), 0), entries, now, clock)
      ensures forall a :: a in old(HeldArrays()) ==> a[..] == old(a[..])
      ensures forall a :: a in records.free ==> a in old(records.free) || fresh(a)
    {
      hide LoadOne;
      ghost var start := Contents(Cache(), tracked, 0);
      loaded := 0;
      var i := 0;
      assert entries[..0] == [];
      while i < |entries|
        invariant 0 <= i <= |entries| && Valid()
        invariant Contents(Cache(), tracked, loaded) == LoadAll(lib, settings, start, entries[..i], now, clock)
        invariant forall a :: a in old(HeldArrays()) ==> a !in records.free && a[..] == old(a[..])
        invariant forall a :: a in records.free ==> a in old(records.free) || fresh(a)
      {
        var end := if i + BATCH_SIZE > |entries| then |entries| else i + BATCH_SIZE;
        var batch := entries[i..end];
        for j := 0 to |batch|
          invariant Valid()
          invariant Contents(Cache(), tracked, loaded) == LoadAll(lib, settings, start, entries[..i + j], now, clock)
          invariant forall a :: a in old(HeldArrays()) ==> a !in records.free && a[..] == old(a[..])
          invariant forall a :: a in records.free ==> a in old(records.free) || fresh(a)
        {
          assert entries[..i + j + 1][..i + j] == entries[..i + j];
          loaded := LoadEntry(batch[j], now, clock(i + j), loaded);
        }
        i := end;
      }
      assert entries[..i] == entries;
    }

    method PrintInto(answers: array<RR>, start: Slice<string>) returns (lines: Slice<string>)
      requires start.Ok() && start.len == 0
      modifies start.backing
      ensures lines.Ok() && (lines.backing == start.backing || fresh(lines.backing))
      ensures lines.View() == Printed(lib, answers[..])
    {
      lines := start;
      for i := 0 to answers.Length
        invariant lines.Ok() && (lines.backing == start.backing || fresh(lines.backing))
        invariant lines.View() == Printed(lib, answers[..i])
      {
        lines := Append(lines, lib.format(answers[i]));
      }
      assert answers[..answers.Length] == answers[..];
    }

    /** Prints the records into a slice from the pool, and returns a copy of it. */
    method PrintedCopy(answers: array<RR>) returns (lines: array<string>)
      modifies texts, texts.free
      ensures fresh(lines) && lines[..] == Printed(lib, answers[..]) && lines !in texts.free
      ensures forall a :: a in texts.free ==> a in old(texts.free) || fresh(a)
    {
      var slice := texts.Get();
      var printed := PrintInto(answers, slice);
      lines := Copied(printed);
      texts.Put(printed);
    }

    /** Saves the unexpired items, each once, in some order of the keys. */
    method SaveCacheToFile(listedAt: int, now: int) returns (file: Option<Snapshot>, ghost order: seq<string>)
      modifies texts, texts.free
      ensures settings.persistence ==>
                && Visited(order, {}, LiveItems(Cache(), listedAt))
                && file == Some(Snapshot(
                     SavedEntries(lib, settings, LiveItems(Cache(), listedAt), tracked, order, now), now))
      ensures !settings.persistence ==> file == None
      ensures forall a :: a in texts.free ==> a in old(texts.free) || fresh(a)
    {
      order := [];
      if !settings.persistence { return None, []; }
      var live := LiveItems(Cache(), listedAt);
      ListedAreHeld(listedAt);
      hide LiveItems, Live, SavedEntries, Encoded, Visited;
      var lines;
      lines, order := SaveItems(live.Keys, now, live);
      assert Cache() == old(Cache());
      file := Some(Snapshot(Encoded(lines), now));
    }

    lemma ListedAreHeld(now: int)
      ensures forall k :: k in LiveItems(Cache(), now) ==> k in items && LiveItems(Cache(), now)[k] == Read(items[k])
    {
    }

    method SaveItems(keys: set<string>, now: int, ghost live: map<string, Item>)
      returns (lines: seq<Line>, ghost order: seq<string>)
      requires keys == live.Keys && forall k :: k in keys ==> k in items && live[k] == Read(items[k])
      modifies texts, texts.free
      ensures Visited(order, {}, live)
      ensures Encoded(lines) == SavedEntries(lib, settings, live, tracked, order, now)
      ensures forall a :: a in texts.free ==> a in old(texts.free) || fresh(a)
    {
      lines, order := [], [];
      var todo := keys;
      NothingVisited(lib, settings, live, tracked, now);
      hide SavedEntries, Encoded, Visited;
      while todo != {}
        invariant todo <= keys && Visited(order, todo, live)
        invariant Unpooled(lines) && forall l :: l in lines ==> fresh(l.answers)
        invariant forall i :: 0 <= i < |order| ==> order[i] in live
        invariant Encoded(lines) == SavedEntries(lib, settings, live, tracked, order, now)
        invariant forall a :: a in texts.free ==> a in old(texts.free) || fresh(a)
      {
        var key :| key in todo;
        Visit(order, todo, live, key);
        assert live[key] == Read(items[key]);
        lines := SaveItem(key, now, lines, live, order);
        todo := todo - {key};
        order := order + [key];
      }
    }

    ghost predicate Unpooled(lines: seq<Line>)
      reads texts
    {
      forall l :: l in lines ==> l.answers !in texts.free
    }

    method SaveItem(key: string, now: int, lines: seq<Line>, ghost live: map<string, Item>, ghost order: seq<string>)
      returns (lines': seq<Line>)
      requires key in items && key in live && live[key] == Read(items[key]) && Unpooled(lines)
      requires forall i :: 0 <= i < |order| ==> order[i] in live
      requires Encoded(lines) == SavedEntries(lib, settings, live, tracked, order, now)
      modifies texts, texts.free
      ensures Encoded(lines') == SavedEntries(lib, settings, live, tracked, order + [key], now)
      ensures Unpooled(lines')
      ensures forall l :: l in lines' ==> l in lines || fresh(l.answers)
      ensures forall a :: a in texts.free ==> a in old(texts.free) || fresh(a)
    {
      assert (order + [key])[..|order|] == order;
      lines' := lines;
      if Live(Read(items[key]), now) {
        lines' := SaveLine(key, lines);
      }
    }

    /** Adds the line of one item. */
    method SaveLine(key: string, lines: seq<Line>) returns (lines': seq<Line>)
      requires key in items && Unpooled(lines)
      modifies texts, texts.free
      ensures Encoded(lines')
              == old(Encoded(lines))
                 + [EntryOf(lib, key, old(Read(items[key])), AccessIn(settings, tracked, key))]
      ensures Unpooled(lines')
      ensures forall l :: l in lines' ==> l in lines || fresh(l.answers)
      ensures forall a :: a in texts.free ==> a in old(texts.free) || fresh(a)
    {
      var held := items[key];
      var printed := PrintedCopy(held.answers);
      assert Encoded(lines) == old(Encoded(lines));
      lines' := lines + [Line(key, printed, if held.expiration > 0 then Some(held.expiration) else None,
                              AccessIn(settings, tracked, key), held.origin, held.filledAt, held.lag,
                              held.reloads)];
      assert lines'[..|lines|] == lines;
    }
  }
}
