/** The data of the cache package: the answer cache, the access tracker and the snapshot file (cache/). Times are
    nanoseconds since the epoch. */
module CacheState {
  import opened Options
  import opened Dns
  import opened CacheKeys
  import opened CacheTtl

  /** The DNS library: completing a name, printing a record, parsing one back. */
  datatype Library = Library(fqdn: string -> string, format: RR -> string, parse: string -> Option<RR>)

  /** Reading back a printed record gives one that prints the same, though not always the same value: the library keeps
      an IPv4 address in four bytes or in sixteen, and prints both alike. */
  ghost predicate PrintsAgain(lib: Library, rr: RR) {
    var back := lib.parse(lib.format(rr));
    back.Some? && lib.format(back.value) == lib.format(rr)
  }

  datatype Settings = Settings(
    defaultTtl: int,
    staleUpdater: bool,
    staleThreshold: int,
    minAccessCount: int,
    maxConcurrent: nat,
    persistence: bool,
    maxAge: int)

  /** What validation of the configuration establishes. */
  predicate Validated(settings: Settings) {
    && MIN_CACHE_TTL <= settings.defaultTtl <= MAX_CACHE_TTL
    && (settings.staleUpdater ==>
          settings.staleThreshold > 0 && settings.minAccessCount > 0 && settings.maxConcurrent > 0)
  }

  function Key(lib: Library, domain: string, qtype: Uint16): string {
    CacheKey(lib.fqdn, domain, qtype)
  }

  /** A question and what resolving it returned. */
  datatype Answer = Answer(domain: string, qtype: Uint16, records: seq<RR>)

  /** A cached answer. History: `origin` is the resolution it came from, `filledAt` when that was stored, `reloads` how
      often it has been saved and loaded since, and `lag` how much later than computed those reloads have stored it. */
  datatype Item = Item(answers: seq<RR>, expiration: int, origin: Answer, filledAt: int, lag: int, reloads: nat)

  /** go-cache's Get and Items: an expiration of zero or less means none. */
  predicate Live(item: Item, now: int) {
    item.expiration <= 0 || now <= item.expiration
  }

  function LiveItems(cache: map<string, Item>, now: int): map<string, Item> {
    map k | k in cache && Live(cache[k], now) :: cache[k]
  }

  /** An item with an expiration is live until then, that moment included. */
  lemma LiveIff(item: Item, now: int)
    ensures 0 < item.expiration ==> (Live(item, now) <==> now <= item.expiration)
    ensures item.expiration <= 0 ==> Live(item, now)
  {
  }

  /** An AccessInfo. */
  datatype Info = Info(domain: string, qtype: Uint16, count: int, lastAccess: int, firstAccess: int)

  /** A line of the snapshot; `expiration` is None for Go's zero time. */
  datatype Entry = Entry(
    key: string,
    answers: seq<string>,
    expiration: Option<int>,
    access: Option<Info>,
    origin: Answer,
    filledAt: int,
    lag: int,
    reloads: nat)

  datatype Snapshot = Snapshot(entries: seq<Entry>, timestamp: int)

  function Printed(lib: Library, answers: seq<RR>): seq<string> {
    seq(|answers|, i requires 0 <= i < |answers| => lib.format(answers[i]))
  }

  /** The records that parse, in order. */
  function Parsed(lib: Library, lines: seq<string>): seq<RR> {
    if lines == [] then []
    else
      Parsed(lib, lines[..|lines| - 1]) +
      match lib.parse(lines[|lines| - 1]) case Some(rr) => [rr] case None => []
  }

  /** What one save and reload makes of records. */
  function Reparsed(lib: Library, answers: seq<RR>): seq<RR> {
    Parsed(lib, Printed(lib, answers))
  }

  /** What n of them make. */
  function Rounds(lib: Library, answers: seq<RR>, n: nat): seq<RR> {
    if n == 0 then answers else Reparsed(lib, Rounds(lib, answers, n - 1))
  }

  /** Records that print again all come back, one for one. */
  lemma {:induction false} ReparsedEach(lib: Library, answers: seq<RR>)
    requires forall i :: 0 <= i < |answers| ==> PrintsAgain(lib, answers[i])
    ensures |Reparsed(lib, answers)| == |answers|
    ensures forall i :: 0 <= i < |answers| ==> lib.parse(lib.format(answers[i])) == Some(Reparsed(lib, answers)[i])
  {
    if answers != [] {
      var n := |answers| - 1;
      ReparsedEach(lib, answers[..n]);
      assert Printed(lib, answers)[..n] == Printed(lib, answers[..n]);
      assert Reparsed(lib, answers)
             == Reparsed(lib, answers[..n]) + [lib.parse(lib.format(answers[n])).value];
    }
  }

  /** Records that print again lose nothing: any number of saves and reloads leaves the same records in print, and after
      the first one the same values. */
  lemma {:induction false} RoundsPrintAlike(lib: Library, answers: seq<RR>, n: nat)
    requires forall i :: 0 <= i < |answers| ==> PrintsAgain(lib, answers[i])
    ensures Printed(lib, Rounds(lib, answers, n)) == Printed(lib, answers)
    ensures n > 0 ==> Rounds(lib, answers, n) == Reparsed(lib, answers)
  {
    if n > 0 {
      RoundsPrintAlike(lib, answers, n - 1);
      ReparsedEach(lib, answers);
      assert Printed(lib, Reparsed(lib, answers)) == Printed(lib, answers);
    }
  }

  /** Records in the form the parser gives come back as they are. */
  lemma {:induction false} CanonicalComeBack(lib: Library, answers: seq<RR>, n: nat)
    requires forall i :: 0 <= i < |answers| ==> lib.parse(lib.format(answers[i])) == Some(answers[i])
    ensures Rounds(lib, answers, n) == answers
  {
    if n > 0 {
      CanonicalComeBack(lib, answers, n - 1);
      ReparsedEach(lib, answers);
    }
  }

  /** The snapshot entry of an item. */
  function EntryOf(lib: Library, key: string, item: Item, access: Option<Info>): Entry {
    Entry(key, Printed(lib, item.answers), if item.expiration > 0 then Some(item.expiration) else None, access,
          item.origin, item.filledAt, item.lag, item.reloads)
  }

  /** The remaining life a reloaded entry is given at clock reading `now`. */
  function RemainingTtl(settings: Settings, entry: Entry, now: int): int {
    match entry.expiration
    case None => settings.defaultTtl
    case Some(expiration) => expiration - now
  }

  predicate Expired(entry: Entry, now: int) {
    entry.expiration.Some? && now > entry.expiration.value
  }
}
