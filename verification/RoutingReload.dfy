/** Publishing and reloading the routing table (domainrouting/domainrouting.go, InitializeDomainRouting). */
module RoutingReload {
  import opened Options
  import opened Machine
  import opened Text
  import opened DomainRouting
  import opened RoutingLoader

  datatype Entry = Entry(name: string, isDir: bool, file: File)

  /** The routing folder at the time of a load. */
  datatype Folder = NoFolder | Folder(entries: seq<Entry>)

  function TxtFiles(entries: seq<Entry>): seq<File> {
    if entries == [] then []
    else (if !entries[0].isDir && HasSuffix(entries[0].name, ".txt") then [entries[0].file] else [])
         + TxtFiles(entries[1..])
  }

  function Messages(net: Net, files: seq<File>): seq<Message> {
    seq(|files|, i requires 0 <= i < |files| => FileMessage(net, files[i]))
  }

  /** What one call of loadRoutingTable on a folder may return: None is an error. */
  ghost predicate LoadOutcome(net: Net, folder: Folder, outcome: Option<map<string, string>>) {
    if folder.NoFolder? || TxtFiles(folder.entries) == [] then outcome.None?
    else
      exists s ::
        && Reachable(Step, Start(Messages(net, TxtFiles(folder.entries))), s)
        && s.collector.Returned?
        && outcome == Outcome(s.collector.result)
  }

  function Outcome(r: LoadResult): Option<map<string, string>> {
    if r.Loaded? then Some(r.table) else None
  }

  /** Every table a load returns holds only routes in normal form. */
  lemma LoadedTableIsNormal(net: Net, folder: Folder, outcome: Option<map<string, string>>)
    requires LoadOutcome(net, folder, outcome) && outcome.Some?
    ensures NormalTable(net, outcome.value)
  {
    var files := TxtFiles(folder.entries);
    var messages := Messages(net, files);
    var s :| Reachable(Step, Start(messages), s) && s.collector.Returned? && outcome == Outcome(s.collector.result);
    forall d | d in outcome.value
      ensures InNormalForm(net, Route(d, outcome.value[d]))
    {
      LoadedEntries(messages, s, d);
      var i :| 0 <= i < |messages| && messages[i].Table? && d in messages[i].table
               && outcome.value[d] == messages[i].table[d];
      FileTableIsNormal(net, files[i].lines);
    }
  }

  /** The domain is set by line j of file i, and by no later line of that file. */
  ghost predicate DecidedBy(net: Net, files: seq<File>, i: nat, j: nat, d: string) {
    i < |files| && files[i].File? && LastSets(net, files[i].lines, j, d)
  }

  /** A loaded table has exactly the domains that some line of some routing file sets, and gives each the server of the
      last line that sets it in one of the files; in every schedule. */
  lemma LoadedTableIsLastValid(net: Net, folder: Folder, outcome: Option<map<string, string>>, d: string)
    requires LoadOutcome(net, folder, outcome) && outcome.Some?
    ensures d in outcome.value <==>
            exists i, j :: 0 <= i < |TxtFiles(folder.entries)| && TxtFiles(folder.entries)[i].File?
              && 0 <= j < |TxtFiles(folder.entries)[i].lines| && Sets(net, TxtFiles(folder.entries)[i].lines[j], d)
    ensures d in outcome.value ==>
              exists i: nat, j: nat :: DecidedBy(net, TxtFiles(folder.entries), i, j, d)
                && outcome.value[d] == ProcessLine(net, TxtFiles(folder.entries)[i].lines[j]).value.ip
  {
    var files := TxtFiles(folder.entries);
    var messages := Messages(net, files);
    hide TxtFiles, FileTable, ProcessLine, Sets, Step;
    var s :| Reachable(Step, Start(messages), s) && s.collector.Returned? && outcome == Outcome(s.collector.result);
    LoadedEntries(messages, s, d);
    ErrorsYieldNoTable(messages, s);
    if d in outcome.value {
      var i :| 0 <= i < |messages| && messages[i].Table? && d in messages[i].table
               && outcome.value[d] == messages[i].table[d];
      var j := SomeLineDecides(net, files[i].lines, d);
      assert DecidedBy(net, files, i, j, d);
    }
    if i, j :| 0 <= i < |files| && files[i].File? && 0 <= j < |files[i].lines| && Sets(net, files[i].lines[j], d) {
      LastLineWins(net, files[i].lines, d);
      assert messages[i].Table? && d in messages[i].table;
    }
  }

  /** A routing file of the folder: not a directory, and named with the suffix .txt. */
  ghost predicate IsRoutingFile(entry: Entry) {
    !entry.isDir && |entry.name| >= 4 && entry.name[|entry.name| - 4..] == ".txt"
  }

  lemma TxtFilesCons(entries: seq<Entry>)
    requires entries != []
    ensures TxtFiles(entries)
            == (if IsRoutingFile(entries[0]) then [entries[0].file] else []) + TxtFiles(entries[1..])
  {
  }

  lemma RoutingFilesCons(entries: seq<Entry>, f: File)
    requires entries != []
    ensures (exists i :: 0 <= i < |entries| && IsRoutingFile(entries[i]) && entries[i].file == f) <==>
            || (IsRoutingFile(entries[0]) && entries[0].file == f)
            || (exists i :: 0 <= i < |entries[1..]| && IsRoutingFile(entries[1..][i]) && entries[1..][i].file == f)
  {
    hide IsRoutingFile;
    if i :| 0 <= i < |entries| && IsRoutingFile(entries[i]) && entries[i].file == f {
      if i > 0 { assert entries[1..][i - 1] == entries[i]; }
    }
    if i :| 0 <= i < |entries[1..]| && IsRoutingFile(entries[1..][i]) && entries[1..][i].file == f {
      assert entries[i + 1] == entries[1..][i];
    }
  }

  /** The files read are exactly the routing files, each once. */
  lemma {:induction false} TxtFilesAre(entries: seq<Entry>)
    ensures forall f :: f in TxtFiles(entries) <==>
              exists i :: 0 <= i < |entries| && IsRoutingFile(entries[i]) && entries[i].file == f
    ensures forall f :: multiset(TxtFiles(entries))[f] == RoutingFileCount(entries, f)
  {
    if entries != [] {
      TxtFilesAre(entries[1..]);
      TxtFilesCons(entries);
      forall f
        ensures f in TxtFiles(entries) <==>
                exists i :: 0 <= i < |entries| && IsRoutingFile(entries[i]) && entries[i].file == f
      {
        RoutingFilesCons(entries, f);
        hide TxtFiles, IsRoutingFile;
      }
      hide TxtFiles, IsRoutingFile;
    }
  }

  ghost function RoutingFileCount(entries: seq<Entry>, f: File): nat {
    if entries == [] then 0
    else (if IsRoutingFile(entries[0]) && entries[0].file == f then 1 else 0) + RoutingFileCount(entries[1..], f)
  }

  /** The line sets the domain, and no later line of its file does. */
  ghost predicate Decides(net: Net, entries: seq<Entry>, i: nat, j: nat, d: string) {
    && i < |entries| && IsRoutingFile(entries[i]) && entries[i].file.File?
    && LastSets(net, entries[i].file.lines, j, d)
  }

  /** The same of the folder itself: a load succeeds exactly if the folder can be read, has a routing file, and all of
      its routing files can be read; and then the table has exactly the domains that some line of one of them sets, each
      with the server of the last line that sets it in one of them. */
  lemma TableOfFolder(net: Net, folder: Folder, outcome: Option<map<string, string>>, d: string)
    requires LoadOutcome(net, folder, outcome)
    ensures outcome.Some? <==>
            && folder.Folder? && (exists i :: 0 <= i < |folder.entries| && IsRoutingFile(folder.entries[i]))
            && forall i :: 0 <= i < |folder.entries| && IsRoutingFile(folder.entries[i]) ==>
                 folder.entries[i].file.File? && !folder.entries[i].file.readError
    ensures outcome.Some? ==>
              (d in outcome.value <==> exists i: nat, j: nat :: Decides(net, folder.entries, i, j, d))
    ensures outcome.Some? && d in outcome.value ==>
              exists i: nat, j: nat :: Decides(net, folder.entries, i, j, d)
                && outcome.value[d] == ProcessLine(net, folder.entries[i].file.lines[j]).value.ip
  {
    hide TxtFiles, ProcessLine, IsRoutingFile, FileTable, Decides;
    if folder.Folder? {
      var entries := folder.entries;
      LoadSucceedsIff(net, folder, outcome);
      if outcome.Some? {
        LoadedTableIsLastValid(net, folder, outcome, d);
        var files := TxtFiles(entries);
        hide LoadOutcome;
        if d in outcome.value {
          var i: nat, j: nat :| DecidedBy(net, files, i, j, d)
                                && outcome.value[d] == ProcessLine(net, files[i].lines[j]).value.ip;
          var k := EntryOfFile(net, entries, i, j, d);
        }
        if i: nat, j: nat :| Decides(net, entries, i, j, d) {
          var k := FileOfEntry(net, entries, i, j, d);
        }
      }
    }
  }

  lemma EntryOfFile(net: Net, entries: seq<Entry>, i: nat, j: nat, d: string) returns (k: nat)
    requires DecidedBy(net, TxtFiles(entries), i, j, d)
    ensures Decides(net, entries, k, j, d) && k < |entries| && entries[k].file == TxtFiles(entries)[i]
  {
    TxtFilesAre(entries);
    var files := TxtFiles(entries);
    hide TxtFiles, IsRoutingFile, LastSets;
    assert files[i] in files;
    k :| 0 <= k < |entries| && IsRoutingFile(entries[k]) && entries[k].file == files[i];
  }

  lemma FileOfEntry(net: Net, entries: seq<Entry>, i: nat, j: nat, d: string) returns (k: nat)
    requires Decides(net, entries, i, j, d)
    ensures k < |TxtFiles(entries)| && TxtFiles(entries)[k].File?
    ensures j < |TxtFiles(entries)[k].lines| && Sets(net, TxtFiles(entries)[k].lines[j], d)
  {
    TxtFilesAre(entries);
    var files := TxtFiles(entries);
    LastSetsSets(net, entries[i].file.lines, j, d);
    hide TxtFiles, IsRoutingFile, LastSets, Sets;
    assert entries[i].file in files;
    k :| 0 <= k < |files| && files[k] == entries[i].file;
  }

  lemma LastSetsSets(net: Net, lines: seq<string>, j: nat, d: string)
    requires LastSets(net, lines, j, d)
    ensures j < |lines| && Sets(net, lines[j], d)
  {
  }

  lemma LoadSucceedsIff(net: Net, folder: Folder, outcome: Option<map<string, string>>)
    requires LoadOutcome(net, folder, outcome) && folder.Folder?
    ensures outcome.Some? <==>
            && (exists i :: 0 <= i < |folder.entries| && IsRoutingFile(folder.entries[i]))
            && forall i :: 0 <= i < |folder.entries| && IsRoutingFile(folder.entries[i]) ==>
                 folder.entries[i].file.File? && !folder.entries[i].file.readError
  {
    var entries, files := folder.entries, TxtFiles(folder.entries);
    var messages := Messages(net, files);
    TxtFilesAre(entries);
    hide TxtFiles, FileTable, IsRoutingFile, Step;
    if files == [] {
      forall i | 0 <= i < |entries| ensures !IsRoutingFile(entries[i]) { assert entries[i].file !in files; }
    } else {
      var s :| Reachable(Step, Start(messages), s) && s.collector.Returned? && outcome == Outcome(s.collector.result);
      ErrorsYieldNoTable(messages, s);
      assert files[0] in files;
      if AnyFailure(messages) {
        var i :| 0 <= i < |messages| && messages[i].Failure?;
        assert files[i] in files;
      }
      forall i | 0 <= i < |entries| && IsRoutingFile(entries[i])
        ensures !AnyFailure(messages) ==> entries[i].file.File? && !entries[i].file.readError
      {
        assert entries[i].file in files;
        var k :| 0 <= k < |files| && files[k] == entries[i].file;
        assert messages[k] == FileMessage(net, files[k]);
      }
    }
  }

  /** The published table over the life of the program. */
  datatype Routing = Unstarted | Disabled | Serving(table: map<string, string>)

  ghost predicate Usable(outcome: Option<map<string, string>>) {
    outcome.Some? && outcome.value != map[]
  }

  /** What the whole sequence of loads leaves published: the first load decides whether routing starts at all,
      and afterwards the latest usable load is the one served. */
  ghost predicate Published(loads: seq<Option<map<string, string>>>, routing: Routing) {
    match routing
    case Unstarted => loads == []
    case Disabled => loads != [] && !Usable(loads[0])
    case Serving(t) =>
      && loads != [] && Usable(loads[0])
      && exists i :: LatestUsable(loads, i, t)
  }

  ghost predicate LatestUsable(loads: seq<Option<map<string, string>>>, i: int, table: map<string, string>) {
    && 0 <= i < |loads| && loads[i] == Some(table) && Usable(loads[i])
    && forall j :: i < j < |loads| ==> !Usable(loads[j])
  }

  class DomainRouter {
    var routing: Routing
    /** The outcome of every load so far. */
    ghost var loads: seq<Option<map<string, string>>>

    ghost predicate Valid()
      reads this
    {
      Published(loads, routing)
    }

    constructor ()
      ensures Valid() && routing == Unstarted && loads == []
    {
      routing := Unstarted;
      loads := [];
    }

    /** The initial load of InitializeDomainRouting. */
    method Initialize(outcome: Option<map<string, string>>)
      requires Valid() && routing == Unstarted
      modifies this
      ensures Valid() && loads == [outcome] && routing != Unstarted
    {
      loads := [outcome];
      assert Usable(outcome) ==> LatestUsable(loads, 0, outcome.value);
      if outcome.None? {
        routing := Disabled;
        return;
      }
      if |outcome.value| == 0 {
        routing := Disabled;
        return;
      }
      routing := Serving(outcome.value);
    }

    /** One tick of the reload loop. */
    method Reload(outcome: Option<map<string, string>>)
      requires Valid() && routing.Serving?
      modifies this
      ensures Valid() && loads == old(loads) + [outcome] && routing.Serving?
      ensures !Usable(outcome) ==> routing == old(routing)
    {
      ghost var last :| LatestUsable(loads, last, routing.table);
      loads := loads + [outcome];
      assert !Usable(outcome) ==> LatestUsable(loads, last, routing.table);
      assert Usable(outcome) ==> LatestUsable(loads, |loads| - 1, outcome.value);
      if outcome.None? {
        return;
      }
      if |outcome.value| == 0 {
        return;
      }
      routing := Serving(outcome.value);
    }

    method LookupDomain(domain: string) returns (server: Option<string>)
      ensures server.Some? <==> routing.Serving? && domain in routing.table
      ensures server.Some? ==> server.value == routing.table[domain]
    {
      if routing.Serving? && domain in routing.table {
        return Some(routing.table[domain]);
      }
      return None;
    }
  }

  /** However often and with whatever folder contents the table is reloaded, a served table is non-empty and
      holds only routes in normal form. */
  lemma ServedTableIsNormal(net: Net, folders: seq<Folder>, loads: seq<Option<map<string, string>>>, routing: Routing)
    requires |loads| == |folders| && forall i :: 0 <= i < |loads| ==> LoadOutcome(net, folders[i], loads[i])
    requires Published(loads, routing) && routing.Serving?
    ensures routing.table != map[] && NormalTable(net, routing.table)
  {
    var i :| LatestUsable(loads, i, routing.table);
    LoadedTableIsNormal(net, folders[i], loads[i]);
  }
}
