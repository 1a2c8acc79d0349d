/** Routing files (domainrouting/domainrouting.go): the line parser and the loading of one file. */
module DomainRouting {
  import opened Options
  import opened Text

  /** What the parser asks of Go's `net` package; the results below hold for any such functions. */
  datatype Net = Net(splitHostPort: string -> Option<(string, string)>, parsesAsIP: string -> bool)

  datatype Route = Route(domain: string, ip: string)

  const MAX_DOMAIN_BYTES := 253

  predicate ValidateDomain(domain: string) {
    domain != "" && ByteLen(domain) <= MAX_DOMAIN_BYTES && '.' in domain
  }

  predicate ValidateIPPort(net: Net, address: string) {
    match net.splitHostPort(address)
    case None => false
    case Some((host, port)) => port == "53" && net.parsesAsIP(host)
  }

  function WithDot(domain: string): string {
    if HasSuffix(domain, ".") then domain else domain + "."
  }

  function WithPort(ip: string): string {
    if ':' !in ip then ip + ":53"
    else if Contains(ip, "::") && !HasPrefix(ip, "[") then "[" + ip + "]:53"
    else ip
  }

  /** `processLine`. */
  function ProcessLine(net: Net, text: string): Option<Route> {
    var line := Trim(text);
    if line == "" || HasPrefix(line, "#") then None else
    var parts := Split(line, '/');
    if |parts| < 3 then None else
    var domain, ip := Trim(parts[1]), Trim(parts[2]);
    if domain == "" || ip == "" then None else
    var fqdn, server := WithDot(domain), WithPort(ip);
    if !ValidateDomain(fqdn) || !ValidateIPPort(net, server) then None
    else Some(Route(fqdn, server))
  }

  /** The line a route is written as in normal form. */
  function RouteLine(r: Route): string {
    "/" + r.domain + "/" + r.ip
  }

  /** A route in normal form: its own line is accepted and yields it. */
  predicate InNormalForm(net: Net, r: Route) {
    ProcessLine(net, RouteLine(r)) == Some(r)
  }

  predicate Field(s: string) {
    s != "" && Trimmed(s) && '/' !in s
  }

  lemma WithDotOfField(domain: string)
    requires Field(domain)
    ensures Field(WithDot(domain)) && WithDot(WithDot(domain)) == WithDot(domain)
    ensures '.' in WithDot(domain)
  {
    var d := WithDot(domain);
    assert d[|d| - 1] == '.';
  }

  lemma SingleColonHasNoPair(ip: string)
    requires ':' !in ip
    ensures !Contains(ip + ":53", "::")
  {
    var s := ip + ":53";
    forall i | 0 <= i <= |s| - 2
      ensures !OccursAt(s, "::", i)
    {
      assert s[i] != ':' || s[i + 1] != ':';
      assert s[i..i + 2][0] == s[i] && s[i..i + 2][1] == s[i + 1];
    }
  }

  lemma WithPortOfField(ip: string)
    requires Field(ip)
    ensures Field(WithPort(ip)) && WithPort(WithPort(ip)) == WithPort(ip)
  {
    var s := WithPort(ip);
    if ':' !in ip {
      SingleColonHasNoPair(ip);
      assert s[|ip|] == ':';
    } else if s != ip {
      assert s == "[" + ip + "]:53" && s[0] == '[' && s[|s| - 1] == '3';
      assert s[|ip| + 2] == ':';
    }
  }

  lemma PartsAreFields(line: string, i: nat)
    requires i < |Split(line, '/')|
    ensures var p := Trim(Split(line, '/')[i]); p != "" ==> Field(p)
  {
    SplitPiecesHaveNoSeparator(line, '/');
    assert Split(line, '/')[i] in Split(line, '/');
    TrimIsTrimmed(Split(line, '/')[i]);
  }

  /** The exact condition for accepting a line. The dot test of `validateDomain` never rejects a line, because the
      trailing dot has been added by then: only the length and the address can. */
  lemma AcceptedLines(net: Net, text: string)
    ensures var line := Trim(text);
            var parts := Split(line, '/');
            ProcessLine(net, text).Some? <==>
            && line != "" && line[0] != '#'
            && |parts| >= 3 && Trim(parts[1]) != "" && Trim(parts[2]) != ""
            && ByteLen(WithDot(Trim(parts[1]))) <= MAX_DOMAIN_BYTES
            && ValidateIPPort(net, WithPort(Trim(parts[2])))
  {
    var line := Trim(text);
    var parts := Split(line, '/');
    if |parts| >= 3 && Trim(parts[1]) != "" {
      PartsAreFields(line, 1);
      WithDotOfField(Trim(parts[1]));
    }
  }

  /** Two adjacent colons. */
  ghost predicate HasColonPair(s: string) {
    exists i :: 0 <= i < |s| - 1 && s[i] == ':' && s[i + 1] == ':'
  }

  lemma ColonPairIff(s: string)
    ensures Contains(s, "::") <==> HasColonPair(s)
  {
    forall i | 0 <= i < |s| - 1
      ensures OccursAt(s, "::", i) <==> s[i] == ':' && s[i + 1] == ':'
    {
      assert s[i..i + 2] == [s[i], s[i + 1]];
    }
    if HasColonPair(s) {
      var i :| 0 <= i < |s| - 1 && s[i] == ':' && s[i + 1] == ':';
      assert OccursAt(s, "::", i);
    }
    if Contains(s, "::") {
      var i :| 0 <= i <= |s| - |"::"| && OccursAt(s, "::", i);
      assert s[i] == ':' && s[i + 1] == ':';
    }
  }

  /** The route of an accepted line, from its second and third field, trimmed: the domain with a dot behind it unless it
      ends with one; the address with port 53 unless it names a port, in brackets if it is a bare IPv6 address. And when
      a line with such fields is accepted: if the completed domain has at most 253 bytes, and the completed address
      splits into a host that is an IP address and port 53. */
  lemma RouteOfLine(net: Net, text: string)
    requires Trim(text) != "" && Trim(text)[0] != '#' && |Split(Trim(text), '/')| >= 3
    ensures var d, a := Trim(Split(Trim(text), '/')[1]), Trim(Split(Trim(text), '/')[2]);
            if d == "" || a == "" then ProcessLine(net, text) == None
            else
              var domain := if d[|d| - 1] == '.' then d else d + ".";
              var server := if ':' !in a then a + ":53"
                            else if HasColonPair(a) && a[0] != '[' then "[" + a + "]:53"
                            else a;
              var split := net.splitHostPort(server);
              ProcessLine(net, text)
              == if ByteLen(domain) <= 253 && split.Some? && split.value.1 == "53" && net.parsesAsIP(split.value.0)
                 then Some(Route(domain, server)) else None
  {
    var d, a := Trim(Split(Trim(text), '/')[1]), Trim(Split(Trim(text), '/')[2]);
    if d != "" && a != "" {
      PartsAreFields(Trim(text), 1);
      WithDotOfField(d);
      ColonPairIff(a);
      assert HasSuffix(d, ".") <==> d[|d| - 1] == '.' by { assert d[|d| - 1..] == [d[|d| - 1]]; }
      hide Trim, Split, Contains, ByteLen, HasColonPair;
    }
  }

  /** Blank lines, comments, and lines with fewer than two slashes give no route. */
  lemma OtherLinesIgnored(net: Net, text: string)
    requires Trim(text) == "" || Trim(text)[0] == '#' || |Split(Trim(text), '/')| < 3
    ensures ProcessLine(net, text) == None
  {
    hide Trim, Split;
  }

  lemma RouteLineParts(domain: string, ip: string)
    requires Field(domain) && Field(ip)
    ensures Trim(RouteLine(Route(domain, ip))) == RouteLine(Route(domain, ip))
    ensures Split(RouteLine(Route(domain, ip)), '/') == ["", domain, ip]
  {
    var line := RouteLine(Route(domain, ip));
    assert line[|line| - 1] == ip[|ip| - 1];
    TrimOfTrimmed(line);
    assert line == "" + ['/'] + (domain + ['/'] + ip);
    SplitAtSeparator("", domain + ['/'] + ip, '/');
    SplitAtSeparator(domain, ip, '/');
    SplitWithoutSeparator(ip, '/');
  }

  /** Every accepted line yields a route in normal form. */
  lemma RouteReachesNormalForm(net: Net, text: string)
    requires ProcessLine(net, text).Some?
    ensures InNormalForm(net, ProcessLine(net, text).value)
  {
    hide Trim, Split, TrimLeft, TrimRight;
    var parts := Split(Trim(text), '/');
    PartsAreFields(Trim(text), 1);
    PartsAreFields(Trim(text), 2);
    var domain, ip := Trim(parts[1]), Trim(parts[2]);
    WithDotOfField(domain);
    WithPortOfField(ip);
    var fqdn, server := WithDot(domain), WithPort(ip);
    RouteLineParts(fqdn, server);
    TrimOfTrimmed(fqdn);
    TrimOfTrimmed(server);
    assert RouteLine(Route(fqdn, server))[0] == '/';
  }

  /** The table a file's lines describe: later lines replace earlier ones. */
  function FileTable(net: Net, lines: seq<string>): map<string, string> {
    if lines == [] then map[]
    else
      var front := FileTable(net, lines[..|lines| - 1]);
      match ProcessLine(net, lines[|lines| - 1])
      case None => front
      case Some(r) => front[r.domain := r.ip]
  }

  ghost predicate Sets(net: Net, line: string, domain: string) {
    ProcessLine(net, line).Some? && ProcessLine(net, line).value.domain == domain
  }

  /** A domain is in the table exactly when some line sets it, and the last such line decides its server. */
  lemma {:induction false} LastLineWins(net: Net, lines: seq<string>, domain: string)
    ensures domain in FileTable(net, lines) <==> exists i :: 0 <= i < |lines| && Sets(net, lines[i], domain)
    ensures forall i :: 0 <= i < |lines| && Sets(net, lines[i], domain)
              && (forall j :: i < j < |lines| ==> !Sets(net, lines[j], domain))
              ==> domain in FileTable(net, lines)
                  && FileTable(net, lines)[domain] == ProcessLine(net, lines[i]).value.ip
  {
    hide ProcessLine;
    if lines != [] {
      var front := lines[..|lines| - 1];
      LastLineWins(net, front, domain);
      assert forall i :: 0 <= i < |front| ==> front[i] == lines[i];
      if Sets(net, lines[|lines| - 1], domain) {
        assert domain in FileTable(net, lines);
      }
    }
  }

  /** The line that decides a domain's server. */
  ghost predicate LastSets(net: Net, lines: seq<string>, i: nat, domain: string) {
    i < |lines| && Sets(net, lines[i], domain) && forall j :: i < j < |lines| ==> !Sets(net, lines[j], domain)
  }

  lemma {:induction false} SomeLineDecides(net: Net, lines: seq<string>, domain: string) returns (i: nat)
    requires domain in FileTable(net, lines)
    ensures LastSets(net, lines, i, domain)
    ensures FileTable(net, lines)[domain] == ProcessLine(net, lines[i]).value.ip
  {
    hide ProcessLine;
    var front, last := lines[..|lines| - 1], lines[|lines| - 1];
    if Sets(net, last, domain) {
      i := |lines| - 1;
    } else {
      i := SomeLineDecides(net, front, domain);
    }
  }

  ghost predicate NormalTable(net: Net, table: map<string, string>) {
    forall d :: d in table ==> InNormalForm(net, Route(d, table[d]))
  }

  lemma {:induction false} FileTableIsNormal(net: Net, lines: seq<string>)
    ensures NormalTable(net, FileTable(net, lines))
  {
    hide ProcessLine;
    if lines != [] {
      FileTableIsNormal(net, lines[..|lines| - 1]);
      var r := ProcessLine(net, lines[|lines| - 1]);
      if r.Some? {
        RouteReachesNormalForm(net, lines[|lines| - 1]);
      }
    }
  }

  /** What reading a file gives: it cannot be opened, or some lines and possibly a read error. */
  datatype File = Unreadable | File(lines: seq<string>, readError: bool)

  /** The one message a file's goroutine sends: a table, or an error. */
  datatype Message = Table(table: map<string, string>) | Failure

  function FileMessage(net: Net, file: File): Message {
    if file.Unreadable? || file.readError then Failure else Table(FileTable(net, file.lines))
  }

  /** `loadSingleFile`, returning the message it sends. */
  method LoadSingleFile(net: Net, file: File) returns (message: Message)
    ensures message == FileMessage(net, file)
  {
    if file.Unreadable? {
      return Failure;
    }
    var localTable: map<string, string> := map[];
    for i := 0 to |file.lines|
      invariant localTable == FileTable(net, file.lines[..i])
    {
      assert file.lines[..i + 1][..i] == file.lines[..i];
      var r := ProcessLine(net, file.lines[i]);
      if r.Some? {
        localTable := localTable[r.value.domain := r.value.ip];
      }
    }
    assert file.lines[..|file.lines|] == file.lines;
    if file.readError {
      return Failure;
    }
    return Table(localTable);
  }
}
