/** Asking upstream servers in turn (dnsresolver/dnsresolver.go). */
module Resolver {
  import opened Options
  import opened Dns
  import opened ServerSelection
  import opened ClientRouting

  /** What one exchange gives: a response, neither response nor error, or an error. */
  datatype Reply = Answered(answer: seq<RR>) | NoResponse | Failed

  /** The outcome of a resolution: the records returned (Go's nil is the empty list), the servers contacted in
      order, and the server whose usage counter is incremented, if any. */
  datatype Resolution = Resolution(answers: seq<RR>, contacted: seq<string>, used: Option<string>)

  /** The replies are an oracle: `replies(k)` is the reply to the k-th exchange of the call. */
  ghost predicate StopsAt(replies: nat -> Reply, k: nat) {
    !replies(k).Failed? && forall j: nat :: j < k ==> replies(j).Failed?
  }

  /** The servers contacted are exactly the list's prefix ending at the first exchange without an error, which also
      decides the answer; if every exchange fails, all are contacted and the answer is empty. */
  ghost predicate FirstSuccess(servers: seq<string>, replies: nat -> Reply, r: Resolution) {
    && r.contacted <= servers
    && (forall j: nat :: j < |servers| && j < |r.contacted| - 1 ==> replies(j).Failed?)
    && if r.contacted == [] then servers == [] && r == Resolution([], [], None)
       else
         var last := |r.contacted| - 1;
         match replies(last)
         case Answered(answer) => r.answers == answer && r.used == Some(r.contacted[last])
         case NoResponse => r.answers == [] && r.used == None
         case Failed => r.answers == [] && r.used == None && r.contacted == servers
  }

  /** `upstreamDNSQuery` together with `exchangeWithServer`. */
  method UpstreamDNSQuery(privateServers: seq<string>, publicServers: seq<string>, replies: nat -> Reply)
      returns (r: Resolution)
    ensures FirstSuccess(privateServers + publicServers, replies, r)
  {
    if |publicServers| == 0 && |privateServers| == 0 {
      return Resolution([], [], None);
    }
    ghost var servers := privateServers + publicServers;
    var contacted := [];
    for i := 0 to |privateServers|
      invariant contacted == privateServers[..i]
      invariant forall j: nat :: j < i ==> replies(j).Failed?
    {
      contacted := contacted + [privateServers[i]];
      assert contacted == servers[..i + 1];
      match replies(i) {
        case Answered(answer) => return Resolution(answer, contacted, Some(privateServers[i]));
        case NoResponse => return Resolution([], contacted, None);
        case Failed =>
      }
    }
    if |publicServers| == 0 {
      assert contacted == servers;
      return Resolution([], contacted, None);
    }
    for i := 0 to |publicServers|
      invariant contacted == privateServers + publicServers[..i]
      invariant forall j: nat :: j < |privateServers| + i ==> replies(j).Failed?
    {
      contacted := contacted + [publicServers[i]];
      assert contacted == servers[..|privateServers| + i + 1];
      match replies(|privateServers| + i) {
        case Answered(answer) => return Resolution(answer, contacted, Some(publicServers[i]));
        case NoResponse => return Resolution([], contacted, None);
        case Failed =>
      }
    }
    assert contacted == servers;
    return Resolution([], contacted, None);
  }

  /** `ResolverForClient`: whom a client's query reaches, and with what result. */
  method ResolverForClient(source: DnsSource, router: ClientRouter, clientIP: string, arp: string, now: int,
                           replies: nat -> Reply)
    returns (r: Resolution, ghost usePublic: bool)
    requires source.Valid() && router.Valid()
    modifies router`macCache, router`readings, router.normalizer
    ensures source.Valid() && router.Valid() && router.Decision(clientIP, now, usePublic)
    ensures var chosen := Chosen(source.config, source.cache, usePublic);
            && ServersFor(source.config, source.cache, usePublic, chosen.0, chosen.1)
            && FirstSuccess(chosen.0 + chosen.1, replies, r)
    ensures MustUsePublic(router, clientIP) ==> forall x :: x in r.contacted ==> x in source.config.publicServers
    ensures !usePublic && source.cache.privateServers == [] && source.cache.publicServers == [] ==>
              FirstSuccess(source.config.privateServers + source.config.publicServers, replies, r)
    ensures PrivateFirst(source.config, r.contacted)
  {
    hide FirstSuccess;
    var privateServers, publicServers;
    privateServers, publicServers, usePublic := source.GetServersForClient(router, clientIP, arp, now);
    r := UpstreamDNSQuery(privateServers, publicServers, replies);
    ContactedAreListed(privateServers + publicServers, replies, r);
  }

  /** The client is listed, by its address or by the groups of the MAC address last read for it. */
  ghost predicate MustUsePublic(router: ClientRouter, clientIP: string)
    reads router
  {
    router.enabled
    && (|| ListedClient(router.lists, clientIP)
        || (clientIP in router.readings && PublicOnly(router.lists, clientIP, router.readings[clientIP].raw)))
  }

  lemma ContactedAreListed(servers: seq<string>, replies: nat -> Reply, r: Resolution)
    requires FirstSuccess(servers, replies, r)
    ensures r.contacted <= servers && forall x :: x in r.contacted ==> x in servers
  {
  }

  /** `ResolverForDomain`: a routed domain reaches its server and no other. The table is looked up with the domain as
      asked, without completing it to its trailing dot. */
  method ResolverForDomain(source: DnsSource, table: map<string, string>, domain: string, router: ClientRouter,
                           clientIP: string, arp: string, now: int, replies: nat -> Reply)
    returns (r: Resolution, ghost usePublic: bool)
    requires source.Valid() && router.Valid()
    modifies router`macCache, router`readings, router.normalizer
    ensures source.Valid() && router.Valid()
    ensures domain in table ==> FirstSuccess([table[domain]], replies, r) && r.contacted == [table[domain]]
    ensures domain !in table ==>
              && router.Decision(clientIP, now, usePublic)
              && var chosen := Chosen(source.config, source.cache, usePublic);
              && FirstSuccess(chosen.0 + chosen.1, replies, r)
              && (MustUsePublic(router, clientIP) ==>
                    forall x :: x in r.contacted ==> x in source.config.publicServers)
  {
    if domain in table {
      r := UpstreamDNSQuery([table[domain]], [], replies);
      assert [table[domain]] + [] == [table[domain]];
      usePublic := false;
      return;
    }
    r, usePublic := ResolverForClient(source, router, clientIP, arp, now, replies);
  }

  /** The specification determines the result: there is one resolution for given servers and replies. */
  lemma FirstSuccessUnique(servers: seq<string>, replies: nat -> Reply, r: Resolution, q: Resolution)
    requires FirstSuccess(servers, replies, r) && FirstSuccess(servers, replies, q)
    ensures r == q
  {
    assert |r.contacted| <= |q.contacted| && |q.contacted| <= |r.contacted|;
    assert r.contacted == servers[..|r.contacted|] && q.contacted == servers[..|r.contacted|];
  }

  /** A query ends in a reply exactly when one of its exchanges does not fail, and otherwise every server has been
      contacted. */
  lemma AnsweredIffSomeoneResponds(servers: seq<string>, replies: nat -> Reply, r: Resolution)
    requires FirstSuccess(servers, replies, r)
    ensures (exists k: nat :: k < |servers| && StopsAt(replies, k)) <==>
            r.contacted != [] && !replies(|r.contacted| - 1).Failed?
    ensures !(exists k: nat :: k < |servers| && StopsAt(replies, k)) ==> r.contacted == servers
  {
    if r.contacted != [] && !replies(|r.contacted| - 1).Failed? {
      assert StopsAt(replies, |r.contacted| - 1);
    }
  }
}
