/** Which clients are sent to the public servers only (clientrouting/clientrouting.go). */
module ClientRouting {
  import opened Text
  import opened MacAddress

  /** Three minutes, in nanoseconds. */
  const MAC_CACHE_TTL := 3 * 60 * 1_000_000_000

  datatype CachedMac = CachedMac(mac: string, expiration: int)

  /** An ARP reading: the address as the table spells it ("" when absent) and when it was read. */
  datatype Reading = Reading(raw: string, at: int)

  datatype Lists = Lists(clients: seq<string>, macs: seq<string>, ouis: seq<string>)

  ghost predicate ListedClient(lists: Lists, clientIP: string) {
    exists i :: 0 <= i < |lists.clients| && lists.clients[i] != "" && Trim(lists.clients[i]) == clientIP
  }

  /** Some configured address has the groups of `raw`. */
  ghost predicate ListedMac(lists: Lists, raw: string) {
    exists i :: 0 <= i < |lists.macs| && Groups(lists.macs[i]) == Groups(raw) != []
  }

  /** Some configured vendor prefix has the first three groups of `raw`. */
  ghost predicate ListedVendor(lists: Lists, raw: string) {
    exists i :: 0 <= i < |lists.ouis| && |Groups(raw)| >= 3 && Groups(lists.ouis[i]) == Groups(raw)[..3]
  }

  /** The routing decision in terms of groups, with no normalised string in sight. */
  ghost predicate PublicOnly(lists: Lists, clientIP: string, raw: string) {
    ListedClient(lists, clientIP) || ListedMac(lists, raw) || ListedVendor(lists, raw)
  }

  ghost predicate NormalFormsOf(stored: set<string>, macs: seq<string>) {
    && (forall i :: 0 <= i < |macs| && NormalForm(macs[i]) != "" ==> NormalForm(macs[i]) in stored)
    && (forall m :: m in stored ==> m != "" && exists i :: 0 <= i < |macs| && NormalForm(macs[i]) == m)
  }

  ghost predicate TrimmedOf(stored: set<string>, clients: seq<string>) {
    && (forall i :: 0 <= i < |clients| && clients[i] != "" ==> Trim(clients[i]) in stored)
    && (forall c :: c in stored ==> exists i :: 0 <= i < |clients| && clients[i] != "" && Trim(clients[i]) == c)
  }

  lemma NormalFormEmpty(mac: string)
    ensures NormalForm(mac) == "" <==> Groups(mac) == []
  {
    GroupsAreGroups(mac);
    JoinWellSeparated(Groups(mac));
  }

  lemma StoredMac(stored: set<string>, lists: Lists, raw: string)
    requires NormalFormsOf(stored, lists.macs)
    ensures NormalForm(raw) != "" && NormalForm(raw) in stored <==> ListedMac(lists, raw)
  {
    NormalFormEmpty(raw);
    if NormalForm(raw) in stored {
      var i :| 0 <= i < |lists.macs| && NormalForm(lists.macs[i]) == NormalForm(raw);
      NormalFormsAgree(lists.macs[i], raw);
    }
    if ListedMac(lists, raw) {
      var i :| 0 <= i < |lists.macs| && Groups(lists.macs[i]) == Groups(raw) != [];
      assert NormalForm(lists.macs[i]) == NormalForm(raw);
    }
  }

  lemma StoredVendor(stored: set<string>, lists: Lists, raw: string)
    requires NormalFormsOf(stored, lists.ouis)
    ensures var oui := VendorPrefix(Groups(raw)); oui != "" && oui in stored <==> ListedVendor(lists, raw)
  {
    var oui := VendorPrefix(Groups(raw));
    VendorPrefixGroups(raw);
    if oui != "" && oui in stored {
      var i :| 0 <= i < |lists.ouis| && NormalForm(lists.ouis[i]) == oui;
      NormalFormIdempotent(lists.ouis[i]);
    }
    if ListedVendor(lists, raw) {
      var i :| 0 <= i < |lists.ouis| && |Groups(raw)| >= 3 && Groups(lists.ouis[i]) == Groups(raw)[..3];
      assert NormalForm(lists.ouis[i]) == oui;
    }
  }

  predicate TableHit(macs: set<string>, ouis: set<string>, mac: string) {
    mac != "" && (mac in macs || (VendorPrefix(Groups(mac)) != "" && VendorPrefix(Groups(mac)) in ouis))
  }

  /** The two table lookups on a normalised address decide what the groups decide. */
  lemma LookupsDecide(macs: set<string>, ouis: set<string>, lists: Lists, raw: string)
    requires NormalFormsOf(macs, lists.macs) && NormalFormsOf(ouis, lists.ouis)
    ensures ListedMac(lists, raw) || ListedVendor(lists, raw) <==> TableHit(macs, ouis, NormalForm(raw))
  {
    StoredMac(macs, lists, raw);
    StoredVendor(ouis, lists, raw);
    NormalFormIdempotent(raw);
    NormalFormEmpty(raw);
  }

  lemma ListedClientStored(clients: set<string>, lists: Lists, clientIP: string)
    requires TrimmedOf(clients, lists.clients)
    ensures clientIP in clients <==> ListedClient(lists, clientIP)
  {
  }

  /** Exact-MAC and vendor decisions read only the groups: another spelling of the ARP address or of any
      configured address cannot change them. */
  lemma SpellingIrrelevant(a: Lists, b: Lists, clientIP: string, raw: string, raw': string)
    requires a.clients == b.clients
    requires |a.macs| == |b.macs| && forall i :: 0 <= i < |a.macs| ==> NormalForm(a.macs[i]) == NormalForm(b.macs[i])
    requires |a.ouis| == |b.ouis| && forall i :: 0 <= i < |a.ouis| ==> NormalForm(a.ouis[i]) == NormalForm(b.ouis[i])
    requires NormalForm(raw) == NormalForm(raw')
    ensures PublicOnly(a, clientIP, raw) == PublicOnly(b, clientIP, raw')
  {
    NormalFormsAgree(raw, raw');
    forall i | 0 <= i < |a.macs| ensures Groups(a.macs[i]) == Groups(b.macs[i]) {
      NormalFormsAgree(a.macs[i], b.macs[i]);
    }
    forall i | 0 <= i < |a.ouis| ensures Groups(a.ouis[i]) == Groups(b.ouis[i]) {
      NormalFormsAgree(a.ouis[i], b.ouis[i]);
    }
  }

  class ClientRouter {
    const enabled: bool
    const normalizer: MacNormalizer
    ghost const lists: Lists
    var clients: set<string>
    var macs: set<string>
    var ouis: set<string>
    var macCache: map<string, CachedMac>
    /** The ARP reading behind each cached address. */
    ghost var readings: map<string, Reading>

    ghost predicate Valid()
      reads this, normalizer
    {
      && normalizer.Valid()
      && TrimmedOf(clients, lists.clients)
      && NormalFormsOf(macs, lists.macs)
      && NormalFormsOf(ouis, lists.ouis)
      && (forall ip :: ip in macCache ==>
            && ip in readings
            && macCache[ip] == CachedMac(NormalForm(readings[ip].raw), readings[ip].at + MAC_CACHE_TTL))
    }

    /** The decision for a client: off when routing is, and otherwise what the lists say of it, on an ARP reading no
        older than three minutes unless its address is listed. */
    ghost predicate Decision(clientIP: string, now: int, usePublic: bool)
      reads this
    {
      if !enabled then !usePublic
      else if ListedClient(lists, clientIP) then usePublic
      else
        && clientIP in readings && now <= readings[clientIP].at + 180 * 1_000_000_000
        && usePublic == PublicOnly(lists, clientIP, readings[clientIP].raw)
    }

    constructor (enabled: bool, config: Lists)
      ensures Valid() && fresh(normalizer)
      ensures this.enabled == enabled && lists == config && macCache == map[]
    {
      this.enabled := enabled;
      lists := config;
      normalizer := new MacNormalizer();
      clients, macs, ouis := {}, {}, {};
      macCache, readings := map[], map[];
      new;
      clients := StoreClients(config.clients);
      macs := StoreMACs(config.macs);
      ouis := StoreMACs(config.ouis);
    }

    /** `storeClientsToMap`. */
    static method StoreClients(list: seq<string>) returns (stored: set<string>)
      ensures TrimmedOf(stored, list)
    {
      stored := {};
      for i := 0 to |list|
        invariant TrimmedOf(stored, list[..i])
      {
        ghost var before := list[..i];
        assert list[..i + 1] == before + [list[i]];
        assert forall j :: 0 <= j < i ==> list[..i + 1][j] == before[j];
        if list[i] != "" {
          stored := stored + {Trim(list[i])};
          assert list[..i + 1][i] == list[i];
        }
      }
      assert list[..|list|] == list;
    }

    /** `storeMACsToMap` and `storeOUIsToMap`. */
    method StoreMACs(list: seq<string>) returns (stored: set<string>)
      requires normalizer.Valid()
      modifies normalizer
      ensures normalizer.Valid()
      ensures NormalFormsOf(stored, list)
    {
      stored := {};
      for i := 0 to |list|
        invariant normalizer.Valid()
        invariant NormalFormsOf(stored, list[..i])
      {
        ghost var before := list[..i];
        assert list[..i + 1] == before + [list[i]];
        assert forall j :: 0 <= j < i ==> list[..i + 1][j] == before[j];
        var macNorm := normalizer.NormalizeMAC(list[i]);
        if macNorm != "" {
          stored := stored + {macNorm};
          assert list[..i + 1][i] == list[i];
        }
      }
      assert list[..|list|] == list;
    }

    /** The cached address of a client, or the one the ARP table spells `arp` at time `now`. */
    method GetMACWithCache(clientIP: string, arp: string, now: int) returns (mac: string)
      requires Valid()
      modifies this`macCache, this`readings, normalizer
      ensures Valid()
      ensures clientIP in readings && mac == NormalForm(readings[clientIP].raw)
      ensures readings == if clientIP in old(macCache) && now <= old(readings)[clientIP].at + 180 * 1_000_000_000
                          then old(readings) else old(readings)[clientIP := Reading(arp, now)]
      ensures now <= readings[clientIP].at + 180 * 1_000_000_000
    {
      hide NormalForm;
      if clientIP in macCache && now <= macCache[clientIP].expiration {
        return macCache[clientIP].mac;
      }
      mac := normalizer.NormalizeMAC(arp);
      macCache := macCache[clientIP := CachedMac(mac, now + MAC_CACHE_TTL)];
      readings := readings[clientIP := Reading(arp, now)];
    }

    /** The exact-address and vendor lookups. */
    method LookUpMAC(mac: string) returns (found: bool)
      requires normalizer.Valid()
      modifies normalizer
      ensures normalizer.Valid()
      ensures found == TableHit(macs, ouis, mac)
    {
      if mac != "" {
        if mac in macs {
          return true;
        }
        var oui := normalizer.ExtractMACOUI(mac);
        if oui != "" {
          if oui in ouis {
            return true;
          }
        }
      }
      return false;
    }

    /** The decision is the one the groups give, on an ARP reading no older than three minutes. */
    method ShouldUsePublicServers(clientIP: string, arp: string, now: int) returns (usePublic: bool)
      requires Valid()
      modifies this`macCache, this`readings, normalizer
      ensures Valid()
      ensures Decision(clientIP, now, usePublic)
      ensures readings == old(readings)
              || (enabled && !ListedClient(lists, clientIP) && readings == old(readings)[clientIP := Reading(arp, now)])
    {
      if !enabled {
        return false;
      }
      ListedClientStored(clients, lists, clientIP);
      if clientIP in clients {
        return true;
      }
      var mac := GetMACWithCache(clientIP, arp, now);
      LookupsDecide(macs, ouis, lists, readings[clientIP].raw);
      usePublic := LookUpMAC(mac);
    }
  }
}
