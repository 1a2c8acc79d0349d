/** When routing by vendor prefix does what the documentation says: compare the first six hexadecimal digits of an
    address with the configured prefixes (docs/client-routing.md). The code compares the first three groups instead. */
module VendorRouting {
  import opened Text
  import opened MacAddress
  import opened ClientRouting

  /** The hexadecimal digits of an address, in lower case. */
  function Digits(mac: string): string {
    if mac == "" then ""
    else Digits(mac[..|mac| - 1]) + if IsSeparator(mac[|mac| - 1]) then "" else KeptChar(mac[|mac| - 1])
  }

  function Flatten(parts: seq<string>): string {
    if parts == [] then "" else Flatten(parts[..|parts| - 1]) + parts[|parts| - 1]
  }

  lemma FlattenSnoc(parts: seq<string>, p: string)
    ensures Flatten(parts + [p]) == Flatten(parts) + p
  {
    assert (parts + [p])[..|parts|] == parts;
  }

  lemma {:induction false} FlattenNonEmpty(parts: seq<string>)
    ensures Flatten(NonEmpty(parts)) == Flatten(parts)
  {
    if parts != [] {
      var front, last := parts[..|parts| - 1], parts[|parts| - 1];
      FlattenNonEmpty(front);
      if last != "" { FlattenSnoc(NonEmpty(front), last); }
    }
  }

  lemma FlattenSplitSnoc(p: string, c: char)
    ensures Flatten(Split(p + [c], ':')) == Flatten(Split(p, ':')) + if c == ':' then "" else [c]
  {
    var parts := Split(p, ':');
    SplitSnoc(p, c, ':');
    hide Split;
    if c == ':' {
      FlattenSnoc(parts, "");
    } else {
      var front, last := parts[..|parts| - 1], parts[|parts| - 1];
      FlattenSnoc(front, last + [c]);
      assert Flatten(parts) + [c] == Flatten(front) + (last + [c]);
    }
  }

  lemma {:induction false} FlattenKept(mac: string)
    ensures Flatten(Split(Kept(mac), ':')) == Digits(mac)
  {
    if mac == "" {
      assert Split("", ':') == [""] && [""][..0] == [];
    } else {
      var front, c := mac[..|mac| - 1], mac[|mac| - 1];
      FlattenKept(front);
      hide Split, Flatten;
      if IsLowerHex(c) {
        FlattenSplitSnoc(Kept(front), c);
      } else if IsUpperHex(c) {
        FlattenSplitSnoc(Kept(front), ToLower(c));
      } else if IsSeparator(c) {
        FlattenSplitSnoc(Kept(front), ':');
      } else {
        assert Kept(front) + "" == Kept(front);
      }
    }
  }

  /** The groups of an address are its digits, cut up. */
  lemma GroupsHoldTheDigits(mac: string)
    ensures Flatten(Groups(mac)) == Digits(mac)
  {
    FlattenKept(mac);
    FlattenNonEmpty(Split(Kept(mac), ':'));
  }

  lemma {:induction false} FlattenAppend(a: seq<string>, b: seq<string>)
    ensures Flatten(a + b) == Flatten(a) + Flatten(b)
  {
    if b == [] {
      assert a + b == a;
    } else {
      var front, last := b[..|b| - 1], b[|b| - 1];
      FlattenAppend(a, front);
      assert (a + b)[..|a + b| - 1] == a + front;
      assert Flatten(a) + (Flatten(front) + last) == Flatten(a) + Flatten(front) + last;
    }
  }

  /** The first three groups have two digits each, as in the usual spelling. */
  predicate InPairs(g: seq<string>) {
    |g| >= 3 && |g[0]| == |g[1]| == |g[2]| == 2
  }

  lemma FlattenThree(a: string, b: string, c: string)
    ensures Flatten([]) == "" && Flatten([a]) == a && Flatten([a, b, c]) == a + b + c
  {
    FlattenSnoc([], a);
    FlattenSnoc([a], b);
    FlattenSnoc([a, b], c);
    assert [] + [a] == [a] && [a] + [b] == [a, b] && [a, b] + [c] == [a, b, c];
    hide Flatten;
    assert "" + a == a;
  }

  /** Three pairs of digits are determined by the six digits. */
  lemma FirstSixDigits(g: seq<string>)
    requires InPairs(g)
    ensures |Flatten(g)| >= 6
    ensures var d := Flatten(g); g[..3] == [d[..2], d[2..4], d[4..6]] && d[..6] == g[0] + g[1] + g[2]
  {
    var three := g[..3];
    assert three == [g[0], g[1], g[2]];
    FlattenThree(g[0], g[1], g[2]);
    assert g == three + g[3..];
    FlattenAppend(three, g[3..]);
    hide Flatten;
    var d := Flatten(g);
    assert d == (g[0] + g[1] + g[2]) + Flatten(g[3..]);
    assert d[..2] == g[0] && d[2..4] == g[1] && d[4..6] == g[2];
    assert g[..3] == [g[0], g[1], g[2]];
  }

  /** The prefix the documentation speaks of: the first six digits, in pairs. */
  function DocumentedPrefix(mac: string): string
    requires |Digits(mac)| >= 6
  {
    var d := Digits(mac);
    d[..2] + ":" + d[2..4] + ":" + d[4..6]
  }

  lemma DigitsOfGroups(mac: string)
    ensures forall c :: c in Digits(mac) ==> IsLowerHex(c)
  {
    GroupsHoldTheDigits(mac);
    GroupsAreGroups(mac);
    FlattenDigits(Groups(mac));
  }

  lemma {:induction false} FlattenDigits(groups: seq<string>)
    requires forall g :: g in groups ==> IsGroup(g)
    ensures forall c :: c in Flatten(groups) ==> IsLowerHex(c)
  {
    if groups != [] {
      assert groups[|groups| - 1] in groups;
      FlattenDigits(groups[..|groups| - 1]);
    }
  }

  /** The code finds the documented prefix of an address exactly when its first three groups are pairs of digits. */
  lemma DocumentedPrefixIff(mac: string)
    requires |Digits(mac)| >= 6
    ensures VendorPrefix(Groups(mac)) == DocumentedPrefix(mac) <==> InPairs(Groups(mac))
  {
    var g, d := Groups(mac), Digits(mac);
    var pairs := [d[..2], d[2..4], d[4..6]];
    GroupsHoldTheDigits(mac);
    ThreeGroups(pairs);
    assert pairs[..3] == pairs;
    if InPairs(g) { FirstSixDigits(g); }
    if VendorPrefix(g) == DocumentedPrefix(mac) {
      PairsAreGroups(mac);
      GroupsAreGroups(mac);
      assert |g| >= 3 && forall x :: x in g[..3] ==> x in g;
      hide Groups, Digits, Flatten, Join, InPairs;
      JoinIsInjective(g[..3], pairs);
      FirstThree(g, pairs);
    }
  }

  lemma PairsAreGroups(mac: string)
    requires |Digits(mac)| >= 6
    ensures var d := Digits(mac); IsGroup(d[..2]) && IsGroup(d[2..4]) && IsGroup(d[4..6])
  {
    DigitsOfGroups(mac);
  }

  lemma FirstThree(g: seq<string>, pairs: seq<string>)
    requires |g| >= 3 && |pairs| == 3 && g[..3] == pairs && |pairs[0]| == |pairs[1]| == |pairs[2]| == 2
    ensures InPairs(g)
  {
    assert g[0] == pairs[0] && g[1] == pairs[1] && g[2] == pairs[2];
  }

  lemma JoinIsInjective(a: seq<string>, b: seq<string>)
    requires (forall g :: g in a ==> IsGroup(g)) && (forall g :: g in b ==> IsGroup(g))
    requires Join(a, ":") == Join(b, ":")
    ensures a == b
  {
    GroupsOfJoin(a);
    GroupsOfJoin(b);
  }

  lemma {:induction false} KeptWithoutSeparator(mac: string)
    requires forall c :: c in mac ==> !IsSeparator(c)
    ensures ':' !in Kept(mac)
  {
    if mac != "" {
      assert mac[|mac| - 1] in mac;
      KeptWithoutSeparator(mac[..|mac| - 1]);
    }
  }

  lemma OnePiece(p: string)
    ensures |NonEmpty([p])| <= 1
  {
    assert [p][..0] == [];
  }

  /** An address written without separators has no vendor prefix, whatever its digits. */
  lemma UnseparatedHasNoPrefix(mac: string)
    requires forall c :: c in mac ==> !IsSeparator(c)
    ensures |Groups(mac)| <= 1 && VendorPrefix(Groups(mac)) == ""
  {
    KeptWithoutSeparator(mac);
    SplitWithoutSeparator(Kept(mac), ':');
    OnePiece(Kept(mac));
    hide Split, NonEmpty, Kept;
  }

  /** The documented decision: some configured prefix has the first six digits of the address. */
  ghost predicate DocumentedVendor(lists: Lists, raw: string) {
    exists i :: 0 <= i < |lists.ouis| && |Digits(raw)| >= 6 && Digits(lists.ouis[i]) == Digits(raw)[..6]
  }

  /** A configured prefix is found in an address: it has three groups, its digits are the address's first ones, and the
      address is cut in the same places. */
  ghost predicate SameCut(oui: string, raw: string) {
    var o, g := Groups(oui), Groups(raw);
    && |o| == 3 && |g| >= 3 && Digits(oui) <= Digits(raw)
    && |o[0]| == |g[0]| && |o[1]| == |g[1]| && |o[2]| == |g[2]|
  }

  lemma TakeThree(g: seq<string>)
    requires |g| >= 3
    ensures g[..3] == [g[0], g[1], g[2]] && g == [g[0], g[1], g[2]] + g[3..]
  {
  }

  lemma ThreeThenRest(g: seq<string>)
    requires |g| >= 3
    ensures Flatten(g) == (g[0] + g[1] + g[2]) + Flatten(g[3..])
    ensures g[..3] == [g[0], g[1], g[2]]
  {
    hide Flatten;
    var three, rest := [g[0], g[1], g[2]], g[3..];
    TakeThree(g);
    FlattenThree(g[0], g[1], g[2]);
    FlattenAppend(three, rest);
  }

  lemma SameCutIff(oui: string, raw: string)
    ensures |Groups(raw)| >= 3 && Groups(oui) == Groups(raw)[..3] <==> SameCut(oui, raw)
  {
    var o, g := Groups(oui), Groups(raw);
    GroupsHoldTheDigits(oui);
    GroupsHoldTheDigits(raw);
    hide Groups, Digits, Flatten;
    if |g| >= 3 && |o| == 3 {
      ThreeThenRest(g);
      ThreeThenRest(o);
      FlattenThree("", "", "");
      assert o[3..] == [] && o[..3] == o;
      CutDecides(o[0], o[1], o[2], g[0], g[1], g[2], Flatten(g[3..]));
      assert o == g[..3] <==> o[0] == g[0] && o[1] == g[1] && o[2] == g[2];
    }
  }

  lemma CutDecides(a: string, b: string, c: string, x: string, y: string, z: string, rest: string)
    ensures a == x && b == y && c == z <==>
            |a| == |x| && |b| == |y| && |c| == |z| && (a + b + c) + "" <= (x + y + z) + rest
  {
    if |a| == |x| && |b| == |y| && |c| == |z| && (a + b + c) + "" <= (x + y + z) + rest {
      var s, n := (x + y + z) + rest, |a| + |b|;
      assert (a + b + c) + "" == s[..n + |c|];
      assert a == s[..|a|] == x && b == s[|a|..n] == y && c == s[n..n + |c|] == z;
    }
  }

  /** The code's vendor decision, for every configuration and every address: some configured prefix has three groups,
      its digits are the address's first ones, and both are cut in the same places. With prefixes configured as the
      documentation shows them, that is the documented decision cut down to the addresses whose first three groups
      are pairs of digits. */
  lemma VendorDecisionIff(lists: Lists, raw: string)
    ensures ListedVendor(lists, raw) <==> exists i :: 0 <= i < |lists.ouis| && SameCut(lists.ouis[i], raw)
    ensures (forall i :: 0 <= i < |lists.ouis| ==> InPairs(Groups(lists.ouis[i])) && |Groups(lists.ouis[i])| == 3) ==>
              (ListedVendor(lists, raw) <==> DocumentedVendor(lists, raw) && InPairs(Groups(raw)))
  {
    hide Groups, Digits, SameCut;
    forall i | 0 <= i < |lists.ouis|
      ensures |Groups(raw)| >= 3 && Groups(lists.ouis[i]) == Groups(raw)[..3] <==> SameCut(lists.ouis[i], raw)
    {
      SameCutIff(lists.ouis[i], raw);
    }
    if forall i :: 0 <= i < |lists.ouis| ==> InPairs(Groups(lists.ouis[i])) && |Groups(lists.ouis[i])| == 3 {
      PairsDecisionIff(lists, raw);
    }
  }

  lemma PairsDecisionIff(lists: Lists, raw: string)
    requires forall i :: 0 <= i < |lists.ouis| ==> InPairs(Groups(lists.ouis[i])) && |Groups(lists.ouis[i])| == 3
    ensures ListedVendor(lists, raw) <==> DocumentedVendor(lists, raw) && InPairs(Groups(raw))
  {
    var g := Groups(raw);
    hide Groups, Digits;
    forall i | 0 <= i < |lists.ouis|
      ensures |g| >= 3 && Groups(lists.ouis[i]) == g[..3] <==>
              InPairs(g) && |Digits(raw)| >= 6 && Digits(lists.ouis[i]) == Digits(raw)[..6]
    {
      PairsMatchIff(lists.ouis[i], raw);
    }
  }

  lemma PairsMatchIff(oui: string, raw: string)
    requires InPairs(Groups(oui)) && |Groups(oui)| == 3
    ensures var g := Groups(raw);
            |g| >= 3 && Groups(oui) == g[..3] <==>
            InPairs(g) && |Digits(raw)| >= 6 && Digits(oui) == Digits(raw)[..6]
  {
    var o, g := Groups(oui), Groups(raw);
    GroupsHoldTheDigits(oui);
    GroupsHoldTheDigits(raw);
    assert o == [o[0], o[1], o[2]] && o[..3] == o;
    FlattenThree(o[0], o[1], o[2]);
    hide Groups, Digits, Flatten;
    if |g| >= 3 && o == g[..3] { FirstThree(g, o); }
    if InPairs(g) {
      FirstSixDigits(g);
      FirstSixDigits(o);
      SixDigitsDecide(o, g);
    }
  }

  lemma SixDigitsDecide(o: seq<string>, g: seq<string>)
    requires |o| == 3 && InPairs(o) && InPairs(g)
    ensures o == g[..3] <==> o[0] + o[1] + o[2] == g[0] + g[1] + g[2]
  {
    var x, y := o[0] + o[1] + o[2], g[0] + g[1] + g[2];
    assert x[..2] == o[0] && x[2..4] == o[1] && x[4..6] == o[2];
    assert y[..2] == g[0] && y[2..4] == g[1] && y[4..6] == g[2];
    assert o == [o[0], o[1], o[2]] && g[..3] == [g[0], g[1], g[2]];
    assert o == g[..3] ==> o[0] == g[..3][0] && o[1] == g[..3][1] && o[2] == g[..3][2];
  }

  lemma OuiGroups()
    ensures Groups("68:57:2d") == ["68", "57", "2d"] && Digits("68:57:2d") == "68572d"
  {
    var g := ["68", "57", "2d"];
    hide Groups, Digits;
    assert g[1..] == ["57", "2d"] && g[1..][1..] == ["2d"];
    assert Join(g, ":") == "68:57:2d";
    GroupsOfJoin(g);
    GroupsHoldTheDigits("68:57:2d");
    FlattenThree("68", "57", "2d");
  }

  lemma UnseparatedGroups()
    ensures Groups("68572d001122") == ["68572d001122"] && Digits("68572d001122") == "68572d001122"
  {
    var mac := "68572d001122";
    hide Groups, Digits;
    assert Join([mac], ":") == mac;
    GroupsOfJoin([mac]);
    GroupsHoldTheDigits(mac);
    FlattenThree(mac, "", "");
  }

  /** A vendor decision that differs: a device of a configured vendor, whose address the ARP table spells without
      separators, is not matched, though its first six digits are those of the prefix. */
  lemma UnseparatedAddressMissed()
    ensures var lists := Lists([], [], ["68:57:2d"]);
            DocumentedVendor(lists, "68572d001122") && !ListedVendor(lists, "68572d001122")
  {
    OuiGroups();
    UnseparatedGroups();
    hide Groups, Digits;
    var lists := Lists([], [], ["68:57:2d"]);
    assert Digits(lists.ouis[0]) == Digits("68572d001122")[..6];
  }

  /** The likelier one: the prefix itself is configured without separators. It matches no address at all, while the
      documentation promises every address that begins with its digits. */
  lemma UnseparatedPrefixMatchesNothing(raw: string)
    ensures var lists := Lists([], [], ["68572d"]);
            && !ListedVendor(lists, raw)
            && (DocumentedVendor(lists, raw) <==> |Digits(raw)| >= 6 && Digits(raw)[..6] == "68572d")
            && DocumentedVendor(lists, "68:57:2d")
  {
    PrefixGroups();
    OuiGroups();
    hide Groups, Digits;
    var lists := Lists([], [], ["68572d"]);
    assert lists.ouis[0] == "68572d";
    assert "68572d"[..6] == "68572d";
    if |Groups(raw)| >= 3 { assert |Groups(raw)[..3]| == 3; }
  }

  lemma PrefixGroups()
    ensures Groups("68572d") == ["68572d"] && Digits("68572d") == "68572d"
  {
    var mac := "68572d";
    hide Groups, Digits;
    assert Join([mac], ":") == mac;
    GroupsOfJoin([mac]);
    GroupsHoldTheDigits(mac);
    FlattenThree(mac, "", "");
  }
}
