/** MAC address normalisation (util/util.go): the one-pass scanner, its memo table and the vendor prefix,
    against the specification "delete foreign characters, split at separators, drop empty groups". */
module MacAddress {
  import opened Text

  predicate IsLowerHex(c: char) {
    '0' <= c <= '9' || 'a' <= c <= 'f'
  }

  predicate IsUpperHex(c: char) {
    'A' <= c <= 'F'
  }

  predicate IsSeparator(c: char) {
    c == '-' || c == '.' || c == ':' || c == ' '
  }

  function ToLower(c: char): char
    requires IsUpperHex(c)
  {
    (c as int + 32) as char
  }

  /** What one input character contributes: a lower-case digit, a separator, or nothing. */
  function KeptChar(c: char): string {
    if IsLowerHex(c) then [c] else if IsUpperHex(c) then [ToLower(c)] else if IsSeparator(c) then ":" else ""
  }

  function Kept(s: string): string {
    if s == "" then "" else Kept(s[..|s| - 1]) + KeptChar(s[|s| - 1])
  }

  function NonEmpty(parts: seq<string>): (kept: seq<string>)
    ensures forall p :: p in kept <==> p in parts && p != ""
  {
    if parts == [] then []
    else
      var last := parts[|parts| - 1];
      var front := NonEmpty(parts[..|parts| - 1]);
      assert forall p :: p in parts <==> p in parts[..|parts| - 1] || p == last;
      if last == "" then front else front + [last]
  }

  /** The hexadecimal groups an address is written with, in lower case. */
  function Groups(mac: string): seq<string> {
    NonEmpty(Split(Kept(mac), ':'))
  }

  function NormalForm(mac: string): string {
    Join(Groups(mac), ":")
  }

  predicate IsGroup(g: string) {
    g != "" && forall c :: c in g ==> IsLowerHex(c)
  }

  lemma {:induction false} KeptCharacters(s: string)
    ensures forall c :: c in Kept(s) ==> IsLowerHex(c) || c == ':'
  {
    if s != "" {
      KeptCharacters(s[..|s| - 1]);
    }
  }

  lemma GroupsAreGroups(mac: string)
    ensures forall g :: g in Groups(mac) ==> IsGroup(g)
  {
    KeptCharacters(mac);
    SplitPiecesHaveNoSeparator(Kept(mac), ':');
  }

  lemma {:induction false} NonEmptyOfNonEmpty(parts: seq<string>)
    requires forall i :: 0 <= i < |parts| ==> parts[i] != ""
    ensures NonEmpty(parts) == parts
  {
    if parts != [] {
      NonEmptyOfNonEmpty(parts[..|parts| - 1]);
    }
  }

  lemma {:induction false} KeptOfNormal(s: string)
    requires forall i :: 0 <= i < |s| ==> IsLowerHex(s[i]) || s[i] == ':'
    ensures Kept(s) == s
  {
    if s != "" {
      KeptOfNormal(s[..|s| - 1]);
      assert s == s[..|s| - 1] + [s[|s| - 1]];
    }
  }

  lemma {:induction false} JoinCharacters(groups: seq<string>)
    requires forall g :: g in groups ==> IsGroup(g)
    ensures forall c :: c in Join(groups, ":") ==> IsLowerHex(c) || c == ':'
  {
    if |groups| >= 1 {
      assert groups[0] in groups;
      if |groups| > 1 {
        JoinCharacters(groups[1..]);
      }
    }
  }

  /** A list of hexadecimal groups is recovered from its colon-separated spelling. */
  lemma GroupsOfJoin(groups: seq<string>)
    requires forall g :: g in groups ==> IsGroup(g)
    ensures Groups(Join(groups, ":")) == groups
  {
    JoinCharacters(groups);
    KeptOfNormal(Join(groups, ":"));
    if groups == [] {
      assert Split("", ':') == [""];
      assert [""][..0] == [];
    } else {
      forall g | g in groups ensures ':' !in g { assert IsGroup(g); }
      SplitJoin(groups, ':');
      forall i | 0 <= i < |groups| ensures groups[i] != "" { assert IsGroup(groups[i]); }
      NonEmptyOfNonEmpty(groups);
    }
  }

  /** Normalising twice changes nothing, and keeps the groups. */
  lemma NormalFormIdempotent(mac: string)
    ensures Groups(NormalForm(mac)) == Groups(mac)
    ensures NormalForm(NormalForm(mac)) == NormalForm(mac)
  {
    GroupsAreGroups(mac);
    GroupsOfJoin(Groups(mac));
  }

  /** Two spellings normalise alike exactly when they have the same groups. */
  lemma NormalFormsAgree(a: string, b: string)
    ensures NormalForm(a) == NormalForm(b) <==> Groups(a) == Groups(b)
  {
    NormalFormIdempotent(a);
    NormalFormIdempotent(b);
  }

  ghost predicate WellSeparated(s: string) {
    && (s != "" ==> s[0] != ':' && s[|s| - 1] != ':')
    && (forall i :: 0 < i < |s| && s[i] == ':' ==> s[i - 1] != ':')
  }

  lemma {:induction false} JoinWellSeparated(groups: seq<string>)
    requires forall g :: g in groups ==> IsGroup(g)
    ensures WellSeparated(Join(groups, ":"))
    ensures groups != [] ==> Join(groups, ":") != ""
  {
    if |groups| >= 1 {
      assert IsGroup(groups[0]) by { assert groups[0] in groups; }
      var s := groups[0];
      assert s[0] in s && s[|s| - 1] in s;
      forall i | 0 <= i < |s| ensures s[i] != ':' { assert s[i] in s; }
      if |groups| > 1 {
        JoinWellSeparated(groups[1..]);
        var rest := Join(groups[1..], ":");
        assert Join(groups, ":") == s + ":" + rest;
      }
    }
  }

  /** A normal form has no leading, trailing or doubled colon, and only lower-case digits beside colons. */
  lemma NormalFormShape(mac: string)
    ensures WellSeparated(NormalForm(mac))
    ensures forall c :: c in NormalForm(mac) ==> IsLowerHex(c) || c == ':'
  {
    GroupsAreGroups(mac);
    JoinWellSeparated(Groups(mac));
    JoinCharacters(Groups(mac));
  }

  /** The builder's contents after the kept characters `p`: the groups so far and, after a separator, a colon. */
  ghost function Rendered(p: string): string {
    var parts := Split(p, ':');
    var groups := NonEmpty(parts);
    Join(groups, ":") + if parts[|parts| - 1] == "" && groups != [] then ":" else ""
  }

  ghost predicate HasGroup(p: string) {
    NonEmpty(Split(p, ':')) != []
  }

  lemma SplitFront(p: string) returns (front: seq<string>, last: string)
    ensures Split(p, ':') == front + [last]
    ensures NonEmpty(Split(p, ':')) == NonEmpty(front) + if last == "" then [] else [last]
    ensures ':' !in last
  {
    var parts := Split(p, ':');
    front, last := parts[..|parts| - 1], parts[|parts| - 1];
    assert last in parts;
    SplitPiecesHaveNoSeparator(p, ':');
  }

  /** The same from the finished groups and the last, possibly unfinished piece. */
  ghost function Rendering(groups: seq<string>, last: string): string {
    if last != "" then Join(groups + [last], ":") else if groups == [] then "" else Join(groups, ":") + ":"
  }

  lemma RenderedSplit(p: string, front: seq<string>, last: string)
    requires Split(p, ':') == front + [last]
    ensures Rendered(p) == Rendering(NonEmpty(front), last)
    ensures HasGroup(p) <==> NonEmpty(front) != [] || last != ""
  {
    hide Split;
    var parts := front + [last];
    assert parts[..|parts| - 1] == front;
    hide Join;
  }

  lemma RenderingDigit(groups: seq<string>, last: string, c: char)
    ensures Rendering(groups, last + [c]) == Rendering(groups, last) + [c]
  {
    if last != "" {
      JoinExtendLast(groups, last, c, ":");
    } else {
      assert last + [c] == [c] && "" + [c] == [c];
      if groups == [] {
        assert groups + [[c]] == [[c]];
      } else {
        hide Join;
        JoinSnoc(groups, [c], ":");
      }
    }
  }

  /** A digit lengthens the builder by itself. */
  lemma RenderDigit(p: string, c: char)
    requires IsLowerHex(c)
    ensures Rendered(p + [c]) == Rendered(p) + [c] && HasGroup(p + [c])
  {
    var front, last := SplitFront(p);
    SplitSnoc(p, c, ':');
    hide Rendered, Rendering, HasGroup, Split, NonEmpty;
    assert front + [last + [c]] == (front + [last])[..|front|] + [(front + [last])[|front|] + [c]];
    RenderedSplit(p, front, last);
    RenderedSplit(p + [c], front, last + [c]);
    RenderingDigit(NonEmpty(front), last, c);
  }

  lemma RenderingEnd(groups: seq<string>, last: string)
    requires ':' !in last
    ensures Rendering(groups, last) == "" <==> groups == [] && last == ""
    ensures Rendering(groups, last) != "" ==>
              (Rendering(groups, last)[|Rendering(groups, last)| - 1] == ':' <==> last == "")
  {
    if last != "" {
      assert last[|last| - 1] in last;
      if groups == [] {
        assert groups + [last] == [last];
      } else {
        hide Join;
        JoinSnoc(groups, last, ":");
        assert Rendering(groups, last)[|Rendering(groups, last)| - 1] == last[|last| - 1];
      }
    }
  }

  /** A separator adds a colon only after a group and only once. */
  lemma RenderSeparator(p: string)
    ensures HasGroup(p + ":") == HasGroup(p)
    ensures !HasGroup(p) ==> Rendered(p + ":") == Rendered(p) == ""
    ensures HasGroup(p) ==> Rendered(p) != ""
    ensures HasGroup(p) ==>
              Rendered(p + ":") == if Rendered(p)[|Rendered(p)| - 1] == ':' then Rendered(p) else Rendered(p) + ":"
  {
    var front, last := SplitFront(p);
    SplitSnoc(p, ':', ':');
    RenderedSplit(p, front, last);
    RenderedSplit(p + ":", front + [last], "");
    RenderingEnd(NonEmpty(front), last);
    hide Split, NonEmpty, Join, Rendered, HasGroup;
    assert NonEmpty(front + [last]) == NonEmpty(front) + if last == "" then [] else [last];
  }

  /** Dropping the trailing colon of the builder leaves the joined groups. */
  lemma RenderedWithoutTrailingColon(p: string)
    requires forall c :: c in p ==> IsLowerHex(c) || c == ':'
    ensures var sb := Rendered(p);
            Join(NonEmpty(Split(p, ':')), ":") ==
            if sb != "" && sb[|sb| - 1] == ':' then sb[..|sb| - 1] else sb
  {
    KeptOfNormal(p);
    NormalFormShape(p);
    hide Split, NonEmpty, Join, Kept;
    var joined := NormalForm(p);
    var sb := Rendered(p);
    assert sb == joined || sb == joined + ":";
    if joined != "" { assert joined[|joined| - 1] != ':'; }
    if sb == joined + ":" { assert sb[..|sb| - 1] == joined; }
  }

  lemma KeptNext(mac: string, i: nat)
    requires i < |mac|
    ensures Kept(mac[..i + 1]) == Kept(mac[..i]) + KeptChar(mac[i])
  {
    assert mac[..i + 1][..i] == mac[..i];
  }

  lemma NothingRendered()
    ensures Kept("") == "" && Rendered("") == "" && !HasGroup("") && NormalForm("") == ""
  {
    assert Split("", ':') == [""] && [""][..0] == [];
  }

  /** One iteration of the scanner: what the builder and the flag become after character `c`. */
  lemma ScanCharacter(p: string, c: char)
    ensures var p' := p + KeptChar(c);
            && (IsLowerHex(c) ==> Rendered(p') == Rendered(p) + [c] && HasGroup(p'))
            && (IsUpperHex(c) ==> Rendered(p') == Rendered(p) + [ToLower(c)] && HasGroup(p'))
            && (!IsLowerHex(c) && !IsUpperHex(c) ==>
                  && HasGroup(p') == HasGroup(p)
                  && Rendered(p') ==
                     if IsSeparator(c) && HasGroup(p) && Rendered(p) != "" && Rendered(p)[|Rendered(p)| - 1] != ':'
                     then Rendered(p) + ":" else Rendered(p))
  {
    if IsLowerHex(c) {
      RenderDigit(p, c);
    } else if IsUpperHex(c) {
      RenderDigit(p, ToLower(c));
    } else if IsSeparator(c) {
      RenderSeparator(p);
    } else {
      assert p + "" == p;
    }
  }

  /** The single pass over the bytes of an address. */
  method ScanMAC(mac: string) returns (result: string)
    ensures result == NormalForm(mac)
  {
    var sb := "";
    var hasContent := false;
    NothingRendered();
    for i := 0 to |mac|
      invariant sb == Rendered(Kept(mac[..i]))
      invariant hasContent == HasGroup(Kept(mac[..i]))
    {
      var c := mac[i];
      KeptNext(mac, i);
      ScanCharacter(Kept(mac[..i]), c);
      if IsLowerHex(c) {
        sb := sb + [c];
        hasContent := true;
      } else if IsUpperHex(c) {
        sb := sb + [ToLower(c)];
        hasContent := true;
      } else if IsSeparator(c) && hasContent {
        if |sb| > 0 && sb[|sb| - 1] != ':' {
          sb := sb + ":";
        }
      }
    }
    assert mac[..|mac|] == mac;
    KeptCharacters(mac);
    RenderedWithoutTrailingColon(Kept(mac));
    result := sb;
    if |result| > 0 && result[|result| - 1] == ':' {
      result := result[..|result| - 1];
    }
  }

  /** The normaliser with its memo table. */
  class MacNormalizer {
    var memo: map<string, string>

    ghost predicate Valid()
      reads this
    {
      forall mac :: mac in memo ==> memo[mac] == NormalForm(mac)
    }

    constructor ()
      ensures Valid() && memo == map[]
    {
      memo := map[];
    }

    method NormalizeMAC(mac: string) returns (result: string)
      requires Valid()
      modifies this
      ensures Valid()
      ensures result == NormalForm(mac)
      ensures memo == if mac == "" then old(memo) else old(memo)[mac := NormalForm(mac)]
    {
      NothingRendered();
      if mac == "" {
        return "";
      }
      if mac in memo {
        assert memo == memo[mac := NormalForm(mac)];
        return memo[mac];
      }
      result := ScanMAC(mac);
      memo := memo[mac := result];
    }

    /** The vendor prefix: the first three groups, or nothing when there are fewer. */
    method ExtractMACOUI(mac: string) returns (oui: string)
      requires Valid()
      modifies this
      ensures Valid()
      ensures oui == VendorPrefix(Groups(mac))
      ensures memo == if mac == "" then old(memo) else old(memo)[mac := NormalForm(mac)]
    {
      var normalized := NormalizeMAC(mac);
      GroupsAreGroups(mac);
      JoinWellSeparated(Groups(mac));
      if normalized == "" {
        return "";
      }
      var parts := Split(normalized, ':');
      assert parts == Groups(mac) by {
        forall g | g in Groups(mac) ensures ':' !in g { assert IsGroup(g); }
        SplitJoin(Groups(mac), ':');
      }
      if |parts| < 3 {
        return "";
      }
      oui := parts[0] + ":" + parts[1] + ":" + parts[2];
      ThreeGroups(parts);
    }
  }

  function VendorPrefix(groups: seq<string>): string {
    if |groups| < 3 then "" else Join(groups[..3], ":")
  }

  lemma ThreeGroups(parts: seq<string>)
    requires |parts| >= 3
    ensures Join(parts[..3], ":") == parts[0] + ":" + parts[1] + ":" + parts[2]
  {
    var t := parts[..3];
    assert t[1..][1..] == [parts[2]];
    assert Join(t[1..], ":") == parts[1] + ":" + parts[2];
    assert parts[0] + ":" + (parts[1] + ":" + parts[2]) == parts[0] + ":" + parts[1] + ":" + parts[2];
  }

  /** The vendor prefix of an address is the normal form of its first three groups, however it is spelled. */
  lemma VendorPrefixGroups(mac: string)
    ensures var g := Groups(mac);
            && (VendorPrefix(g) == "" <==> |g| < 3)
            && (|g| >= 3 ==> Groups(VendorPrefix(g)) == g[..3])
  {
    var g := Groups(mac);
    GroupsAreGroups(mac);
    if |g| >= 3 {
      assert forall x :: x in g[..3] ==> x in g;
      GroupsOfJoin(g[..3]);
      JoinWellSeparated(g[..3]);
    }
  }
}
