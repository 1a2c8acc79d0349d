/** Comma-separated environment values (util/util.go, GetEnvStringSlice). */
module EnvList {
  import opened Text

  function TidyPiece(piece: string): seq<string> {
    if Trim(piece) == "" then [] else [Trim(piece)]
  }

  /** Trim every piece and drop the blank ones. */
  function Tidy(pieces: seq<string>): seq<string> {
    if pieces == [] then []
    else TidyPiece(pieces[0]) + Tidy(pieces[1..])
  }

  /** What a set, non-empty value means: split at commas, trim, drop empties. */
  function Items(v: string): seq<string> {
    Tidy(Split(v, ','))
  }

  predicate IsItem(s: string) {
    s != "" && Trimmed(s) && ',' !in s
  }

  function EnvStringSlice(v: string, def: string): seq<string> {
    if v == "" then (if def == "" then [] else [def])
    else if ',' !in v then [Trim(v)]
    else Items(v)
  }

  /** The rest of the scan from `start`: nothing once `start` has passed the end. */
  ghost function ItemsFrom(v: string, start: nat): seq<string> {
    if start <= |v| then Items(v[start..]) else []
  }

  lemma TidyOne(piece: string)
    ensures Tidy([piece]) == TidyPiece(piece)
  {
    assert [piece][1..] == [];
  }

  /** The piece that began at `start` ends at a comma or at the end of the value. */
  lemma PieceEnds(v: string, start: nat, i: nat)
    requires start <= i <= |v| && ',' !in v[start..i]
    requires i < |v| ==> v[i] == ','
    ensures ItemsFrom(v, start) == TidyPiece(v[start..i]) + ItemsFrom(v, i + 1)
  {
    var piece := v[start..i];
    if i == |v| {
      assert v[start..] == piece;
      SplitWithoutSeparator(piece, ',');
      TidyOne(piece);
    } else {
      var rest := Split(v[i + 1..], ',');
      assert v[start..] == piece + [','] + v[i + 1..];
      SplitAtSeparator(piece, v[i + 1..], ',');
      assert ([piece] + rest)[1..] == rest;
    }
  }

  lemma ConcatAssociative(a: seq<string>, b: seq<string>, c: seq<string>)
    ensures a + (b + c) == a + b + c
  {
  }

  /** The items found so far and those of the rest make up the whole value. */
  ghost predicate Scanned(v: string, start: nat, found: seq<string>) {
    Items(v) == found + ItemsFrom(v, start)
  }

  lemma Advance(v: string, start: nat, i: nat, found: seq<string>)
    requires start <= i <= |v| && forall k :: start <= k < i ==> v[k] != ','
    requires i < |v| ==> v[i] == ','
    requires Scanned(v, start, found)
    ensures var s := Trim(v[start..i]); Scanned(v, i + 1, if s == "" then found else found + [s])
    ensures start == i ==> Trim(v[start..i]) == ""
  {
    assert found + [] == found;
    PieceEnds(v, start, i);
    ConcatAssociative(found, TidyPiece(v[start..i]), ItemsFrom(v, i + 1));
  }

  lemma ScanBounds(v: string, found: seq<string>)
    ensures Scanned(v, 0, [])
    ensures Scanned(v, |v| + 1, found) ==> found == Items(v)
  {
    assert v[0..] == v;
    assert found + [] == found;
  }

  /** The one-pass scanner finds the same items as splitting, trimming and filtering. */
  method GetEnvStringSlice(v: string, def: string) returns (result: seq<string>)
    ensures result == EnvStringSlice(v, def)
    ensures v == "" ==> result == if def == "" then [] else [def]
  {
    hide Scanned, Trim;
    if v != "" {
      if ',' !in v {
        return [Trim(v)];
      }
      result := [];
      var start := 0;
      ScanBounds(v, result);
      for i := 0 to |v| + 1
        invariant start <= i && (start <= |v| || i == |v| + 1)
        invariant i <= |v| ==> forall k :: start <= k < i ==> v[k] != ','
        invariant i == |v| + 1 ==> start == i
        invariant Scanned(v, start, result)
      {
        if i == |v| || v[i] == ',' {
          Advance(v, start, i, result);
          if start < i {
            var s := Trim(v[start..i]);
            if s != "" {
              result := result + [s];
            }
          }
          start := i + 1;
        }
      }
      ScanBounds(v, result);
      return;
    }
    if def == "" {
      return [];
    }
    return [def];
  }

  lemma {:induction false} TidyOfItems(items: seq<string>)
    requires forall s :: s in items ==> IsItem(s)
    ensures Tidy(items) == items
  {
    if items != [] {
      assert IsItem(items[0]);
      TrimOfTrimmed(items[0]);
      TidyOfItems(items[1..]);
    }
  }

  /** Joining a list with commas and reading it back gives the list. */
  lemma RoundTrip(items: seq<string>, def: string)
    requires items != [] && forall s :: s in items ==> IsItem(s)
    ensures EnvStringSlice(Join(items, ","), def) == items
  {
    assert IsItem(items[0]);
    if |items| == 1 {
      TrimOfTrimmed(items[0]);
    } else {
      var v := Join(items, ",");
      assert v == items[0] + "," + Join(items[1..], ",");
      assert v[|items[0]|] == ',';
      SplitJoin(items, ',');
      TidyOfItems(items);
    }
  }

  predicate AllSpaces(s: string) {
    forall i :: 0 <= i < |s| ==> IsSpace(s[i])
  }

  lemma {:induction false} TrimLeftPadded(pad: string, s: string)
    requires AllSpaces(pad) && s != "" && !IsSpace(s[0])
    ensures TrimLeft(pad + s) == s
  {
    if pad == "" {
      assert pad + s == s;
    } else {
      assert (pad + s)[0] == pad[0] && (pad + s)[1..] == pad[1..] + s;
      TrimLeftPadded(pad[1..], s);
    }
  }

  lemma {:induction false} TrimRightPadded(s: string, pad: string)
    requires AllSpaces(pad) && s != "" && !IsSpace(s[|s| - 1])
    ensures TrimRight(s + pad) == s
  {
    if pad == "" {
      assert s + pad == s;
    } else {
      var n := |pad| - 1;
      assert (s + pad)[|s + pad| - 1] == pad[n] && (s + pad)[..|s + pad| - 1] == s + pad[..n];
      TrimRightPadded(s, pad[..n]);
    }
  }

  /** A piece that spells an item, with spaces around it. */
  ghost predicate Pads(piece: string, item: string) {
    exists l, r :: Padded(piece, l, item, r)
  }

  predicate Padded(piece: string, l: string, item: string, r: string) {
    AllSpaces(l) && AllSpaces(r) && piece == l + item + r
  }

  lemma TidyPadded(piece: string, item: string)
    requires IsItem(item) && Pads(piece, item)
    ensures TidyPiece(piece) == [item]
  {
    var l, r :| Padded(piece, l, item, r);
    assert l + item + r == l + (item + r) && (item + r)[0] == item[0];
    TrimLeftPadded(l, item + r);
    TrimRightPadded(item, r);
  }

  lemma {:induction false} TidyOfPadded(pieces: seq<string>, items: seq<string>)
    requires |pieces| == |items|
    requires forall i :: 0 <= i < |items| ==> IsItem(items[i]) && Pads(pieces[i], items[i])
    ensures Tidy(pieces) == items
  {
    hide TidyPiece, IsItem, Pads;
    if items != [] {
      TidyPadded(pieces[0], items[0]);
      TidyOfPadded(pieces[1..], items[1..]);
    }
  }

  /** The usual way to write a list: items with spaces around them and commas between are read back as the items. */
  lemma PaddedRoundTrip(pieces: seq<string>, items: seq<string>, def: string)
    requires |pieces| == |items| >= 1
    requires forall i :: 0 <= i < |items| ==>
               IsItem(items[i]) && Pads(pieces[i], items[i]) && ',' !in pieces[i]
    ensures EnvStringSlice(Join(pieces, ","), def) == items
  {
    TidyOfPadded(pieces, items);
    SplitJoin(pieces, ',');
    var v := Join(pieces, ",");
    PadsNonEmpty(pieces[0], items[0]);
    if |pieces| == 1 {
      TidyOne(pieces[0]);
      TidyPadded(pieces[0], items[0]);
    } else {
      assert v == pieces[0] + "," + Join(pieces[1..], ",");
      assert v[|pieces[0]|] == ',';
    }
  }

  lemma PadsNonEmpty(piece: string, item: string)
    requires IsItem(item) && Pads(piece, item)
    ensures piece != ""
  {
  }

  /** A set value without a comma takes a short cut that keeps a blank item, so the value means its tidy items
      exactly when it holds a comma or is not blank. */
  lemma ShortCutAgrees(v: string, def: string)
    requires v != ""
    ensures EnvStringSlice(v, def) == Items(v) <==> (',' in v || Trim(v) != "")
  {
    if ',' !in v {
      SplitWithoutSeparator(v, ',');
      TidyOne(v);
    }
  }

  /** Every item read from a value with a comma is trimmed, non-empty and comma-free. */
  lemma ItemsAreItems(v: string)
    ensures forall s :: s in Items(v) ==> IsItem(s)
  {
    SplitPiecesHaveNoSeparator(v, ',');
    TidyAreItems(Split(v, ','));
  }

  lemma {:induction false} TidyAreItems(pieces: seq<string>)
    requires forall i :: 0 <= i < |pieces| ==> ',' !in pieces[i]
    ensures forall s :: s in Tidy(pieces) ==> IsItem(s)
  {
    if pieces != [] {
      TrimIsTrimmed(pieces[0]);
      TidyAreItems(pieces[1..]);
    }
  }
}
