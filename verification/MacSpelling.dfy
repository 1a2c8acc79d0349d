/** How an address may be spelled (util/util.go, NormalizeMAC): every spelling of the same groups of hexadecimal digits
    normalises to those groups, digit by digit. */
module MacSpelling {
  import opened Text
  import opened MacAddress

  /** The value of a hexadecimal digit of either case, or -1. */
  function HexValue(c: char): int {
    if '0' <= c <= '9' then c as int - '0' as int
    else if 'a' <= c <= 'f' then 10 + (c as int - 'a' as int)
    else if 'A' <= c <= 'F' then 10 + (c as int - 'A' as int)
    else -1
  }

  /** The values of the digits in a string, in order. */
  function HexValues(s: string): seq<int> {
    if s == "" then []
    else
      HexValues(s[..|s| - 1]) + if HexValue(s[|s| - 1]) >= 0 then [HexValue(s[|s| - 1])] else []
  }

  /** What a character contributes: a digit itself, in lower case and with the same value; one of the four separators a
      colon; any other character nothing. */
  lemma CharacterKept(c: char)
    ensures HexValue(c) >= 0 ==>
              && |KeptChar(c)| == 1 && HexValue(KeptChar(c)[0]) == HexValue(c)
              && ('0' <= KeptChar(c)[0] <= '9' || 'a' <= KeptChar(c)[0] <= 'f')
    ensures c == '-' || c == '.' || c == ':' || c == ' ' ==> KeptChar(c) == ":"
    ensures HexValue(c) < 0 && c != '-' && c != '.' && c != ':' && c != ' ' ==> KeptChar(c) == ""
  {
  }

  lemma {:induction false} KeptAppend(a: string, b: string)
    ensures Kept(a + b) == Kept(a) + Kept(b)
  {
    hide KeptChar;
    if b == "" {
      assert a + b == a && Kept(a) + "" == Kept(a);
    } else {
      var front, last := b[..|b| - 1], b[|b| - 1];
      KeptAppend(a, front);
      assert (a + b)[..|a + b| - 1] == a + front;
      assert Kept(a) + (Kept(front) + KeptChar(last)) == Kept(a) + Kept(front) + KeptChar(last);
    }
  }

  /** A piece of an address: no separator in it. Its digits may be of either case, with other characters between. */
  predicate IsPiece(p: string) {
    forall i :: 0 <= i < |p| ==> p[i] != '-' && p[i] != '.' && p[i] != ':' && p[i] != ' '
  }

  predicate IsSeparatorChar(c: char) {
    c == '-' || c == '.' || c == ':' || c == ' '
  }

  /** The pieces spelled out, with any separators between them. */
  function Spelled(pieces: seq<string>, separators: seq<char>): string
    requires |pieces| >= 1 && |separators| == |pieces| - 1
  {
    if |pieces| == 1 then pieces[0]
    else Spelled(pieces[..|pieces| - 1], separators[..|separators| - 1])
         + [separators[|separators| - 1]] + pieces[|pieces| - 1]
  }

  /** The pieces as normalisation keeps them. */
  function KeptPieces(pieces: seq<string>): seq<string> {
    seq(|pieces|, i requires 0 <= i < |pieces| => Kept(pieces[i]))
  }

  lemma {:induction false} PieceKeepsItsDigits(p: string)
    ensures HexValues(Kept(p)) == HexValues(p)
    ensures IsPiece(p) ==> ':' !in Kept(p)
  {
    if p != "" {
      var front, last := p[..|p| - 1], p[|p| - 1];
      PieceKeepsItsDigits(front);
      CharacterKept(last);
      hide KeptChar;
      if KeptChar(last) == "" {
        assert Kept(front) + "" == Kept(front);
      } else {
        var c := KeptChar(last)[0];
        assert KeptChar(last) == [c];
        assert (Kept(front) + [c])[..|Kept(front)|] == Kept(front);
      }
    }
  }

  lemma KeptBetween(front: string, c: char, last: string)
    requires IsSeparatorChar(c)
    ensures Kept(front + [c] + last) == Kept(front) + ":" + Kept(last)
  {
    assert [c][..0] == "" && Kept([c]) == ":";
    hide Kept;
    KeptAppend(front + [c], last);
    KeptAppend(front, [c]);
  }

  lemma KeptPiecesSnoc(pieces: seq<string>, last: string)
    ensures KeptPieces(pieces + [last]) == KeptPieces(pieces) + [Kept(last)]
  {
  }

  lemma {:induction false} KeptSpelled(pieces: seq<string>, separators: seq<char>)
    requires |pieces| >= 1 && |separators| == |pieces| - 1
    requires forall i :: 0 <= i < |separators| ==> IsSeparatorChar(separators[i])
    ensures Kept(Spelled(pieces, separators)) == Join(KeptPieces(pieces), ":")
  {
    hide Kept;
    if |pieces| == 1 {
      assert KeptPieces(pieces) == [Kept(pieces[0])];
    } else {
      var n := |pieces| - 1;
      var front, c, last := Spelled(pieces[..n], separators[..n - 1]), separators[n - 1], pieces[n];
      KeptSpelled(pieces[..n], separators[..n - 1]);
      KeptBetween(front, c, last);
      assert pieces == pieces[..n] + [last];
      KeptPiecesSnoc(pieces[..n], last);
      hide Join, KeptPieces;
      PiecesCount(pieces[..n]);
      JoinSnoc(KeptPieces(pieces[..n]), Kept(last), ":");
    }
  }

  lemma PiecesCount(pieces: seq<string>)
    ensures |KeptPieces(pieces)| == |pieces|
  {
  }

  /** The groups of an address are its pieces, however separated, without the pieces that have no digit; each in lower
      case with its digits unchanged. */
  lemma GroupsOfSpelling(pieces: seq<string>, separators: seq<char>)
    requires |pieces| >= 1 && |separators| == |pieces| - 1
    requires forall i :: 0 <= i < |separators| ==> IsSeparatorChar(separators[i])
    requires forall i :: 0 <= i < |pieces| ==> IsPiece(pieces[i])
    ensures Groups(Spelled(pieces, separators)) == NonEmpty(KeptPieces(pieces))
    ensures forall i :: 0 <= i < |pieces| ==> HexValues(KeptPieces(pieces)[i]) == HexValues(pieces[i])
  {
    KeptSpelled(pieces, separators);
    forall i | 0 <= i < |pieces|
      ensures ':' !in KeptPieces(pieces)[i] && HexValues(KeptPieces(pieces)[i]) == HexValues(pieces[i])
    {
      PieceKeepsItsDigits(pieces[i]);
    }
    hide Kept, HexValues, NonEmpty;
    SplitJoin(KeptPieces(pieces), ':');
  }
}
