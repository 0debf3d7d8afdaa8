/** Host names by their labels. */
module Hostnames {
  import opened Config
  import opened Segments

  /** From `a` to before `b` there is no separator, and there is one, or an end, on either side. */
  predicate Piece(c: char, s: string, a: nat, b: nat) {
    && a <= b <= |s| && (a == 0 || s[a - 1] == c) && (b == |s| || s[b] == c) && c !in s[a..b]
  }

  lemma {:induction false} Undivided(c: char, s: string)
    requires c !in s
    ensures Split(c, s) == [s]
  {
    if s != [] {
      assert s[0] in s && s == [s[0]] + s[1..];
      Undivided(c, s[1..]);
    }
  }

  lemma {:induction false} PiecesClean(c: char, s: string, l: string)
    requires l in Split(c, s)
    ensures c !in l
  {
    if s != [] {
      var rest := Split(c, s[1..]);
      assert rest == [rest[0]] + rest[1..];
      if s[0] == c {
        if l != [] { PiecesClean(c, s[1..], l); }
      } else if l in rest[1..] {
        PiecesClean(c, s[1..], l);
      } else {
        PiecesClean(c, s[1..], rest[0]);
        assert l == [s[0]] + rest[0];
      }
    }
  }

  /** A piece at the end of a text is its last. */
  lemma PieceAtEnd(c: char, s: string, a: nat)
    requires a <= |s| && (a == 0 || s[a - 1] == c) && c !in s[a..]
    ensures s[a..] in Split(c, s)
  {
    Undivided(c, s[a..]);
    if a > 0 {
      assert s == s[..a - 1] + [c] + s[a..];
      SplitTwo(c, s[..a - 1], s[a..]);
    } else {
      assert s == s[a..];
    }
  }

  lemma PieceIsSplit(c: char, s: string, a: nat, b: nat)
    requires Piece(c, s, a, b)
    ensures s[a..b] in Split(c, s)
  {
    var upto := s[..b];
    assert upto[a..] == s[a..b];
    PieceAtEnd(c, upto, a);
    if b < |s| {
      assert s == upto + [c] + s[b + 1..];
      SplitTwo(c, upto, s[b + 1..]);
    } else {
      assert s == upto;
    }
  }

  /** The last piece stands at the end, after a separator unless it is alone. */
  lemma JoinedEnds(c: char, pieces: seq<string>) returns (a: nat)
    requires pieces != []
    ensures var u := Joined(c, pieces); a <= |u| && u[a..] == pieces[|pieces| - 1] && (a == 0 || u[a - 1] == c)
  {
    a := 0;
    if |pieces| > 1 {
      var front, last := pieces[..|pieces| - 1], pieces[|pieces| - 1];
      assert pieces == front + [last];
      JoinedTwo(c, front, [last]);
      a := |Joined(c, front)| + 1;
    }
  }

  /** The first pieces stand at the front, and before a separator unless they are all. */
  lemma JoinedStarts(c: char, front: seq<string>, pieces: seq<string>)
    requires front != [] && front <= pieces
    ensures var u, v := Joined(c, front), Joined(c, pieces); u <= v && (u == v || (|u| < |v| && v[|u|] == c))
  {
    var rest := pieces[|front|..];
    assert pieces == front + rest;
    if rest == [] {
      assert pieces == front;
    } else {
      JoinedTwo(c, front, rest);
    }
  }

  lemma SplitIsPiece(c: char, s: string, l: string) returns (a: nat, b: nat)
    requires l in Split(c, s)
    ensures Piece(c, s, a, b) && s[a..b] == l
  {
    var pieces := Split(c, s);
    var i :| 0 <= i < |pieces| && pieces[i] == l;
    var front := pieces[..i + 1];
    PiecesClean(c, s, l);
    JoinedSplit(c, s);
    JoinedStarts(c, front, pieces);
    a := JoinedEnds(c, front);
    b := |Joined(c, front)|;
    assert s[a..b] == Joined(c, front)[a..];
  }

  predicate LabelOk(l: string) {
    && 1 <= |l| <= 63 && l[0] != '-' && l[|l| - 1] != '-'
    && forall i :: 0 <= i < |l| ==> Alphanumeric(l[i]) || l[i] == '-'
  }

  lemma LabelIsOk(s: string, a: nat, b: nat)
    requires ValidHostname(s) && Piece('.', s, a, b)
    ensures LabelOk(s[a..b])
  {
    assert a < b;
    var l := s[a..b];
    assert forall i :: 0 <= i < |l| ==> l[i] == s[a + i] && l[i] in l;
    forall i | a <= i < b ensures s[i] != '.' { assert s[i] == l[i - a]; }
    assert a <= |s| - 64 ==> DotWithin(s, a);
  }

  /** The piece a position belongs to. */
  lemma PieceAround(c: char, s: string, i: nat) returns (a: nat, b: nat)
    requires i <= |s| && (i < |s| ==> s[i] != c)
    ensures a <= i <= b && Piece(c, s, a, b)
  {
    a, b := i, i;
    while a > 0 && s[a - 1] != c
      invariant 0 <= a <= i && c !in s[a..i]
    {
      a := a - 1;
      assert s[a..i] == [s[a]] + s[a + 1..i];
    }
    while b < |s| && s[b] != c
      invariant a <= i <= b <= |s| && c !in s[a..b]
    {
      b := b + 1;
      assert s[a..b] == s[a..b - 1] + [s[b - 1]];
    }
  }

  /** Every piece between dots is a good label. */
  ghost predicate PiecesOk(s: string) { forall a: nat, b: nat :: Piece('.', s, a, b) ==> LabelOk(s[a..b]) }

  lemma PiecesAreLabels(s: string)
    ensures PiecesOk(s) <==> forall l :: l in Split('.', s) ==> LabelOk(l)
  {
    if PiecesOk(s) {
      forall l | l in Split('.', s) ensures LabelOk(l) {
        var a, b := SplitIsPiece('.', s, l);
      }
    }
    if forall l :: l in Split('.', s) ==> LabelOk(l) {
      forall a: nat, b: nat | Piece('.', s, a, b) ensures LabelOk(s[a..b]) {
        PieceIsSplit('.', s, a, b);
      }
    }
  }

  /** No dot comes first, last, or after another dot. */
  lemma NoEmptyLabel(s: string, i: nat)
    requires PiecesOk(s) && 0 < |s| && i <= |s| && (i == 0 || s[i - 1] == '.')
    ensures i < |s| && s[i] != '.'
  {
    if i == |s| || s[i] == '.' { assert Piece('.', s, i, i); }
  }

  lemma CharacterOk(s: string, i: nat)
    requires PiecesOk(s) && i < |s| && s[i] != '.'
    ensures Alphanumeric(s[i]) || s[i] == '-'
    ensures i == 0 || s[i - 1] == '.' || i == |s| - 1 || s[i + 1] == '.' ==> s[i] != '-'
  {
    var a, b := PieceAround('.', s, i);
    var l := s[a..b];
    assert LabelOk(l) && l[i - a] == s[i];
    if a < i { assert s[i - 1] == l[i - 1 - a]; }
    if i + 1 < b { assert s[i + 1] == l[i + 1 - a]; }
  }

  lemma LabelsShort(s: string, i: nat)
    requires PiecesOk(s) && i + 64 <= |s|
    ensures DotWithin(s, i)
  {
    if s[i] != '.' {
      var a, b := PieceAround('.', s, i);
      assert LabelOk(s[a..b]) && b < i + 64 && s[b] == '.';
    }
  }

  lemma PositionOk(s: string, i: nat)
    requires PiecesOk(s) && i < |s|
    ensures Alphanumeric(s[i]) || s[i] == '-' || s[i] == '.'
    ensures i == 0 || s[i - 1] == '.' || i == |s| - 1 || s[i + 1] == '.' ==> LabelEdge(s[i])
  {
    if s[i] != '.' {
      CharacterOk(s, i);
    } else {
      if i == 0 || s[i - 1] == '.' { NoEmptyLabel(s, i); }
      NoEmptyLabel(s, i + 1);
    }
  }

  lemma GoodPiecesAreValid(s: string)
    requires PiecesOk(s) && 0 < |s| <= 253
    ensures ValidHostname(s)
  {
    forall i | 0 <= i < |s| ensures Alphanumeric(s[i]) || s[i] == '-' || s[i] == '.' { PositionOk(s, i); }
    PositionOk(s, 0);
    PositionOk(s, |s| - 1);
    forall i | 0 < i < |s| && s[i] == '.' ensures LabelEdge(s[i - 1]) { PositionOk(s, i - 1); }
    forall i | 0 < i < |s| && s[i - 1] == '.' ensures LabelEdge(s[i]) { PositionOk(s, i); }
    forall i | 0 <= i <= |s| - 64 ensures DotWithin(s, i) { LabelsShort(s, i); }
  }

  /** A valid host name: up to 253 characters, in labels of 1 to 63 letters, digits and hyphens, no hyphen at an end. */
  lemma ValidByLabels(s: string)
    ensures ValidHostname(s) <==> 0 < |s| <= 253 && forall l :: l in Split('.', s) ==> LabelOk(l)
  {
    PiecesAreLabels(s);
    if ValidHostname(s) {
      forall a: nat, b: nat | Piece('.', s, a, b) ensures LabelOk(s[a..b]) { LabelIsOk(s, a, b); }
    }
    if 0 < |s| <= 253 && PiecesOk(s) { GoodPiecesAreValid(s); }
  }
}
