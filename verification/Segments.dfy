/** Text split at a separator, and joined again. */
module Segments {

  /** The pieces between separators; a text without any is one piece. */
  function Split(c: char, s: string): (pieces: seq<string>)
    ensures pieces != []
  {
    if s == [] then [[]]
    else
      var rest := Split(c, s[1..]);
      if s[0] == c then [[]] + rest else [[s[0]] + rest[0]] + rest[1..]
  }

  function Joined(c: char, pieces: seq<string>): string {
    if pieces == [] then [] else if |pieces| == 1 then pieces[0] else pieces[0] + [c] + Joined(c, pieces[1..])
  }

  lemma {:induction false} JoinedSplit(c: char, s: string)
    ensures Joined(c, Split(c, s)) == s
  {
    if s != [] {
      var rest := Split(c, s[1..]);
      JoinedSplit(c, s[1..]);
      if s[0] == c {
        assert Split(c, s)[1..] == rest;
      } else {
        assert Split(c, s)[1..] == rest[1..] && Split(c, s)[0] == [s[0]] + rest[0];
      }
      assert s == [s[0]] + s[1..];
    }
  }

  lemma {:induction false} JoinedTwo(c: char, a: seq<string>, b: seq<string>)
    requires a != [] && b != []
    ensures Joined(c, a + b) == Joined(c, a) + [c] + Joined(c, b)
  {
    if |a| == 1 {
      assert (a + b)[1..] == b;
    } else {
      assert (a + b)[1..] == a[1..] + b;
      JoinedTwo(c, a[1..], b);
    }
  }

  /** One more character in front: a new piece, or a longer first one. */
  function Before(c: char, x: char, pieces: seq<string>): seq<string>
    requires pieces != []
  {
    if x == c then [[]] + pieces else [[x] + pieces[0]] + pieces[1..]
  }

  lemma SplitOne(c: char, x: char, s: string)
    ensures Split(c, [x] + s) == Before(c, x, Split(c, s))
  {
    assert ([x] + s)[1..] == s;
  }

  lemma BeforeMore(c: char, x: char, a: seq<string>, b: seq<string>)
    requires a != []
    ensures Before(c, x, a + b) == Before(c, x, a) + b
  {
  }

  lemma {:induction false} SplitTwo(c: char, a: string, b: string)
    ensures Split(c, a + [c] + b) == Split(c, a) + Split(c, b)
  {
    if a == [] {
      assert a + [c] + b == [c] + b;
      SplitOne(c, c, b);
    } else {
      var t := a[1..];
      assert a + [c] + b == [a[0]] + (t + [c] + b) && a == [a[0]] + t;
      SplitTwo(c, t, b);
      SplitOne(c, a[0], t + [c] + b);
      SplitOne(c, a[0], t);
      BeforeMore(c, a[0], Split(c, t), Split(c, b));
    }
  }

  /** The pieces of one text are the first pieces of another exactly when it is all of it, or a separator follows it. */
  lemma StartsAtSeparator(c: char, p: string, s: string)
    ensures Split(c, p) <= Split(c, s) <==> s == p || exists t :: s == p + [c] + t
  {
    if Split(c, p) <= Split(c, s) {
      var rest := Split(c, s)[|Split(c, p)|..];
      assert Split(c, s) == Split(c, p) + rest;
      JoinedSplit(c, p);
      JoinedSplit(c, s);
      if rest == [] {
        assert Split(c, s) == Split(c, p);
      } else {
        JoinedTwo(c, Split(c, p), rest);
        assert s == p + [c] + Joined(c, rest);
      }
    }
    if t :| s == p + [c] + t { SplitTwo(c, p, t); }
  }

  /** And its last pieces, with more before them, exactly when a separator comes before it. */
  lemma EndsAtSeparator(c: char, before: seq<string>, p: string, s: string)
    requires before != []
    ensures Split(c, s) == before + Split(c, p) ==> s == Joined(c, before) + [c] + p
  {
    if Split(c, s) == before + Split(c, p) {
      JoinedSplit(c, s);
      JoinedSplit(c, p);
      JoinedTwo(c, before, Split(c, p));
    }
  }
}
