/** Paths by their segments. */
module PathSegments {
  import opened Config
  import opened Segments

  /** Without the empty segments at the end, but never without any. */
  function Closed(segments: seq<string>): seq<string> {
    if |segments| > 1 && segments[|segments| - 1] == "" then Closed(segments[..|segments| - 1]) else segments
  }

  lemma LastSlash(s: string)
    requires s != [] && s[|s| - 1] == '/'
    ensures Split('/', s) == Split('/', s[..|s| - 1]) + [""]
  {
    assert s == s[..|s| - 1] + ['/'] + [];
    SplitTwo('/', s[..|s| - 1], []);
  }

  lemma {:induction false} LastPieceEmpty(c: char, s: string)
    ensures var l := Split(c, s); l[|l| - 1] == "" <==> s == [] || s[|s| - 1] == c
  {
    if s != [] {
      LastPieceEmpty(c, s[1..]);
      var rest := Split(c, s[1..]);
      if s[1..] == [] { assert rest == [[]]; }
    }
  }

  /** Dropping slashes at the end of a path is dropping empty segments at its end. */
  lemma {:induction false} TrimmedIsClosed(s: string)
    ensures Split('/', TrimSlashes(s)) == Closed(Split('/', s))
  {
    LastPieceEmpty('/', s);
    if s != [] && s[|s| - 1] == '/' {
      LastSlash(s);
      TrimmedIsClosed(s[..|s| - 1]);
      assert Split('/', s)[..|Split('/', s)| - 1] == Split('/', s[..|s| - 1]);
    }
  }

  /** A path is a directory or below it exactly when it begins with the segments of the directory. */
  lemma BelowBySegments(dir: string, path: string)
    ensures var d := TrimSlashes(dir); path == d || d + "/" <= path <==> Closed(Split('/', dir)) <= Split('/', path)
  {
    var d := TrimSlashes(dir);
    TrimmedIsClosed(dir);
    StartsAtSeparator('/', d, path);
    if d + "/" <= path {
      assert path == d + ['/'] + path[|d| + 1..];
    }
    if t :| path == d + ['/'] + t { assert d + "/" <= path; }
  }
}
