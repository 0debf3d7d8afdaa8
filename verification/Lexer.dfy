/** The configuration tokenizer: one character loop, proved against a recursive reading of the text. */
module Lexer {
  import opened Common

  datatype TokenType = LBrace | RBrace | Semicolon | Ident

  /** `len` counts UTF-8 bytes; `line` is the one-based source line. */
  datatype Token = Token(kind: TokenType, len: nat, lexeme: string, line: nat)

  /** The code point ranges of Unicode `White_Space`. */
  const WHITE_SPACE: seq<(int, int)> := [
    (0x9, 0xD), (0x20, 0x20), (0x85, 0x85), (0xA0, 0xA0), (0x1680, 0x1680), (0x2000, 0x200A),
    (0x2028, 0x2029), (0x202F, 0x202F), (0x205F, 0x205F), (0x3000, 0x3000)]

  predicate InRanges(u: int, ranges: seq<(int, int)>) {
    ranges != [] && (ranges[0].0 <= u <= ranges[0].1 || InRanges(u, ranges[1..]))
  }

  predicate IsWhitespace(c: char) { InRanges(c as int, WHITE_SPACE) }

  lemma {:induction false} NotInRanges(u: int, ranges: seq<(int, int)>)
    requires forall i :: 0 <= i < |ranges| ==> u < ranges[i].0 || ranges[i].1 < u
    ensures !InRanges(u, ranges)
  {
    if ranges != [] { NotInRanges(u, ranges[1..]); }
  }

  /** Nothing but whitespace. */
  predicate Blank(s: string) { forall i :: 0 <= i < |s| ==> IsWhitespace(s[i]) }

  /** The characters with a meaning of their own are not whitespace. */
  lemma MarksAreNotWhite(c: char)
    requires c == '#' || Punct(c).Some?
    ensures !IsWhitespace(c) && !WordChar(c)
  {
    NotInRanges(c as int, WHITE_SPACE);
  }

  function Punct(c: char): Option<TokenType> {
    match c
    case '{' => Some(LBrace)
    case '}' => Some(RBrace)
    case ';' => Some(Semicolon)
    case _ => None
  }

  predicate WordChar(c: char) { !IsWhitespace(c) && c != '#' && Punct(c).None? }

  predicate AllWord(w: string) { forall i :: 0 <= i < |w| ==> WordChar(w[i]) }

  function Utf8Len(c: char): nat {
    if c as int < 0x80 then 1 else if c as int < 0x800 then 2 else if c as int < 0x10000 then 3 else 4
  }

  function ByteLen(s: string): nat {
    if s == [] then 0 else ByteLen(s[..|s| - 1]) + Utf8Len(s[|s| - 1])
  }

  // ---- the recursive reading ----

  /** Length of the longest prefix of word characters. */
  function WordLen(s: string): (n: nat)
    ensures n <= |s|
  {
    if s == [] || !WordChar(s[0]) then 0 else WordLen(s[1..]) + 1
  }

  /** Distance to the next such character, or to the end. */
  function LenTo(c: char, s: string): (n: nat)
    ensures n <= |s|
  {
    if s == [] || s[0] == c then 0 else LenTo(c, s[1..]) + 1
  }

  /** What the reference reads first: at most one token, some characters, and the line it is then on. */
  datatype Reading = Reading(token: Option<Token>, count: nat, line: nat)

  function ReadFirst(s: string, line: nat): (r: Reading)
    requires s != []
    ensures 0 < r.count <= |s|
  {
    if IsWhitespace(s[0]) then Reading(None, 1, if s[0] == '\n' then line + 1 else line)
    else if s[0] == '#' then Reading(None, LenTo('\n', s), line)
    else if Punct(s[0]).Some? then Reading(Some(Token(Punct(s[0]).value, 1, s[..1], line)), 1, line)
    else Reading(Some(Token(Ident, ByteLen(s[..WordLen(s)]), s[..WordLen(s)], line)), WordLen(s), line)
  }

  function Lex(s: string, line: nat): seq<Token>
    decreases |s|
  {
    if s == [] then []
    else
      var r := ReadFirst(s, line);
      var rest := Lex(s[r.count..], r.line);
      if r.token.Some? then [r.token.value] + rest else rest
  }

  lemma {:induction false} WordLenIs(s: string, n: nat)
    requires n <= |s| && (forall k :: 0 <= k < n ==> WordChar(s[k])) && (n < |s| ==> !WordChar(s[n]))
    ensures WordLen(s) == n
  {
    if n > 0 { WordLenIs(s[1..], n - 1); }
  }

  lemma {:induction false} WordLenSpan(s: string)
    ensures forall k :: 0 <= k < WordLen(s) ==> WordChar(s[k])
    ensures WordLen(s) < |s| ==> !WordChar(s[WordLen(s)])
  {
    if s != [] && WordChar(s[0]) {
      WordLenSpan(s[1..]);
      forall k | 0 <= k < WordLen(s) ensures WordChar(s[k]) { if k > 0 { assert s[k] == s[1..][k - 1]; } }
    }
  }

  lemma {:induction false} LenToIs(c: char, s: string, n: nat)
    requires n <= |s| && (forall k :: 0 <= k < n ==> s[k] != c) && (n < |s| ==> s[n] == c)
    ensures LenTo(c, s) == n
  {
    if n > 0 { LenToIs(c, s[1..], n - 1); }
  }

  lemma {:induction false} LenToSpan(c: char, s: string)
    ensures forall k :: 0 <= k < LenTo(c, s) ==> s[k] != c
    ensures LenTo(c, s) < |s| ==> s[LenTo(c, s)] == c
  {
    if s != [] && s[0] != c {
      LenToSpan(c, s[1..]);
      forall k | 0 <= k < LenTo(c, s) ensures s[k] != c { if k > 0 { assert s[k] == s[1..][k - 1]; } }
    }
  }

  /** A word ends where the next character is not a word character. */
  lemma LexWord(w: string, rest: string, line: nat)
    requires w != [] && AllWord(w) && (rest != [] ==> !WordChar(rest[0]))
    ensures Lex(w + rest, line) == [Token(Ident, ByteLen(w), w, line)] + Lex(rest, line)
  {
    var s := w + rest;
    assert s[..|w|] == w && s[|w|..] == rest && WordChar(s[0]);
    WordLenIs(s, |w|);
  }

  // ---- the loop ----

  /** Byte offset of character `i`. */
  function Offset(input: string, i: nat): nat
    requires i <= |input|
  {
    if i == 0 then 0 else Offset(input, i - 1) + Utf8Len(input[i - 1])
  }

  lemma {:induction false} OffsetSpan(input: string, i: nat, j: nat)
    requires i <= j <= |input|
    ensures Offset(input, j) == Offset(input, i) + ByteLen(input[i..j])
    ensures i < j ==> Offset(input, i) < Offset(input, j)
  {
    if i < j {
      OffsetSpan(input, i, j - 1);
      assert input[i..j][..j - 1 - i] == input[i..j - 1];
    }
  }

  predicate WordSpan(input: string, i: nat, j: nat) {
    i <= j <= |input| && forall k :: i <= k < j ==> WordChar(input[k])
  }

  predicate LineSpan(input: string, i: nat, j: nat) { i <= j <= |input| && forall k :: i <= k < j ==> input[k] != '\n' }

  /** What the reference reads from character `i` on. */
  function LexFrom(input: string, i: nat, line: nat): seq<Token>
    requires i <= |input|
  {
    Lex(input[i..], line)
  }

  function WordToken(input: string, i: nat, j: nat, line: nat): Token
    requires i <= j <= |input|
  {
    Token(Ident, ByteLen(input[i..j]), input[i..j], line)
  }

  /** A word ends where the next character is not a word character. */
  lemma LexFromWord(input: string, i: nat, j: nat, line: nat)
    requires i < j && WordSpan(input, i, j) && (j < |input| ==> !WordChar(input[j]))
    ensures LexFrom(input, i, line) == [WordToken(input, i, j, line)] + LexFrom(input, j, line)
  {
    assert input[i..] == input[i..j] + input[j..];
    LexWord(input[i..j], input[j..], line);
  }

  /** A comment runs to the newline, which starts the next line, or to the end of the text. */
  lemma LexFromComment(input: string, i: nat, j: nat, line: nat)
    requires i < j && LineSpan(input, i, j) && input[i] == '#' && (j < |input| ==> input[j] == '\n')
    ensures LexFrom(input, i, line) == if j < |input| then LexFrom(input, j + 1, line + 1) else []
  {
    var s := input[i..];
    assert s[j - i..] == input[j..];
    LenToIs('\n', s, j - i);
    MarksAreNotWhite('#');
    assert Lex(s, line) == Lex(input[j..], line);
    if j < |input| { assert input[j..][0] == '\n' && input[j..][1..] == input[j + 1..]; }
  }

  lemma LexFromSeparator(input: string, i: nat, line: nat)
    requires i < |input| && !WordChar(input[i]) && input[i] != '#'
    ensures LexFrom(input, i, line)
         == if Punct(input[i]).Some? then [Token(Punct(input[i]).value, Utf8Len(input[i]), input[i..i + 1], line)]
                                          + LexFrom(input, i + 1, line)
            else LexFrom(input, i + 1, if input[i] == '\n' then line + 1 else line)
  {
    if Punct(input[i]).Some? { MarksAreNotWhite(input[i]); }
    assert input[i..][0] == input[i] && input[i..][1..] == input[i + 1..] && input[i..][..1] == input[i..i + 1];
  }

  /** The tokens so far are what the reference reads before character `i`. */
  ghost predicate ReadTo(tokens: seq<Token>, input: string, i: nat, line: nat, whole: seq<Token>) {
    i <= |input| && tokens + LexFrom(input, i, line) == whole
  }

  lemma ReadAll(tokens: seq<Token>, input: string, line: nat)
    ensures ReadTo([], input, 0, 1, Lex(input, 1))
    ensures ReadTo(tokens, input, |input|, line, Lex(input, 1)) ==> tokens == Lex(input, 1)
  {
    assert input[0..] == input && input[|input|..] == [];
  }

  lemma ReadOne(tokens: seq<Token>, token: Token, input: string, i: nat, line: nat, j: nat, next: nat,
                whole: seq<Token>)
    requires ReadTo(tokens, input, i, line, whole) && j <= |input|
    requires LexFrom(input, i, line) == [token] + LexFrom(input, j, next)
    ensures ReadTo(tokens + [token], input, j, next, whole)
  {
    assert (tokens + [token]) + LexFrom(input, j, next) == tokens + ([token] + LexFrom(input, j, next));
  }

  /** Where the unread text begins: at the pending word, if there is one. Starts carry their byte offset. */
  function Pending(start: Option<(nat, nat)>, i: nat): nat { if start.Some? then start.value.0 else i }

  predicate PendingWord(input: string, start: Option<(nat, nat)>, i: nat) {
    start.Some? ==> start.value.0 < i && WordSpan(input, start.value.0, i)
                    && start.value.1 == Offset(input, start.value.0)
  }

  /** Pushes the pending word. */
  method Flush(tokens: seq<Token>, input: string, start: Option<(nat, nat)>, end: nat, endByte: nat, line: nat,
               ghost whole: seq<Token>) returns (out: seq<Token>)
    requires end <= |input| && endByte == Offset(input, end) && PendingWord(input, start, end)
    requires ReadTo(tokens, input, Pending(start, end), line, whole) && (end < |input| ==> !WordChar(input[end]))
    ensures ReadTo(out, input, end, line, whole)
    ensures out == if start.Some? then tokens + [WordToken(input, start.value.0, end, line)] else tokens
  {
    if start.None? {
      return tokens;
    }
    var (s, sByte) := start.value;
    OffsetSpan(input, s, end);
    if sByte < endByte {
      out := tokens + [Token(Ident, endByte - sByte, input[s..end], line)];
    } else {
      out := tokens;
    }
    LexFromWord(input, s, end, line);
    ReadOne(tokens, WordToken(input, s, end, line), input, s, line, end, line, whole);
  }

  /** Consumes the rest of a comment, with its newline if it has one. */
  method SkipComment(input: string, from: nat, fromByte: nat, line: nat) returns (i: nat, at: nat, next: nat)
    requires from < |input| && input[from] == '#' && fromByte == Offset(input, from)
    ensures from < i <= |input| && at == Offset(input, i)
    ensures LexFrom(input, i, next) == LexFrom(input, from, line)
  {
    i, at, next := from + 1, fromByte + Utf8Len('#'), line;
    while i < |input|
      invariant from < i <= |input| && at == Offset(input, i) && LineSpan(input, from, i)
    {
      at := at + Utf8Len(input[i]);
      i := i + 1;
      if input[i - 1] == '\n' {
        LexFromComment(input, from, i - 1, line);
        next := line + 1;
        return;
      }
    }
    LexFromComment(input, from, i, line);
  }

  /** A newline, other whitespace, or a punctuation token. */
  method ReadSeparator(tokens: seq<Token>, input: string, i: nat, line: nat, ghost whole: seq<Token>)
    returns (out: seq<Token>, next: nat)
    requires i < |input| && !WordChar(input[i]) && input[i] != '#' && ReadTo(tokens, input, i, line, whole)
    ensures ReadTo(out, input, i + 1, next, whole)
  {
    out, next := tokens, line;
    LexFromSeparator(input, i, line);
    var c := input[i];
    if c == '\n' {
      next := line + 1;
    } else if Punct(c).Some? {
      var token := Token(Punct(c).value, Utf8Len(c), input[i..i + 1], line);
      ReadOne(tokens, token, input, i, line, i + 1, line, whole);
      out := tokens + [token];
    }
  }

  method Tokenize(input: string) returns (tokens: seq<Token>)
    ensures tokens == Lex(input, 1)
  {
    tokens := [];
    var line := 1;
    var start: Option<(nat, nat)> := None;
    var i, at := 0, 0;
    ghost var whole := Lex(input, 1);
    ReadAll(tokens, input, line);
    while i < |input|
      invariant 0 <= i <= |input| && at == Offset(input, i) && PendingWord(input, start, i)
      invariant ReadTo(tokens, input, Pending(start, i), line, whole)
      decreases |input| - i
    {
      var c := input[i];
      if WordChar(c) {
        if start.None? {
          start := Some((i, at));
        }
      } else {
        tokens := Flush(tokens, input, start, i, at, line, whole);
        start := None;
        if c == '#' {
          i, at, line := SkipComment(input, i, at, line);
          continue;
        }
        tokens, line := ReadSeparator(tokens, input, i, line, whole);
      }
      at := at + Utf8Len(c);
      i := i + 1;
    }
    tokens := Flush(tokens, input, start, |input|, at, line, whole);
    ReadAll(tokens, input, line);
  }
}
