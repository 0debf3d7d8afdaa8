/**
  * What the tokenizer reads back: symbols laid out in text with any blanks and comments between them.
  * A text is tokenized to exactly the symbols it lays out, with the lines they stand on.
  */
module TextLayout {
  import opened Common
  import opened Lexer

  datatype Sym = Word(text: string) | Open | Close | End

  /** A text, piece by piece. A comment ends with its newline; only the last one may lack it. */
  datatype Layout =
    | Empty
    | LastComment(remark: string)
    | Space(c: char, rest: Layout)
    | Comment(remark: string, rest: Layout)
    | Item(sym: Sym, rest: Layout)

  function Text(sym: Sym): string {
    match sym case Word(w) => w case Open => "{" case Close => "}" case End => ";"
  }

  function Kind(sym: Sym): TokenType {
    match sym case Word(_) => Ident case Open => LBrace case Close => RBrace case End => Semicolon
  }

  function Erase(t: Token): Sym {
    match t.kind case Ident => Word(t.lexeme) case LBrace => Open case RBrace => Close case Semicolon => End
  }

  function Syms(ts: seq<Token>): seq<Sym> { seq(|ts|, i requires 0 <= i < |ts| => Erase(ts[i])) }

  predicate WordOk(w: string) { w != [] && AllWord(w) }

  predicate SymOk(sym: Sym) { sym.Word? ==> WordOk(sym.text) }

  predicate OneLine(s: string) { forall k :: 0 <= k < |s| ==> s[k] != '\n' }

  function Render(l: Layout): string {
    match l
    case Empty => []
    case LastComment(remark) => ['#'] + remark
    case Space(c, rest) => [c] + Render(rest)
    case Comment(remark, rest) => ['#'] + remark + (['\n'] + Render(rest))
    case Item(sym, rest) => Text(sym) + Render(rest)
  }

  /** Spaces are spaces, remarks stay on their line, words are proper words and never touch. */
  predicate WellSpaced(l: Layout) {
    match l
    case Empty => true
    case LastComment(remark) => OneLine(remark)
    case Space(c, rest) => IsWhitespace(c) && WellSpaced(rest)
    case Comment(remark, rest) => OneLine(remark) && WellSpaced(rest)
    case Item(sym, rest) => SymOk(sym) && WellSpaced(rest) && !(sym.Word? && rest.Item? && rest.sym.Word?)
  }

  function TokenAt(sym: Sym, line: nat): Token { Token(Kind(sym), ByteLen(Text(sym)), Text(sym), line) }

  /** The tokens a layout stands for, with their byte lengths and lines. */
  function Tokens(l: Layout, line: nat): seq<Token> {
    match l
    case Empty => []
    case LastComment(_) => []
    case Space(c, rest) => Tokens(rest, if c == '\n' then line + 1 else line)
    case Comment(_, rest) => Tokens(rest, line + 1)
    case Item(sym, rest) => [TokenAt(sym, line)] + Tokens(rest, line)
  }

  function SymsOf(l: Layout): seq<Sym> {
    match l
    case Empty => []
    case LastComment(_) => []
    case Space(_, rest) => SymsOf(rest)
    case Comment(_, rest) => SymsOf(rest)
    case Item(sym, rest) => [sym] + SymsOf(rest)
  }

  // ---- text to tokens ----

  lemma LexSpace(c: char, rest: string, line: nat)
    requires IsWhitespace(c)
    ensures Lex([c] + rest, line) == Lex(rest, if c == '\n' then line + 1 else line)
  {
    assert ([c] + rest)[1..] == rest;
  }

  lemma LexComment(remark: string, rest: string, line: nat)
    requires OneLine(remark) && (rest != [] ==> rest[0] == '\n')
    ensures Lex(['#'] + remark + rest, line) == Lex(rest, line)
  {
    var s := ['#'] + remark + rest;
    MarksAreNotWhite('#');
    assert s[1 + |remark|..] == rest;
    assert forall k :: 0 <= k < |remark| ==> s[k + 1] == remark[k];
    LenToIs('\n', s, 1 + |remark|);
  }

  lemma MarkLen(sym: Sym)
    requires !sym.Word?
    ensures |Text(sym)| == 1 && ByteLen(Text(sym)) == 1
  {
    assert Text(sym)[..0] == [];
  }

  lemma LexSym(sym: Sym, rest: string, line: nat)
    requires SymOk(sym) && (sym.Word? && rest != [] ==> !WordChar(rest[0]))
    ensures Lex(Text(sym) + rest, line) == [TokenAt(sym, line)] + Lex(rest, line)
  {
    if sym.Word? {
      LexWord(sym.text, rest, line);
    } else {
      var s := Text(sym) + rest;
      MarkLen(sym);
      assert s[1..] == rest && s[..1] == Text(sym) && Punct(s[0]) == Some(Kind(sym));
      MarksAreNotWhite(s[0]);
    }
  }

  /** A well-spaced text starts with a word character only if a word comes first. */
  lemma FirstChar(l: Layout)
    requires WellSpaced(l) && !(l.Item? && l.sym.Word?)
    ensures Render(l) != [] ==> !WordChar(Render(l)[0])
  {
    match l
    case Item(sym, rest) => MarkLen(sym); MarksAreNotWhite(Text(sym)[0]);
    case _ => MarksAreNotWhite('#');
  }

  /** Tokenizing a layout gives its symbols back, whatever its blanks and comments. */
  lemma {:induction false} LexRender(l: Layout, line: nat)
    requires WellSpaced(l)
    ensures Lex(Render(l), line) == Tokens(l, line)
  {
    match l
    case Empty =>
    case LastComment(remark) =>
      LexComment(remark, [], line);
      assert ['#'] + remark + [] == Render(l);
    case Space(c, rest) =>
      LexSpace(c, Render(rest), line);
      LexRender(rest, if c == '\n' then line + 1 else line);
    case Comment(remark, rest) =>
      LexComment(remark, ['\n'] + Render(rest), line);
      LexSpace('\n', Render(rest), line);
      LexRender(rest, line + 1);
    case Item(sym, rest) =>
      if sym.Word? { FirstChar(rest); }
      LexSym(sym, Render(rest), line);
      LexRender(rest, line);
  }

  // ---- every text is a layout ----

  function Mark(c: char): Sym { if c == '{' then Open else if c == '}' then Close else End }

  /** A text that starts with a newline starts with a blank. */
  lemma NewlineFirst(l: Layout)
    requires WellSpaced(l) && Render(l) != [] && Render(l)[0] == '\n'
    ensures l.Space? && l.c == '\n'
  {
  }

  lemma {:induction false} CommentLayout(s: string) returns (l: Layout)
    requires s != [] && s[0] == '#'
    ensures WellSpaced(l) && Render(l) == s
    decreases |s|, 0
  {
    var n := LenTo('\n', s);
    LenToSpan('\n', s);
    var remark := s[1..n];
    if n == |s| {
      l := LastComment(remark);
    } else {
      var m := EveryTextIsALayout(s[n..]);
      NewlineFirst(m);
      l := Comment(remark, m.rest);
      assert s[n..] == ['\n'] + Render(m.rest) && s == ['#'] + remark + s[n..];
    }
  }

  lemma {:induction false} SymLayout(s: string) returns (l: Layout)
    requires s != [] && !IsWhitespace(s[0]) && s[0] != '#'
    ensures WellSpaced(l) && Render(l) == s
    decreases |s|, 0
  {
    var n := if WordChar(s[0]) then WordLen(s) else 1;
    WordLenSpan(s);
    var m := EveryTextIsALayout(s[n..]);
    var sym := if WordChar(s[0]) then Word(s[..n]) else Mark(s[0]);
    assert s == s[..n] + s[n..] && Text(sym) == s[..n];
    if m.Item? { assert Render(m)[0] == Text(m.sym)[0]; }
    l := Item(sym, m);
  }

  /** Every text is a well-spaced layout of something, so the tokenizer has no other inputs. */
  lemma {:induction false} EveryTextIsALayout(s: string) returns (l: Layout)
    ensures WellSpaced(l) && Render(l) == s
    decreases |s|, 1
  {
    if s == [] {
      l := Empty;
    } else if IsWhitespace(s[0]) {
      var m := EveryTextIsALayout(s[1..]);
      l := Space(s[0], m);
      assert s == [s[0]] + s[1..];
    } else if s[0] == '#' {
      l := CommentLayout(s);
    } else {
      l := SymLayout(s);
    }
  }

  // ---- the symbols of a text ----

  lemma {:induction false} TokensErase(l: Layout, line: nat)
    ensures Syms(Tokens(l, line)) == SymsOf(l)
  {
    match l
    case Empty =>
    case LastComment(_) =>
    case Space(c, rest) => TokensErase(rest, if c == '\n' then line + 1 else line);
    case Comment(_, rest) => TokensErase(rest, line + 1);
    case Item(sym, rest) => TokensErase(rest, line);
  }

  predicate AllOk(syms: seq<Sym>) { forall i :: 0 <= i < |syms| ==> SymOk(syms[i]) }

  lemma {:induction false} WellSpacedSymsOk(l: Layout)
    requires WellSpaced(l)
    ensures AllOk(SymsOf(l))
  {
    if !l.Empty? && !l.LastComment? { WellSpacedSymsOk(l.rest); }
  }

  /** Every word the tokenizer produces could be written back. */
  lemma LexedWordsOk(s: string)
    ensures AllOk(Syms(Lex(s, 1)))
  {
    var l := EveryTextIsALayout(s);
    LexRender(l, 1);
    TokensErase(l, 1);
    WellSpacedSymsOk(l);
  }
}
