/** The configuration grammar: recursive descent over tokens, proved to accept exactly the printed trees. */
module Parser {
  import opened Common
  import opened Lexer
  import opened TextLayout

  datatype Node =
    | Directive(name: string, args: seq<string>)
    | Block(name: string, args: seq<string>, children: seq<Node>)

  datatype ParseError =
    | UnexpectedEof
    | UnexpectedClose
    | EofExpectedClose
    | Expected(wanted: TokenType, got: TokenType)
    | ExpectedEndOrOpen(got: TokenType)
    | EofAfterDirective

  datatype Parsed<T> = Parsed(value: T, rest: seq<Sym>)

  // ---- the printed form of a tree ----

  function Words(args: seq<string>): seq<Sym> { seq(|args|, i requires 0 <= i < |args| => Word(args[i])) }

  function Head(name: string, args: seq<string>): seq<Sym> { [Word(name)] + Words(args) }

  function Flatten(n: Node): seq<Sym>
    decreases n, 0
  {
    match n
    case Directive(name, args) => Head(name, args) + [End]
    case Block(name, args, children) => Head(name, args) + [Open] + FlattenAll(children) + [Close]
  }

  function FlattenAll(ns: seq<Node>): seq<Sym>
    decreases ns, 1
  {
    if ns == [] then [] else Flatten(ns[0]) + FlattenAll(ns[1..])
  }

  // ---- the grammar, as functions on the symbols that remain ----

  function TakeWords(ts: seq<Sym>): (r: Parsed<seq<string>>)
    ensures |r.rest| <= |ts|
  {
    if ts != [] && ts[0].Word? then
      var more := TakeWords(ts[1..]);
      Parsed([ts[0].text] + more.value, more.rest)
    else Parsed([], ts)
  }

  function ParseItems(ts: seq<Sym>, untilClose: bool): (r: Result<Parsed<seq<Node>>, ParseError>)
    ensures r.Ok? ==> |r.value.rest| <= |ts|
    decreases |ts|, 1
  {
    if ts == [] then (if untilClose then Err(EofExpectedClose) else Ok(Parsed([], ts)))
    else if ts[0].Close? then (if untilClose then Ok(Parsed([], ts)) else Err(UnexpectedClose))
    else
      match ParseStmt(ts)
      case Err(e) => Err(e)
      case Ok(first) =>
        match ParseItems(first.rest, untilClose)
        case Err(e) => Err(e)
        case Ok(more) => Ok(Parsed([first.value] + more.value, more.rest))
  }

  function ParseStmt(ts: seq<Sym>): (r: Result<Parsed<Node>, ParseError>)
    ensures r.Ok? ==> |r.value.rest| < |ts|
    decreases |ts|, 0
  {
    if ts == [] then Err(UnexpectedEof)
    else if !ts[0].Word? then Err(Expected(Ident, Kind(ts[0])))
    else
      var args := TakeWords(ts[1..]);
      if args.rest == [] then Err(EofAfterDirective)
      else if args.rest[0].End? then Ok(Parsed(Directive(ts[0].text, args.value), args.rest[1..]))
      else if args.rest[0].Open? then
        match ParseItems(args.rest[1..], true)
        case Err(e) => Err(e)
        case Ok(children) =>
          if children.rest == [] then Err(UnexpectedEof)
          else if !children.rest[0].Close? then Err(Expected(RBrace, Kind(children.rest[0])))
          else Ok(Parsed(Block(ts[0].text, args.value, children.value), children.rest[1..]))
      else Err(ExpectedEndOrOpen(Kind(args.rest[0])))
  }

  // ---- accepted means flattened ----

  lemma {:induction false} TakeWordsSplits(ts: seq<Sym>)
    ensures var r := TakeWords(ts); ts == Words(r.value) + r.rest && (r.rest != [] ==> !r.rest[0].Word?)
  {
    if ts != [] && ts[0].Word? {
      TakeWordsSplits(ts[1..]);
      var more := TakeWords(ts[1..]);
      assert Words([ts[0].text] + more.value) == [ts[0]] + Words(more.value);
    }
  }

  lemma {:induction false} TakeWordsFinds(args: seq<string>, rest: seq<Sym>)
    requires rest != [] ==> !rest[0].Word?
    ensures TakeWords(Words(args) + rest) == Parsed(args, rest)
  {
    var ts := Words(args) + rest;
    if args == [] {
      assert ts == rest;
    } else {
      assert ts[1..] == Words(args[1..]) + rest;
      TakeWordsFinds(args[1..], rest);
      assert [args[0]] + args[1..] == args;
    }
  }

  /** What the item parser consumed is the flattening of what it returned, and it stops where it must. */
  lemma {:induction false} ItemsSound(ts: seq<Sym>, untilClose: bool)
    requires ParseItems(ts, untilClose).Ok?
    ensures var r := ParseItems(ts, untilClose).value;
            ts == FlattenAll(r.value) + r.rest
            && (if untilClose then r.rest != [] && r.rest[0].Close? else r.rest == [])
    decreases |ts|, 1
  {
    if ts != [] && !ts[0].Close? {
      StmtSound(ts);
      var first := ParseStmt(ts).value;
      ItemsSound(first.rest, untilClose);
      var more := ParseItems(first.rest, untilClose).value;
      assert ([first.value] + more.value)[1..] == more.value;
      assert Flatten(first.value) + (FlattenAll(more.value) + more.rest)
          == (Flatten(first.value) + FlattenAll(more.value)) + more.rest;
    }
  }

  lemma HeadSplits(ts: seq<Sym>)
    requires ts != [] && ts[0].Word?
    ensures var args := TakeWords(ts[1..]); ts == Head(ts[0].text, args.value) + args.rest
  {
    TakeWordsSplits(ts[1..]);
    assert ts == [ts[0]] + ts[1..];
  }

  lemma Regroup<T>(a: seq<T>, b: T, c: seq<T>, d: T, e: seq<T>)
    ensures a + ([b] + c) == a + [b] + c
    ensures a + ([b] + (c + ([d] + e))) == a + [b] + c + [d] + e
  {
  }

  lemma {:induction false} StmtSound(ts: seq<Sym>)
    requires ParseStmt(ts).Ok?
    ensures var r := ParseStmt(ts).value; ts == Flatten(r.value) + r.rest
    decreases |ts|, 0
  {
    HeadSplits(ts);
    var args := TakeWords(ts[1..]);
    var head, body := Head(ts[0].text, args.value), args.rest[1..];
    assert args.rest == [args.rest[0]] + body;
    if args.rest[0].Open? {
      ItemsSound(body, true);
      var children := ParseItems(body, true).value;
      var after := children.rest[1..];
      assert children.rest == [Close] + after;
      Regroup(head, Open, FlattenAll(children.value), Close, after);
      assert ParseStmt(ts) == Ok(Parsed(Block(ts[0].text, args.value, children.value), after));
    } else {
      Regroup(head, End, body, End, body);
      assert ParseStmt(ts) == Ok(Parsed(Directive(ts[0].text, args.value), body));
    }
  }

  /** The parser finds its way back from any flattening. */
  lemma {:induction false} StmtComplete(n: Node, rest: seq<Sym>)
    ensures ParseStmt(Flatten(n) + rest) == Ok(Parsed(n, rest))
    decreases n, 0
  {
    var ts := Flatten(n) + rest;
    match n
    case Directive(name, args) =>
      assert ts[1..] == Words(args) + ([End] + rest);
      TakeWordsFinds(args, [End] + rest);
    case Block(name, args, children) =>
      var after := [Close] + rest;
      assert ts[1..] == Words(args) + ([Open] + (FlattenAll(children) + after));
      TakeWordsFinds(args, [Open] + (FlattenAll(children) + after));
      ItemsComplete(children, after, true);
  }

  lemma {:induction false} ItemsComplete(ns: seq<Node>, rest: seq<Sym>, untilClose: bool)
    requires if untilClose then rest != [] && rest[0].Close? else rest == []
    ensures ParseItems(FlattenAll(ns) + rest, untilClose) == Ok(Parsed(ns, rest))
    decreases ns, 1
  {
    var ts := FlattenAll(ns) + rest;
    if ns == [] {
      assert ts == rest;
    } else {
      var tail := FlattenAll(ns[1..]) + rest;
      assert ts == Flatten(ns[0]) + tail;
      StmtComplete(ns[0], tail);
      ItemsComplete(ns[1..], rest, untilClose);
      assert ts[0].Word?;
      assert [ns[0]] + ns[1..] == ns;
    }
  }

  /** A symbol list is accepted with tree `ns` exactly when it is the flattening of `ns`. */
  lemma AcceptsExactlyFlattenings(ts: seq<Sym>, ns: seq<Node>)
    ensures ParseItems(ts, false) == Ok(Parsed(ns, [])) <==> ts == FlattenAll(ns)
  {
    if ParseItems(ts, false) == Ok(Parsed(ns, [])) {
      ItemsSound(ts, false);
    }
    if ts == FlattenAll(ns) {
      ItemsComplete(ns, [], false);
      assert FlattenAll(ns) + [] == ts;
    }
  }

  // ---- the parser object ----

  /** The items collected so far, then whatever the grammar makes of the rest. */
  function Prepend(items: seq<Node>, r: Result<Parsed<seq<Node>>, ParseError>): Result<Parsed<seq<Node>>, ParseError> {
    match r case Ok(p) => Ok(Parsed(items + p.value, p.rest)) case Err(e) => Err(e)
  }

  lemma PrependNone(r: Result<Parsed<seq<Node>>, ParseError>)
    ensures Prepend([], r) == r
  {
    if r.Ok? { assert [] + r.value.value == r.value.value; }
  }

  lemma PrependItem(items: seq<Node>, ts: seq<Sym>, untilClose: bool)
    requires ts != [] && !ts[0].Close? && ParseStmt(ts).Ok?
    ensures var first := ParseStmt(ts).value;
            Prepend(items + [first.value], ParseItems(first.rest, untilClose))
            == Prepend(items, ParseItems(ts, untilClose))
  {
    var first := ParseStmt(ts).value;
    var more := ParseItems(first.rest, untilClose);
    if more.Ok? { assert (items + [first.value]) + more.value.value == items + ([first.value] + more.value.value); }
  }

  function PrependArgs(args: seq<string>, p: Parsed<seq<string>>): Parsed<seq<string>> {
    Parsed(args + p.value, p.rest)
  }

  lemma PrependNoArgs(p: Parsed<seq<string>>)
    ensures PrependArgs([], p) == p
  {
    assert [] + p.value == p.value;
  }

  lemma PrependArg(args: seq<string>, arg: string, p: Parsed<seq<string>>)
    ensures PrependArgs(args + [arg], p) == PrependArgs(args, Parsed([arg] + p.value, p.rest))
  {
    assert (args + [arg]) + p.value == args + ([arg] + p.value);
  }

  /** `Parser`: a position that advances over a fixed token list. */
  class TokenParser {
    const tokens: seq<Token>
    var pos: nat

    ghost predicate Valid()
      reads this
    {
      pos <= |tokens|
    }

    ghost function Rest(): seq<Sym>
      reads this
      requires Valid()
    {
      Syms(tokens[pos..])
    }

    constructor (tokens: seq<Token>)
      ensures this.tokens == tokens && pos == 0 && Valid()
    {
      this.tokens := tokens;
      pos := 0;
    }

    method Next() returns (token: Option<Token>)
      requires Valid()
      modifies this
      ensures Valid()
      ensures if old(pos) < |tokens| then token == Some(tokens[old(pos)]) && pos == old(pos) + 1
                                          && Rest() == old(Rest())[1..]
              else token == None && pos == old(pos)
    {
      if pos == |tokens| {
        return None;
      }
      token := Some(tokens[pos]);
      pos := pos + 1;
      assert Syms(tokens[pos..]) == Syms(tokens[pos - 1..])[1..];
    }

    method Expect(kind: TokenType) returns (r: Result<(), ParseError>)
      requires Valid()
      modifies this
      ensures Valid() && old(pos) <= pos
      ensures if old(Rest()) == [] then r == Err(UnexpectedEof)
              else if Kind(old(Rest())[0]) != kind then r == Err(Expected(kind, Kind(old(Rest())[0])))
              else r == Ok(()) && Rest() == old(Rest())[1..]
    {
      var token := Next();
      if token.None? {
        return Err(UnexpectedEof);
      }
      if token.value.kind != kind {
        return Err(Expected(kind, token.value.kind));
      }
      return Ok(());
    }

    method ParseItemsAt(untilClose: bool) returns (r: Result<seq<Node>, ParseError>)
      requires Valid()
      modifies this
      ensures Valid() && old(pos) <= pos
      ensures match ParseItems(old(Rest()), untilClose)
              case Ok(p) => r == Ok(p.value) && Rest() == p.rest
              case Err(e) => r == Err(e)
      decreases |tokens| - pos, 1
    {
      ghost var start := pos;
      ghost var goal := ParseItems(Rest(), untilClose);
      PrependNone(goal);
      var items: seq<Node> := [];
      while pos < |tokens|
        invariant Valid() && start <= pos
        invariant goal == Prepend(items, ParseItems(Rest(), untilClose))
        decreases |tokens| - pos
      {
        assert Rest()[0] == Erase(tokens[pos]);
        if tokens[pos].kind == RBrace {
          if untilClose {
            break;
          }
          return Err(UnexpectedClose);
        }
        ghost var here := Rest();
        var item := ParseStmtAt();
        if item.Err? {
          return Err(item.error);
        }
        PrependItem(items, here, untilClose);
        items := items + [item.value];
      }
      if untilClose && pos == |tokens| {
        return Err(EofExpectedClose);
      }
      assert items + [] == items;
      return Ok(items);
    }

    method ParseStmtAt() returns (r: Result<Node, ParseError>)
      requires Valid()
      modifies this
      ensures Valid() && old(pos) <= pos
      ensures match ParseStmt(old(Rest()))
              case Ok(p) => r == Ok(p.value) && Rest() == p.rest && old(pos) < pos
              case Err(e) => r == Err(e)
      decreases |tokens| - pos, 0
    {
      var name := Next();
      if name.None? {
        return Err(UnexpectedEof);
      }
      if name.value.kind != Ident {
        return Err(Expected(Ident, name.value.kind));
      }
      ghost var goal := TakeWords(Rest());
      ghost var after := pos;
      PrependNoArgs(goal);
      var args: seq<string> := [];
      while pos < |tokens| && tokens[pos].kind == Ident
        invariant Valid() && after <= pos
        invariant goal == PrependArgs(args, TakeWords(Rest()))
        decreases |tokens| - pos
      {
        assert Rest()[0] == Erase(tokens[pos]);
        var arg := Next();
        PrependArg(args, arg.value.lexeme, TakeWords(Rest()));
        args := args + [arg.value.lexeme];
      }
      assert args + [] == args;
      if pos == |tokens| {
        return Err(EofAfterDirective);
      }
      assert Rest()[0] == Erase(tokens[pos]);
      match tokens[pos].kind
      case Semicolon =>
        var _ := Next();
        return Ok(Directive(name.value.lexeme, args));
      case LBrace =>
        var _ := Next();
        var children := ParseItemsAt(true);
        if children.Err? {
          return Err(children.error);
        }
        var close := Expect(RBrace);
        if close.Err? {
          return Err(close.error);
        }
        return Ok(Block(name.value.lexeme, args, children.value));
      case other => return Err(ExpectedEndOrOpen(other));
    }
  }

  // ---- whole texts ----

  function ParseConfig(text: string): Result<seq<Node>, ParseError> {
    match ParseItems(Syms(Lex(text, 1)), false)
    case Ok(p) => Ok(p.value)
    case Err(e) => Err(e)
  }

  method ParseText(text: string) returns (r: Result<seq<Node>, ParseError>)
    ensures r == ParseConfig(text)
  {
    var tokens := Tokenize(text);
    var parser := new TokenParser(tokens);
    assert tokens[0..] == tokens;
    r := parser.ParseItemsAt(false);
  }

  predicate NodeOk(n: Node) {
    && WordOk(n.name) && (forall i :: 0 <= i < |n.args| ==> WordOk(n.args[i]))
    && (n.Block? ==> forall i :: 0 <= i < |n.children| ==> NodeOk(n.children[i]))
  }

  predicate AstOk(ns: seq<Node>) { forall i :: 0 <= i < |ns| ==> NodeOk(ns[i]) }

  /** One space after every symbol. */
  function Spaced(syms: seq<Sym>): Layout {
    if syms == [] then Empty else Item(syms[0], Space(' ', Spaced(syms[1..])))
  }

  function Print(ns: seq<Node>): string { Render(Spaced(FlattenAll(ns))) }

  /** Any text that lays out a tree, with whatever blanks and comments, parses to that tree. */
  lemma LayoutParses(l: Layout, ns: seq<Node>)
    requires WellSpaced(l) && SymsOf(l) == FlattenAll(ns)
    ensures ParseConfig(Render(l)) == Ok(ns)
  {
    LexRender(l, 1);
    TokensErase(l, 1);
    AcceptsExactlyFlattenings(FlattenAll(ns), ns);
  }

  lemma {:induction false} SpacedValid(syms: seq<Sym>)
    requires AllOk(syms)
    ensures WellSpaced(Spaced(syms)) && SymsOf(Spaced(syms)) == syms
  {
    if syms != [] {
      SpacedValid(syms[1..]);
      assert syms == [syms[0]] + syms[1..];
    }
  }

  lemma HeadOk(name: string, args: seq<string>)
    ensures AllOk(Head(name, args)) <==> WordOk(name) && forall i :: 0 <= i < |args| ==> WordOk(args[i])
  {
    var syms := Head(name, args);
    assert syms[0] == Word(name) && forall i :: 0 <= i < |args| ==> syms[i + 1] == Word(args[i]);
  }

  lemma {:induction false} FlattenOk(n: Node)
    ensures NodeOk(n) <==> AllOk(Flatten(n))
    decreases n, 0
  {
    var head := Head(n.name, n.args);
    HeadOk(n.name, n.args);
    if n.Directive? {
      AllOkAppend(head, [End]);
    } else {
      var inner := FlattenAll(n.children);
      FlattenAllOk(n.children);
      AllOkAppend(head, [Open]);
      AllOkAppend(head + [Open], inner);
      AllOkAppend(head + [Open] + inner, [Close]);
    }
  }

  lemma {:induction false} FlattenAllOk(ns: seq<Node>)
    ensures AstOk(ns) <==> AllOk(FlattenAll(ns))
    decreases ns, 1
  {
    if ns != [] {
      FlattenOk(ns[0]);
      FlattenAllOk(ns[1..]);
      var first, rest := Flatten(ns[0]), FlattenAll(ns[1..]);
      assert AllOk(first + rest) <==> AllOk(first) && AllOk(rest) by { AllOkAppend(first, rest); }
      assert AstOk(ns) <==> NodeOk(ns[0]) && AstOk(ns[1..]) by {
        assert forall i :: 0 <= i < |ns[1..]| ==> ns[1..][i] == ns[i + 1];
      }
    }
  }

  lemma AllOkAppend(a: seq<Sym>, b: seq<Sym>)
    ensures AllOk(a + b) <==> AllOk(a) && AllOk(b)
  {
    assert forall i :: 0 <= i < |a| ==> (a + b)[i] == a[i];
    assert forall i :: 0 <= i < |b| ==> (a + b)[|a| + i] == b[i];
  }

  /** Printing and parsing undo each other on every tree whose words can be written at all. */
  lemma PrintParseRoundTrip(ns: seq<Node>)
    requires AstOk(ns)
    ensures ParseConfig(Print(ns)) == Ok(ns)
  {
    FlattenAllOk(ns);
    SpacedValid(FlattenAll(ns));
    LayoutParses(Spaced(FlattenAll(ns)), ns);
  }

  /** An accepted text holds exactly the symbols of its tree, and the tree can be printed and read again. */
  lemma AcceptedTextReprints(text: string, ns: seq<Node>)
    ensures ParseConfig(text) == Ok(ns) <==> Syms(Lex(text, 1)) == FlattenAll(ns)
    ensures ParseConfig(text) == Ok(ns) ==> AstOk(ns) && ParseConfig(Print(ns)) == Ok(ns)
  {
    var syms := Syms(Lex(text, 1));
    AcceptsExactlyFlattenings(syms, ns);
    if ParseConfig(text) == Ok(ns) {
      ItemsSound(syms, false);
      LexedWordsOk(text);
      FlattenAllOk(ns);
      PrintParseRoundTrip(ns);
    }
  }
}
