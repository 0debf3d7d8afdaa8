/** Include resolution over an abstract file system: equal to full expansion, and cycles never expand. */
module Include {
  import opened Common
  import opened TextLayout
  import opened Parser

  const INCLUDE := "include"
  const MAX_DEPTH: nat := 16

  /** Components of a canonical absolute path. */
  type Path = seq<string>

  /** `canonicalize` and `read_to_string`, as functions of the moment. */
  datatype FileSystem = FileSystem(canonicalize: string -> Option<Path>, read: Path -> Option<string>)

  datatype IncludeError =
    | DepthExceeded
    | Unresolved(raw: string)
    | Escapes(path: Path)
    | Cycle(path: Path)
    | Unreadable(path: Path)
    | Unparsable(error: ParseError)

  type Outcome = Result<seq<Node>, IncludeError>

  function Show(p: Path): string { if p == [] then [] else "/" + p[0] + Show(p[1..]) }

  function Join(current: Path, raw: string): string {
    if raw != [] && raw[0] == '/' then raw else Show(current) + "/" + raw
  }

  function ResolvePath(fs: FileSystem, root: Path, current: Path, raw: string): Result<Path, IncludeError> {
    match fs.canonicalize(Join(current, raw))
    case None => Err(Unresolved(raw))
    case Some(path) => if root <= path then Ok(path) else Err(Escapes(path))
  }

  /** The directory relative includes of a file start from. */
  function Parent(root: Path, path: Path): Path { if path == [] then root else path[..|path| - 1] }

  function Load(fs: FileSystem, path: Path): Outcome {
    match fs.read(path)
    case None => Err(Unreadable(path))
    case Some(text) => match ParseConfig(text) case Ok(ns) => Ok(ns) case Err(e) => Err(Unparsable(e))
  }

  predicate IsInclude(n: Node) { n.Directive? && n.name == INCLUDE }

  // ---- what the resolver computes ----

  function Left(depth: nat): nat { if depth <= MAX_DEPTH then MAX_DEPTH + 1 - depth else 0 }

  function Append(a: Outcome, b: Outcome): Outcome {
    if a.Err? then a else if b.Err? then b else Ok(a.value + b.value)
  }

  function ResolveNodes(fs: FileSystem, root: Path, current: Path, nodes: seq<Node>, resolving: set<Path>,
                        depth: nat): Outcome
    decreases 2 * Left(depth) + 1, nodes, 3
  {
    if depth > MAX_DEPTH then Err(DepthExceeded) else ResolveList(fs, root, current, nodes, resolving, depth)
  }

  function ResolveList(fs: FileSystem, root: Path, current: Path, nodes: seq<Node>, resolving: set<Path>,
                       depth: nat): Outcome
    requires depth <= MAX_DEPTH
    decreases 2 * Left(depth) + 1, nodes, 2
  {
    if nodes == [] then Ok([])
    else Append(ResolveNode(fs, root, current, nodes[0], resolving, depth),
                ResolveList(fs, root, current, nodes[1..], resolving, depth))
  }

  function ResolveNode(fs: FileSystem, root: Path, current: Path, n: Node, resolving: set<Path>, depth: nat): Outcome
    requires depth <= MAX_DEPTH
    decreases 2 * Left(depth) + 1, n, 1
  {
    if IsInclude(n) then ResolveArgs(fs, root, current, n.args, resolving, depth)
    else if n.Block? then
      match ResolveNodes(fs, root, current, n.children, resolving, depth)
      case Ok(children) => Ok([Block(n.name, n.args, children)])
      case Err(e) => Err(e)
    else Ok([n])
  }

  function ResolveArgs(fs: FileSystem, root: Path, current: Path, args: seq<string>, resolving: set<Path>,
                       depth: nat): Outcome
    requires depth <= MAX_DEPTH
    decreases 2 * Left(depth) + 1, args, 1
  {
    if args == [] then Ok([])
    else Append(ResolveFile(fs, root, current, args[0], resolving, depth),
                ResolveArgs(fs, root, current, args[1..], resolving, depth))
  }

  function ResolveFile(fs: FileSystem, root: Path, current: Path, raw: string, resolving: set<Path>,
                       depth: nat): Outcome
    requires depth <= MAX_DEPTH
    decreases 2 * Left(depth)
  {
    match ResolvePath(fs, root, current, raw)
    case Err(e) => Err(e)
    case Ok(path) =>
      if path in resolving then Err(Cycle(path))
      else match Load(fs, path)
           case Err(e) => Err(e)
           case Ok(items) => ResolveNodes(fs, root, Parent(root, path), items, resolving + {path}, depth + 1)
  }

  /** The resolver itself: one shared set of files being resolved, and an output list per call. */
  class IncludeRun {
    var resolving: set<Path>

    constructor ()
      ensures resolving == {}
    {
      resolving := {};
    }

    /** `chain` names the files from the root configuration down to this call, outermost first. */
    ghost predicate OnChain(chain: seq<Path>, depth: nat)
      reads this
    {
      && |chain| == depth && resolving == (set p | p in chain)
      && (forall i, j :: 0 <= i < j < |chain| ==> chain[i] != chain[j])
    }

    method Nodes(fs: FileSystem, root: Path, current: Path, nodes: seq<Node>, depth: nat, ghost chain: seq<Path>)
      returns (r: Outcome)
      requires OnChain(chain, depth)
      modifies this
      ensures r == ResolveNodes(fs, root, current, nodes, old(resolving), depth)
      ensures r.Ok? ==> resolving == old(resolving) && OnChain(chain, depth)
      decreases 2 * Left(depth) + 1, nodes, 3
    {
      if depth > MAX_DEPTH {
        return Err(DepthExceeded);
      }
      var out: seq<Node> := [];
      var i := 0;
      assert nodes[0..] == nodes;
      AppendNothing(ResolveList(fs, root, current, nodes, resolving, depth));
      while i < |nodes|
        invariant 0 <= i <= |nodes| && resolving == old(resolving)
        invariant ResolveList(fs, root, current, nodes, resolving, depth)
               == Append(Ok(out), ResolveList(fs, root, current, nodes[i..], resolving, depth))
      {
        var more := One(fs, root, current, nodes[i], depth, chain);
        if more.Err? {
          return more;
        }
        AppendNext(fs, root, current, nodes, i, resolving, depth, out);
        out := out + more.value;
        i := i + 1;
      }
      assert nodes[i..] == [] && out + [] == out;
      return Ok(out);
    }

    method One(fs: FileSystem, root: Path, current: Path, n: Node, depth: nat, ghost chain: seq<Path>)
      returns (r: Outcome)
      requires OnChain(chain, depth) && depth <= MAX_DEPTH
      modifies this
      ensures r == ResolveNode(fs, root, current, n, old(resolving), depth)
      ensures r.Ok? ==> resolving == old(resolving)
      decreases 2 * Left(depth) + 1, n, 1
    {
      if IsInclude(n) {
        var out: seq<Node> := [];
        var i := 0;
        assert n.args[0..] == n.args;
        AppendNothing(ResolveArgs(fs, root, current, n.args, resolving, depth));
        while i < |n.args|
          invariant 0 <= i <= |n.args| && resolving == old(resolving)
          invariant ResolveArgs(fs, root, current, n.args, resolving, depth)
                 == Append(Ok(out), ResolveArgs(fs, root, current, n.args[i..], resolving, depth))
        {
          var more := File(fs, root, current, n.args[i], depth, chain);
          if more.Err? {
            return more;
          }
          AppendNextArg(fs, root, current, n.args, i, resolving, depth, out);
          out := out + more.value;
          i := i + 1;
        }
        assert n.args[i..] == [] && out + [] == out;
        return Ok(out);
      }
      if n.Block? {
        var children := Nodes(fs, root, current, n.children, depth, chain);
        if children.Err? {
          return children;
        }
        return Ok([Block(n.name, n.args, children.value)]);
      }
      return Ok([n]);
    }

    method File(fs: FileSystem, root: Path, current: Path, raw: string, depth: nat, ghost chain: seq<Path>)
      returns (r: Outcome)
      requires OnChain(chain, depth) && depth <= MAX_DEPTH
      modifies this
      ensures r == ResolveFile(fs, root, current, raw, old(resolving), depth)
      ensures r.Ok? ==> resolving == old(resolving)
      decreases 2 * Left(depth)
    {
      var path := ResolvePath(fs, root, current, raw);
      if path.Err? {
        return Err(path.error);
      }
      if path.value in resolving {
        return Err(Cycle(path.value));
      }
      resolving := resolving + {path.value};
      var text := fs.read(path.value);
      if text.None? {
        return Err(Unreadable(path.value));
      }
      var items := ParseText(text.value);
      if items.Err? {
        return Err(Unparsable(items.error));
      }
      r := Nodes(fs, root, Parent(root, path.value), items.value, depth + 1, chain + [path.value]);
      if r.Ok? {
        resolving := resolving - {path.value};
      }
    }
  }

  lemma AppendNothing(r: Outcome)
    ensures Append(Ok([]), r) == r
  {
    if r.Ok? { assert [] + r.value == r.value; }
  }

  lemma AppendNext(fs: FileSystem, root: Path, current: Path, nodes: seq<Node>, i: nat, resolving: set<Path>,
                   depth: nat, out: seq<Node>)
    requires depth <= MAX_DEPTH && i < |nodes|
    ensures var more := ResolveNode(fs, root, current, nodes[i], resolving, depth);
            more.Ok? ==>
              Append(Ok(out), ResolveList(fs, root, current, nodes[i..], resolving, depth)) ==
              Append(Ok(out + more.value), ResolveList(fs, root, current, nodes[i + 1..], resolving, depth))
  {
    assert nodes[i..][1..] == nodes[i + 1..];
    var more, rest := ResolveNode(fs, root, current, nodes[i], resolving, depth),
                      ResolveList(fs, root, current, nodes[i + 1..], resolving, depth);
    if more.Ok? && rest.Ok? { assert out + (more.value + rest.value) == (out + more.value) + rest.value; }
  }

  lemma AppendNextArg(fs: FileSystem, root: Path, current: Path, args: seq<string>, i: nat, resolving: set<Path>,
                      depth: nat, out: seq<Node>)
    requires depth <= MAX_DEPTH && i < |args|
    ensures var more := ResolveFile(fs, root, current, args[i], resolving, depth);
            more.Ok? ==>
              Append(Ok(out), ResolveArgs(fs, root, current, args[i..], resolving, depth)) ==
              Append(Ok(out + more.value), ResolveArgs(fs, root, current, args[i + 1..], resolving, depth))
  {
    assert args[i..][1..] == args[i + 1..];
    var more, rest := ResolveFile(fs, root, current, args[i], resolving, depth),
                      ResolveArgs(fs, root, current, args[i + 1..], resolving, depth);
    if more.Ok? && rest.Ok? { assert out + (more.value + rest.value) == (out + more.value) + rest.value; }
  }

  // ---- full expansion, with no cycle check and no error cases ----

  function Both(a: Option<seq<Node>>, b: Option<seq<Node>>): Option<seq<Node>> {
    if a.Some? && b.Some? then Some(a.value + b.value) else None
  }

  /** Every include replaced by what its files expand to, following at most `levels` nested includes. */
  function Expand(fs: FileSystem, root: Path, current: Path, nodes: seq<Node>, levels: nat): Option<seq<Node>>
    decreases 2 * levels + 1, nodes, 2
  {
    if nodes == [] then Some([])
    else Both(ExpandNode(fs, root, current, nodes[0], levels), Expand(fs, root, current, nodes[1..], levels))
  }

  function ExpandNode(fs: FileSystem, root: Path, current: Path, n: Node, levels: nat): Option<seq<Node>>
    decreases 2 * levels + 1, n, 1
  {
    if IsInclude(n) then ExpandArgs(fs, root, current, n.args, levels)
    else if n.Block? then
      match Expand(fs, root, current, n.children, levels)
      case Some(children) => Some([Block(n.name, n.args, children)])
      case None => None
    else Some([n])
  }

  function ExpandArgs(fs: FileSystem, root: Path, current: Path, args: seq<string>, levels: nat): Option<seq<Node>>
    decreases 2 * levels + 1, args, 1
  {
    if args == [] then Some([])
    else
      var path := ResolvePath(fs, root, current, args[0]);
      var first := if levels > 0 && path.Ok? then ExpandFile(fs, root, path.value, levels - 1) else None;
      Both(first, ExpandArgs(fs, root, current, args[1..], levels))
  }

  /** What a file expands to depends on the file alone, not on who includes it. */
  function ExpandFile(fs: FileSystem, root: Path, path: Path, levels: nat): Option<seq<Node>>
    decreases 2 * levels + 2
  {
    match Load(fs, path)
    case Ok(items) => Expand(fs, root, Parent(root, path), items, levels)
    case Err(_) => None
  }

  // ---- more levels never change an expansion ----

  lemma {:induction false} ExpandMore(fs: FileSystem, root: Path, current: Path, nodes: seq<Node>, few: nat, many: nat)
    requires few <= many && Expand(fs, root, current, nodes, few).Some?
    ensures Expand(fs, root, current, nodes, many) == Expand(fs, root, current, nodes, few)
    decreases 2 * few + 1, nodes, 2
  {
    if nodes != [] {
      ExpandMoreNode(fs, root, current, nodes[0], few, many);
      ExpandMore(fs, root, current, nodes[1..], few, many);
    }
  }

  lemma {:induction false} ExpandMoreNode(fs: FileSystem, root: Path, current: Path, n: Node, few: nat, many: nat)
    requires few <= many && ExpandNode(fs, root, current, n, few).Some?
    ensures ExpandNode(fs, root, current, n, many) == ExpandNode(fs, root, current, n, few)
    decreases 2 * few + 1, n, 1
  {
    if IsInclude(n) {
      ExpandMoreArgs(fs, root, current, n.args, few, many);
    } else if n.Block? {
      ExpandMore(fs, root, current, n.children, few, many);
    }
  }

  lemma {:induction false} ExpandMoreArgs(fs: FileSystem, root: Path, current: Path, args: seq<string>, few: nat,
                                          many: nat)
    requires few <= many && ExpandArgs(fs, root, current, args, few).Some?
    ensures ExpandArgs(fs, root, current, args, many) == ExpandArgs(fs, root, current, args, few)
    decreases 2 * few + 1, args, 1
  {
    if args != [] {
      var path := ResolvePath(fs, root, current, args[0]).value;
      ExpandMoreFile(fs, root, path, few - 1, many - 1);
      ExpandMoreArgs(fs, root, current, args[1..], few, many);
    }
  }

  lemma {:induction false} ExpandMoreFile(fs: FileSystem, root: Path, path: Path, few: nat, many: nat)
    requires few <= many && ExpandFile(fs, root, path, few).Some?
    ensures ExpandFile(fs, root, path, many) == ExpandFile(fs, root, path, few)
    decreases 2 * few + 2
  {
    ExpandMore(fs, root, Parent(root, path), Load(fs, path).value, few, many);
  }

  // ---- the resolver succeeds only with the full expansion ----

  function AsOption(r: Outcome): Option<seq<Node>> { match r case Ok(ns) => Some(ns) case Err(_) => None }

  lemma {:induction false} NodesSound(fs: FileSystem, root: Path, current: Path, nodes: seq<Node>, resolving: set<Path>,
                                      depth: nat)
    requires ResolveNodes(fs, root, current, nodes, resolving, depth).Ok?
    ensures depth <= MAX_DEPTH
    ensures Expand(fs, root, current, nodes, MAX_DEPTH - depth)
         == AsOption(ResolveNodes(fs, root, current, nodes, resolving, depth))
    decreases 2 * Left(depth) + 1, nodes, 3
  {
    if nodes != [] {
      NodeSound(fs, root, current, nodes[0], resolving, depth);
      NodesSound(fs, root, current, nodes[1..], resolving, depth);
    }
  }

  lemma {:induction false} NodeSound(fs: FileSystem, root: Path, current: Path, n: Node, resolving: set<Path>,
                                     depth: nat)
    requires depth <= MAX_DEPTH && ResolveNode(fs, root, current, n, resolving, depth).Ok?
    ensures ExpandNode(fs, root, current, n, MAX_DEPTH - depth)
         == AsOption(ResolveNode(fs, root, current, n, resolving, depth))
    decreases 2 * Left(depth) + 1, n, 1
  {
    if IsInclude(n) {
      ArgsSound(fs, root, current, n.args, resolving, depth);
    } else if n.Block? {
      NodesSound(fs, root, current, n.children, resolving, depth);
    }
  }

  lemma {:induction false} ArgsSound(fs: FileSystem, root: Path, current: Path, args: seq<string>, resolving: set<Path>,
                                     depth: nat)
    requires depth <= MAX_DEPTH && ResolveArgs(fs, root, current, args, resolving, depth).Ok?
    ensures ExpandArgs(fs, root, current, args, MAX_DEPTH - depth)
         == AsOption(ResolveArgs(fs, root, current, args, resolving, depth))
    decreases 2 * Left(depth) + 1, args, 1
  {
    if args != [] {
      var path := ResolvePath(fs, root, current, args[0]).value;
      NodesSound(fs, root, Parent(root, path), Load(fs, path).value, resolving + {path}, depth + 1);
      ArgsSound(fs, root, current, args[1..], resolving, depth);
    }
  }

  // ---- and it succeeds whenever there is one within the depth limit ----

  /** No file being resolved could be met again inside an expansion of `levels` levels. */
  ghost predicate Unmet(fs: FileSystem, root: Path, resolving: set<Path>, levels: nat) {
    forall f :: f in resolving ==> levels == 0 || ExpandFile(fs, root, f, levels - 1).None?
  }

  /** The fewest levels a file expands in. */
  lemma {:induction false} FewestLevels(fs: FileSystem, root: Path, path: Path, levels: nat) returns (k: nat)
    requires ExpandFile(fs, root, path, levels).Some?
    ensures k <= levels && ExpandFile(fs, root, path, k) == ExpandFile(fs, root, path, levels)
    ensures k == 0 || ExpandFile(fs, root, path, k - 1).None?
  {
    k := levels;
    while k > 0 && ExpandFile(fs, root, path, k - 1).Some?
      invariant k <= levels && ExpandFile(fs, root, path, k).Some?
    {
      k := k - 1;
    }
    ExpandMoreFile(fs, root, path, k, levels);
  }

  lemma {:induction false} NodesComplete(fs: FileSystem, root: Path, current: Path, nodes: seq<Node>,
                                         resolving: set<Path>, depth: nat, levels: nat)
    requires depth + levels <= MAX_DEPTH && Unmet(fs, root, resolving, levels)
    requires Expand(fs, root, current, nodes, levels).Some?
    ensures AsOption(ResolveNodes(fs, root, current, nodes, resolving, depth))
         == Expand(fs, root, current, nodes, levels)
    decreases 2 * Left(depth) + 1, nodes, 3
  {
    if nodes != [] {
      NodeComplete(fs, root, current, nodes[0], resolving, depth, levels);
      NodesComplete(fs, root, current, nodes[1..], resolving, depth, levels);
    }
  }

  lemma {:induction false} NodeComplete(fs: FileSystem, root: Path, current: Path, n: Node, resolving: set<Path>,
                                        depth: nat, levels: nat)
    requires depth + levels <= MAX_DEPTH && Unmet(fs, root, resolving, levels)
    requires ExpandNode(fs, root, current, n, levels).Some?
    ensures AsOption(ResolveNode(fs, root, current, n, resolving, depth)) == ExpandNode(fs, root, current, n, levels)
    decreases 2 * Left(depth) + 1, n, 1
  {
    if IsInclude(n) {
      ArgsComplete(fs, root, current, n.args, resolving, depth, levels);
    } else if n.Block? {
      NodesComplete(fs, root, current, n.children, resolving, depth, levels);
    }
  }

  lemma {:induction false} ArgsComplete(fs: FileSystem, root: Path, current: Path, args: seq<string>,
                                        resolving: set<Path>, depth: nat, levels: nat)
    requires depth + levels <= MAX_DEPTH && Unmet(fs, root, resolving, levels)
    requires ExpandArgs(fs, root, current, args, levels).Some?
    ensures AsOption(ResolveArgs(fs, root, current, args, resolving, depth))
         == ExpandArgs(fs, root, current, args, levels)
    decreases 2 * Left(depth) + 1, args, 1
  {
    if args != [] {
      FileComplete(fs, root, current, args[0], resolving, depth, levels);
      ArgsComplete(fs, root, current, args[1..], resolving, depth, levels);
    }
  }

  lemma {:induction false} FileComplete(fs: FileSystem, root: Path, current: Path, raw: string, resolving: set<Path>,
                                        depth: nat, levels: nat)
    requires depth + levels <= MAX_DEPTH && Unmet(fs, root, resolving, levels)
    requires levels > 0 && ResolvePath(fs, root, current, raw).Ok?
    requires ExpandFile(fs, root, ResolvePath(fs, root, current, raw).value, levels - 1).Some?
    ensures AsOption(ResolveFile(fs, root, current, raw, resolving, depth))
         == ExpandFile(fs, root, ResolvePath(fs, root, current, raw).value, levels - 1)
    decreases 2 * Left(depth)
  {
    var path := ResolvePath(fs, root, current, raw).value;
    var k := FewestLevels(fs, root, path, levels - 1);
    forall f | f in resolving + {path} ensures k == 0 || ExpandFile(fs, root, f, k - 1).None? {
      if k > 0 && f != path && ExpandFile(fs, root, f, k - 1).Some? {
        ExpandMoreFile(fs, root, f, k - 1, levels - 1);
      }
    }
    NodesComplete(fs, root, Parent(root, path), Load(fs, path).value, resolving + {path}, depth + 1, k);
  }

  /** Resolution succeeds exactly when the configuration expands within sixteen levels, and gives that expansion. */
  lemma ResolvesToFullExpansion(fs: FileSystem, root: Path, nodes: seq<Node>)
    ensures AsOption(ResolveNodes(fs, root, root, nodes, {}, 0)) == Expand(fs, root, root, nodes, MAX_DEPTH)
  {
    if ResolveNodes(fs, root, root, nodes, {}, 0).Ok? {
      NodesSound(fs, root, root, nodes, {}, 0);
    } else if Expand(fs, root, root, nodes, MAX_DEPTH).Some? {
      NodesComplete(fs, root, root, nodes, {}, 0, MAX_DEPTH);
    }
  }

  // ---- a chain that revisits a file never expands ----

  /** Some include directive, at any block depth, names `target`. */
  predicate Names(fs: FileSystem, root: Path, current: Path, nodes: seq<Node>, target: Path) {
    exists i :: 0 <= i < |nodes| && NodeNames(fs, root, current, nodes[i], target)
  }

  predicate NodeNames(fs: FileSystem, root: Path, current: Path, n: Node, target: Path) {
    if IsInclude(n) then exists i :: 0 <= i < |n.args| && ResolvePath(fs, root, current, n.args[i]) == Ok(target)
    else n.Block? && exists i :: 0 <= i < |n.children| && NodeNames(fs, root, current, n.children[i], target)
  }

  lemma {:induction false} NamedExpands(fs: FileSystem, root: Path, current: Path, nodes: seq<Node>, target: Path,
                                        levels: nat)
    requires Names(fs, root, current, nodes, target) && Expand(fs, root, current, nodes, levels).Some?
    ensures levels > 0 && ExpandFile(fs, root, target, levels - 1).Some?
    decreases nodes, 1
  {
    if NodeNames(fs, root, current, nodes[0], target) {
      NodeNamedExpands(fs, root, current, nodes[0], target, levels);
    } else {
      var i :| 0 <= i < |nodes| && NodeNames(fs, root, current, nodes[i], target);
      assert nodes[i] == nodes[1..][i - 1];
      NamedExpands(fs, root, current, nodes[1..], target, levels);
    }
  }

  lemma {:induction false} NodeNamedExpands(fs: FileSystem, root: Path, current: Path, n: Node, target: Path,
                                            levels: nat)
    requires NodeNames(fs, root, current, n, target) && ExpandNode(fs, root, current, n, levels).Some?
    ensures levels > 0 && ExpandFile(fs, root, target, levels - 1).Some?
    decreases n, 0
  {
    if IsInclude(n) {
      var i :| 0 <= i < |n.args| && ResolvePath(fs, root, current, n.args[i]) == Ok(target);
      ArgNamedExpands(fs, root, current, n.args, i, target, levels);
    } else {
      NamedExpands(fs, root, current, n.children, target, levels);
    }
  }

  lemma {:induction false} ArgNamedExpands(fs: FileSystem, root: Path, current: Path, args: seq<string>, i: nat,
                                           target: Path, levels: nat)
    requires i < |args| && ResolvePath(fs, root, current, args[i]) == Ok(target)
    requires ExpandArgs(fs, root, current, args, levels).Some?
    ensures levels > 0 && ExpandFile(fs, root, target, levels - 1).Some?
    decreases i
  {
    if i > 0 {
      ArgNamedExpands(fs, root, current, args[1..], i - 1, target, levels);
    }
  }

  predicate FileNames(fs: FileSystem, root: Path, path: Path, target: Path) {
    Load(fs, path).Ok? && Names(fs, root, Parent(root, path), Load(fs, path).value, target)
  }

  /** Each file of the chain names the next one. */
  predicate Chain(fs: FileSystem, root: Path, chain: seq<Path>) {
    forall i :: 0 <= i < |chain| - 1 ==> FileNames(fs, root, chain[i], chain[i + 1])
  }

  lemma {:induction false} ChainExpands(fs: FileSystem, root: Path, chain: seq<Path>, levels: nat, i: nat)
    requires Chain(fs, root, chain) && i < |chain| && ExpandFile(fs, root, chain[0], levels).Some?
    ensures levels >= i && ExpandFile(fs, root, chain[i], levels - i).Some?
  {
    if i > 0 {
      ChainExpands(fs, root, chain, levels, i - 1);
      assert FileNames(fs, root, chain[i - 1], chain[i]);
      NamedExpands(fs, root, Parent(root, chain[i - 1]), Load(fs, chain[i - 1]).value, chain[i], levels - (i - 1));
    }
  }

  /** A file on an include cycle expands in no number of levels. */
  lemma {:induction false} CycleNeverExpands(fs: FileSystem, root: Path, chain: seq<Path>, levels: nat)
    requires Chain(fs, root, chain) && |chain| > 1 && chain[0] == chain[|chain| - 1]
    ensures ExpandFile(fs, root, chain[0], levels).None?
    decreases levels
  {
    if ExpandFile(fs, root, chain[0], levels).Some? {
      ChainExpands(fs, root, chain, levels, |chain| - 1);
      CycleNeverExpands(fs, root, chain, levels - (|chain| - 1));
    }
  }

  /** A configuration from which a revisited file can be reached is rejected. */
  lemma RevisitRejected(fs: FileSystem, root: Path, nodes: seq<Node>, chain: seq<Path>, first: nat)
    requires Chain(fs, root, chain) && first < |chain| - 1 && chain[first] == chain[|chain| - 1]
    requires Names(fs, root, root, nodes, chain[0])
    ensures ResolveNodes(fs, root, root, nodes, {}, 0).Err?
  {
    if ResolveNodes(fs, root, root, nodes, {}, 0).Ok? {
      NodesSound(fs, root, root, nodes, {}, 0);
      NamedExpands(fs, root, root, nodes, chain[0], MAX_DEPTH);
      ChainExpands(fs, root, chain, MAX_DEPTH - 1, first);
      var loop := chain[first..];
      assert forall i :: 0 <= i < |loop| ==> loop[i] == chain[first + i];
      CycleNeverExpands(fs, root, loop, MAX_DEPTH - 1 - first);
    }
  }

  // ---- nothing is left to include, and the result is the pasted text ----

  predicate NoInclude(n: Node) {
    !IsInclude(n) && (n.Block? ==> forall i :: 0 <= i < |n.children| ==> NoInclude(n.children[i]))
  }

  predicate NoIncludes(ns: seq<Node>) { forall i :: 0 <= i < |ns| ==> NoInclude(ns[i]) }

  /** The symbols of the pasted-together files: an include stands for the symbols of what it names. */
  function Paste(fs: FileSystem, root: Path, current: Path, nodes: seq<Node>, levels: nat): seq<Sym>
    decreases 2 * levels + 1, nodes, 2
  {
    if nodes == [] then []
    else PasteNode(fs, root, current, nodes[0], levels) + Paste(fs, root, current, nodes[1..], levels)
  }

  function PasteNode(fs: FileSystem, root: Path, current: Path, n: Node, levels: nat): seq<Sym>
    decreases 2 * levels + 1, n, 1
  {
    if IsInclude(n) then PasteArgs(fs, root, current, n.args, levels)
    else if n.Block? then Head(n.name, n.args) + [Open] + Paste(fs, root, current, n.children, levels) + [Close]
    else Flatten(n)
  }

  function PasteArgs(fs: FileSystem, root: Path, current: Path, args: seq<string>, levels: nat): seq<Sym>
    decreases 2 * levels + 1, args, 1
  {
    if args == [] then []
    else
      var path := ResolvePath(fs, root, current, args[0]);
      var first := if levels > 0 && path.Ok? && Load(fs, path.value).Ok?
                   then Paste(fs, root, Parent(root, path.value), Load(fs, path.value).value, levels - 1) else [];
      first + PasteArgs(fs, root, current, args[1..], levels)
  }

  lemma {:induction false} FlattenAppend(a: seq<Node>, b: seq<Node>)
    ensures FlattenAll(a + b) == FlattenAll(a) + FlattenAll(b)
  {
    if a == [] {
      assert a + b == b;
    } else {
      assert (a + b)[1..] == a[1..] + b;
      FlattenAppend(a[1..], b);
    }
  }

  lemma FlattenOne(n: Node)
    ensures FlattenAll([n]) == Flatten(n)
  {
    assert [n][1..] == [];
  }

  lemma {:induction false} ExpandedIsPasted(fs: FileSystem, root: Path, current: Path, nodes: seq<Node>, levels: nat)
    requires Expand(fs, root, current, nodes, levels).Some?
    ensures var out := Expand(fs, root, current, nodes, levels).value;
            NoIncludes(out) && FlattenAll(out) == Paste(fs, root, current, nodes, levels)
    decreases 2 * levels + 1, nodes, 2
  {
    if nodes != [] {
      NodeIsPasted(fs, root, current, nodes[0], levels);
      ExpandedIsPasted(fs, root, current, nodes[1..], levels);
      FlattenAppend(ExpandNode(fs, root, current, nodes[0], levels).value,
                    Expand(fs, root, current, nodes[1..], levels).value);
    }
  }

  lemma {:induction false} NodeIsPasted(fs: FileSystem, root: Path, current: Path, n: Node, levels: nat)
    requires ExpandNode(fs, root, current, n, levels).Some?
    ensures var out := ExpandNode(fs, root, current, n, levels).value;
            NoIncludes(out) && FlattenAll(out) == PasteNode(fs, root, current, n, levels)
    decreases 2 * levels + 1, n, 1
  {
    if IsInclude(n) {
      ArgsArePasted(fs, root, current, n.args, levels);
    } else if n.Block? {
      ExpandedIsPasted(fs, root, current, n.children, levels);
      FlattenOne(Block(n.name, n.args, Expand(fs, root, current, n.children, levels).value));
    } else {
      FlattenOne(n);
    }
  }

  lemma {:induction false} ArgsArePasted(fs: FileSystem, root: Path, current: Path, args: seq<string>, levels: nat)
    requires ExpandArgs(fs, root, current, args, levels).Some?
    ensures var out := ExpandArgs(fs, root, current, args, levels).value;
            NoIncludes(out) && FlattenAll(out) == PasteArgs(fs, root, current, args, levels)
    decreases 2 * levels + 1, args, 1
  {
    if args != [] {
      var path := ResolvePath(fs, root, current, args[0]).value;
      var items := Load(fs, path).value;
      ExpandedIsPasted(fs, root, Parent(root, path), items, levels - 1);
      ArgsArePasted(fs, root, current, args[1..], levels);
      FlattenAppend(Expand(fs, root, Parent(root, path), items, levels - 1).value,
                    ExpandArgs(fs, root, current, args[1..], levels).value);
    }
  }

  /** A resolved configuration has no include left at any depth, and is what the pasted symbols parse to. */
  lemma ResolvedIsPasted(fs: FileSystem, root: Path, nodes: seq<Node>)
    requires ResolveNodes(fs, root, root, nodes, {}, 0).Ok?
    ensures var out := ResolveNodes(fs, root, root, nodes, {}, 0).value;
            NoIncludes(out) && ParseItems(Paste(fs, root, root, nodes, MAX_DEPTH), false) == Ok(Parsed(out, []))
  {
    NodesSound(fs, root, root, nodes, {}, 0);
    ExpandedIsPasted(fs, root, root, nodes, MAX_DEPTH);
    AcceptsExactlyFlattenings(Paste(fs, root, root, nodes, MAX_DEPTH),
                              ResolveNodes(fs, root, root, nodes, {}, 0).value);
  }

  /** `IncludeResolver::resolve`: the full expansion of the tree, or an error when it has none within the limit. */
  method Resolve(fs: FileSystem, rootDir: string, nodes: seq<Node>) returns (r: Outcome)
    ensures match fs.canonicalize(rootDir)
            case None => r == Err(Unresolved(rootDir))
            case Some(root) => AsOption(r) == Expand(fs, root, root, nodes, MAX_DEPTH)
                               && (r.Ok? ==> NoIncludes(r.value))
  {
    var root := fs.canonicalize(rootDir);
    if root.None? {
      return Err(Unresolved(rootDir));
    }
    var run := new IncludeRun();
    r := run.Nodes(fs, root.value, root.value, nodes, 0, []);
    ResolvesToFullExpansion(fs, root.value, nodes);
    if r.Ok? {
      ResolvedIsPasted(fs, root.value, nodes);
    }
  }
}
