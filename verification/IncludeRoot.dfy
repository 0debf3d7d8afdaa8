/** Includes stay inside the root directory. */
module IncludeRoot {
  import opened Common
  import opened TextLayout
  import opened Parser
  import opened Include

  /** The same names, and the same files under the root; anything may differ outside. */
  ghost predicate AlikeInside(fs: FileSystem, gs: FileSystem, root: Path) {
    && (forall name :: fs.canonicalize(name) == gs.canonicalize(name))
    && (forall p :: root <= p ==> fs.read(p) == gs.read(p))
  }

  /** Nothing outside the root directory is ever read: the outcome does not depend on it. */
  lemma {:induction false} OutsideIsUnread(fs: FileSystem, gs: FileSystem, root: Path, current: Path, nodes: seq<Node>,
                                           resolving: set<Path>, depth: nat)
    requires AlikeInside(fs, gs, root)
    ensures ResolveNodes(fs, root, current, nodes, resolving, depth)
         == ResolveNodes(gs, root, current, nodes, resolving, depth)
    decreases 2 * Left(depth) + 1, nodes, 3
  {
    if depth <= MAX_DEPTH && nodes != [] {
      OutsideIsUnreadBy(fs, gs, root, current, nodes[0], resolving, depth);
      OutsideIsUnread(fs, gs, root, current, nodes[1..], resolving, depth);
    }
  }

  lemma {:induction false} OutsideIsUnreadBy(fs: FileSystem, gs: FileSystem, root: Path, current: Path, n: Node,
                                             resolving: set<Path>, depth: nat)
    requires AlikeInside(fs, gs, root) && depth <= MAX_DEPTH
    ensures ResolveNode(fs, root, current, n, resolving, depth) == ResolveNode(gs, root, current, n, resolving, depth)
    decreases 2 * Left(depth) + 1, n, 1
  {
    if IsInclude(n) {
      OutsideIsUnreadByArgs(fs, gs, root, current, n.args, resolving, depth);
    } else if n.Block? {
      OutsideIsUnread(fs, gs, root, current, n.children, resolving, depth);
    }
  }

  lemma {:induction false} OutsideIsUnreadByArgs(fs: FileSystem, gs: FileSystem, root: Path, current: Path,
                                                 args: seq<string>, resolving: set<Path>, depth: nat)
    requires AlikeInside(fs, gs, root) && depth <= MAX_DEPTH
    ensures ResolveArgs(fs, root, current, args, resolving, depth)
         == ResolveArgs(gs, root, current, args, resolving, depth)
    decreases 2 * Left(depth) + 1, args, 1
  {
    if args != [] {
      var path := ResolvePath(fs, root, current, args[0]);
      if path.Ok? && Load(fs, path.value).Ok? {
        OutsideIsUnread(fs, gs, root, Parent(root, path.value), Load(fs, path.value).value,
                        resolving + {path.value}, depth + 1);
      }
      OutsideIsUnreadByArgs(fs, gs, root, current, args[1..], resolving, depth);
    }
  }

  // ---- and leaving it is an error ----

  /** Every include argument leads to a file under the root, and so do those of the files, for so many levels. */
  ghost predicate AllInside(fs: FileSystem, root: Path, current: Path, nodes: seq<Node>, levels: nat)
    decreases 2 * levels + 1, nodes, 2
  {
    nodes != [] ==> NodeInside(fs, root, current, nodes[0], levels) && AllInside(fs, root, current, nodes[1..], levels)
  }

  ghost predicate NodeInside(fs: FileSystem, root: Path, current: Path, n: Node, levels: nat)
    decreases 2 * levels + 1, n, 1
  {
    if IsInclude(n) then forall i :: 0 <= i < |n.args| ==> ArgInside(fs, root, current, n.args[i], levels)
    else n.Block? ==> AllInside(fs, root, current, n.children, levels)
  }

  ghost predicate ArgInside(fs: FileSystem, root: Path, current: Path, raw: string, levels: nat)
    decreases 2 * levels
  {
    match fs.canonicalize(Join(current, raw))
    case None => false
    case Some(path) =>
      root <= path && fs.read(path).Some? && ParseConfig(fs.read(path).value).Ok?
      && (levels > 0 ==>
            AllInside(fs, root, Parent(root, path), ParseConfig(fs.read(path).value).value, levels - 1))
  }

  /** A configuration that resolves includes nothing outside the root, at any depth. */
  lemma {:induction false} ResolvedIsInside(fs: FileSystem, root: Path, current: Path, nodes: seq<Node>,
                                            resolving: set<Path>, depth: nat)
    requires ResolveNodes(fs, root, current, nodes, resolving, depth).Ok?
    ensures depth <= MAX_DEPTH && AllInside(fs, root, current, nodes, MAX_DEPTH - depth)
    decreases 2 * Left(depth) + 1, nodes, 3
  {
    if nodes != [] {
      NodeIsInside(fs, root, current, nodes[0], resolving, depth);
      ResolvedIsInside(fs, root, current, nodes[1..], resolving, depth);
    }
  }

  lemma {:induction false} NodeIsInside(fs: FileSystem, root: Path, current: Path, n: Node, resolving: set<Path>,
                                        depth: nat)
    requires depth <= MAX_DEPTH && ResolveNode(fs, root, current, n, resolving, depth).Ok?
    ensures NodeInside(fs, root, current, n, MAX_DEPTH - depth)
    decreases 2 * Left(depth) + 1, n, 1
  {
    if IsInclude(n) {
      ArgsAreInside(fs, root, current, n.args, resolving, depth);
    } else if n.Block? {
      ResolvedIsInside(fs, root, current, n.children, resolving, depth);
    }
  }

  lemma {:induction false} ArgsAreInside(fs: FileSystem, root: Path, current: Path, args: seq<string>,
                                         resolving: set<Path>, depth: nat)
    requires depth <= MAX_DEPTH && ResolveArgs(fs, root, current, args, resolving, depth).Ok?
    ensures forall i :: 0 <= i < |args| ==> ArgInside(fs, root, current, args[i], MAX_DEPTH - depth)
    decreases 2 * Left(depth) + 1, args, 1
  {
    if args != [] {
      var path := ResolvePath(fs, root, current, args[0]).value;
      ResolvedIsInside(fs, root, Parent(root, path), Load(fs, path).value, resolving + {path}, depth + 1);
      ArgsAreInside(fs, root, current, args[1..], resolving, depth);
      forall i | 0 <= i < |args| ensures ArgInside(fs, root, current, args[i], MAX_DEPTH - depth) {
        if i > 0 { assert args[i] == args[1..][i - 1]; }
      }
    }
  }

  /** Some include directive, in whatever block, has this argument. */
  predicate Cites(nodes: seq<Node>, raw: string)
    decreases nodes, 1
  {
    nodes != [] && (CitedBy(nodes[0], raw) || Cites(nodes[1..], raw))
  }

  predicate CitedBy(n: Node, raw: string)
    decreases n, 0
  {
    if IsInclude(n) then raw in n.args else n.Block? && Cites(n.children, raw)
  }

  lemma {:induction false} CitedIsInside(fs: FileSystem, root: Path, current: Path, nodes: seq<Node>, raw: string,
                                         levels: nat)
    requires AllInside(fs, root, current, nodes, levels) && Cites(nodes, raw)
    ensures ArgInside(fs, root, current, raw, levels)
    decreases nodes
  {
    if !CitedBy(nodes[0], raw) {
      CitedIsInside(fs, root, current, nodes[1..], raw, levels);
    } else if !IsInclude(nodes[0]) {
      CitedIsInside(fs, root, current, nodes[0].children, raw, levels);
    }
  }

  /** A configuration that cites a path outside the root is refused, whatever the path leads to. */
  lemma EscapeIsRefused(fs: FileSystem, root: Path, current: Path, nodes: seq<Node>, raw: string,
                        resolving: set<Path>, depth: nat, path: Path)
    requires Cites(nodes, raw) && fs.canonicalize(Join(current, raw)) == Some(path) && !(root <= path)
    ensures ResolveNodes(fs, root, current, nodes, resolving, depth).Err?
  {
    if ResolveNodes(fs, root, current, nodes, resolving, depth).Ok? {
      ResolvedIsInside(fs, root, current, nodes, resolving, depth);
      CitedIsInside(fs, root, current, nodes, raw, MAX_DEPTH - depth);
      assert false;
    }
  }

  // ---- where a path leads ----

  lemma {:induction false} ShowChild(dir: Path, name: string)
    ensures Show(dir + [name]) == Show(dir) + "/" + name
  {
    if dir == [] {
      assert dir + [name] == [name] && [name][1..] == [];
      assert Show([name]) == "/" + name + [];
    } else {
      ShowChild(dir[1..], name);
      assert (dir + [name])[1..] == dir[1..] + [name];
    }
  }

  /** A relative argument is looked up beside the file that has it, an absolute one where it says. */
  lemma LooksBeside(fs: FileSystem, root: Path, dir: Path, file: string, name: string)
    requires root <= dir && name != "" && name[0] != '/'
    requires forall p: Path :: p != [] ==> fs.canonicalize(Show(p)) == Some(p)
    ensures ResolvePath(fs, root, Parent(root, dir + [file]), name) == Ok(dir + [name])
    ensures forall other :: ResolvePath(fs, root, other, Show(dir + [name])) == Ok(dir + [name])
  {
    assert (dir + [file])[..|dir|] == dir;
    ShowChild(dir, name);
    assert Show(dir + [name])[0] == '/';
    assert root <= dir + [name];
  }
}
