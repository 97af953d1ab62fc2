/**
 The pruned directory walk of common/copr_common/tree.py: walk_limited() steers os.walk() by
 emptying the list of directory names, and yields what lies between two depths.
 */
module Walk {
  import opened Wrappers

  /**
   A directory tree as os.walk() meets it.  Sealed stands for a directory that is listed but not
   entered: a symbolic link to a directory, or one that cannot be read.
   */
  datatype Tree =
    | Dir(name: string, children: seq<Tree>, files: seq<string>)
    | Sealed(name: string)

  /** What is yielded for one directory; its path is given from the root, component by component. */
  datatype Visit = Visit(path: seq<string>, dirnames: seq<string>, files: seq<string>)

  function Names(ts: seq<Tree>): (names: seq<string>)
    ensures |names| == |ts| && forall i :: 0 <= i < |ts| ==> names[i] == ts[i].name
  {
    if ts == [] then [] else [ts[0].name] + Names(ts[1..])
  }

  // ---------------------------------------------------------------- depth of a path

  /** os.path.relpath() and normpath() of a directory below the root. */
  function Subpath(path: seq<string>): string {
    if path == [] then "." else if |path| == 1 then path[0] else path[0] + "/" + Subpath(path[1..])
  }

  function Slashes(s: string): nat {
    if s == "" then 0 else (if s[0] == '/' then 1 else 0) + Slashes(s[1..])
  }

  /** The depth as the source reads it off the path: the parts that the separators leave. */
  function Depth(subpath: string): nat {
    if subpath == "." then 0 else Slashes(subpath) + 1
  }

  /** A name of a directory entry. */
  predicate Name(s: string) {
    s != "" && s != "." && s != ".." && forall i :: 0 <= i < |s| ==> s[i] != '/'
  }

  lemma {:induction false} SlashesConcat(s: string, t: string)
    ensures Slashes(s + t) == Slashes(s) + Slashes(t)
  {
    if s == "" {
      assert s + t == t;
    } else {
      SlashesConcat(s[1..], t);
      assert (s + t)[1..] == s[1..] + t;
    }
  }

  lemma {:induction false} NoSlashes(s: string)
    requires forall i :: 0 <= i < |s| ==> s[i] != '/'
    ensures Slashes(s) == 0
  {
    if s != "" {
      NoSlashes(s[1..]);
    }
  }

  /** The depth read off the path is the number of its components. */
  lemma {:induction false} DepthCounts(path: seq<string>)
    requires forall i :: 0 <= i < |path| ==> Name(path[i])
    ensures Depth(Subpath(path)) == |path|
  {
    if |path| == 1 {
      NoSlashes(path[0]);
    } else if |path| > 1 {
      DepthCounts(path[1..]);
      NoSlashes(path[0]);
      SlashesConcat(path[0] + "/", Subpath(path[1..]));
      SlashesConcat(path[0], "/");
      assert Slashes("/") == 1;
      assert |Subpath(path)| > 1;
      SubpathIsNoDot(path[1..]);
    }
  }

  lemma {:induction false} SubpathIsNoDot(path: seq<string>)
    requires path != [] && forall i :: 0 <= i < |path| ==> Name(path[i])
    ensures Subpath(path) != "."
  {
    if |path| > 1 {
      assert |path[0]| > 0 && |Subpath(path)| > 1;
    }
  }

  // ---------------------------------------------------------------- the plain walk

  /** os.walk(): the directory itself, then each of its directories in turn. */
  function FullWalk(t: Tree, path: seq<string>): seq<Visit>
    decreases t, 0
  {
    match t
    case Sealed(_) => []
    case Dir(_, children, files) => [Visit(path, Names(children), files)] + FullForest(children, path)
  }

  function FullForest(ts: seq<Tree>, path: seq<string>): seq<Visit>
    decreases ts, 1
  {
    if ts == [] then [] else FullWalk(ts[0], path + [ts[0].name]) + FullForest(ts[1..], path)
  }

  /** The deepest level that is visited; the root always is, even for a negative maxdepth. */
  predicate Within(depth: nat, maxdepth: Option<int>) {
    maxdepth.Some? ==> depth == 0 || depth <= maxdepth.value
  }

  predicate Wanted(depth: nat, maxdepth: Option<int>, mindepth: Option<int>) {
    Within(depth, maxdepth) && (mindepth.Some? ==> mindepth.value <= depth)
  }

  /** The visits between the two depths, in their order. */
  function Filtered(vs: seq<Visit>, maxdepth: Option<int>, mindepth: Option<int>): seq<Visit> {
    if vs == [] then []
    else if Wanted(|vs[0].path|, maxdepth, mindepth) then [vs[0]] + Filtered(vs[1..], maxdepth, mindepth)
    else Filtered(vs[1..], maxdepth, mindepth)
  }

  lemma {:induction false} FilteredConcat(vs: seq<Visit>, ws: seq<Visit>, maxdepth: Option<int>, mindepth: Option<int>)
    ensures Filtered(vs + ws, maxdepth, mindepth) == Filtered(vs, maxdepth, mindepth) + Filtered(ws, maxdepth, mindepth)
  {
    if vs == [] {
      assert vs + ws == ws;
    } else {
      var f, g := Filtered(vs[1..], maxdepth, mindepth), Filtered(ws, maxdepth, mindepth);
      FilteredConcat(vs[1..], ws, maxdepth, mindepth);
      assert (vs + ws)[1..] == vs[1..] + ws && (vs + ws)[0] == vs[0];
      assert ([vs[0]] + f) + g == [vs[0]] + (f + g);
    }
  }

  predicate DeeperThan(vs: seq<Visit>, depth: nat) {
    forall i :: 0 <= i < |vs| ==> |vs[i].path| > depth
  }

  /** A walk never comes back up. */
  lemma {:induction false} ForestIsDeeper(ts: seq<Tree>, path: seq<string>)
    ensures DeeperThan(FullForest(ts, path), |path|)
    decreases ts, 1
  {
    if ts != [] {
      WalkIsDeeper(ts[0], path, ts[0].name);
      ForestIsDeeper(ts[1..], path);
    }
  }

  lemma {:induction false} WalkIsDeeper(t: Tree, path: seq<string>, name: string)
    ensures DeeperThan(FullWalk(t, path + [name]), |path|)
    decreases t, 0
  {
    if t.Dir? {
      ForestIsDeeper(t.children, path + [name]);
    }
  }

  lemma {:induction false} NothingWanted(vs: seq<Visit>, depth: nat, maxdepth: Option<int>, mindepth: Option<int>)
    requires maxdepth.Some? && depth >= maxdepth.value && DeeperThan(vs, depth)
    ensures Filtered(vs, maxdepth, mindepth) == []
  {
    if vs != [] {
      NothingWanted(vs[1..], depth, maxdepth, mindepth);
    }
  }

  // ---------------------------------------------------------------- the pruned walk

  /** A directory that os.walk() has still to enter. */
  datatype Pending = Pending(tree: Tree, path: seq<string>)

  function Children(ts: seq<Tree>, path: seq<string>): seq<Pending> {
    if ts == [] then [] else [Pending(ts[0], path + [ts[0].name])] + Children(ts[1..], path)
  }

  /** What the plain walk still has to bring. */
  function Rest(stack: seq<Pending>): seq<Visit> {
    if stack == [] then [] else FullWalk(stack[0].tree, stack[0].path) + Rest(stack[1..])
  }

  /** How many trees there are to enter, the measure of the walk. */
  function Count(t: Tree): nat
    decreases t, 0
  {
    if t.Sealed? then 1 else 1 + CountAll(t.children)
  }

  function CountAll(ts: seq<Tree>): nat
    decreases ts, 1
  {
    if ts == [] then 0 else Count(ts[0]) + CountAll(ts[1..])
  }

  function CountStack(stack: seq<Pending>): nat {
    if stack == [] then 0 else Count(stack[0].tree) + CountStack(stack[1..])
  }

  lemma Associative(a: seq<Visit>, b: seq<Visit>, c: seq<Visit>)
    ensures (a + b) + c == a + (b + c)
  {
  }

  lemma Push(head: Pending, stack: seq<Pending>)
    ensures Rest([head] + stack) == FullWalk(head.tree, head.path) + Rest(stack)
    ensures CountStack([head] + stack) == Count(head.tree) + CountStack(stack)
  {
    assert ([head] + stack)[1..] == stack;
  }

  lemma {:induction false} RestOfChildren(ts: seq<Tree>, path: seq<string>, stack: seq<Pending>)
    ensures Rest(Children(ts, path) + stack) == FullForest(ts, path) + Rest(stack)
  {
    if ts == [] {
      assert Children(ts, path) + stack == stack;
    } else {
      var head := Pending(ts[0], path + [ts[0].name]);
      var tail := Children(ts[1..], path) + stack;
      RestOfChildren(ts[1..], path, stack);
      assert Children(ts, path) + stack == [head] + tail;
      Push(head, tail);
      Associative(FullWalk(head.tree, head.path), FullForest(ts[1..], path), Rest(stack));
    }
  }

  lemma {:induction false} CountOfChildren(ts: seq<Tree>, path: seq<string>, stack: seq<Pending>)
    ensures CountStack(Children(ts, path) + stack) == CountAll(ts) + CountStack(stack)
  {
    if ts == [] {
      assert Children(ts, path) + stack == stack;
    } else {
      var head, tail := Pending(ts[0], path + [ts[0].name]), Children(ts[1..], path) + stack;
      CountOfChildren(ts[1..], path, stack);
      assert Children(ts, path) + stack == [head] + tail;
      Push(head, tail);
    }
  }

  /** The stack after a directory: its children, unless they are pruned, before the others. */
  function Pruned(stack: seq<Pending>, maxdepth: Option<int>): seq<Pending>
    requires stack != [] && stack[0].tree.Dir?
  {
    var Pending(t, path) := stack[0];
    Children(if maxdepth.Some? && |path| >= maxdepth.value then [] else t.children, path) + stack[1..]
  }

  function VisitOf(p: Pending): Visit
    requires p.tree.Dir?
  {
    Visit(p.path, Names(p.tree.children), p.tree.files)
  }

  lemma PrunedCount(stack: seq<Pending>, maxdepth: Option<int>)
    requires stack != [] && stack[0].tree.Dir?
    ensures CountStack(Pruned(stack, maxdepth)) < CountStack(stack)
  {
    CountOfChildren([], stack[0].path, stack[1..]);
    CountOfChildren(stack[0].tree.children, stack[0].path, stack[1..]);
  }

  /** What the pruned children would have brought is not wanted. */
  lemma PrunedLosesNothing(stack: seq<Pending>, maxdepth: Option<int>, mindepth: Option<int>)
    requires stack != [] && stack[0].tree.Dir?
    ensures Filtered(FullForest(stack[0].tree.children, stack[0].path), maxdepth, mindepth)
            + Filtered(Rest(stack[1..]), maxdepth, mindepth)
            == Filtered(Rest(Pruned(stack, maxdepth)), maxdepth, mindepth)
  {
    var Pending(t, path) := stack[0];
    var forest, others := FullForest(t.children, path), Rest(stack[1..]);
    if maxdepth.Some? && |path| >= maxdepth.value {
      ForestIsDeeper(t.children, path);
      NothingWanted(forest, |path|, maxdepth, mindepth);
      assert Children([], path) + stack[1..] == stack[1..];
    } else {
      RestOfChildren(t.children, path, stack[1..]);
      FilteredConcat(forest, others, maxdepth, mindepth);
    }
  }

  /** What is yielded already, together with what the plain walk still has to bring. */
  predicate SoFar(out: seq<Visit>, stack: seq<Pending>, root: Tree, maxdepth: Option<int>, mindepth: Option<int>) {
    out + Filtered(Rest(stack), maxdepth, mindepth) == Filtered(FullWalk(root, []), maxdepth, mindepth)
  }

  /** One turn of the walk. */
  lemma Turn(out: seq<Visit>, stack: seq<Pending>, root: Tree, maxdepth: Option<int>, mindepth: Option<int>)
    requires stack != [] && stack[0].tree.Dir? && SoFar(out, stack, root, maxdepth, mindepth)
    ensures SoFar(if Wanted(|stack[0].path|, maxdepth, mindepth) then out + [VisitOf(stack[0])] else out,
                  Pruned(stack, maxdepth), root, maxdepth, mindepth)
  {
    var visit := VisitOf(stack[0]);
    var forest, others := FullForest(stack[0].tree.children, stack[0].path), Rest(stack[1..]);
    Associative([visit], forest, others);
    FilteredConcat([visit], forest + others, maxdepth, mindepth);
    FilteredConcat(forest, others, maxdepth, mindepth);
    PrunedLosesNothing(stack, maxdepth, mindepth);
    var rest := Filtered(Rest(Pruned(stack, maxdepth)), maxdepth, mindepth);
    assert Filtered([visit], maxdepth, mindepth) == if Wanted(|stack[0].path|, maxdepth, mindepth) then [visit] else [];
    assert Filtered(Rest(stack), maxdepth, mindepth) == Filtered([visit], maxdepth, mindepth) + rest;
    Associative(out, [visit], rest);
  }

  /** What every file system guarantees of its names. */
  predicate WellNamed(t: Tree) {
    t.Dir? ==> forall i :: 0 <= i < |t.children| ==> Name(t.children[i].name) && WellNamed(t.children[i])
  }

  predicate ProperPath(path: seq<string>) {
    forall i :: 0 <= i < |path| ==> Name(path[i])
  }

  predicate Proper(p: Pending, maxdepth: Option<int>) {
    WellNamed(p.tree) && ProperPath(p.path) && Within(|p.path|, maxdepth)
  }

  predicate AllProper(stack: seq<Pending>, maxdepth: Option<int>) {
    forall i :: 0 <= i < |stack| ==> Proper(stack[i], maxdepth)
  }

  lemma {:induction false} ChildrenAreProper(ts: seq<Tree>, path: seq<string>, maxdepth: Option<int>)
    requires ts != [] ==> Within(|path| + 1, maxdepth)
    requires ProperPath(path) && forall i :: 0 <= i < |ts| ==> Name(ts[i].name) && WellNamed(ts[i])
    ensures AllProper(Children(ts, path), maxdepth)
  {
    if ts != [] {
      ChildrenAreProper(ts[1..], path, maxdepth);
    }
  }

  lemma PrunedIsProper(stack: seq<Pending>, maxdepth: Option<int>)
    requires AllProper(stack, maxdepth) && stack != [] && stack[0].tree.Dir?
    ensures AllProper(Pruned(stack, maxdepth), maxdepth)
  {
    var Pending(t, path) := stack[0];
    assert Proper(stack[0], maxdepth);
    ChildrenAreProper(if maxdepth.Some? && |path| >= maxdepth.value then [] else t.children, path, maxdepth);
  }

  /**
   walk_limited(), os.walk() being the loop over the stack.  Pruning loses nothing that is wanted
   and nothing is yielded twice or out of order; a pruned directory still shows all its names;
   entered, the directories that were read at all, has nothing below the wanted depth.
   */
  method WalkLimited(root: Tree, maxdepth: Option<int>, mindepth: Option<int>)
    returns (out: seq<Visit>, entered: seq<Visit>)
    requires WellNamed(root)
    ensures out == Filtered(FullWalk(root, []), maxdepth, mindepth)
    ensures entered == Filtered(FullWalk(root, []), maxdepth, None)
  {
    var stack := [Pending(root, [])];
    out, entered := [], [];
    assert Rest(stack) == FullWalk(root, []) + [] == FullWalk(root, []);
    while stack != []
      invariant AllProper(stack, maxdepth)
      invariant SoFar(out, stack, root, maxdepth, mindepth)
      invariant SoFar(entered, stack, root, maxdepth, None)
      decreases CountStack(stack)
    {
      var Pending(t, path) := stack[0];
      if t.Sealed? {
        assert Rest(stack) == Rest(stack[1..]);
        stack := stack[1..];
        continue;
      }
      Turn(out, stack, root, maxdepth, mindepth);
      Turn(entered, stack, root, maxdepth, None);
      PrunedCount(stack, maxdepth);
      PrunedIsProper(stack, maxdepth);
      DepthCounts(path);
      var depth := Depth(Subpath(path));
      var dirnames := t.children;
      var oldDirnames := Names(dirnames);
      entered := entered + [Visit(path, oldDirnames, t.files)];
      if maxdepth.Some? && depth >= maxdepth.value {
        dirnames := [];
      }
      if mindepth.None? || depth >= mindepth.value {
        out := out + [Visit(path, oldDirnames, t.files)];
      }
      stack := Children(dirnames, path) + stack[1..];
    }
  }

  /** Being yielded is being met by the plain walk at a wanted depth. */
  lemma {:induction false} FilteredExactly(vs: seq<Visit>, maxdepth: Option<int>, mindepth: Option<int>, v: Visit)
    ensures v in Filtered(vs, maxdepth, mindepth) <==>
            && v in vs
            && (maxdepth.Some? ==> v.path == [] || |v.path| <= maxdepth.value)
            && (mindepth.Some? ==> mindepth.value <= |v.path|)
  {
    if vs != [] {
      FilteredExactly(vs[1..], maxdepth, mindepth, v);
    }
  }

  /** Without limits the walk is os.walk(). */
  lemma {:induction false} NoLimits(vs: seq<Visit>)
    ensures Filtered(vs, None, None) == vs
  {
    if vs != [] {
      NoLimits(vs[1..]);
    }
  }

  // ---------------------------------------------------------------- what the plain walk meets

  /** Following these names from t, one comes to d. */
  predicate Leads(t: Tree, path: seq<string>, d: Tree)
    decreases |path|
  {
    if path == [] then d == t
    else t.Dir? && exists i :: 0 <= i < |t.children| && t.children[i].name == path[0] && Leads(t.children[i], path[1..], d)
  }

  /** The visit of a directory at this path. */
  function VisitAt(path: seq<string>, d: Tree): Visit
    requires d.Dir?
  {
    VisitOf(Pending(d, path))
  }

  /** Whatever the plain walk brings is a directory of the tree, under its own path. */
  lemma {:induction false} MetLeads(t: Tree, base: seq<string>, v: Visit) returns (path: seq<string>, d: Tree)
    requires v in FullWalk(t, base)
    ensures Leads(t, path, d) && d.Dir? && v == VisitAt(base + path, d)
    decreases t, 0
  {
    if v == VisitAt(base, t) {
      path, d := [], t;
      assert base + [] == base;
    } else {
      var i, rest;
      i, rest, d := MetBelow(t.children, base, v);
      path := [t.children[i].name] + rest;
      assert path[1..] == rest;
      assert base + path == base + [t.children[i].name] + rest;
    }
  }

  lemma {:induction false} MetBelow(ts: seq<Tree>, base: seq<string>, v: Visit) returns (i: nat, path: seq<string>, d: Tree)
    requires v in FullForest(ts, base)
    ensures i < |ts| && Leads(ts[i], path, d) && d.Dir? && v == VisitAt(base + [ts[i].name] + path, d)
    decreases ts, 1
  {
    if v in FullWalk(ts[0], base + [ts[0].name]) {
      i := 0;
      path, d := MetLeads(ts[0], base + [ts[0].name], v);
    } else {
      i, path, d := MetBelow(ts[1..], base, v);
      i := i + 1;
    }
  }

  /** And no directory that can be reached is left out. */
  lemma {:induction false} LeadsMet(t: Tree, base: seq<string>, path: seq<string>, d: Tree)
    requires Leads(t, path, d) && d.Dir?
    ensures VisitAt(base + path, d) in FullWalk(t, base)
    decreases |path|
  {
    if path == [] {
      assert base + path == base;
    } else {
      var i :| 0 <= i < |t.children| && t.children[i].name == path[0] && Leads(t.children[i], path[1..], d);
      LeadsMet(t.children[i], base + [path[0]], path[1..], d);
      InForest(t.children, base, i, VisitAt(base + path, d));
      assert base + path == base + [path[0]] + path[1..];
    }
  }

  lemma {:induction false} InForest(ts: seq<Tree>, base: seq<string>, i: nat, v: Visit)
    requires i < |ts|
    ensures v in FullWalk(ts[i], base + [ts[i].name]) ==> v in FullForest(ts, base)
  {
    if i > 0 {
      InForest(ts[1..], base, i - 1, v);
    }
  }

  /**
   Directory by directory: it is yielded iff the names of its path lead to it, past no sealed one,
   and its depth is between the two; and it shows all its names and files.
   */
  lemma YieldedExactly(root: Tree, maxdepth: Option<int>, mindepth: Option<int>, v: Visit)
    ensures v in Filtered(FullWalk(root, []), maxdepth, mindepth) <==>
            && (exists d :: Leads(root, v.path, d) && d.Dir? && v.dirnames == Names(d.children) && v.files == d.files)
            && (maxdepth.Some? ==> v.path == [] || |v.path| <= maxdepth.value)
            && (mindepth.Some? ==> mindepth.value <= |v.path|)
  {
    FilteredExactly(FullWalk(root, []), maxdepth, mindepth, v);
    if v in FullWalk(root, []) {
      var path, d := MetLeads(root, [], v);
      assert [] + path == path;
    }
    if d :| Leads(root, v.path, d) && d.Dir? && v.dirnames == Names(d.children) && v.files == d.files {
      LeadsMet(root, [], v.path, d);
      assert [] + v.path == v.path;
    }
  }
}
