/** The directory walks of server/documentFileLifecycle.ts and server/folderMoveSourceOwnership.ts:
    the exact check of a move's destination, the inventory of its source, and the deepest-first
    removal of the directories it leaves empty. Symlinks and special files are Other. */
module DirectoryParity {
  import opened Options

  type Path = seq<string>
  datatype Node = Dir(generation: nat) | File(generation: nat, text: string) | Other
  type Tree = map<Path, Node>

  /** A tree below its root []: every entry's parent is a directory of the tree. */
  ghost predicate WellFormed(tree: Tree) {
    forall p :: p in tree && p != [] ==> p[..|p| - 1] in tree && tree[p[..|p| - 1]].Dir?
  }

  predicate Below(dir: Path, p: Path) {
    |dir| < |p| && p[..|dir|] == dir
  }

  function Children(tree: Tree, dir: Path): set<Path> {
    set p | p in tree && |p| == |dir| + 1 && p[..|dir|] == dir
  }

  function Descendants(tree: Tree, dir: Path): set<Path> {
    set p | p in tree && Below(dir, p)
  }

  lemma {:induction false} AncestorInTree(tree: Tree, p: Path, k: nat)
    requires WellFormed(tree) && p in tree && k <= |p|
    ensures p[..k] in tree && (k < |p| ==> tree[p[..k]].Dir?)
    decreases |p|
  {
    if k < |p| {
      var parent := p[..|p| - 1];
      AncestorInTree(tree, parent, k);
      assert parent[..k] == p[..k];
    } else {
      assert p[..k] == p;
    }
  }

  /** What lies below a directory lies at or below one of its children. */
  lemma DescendantsByChild(tree: Tree, dir: Path, p: Path)
    requires WellFormed(tree) && p in Descendants(tree, dir)
    ensures var child := p[..|dir| + 1];
            child in Children(tree, dir) && (p == child || p in Descendants(tree, child))
  {
    AncestorInTree(tree, p, |dir| + 1);
    assert p[..|dir| + 1][..|dir|] == p[..|dir|];
  }

  lemma ChildShrinks(tree: Tree, dir: Path, child: Path)
    requires child in Children(tree, dir)
    ensures Descendants(tree, child) < Descendants(tree, dir)
    ensures child in Descendants(tree, dir) && child !in Descendants(tree, child)
  {
    forall p | p in Descendants(tree, child)
      ensures p in Descendants(tree, dir)
    {
      assert p[..|dir|] == p[..|child|][..|dir|];
    }
    assert child in Descendants(tree, dir) && child !in Descendants(tree, child);
  }

  // ---------- the walk ----------

  /** What a walk makes of one entry. */
  type Check = (Path, Node) -> bool

  predicate Skipped(ignored: set<Path>, p: Path) {
    p != [] && p[..1] in ignored
  }

  class Walk {
    const tree: Tree
    const good: Check
    const ignored: set<Path>
    var files: set<Path>
    var dirs: set<Path>

    constructor (tree: Tree, good: Check, ignored: set<Path>)
      ensures this.tree == tree && this.good == good && this.ignored == ignored && files == {} && dirs == {}
    {
      this.tree, this.good, this.ignored := tree, good, ignored;
      files, dirs := {}, {};
    }

    /** The recursive walk: it stops at the first bad entry and otherwise has collected every
        file and directory below, ignored root names excepted. */
    method Visit(dir: Path) returns (ok: bool)
      requires WellFormed(tree)
      modifies this
      decreases Descendants(tree, dir)
      ensures ok <==> AllGood(tree, good, ignored, Descendants(tree, dir))
      ensures ok ==> files == old(files) + FilesIn(tree, ignored, Descendants(tree, dir))
      ensures ok ==> dirs == old(dirs) + DirsIn(tree, ignored, Descendants(tree, dir))
    {
      var rest := Children(tree, dir);
      ghost var files0, dirs0 := files, dirs;
      NothingSeen(tree, ignored, dir);
      hide AllGood, FilesIn, DirsIn, Children, Descendants, Seen, Skipped;
      while rest != {}
        invariant rest <= Children(tree, dir)
        invariant AllGood(tree, good, ignored, Seen(tree, dir, rest))
        invariant files == files0 + FilesIn(tree, ignored, Seen(tree, dir, rest))
        invariant dirs == dirs0 + DirsIn(tree, ignored, Seen(tree, dir, rest))
        decreases rest
      {
        var child :| child in rest;
        ChildShrinks(tree, dir, child);
        VisitNext(tree, good, ignored, dir, rest, child);
        if !Skipped(ignored, child) {
          if !good(child, tree[child]) {
            return false;
          }
          if tree[child].Dir? {
            dirs := dirs + {child};
            var nested := Visit(child);
            if !nested {
              return false;
            }
          } else {
            files := files + {child};
          }
        }
        rest := rest - {child};
      }
      AllSeen(tree, dir);
      ok := true;
    }
  }

  ghost predicate AllGood(tree: Tree, good: Check, ignored: set<Path>, paths: set<Path>) {
    forall p :: p in paths && p in tree && !Skipped(ignored, p) ==> good(p, tree[p])
  }

  function FilesIn(tree: Tree, ignored: set<Path>, paths: set<Path>): set<Path> {
    set p | p in paths && p in tree && !Skipped(ignored, p) && !tree[p].Dir?
  }

  function DirsIn(tree: Tree, ignored: set<Path>, paths: set<Path>): set<Path> {
    set p | p in paths && p in tree && !Skipped(ignored, p) && tree[p].Dir?
  }

  /** Everything at or below the children already visited. */
  function Seen(tree: Tree, dir: Path, rest: set<Path>): set<Path> {
    set p | p in Descendants(tree, dir) && p[..|dir| + 1] !in rest
  }

  lemma NothingSeen(tree: Tree, ignored: set<Path>, dir: Path)
    requires WellFormed(tree)
    ensures Seen(tree, dir, Children(tree, dir)) == {}
    ensures FilesIn(tree, ignored, {}) == {} && DirsIn(tree, ignored, {}) == {}
  {
    forall p | p in Descendants(tree, dir)
      ensures p[..|dir| + 1] in Children(tree, dir)
    {
      DescendantsByChild(tree, dir, p);
    }
  }

  lemma AllSeen(tree: Tree, dir: Path)
    ensures Seen(tree, dir, {}) == Descendants(tree, dir)
  {
  }

  lemma SeenNext(tree: Tree, good: Check, ignored: set<Path>, dir: Path, rest: set<Path>, child: Path)
    requires WellFormed(tree) && rest <= Children(tree, dir) && child in rest
    ensures child in tree
    ensures Seen(tree, dir, rest - {child}) == Seen(tree, dir, rest) + {child} + Descendants(tree, child)
    ensures !tree[child].Dir? ==> Descendants(tree, child) == {}
    ensures Seen(tree, dir, rest - {child}) <= Descendants(tree, dir)
    ensures Skipped(ignored, child) ==> forall p :: p in Descendants(tree, child) ==> Skipped(ignored, p)
  {
    ChildShrinks(tree, dir, child);
    forall p | p in Descendants(tree, dir)
      ensures p[..|dir| + 1] == child <==> p == child || p in Descendants(tree, child)
    {
      DescendantsByChild(tree, dir, p);
      if p in Descendants(tree, child) {
        assert p[..|child|] == child;
      }
    }
    if !tree[child].Dir? {
      forall p | p in Descendants(tree, child)
        ensures false
      {
        AncestorInTree(tree, p, |child|);
      }
    }
    forall p | Skipped(ignored, child) && p in Descendants(tree, child)
      ensures Skipped(ignored, p)
    {
      assert p[..1] == p[..|child|][..1];
    }
  }

  /** One more child: what it adds to the check and to the collected sets. */
  lemma VisitNext(tree: Tree, good: Check, ignored: set<Path>, dir: Path, rest: set<Path>, child: Path)
    requires WellFormed(tree) && rest <= Children(tree, dir) && child in rest
    ensures child in tree
    ensures var before, after, below := Seen(tree, dir, rest), Seen(tree, dir, rest - {child}),
              Descendants(tree, child);
            if Skipped(ignored, child) then
              && (AllGood(tree, good, ignored, after) <==> AllGood(tree, good, ignored, before))
              && FilesIn(tree, ignored, after) == FilesIn(tree, ignored, before)
              && DirsIn(tree, ignored, after) == DirsIn(tree, ignored, before)
            else if tree[child].Dir? then
              && (AllGood(tree, good, ignored, after) <==>
                    AllGood(tree, good, ignored, before) && good(child, tree[child])
                        && AllGood(tree, good, ignored, below))
              && FilesIn(tree, ignored, after) == FilesIn(tree, ignored, before) + FilesIn(tree, ignored, below)
              && DirsIn(tree, ignored, after) == DirsIn(tree, ignored, before) + {child} + DirsIn(tree, ignored, below)
            else
              && (AllGood(tree, good, ignored, after) <==>
                   AllGood(tree, good, ignored, before) && good(child, tree[child]))
              && FilesIn(tree, ignored, after) == FilesIn(tree, ignored, before) + {child}
              && DirsIn(tree, ignored, after) == DirsIn(tree, ignored, before)
    ensures AllGood(tree, good, ignored, Descendants(tree, dir)) ==>
              AllGood(tree, good, ignored, Seen(tree, dir, rest - {child}))
  {
    SeenNext(tree, good, ignored, dir, rest, child);
    hide Seen, Descendants, Children, Skipped, AllGood, FilesIn, DirsIn;
    var before, below := Seen(tree, dir, rest), Descendants(tree, child);
    GoodWith(tree, good, ignored, before, child, below);
    SetsWith(tree, ignored, before, child, below);
    GoodSubset(tree, good, ignored, Seen(tree, dir, rest - {child}), Descendants(tree, dir));
  }

  lemma GoodSubset(tree: Tree, good: Check, ignored: set<Path>, some: set<Path>, all: set<Path>)
    requires some <= all
    ensures AllGood(tree, good, ignored, all) ==> AllGood(tree, good, ignored, some)
  {
    hide Skipped;
  }

  lemma GoodWith(tree: Tree, good: Check, ignored: set<Path>, before: set<Path>, child: Path, below: set<Path>)
    requires child in tree && (Skipped(ignored, child) ==> forall p :: p in below ==> Skipped(ignored, p))
    ensures AllGood(tree, good, ignored, before + {child} + below) <==>
              AllGood(tree, good, ignored, before)
                  && (Skipped(ignored, child) || (good(child, tree[child]) && AllGood(tree, good, ignored, below)))
    ensures AllGood(tree, good, ignored, {})
  {
    hide Skipped;
    forall p | AllGood(tree, good, ignored, before + {child} + below) && p in before + {child} + below && p in tree
          && !Skipped(ignored, p)
      ensures good(p, tree[p])
    {
    }
  }

  lemma SetsWith(tree: Tree, ignored: set<Path>, before: set<Path>, child: Path, below: set<Path>)
    requires child in tree && (Skipped(ignored, child) ==> forall p :: p in below ==> Skipped(ignored, p))
    ensures var after := before + {child} + below;
            if Skipped(ignored, child) then
              FilesIn(tree, ignored, after) == FilesIn(tree, ignored, before)
                  && DirsIn(tree, ignored, after) == DirsIn(tree, ignored, before)
            else
              && FilesIn(tree, ignored, after)
                 == FilesIn(tree, ignored, before)
                     + (if tree[child].Dir? then {} else {child}) + FilesIn(tree, ignored, below)
              && DirsIn(tree, ignored, after)
                 == DirsIn(tree, ignored, before)
                     + (if tree[child].Dir? then {child} else {}) + DirsIn(tree, ignored, below)
    ensures FilesIn(tree, ignored, {}) == {} && DirsIn(tree, ignored, {}) == {}
  {
    hide Skipped;
  }

  // ---------- exact parity of the destination ----------

  /** The journal's manifest: the root's generation, every file, every directory, and the recorded
      directory generations. */
  datatype Manifest =
    Manifest(root: Option<nat>, files: map<Path, Node>, directories: set<Path>, generations: map<Path, nat>)
  {
    ghost predicate Valid() {
      [] !in directories && [] !in files && forall p :: p in files ==> files[p].File? && p !in directories
    }
  }

  predicate IsDir(tree: Tree, p: Path, generation: nat) {
    p in tree && tree[p] == Dir(generation)
  }

  function Visible(tree: Tree, ignored: set<Path>): set<Path> {
    set p | p in tree && p != [] && !Skipped(ignored, p)
  }

  /** The destination holds the manifest and nothing else. */
  ghost predicate ExactTree(tree: Tree, m: Manifest, ignored: set<Path>) {
    && m.root.Some? && IsDir(tree, [], m.root.value)
    && (forall p :: p in m.generations ==> IsDir(tree, p, m.generations[p]))
    && (forall p :: p in Visible(tree, ignored) <==> p in m.files || p in m.directories)
    && (forall p :: p in m.files ==> tree[p] == m.files[p])
    && (forall p :: p in m.directories ==> tree[p].Dir?)
  }

  predicate DestinationEntry(m: Manifest, p: Path, node: Node) {
    match node
    case Dir(_) => p in m.directories
    case File(_, _) => p in m.files && m.files[p] == node
    case Other => false
  }

  method CheckGenerations(tree: Tree, generations: map<Path, nat>) returns (ok: bool)
    ensures ok <==> forall p :: p in generations ==> IsDir(tree, p, generations[p])
  {
    var rest := generations.Keys;
    while rest != {}
      invariant rest <= generations.Keys
      invariant forall p :: p in generations && p !in rest ==> IsDir(tree, p, generations[p])
      decreases rest
    {
      var p :| p in rest;
      if !IsDir(tree, p, generations[p]) {
        return false;
      }
      rest := rest - {p};
    }
    ok := true;
  }

  /** verifyFolderMoveDestinationV4, negated: true exactly for an exact tree. */
  method VerifyDestination(tree: Tree, m: Manifest, ignored: set<Path>) returns (parity: bool)
    requires WellFormed(tree) && m.Valid()
    ensures parity <==> ExactTree(tree, m, ignored)
  {
    if m.root.None? || !IsDir(tree, [], m.root.value) {
      return false;
    }
    var generationsMatch := CheckGenerations(tree, m.generations);
    if !generationsMatch {
      return false;
    }
    hide AllGood, FilesIn, DirsIn, Descendants, ExactTree, DestinationEntry;
    var good := (p, node) => DestinationEntry(m, p, node);
    var walk := new Walk(tree, good, ignored);
    var clean := walk.Visit([]);
    parity := clean && walk.files == m.files.Keys && walk.dirs == m.directories;
    ExactByWalk(tree, m, ignored, good);
  }

  lemma RootDescendants(tree: Tree, ignored: set<Path>, p: Path)
    ensures p in Descendants(tree, []) <==> p in tree && p != []
    ensures p in Visible(tree, ignored) <==> p in Descendants(tree, []) && !Skipped(ignored, p)
  {
    assert p[..0] == [];
  }

  lemma ExactByWalk(tree: Tree, m: Manifest, ignored: set<Path>, good: Check)
    requires m.Valid() && m.root.Some? && IsDir(tree, [], m.root.value)
    requires forall p :: p in m.generations ==> IsDir(tree, p, m.generations[p])
    requires forall p, node :: good(p, node) == DestinationEntry(m, p, node)
    ensures var all := Descendants(tree, []);
            ExactTree(tree, m, ignored)
            <==> AllGood(tree, good, ignored, all) && FilesIn(tree, ignored, all) == m.files.Keys
                   && DirsIn(tree, ignored, all) == m.directories
  {
    hide Descendants, Visible, Skipped;
    forall p
      ensures p in Descendants(tree, []) <==> p in tree && p != []
      ensures p in Visible(tree, ignored) <==> p in Descendants(tree, []) && !Skipped(ignored, p)
    {
      RootDescendants(tree, ignored, p);
    }
    var all := Descendants(tree, []);
    if ExactTree(tree, m, ignored) {
      forall p | p in all && p in tree && !Skipped(ignored, p)
        ensures good(p, tree[p])
      {
        assert p in Visible(tree, ignored);
      }
    }
  }

  // ---------- the source inventory ----------

  datatype Inventory = Absent | External | Intact | PartiallyMoved(remaining: set<Path>) | EmptyOwnedShell

  predicate SourceEntry(m: Manifest, p: Path, node: Node) {
    match node
    case Dir(generation) => p in m.directories && p in m.generations && m.generations[p] == generation
    case File(_, _) => p in m.files && m.files[p] == node
    case Other => false
  }

  /** Every entry of the source is a journaled one, and every journaled directory is there. */
  ghost predicate OwnedSource(tree: Tree, m: Manifest) {
    && m.root.Some? && IsDir(tree, [], m.root.value) && |m.generations| == |m.directories|
    && (forall p :: p in tree && p != [] ==> SourceEntry(m, p, tree[p]))
    && (forall p :: p in m.directories ==> p in tree && tree[p].Dir?)
  }

  function Remaining(tree: Tree, m: Manifest): set<Path> {
    set p | p in m.files && p in tree
  }

  /** inspectFolderMoveSourceInventory. */
  method InspectSource(tree: Tree, m: Manifest) returns (inventory: Inventory)
    requires WellFormed(tree) && m.Valid()
    ensures inventory == Absent <==> [] !in tree
    ensures inventory == External <==> [] in tree && !OwnedSource(tree, m)
    ensures inventory == Intact <==> OwnedSource(tree, m) && Remaining(tree, m) == m.files.Keys
    ensures inventory == EmptyOwnedShell <==> OwnedSource(tree, m) && Remaining(tree, m) == {} && m.files != map[]
    ensures inventory.PartiallyMoved? ==> OwnedSource(tree, m) && inventory.remaining == Remaining(tree, m)
  {
    if [] !in tree {
      return Absent;
    }
    if m.root.None? || !IsDir(tree, [], m.root.value) || |m.generations| != |m.directories| {
      return External;
    }
    hide AllGood, FilesIn, DirsIn, Descendants, OwnedSource, SourceEntry, Remaining;
    var good := (p, node) => SourceEntry(m, p, node);
    var walk := new Walk(tree, good, {});
    var clean := walk.Visit([]);
    OwnedByWalk(tree, m, good);
    if !clean || !(m.directories <= walk.dirs) {
      return External;
    }
    RemainingCount(tree, m);
    if |walk.files| == |m.files| {
      inventory := Intact;
    } else if |walk.files| > 0 {
      inventory := PartiallyMoved(walk.files);
    } else {
      inventory := EmptyOwnedShell;
    }
  }

  lemma OwnedByWalk(tree: Tree, m: Manifest, good: Check)
    requires m.Valid() && m.root.Some? && IsDir(tree, [], m.root.value) && |m.generations| == |m.directories|
    requires forall p, node :: good(p, node) == SourceEntry(m, p, node)
    ensures var all := Descendants(tree, []);
            && (OwnedSource(tree, m) <==> AllGood(tree, good, {}, all) && m.directories <= DirsIn(tree, {}, all))
            && (OwnedSource(tree, m) ==> FilesIn(tree, {}, all) == Remaining(tree, m))
  {
    hide Descendants;
    var all := Descendants(tree, []);
    forall p
      ensures p in all <==> p in tree && p != []
      ensures !Skipped({}, p)
    {
      RootDescendants(tree, {}, p);
    }
    forall p | p in all && AllGood(tree, good, {}, all)
      ensures SourceEntry(m, p, tree[p])
    {
      assert good(p, tree[p]);
    }
  }

  lemma RemainingCount(tree: Tree, m: Manifest)
    ensures |Remaining(tree, m)| == |m.files| <==> Remaining(tree, m) == m.files.Keys
    ensures |m.files| == 0 <==> m.files == map[]
  {
    assert Remaining(tree, m) <= m.files.Keys && |m.files| == |m.files.Keys|;
    if |Remaining(tree, m)| == |m.files| {
      var missing := m.files.Keys - Remaining(tree, m);
      assert m.files.Keys == Remaining(tree, m) + missing;
      assert |missing| == 0;
    }
  }

  // ---------- removing the empty shells ----------

  /** A declared directory that still is the journaled one. */
  predicate Matching(tree: Tree, generations: map<Path, nat>, p: Path) {
    p in generations && IsDir(tree, p, generations[p])
  }

  /** A matching directory with nothing below but other declared, matching ones. */
  ghost predicate Removable(tree: Tree, declared: set<Path>, generations: map<Path, nat>, p: Path) {
    && p in declared && Matching(tree, generations, p)
    && forall q :: q in Descendants(tree, p) ==> q in declared && Matching(tree, generations, q)
  }

  datatype Removal = Removal(removed: set<Path>, retained: set<Path>, conflict: set<Path>, rootRemoved: bool)

  class Shells {
    var tree: Tree

    /** The loop of removeDeclaredEmptyDirectories, deepest directories first. */
    method RemoveDeclared(declared: set<Path>, generations: map<Path, nat>) returns (removed: set<Path>,
                          retained: set<Path>, conflict: set<Path>)
      requires WellFormed(tree) && [] !in declared
      modifies this
      ensures WellFormed(tree) && tree == old(tree) - removed
      ensures forall p :: p in removed <==> Removable(old(tree), declared, generations, p)
      ensures conflict == set p | p in declared && !Matching(old(tree), generations, p)
      ensures retained == declared - removed - conflict
    {
      removed, retained, conflict := {}, {}, {};
      ghost var before := tree;
      var rest := declared;
      SweepStarts(tree, declared, generations);
      hide Swept, Matching, Children;
      while rest != {}
        invariant rest <= declared
        invariant Swept(before, tree, declared, generations, rest, removed, retained, conflict)
        decreases rest
      {
        DeepestExists(rest);
        var p :| p in rest && forall q :: q in rest ==> |q| <= |p|;
        SweepNext(before, tree, declared, generations, rest, removed, retained, conflict, p);
        if !Matching(tree, generations, p) {
          conflict := conflict + {p};
        } else if Children(tree, p) != {} {
          retained := retained + {p};
        } else {
          tree := tree - {p};
          removed := removed + {p};
        }
        rest := rest - {p};
      }
      SweepEnds(before, tree, declared, generations, removed, retained, conflict);
    }

    /** removeDeclaredEmptyDirectories; `expected` is the recorded root generation. */
    method RemoveShells(declared: set<Path>, generations: map<Path, nat>, removeRoot: bool,
                        expected: Option<nat>) returns (r: Removal)
      requires WellFormed(tree) && [] !in declared
      modifies this
      ensures forall p :: p in r.removed <==> Removable(old(tree), declared, generations, p)
      ensures tree == old(tree) - r.removed - if r.rootRemoved then {[]} else {}
      ensures r.rootRemoved <==>
                removeRoot && RootMatches(old(tree), expected)
                && forall p :: p in Descendants(old(tree), []) ==> p in declared && Matching(old(tree), generations, p)
    {
      ghost var before := tree;
      var removed, retained, conflict := RemoveDeclared(declared, generations);
      r := Removal(removed, retained, conflict, false);
      RootEmpty(before, declared, generations, removed);
      hide Removable, Matching, Children, Descendants, WellFormed;
      if removeRoot {
        if [] !in tree {
          r := if expected.Some? then r.(conflict := conflict + {[]}) else r.(retained := retained + {[]});
        } else if !tree[[]].Dir? {
          r := r.(retained := retained + {[]});
        } else if expected.Some? && tree[[]].generation != expected.value {
          r := r.(conflict := conflict + {[]});
        } else if Children(tree, []) != {} {
          r := r.(retained := retained + {[]});
        } else {
          tree := tree - {[]};
          r := r.(rootRemoved := true);
        }
      }
    }
  }

  predicate RootMatches(tree: Tree, expected: Option<nat>) {
    [] in tree && tree[[]].Dir? && (expected.Some? ==> tree[[]].generation == expected.value)
  }

  /** After the loop the root is empty exactly when everything below was removable. */
  lemma RootEmpty(before: Tree, declared: set<Path>, generations: map<Path, nat>, removed: set<Path>)
    requires WellFormed(before) && [] !in declared
    requires forall p :: p in removed <==> Removable(before, declared, generations, p)
    ensures [] !in removed
    ensures Children(before - removed, []) == {} <==>
              forall p :: p in Descendants(before, []) ==> p in declared && Matching(before, generations, p)
  {
    hide Matching;
    forall p | p in Descendants(before, []) && Children(before - removed, []) == {}
      ensures p in declared && Matching(before, generations, p)
    {
      DescendantsByChild(before, [], p);
      assert p[..1] in removed by { assert p[..1] in before && p[..1] !in Children(before - removed, []); }
    }
    if forall p :: p in Descendants(before, []) ==> p in declared && Matching(before, generations, p) {
      forall c | c in Children(before, [])
        ensures c in removed
      {
        ChildShrinks(before, [], c);
      }
    }
  }

  /** Where only the journaled directories are left, all of them go, and the root with them: there is
      nothing else below it, which is the condition of RemoveShells. */
  lemma NothingElseLeft(tree: Tree, declared: set<Path>, generations: map<Path, nat>, p: Path)
    requires tree.Keys == declared + {[]} && p in declared
    requires forall q :: q in declared ==> q != [] && Matching(tree, generations, q)
    ensures Removable(tree, declared, generations, p)
    ensures forall q :: q in Descendants(tree, []) ==> q in declared && Matching(tree, generations, q)
  {
  }

  lemma {:induction false} DeepestExists(paths: set<Path>)
    requires paths != {}
    ensures exists p :: p in paths && forall q :: q in paths ==> |q| <= |p|
    decreases paths
  {
    var p :| p in paths;
    var rest := paths - {p};
    if rest == {} {
      assert paths == {p};
    } else {
      DeepestExists(rest);
      var deepest :| deepest in rest && forall q :: q in rest ==> |q| <= |deepest|;
      var best := if |deepest| < |p| then p else deepest;
      forall q | q in paths
        ensures |q| <= |best|
      {
        assert q == p || q in rest;
      }
    }
  }

  /** The deepest declared directory not yet looked at: its children are gone exactly if nothing
      foreign lies below it. */
  lemma ShellNext(before: Tree, now: Tree, declared: set<Path>, generations: map<Path, nat>, rest: set<Path>,
                  removed: set<Path>, p: Path)
    requires WellFormed(before) && WellFormed(now) && now == before - removed && removed <= declared - rest
    requires forall q :: q in declared - rest ==> (q in removed <==> Removable(before, declared, generations, q))
    requires p in rest && rest <= declared && p != [] && forall q :: q in rest ==> |q| <= |p|
    ensures Matching(now, generations, p) <==> Matching(before, generations, p)
    ensures Removable(before, declared, generations, p) ==> Matching(before, generations, p)
    ensures Matching(before, generations, p) ==>
              (Children(now, p) == {} <==> Removable(before, declared, generations, p))
    ensures Children(now, p) == {} ==> WellFormed(now - {p})
  {
    if Matching(before, generations, p) {
      if Removable(before, declared, generations, p) {
        forall c | c in Children(before, p)
          ensures c in removed
        {
          ChildShrinks(before, p, c);
          assert c !in rest;
        }
        assert Children(now, p) == {};
      } else if Children(now, p) == {} {
        forall q | q in Descendants(before, p)
          ensures q in declared && Matching(before, generations, q)
        {
          DescendantsByChild(before, p, q);
          var c := q[..|p| + 1];
          assert c in removed by { assert c in before && c !in Children(now, p); }
        }
      }
    }
    if Children(now, p) == {} {
      forall q | q in now - {p} && q != []
        ensures q[..|q| - 1] in now - {p}
      {
        assert q !in Children(now, p);
      }
    }
  }

  /** The directories not in `rest`, deeper than those in it, are sorted out. */
  ghost predicate Swept(before: Tree, now: Tree, declared: set<Path>, generations: map<Path, nat>, rest: set<Path>,
                        removed: set<Path>, retained: set<Path>, conflict: set<Path>)
  {
    && WellFormed(now) && now == before - removed && removed <= declared - rest
    && (forall p :: p in declared - rest ==> (p in removed <==> Removable(before, declared, generations, p)))
    && (forall p :: p in conflict <==> p in declared - rest && !Matching(before, generations, p))
    && retained == declared - rest - removed - conflict
    && (forall p, q :: p in rest && q in declared - rest ==> |p| <= |q|)
  }

  lemma SweepStarts(tree: Tree, declared: set<Path>, generations: map<Path, nat>)
    requires WellFormed(tree)
    ensures Swept(tree, tree, declared, generations, declared, {}, {}, {})
  {
    assert declared - declared == {};
  }

  lemma SweepNext(before: Tree, now: Tree, declared: set<Path>, generations: map<Path, nat>, rest: set<Path>,
                  removed: set<Path>, retained: set<Path>, conflict: set<Path>, p: Path)
    requires WellFormed(before) && [] !in declared && rest <= declared && p in rest && forall q :: q in rest ==>
              |q| <= |p|
    requires Swept(before, now, declared, generations, rest, removed, retained, conflict)
    ensures if !Matching(now, generations, p)
            then Swept(before, now, declared, generations, rest - {p}, removed, retained, conflict + {p})
            else if Children(now, p) != {}
            then Swept(before, now, declared, generations, rest - {p}, removed, retained + {p}, conflict)
            else Swept(before, now - {p}, declared, generations, rest - {p}, removed + {p}, retained, conflict)
  {
    hide Removable, Matching, Children, WellFormed;
    ShellNext(before, now, declared, generations, rest, removed, p);
    assert declared - (rest - {p}) == declared - rest + {p};
    assert before - (removed + {p}) == before - removed - {p};
  }

  lemma SweepEnds(before: Tree, now: Tree, declared: set<Path>, generations: map<Path, nat>,
                  removed: set<Path>, retained: set<Path>, conflict: set<Path>)
    requires Swept(before, now, declared, generations, {}, removed, retained, conflict)
    ensures WellFormed(now) && now == before - removed
    ensures forall p :: p in removed <==> Removable(before, declared, generations, p)
    ensures conflict == set p | p in declared && !Matching(before, generations, p)
    ensures retained == declared - removed - conflict
  {
    hide Matching, Descendants, WellFormed;
    assert declared - {} == declared;
  }
}
