/** The in-memory link index of server/linkIndex.ts, updated in place by every write, delete and
    rename, against the index a rebuild over the same vault would hold. */
module LinkIndexing {
  import opened Options

  type Path = string

  datatype LinkKind = Wiki | Md
  datatype LinkReference = LinkReference(ref: string, alias: Option<string>, anchor: string, kind: LinkKind)
  datatype Link = Link(target: Path, alias: Option<string>, anchor: string, kind: LinkKind)
  datatype Backlink = Backlink(source: Path, alias: Option<string>, anchor: string, kind: LinkKind)

  /** The parts the index does not decide: link extraction from a text, which paths are managed
      Diary documents, and, for resolveWikiTarget, the exact paths a reference is tried at and
      the folded basename it falls back to. */
  datatype Rules = Rules(
    extract: string -> seq<LinkReference>,
    managed: Path -> bool,
    candidates: (string, Path) -> seq<Path>,
    fallback: string -> Option<string>,
    basename: Path -> string)

  /** Known paths in insertion order with what each body contributes. */
  type Vault = map<Path, seq<LinkReference>>

  datatype Operation =
    | Write(path: Path, raw: string)
    | Register(path: Path)
    | Delete(path: Path)
    | Rename(from: Path, to: Path, raw: string)
    | FolderDelete(paths: seq<Path>)
    | FolderRename(moves: seq<(Path, Path, string)>)

  // ---------- resolution ----------

  function FirstKnown(candidates: seq<Path>, order: seq<Path>): Option<Path> {
    if candidates == [] then None
    else if candidates[0] in order then Some(candidates[0])
    else FirstKnown(candidates[1..], order)
  }

  function FirstNamed(rules: Rules, order: seq<Path>, name: string): Option<Path> {
    if order == [] then None
    else if rules.basename(order[0]) == name then Some(order[0])
    else FirstNamed(rules, order[1..], name)
  }

  /** resolveWikiTarget: the exact candidates first, then the first path with the basename. */
  function Resolve(rules: Rules, ref: string, source: Path, order: seq<Path>): Option<Path> {
    var exact := FirstKnown(rules.candidates(ref, source), order);
    if exact.Some? || rules.fallback(ref).None? then exact
    else FirstNamed(rules, order, rules.fallback(ref).value)
  }

  predicate Keyed(links: seq<Link>, target: Path, anchor: string) {
    exists l :: l in links && l.target == target && l.anchor == anchor
  }

  /** resolveLinkReferences on the first k references: unresolved ones are skipped, the first
      occurrence of a (target, anchor) pair wins. */
  function ResolvedUpTo(rules: Rules, references: seq<LinkReference>, source: Path, order: seq<Path>, k: nat): seq<Link>
    requires k <= |references|
  {
    if k == 0 then []
    else
      var links := ResolvedUpTo(rules, references, source, order, k - 1);
      var r := references[k - 1];
      var target := Resolve(rules, r.ref, source, order);
      if target.None? || Keyed(links, target.value, r.anchor) then links
      else links + [Link(target.value, r.alias, r.anchor, r.kind)]
  }

  function Unmanaged(rules: Rules, links: seq<Link>): seq<Link> {
    if links == [] then []
    else (if rules.managed(links[0].target) then [] else [links[0]]) + Unmanaged(rules, links[1..])
  }

  /** The links one source contributes to the index. */
  function Projection(rules: Rules, references: seq<LinkReference>, source: Path, order: seq<Path>): seq<Link> {
    Unmanaged(rules, ResolvedUpTo(rules, references, source, order, |references|))
  }

  // ---------- the index a rebuild holds ----------

  function Body(rules: Rules, p: Path, raw: string): seq<LinkReference> {
    if rules.managed(p) then [] else rules.extract(raw)
  }

  function References(vault: Vault): map<Path, seq<LinkReference>> {
    map p | p in vault && vault[p] != [] :: vault[p]
  }

  function Forward(rules: Rules, vault: Vault, order: seq<Path>): map<Path, seq<Link>> {
    map p | p in vault && vault[p] != [] && Projection(rules, vault[p], p, order) != [] ::
        Projection(rules, vault[p], p, order)
  }

  predicate Distinct(order: seq<Path>) {
    forall i, j :: 0 <= i < j < |order| ==> order[i] != order[j]
  }

  ghost predicate Lists(order: seq<Path>, paths: set<Path>) {
    Distinct(order) && forall p :: p in order <==> p in paths
  }

  predicate NoManagedBodies(rules: Rules, vault: Vault) {
    forall p :: p in vault && rules.managed(p) ==> vault[p] == []
  }

  function Next(rules: Rules, vault: Vault, op: Operation): Vault {
    match op
    case Write(p, raw) => vault[p := Body(rules, p, raw)]
    case Register(p) => if p in vault then vault else vault[p := []]
    case Delete(p) => vault - {p}
    case Rename(from, to, raw) => (vault - {from})[to := Body(rules, to, raw)]
    case FolderDelete(paths) => vault - (set p | p in paths)
    case FolderRename(moves) => Installed(rules, vault - (set m | m in moves :: m.0), moves, |moves|)
  }

  function Installed(rules: Rules, vault: Vault, moves: seq<(Path, Path, string)>, k: nat): Vault
    requires k <= |moves|
  {
    if k == 0 then vault
    else Installed(rules, vault, moves, k - 1)[moves[k - 1].1 := Body(rules, moves[k - 1].1, moves[k - 1].2)]
  }

  function After(rules: Rules, vault: Vault, ops: seq<Operation>): Vault {
    if ops == [] then vault else Next(rules, After(rules, vault, ops[..|ops| - 1]), ops[|ops| - 1])
  }

  // ---------- when the order of the paths matters ----------

  /** A reference that misses every exact candidate and finds two paths with its basename. */
  predicate Ambiguous(rules: Rules, ref: string, source: Path, paths: set<Path>) {
    && (forall c :: c in rules.candidates(ref, source) ==> c !in paths)
    && rules.fallback(ref).Some?
    && exists p, q ::
           p in paths && q in paths && p != q && rules.basename(p) == rules.fallback(ref).value == rules.basename(q)
  }

  lemma FirstKnownIn(candidates: seq<Path>, order: seq<Path>)
    ensures FirstKnown(candidates, order).Some? <==> exists c :: c in candidates && c in order
    ensures FirstKnown(candidates, order).Some? ==> FirstKnown(candidates, order).value in order
  {
    if candidates != [] && candidates[0] !in order {
      FirstKnownIn(candidates[1..], order);
    }
  }

  lemma FirstKnownSame(candidates: seq<Path>, one: seq<Path>, two: seq<Path>)
    requires forall p :: p in one <==> p in two
    ensures FirstKnown(candidates, one) == FirstKnown(candidates, two)
  {
  }

  lemma FirstNamedIn(rules: Rules, order: seq<Path>, name: string)
    ensures var found := FirstNamed(rules, order, name);
            if found.Some? then found.value in order && rules.basename(found.value) == name
            else forall p :: p in order ==> rules.basename(p) != name
  {
    if order != [] && rules.basename(order[0]) != name {
      FirstNamedIn(rules, order[1..], name);
    }
  }

  /** Two listings of the same paths resolve a reference alike unless it is ambiguous. */
  lemma OrderMattersOnlyIfAmbiguous(rules: Rules, ref: string, source: Path, one: seq<Path>, two: seq<Path>)
    requires forall p :: p in one <==> p in two
    requires !Ambiguous(rules, ref, source, set p | p in one)
    ensures Resolve(rules, ref, source, one) == Resolve(rules, ref, source, two)
  {
    FirstKnownSame(rules.candidates(ref, source), one, two);
    FirstKnownIn(rules.candidates(ref, source), one);
    if rules.fallback(ref).Some? {
      FirstNamedIn(rules, one, rules.fallback(ref).value);
      FirstNamedIn(rules, two, rules.fallback(ref).value);
    }
  }

  function Without(order: seq<Path>, p: Path): seq<Path> {
    if order == [] then []
    else (if order[0] == p then [] else [order[0]]) + Without(order[1..], p)
  }

  lemma {:induction false} WithoutKeeps(order: seq<Path>, p: Path)
    ensures forall q :: q in Without(order, p) <==> q in order && q != p
    ensures Distinct(order) ==> Distinct(Without(order, p))
  {
    if order != [] {
      var rest := order[1..];
      WithoutKeeps(rest, p);
      assert forall q :: q in order <==> q == order[0] || q in rest;
      if Distinct(order) {
        assert Distinct(rest) by {
          forall i, j | 0 <= i < j < |rest|
            ensures rest[i] != rest[j]
          {
            assert rest[i] == order[i + 1] && rest[j] == order[j + 1];
          }
        }
        assert order[0] !in rest;
      }
    }
  }

  lemma ListedFirst(rules: Rules, ref: string, source: Path, paths: set<Path>, order: seq<Path>, p: Path)
    requires Ambiguous(rules, ref, source, paths) && Lists(order, paths)
    requires p in paths && rules.basename(p) == rules.fallback(ref).value
    ensures Lists([p] + Without(order, p), paths)
    ensures Resolve(rules, ref, source, [p] + Without(order, p)) == Some(p)
  {
    WithoutKeeps(order, p);
    hide Without;
    var first := [p] + Without(order, p);
    FirstKnownIn(rules.candidates(ref, source), first);
    assert first[0] == p;
  }

  /** And an ambiguous reference resolves differently under two listings of the same paths. */
  lemma AmbiguousDependsOnOrder(rules: Rules, ref: string, source: Path, paths: set<Path>, order: seq<Path>)
    returns (one: seq<Path>, two: seq<Path>)
    requires Ambiguous(rules, ref, source, paths) && Lists(order, paths)
    ensures Lists(one, paths) && Lists(two, paths)
    ensures Resolve(rules, ref, source, one) != Resolve(rules, ref, source, two)
  {
    hide Lists, Resolve, Without;
    var name := rules.fallback(ref).value;
    var p, q :| p in paths && q in paths && p != q && rules.basename(p) == name == rules.basename(q);
    ListedFirst(rules, ref, source, paths, order, p);
    ListedFirst(rules, ref, source, paths, order, q);
    one, two := [p] + Without(order, p), [q] + Without(order, q);
  }

  ghost predicate Unambiguous(rules: Rules, vault: Vault) {
    forall p, r :: p in vault && r in vault[p] ==> !Ambiguous(rules, r.ref, p, vault.Keys)
  }

  lemma {:induction false} SameProjection(rules: Rules, references: seq<LinkReference>, source: Path, one: seq<Path>,
                                          two: seq<Path>, k: nat)
    requires k <= |references|
    requires forall r :: r in references ==> Resolve(rules, r.ref, source, one) == Resolve(rules, r.ref, source, two)
    ensures ResolvedUpTo(rules, references, source, one, k) == ResolvedUpTo(rules, references, source, two, k)
  {
    hide Resolve, Keyed;
    if k > 0 {
      SameProjection(rules, references, source, one, two, k - 1);
      assert references[k - 1] in references;
    }
  }

  /** An unambiguous vault has one index, whatever order its paths are listed in. */
  lemma SameIndex(rules: Rules, vault: Vault, one: seq<Path>, two: seq<Path>)
    requires Unambiguous(rules, vault) && Lists(one, vault.Keys) && Lists(two, vault.Keys)
    ensures Forward(rules, vault, one) == Forward(rules, vault, two)
  {
    hide Resolve, Ambiguous, ResolvedUpTo, Unmanaged, Distinct;
    assert (set p | p in one) == vault.Keys;
    forall p | p in vault
      ensures Projection(rules, vault[p], p, one) == Projection(rules, vault[p], p, two)
    {
      forall r | r in vault[p]
        ensures Resolve(rules, r.ref, p, one) == Resolve(rules, r.ref, p, two)
      {
        OrderMattersOnlyIfAmbiguous(rules, r.ref, p, one, two);
      }
      SameProjection(rules, vault[p], p, one, two, |vault[p]|);
    }
  }

  // ---------- the index in place ----------

  class LinkIndex {
    const rules: Rules
    var forward: map<Path, seq<Link>>
    var references: map<Path, seq<LinkReference>>
    var paths: seq<Path>
    ghost var vault: Vault

    /** Membership and references are the vault's; the projection may be stale. */
    ghost predicate Registered()
      reads this
    {
      Lists(paths, vault.Keys) && NoManagedBodies(rules, vault) && references == References(vault)
    }

    /** The index is what a rebuild that lists the paths in this order would hold. */
    ghost predicate Valid()
      reads this
    {
      Registered() && forward == Forward(rules, vault, paths)
    }

    constructor (rules: Rules)
      ensures Valid() && vault == map[] && this.rules == rules
    {
      this.rules := rules;
      forward, references, paths, vault := map[], map[], [], map[];
    }

    /** Cold start over a listing of the vault: `listing` are the paths found, `texts` the bodies
        that could still be read. */
    method Rebuild(listing: seq<Path>, texts: map<Path, string>)
      requires Distinct(listing)
      modifies this
      ensures Valid() && paths == listing
      ensures vault == map p | p in listing :: if p in texts then Body(rules, p, texts[p]) else []
    {
      hide Body, Forward;
      forward, references, paths := map[], map[], listing;
      vault := map p | p in listing :: if p in texts then Body(rules, p, texts[p]) else [];
      var i := 0;
      while i < |listing|
        invariant 0 <= i <= |listing|
        invariant references == map p | p in listing[..i] && vault[p] != [] :: vault[p]
        modifies this`references
      {
        var p := listing[i];
        if !rules.managed(p) && p in texts {
          var refs := rules.extract(texts[p]);
          if refs != [] {
            references := references[p := refs];
          }
        }
        RebuiltNext(rules, vault, listing, texts, i);
        i := i + 1;
      }
      assert listing[..i] == listing;
      RebuiltAll(rules, vault, listing, texts);
      RecomputeAllSources();
    }

    method ResolveReferences(refs: seq<LinkReference>, source: Path) returns (out: seq<Link>)
      ensures out == ResolvedUpTo(rules, refs, source, paths, |refs|)
    {
      hide Resolve;
      out := [];
      var k := 0;
      while k < |refs|
        invariant 0 <= k <= |refs|
        invariant out == ResolvedUpTo(rules, refs, source, paths, k)
      {
        var target := Resolve(rules, refs[k].ref, source, paths);
        if target.Some? && !Keyed(out, target.value, refs[k].anchor) {
          out := out + [Link(target.value, refs[k].alias, refs[k].anchor, refs[k].kind)];
        }
        k := k + 1;
      }
    }

    /** recomputeSource. */
    method RecomputeSource(source: Path)
      requires rules.managed(source) ==> source !in references
      requires source in references ==> references[source] != []
      modifies this`forward
      ensures forward == Reprojected(rules, old(forward), references, paths, source)
    {
      if rules.managed(source) || source !in references || source !in paths {
        forward := forward - {source};
        return;
      }
      var resolved := ResolveReferences(references[source], source);
      var links := Unmanaged(rules, resolved);
      if links != [] {
        forward := forward[source := links];
      } else {
        forward := forward - {source};
      }
    }

    method RecomputeAllSources()
      requires Registered()
      modifies this`forward
      ensures Valid()
    {
      hide Projection, Lists, Reprojected;
      forward := map p | p in forward && p in references :: forward[p];
      var rest := references.Keys;
      while rest != {}
        invariant rest <= references.Keys
        invariant forward.Keys <= references.Keys
        invariant forall p :: p in references && p !in rest ==> AgreesAt(rules, forward, vault, paths, p)
        decreases rest
      {
        var p :| p in rest;
        ReprojectedAgrees(rules, forward, references, vault, paths, p);
        RecomputeSource(p);
        rest := rest - {p};
      }
      AgreesEverywhere(rules, forward, references, vault, paths);
    }

    method RemovePathState(p: Path)
      requires Registered()
      modifies this
      ensures Registered() && vault == old(vault) - {p}
    {
      hide Lists, Without;
      WithoutLists(paths, vault.Keys, p);
      references := references - {p};
      forward := forward - {p};
      paths := Without(paths, p);
      vault := vault - {p};
    }

    /** Membership and references of one path, without a projection. Set.add keeps the place of a
        known path. */
    method Install(p: Path, raw: string)
      requires Registered()
      modifies this
      ensures Registered() && vault == old(vault)[p := Body(rules, p, raw)]
      ensures forward == if rules.managed(p) then old(forward) - {p} else old(forward)
      ensures p in old(vault) ==> paths == old(paths)
    {
      AddedLists(paths, vault.Keys, p);
      InstalledReferences(rules, vault, p, raw);
      hide Distinct, References, NoManagedBodies, Body;
      if p !in paths {
        paths := paths + [p];
      }
      if rules.managed(p) {
        references := references - {p};
        forward := forward - {p};
      } else {
        var refs := rules.extract(raw);
        if refs != [] {
          references := references[p := refs];
        } else {
          references := references - {p};
        }
      }
      vault := vault[p := Body(rules, p, raw)];
    }

    method ApplyWrite(p: Path, raw: string)
      requires Valid()
      modifies this
      ensures Valid() && vault == Next(rules, old(vault), Write(p, raw))
    {
      hide Distinct, Reprojected, Body, Forward, References;
      var isNew := p !in paths;
      ghost var forward0, vault0 := forward, vault;
      Install(p, raw);
      if isNew {
        RecomputeAllSources();
        return;
      }
      ReprojectedIsForward(rules, forward0, vault0, paths, p, Body(rules, p, raw));
      ReferencesAt(rules, vault, p);
      if !rules.managed(p) {
        RecomputeSource(p);
      } else {
        ManagedReprojects(rules, forward0, vault0, paths, p, raw);
      }
    }

    method ApplyRegister(p: Path)
      requires Valid()
      modifies this
      ensures Valid() && vault == Next(rules, old(vault), Register(p))
    {
      hide Distinct, Forward;
      if p !in paths {
        AddedLists(paths, vault.Keys, p);
        paths := paths + [p];
        vault := vault[p := []];
        RecomputeAllSources();
      }
    }

    method ApplyDelete(p: Path)
      requires Valid()
      modifies this
      ensures Valid() && vault == Next(rules, old(vault), Delete(p))
    {
      RemovePathState(p);
      RecomputeAllSources();
    }

    method ApplyRename(from: Path, to: Path, raw: string)
      requires Valid()
      modifies this
      ensures Valid() && vault == Next(rules, old(vault), Rename(from, to, raw))
    {
      RemovePathState(from);
      Install(to, raw);
      RecomputeAllSources();
    }

    method RemoveAll(gone: seq<Path>)
      requires Registered()
      modifies this
      ensures Registered() && vault == old(vault) - set p | p in gone
    {
      hide Registered;
      ghost var before := vault;
      var i := 0;
      while i < |gone|
        invariant 0 <= i <= |gone| && Registered()
        invariant vault == before - set p | p in gone[..i]
      {
        RemovePathState(gone[i]);
        assert gone[..i + 1] == gone[..i] + [gone[i]];
        i := i + 1;
      }
      assert gone[..i] == gone;
    }

    method ApplyFolderDelete(gone: seq<Path>)
      requires Valid()
      modifies this
      ensures Valid() && vault == Next(rules, old(vault), FolderDelete(gone))
    {
      RemoveAll(gone);
      RecomputeAllSources();
    }

    /** Every old path goes before any new one is installed, and the projection runs once. */
    method ApplyFolderRename(moves: seq<(Path, Path, string)>)
      requires Valid()
      modifies this
      ensures Valid() && vault == Next(rules, old(vault), FolderRename(moves))
    {
      hide Registered, Body;
      var gone := seq(|moves|, i requires 0 <= i < |moves| => moves[i].0);
      assert (set p | p in gone) == (set m | m in moves :: m.0) by { OldPaths(moves, gone); }
      RemoveAll(gone);
      ghost var cleared := vault;
      var i := 0;
      while i < |moves|
        invariant 0 <= i <= |moves| && Registered()
        invariant vault == Installed(rules, cleared, moves, i)
      {
        Install(moves[i].1, moves[i].2);
        i := i + 1;
      }
      RecomputeAllSources();
    }

    method Apply(op: Operation)
      requires Valid()
      modifies this
      ensures Valid() && vault == Next(rules, old(vault), op)
    {
      match op
      case Write(p, raw) => ApplyWrite(p, raw);
      case Register(p) => ApplyRegister(p);
      case Delete(p) => ApplyDelete(p);
      case Rename(from, to, raw) => ApplyRename(from, to, raw);
      case FolderDelete(gone) => ApplyFolderDelete(gone);
      case FolderRename(moves) => ApplyFolderRename(moves);
    }

    /** After any sequence of operations the index is the one a rebuild over the resulting vault
        holds: the same references, and the same links as well, in whatever order the rebuild
        lists the paths, if no reference is ambiguous. */
    method ApplyAll(ops: seq<Operation>)
      requires Valid()
      modifies this
      ensures Valid() && vault == After(rules, old(vault), ops)
      ensures Unambiguous(rules, vault) ==>
                forall listing :: Lists(listing, vault.Keys) ==> forward == Forward(rules, vault, listing)
    {
      hide Next;
      ghost var before := vault;
      var i := 0;
      while i < |ops|
        invariant 0 <= i <= |ops| && Valid()
        invariant vault == After(rules, before, ops[..i])
      {
        Apply(ops[i]);
        assert ops[..i + 1][..i] == ops[..i];
        i := i + 1;
      }
      assert ops[..i] == ops;
      if Unambiguous(rules, vault) {
        forall listing | Lists(listing, vault.Keys)
          ensures forward == Forward(rules, vault, listing)
        {
          SameIndex(rules, vault, paths, listing);
        }
      }
    }

    /** getBacklinks: one record for each source that links to the target, from its first link. */
    method GetBacklinks(target: Path) returns (out: set<Backlink>)
      requires Valid()
      ensures rules.managed(target) ==> out == {}
      ensures !rules.managed(target) ==>
                && (forall source :: source in forward && (exists l :: l in forward[source] && l.target == target) <==>
                      exists b :: b in out && b.source == source)
                && (forall b :: b in out ==>
                      b.source in forward
                          && FirstLink(forward[b.source], target) == Some(Link(target, b.alias, b.anchor, b.kind)))
      ensures forall b, c :: b in out && c in out && b.source == c.source ==> b == c
    {
      hide Forward, Registered;
      out := {};
      if rules.managed(target) {
        return;
      }
      var rest := forward.Keys;
      while rest != {}
        invariant rest <= forward.Keys
        invariant forall b :: b in out ==>
                    && b.source in forward && b.source !in rest
                    && FirstLink(forward[b.source], target) == Some(Link(target, b.alias, b.anchor, b.kind))
        invariant forall source :: source in forward && source !in rest && FirstLink(forward[source], target).Some? ==>
                    exists b :: b in out && b.source == source
        decreases rest
      {
        var source :| source in rest;
        var first := FirstLink(forward[source], target);
        FirstLinkFound(forward[source], target);
        if first.Some? {
          out := out + {Backlink(source, first.value.alias, first.value.anchor, first.value.kind)};
        }
        rest := rest - {source};
      }
      forall source | source in forward
        ensures FirstLink(forward[source], target).Some? <==> exists l :: l in forward[source] && l.target == target
      {
        FirstLinkFound(forward[source], target);
      }
    }
  }

  function FirstLink(links: seq<Link>, target: Path): Option<Link> {
    if links == [] then None
    else if links[0].target == target then Some(links[0])
    else FirstLink(links[1..], target)
  }

  lemma FirstLinkFound(links: seq<Link>, target: Path)
    ensures FirstLink(links, target).Some? <==> exists l :: l in links && l.target == target
    ensures FirstLink(links, target).Some? ==> FirstLink(links, target).value.target == target
  {
  }

  /** Deleting a target and writing it again with the same text restores every link, unless some
      reference is ambiguous: the path then stands at the end of the list. */
  lemma DeleteThenRecreate(rules: Rules, vault: Vault, before: seq<Path>, after: seq<Path>, p: Path, raw: string)
    requires p in vault && vault[p] == Body(rules, p, raw) && Lists(before, vault.Keys)
    requires Lists(after, Next(rules, Next(rules, vault, Delete(p)), Write(p, raw)).Keys)
    ensures Next(rules, Next(rules, vault, Delete(p)), Write(p, raw)) == vault
    ensures Unambiguous(rules, vault) ==> Forward(rules, vault, before) == Forward(rules, vault, after)
  {
    hide Lists, Forward, Unambiguous, Body;
    assert (vault - {p})[p := Body(rules, p, raw)] == vault;
    if Unambiguous(rules, vault) {
      SameIndex(rules, vault, before, after);
    }
  }

  lemma {:induction false} ResolvedTargetsExist(rules: Rules, references: seq<LinkReference>, source: Path,
                                                order: seq<Path>, k: nat)
    requires k <= |references|
    ensures forall l :: l in ResolvedUpTo(rules, references, source, order, k) ==> l.target in order
  {
    if k > 0 {
      ResolvedTargetsExist(rules, references, source, order, k - 1);
      var r := references[k - 1];
      FirstKnownIn(rules.candidates(r.ref, source), order);
      if rules.fallback(r.ref).Some? {
        FirstNamedIn(rules, order, rules.fallback(r.ref).value);
      }
    }
  }

  /** A source links to a (target, anchor) pair at most once. */
  lemma {:induction false} LinksAreDistinct(rules: Rules, references: seq<LinkReference>, source: Path,
                                            order: seq<Path>, k: nat, i: nat, j: nat)
    requires k <= |references| && i < j < |ResolvedUpTo(rules, references, source, order, k)|
    ensures var links := ResolvedUpTo(rules, references, source, order, k);
            links[i].target != links[j].target || links[i].anchor != links[j].anchor
  {
    hide Resolve;
    var before := ResolvedUpTo(rules, references, source, order, k - 1);
    if j < |before| {
      LinksAreDistinct(rules, references, source, order, k - 1, i, j);
    } else {
      assert before[i] in before;
    }
  }

  lemma {:induction false} UnmanagedTargets(rules: Rules, links: seq<Link>)
    ensures forall l :: l in Unmanaged(rules, links) <==> l in links && !rules.managed(l.target)
  {
    if links != [] {
      UnmanagedTargets(rules, links[1..]);
      assert forall l :: l in links <==> l == links[0] || l in links[1..];
    }
  }

  /** Managed Diary documents appear in the index neither as sources nor as targets, and every
      link leads to a known path. */
  lemma IndexIsClosed(rules: Rules, vault: Vault, order: seq<Path>, p: Path, l: Link)
    requires NoManagedBodies(rules, vault) && Lists(order, vault.Keys)
    requires p in Forward(rules, vault, order) && l in Forward(rules, vault, order)[p]
    ensures !rules.managed(p) && !rules.managed(l.target) && l.target in vault
  {
    ResolvedTargetsExist(rules, vault[p], p, order, |vault[p]|);
    UnmanagedTargets(rules, ResolvedUpTo(rules, vault[p], p, order, |vault[p]|));
  }

  // ---------- lemmas of the loops ----------

  lemma WithoutLists(order: seq<Path>, paths: set<Path>, p: Path)
    requires Lists(order, paths)
    ensures Lists(Without(order, p), paths - {p})
  {
    WithoutKeeps(order, p);
  }

  lemma AddedLists(order: seq<Path>, paths: set<Path>, p: Path)
    requires Lists(order, paths)
    ensures Lists(if p in order then order else order + [p], paths + {p})
  {
  }

  lemma InstalledReferences(rules: Rules, vault: Vault, p: Path, raw: string)
    requires NoManagedBodies(rules, vault)
    ensures NoManagedBodies(rules, vault[p := Body(rules, p, raw)])
    ensures References(vault[p := Body(rules, p, raw)])
            == if rules.managed(p) || rules.extract(raw) == [] then References(vault) - {p}
               else References(vault)[p := rules.extract(raw)]
  {
  }

  lemma OldPaths(moves: seq<(Path, Path, string)>, gone: seq<Path>)
    requires |gone| == |moves| && forall i :: 0 <= i < |moves| ==> gone[i] == moves[i].0
    ensures (set p | p in gone) == (set m | m in moves :: m.0)
  {
    forall p | p in gone
      ensures exists m :: m in moves && m.0 == p
    {
      var i :| 0 <= i < |gone| && gone[i] == p;
      assert moves[i] in moves;
    }
    forall m | m in moves
      ensures m.0 in gone
    {
      var i :| 0 <= i < |moves| && moves[i] == m;
      assert gone[i] == m.0;
    }
  }

  lemma RebuiltNext(rules: Rules, vault: Vault, listing: seq<Path>, texts: map<Path, string>, i: nat)
    requires i < |listing|
    requires vault == map p | p in listing :: if p in texts then Body(rules, p, texts[p]) else []
    ensures var p := listing[i];
            var before := map q | q in listing[..i] && vault[q] != [] :: vault[q];
            var after := map q | q in listing[..i + 1] && vault[q] != [] :: vault[q];
            after == if !rules.managed(p) && p in texts && rules.extract(texts[p]) != []
                     then before[p := rules.extract(texts[p])] else before
  {
    assert listing[..i + 1] == listing[..i] + [listing[i]];
  }

  lemma RebuiltAll(rules: Rules, vault: Vault, listing: seq<Path>, texts: map<Path, string>)
    requires Distinct(listing)
    requires vault == map p | p in listing :: if p in texts then Body(rules, p, texts[p]) else []
    ensures Lists(listing, vault.Keys) && NoManagedBodies(rules, vault)
    ensures (map q | q in listing && vault[q] != [] :: vault[q]) == References(vault)
  {
  }

  lemma ReferencesAt(rules: Rules, vault: Vault, p: Path)
    ensures p in References(vault) ==> References(vault)[p] != [] && p in vault && vault[p] != []
  {
  }

  /** Writing a known path changes the projection of that source alone. */
  lemma ReprojectedIsForward(rules: Rules, forward: map<Path, seq<Link>>, vault: Vault, order: seq<Path>, p: Path,
                             body: seq<LinkReference>)
    requires forward == Forward(rules, vault, order) && Lists(order, vault.Keys) && p in vault
    ensures Reprojected(rules, forward, References(vault[p := body]), order, p)
              == Forward(rules, vault[p := body], order)
  {
    hide Projection, Distinct;
  }

  lemma ManagedReprojects(rules: Rules, forward: map<Path, seq<Link>>, vault: Vault, order: seq<Path>, p: Path,
                          raw: string)
    requires rules.managed(p)
    ensures Reprojected(rules, forward, References(vault[p := Body(rules, p, raw)]), order, p) == forward - {p}
  {
  }

  function Reprojected(rules: Rules, forward: map<Path, seq<Link>>, references: map<Path, seq<LinkReference>>,
                       order: seq<Path>, p: Path): map<Path, seq<Link>> {
    if p in references && p in order && Projection(rules, references[p], p, order) != []
    then forward[p := Projection(rules, references[p], p, order)]
    else forward - {p}
  }

  ghost predicate AgreesAt(rules: Rules, forward: map<Path, seq<Link>>, vault: Vault, order: seq<Path>, p: Path) {
    var full := Forward(rules, vault, order);
    (p in forward <==> p in full) && (p in full ==> forward[p] == full[p])
  }

  lemma ReprojectedAgrees(rules: Rules, forward: map<Path, seq<Link>>, references: map<Path, seq<LinkReference>>,
                          vault: Vault, order: seq<Path>, p: Path)
    requires references == References(vault) && Lists(order, vault.Keys) && p in references
    ensures var next := Reprojected(rules, forward, references, order, p);
            && AgreesAt(rules, next, vault, order, p)
            && (forall q :: q != p ==> (q in next <==> q in forward) && (q in next ==> next[q] == forward[q]))
            && next.Keys <= forward.Keys + {p}
  {
    hide Projection;
  }

  lemma AgreesEverywhere(rules: Rules, forward: map<Path, seq<Link>>, references: map<Path, seq<LinkReference>>,
                         vault: Vault, order: seq<Path>)
    requires references == References(vault) && forward.Keys <= references.Keys
    requires forall p :: p in references ==> AgreesAt(rules, forward, vault, order, p)
    ensures forward == Forward(rules, vault, order)
  {
    hide Projection;
    var full := Forward(rules, vault, order);
    forall p
      ensures p in forward <==> p in full
      ensures p in full ==> forward[p] == full[p]
    {
      if p in references {
        assert AgreesAt(rules, forward, vault, order, p);
      } else {
        assert p !in full;
      }
    }
  }
}
