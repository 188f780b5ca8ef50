/** The metadata tables a folder move touches (server/documentMetadata.ts): documents with
    UNIQUE(path), metadata_migrations with a unique path and a document reference that a delete
    sets to NULL, and the two tables that cascade. Tables are maps from the row identity. */
module MetadataGraph {
  import opened Options

  type Path = string
  type DocId = string
  type RowId = nat

  /** `rest` stands for the columns no operation here writes. */
  datatype Document = Document(path: Path, updated: int, rest: string)

  /** The reserved path namespaces of metadata_migrations, which no vault path can spell:
      `@deleted/<id>` and `@moving/<uuid>/<n>`. */
  datatype RowPath = Live(path: Path) | Tombstone(id: DocId) | Moving(index: nat)

  datatype Migration =
    Migration(path: RowPath, document: Option<DocId>, original: Path, orphaned: bool, updated: int, rest: string)

  datatype Graph = Graph(
    documents: map<DocId, Document>,
    migrations: map<RowId, Migration>,
    documentTags: set<(DocId, nat)>,
    embeddings: map<DocId, string>)
  {
    predicate Valid() {
      && UniqueDocuments(documents)
      && UniqueMigrations(migrations)
      && (forall r :: r in migrations && migrations[r].document.Some? ==> migrations[r].document.value in documents)
      && (forall t :: t in documentTags ==> t.0 in documents)
      && embeddings.Keys <= documents.Keys
    }
  }

  predicate UniqueDocuments(documents: map<DocId, Document>) {
    forall i, j :: i in documents && j in documents && documents[i].path == documents[j].path ==> i == j
  }

  predicate UniqueMigrations(migrations: map<RowId, Migration>) {
    forall i, j :: i in migrations && j in migrations && migrations[i].path == migrations[j].path ==> i == j
  }

  // ---------- prefixes ----------

  predicate Under(prefix: Path, p: Path) {
    p == prefix || prefix + "/" <= p
  }

  predicate RowUnder(prefix: Path, p: RowPath) {
    p.Live? && Under(prefix, p.path)
  }

  /** Case folding of SQLite's LIKE: ASCII letters only. */
  function Fold(c: char): char {
    if 'A' <= c <= 'Z' then ((c as int) + 32) as char else c
  }

  /** SQLite's LIKE without ESCAPE. */
  predicate Like(pattern: string, s: string)
    decreases |pattern| + |s|
  {
    if pattern == "" then s == ""
    else if pattern[0] == '%' then Like(pattern[1..], s) || (s != "" && Like(pattern, s[1..]))
    else s != "" && (pattern[0] == '_' || Fold(pattern[0]) == Fold(s[0])) && Like(pattern[1..], s[1..])
  }

  /** `path = prefix OR path LIKE prefix || '/%'`, the condition every prefix query uses. Wildcard
      characters and letter case in the prefix make it wider than Under. */
  predicate Selected(prefix: Path, p: Path) {
    p == prefix || Like(prefix + "/%", p)
  }

  lemma {:induction false} LikeLiteral(a: string, rest: string)
    ensures Like(a + "/%", a + "/" + rest)
    decreases |a|, |rest|
  {
    if a != "" {
      LikeLiteral(a[1..], rest);
      var pattern, s := a + "/%", a + "/" + rest;
      assert pattern[1..] == a[1..] + "/%" && s[1..] == a[1..] + "/" + rest;
      assert a[0] == '%' ==> Like(pattern, s[1..]);
    } else if rest != "" {
      LikeLiteral(a, rest[1..]);
      assert (a + "/" + rest)[1..] == rest && (a + "/%")[1..] == "%";
      assert (a + "/" + rest[1..])[1..] == rest[1..];
      assert Like("%", rest[1..]);
    } else {
      assert (a + "/" + rest)[1..] == "" && (a + "/%")[1..] == "%" && "%"[1..] == "";
    }
  }

  /** A prefix query never misses a path of the subtree. */
  lemma UnderIsSelected(prefix: Path, p: Path)
    requires Under(prefix, p)
    ensures Selected(prefix, p)
  {
    if p != prefix {
      LikeLiteral(prefix, p[|prefix| + 1..]);
      assert p == prefix + "/" + p[|prefix| + 1..];
    }
  }

  // ---------- content paths ----------

  predicate Alphanumeric(c: char) {
    'a' <= c <= 'z' || '0' <= c <= '9'
  }

  /** isValidPathSyntax of server/paths.ts: segments of lower-case letters, digits and inner dashes.
      Every prefix of a prefix move has been checked for it, in the routes and in journals. */
  predicate ValidPath(p: Path) {
    && p != "" && Alphanumeric(p[0]) && Alphanumeric(p[|p| - 1])
    && (forall i :: 0 <= i < |p| ==> Alphanumeric(p[i]) || p[i] == '-' || p[i] == '/')
    && (forall i :: 0 < i < |p| - 1 && p[i] == '/' ==> Alphanumeric(p[i - 1]) && Alphanumeric(p[i + 1]))
  }

  /** Nothing LIKE treats specially: neither a wildcard nor a letter that folds. */
  predicate Plain(s: string) {
    forall i :: 0 <= i < |s| ==> s[i] != '%' && s[i] != '_' && Fold(s[i]) == s[i]
  }

  lemma ValidPathIsPlain(p: Path)
    requires ValidPath(p)
    ensures Plain(p + "/")
  {
    assert Alphanumeric('/') || '/' == '/';
  }

  function Folded(s: string): (r: string)
    ensures |r| == |s| && forall i :: 0 <= i < |s| ==> r[i] == Fold(s[i])
  {
    if s == "" then "" else [Fold(s[0])] + Folded(s[1..])
  }

  lemma {:induction false} AnySuffix(s: string)
    ensures Like("%", s)
    decreases |s|
  {
    assert "%"[1..] == "";
    if s != "" {
      AnySuffix(s[1..]);
    }
  }

  lemma {:induction false} LikePlain(head: string, s: string)
    requires Plain(head)
    ensures Like(head + "%", s) <==> head <= Folded(s)
  {
    if head == "" {
      assert head + "%" == "%";
      AnySuffix(s);
    } else if s != "" {
      assert (head + "%")[1..] == head[1..] + "%";
      assert Folded(s)[1..] == Folded(s[1..]);
      LikePlain(head[1..], s[1..]);
      assert head <= Folded(s) <==> head[0] == Folded(s)[0] && head[1..] <= Folded(s)[1..];
    }
  }

  /** A query for a valid path selects exactly its subtree up to letter case. */
  lemma SelectedByCase(prefix: Path, p: Path)
    requires ValidPath(prefix)
    ensures Selected(prefix, p) <==> p == prefix || prefix + "/" <= Folded(p)
  {
    ValidPathIsPlain(prefix);
    LikePlain(prefix + "/", p);
    assert prefix + "/%" == prefix + "/" + "%";
  }

  /** So it also selects a document of a folder that differs in letter case. */
  lemma CaseSelectsLookalike()
    ensures ValidPath("a") && Selected("a", "A/n") && !Under("a", "A/n")
  {
    SelectedByCase("a", "A/n");
    assert "a" + "/" == ['a', '/'] && Folded("A/n")[..2] == ['a', '/'];
    assert ("a" + "/")[0] == 'a' && "A/n"[0] == 'A';
  }

  /** movePrefixPath. */
  function MovePath(p: Path, from: Path, to: Path): Path {
    if Under(from, p) then to + p[|from|..] else p
  }

  function MoveRowPath(p: RowPath, from: Path, to: Path): RowPath {
    if RowUnder(from, p) then Live(MovePath(p.path, from, to)) else p
  }

  /** The path the document update writes: the prefix length is cut off whatever stood there. */
  function NextPath(p: Path, from: Path, to: Path): Path {
    to + if |from| <= |p| then p[|from|..] else ""
  }

  lemma MovePathInjective(p: Path, q: Path, from: Path, to: Path)
    requires Under(from, p) && Under(from, q) && MovePath(p, from, to) == MovePath(q, from, to)
    ensures p == q
  {
    assert p[|from|..] == (to + p[|from|..])[|to|..] == q[|from|..];
    assert p == from + p[|from|..] && q == from + q[|from|..];
  }

  /** Of two prefixes of one path, the longer one lies under the shorter one. */
  lemma CommonPathNests(p: Path, a: Path, b: Path)
    requires Under(a, p) && b <= p && |a| <= |b|
    ensures Under(a, b)
  {
    assert p[..|a|] == a && p[..|b|] == b;
    if |a| == |b| {
      assert a == b;
    } else {
      assert p[..|a| + 1] == a + "/";
      assert b[..|a| + 1] == p[..|a| + 1];
    }
  }

  /** A path can move onto the source subtree only when the destination prefix is the shorter one,
      so the path gets strictly shorter. */
  lemma MoveIntoSourceShortens(p: Path, from: Path, to: Path)
    requires Under(from, p) && from != to && !Under(from, to)
    requires Under(from, MovePath(p, from, to))
    ensures |MovePath(p, from, to)| < |p|
  {
    if |to| >= |from| {
      CommonPathNests(MovePath(p, from, to), from, to);
    }
  }

  /** Sibling prefixes: neither lies in the other's subtree. */
  predicate Siblings(from: Path, to: Path) {
    from != to && !Under(from, to) && !Under(to, from)
  }

  lemma SiblingsAreDisjoint(from: Path, to: Path, p: Path)
    requires Siblings(from, to) && Under(from, p)
    ensures !Under(to, p)
  {
    if Under(to, p) {
      if |from| <= |to| {
        CommonPathNests(p, from, to);
      } else {
        CommonPathNests(p, to, from);
      }
    }
  }

  // ---------- delete ----------

  /** quarantineMigrationAtPath for a deleted document. */
  function QuarantinedRow(m: Migration, id: DocId, ts: int): Migration {
    m.(path := Tombstone(id),
       original := if m.original == "" && m.path.Live? then m.path.path else m.original,
       document := None, orphaned := true, updated := ts)
  }

  ghost predicate Owner(documents: map<DocId, Document>, gone: set<DocId>, m: Migration, id: DocId) {
    id in gone && id in documents && m.path == Live(documents[id].path)
  }

  /** A migration row once the documents in `gone` are quarantined and deleted. */
  ghost function DeletedRow(documents: map<DocId, Document>, gone: set<DocId>, m: Migration, ts: int): Migration {
    if id :| Owner(documents, gone, m, id) then QuarantinedRow(m, id, ts)
    else if m.document.Some? && m.document.value in gone then m.(document := None)
    else m
  }

  ghost function DeleteDocuments(g: Graph, gone: set<DocId>, ts: int): Graph {
    Graph(
      g.documents - gone,
      map r | r in g.migrations :: DeletedRow(g.documents, gone, g.migrations[r], ts),
      set pair: (DocId, nat) | pair in g.documentTags && pair.0 !in gone :: pair,
      g.embeddings - gone)
  }

  function DocumentsSelected(documents: map<DocId, Document>, prefix: Path): set<DocId> {
    set id | id in documents && Selected(prefix, documents[id].path)
  }

  function DocumentsUnder(documents: map<DocId, Document>, prefix: Path): set<DocId> {
    set id | id in documents && Under(prefix, documents[id].path)
  }

  /** Every document the prefix query selects lies in the subtree. */
  ghost predicate NoLookalikes(documents: map<DocId, Document>, prefix: Path) {
    DocumentsSelected(documents, prefix) == DocumentsUnder(documents, prefix)
  }

  /** The graph deleteDocumentMetadataPrefix leaves. */
  ghost function DeletePrefix(g: Graph, prefix: Path, ts: int): Graph {
    DeleteDocuments(g, DocumentsSelected(g.documents, prefix), ts)
  }

  // ---------- move ----------

  function MovedDocument(d: Document, from: Path, to: Path, ts: int): Document {
    if Selected(from, d.path) then d.(path := NextPath(d.path, from, to), updated := ts) else d
  }

  function MovedRow(m: Migration, from: Path, to: Path, ts: int): Migration {
    var path := MoveRowPath(m.path, from, to);
    var original := MovePath(m.original, from, to);
    if path == m.path && original == m.original then m
    else m.(path := path, original := original, updated := ts)
  }

  /** The graph moveDocumentMetadataPrefix leaves. */
  function MovePrefix(g: Graph, from: Path, to: Path, ts: int): Graph {
    Graph(
      map id | id in g.documents :: MovedDocument(g.documents[id], from, to, ts),
      map r | r in g.migrations :: MovedRow(g.migrations[r], from, to, ts),
      g.documentTags,
      g.embeddings)
  }

  function PlannedPath(p: Path, from: Path, to: Path): Path {
    if Selected(from, p) then NextPath(p, from, to) else p
  }

  /** assertPrefixMoveSafe: the planned paths meet neither each other nor a document that stays. */
  ghost predicate DocumentsMoveSafe(documents: map<DocId, Document>, from: Path, to: Path) {
    && from != to && !(from + "/" <= to)
    && (forall i, j :: i in documents && j in documents && i != j && Selected(from, documents[i].path) ==>
          NextPath(documents[i].path, from, to) != PlannedPath(documents[j].path, from, to))
  }

  /** The two collision checks on migration destinations: no two planned rows meet, and none
      lands on a row that stays. */
  ghost predicate MigrationsMoveSafe(migrations: map<RowId, Migration>, from: Path, to: Path) {
    forall i, j :: i in migrations && j in migrations && i != j ==>
      MoveRowPath(migrations[i].path, from, to) != MoveRowPath(migrations[j].path, from, to)
  }

  lemma MoveKeepsValid(g: Graph, from: Path, to: Path, ts: int)
    requires g.Valid() && DocumentsMoveSafe(g.documents, from, to) && MigrationsMoveSafe(g.migrations, from, to)
    ensures MovePrefix(g, from, to, ts).Valid()
  {
    hide Like;
  }
}
