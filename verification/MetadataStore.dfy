/** deleteDocumentMetadataPrefix and moveDocumentMetadataPrefix of server/documentMetadata.ts,
    over tables updated in place one row at a time. A single-row migration update has UNIQUE as its
    precondition, so a verified loop never meets the constraint halfway; a document update can be
    refused, as in SQLite. */
module MetadataStore {
  import opened Options
  import opened MetadataGraph

  class MetadataDb {
    var documents: map<DocId, Document>
    var migrations: map<RowId, Migration>
    var documentTags: set<(DocId, nat)>
    var embeddings: map<DocId, string>

    function Contents(): Graph
      reads this
    {
      Graph(documents, migrations, documentTags, embeddings)
    }

    constructor (g: Graph)
      requires g.Valid()
      ensures Contents() == g
    {
      documents, migrations, documentTags, embeddings := g.documents, g.migrations, g.documentTags, g.embeddings;
    }

    /** UPDATE documents SET path = ?, updated_at = ? WHERE id = ?; refused on a taken path. */
    method SetDocumentPath(id: DocId, path: Path, ts: int) returns (ok: bool)
      requires id in documents
      modifies this`documents
      ensures ok <==> forall j :: j in old(documents) && j != id ==> old(documents)[j].path != path
      ensures documents == if ok then old(documents)[id := old(documents)[id].(path := path, updated := ts)]
                           else old(documents)
    {
      var rest := documents.Keys - {id};
      while rest != {}
        invariant rest <= documents.Keys - {id}
        invariant forall j :: j in documents && j != id && j !in rest ==> documents[j].path != path
        decreases rest
      {
        var j :| j in rest;
        if documents[j].path == path {
          return false;
        }
        rest := rest - {j};
      }
      documents := documents[id := documents[id].(path := path, updated := ts)];
      ok := true;
    }

    /** UPDATE metadata_migrations ... WHERE path = ?, for the row that holds the path. */
    method SetMigration(r: RowId, m: Migration)
      requires r in migrations
      requires forall j :: j in migrations && j != r ==> migrations[j].path != m.path
      modifies this`migrations
      ensures migrations == old(migrations)[r := m]
    {
      migrations := migrations[r := m];
    }

    /** ROLLBACK to the contents at BEGIN. */
    method Rollback(before: Graph)
      modifies this
      ensures Contents() == before
    {
      documents, migrations, documentTags, embeddings := before.documents, before.migrations, before.documentTags,
          before.embeddings;
    }

    // ---------- delete ----------

    /** SELECT ... WHERE path = ? on the unique migration path. */
    method FindMigration(path: RowPath) returns (found: Option<RowId>)
      ensures found.Some? ==> found.value in migrations && migrations[found.value].path == path
      ensures found.None? ==> !Holds(migrations, path)
    {
      var rest := migrations.Keys;
      while rest != {}
        invariant rest <= migrations.Keys
        invariant forall r :: r in migrations && r !in rest ==> migrations[r].path != path
        decreases rest
      {
        var r :| r in rest;
        if migrations[r].path == path {
          return Some(r);
        }
        rest := rest - {r};
      }
      return None;
    }

    /** quarantineMigrationAtPath; fails where SQLite would, on a taken tombstone. */
    method QuarantineMigrationAtPath(path: Path, id: DocId, ts: int) returns (ok: bool)
      modifies this`migrations
      ensures ok <==> !Holds(old(migrations), Live(path)) || !Holds(old(migrations), Tombstone(id))
      ensures !ok || !Holds(old(migrations), Live(path)) ==> migrations == old(migrations)
      ensures ok && Holds(old(migrations), Live(path)) ==>
                exists r :: r in old(migrations) && old(migrations)[r].path == Live(path)
                            && migrations == old(migrations)[r := QuarantinedRow(old(migrations)[r], id, ts)]
    {
      var found := FindMigration(Live(path));
      if found.Some? {
        var taken := FindMigration(Tombstone(id));
        if taken.Some? {
          return false;
        }
        SetMigration(found.value, QuarantinedRow(migrations[found.value], id, ts));
      }
      ok := true;
    }

    method QuarantineMigrations(gone: set<DocId>, ts: int) returns (ok: bool)
      requires Contents().Valid() && gone <= documents.Keys
      modifies this`migrations
      ensures ok <==> forall id :: id in gone ==> TombstoneFree(old(Contents()), id)
      ensures ok ==> migrations == QuarantinedRows(old(Contents()), gone, ts)
    {
      ghost var g := Contents();
      var rest := gone;
      assert gone - rest == {} && QuarantinedRows(g, {}, ts) == migrations;
      hide QuarantinedRows, TombstoneFree, Holds, QuarantinedRow, UniqueDocuments, UniqueMigrations;
      while rest != {}
        invariant rest <= gone
        invariant migrations == QuarantinedRows(g, gone - rest, ts)
        invariant forall id :: id in gone - rest ==> TombstoneFree(g, id)
        decreases rest
      {
        var id :| id in rest;
        QuarantineNext(g, gone - rest, ts, id);
        QuarantineSeesTombstones(g, gone - rest, ts, id);
        assert gone - (rest - {id}) == gone - rest + {id};
        ok := QuarantineMigrationAtPath(documents[id].path, id, ts);
        if !ok {
          return;
        }
        rest := rest - {id};
      }
      assert gone - rest == gone;
      ok := true;
    }

    /** quarantineMigrationAtPath for every selected document, then one cascading DELETE. A taken
        tombstone violates UNIQUE and rolls the transaction back. */
    method DeleteMetadataPrefix(prefix: Path, ts: int) returns (ok: bool)
      requires Contents().Valid()
      modifies this
      ensures ok <==> TombstonesFree(old(Contents()), prefix)
      ensures Contents() == if ok then DeletePrefix(old(Contents()), prefix, ts) else old(Contents())
    {
      hide QuarantinedRows, DeleteDocuments, TombstoneFree;
      var g := Contents();
      var gone := DocumentsSelected(documents, prefix);
      ok := QuarantineMigrations(gone, ts);
      if !ok {
        Rollback(g);
        return;
      }
      CascadeDelete(gone);
      DetachAfterQuarantine(g, gone, ts);
    }

    /** DELETE FROM documents with ON DELETE CASCADE and ON DELETE SET NULL. */
    method CascadeDelete(gone: set<DocId>)
      modifies this
      ensures documents == old(documents) - gone
      ensures migrations == map r | r in old(migrations) :: Detached(old(migrations)[r], gone)
      ensures documentTags == set pair: (DocId, nat) | pair in old(documentTags) && pair.0 !in gone :: pair
      ensures embeddings == old(embeddings) - gone
    {
      documents := documents - gone;
      migrations := map r | r in migrations :: Detached(migrations[r], gone);
      documentTags := set pair: (DocId, nat) | pair in documentTags && pair.0 !in gone :: pair;
      embeddings := embeddings - gone;
    }

    // ---------- move ----------

    method FindDocument(path: Path) returns (found: Option<DocId>)
      ensures found.Some? ==> found.value in documents && documents[found.value].path == path
      ensures found.None? ==> forall id :: id in documents ==> documents[id].path != path
    {
      var rest := documents.Keys;
      while rest != {}
        invariant rest <= documents.Keys
        invariant forall id :: id in documents && id !in rest ==> documents[id].path != path
        decreases rest
      {
        var id :| id in rest;
        if documents[id].path == path {
          return Some(id);
        }
        rest := rest - {id};
      }
      return None;
    }

    method AssertPrefixMoveSafe(from: Path, to: Path) returns (safe: bool)
      requires UniqueDocuments(documents)
      ensures safe <==> DocumentsMoveSafe(documents, from, to)
    {
      if from == to || from + "/" <= to {
        return false;
      }
      var planned := DocumentsSelected(documents, from);
      var rest, seen := planned, {};
      hide Clear, Selected, NextPath;
      while rest != {}
        invariant rest <= planned
        invariant seen == set i | i in planned - rest :: NextPath(documents[i].path, from, to)
        invariant Clear(documents, planned - rest, planned, from, to)
        decreases rest
      {
        var id :| id in rest;
        var next := NextPath(documents[id].path, from, to);
        assert planned - (rest - {id}) == planned - rest + {id};
        if next in seen {
          NotSafeByDuplicate(documents, planned - rest, from, to, id);
          return false;
        }
        var existing := FindDocument(next);
        if existing.Some? && existing.value !in planned {
          NotSafeByCollision(documents, from, to, id, existing.value);
          return false;
        }
        assert forall j :: j in documents && documents[j].path == next ==> existing == Some(j);
        ClearNext(documents, planned - rest, planned, from, to, id);
        seen := seen + {next};
        rest := rest - {id};
      }
      assert planned - rest == planned;
      ClearIsSafe(documents, planned, from, to);
      return true;
    }

    /** The update loop, shortest path first. For valid paths no update lands on an occupied path,
        also when the destination is an ancestor of the source and when the query has selected
        folders that differ in letter case. */
    method MoveDocuments(from: Path, to: Path, ts: int) returns (ok: bool)
      requires UniqueDocuments(documents) && DocumentsMoveSafe(documents, from, to)
      modifies this`documents
      ensures ok ==> documents == map id | id in old(documents) :: MovedDocument(old(documents)[id], from, to, ts)
      ensures ValidPath(from) && ValidPath(to) ==> ok
    {
      ghost var documents0 := documents;
      var rest := DocumentsSelected(documents, from);
      PartlyMovedEnds(documents0, from, to, ts);
      hide PartlyMoved, ShortestFirst, NextPath, Selected, DocumentsMoveSafe, ValidPath;
      while rest != {}
        invariant rest <= DocumentsSelected(documents0, from)
        invariant documents == PartlyMoved(documents0, rest, from, to, ts)
        invariant ShortestFirst(documents0, rest, from)
        decreases rest
      {
        ShortestExists(documents0, rest);
        PartlyMovedRest(documents0, rest, from, to, ts);
        var id :| id in rest && forall j :: j in rest ==> |documents[id].path| <= |documents[j].path|;
        var next := NextPath(documents[id].path, from, to);
        if ValidPath(from) && ValidPath(to) {
          forall j | j in documents && j != id
            ensures documents[j].path != next
          {
            NextPathFree(documents0, rest, from, to, ts, id, j);
          }
        }
        PartlyMovedNext(documents0, rest, from, to, ts, id);
        var moved := SetDocumentPath(id, next, ts);
        if !moved {
          return false;
        }
        rest := rest - {id};
      }
      ok := true;
    }

    /** Both destination checks of the migration plan. */
    method CheckMigrationDestinations(planned: set<RowId>, from: Path, to: Path) returns (safe: bool)
      requires UniqueMigrations(migrations) && IsPlan(migrations, planned, from)
      ensures safe <==> MigrationsMoveSafe(migrations, from, to)
    {
      var rest, finals := planned, {};
      while rest != {}
        invariant rest <= planned
        invariant finals == set r | r in planned - rest :: MoveRowPath(migrations[r].path, from, to)
        invariant forall i, j :: i in planned - rest && j in planned - rest && i != j ==>
                    MoveRowPath(migrations[i].path, from, to) != MoveRowPath(migrations[j].path, from, to)
        decreases rest
      {
        var r :| r in rest;
        var next := MoveRowPath(migrations[r].path, from, to);
        if next in finals {
          return false;
        }
        finals := finals + {next};
        rest := rest - {r};
        assert planned - rest == planned - (rest + {r}) + {r};
      }
      rest := planned;
      while rest != {}
        invariant rest <= planned
        invariant forall i, j :: i in planned - rest && j in migrations && j !in planned ==>
                    MoveRowPath(migrations[i].path, from, to) != migrations[j].path
        decreases rest
      {
        var r :| r in rest;
        var existing := FindMigration(MoveRowPath(migrations[r].path, from, to));
        if existing.Some? && existing.value !in planned {
          return false;
        }
        assert forall j :: j in migrations && j !in planned ==>
                  MoveRowPath(migrations[r].path, from, to) != migrations[j].path;
        rest := rest - {r};
      }
      return true;
    }

    /** Every row that changes its path goes through a private name first, so no update lands on
        an occupied path whatever the order. */
    method MoveMigrations(planned: set<RowId>, from: Path, to: Path, ts: int)
      requires UniqueMigrations(migrations) && MigrationsMoveSafe(migrations, from, to)
      requires IsPlan(migrations, planned, from) && NoMovingRows(migrations)
      modifies this`migrations
      ensures migrations == map r | r in old(migrations) :: MovedRow(old(migrations)[r], from, to, ts)
    {
      var rows := migrations;
      var temporary: map<RowId, nat> := map[];
      var movingIndex := 0;
      var rest := planned;
      assert planned - rest == {} && Halfway(rows, temporary, {}, from, to, ts) == migrations;
      assert Temporaries(rows, temporary, {}, 0, from, to);
      hide Halfway, Temporaries, MigrationsMoveSafe, UniqueMigrations, NoMovingRows, MovePath, RowUnder;
      while rest != {}
        invariant rest <= planned
        invariant migrations == Halfway(rows, temporary, {}, from, to, ts)
        invariant Temporaries(rows, temporary, planned - rest, movingIndex, from, to)
        decreases rest
      {
        var r :| r in rest;
        TemporaryNext(rows, temporary, planned - rest, movingIndex, from, to, ts, r);
        if MoveRowPath(migrations[r].path, from, to) != migrations[r].path {
          SetMigration(r, migrations[r].(path := Moving(movingIndex)));
          temporary := temporary[r := movingIndex];
          movingIndex := movingIndex + 1;
        }
        assert planned - (rest - {r}) == planned - rest + {r};
        rest := rest - {r};
      }
      assert planned - rest == planned;
      rest := planned;
      while rest != {}
        invariant rest <= planned
        invariant migrations == Halfway(rows, temporary, planned - rest, from, to, ts)
        decreases rest
      {
        var r :| r in rest;
        FinishNext(rows, temporary, planned - rest, movingIndex, planned, from, to, ts, r);
        assert planned - (rest - {r}) == planned - rest + {r};
        if r in temporary || MovePath(migrations[r].original, from, to) != migrations[r].original {
          SetMigration(r, migrations[r].(path := MoveRowPath(rows[r].path, from, to),
                                         original := MovePath(rows[r].original, from, to), updated := ts));
        }
        rest := rest - {r};
      }
      assert planned - rest == planned;
      FinishAll(rows, temporary, movingIndex, planned, from, to, ts);
    }

    /** moveDocumentMetadataPrefix. */
    method MoveMetadataPrefix(from: Path, to: Path, ts: int) returns (ok: bool)
      requires Contents().Valid() && NoMovingRows(migrations)
      modifies this
      ensures ok ==> DocumentsMoveSafe(old(documents), from, to) && MigrationsMoveSafe(old(migrations), from, to)
      ensures ValidPath(from) && ValidPath(to) ==>
                (ok <==> DocumentsMoveSafe(old(documents), from, to) && MigrationsMoveSafe(old(migrations), from, to))
      ensures Contents() == if ok then MovePrefix(old(Contents()), from, to, ts) else old(Contents())
    {
      hide DocumentsMoveSafe, MigrationsMoveSafe, ValidPath, IsPlan, NoMovingRows, UniqueDocuments,
           UniqueMigrations, Selected;
      var before := Contents();
      ok := AssertPrefixMoveSafe(from, to);
      if !ok {
        return;
      }
      var planned := Plan(migrations, DocumentsSelected(documents, from), from);
      PlanCovers(migrations, documents, from);
      ok := CheckMigrationDestinations(planned, from, to);
      if !ok {
        return;
      }
      ok := MoveDocuments(from, to, ts);
      if !ok {
        Rollback(before);
        return;
      }
      MoveMigrations(planned, from, to, ts);
    }
  }

  function Detached(m: Migration, gone: set<DocId>): Migration {
    if m.document.Some? && m.document.value in gone then m.(document := None) else m
  }

  /** The rows after the documents in `done` have been quarantined, none of them deleted yet. */
  ghost function QuarantinedRows(g: Graph, done: set<DocId>, ts: int): map<RowId, Migration> {
    map r | r in g.migrations ::
      if id :| Owner(g.documents, done, g.migrations[r], id) then QuarantinedRow(g.migrations[r], id, ts)
      else g.migrations[r]
  }

  ghost predicate Holds(migrations: map<RowId, Migration>, path: RowPath) {
    exists r :: r in migrations && migrations[r].path == path
  }

  /** No migration row at the document's path, or no row holds the tombstone it would get. */
  ghost predicate TombstoneFree(g: Graph, id: DocId) {
    id in g.documents ==> !Holds(g.migrations, Live(g.documents[id].path)) || !Holds(g.migrations, Tombstone(id))
  }

  /** No tombstone the delete would write is taken. */
  ghost predicate TombstonesFree(g: Graph, prefix: Path) {
    forall id :: id in DocumentsSelected(g.documents, prefix) ==> TombstoneFree(g, id)
  }

  lemma OneOwner(g: Graph, done: set<DocId>, m: Migration, id: DocId)
    requires UniqueDocuments(g.documents) && Owner(g.documents, done, m, id)
    ensures forall j :: Owner(g.documents, done, m, j) ==> j == id
  {
  }

  /** Quarantining one more document changes the one row at its path and nothing else. */
  lemma QuarantineNext(g: Graph, done: set<DocId>, ts: int, id: DocId)
    requires UniqueDocuments(g.documents) && UniqueMigrations(g.migrations)
    requires id in g.documents && id !in done
    ensures var before, after := QuarantinedRows(g, done, ts), QuarantinedRows(g, done + {id}, ts);
            && (forall r :: r in before && before[r].path == Live(g.documents[id].path) ==>
                  after == before[r := QuarantinedRow(before[r], id, ts)])
            && (!Holds(before, Live(g.documents[id].path)) ==> after == before)
  {
    var before, after := QuarantinedRows(g, done, ts), QuarantinedRows(g, done + {id}, ts);
    var path := Live(g.documents[id].path);
    forall r | r in g.migrations
      ensures before[r].path == path ==> g.migrations[r].path == path && after[r] == QuarantinedRow(before[r], id, ts)
      ensures before[r].path != path ==> after[r] == before[r]
    {
      var m := g.migrations[r];
      if m.path == path {
        assert Owner(g.documents, done + {id}, m, id);
        OneOwner(g, done + {id}, m, id);
        assert forall j :: Owner(g.documents, done, m, j) ==> Owner(g.documents, done + {id}, m, j);
      } else {
        assert forall j :: Owner(g.documents, done, m, j) <==> Owner(g.documents, done + {id}, m, j);
        if j :| Owner(g.documents, done, m, j) {
          OneOwner(g, done, m, j);
          OneOwner(g, done + {id}, m, j);
        }
      }
    }
  }

  lemma QuarantineSeesTombstones(g: Graph, done: set<DocId>, ts: int, id: DocId)
    requires UniqueDocuments(g.documents) && id in g.documents && id !in done
    ensures var before := QuarantinedRows(g, done, ts);
            TombstoneFree(g, id) <==> !Holds(before, Live(g.documents[id].path)) || !Holds(before, Tombstone(id))
  {
    var before := QuarantinedRows(g, done, ts);
    forall r | r in g.migrations
      ensures before[r].path == Tombstone(id) <==> g.migrations[r].path == Tombstone(id)
      ensures before[r].path == Live(g.documents[id].path) <==> g.migrations[r].path == Live(g.documents[id].path)
    {
    }
    assert forall p :: p == Tombstone(id) || p == Live(g.documents[id].path) ==>
        (Holds(before, p) <==> Holds(g.migrations, p));
  }

  lemma DetachAfterQuarantine(g: Graph, gone: set<DocId>, ts: int)
    requires UniqueDocuments(g.documents)
    ensures var q := QuarantinedRows(g, gone, ts);
            (map r | r in q :: Detached(q[r], gone)) == DeleteDocuments(g, gone, ts).migrations
    ensures DeleteDocuments(g, gone, ts).documents == g.documents - gone
    ensures DeleteDocuments(g, gone, ts).documentTags
            == set pair: (DocId, nat) | pair in g.documentTags && pair.0 !in gone :: pair
    ensures DeleteDocuments(g, gone, ts).embeddings == g.embeddings - gone
  {
    var q := QuarantinedRows(g, gone, ts);
    forall r | r in g.migrations
      ensures Detached(q[r], gone) == DeletedRow(g.documents, gone, g.migrations[r], ts)
    {
      if id :| Owner(g.documents, gone, g.migrations[r], id) {
        OneOwner(g, gone, g.migrations[r], id);
      }
    }
  }

  // ---------- the planned destinations ----------

  /** The planned paths of the rows in `done` meet neither each other nor an unplanned document. */
  ghost predicate Clear(documents: map<DocId, Document>, done: set<DocId>, planned: set<DocId>, from: Path, to: Path)
    requires done <= documents.Keys
  {
    && (forall i, j :: i in done && j in done && i != j ==>
          NextPath(documents[i].path, from, to) != NextPath(documents[j].path, from, to))
    && (forall i, j :: i in done && j in documents && j !in planned ==>
          NextPath(documents[i].path, from, to) != documents[j].path)
  }

  lemma ClearNext(documents: map<DocId, Document>, done: set<DocId>, planned: set<DocId>, from: Path, to: Path,
                  id: DocId)
    requires done <= documents.Keys && id in documents && Clear(documents, done, planned, from, to)
    requires NextPath(documents[id].path, from, to) !in set i | i in done :: NextPath(documents[i].path, from, to)
    requires forall j :: j in documents && documents[j].path == NextPath(documents[id].path, from, to) ==> j in planned
    ensures Clear(documents, done + {id}, planned, from, to)
  {
    hide NextPath;
  }

  lemma ClearIsSafe(documents: map<DocId, Document>, planned: set<DocId>, from: Path, to: Path)
    requires from != to && !(from + "/" <= to) && planned == DocumentsSelected(documents, from)
    requires Clear(documents, planned, planned, from, to)
    ensures DocumentsMoveSafe(documents, from, to)
  {
    hide NextPath, Selected;
  }

  lemma NotSafeByDuplicate(documents: map<DocId, Document>, done: set<DocId>, from: Path, to: Path, id: DocId)
    requires id in DocumentsSelected(documents, from) && id !in done && done <= DocumentsSelected(documents, from)
    requires exists i :: i in done && NextPath(documents[i].path, from, to) == NextPath(documents[id].path, from, to)
    ensures !DocumentsMoveSafe(documents, from, to)
  {
    hide NextPath, Selected;
  }

  lemma NotSafeByCollision(documents: map<DocId, Document>, from: Path, to: Path, id: DocId, j: DocId)
    requires id in DocumentsSelected(documents, from) && j in documents && j !in DocumentsSelected(documents, from)
    requires documents[j].path == NextPath(documents[id].path, from, to)
    ensures !DocumentsMoveSafe(documents, from, to)
  {
    hide NextPath, Selected;
  }

  // ---------- why the update loop does not meet UNIQUE ----------

  function PartlyMoved(documents: map<DocId, Document>, rest: set<DocId>, from: Path, to: Path,
                       ts: int): map<DocId, Document> {
    map id | id in documents :: if id in rest then documents[id] else MovedDocument(documents[id], from, to, ts)
  }

  /** What has been moved was no longer than anything still to be moved. */
  ghost predicate ShortestFirst(documents: map<DocId, Document>, rest: set<DocId>, from: Path) {
    forall i, j :: i in documents && Selected(from, documents[i].path) && i !in rest && j in rest && j in documents ==>
      |documents[i].path| <= |documents[j].path|
  }

  lemma PartlyMovedRest(documents: map<DocId, Document>, rest: set<DocId>, from: Path, to: Path, ts: int)
    ensures PartlyMoved(documents, rest, from, to, ts).Keys == documents.Keys
    ensures forall j :: j in rest && j in documents ==> PartlyMoved(documents, rest, from, to, ts)[j] == documents[j]
  {
  }

  lemma PartlyMovedEnds(documents: map<DocId, Document>, from: Path, to: Path, ts: int)
    ensures var all := DocumentsSelected(documents, from);
            PartlyMoved(documents, all, from, to, ts) == documents && ShortestFirst(documents, all, from)
    ensures PartlyMoved(documents, {}, from, to, ts) == map id | id in documents ::
              MovedDocument(documents[id], from, to, ts)
  {
    hide Like;
  }

  lemma PartlyMovedNext(documents: map<DocId, Document>, rest: set<DocId>, from: Path, to: Path, ts: int, id: DocId)
    requires rest <= DocumentsSelected(documents, from) && id in rest
    requires ShortestFirst(documents, rest, from)
    requires forall j :: j in rest ==> |documents[id].path| <= |documents[j].path|
    ensures var before := PartlyMoved(documents, rest, from, to, ts);
            && before.Keys == documents.Keys && before[id] == documents[id]
            && PartlyMoved(documents, rest - {id}, from, to, ts)
               == before[id := documents[id].(path := NextPath(documents[id].path, from, to), updated := ts)]
    ensures ShortestFirst(documents, rest - {id}, from)
  {
    hide Like;
  }

  lemma ShortestExists(documents: map<DocId, Document>, ids: set<DocId>)
    requires ids != {} && ids <= documents.Keys
    ensures exists id :: id in ids && forall j :: j in ids ==> |documents[id].path| <= |documents[j].path|
  {
    var id :| id in ids;
    var rest := ids - {id};
    if rest == {} {
      assert ids == {id};
    } else {
      ShortestExists(documents, rest);
      var least :| least in rest && forall j :: j in rest ==> |documents[least].path| <= |documents[j].path|;
      var best := if |documents[id].path| <= |documents[least].path| then id else least;
      forall j | j in ids
        ensures |documents[best].path| <= |documents[j].path|
      {
        assert j == id || j in rest;
      }
    }
  }

  /** A selected path that begins with a valid path at least as long as the prefix puts that path
      in the prefix's subtree: what folds to the prefix and is lower-case already is the prefix. */
  lemma SelectedStartNests(prefix: Path, start: Path, q: Path)
    requires ValidPath(prefix) && ValidPath(start) && Selected(prefix, q) && start <= q && |prefix| <= |start|
    ensures start == prefix || prefix + "/" <= start
  {
    SelectedByCase(prefix, q);
    ValidPathIsPlain(start);
    hide Selected, ValidPath;
    if q != prefix {
      forall i | 0 <= i < |start|
        ensures Folded(q)[i] == start[i]
      {
        assert (start + "/")[i] == start[i] == q[i];
      }
      if |start| == |prefix| {
        assert prefix == (prefix + "/")[..|prefix|] == Folded(q)[..|prefix|] == start;
      } else {
        assert prefix + "/" == Folded(q)[..|prefix| + 1] == start[..|prefix| + 1];
      }
    }
  }

  /** Of two selected paths, the one that moves first never wants the path of the other. */
  lemma LongerPathStaysFree(from: Path, to: Path, p: Path, q: Path)
    requires ValidPath(from) && ValidPath(to) && from != to && !(from + "/" <= to)
    requires Selected(from, p) && Selected(from, q) && |p| <= |q|
    ensures NextPath(p, from, to) != q
  {
    SelectedByCase(from, p);
    hide Selected, ValidPath;
    if NextPath(p, from, to) == q {
      SelectedStartNests(from, to, q);
    }
  }

  lemma NextPathFree(documents: map<DocId, Document>, rest: set<DocId>, from: Path, to: Path, ts: int, id: DocId,
                     j: DocId)
    requires UniqueDocuments(documents) && DocumentsMoveSafe(documents, from, to) && ValidPath(from) && ValidPath(to)
    requires rest <= DocumentsSelected(documents, from) && id in rest && j in documents && j != id
    requires forall k :: k in rest ==> |documents[id].path| <= |documents[k].path|
    ensures PartlyMoved(documents, rest, from, to, ts)[j].path != NextPath(documents[id].path, from, to)
  {
    hide Like, ValidPath;
    if j in rest {
      LongerPathStaysFree(from, to, documents[id].path, documents[j].path);
    }
  }

  // ---------- migration rows on the move ----------

  /** The rows a prefix move selects: by path, by original path, and any rows of moved documents. */
  ghost predicate IsPlan(migrations: map<RowId, Migration>, planned: set<RowId>, from: Path) {
    && planned <= migrations.Keys
    && forall r :: r in migrations && (RowUnder(from, migrations[r].path) || Under(from, migrations[r].original)) ==>
          r in planned
  }

  predicate PlansRow(m: Migration, moved: set<DocId>, from: Path) {
    || (m.path.Live? && Selected(from, m.path.path))
    || Selected(from, m.original)
    || (m.document.Some? && m.document.value in moved)
  }

  function Plan(migrations: map<RowId, Migration>, moved: set<DocId>, from: Path): set<RowId> {
    set r | r in migrations && PlansRow(migrations[r], moved, from)
  }

  lemma PlanCovers(migrations: map<RowId, Migration>, documents: map<DocId, Document>, from: Path)
    ensures IsPlan(migrations, Plan(migrations, DocumentsSelected(documents, from), from), from)
  {
    hide Selected;
    forall r | r in migrations && (RowUnder(from, migrations[r].path) || Under(from, migrations[r].original))
      ensures PlansRow(migrations[r], DocumentsSelected(documents, from), from)
    {
      if Under(from, migrations[r].original) {
        UnderIsSelected(from, migrations[r].original);
      } else {
        UnderIsSelected(from, migrations[r].path.path);
      }
    }
  }

  /** The fresh `@moving/<uuid>` namespace is private to one move. */
  ghost predicate NoMovingRows(migrations: map<RowId, Migration>) {
    forall r :: r in migrations ==> !migrations[r].path.Moving?
  }

  function HalfwayRow(m: Migration, r: RowId, temporary: map<RowId, nat>, done: set<RowId>, from: Path, to: Path,
                      ts: int): Migration {
    if r in done then MovedRow(m, from, to, ts)
    else if r in temporary then m.(path := Moving(temporary[r]))
    else m
  }

  function Halfway(rows: map<RowId, Migration>, temporary: map<RowId, nat>, done: set<RowId>, from: Path, to: Path,
                   ts: int): map<RowId, Migration> {
    map r | r in rows :: HalfwayRow(rows[r], r, temporary, done, from, to, ts)
  }

  ghost predicate Temporaries(rows: map<RowId, Migration>, temporary: map<RowId, nat>, seen: set<RowId>, next: nat,
                              from: Path, to: Path) {
    && (forall r :: r in temporary <==> r in seen && r in rows && MoveRowPath(rows[r].path, from, to) != rows[r].path)
    && (forall r :: r in temporary ==> temporary[r] < next)
    && (forall i, j :: i in temporary && j in temporary && temporary[i] == temporary[j] ==> i == j)
  }

  lemma TemporaryNext(rows: map<RowId, Migration>, temporary: map<RowId, nat>, seen: set<RowId>, next: nat,
                      from: Path, to: Path, ts: int, r: RowId)
    requires NoMovingRows(rows) && r in rows && r !in seen && Temporaries(rows, temporary, seen, next, from, to)
    ensures var now := Halfway(rows, temporary, {}, from, to, ts);
            && now.Keys == rows.Keys
            && now[r] == rows[r]
            && (forall j :: j in now ==> now[j].path != Moving(next))
            && Halfway(rows, temporary[r := next], {}, from, to, ts) == now[r := rows[r].(path := Moving(next))]
    ensures if MoveRowPath(rows[r].path, from, to) != rows[r].path
            then Temporaries(rows, temporary[r := next], seen + {r}, next + 1, from, to)
            else Temporaries(rows, temporary, seen + {r}, next, from, to)
  {
    hide MoveRowPath, MovedRow;
  }

  lemma FinishNext(rows: map<RowId, Migration>, temporary: map<RowId, nat>, done: set<RowId>, next: nat,
                   planned: set<RowId>,
                   from: Path, to: Path, ts: int, r: RowId)
    requires MigrationsMoveSafe(rows, from, to) && IsPlan(rows, planned, from) && NoMovingRows(rows)
    requires Temporaries(rows, temporary, planned, next, from, to)
    requires done <= planned && r in planned && r !in done
    ensures var now := Halfway(rows, temporary, done, from, to, ts);
            && now.Keys == rows.Keys
            && now[r].original == rows[r].original
            && (forall j :: j in now && j != r ==> now[j].path != MoveRowPath(rows[r].path, from, to))
            && Halfway(rows, temporary, done + {r}, from, to, ts) == now[r := MovedRow(rows[r], from, to, ts)]
  {
    hide MovePath, Under;
    var now := Halfway(rows, temporary, done, from, to, ts);
    forall j | j in now && j != r
      ensures now[j].path != MoveRowPath(rows[r].path, from, to)
    {
      assert MoveRowPath(rows[j].path, from, to) != MoveRowPath(rows[r].path, from, to);
    }
  }

  lemma FinishAll(rows: map<RowId, Migration>, temporary: map<RowId, nat>, next: nat, planned: set<RowId>, from: Path,
                  to: Path, ts: int)
    requires IsPlan(rows, planned, from) && Temporaries(rows, temporary, planned, next, from, to)
    ensures Halfway(rows, temporary, planned, from, to, ts) == map r | r in rows :: MovedRow(rows[r], from, to, ts)
  {
  }
}
