/** deriveCommittedPrefixSnapshot of server/folderMoveTransaction.ts, which predicts the graph a
    folder move commits, and the compare-and-swap of server/folderMoveV4Metadata.ts that carries
    the transition out and checks it against the prediction. */
module PrefixTransition {
  import opened Options
  import opened MetadataGraph
  import opened MetadataStore

  datatype Transition = AlreadyCommitted | CommittedNow | Conflict | Failed

  // ---------- the prediction ----------

  function PredictedDocument(d: Document, from: Path, to: Path, ts: int): Document {
    var next := MovePath(d.path, from, to);
    if next == d.path then d else d.(path := next, updated := ts)
  }

  predicate OwnsDestination(documents: map<DocId, Document>, m: Migration, to: Path) {
    && m.document.Some? && m.document.value in documents
    && Under(to, documents[m.document.value].path)
    && m.path == Live(documents[m.document.value].path)
  }

  function PredictedRow(documents: map<DocId, Document>, m: Migration, from: Path, to: Path, ts: int): Migration {
    if OwnsDestination(documents, m, to) then
      m.(path := Tombstone(m.document.value), document := None,
         original := if m.original == "" then m.path.path else m.original,
         orphaned := true, updated := ts)
    else
      var detached :=
        if m.document.Some? && m.document.value in DocumentsUnder(documents, to) then m.(document := None) else m;
      var nextPath := MoveRowPath(m.path, from, to);
      var nextOriginal := if m.original == "" then "" else MovePath(m.original, from, to);
      if nextPath == m.path && nextOriginal == m.original then detached
      else detached.(path := nextPath, original := nextOriginal, updated := ts)
  }

  function Predict(g: Graph, from: Path, to: Path, ts: int): Graph {
    var gone := DocumentsUnder(g.documents, to);
    Graph(
      map id | id in g.documents && id !in gone :: PredictedDocument(g.documents[id], from, to, ts),
      map r | r in g.migrations :: PredictedRow(g.documents, g.migrations[r], from, to, ts),
      set pair: (DocId, nat) | pair in g.documentTags && pair.0 !in gone :: pair,
      map id | id in g.embeddings && id !in gone :: g.embeddings[id])
  }

  /** isSerializedMetadataSnapshot: keys are unique, every reference resolves, and a tombstone row
      names a document of the snapshot. */
  predicate Closed(g: Graph) {
    && g.Valid()
    && (forall r :: r in g.migrations && g.migrations[r].path.Tombstone? ==> g.migrations[r].path.id in g.documents)
  }

  /** deriveCommittedPrefixSnapshot; None where it throws. */
  function Derive(g: Graph, from: Path, to: Path, ts: int): Option<Graph> {
    var predicted := Predict(g, from, to, ts);
    if Closed(predicted) then Some(predicted) else None
  }

  /** The graph the two statements of the transition leave. */
  ghost function Execute(g: Graph, from: Path, to: Path, ts: int): Graph {
    MovePrefix(DeletePrefix(g, to, ts), from, to, ts)
  }

  /** nextMetadataBatchUpdatedAt: the transition's timestamp lies above every document's. */
  ghost predicate Minted(documents: map<DocId, Document>, ts: int) {
    forall id :: id in documents ==> documents[id].updated < ts
  }

  // ---------- prediction against execution ----------

  ghost predicate SourceQueryIsExact(g: Graph, from: Path, to: Path) {
    forall id :: id in g.documents && !Under(to, g.documents[id].path) && Selected(from, g.documents[id].path) ==>
      Under(from, g.documents[id].path)
  }

  ghost predicate RowOwned(g: Graph, from: Path, to: Path, m: Migration) {
    forall id :: id in g.documents && Under(to, g.documents[id].path) && m.path == Live(g.documents[id].path) ==>
      m.document == Some(id) && !Under(from, m.original)
  }

  ghost predicate DestinationRowsOwned(g: Graph, from: Path, to: Path) {
    forall r :: r in g.migrations ==> RowOwned(g, from, to, g.migrations[r])
  }

  /** Neither prefix query selects a document outside its subtree, and a migration row at a
      destination document's path belongs to that document and did not come from the source. */
  ghost predicate Predictable(g: Graph, from: Path, to: Path) {
    && NoLookalikes(g.documents, to)
    && SourceQueryIsExact(g, from, to)
    && DestinationRowsOwned(g, from, to)
  }

  lemma MoveChangesPath(p: Path, from: Path, to: Path)
    requires Under(from, p) && from != to
    ensures MovePath(p, from, to) != p
  {
    if |from| == |to| {
      assert MovePath(p, from, to)[..|to|] == to && p[..|from|] == from;
    }
  }

  lemma PredictedDocumentIsMoved(d: Document, from: Path, to: Path, ts: int)
    requires from != to && d.updated < ts
    ensures PredictedDocument(d, from, to, ts) == MovedDocument(d, from, to, ts) <==>
              (Selected(from, d.path) ==> Under(from, d.path))
  {
    hide Like;
    if Under(from, d.path) {
      UnderIsSelected(from, d.path);
      MoveChangesPath(d.path, from, to);
    }
  }

  /** A row at a destination document's path: the execution always tombstones it. */
  lemma RowAtDestination(g: Graph, from: Path, to: Path, ts: int, r: RowId, id: DocId)
    requires g.Valid() && Siblings(from, to) && from != "" && NoLookalikes(g.documents, to)
    requires r in g.migrations && id in g.documents && Under(to, g.documents[id].path)
    requires g.migrations[r].path == Live(g.documents[id].path)
    ensures PredictedRow(g.documents, g.migrations[r], from, to, ts)
            == MovedRow(DeletedRow(g.documents, DocumentsSelected(g.documents, to), g.migrations[r], ts), from, to, ts)
            <==> g.migrations[r].document == Some(id) && !Under(from, g.migrations[r].original)
  {
    hide Like;
    var m, gone := g.migrations[r], DocumentsSelected(g.documents, to);
    assert id in DocumentsUnder(g.documents, to);
    assert Owner(g.documents, gone, m, id);
    OneOwner(g, gone, m, id);
    assert DeletedRow(g.documents, gone, m, ts) == QuarantinedRow(m, id, ts);
    if Under(from, g.documents[id].path) {
      SiblingsAreDisjoint(from, to, g.documents[id].path);
    }
    if Under(from, m.original) {
      MoveChangesPath(m.original, from, to);
    }
  }

  lemma RowElsewhere(g: Graph, from: Path, to: Path, ts: int, r: RowId)
    requires from != "" && NoLookalikes(g.documents, to) && r in g.migrations
    requires forall id :: id in g.documents && Under(to, g.documents[id].path) ==>
              g.migrations[r].path != Live(g.documents[id].path)
    ensures PredictedRow(g.documents, g.migrations[r], from, to, ts)
            == MovedRow(DeletedRow(g.documents, DocumentsSelected(g.documents, to), g.migrations[r], ts), from, to, ts)
  {
    hide Like;
    var m, gone := g.migrations[r], DocumentsSelected(g.documents, to);
    forall id
      ensures !Owner(g.documents, gone, m, id)
    {
      assert id in gone ==> id in DocumentsUnder(g.documents, to);
    }
  }

  lemma SameDocuments(g: Graph, from: Path, to: Path, ts: int)
    requires from != to && NoLookalikes(g.documents, to) && Minted(g.documents, ts)
    ensures Predict(g, from, to, ts).documents == Execute(g, from, to, ts).documents <==>
              SourceQueryIsExact(g, from, to)
    ensures Predict(g, from, to, ts).documentTags == Execute(g, from, to, ts).documentTags
    ensures Predict(g, from, to, ts).embeddings == Execute(g, from, to, ts).embeddings
  {
    hide Selected, Under, PredictedRow, MovedRow, DeletedRow, PredictedDocument, MovedDocument;
    var predicted, executed := Predict(g, from, to, ts).documents, Execute(g, from, to, ts).documents;
    assert predicted.Keys == executed.Keys;
    forall id | id in predicted
      ensures predicted[id] == executed[id] <==>
                (Selected(from, g.documents[id].path) ==> Under(from, g.documents[id].path))
    {
      PredictedDocumentIsMoved(g.documents[id], from, to, ts);
    }
  }

  lemma SameRow(g: Graph, from: Path, to: Path, ts: int, r: RowId)
    requires g.Valid() && Siblings(from, to) && from != "" && NoLookalikes(g.documents, to) && r in g.migrations
    ensures PredictedRow(g.documents, g.migrations[r], from, to, ts)
            == MovedRow(DeletedRow(g.documents, DocumentsSelected(g.documents, to), g.migrations[r], ts), from, to, ts)
            <==> RowOwned(g, from, to, g.migrations[r])
  {
    hide Selected, Under, PredictedRow, MovedRow, DeletedRow, NoLookalikes, Siblings, UniqueMigrations,
         DocumentsSelected;
    if id :|
        id in g.documents && Under(to, g.documents[id].path) && g.migrations[r].path == Live(g.documents[id].path) {
      RowAtDestination(g, from, to, ts, r, id);
    } else {
      RowElsewhere(g, from, to, ts, r);
    }
  }

  lemma SameRows(g: Graph, from: Path, to: Path, ts: int)
    requires g.Valid() && Siblings(from, to) && from != "" && NoLookalikes(g.documents, to)
    ensures Predict(g, from, to, ts).migrations == Execute(g, from, to, ts).migrations <==>
              DestinationRowsOwned(g, from, to)
  {
    hide Graph.Valid, RowOwned, Selected, Under, PredictedRow, MovedRow, DeletedRow, NoLookalikes, Siblings,
         DocumentsSelected, DocumentsUnder, PredictedDocument, MovedDocument;
    var predicted, executed := Predict(g, from, to, ts).migrations, Execute(g, from, to, ts).migrations;
    assert predicted.Keys == executed.Keys == g.migrations.Keys;
    forall r | r in g.migrations
      ensures predicted[r] == executed[r] <==> RowOwned(g, from, to, g.migrations[r])
    {
      SameRow(g, from, to, ts, r);
    }
  }

  lemma LookalikeDeleted(g: Graph, from: Path, to: Path, ts: int)
    requires !NoLookalikes(g.documents, to)
    ensures Predict(g, from, to, ts).documents.Keys != Execute(g, from, to, ts).documents.Keys
  {
    hide Like, Under, PredictedRow, MovedRow, DeletedRow;
    forall id | id in DocumentsUnder(g.documents, to)
      ensures id in DocumentsSelected(g.documents, to)
    {
      UnderIsSelected(to, g.documents[id].path);
    }
    var id :| id in DocumentsSelected(g.documents, to) && id !in DocumentsUnder(g.documents, to);
    assert id in Predict(g, from, to, ts).documents;
  }

  /** The prediction is the graph the execution leaves exactly for predictable graphs. */
  lemma PredictionIsExecution(g: Graph, from: Path, to: Path, ts: int)
    requires g.Valid() && Siblings(from, to) && from != "" && Minted(g.documents, ts)
    ensures Predict(g, from, to, ts) == Execute(g, from, to, ts) <==> Predictable(g, from, to)
  {
    hide Predict, Execute, NoLookalikes, SourceQueryIsExact, DestinationRowsOwned, Under;
    if NoLookalikes(g.documents, to) {
      SameDocuments(g, from, to, ts);
      SameRows(g, from, to, ts);
    } else {
      LookalikeDeleted(g, from, to, ts);
    }
  }

  // ---------- when the prediction is accepted ----------

  /** No row is tombstoned by the prediction, no tombstone names a document it removes, and the
      rows that stay or move do not meet. */
  ghost predicate Derivable(g: Graph, from: Path, to: Path) {
    && (forall r :: r in g.migrations ==> !OwnsDestination(g.documents, g.migrations[r], to))
    && (forall r :: r in g.migrations && g.migrations[r].path.Tombstone? ==>
          g.migrations[r].path.id !in DocumentsUnder(g.documents, to))
    && MigrationsMoveSafe(g.migrations, from, to)
  }

  lemma PredictedDocumentsUnique(g: Graph, from: Path, to: Path, ts: int)
    requires UniqueDocuments(g.documents) && Siblings(from, to)
    ensures UniqueDocuments(Predict(g, from, to, ts).documents)
  {
    var documents := Predict(g, from, to, ts).documents;
    forall i, j | i in documents && j in documents && documents[i].path == documents[j].path
      ensures i == j
    {
      var p, q := g.documents[i].path, g.documents[j].path;
      if Under(from, p) && Under(from, q) {
        MovePathInjective(p, q, from, to);
      } else if Under(from, p) {
        MovedIsUnder(p, from, to);
      } else if Under(from, q) {
        MovedIsUnder(q, from, to);
      }
    }
  }

  lemma MovedIsUnder(p: Path, from: Path, to: Path)
    requires Under(from, p)
    ensures Under(to, MovePath(p, from, to))
  {
    if p != from {
      assert MovePath(p, from, to)[..|to| + 1] == to + "/";
    }
  }

  /** The source's closure check refuses the prediction exactly for graphs that are not derivable;
      in particular whenever a destination document still has its own migration row. */
  lemma DeriveSucceeds(g: Graph, from: Path, to: Path, ts: int)
    requires Closed(g) && Siblings(from, to)
    ensures Derive(g, from, to, ts).Some? <==> Derivable(g, from, to)
  {
    hide Under, Like, MovePath, Siblings, UniqueDocuments, UniqueMigrations, MigrationsMoveSafe, MoveRowPath;
    PredictedDocumentsUnique(g, from, to, ts);
    var predicted := Predict(g, from, to, ts);
    if r :| r in g.migrations && OwnsDestination(g.documents, g.migrations[r], to) {
      assert predicted.migrations[r].path == Tombstone(g.migrations[r].document.value);
    } else {
      PredictedRowsKeepPaths(g, from, to, ts);
      PredictedReferences(g, from, to, ts);
      TombstonesStay(g, from, to, ts);
    }
  }

  /** So a stale destination document that still has its migration row makes the transition fail,
      although the execution would leave the predicted graph. */
  lemma DestinationRowRefused(g: Graph, from: Path, to: Path, ts: int, r: RowId, id: DocId)
    requires Closed(g) && Siblings(from, to) && Predictable(g, from, to)
    requires r in g.migrations && id in g.documents && Under(to, g.documents[id].path)
    requires g.migrations[r].path == Live(g.documents[id].path)
    ensures Derive(g, from, to, ts) == None
  {
    hide Under, Like, Closed, Derive;
    DeriveSucceeds(g, from, to, ts);
    assert OwnsDestination(g.documents, g.migrations[r], to);
  }

  lemma PredictedReferences(g: Graph, from: Path, to: Path, ts: int)
    requires g.Valid()
    ensures var predicted := Predict(g, from, to, ts);
            && (forall r :: r in predicted.migrations && predicted.migrations[r].document.Some? ==>
                  predicted.migrations[r].document.value in predicted.documents)
            && (forall t :: t in predicted.documentTags ==> t.0 in predicted.documents)
            && predicted.embeddings.Keys <= predicted.documents.Keys
  {
    hide Under, Like, MovePath, MoveRowPath, UniqueDocuments, UniqueMigrations;
  }

  lemma TombstonesStay(g: Graph, from: Path, to: Path, ts: int)
    requires Closed(g)
    requires forall r :: r in g.migrations ==>
              Predict(g, from, to, ts).migrations[r].path == MoveRowPath(g.migrations[r].path, from, to)
    ensures var predicted := Predict(g, from, to, ts);
            (forall r :: r in predicted.migrations && predicted.migrations[r].path.Tombstone? ==>
               predicted.migrations[r].path.id in predicted.documents)
            <==> (forall r :: r in g.migrations && g.migrations[r].path.Tombstone? ==>
               g.migrations[r].path.id !in DocumentsUnder(g.documents, to))
  {
    hide Under, Like, MovePath, UniqueDocuments, UniqueMigrations, PredictedRow, PredictedDocument;
    var predicted := Predict(g, from, to, ts);
    forall r | r in g.migrations
      ensures predicted.migrations[r].path.Tombstone? <==> g.migrations[r].path.Tombstone?
      ensures g.migrations[r].path.Tombstone? ==> predicted.migrations[r].path == g.migrations[r].path
    {
      assert predicted.migrations[r].path == MoveRowPath(g.migrations[r].path, from, to);
    }
  }

  lemma PredictedRowsKeepPaths(g: Graph, from: Path, to: Path, ts: int)
    requires forall r :: r in g.migrations ==> !OwnsDestination(g.documents, g.migrations[r], to)
    ensures forall r :: r in g.migrations ==>
              Predict(g, from, to, ts).migrations[r].path == MoveRowPath(g.migrations[r].path, from, to)
    ensures UniqueMigrations(Predict(g, from, to, ts).migrations) <==> MigrationsMoveSafe(g.migrations, from, to)
  {
    hide Under, MovePath, OwnsDestination;
    var predicted := Predict(g, from, to, ts).migrations;
    forall r | r in g.migrations
      ensures predicted[r].path == MoveRowPath(g.migrations[r].path, from, to)
    {
      assert !OwnsDestination(g.documents, g.migrations[r], to);
    }
  }

  // ---------- execution cannot fail where the prediction holds ----------

  lemma NoRowsAtDestination(g: Graph, from: Path, to: Path)
    requires NoLookalikes(g.documents, to) && DestinationRowsOwned(g, from, to) && Derivable(g, from, to)
    ensures forall r, id :: r in g.migrations && id in DocumentsSelected(g.documents, to) ==>
              g.migrations[r].path != Live(g.documents[id].path)
  {
    hide Like, Under;
    forall r, id | r in g.migrations && id in DocumentsSelected(g.documents, to)
      ensures g.migrations[r].path != Live(g.documents[id].path)
    {
      assert id in DocumentsUnder(g.documents, to);
      assert !OwnsDestination(g.documents, g.migrations[r], to);
    }
  }

  lemma SourceLeftExact(g: Graph, from: Path, to: Path)
    requires NoLookalikes(g.documents, to) && SourceQueryIsExact(g, from, to)
    ensures NoLookalikes(g.documents - DocumentsSelected(g.documents, to), from)
  {
    hide Selected, Under;
    var left := g.documents - DocumentsSelected(g.documents, to);
    forall id | id in left
      ensures Selected(from, left[id].path) <==> Under(from, left[id].path)
    {
      assert id !in DocumentsUnder(g.documents, to);
      if Under(from, left[id].path) {
        UnderIsSelected(from, left[id].path);
      }
    }
  }

  lemma DestinationCleared(left: map<DocId, Document>, from: Path, to: Path)
    requires UniqueDocuments(left) && Siblings(from, to) && NoLookalikes(left, from)
    requires forall id :: id in left ==> !Under(to, left[id].path)
    ensures DocumentsMoveSafe(left, from, to)
  {
    hide Like;
    forall i, j | i in left && j in left && i != j && Selected(from, left[i].path)
      ensures NextPath(left[i].path, from, to) != PlannedPath(left[j].path, from, to)
    {
      assert i in DocumentsUnder(left, from);
      MovedIsUnder(left[i].path, from, to);
      if j in DocumentsUnder(left, from) && MovePath(left[i].path, from, to) == MovePath(left[j].path, from, to) {
        MovePathInjective(left[i].path, left[j].path, from, to);
      }
      assert j in DocumentsSelected(left, from) <==> j in DocumentsUnder(left, from);
    }
  }

  lemma SamePathsMoveSafe(before: map<RowId, Migration>, after: map<RowId, Migration>, from: Path, to: Path)
    requires MigrationsMoveSafe(before, from, to) && after.Keys == before.Keys
    requires forall r :: r in before ==> after[r].path == before[r].path
    ensures MigrationsMoveSafe(after, from, to)
  {
    hide MoveRowPath;
  }

  lemma PredictedExecutionSucceeds(g: Graph, from: Path, to: Path, ts: int)
    requires g.Valid() && Siblings(from, to) && Predictable(g, from, to) && Derivable(g, from, to)
    ensures TombstonesFree(g, to)
    ensures var h := DeletePrefix(g, to, ts);
            NoLookalikes(h.documents, from) && DocumentsMoveSafe(h.documents, from, to)
                && MigrationsMoveSafe(h.migrations, from, to)
  {
    hide Selected, Under, MigrationsMoveSafe;
    NoRowsAtDestination(g, from, to);
    var h := DeletePrefix(g, to, ts);
    SourceLeftExact(g, from, to);
    forall id | id in h.documents
      ensures !Under(to, h.documents[id].path)
    {
      assert id !in DocumentsUnder(g.documents, to);
    }
    DestinationCleared(h.documents, from, to);
    SamePathsMoveSafe(g.migrations, h.migrations, from, to);
  }

  // ---------- the transition ----------

  /** Whether the transition gets from the prepared graph to the derived one: that graph exists, and
      it is the prepared one already or what the two statements leave. */
  ghost predicate Transitions(g: Graph, from: Path, to: Path, ts: int) {
    Derivable(g, from, to) && (Derive(g, from, to, ts) == Some(g) || Predictable(g, from, to))
  }

  /** The immediate transaction of completeFolderMoveV4Metadata. */
  method CompletePrefixTransition(db: MetadataDb, prepared: Graph, from: Path, to: Path,
                                  ts: int) returns (t: Transition)
    requires db.Contents().Valid() && NoMovingRows(db.migrations)
    modifies db
    ensures t != CommittedNow ==> db.Contents() == old(db.Contents())
    ensures t == AlreadyCommitted <==> Derive(prepared, from, to, ts) == Some(old(db.Contents()))
    ensures t == Conflict <==> Derive(prepared, from, to, ts).Some? && old(db.Contents()) != prepared
                               && old(db.Contents()) != Derive(prepared, from, to, ts).value
    ensures t == CommittedNow ==>
              old(db.Contents()) == prepared && Derive(prepared, from, to, ts) == Some(db.Contents())
    ensures (old(db.Contents()) == prepared && Closed(prepared) && Siblings(from, to)
             && ValidPath(from) && ValidPath(to) && Minted(prepared.documents, ts)) ==>
              && (t == AlreadyCommitted || t == CommittedNow <==> Transitions(prepared, from, to, ts))
              && (t != AlreadyCommitted ==>
                    (t == CommittedNow <==> Derivable(prepared, from, to) && Predictable(prepared, from, to)))
  {
    if Closed(prepared) && Siblings(from, to) && ValidPath(from) && Minted(prepared.documents, ts) {
      DeriveSucceeds(prepared, from, to, ts);
      PredictionIsExecution(prepared, from, to, ts);
    }
    hide Derivable, Predictable, Predict, Minted, NoMovingRows, TombstonesFree, Siblings;
    var derived := Derive(prepared, from, to, ts);
    if derived.None? {
      return Failed;
    }
    if db.Contents() == derived.value {
      return AlreadyCommitted;
    }
    if db.Contents() != prepared {
      return Conflict;
    }
    var before := db.Contents();
    var done := DeleteThenMove(db, from, to, ts);
    if !done || db.Contents() != derived.value {
      db.Rollback(before);
      return Failed;
    }
    t := CommittedNow;
  }

  /** A row either keeps its path or gets a tombstone no other row has or gets. */
  lemma DeletedRowPath(g: Graph, prefix: Path, ts: int, r: RowId)
    requires r in g.migrations
    ensures var gone := DocumentsSelected(g.documents, prefix);
            var row := DeletedRow(g.documents, gone, g.migrations[r], ts);
            && (row.document.Some? ==> row.document == g.migrations[r].document && row.document.value !in gone)
            && (row.path == g.migrations[r].path
                 || (row.path.Tombstone? && Owner(g.documents, gone, g.migrations[r], row.path.id)))
  {
    hide Selected;
  }

  lemma DeletedRowsUnique(g: Graph, prefix: Path, ts: int, i: RowId, j: RowId)
    requires g.Valid() && TombstonesFree(g, prefix) && i in g.migrations && j in g.migrations && i != j
    ensures var gone := DocumentsSelected(g.documents, prefix);
            DeletedRow(g.documents, gone, g.migrations[i], ts).path != DeletedRow(g.documents, gone, g.migrations[j],
                ts).path
  {
    hide Selected, DeletedRow, Closed;
    DeletedRowPath(g, prefix, ts, i);
    DeletedRowPath(g, prefix, ts, j);
  }

  lemma DeleteKeepsValid(g: Graph, prefix: Path, ts: int)
    requires g.Valid() && TombstonesFree(g, prefix) && NoMovingRows(g.migrations)
    ensures DeletePrefix(g, prefix, ts).Valid() && NoMovingRows(DeletePrefix(g, prefix, ts).migrations)
  {
    hide Selected, DeletedRow, TombstoneFree;
    var h := DeletePrefix(g, prefix, ts);
    forall r | r in g.migrations
      ensures !h.migrations[r].path.Moving?
      ensures h.migrations[r].document.Some? ==> h.migrations[r].document.value in h.documents
    {
      DeletedRowPath(g, prefix, ts, r);
    }
    forall i, j | i in g.migrations && j in g.migrations && h.migrations[i].path == h.migrations[j].path
      ensures i == j
    {
      if i != j {
        DeletedRowsUnique(g, prefix, ts, i, j);
      }
    }
  }

  method DeleteThenMove(db: MetadataDb, from: Path, to: Path, ts: int) returns (done: bool)
    requires db.Contents().Valid() && NoMovingRows(db.migrations)
    modifies db
    ensures done ==> db.Contents() == Execute(old(db.Contents()), from, to, ts)
    ensures (Siblings(from, to) && ValidPath(from) && ValidPath(to)
             && Predictable(old(db.Contents()), from, to) && Derivable(old(db.Contents()), from, to)) ==>
              done
  {
    hide DeletePrefix, MovePrefix, NoMovingRows, DocumentsMoveSafe, MigrationsMoveSafe, NoLookalikes, TombstonesFree,
         Siblings, Predictable, Derivable;
    ghost var g := db.Contents();
    done := db.DeleteMetadataPrefix(to, ts);
    if Siblings(from, to) && Predictable(g, from, to) && Derivable(g, from, to) {
      PredictedExecutionSucceeds(g, from, to, ts);
    }
    if done {
      DeleteKeepsValid(g, to, ts);
      done := db.MoveMetadataPrefix(from, to, ts);
    }
  }
}
