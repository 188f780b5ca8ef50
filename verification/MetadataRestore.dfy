/** The three-state restore of server/documentMetadata.ts: read the rows a durable footprint owns,
    compare them with the restore and the expected snapshot, and rewrite them in one transaction. */
module MetadataRestore {
  import opened Options
  import opened MetadataGraph

  datatype TagId = TagId(n: nat)
  datatype LinkId = LinkId(n: nat)

  datatype Tag = Tag(name: string, normalized: string)
  datatype Link = Link(document: DocId, tag: TagId)
  datatype Row = Row(document: Option<DocId>, original: Path, rest: string)

  /** documents UNIQUE(path), tags UNIQUE(normalized_name), document_tags with their association
      id, document_embeddings, and metadata_migrations by primary key. */
  datatype Tables = Tables(
    documents: map<DocId, Document>,
    tags: map<TagId, Tag>,
    links: map<LinkId, Link>,
    embeddings: map<DocId, string>,
    migrations: map<RowPath, Row>)

  datatype Footprint = Footprint(
    paths: set<Path>, ids: set<DocId>, tagIds: set<TagId>, migrationPaths: set<RowPath>, originals: set<Path>)

  datatype Outcome = RestoredNow | AlreadyRestored | Conflict | Failed

  predicate UniqueTags(tags: map<TagId, Tag>) {
    forall i, j :: i in tags && j in tags && tags[i].normalized == tags[j].normalized ==> i == j
  }

  predicate UniqueLinks(links: map<LinkId, Link>) {
    forall i, j :: i in links && j in links && links[i] == links[j] ==> i == j
  }

  predicate LinkTaken(links: map<LinkId, Link>, link: Link) {
    exists l :: l in links && links[l] == link
  }

  predicate LinksResolve(links: map<LinkId, Link>, documents: map<DocId, Document>, tags: map<TagId, Tag>) {
    forall l :: l in links ==> links[l].document in documents && links[l].tag in tags
  }

  predicate RowsResolve(migrations: map<RowPath, Row>, documents: map<DocId, Document>) {
    forall p :: p in migrations && migrations[p].document.Some? ==> migrations[p].document.value in documents
  }

  /** The constraints SQLite keeps; for a snapshot, the closed-graph check. */
  predicate Valid(t: Tables) {
    && UniqueDocuments(t.documents) && UniqueTags(t.tags) && UniqueLinks(t.links)
    && LinksResolve(t.links, t.documents, t.tags)
    && t.embeddings.Keys <= t.documents.Keys
    && RowsResolve(t.migrations, t.documents)
  }

  // ---------- the owned rows ----------

  predicate OwnsDocument(fp: Footprint, id: DocId, d: Document) {
    id in fp.ids || d.path in fp.paths
  }

  predicate OwnsRow(fp: Footprint, ids: set<DocId>, p: RowPath, row: Row) {
    || p in fp.migrationPaths
    || row.original in fp.originals
    || (p.Tombstone? && p.id in ids)
    || (row.document.Some? && row.document.value in ids)
  }

  function OwnedDocuments(documents: map<DocId, Document>, fp: Footprint): map<DocId, Document> {
    map id | id in documents && OwnsDocument(fp, id, documents[id]) :: documents[id]
  }

  function OwnedLinks(links: map<LinkId, Link>, ids: set<DocId>): map<LinkId, Link> {
    map l | l in links && links[l].document in ids :: links[l]
  }

  /** snapshotDocumentMetadataOwnership with an explicit footprint. */
  function Owned(t: Tables, fp: Footprint): Tables {
    var documents := OwnedDocuments(t.documents, fp);
    var ids := fp.ids + documents.Keys;
    var links := OwnedLinks(t.links, ids);
    var tagIds := fp.tagIds + set l | l in links :: links[l].tag;
    Tables(
      documents,
      map tag | tag in t.tags && tag in tagIds :: t.tags[tag],
      links,
      map id | id in t.embeddings && id in ids :: t.embeddings[id],
      map p | p in t.migrations && OwnsRow(fp, ids, p, t.migrations[p]) :: t.migrations[p])
  }

  /** What buildMetadataOwnershipFootprint guarantees of either snapshot. */
  predicate Covers(fp: Footprint, snapshot: Tables) {
    && snapshot.documents.Keys <= fp.ids
    && (forall id :: id in snapshot.documents ==> snapshot.documents[id].path in fp.paths)
    && snapshot.tags.Keys <= fp.tagIds
    && (forall l :: l in snapshot.links ==> snapshot.links[l].tag in fp.tagIds)
    && snapshot.migrations.Keys <= fp.migrationPaths
  }

  // ---------- the rewrite as a function ----------

  /** No live document is reached by only one of the footprint's two keys. */
  predicate OwnersInside(documents: map<DocId, Document>, fp: Footprint) {
    forall id :: id in documents && OwnsDocument(fp, id, documents[id]) ==>
          id in fp.ids && documents[id].path in fp.paths
  }

  /** ON DELETE SET NULL has already run when the migration rows are deleted. */
  function Detach(row: Row, ids: set<DocId>): Row {
    if row.document.Some? && row.document.value in ids then row.(document := None) else row
  }

  function DetachedRows(migrations: map<RowPath, Row>, fp: Footprint): map<RowPath, Row> {
    map p | p in migrations && !OwnsRow(fp, fp.ids, p, Detach(migrations[p], fp.ids)) :: Detach(migrations[p], fp.ids)
  }

  function Deleted(t: Tables, fp: Footprint): Tables {
    Tables(
      t.documents - fp.ids,
      t.tags,
      map l | l in t.links && t.links[l].document !in fp.ids :: t.links[l],
      t.embeddings - fp.ids,
      DetachedRows(t.migrations, fp))
  }

  predicate NameTaken(tags: map<TagId, Tag>, name: string) {
    exists tag :: tag in tags && tags[tag].normalized == name
  }

  /** INSERT OR IGNORE. */
  function AddTags(tags: map<TagId, Tag>, rows: map<TagId, Tag>): map<TagId, Tag> {
    tags + map tag | tag in rows && tag !in tags && !NameTaken(tags, rows[tag].normalized) :: rows[tag]
  }

  predicate Referenced(links: map<LinkId, Link>, tag: TagId) {
    exists l :: l in links && links[l].tag == tag
  }

  function KeepTags(tags: map<TagId, Tag>, links: map<LinkId, Link>, created: set<TagId>): map<TagId, Tag> {
    map tag | tag in tags && (tag !in created || Referenced(links, tag)) :: tags[tag]
  }

  /** The plain INSERTs meet no constraint. */
  predicate Fits(t: Tables, snapshot: Tables) {
    && t.documents.Keys !! snapshot.documents.Keys && UniqueDocuments(t.documents + snapshot.documents)
    && t.links.Keys !! snapshot.links.Keys && UniqueLinks(t.links + snapshot.links)
    && LinksResolve(snapshot.links, t.documents + snapshot.documents, AddTags(t.tags, snapshot.tags))
    && t.embeddings.Keys !! snapshot.embeddings.Keys
         && snapshot.embeddings.Keys <= (t.documents + snapshot.documents).Keys
    && t.migrations.Keys !! snapshot.migrations.Keys
    && RowsResolve(snapshot.migrations, t.documents + snapshot.documents)
  }

  function Inserted(t: Tables, snapshot: Tables, created: set<TagId>): Tables {
    var links := t.links + snapshot.links;
    Tables(
      t.documents + snapshot.documents,
      KeepTags(AddTags(t.tags, snapshot.tags), links, created),
      links,
      t.embeddings + snapshot.embeddings,
      t.migrations + snapshot.migrations)
  }

  // ---------- when the restore succeeds ----------

  /** The tags and association ids of the restore snapshot are free, and every other owned tag is a
      created one that no other document uses by now. */
  predicate TagsFit(live: Tables, snapshot: Tables, fp: Footprint, created: set<TagId>) {
    var others := Deleted(live, fp).links;
    && (forall tag :: tag in snapshot.tags && tag in live.tags ==> live.tags[tag] == snapshot.tags[tag])
    && (forall tag, other ::
           tag in snapshot.tags && other in live.tags
               && live.tags[other].normalized == snapshot.tags[tag].normalized ==>
          other == tag)
    && (forall tag :: tag in live.tags && tag in fp.tagIds && tag !in snapshot.tags ==>
          tag in created && !Referenced(others, tag))
    && (forall tag :: tag in snapshot.tags && tag in created ==>
          Referenced(others, tag) || Referenced(snapshot.links, tag))
    && (forall l :: l in snapshot.links ==> l !in others)
  }

  lemma ExpectedOwnersInside(live: Tables, expected: Tables, fp: Footprint)
    requires Covers(fp, expected) && Owned(live, fp) == expected
    ensures OwnersInside(live.documents, fp)
    ensures forall id :: id in live.documents && live.documents[id].path in fp.paths ==> id in fp.ids
    ensures fp.ids + expected.documents.Keys == fp.ids
  {
    assert expected.documents == OwnedDocuments(live.documents, fp);
    forall id | id in live.documents && OwnsDocument(fp, id, live.documents[id])
      ensures id in fp.ids && live.documents[id].path in fp.paths
    {
      assert id in expected.documents;
    }
  }

  lemma RowsCleared(live: Tables, expected: Tables, fp: Footprint)
    requires Covers(fp, expected) && Owned(live, fp) == expected
    ensures forall p :: p in live.migrations && p !in expected.migrations ==>
              Detach(live.migrations[p], fp.ids) == live.migrations[p]
    ensures DetachedRows(live.migrations, fp) == live.migrations - expected.migrations.Keys
    ensures forall p :: p in DetachedRows(live.migrations, fp) ==> p !in fp.migrationPaths
  {
    ExpectedOwnersInside(live, expected, fp);
    assert expected.migrations
        == map p | p in live.migrations && OwnsRow(fp, fp.ids, p, live.migrations[p]) :: live.migrations[p];
  }

  /** From the expected rows the deletions leave room for every row of the snapshot but its tags
      and its association ids. */
  lemma DocumentsAndRowsFit(live: Tables, expected: Tables, snapshot: Tables, fp: Footprint)
    requires Valid(live) && Valid(snapshot) && Covers(fp, expected) && Covers(fp, snapshot)
    requires Owned(live, fp) == expected
    ensures var t := Deleted(live, fp);
            && t.documents.Keys !! snapshot.documents.Keys && UniqueDocuments(t.documents + snapshot.documents)
            && t.embeddings.Keys !! snapshot.embeddings.Keys
                 && snapshot.embeddings.Keys <= (t.documents + snapshot.documents).Keys
            && t.migrations.Keys !! snapshot.migrations.Keys
            && RowsResolve(snapshot.migrations, t.documents + snapshot.documents)
  {
    ExpectedOwnersInside(live, expected, fp);
    RowsCleared(live, expected, fp);
  }

  lemma LinksFit(live: Tables, expected: Tables, snapshot: Tables, fp: Footprint)
    requires Valid(live) && Valid(snapshot) && Covers(fp, snapshot)
    ensures var t := Deleted(live, fp);
            t.links.Keys !! snapshot.links.Keys ==> UniqueLinks(t.links + snapshot.links)
  {
    var t := Deleted(live, fp);
    if t.links.Keys !! snapshot.links.Keys {
      var all := t.links + snapshot.links;
      forall i, j | i in all && j in all && all[i] == all[j]
        ensures i == j
      {
        assert i in snapshot.links <==> all[i].document in fp.ids;
        assert j in snapshot.links <==> all[j].document in fp.ids;
      }
    }
  }

  /** The tags an ownership read finds after the rewrite. */
  function OwnedTags(tags: map<TagId, Tag>, rows: map<TagId, Tag>, links: map<LinkId, Link>, tagIds: set<TagId>,
                     created: set<TagId>): map<TagId, Tag> {
    var kept := KeepTags(AddTags(tags, rows), links, created);
    map tag | tag in kept && tag in tagIds :: kept[tag]
  }

  /** Read again after the rewrite, everything owned but the tags is the snapshot's. */
  lemma OwnedAfter(live: Tables, expected: Tables, snapshot: Tables, fp: Footprint, created: set<TagId>)
    requires Valid(snapshot) && Covers(fp, expected) && Covers(fp, snapshot) && Owned(live, fp) == expected
    requires Fits(Deleted(live, fp), snapshot)
    ensures var restored := Inserted(Deleted(live, fp), snapshot, created);
            var after := Owned(restored, fp);
            && after.documents == snapshot.documents && after.links == snapshot.links
            && after.embeddings == snapshot.embeddings && after.migrations == snapshot.migrations
            && after.tags == OwnedTags(live.tags, snapshot.tags, restored.links, fp.tagIds, created)
  {
    hide Valid, Covers, Fits, AddTags, KeepTags, DetachedRows, OwnsRow, OwnedDocuments, OwnedLinks;
    DocumentsOwnedAfter(live, expected, snapshot, fp);
    LinksOwnedAfter(live, snapshot, fp);
    RowsOwnedAfter(live, expected, snapshot, fp);
  }

  lemma DocumentsOwnedAfter(live: Tables, expected: Tables, snapshot: Tables, fp: Footprint)
    requires Valid(snapshot) && Covers(fp, expected) && Covers(fp, snapshot) && Owned(live, fp) == expected
    ensures OwnedDocuments(live.documents - fp.ids + snapshot.documents, fp) == snapshot.documents
    ensures fp.ids + snapshot.documents.Keys == fp.ids
    ensures var embeddings := live.embeddings - fp.ids + snapshot.embeddings;
            (map id | id in embeddings && id in fp.ids :: embeddings[id]) == snapshot.embeddings
  {
    hide UniqueDocuments, UniqueTags, UniqueLinks, LinksResolve, RowsResolve, OwnsRow;
    ExpectedOwnersInside(live, expected, fp);
  }

  lemma LinksOwnedAfter(live: Tables, snapshot: Tables, fp: Footprint)
    requires Valid(snapshot) && Covers(fp, snapshot)
    ensures OwnedLinks(Deleted(live, fp).links + snapshot.links, fp.ids) == snapshot.links
    ensures fp.tagIds + (set l | l in snapshot.links :: snapshot.links[l].tag) == fp.tagIds
  {
  }

  lemma RowsOwnedAfter(live: Tables, expected: Tables, snapshot: Tables, fp: Footprint)
    requires Covers(fp, expected) && Covers(fp, snapshot) && Owned(live, fp) == expected
    ensures var rows := DetachedRows(live.migrations, fp) + snapshot.migrations;
            (map p | p in rows && OwnsRow(fp, fp.ids, p, rows[p]) :: rows[p]) == snapshot.migrations
  {
    RowsCleared(live, expected, fp);
    var rows := DetachedRows(live.migrations, fp) + snapshot.migrations;
    forall p | p in rows
      ensures OwnsRow(fp, fp.ids, p, rows[p]) <==> p in snapshot.migrations
    {
      if p !in snapshot.migrations {
        assert p in DetachedRows(live.migrations, fp);
      }
    }
  }

  lemma TagsAfter(live: Tables, snapshot: Tables, fp: Footprint, created: set<TagId>)
    requires Valid(live) && Valid(snapshot) && Covers(fp, snapshot)
    requires forall l :: l in snapshot.links ==> l !in Deleted(live, fp).links
    ensures OwnedTags(live.tags, snapshot.tags, Deleted(live, fp).links + snapshot.links, fp.tagIds, created)
              == snapshot.tags
            <==> TagsFit(live, snapshot, fp, created)
  {
    hide Valid, Covers, Deleted, OwnedTags, TagsFit;
    if OwnedTags(live.tags, snapshot.tags, Deleted(live, fp).links + snapshot.links, fp.tagIds, created)
        == snapshot.tags {
      TagsObserved(live, snapshot, fp, created);
    }
    if TagsFit(live, snapshot, fp, created) {
      TagsRestored(live, snapshot, fp, created);
    }
  }

  lemma TagsObserved(live: Tables, snapshot: Tables, fp: Footprint, created: set<TagId>)
    requires Valid(live) && Valid(snapshot) && Covers(fp, snapshot)
    requires forall l :: l in snapshot.links ==> l !in Deleted(live, fp).links
    requires OwnedTags(live.tags, snapshot.tags, Deleted(live, fp).links + snapshot.links, fp.tagIds, created)
               == snapshot.tags
    ensures TagsFit(live, snapshot, fp, created)
  {
    hide OwnedTags, Deleted, Referenced, UniqueTags, UniqueDocuments, UniqueLinks, LinksResolve, RowsResolve;
    var others := Deleted(live, fp).links;
    forall tag | tag in snapshot.tags
      ensures tag in live.tags ==> live.tags[tag] == snapshot.tags[tag]
      ensures tag in created ==> Referenced(others, tag) || Referenced(snapshot.links, tag)
      ensures forall other :: other in live.tags && live.tags[other].normalized == snapshot.tags[tag].normalized ==>
                other == tag
    {
      TagObserved(live.tags, snapshot.tags, others + snapshot.links, fp.tagIds, created, tag);
      ReferencedInUnion(others, snapshot.links, tag);
    }
    forall tag | tag in live.tags && tag in fp.tagIds && tag !in snapshot.tags
      ensures tag in created && !Referenced(others, tag)
    {
      OtherTagGone(live.tags, snapshot.tags, others + snapshot.links, fp.tagIds, created, tag);
      ReferencedInUnion(others, snapshot.links, tag);
    }
  }

  lemma TagObserved(tags: map<TagId, Tag>, rows: map<TagId, Tag>, links: map<LinkId, Link>, tagIds: set<TagId>,
                    created: set<TagId>, tag: TagId)
    requires UniqueTags(tags) && OwnedTags(tags, rows, links, tagIds, created) == rows && tag in rows
    ensures tag in tags ==> tags[tag] == rows[tag]
    ensures tag in created ==> Referenced(links, tag)
    ensures forall other :: other in tags && tags[other].normalized == rows[tag].normalized ==> other == tag
  {
    hide Referenced;
    assert tag in OwnedTags(tags, rows, links, tagIds, created);
    assert tag in AddTags(tags, rows);
  }

  lemma OtherTagGone(tags: map<TagId, Tag>, rows: map<TagId, Tag>, links: map<LinkId, Link>, tagIds: set<TagId>,
                     created: set<TagId>, tag: TagId)
    requires OwnedTags(tags, rows, links, tagIds, created) == rows && tag !in rows && tag in tags && tag in tagIds
    ensures tag in created && !Referenced(links, tag)
  {
    hide Referenced;
    assert tag !in OwnedTags(tags, rows, links, tagIds, created);
    assert tag in AddTags(tags, rows);
  }

  lemma ReferencedInUnion(others: map<LinkId, Link>, links: map<LinkId, Link>, tag: TagId)
    requires forall l :: l in links ==> l !in others
    ensures Referenced(others + links, tag) <==> Referenced(others, tag) || Referenced(links, tag)
  {
    var all := others + links;
    if l :| l in others && others[l].tag == tag {
      assert l in all && all[l].tag == tag;
    } else if l :| l in links && links[l].tag == tag {
      assert l in all && all[l].tag == tag;
    }
  }

  lemma TagsRestored(live: Tables, snapshot: Tables, fp: Footprint, created: set<TagId>)
    requires Valid(live) && Valid(snapshot) && Covers(fp, snapshot) && TagsFit(live, snapshot, fp, created)
    ensures OwnedTags(live.tags, snapshot.tags, Deleted(live, fp).links + snapshot.links, fp.tagIds, created)
              == snapshot.tags
  {
    hide UniqueDocuments, UniqueLinks, RowsResolve, DetachedRows;
    var others := Deleted(live, fp).links;
    var links := others + snapshot.links;
    var added := AddTags(live.tags, snapshot.tags);
    var tags := KeepTags(added, links, created);
    forall tag
      ensures tag in tags && tag in fp.tagIds <==> tag in snapshot.tags
      ensures tag in snapshot.tags ==> tag in tags && tags[tag] == snapshot.tags[tag]
    {
      ReferencedInUnion(others, snapshot.links, tag);
      if tag in snapshot.tags {
        assert tag in added && added[tag] == snapshot.tags[tag];
      } else if tag in live.tags {
        assert !Referenced(snapshot.links, tag);
      }
    }
  }

  /** From the expected rows the rewrite yields exactly the restore snapshot, or fails; which of
      the two depends on the tags and association ids alone. */
  lemma RestoreYieldsSnapshot(live: Tables, expected: Tables, snapshot: Tables, fp: Footprint, created: set<TagId>)
    requires Valid(live) && Valid(snapshot) && Covers(fp, expected) && Covers(fp, snapshot)
    requires Owned(live, fp) == expected
    ensures OwnersInside(live.documents, fp)
    ensures Fits(Deleted(live, fp), snapshot) && Owned(Inserted(Deleted(live, fp), snapshot, created), fp) == snapshot
            <==> TagsFit(live, snapshot, fp, created)
  {
    hide Owned, UniqueDocuments, UniqueTags, UniqueLinks, RowsResolve, LinksResolve, OwnersInside, OwnedTags, AddTags,
         Covers, TagsFit, Valid;
    ExpectedOwnersInside(live, expected, fp);
    DocumentsAndRowsFit(live, expected, snapshot, fp);
    LinksFit(live, expected, snapshot, fp);
    TagsFitNeedsFreeLinks(live, snapshot, fp, created);
    if forall l :: l in snapshot.links ==> l !in Deleted(live, fp).links {
      TagsAfter(live, snapshot, fp, created);
    }
    if Fits(Deleted(live, fp), snapshot) {
      OwnedAfter(live, expected, snapshot, fp, created);
    }
  }

  lemma TagsFitNeedsFreeLinks(live: Tables, snapshot: Tables, fp: Footprint, created: set<TagId>)
    requires Valid(live) && Valid(snapshot) && Covers(fp, snapshot)
    ensures TagsFit(live, snapshot, fp, created) ==>
              (forall l :: l in snapshot.links ==> l !in Deleted(live, fp).links)
              && LinksResolve(snapshot.links, Deleted(live, fp).documents + snapshot.documents,
                   AddTags(live.tags, snapshot.tags))
  {
    hide UniqueDocuments, UniqueLinks, RowsResolve, DetachedRows, Referenced;
    if TagsFit(live, snapshot, fp, created) {
      forall tag | tag in snapshot.tags
        ensures tag in AddTags(live.tags, snapshot.tags)
      {
      }
    }
  }

  // ---------- what the rewrite keeps ----------

  lemma RestoredValid(live: Tables, snapshot: Tables, fp: Footprint, created: set<TagId>)
    requires Valid(live) && UniqueTags(snapshot.tags) && Fits(Deleted(live, fp), snapshot)
    ensures Valid(Inserted(Deleted(live, fp), snapshot, created))
  {
    hide UniqueDocuments, UniqueLinks, DetachedRows, OwnsRow, UniqueTags, AddTags, KeepTags;
    var t := Deleted(live, fp);
    var restored := Inserted(t, snapshot, created);
    TagsStayUnique(live.tags, snapshot.tags, restored.links, created);
    forall p | p in t.migrations && t.migrations[p].document.Some?
      ensures t.migrations[p].document.value in t.documents
    {
      DetachedResolve(live, fp, p);
    }
    forall l | l in restored.links
      ensures restored.links[l].document in restored.documents && restored.links[l].tag in restored.tags
    {
      ReferencedTagStays(live.tags, snapshot.tags, restored.links, created, l);
    }
  }

  lemma TagsStayUnique(tags: map<TagId, Tag>, rows: map<TagId, Tag>, links: map<LinkId, Link>, created: set<TagId>)
    requires UniqueTags(tags) && UniqueTags(rows)
    ensures UniqueTags(KeepTags(AddTags(tags, rows), links, created))
  {
    hide Referenced;
  }

  lemma ReferencedTagStays(tags: map<TagId, Tag>, rows: map<TagId, Tag>, links: map<LinkId, Link>, created: set<TagId>,
                           l: LinkId)
    requires l in links
    ensures links[l].tag in AddTags(tags, rows) ==> links[l].tag in KeepTags(AddTags(tags, rows), links, created)
    ensures tags.Keys <= AddTags(tags, rows).Keys
  {
    assert Referenced(links, links[l].tag);
  }

  lemma DetachedResolve(live: Tables, fp: Footprint, p: RowPath)
    requires Valid(live) && p in DetachedRows(live.migrations, fp)
    requires DetachedRows(live.migrations, fp)[p].document.Some?
    ensures DetachedRows(live.migrations, fp)[p].document.value in live.documents
    ensures DetachedRows(live.migrations, fp)[p].document.value !in fp.ids
  {
  }

  /** Rows the footprint does not own stay as they were. */
  ghost predicate OutsideKept(before: Tables, after: Tables, fp: Footprint) {
    && after.documents - fp.ids == before.documents - fp.ids
    && after.embeddings - fp.ids == before.embeddings - fp.ids
    && (forall l :: l in before.links && before.links[l].document !in fp.ids ==>
          l in after.links && after.links[l] == before.links[l])
    && (forall l :: l in after.links && after.links[l].document !in fp.ids ==>
          l in before.links && before.links[l] == after.links[l])
    && after.migrations - Owned(after, fp).migrations.Keys == before.migrations - Owned(before, fp).migrations.Keys
  }

  /** A tag stays unless it is a created one nobody uses, and the only new tags are the snapshot's. */
  ghost predicate TagsKept(before: Tables, after: Tables, snapshot: Tables, created: set<TagId>) {
    && (forall tag :: tag in before.tags && (tag !in created || Referenced(after.links, tag)) ==>
          tag in after.tags && after.tags[tag] == before.tags[tag])
    && (forall tag :: tag in after.tags ==>
          (tag in before.tags && before.tags[tag] == after.tags[tag]) || tag in snapshot.tags)
  }

  lemma RestoreKeepsTags(live: Tables, snapshot: Tables, fp: Footprint, created: set<TagId>)
    ensures TagsKept(live, Inserted(Deleted(live, fp), snapshot, created), snapshot, created)
  {
    hide NameTaken, Referenced, DetachedRows;
  }

  lemma RestoreKeepsOutside(live: Tables, expected: Tables, snapshot: Tables, fp: Footprint, created: set<TagId>)
    requires Valid(snapshot) && Covers(fp, expected) && Covers(fp, snapshot) && Owned(live, fp) == expected
    requires Fits(Deleted(live, fp), snapshot)
    ensures OutsideKept(live, Inserted(Deleted(live, fp), snapshot, created), fp)
  {
    hide Valid, Fits, OwnsRow, Owned, OwnedTags, KeepTags, AddTags, DetachedRows;
    OwnedAfter(live, expected, snapshot, fp, created);
    RowsCleared(live, expected, fp);
    OutsideDocumentsKept(live, snapshot, fp);
    assert DetachedRows(live.migrations, fp) + snapshot.migrations - snapshot.migrations.Keys
             == DetachedRows(live.migrations, fp);
  }

  lemma OutsideDocumentsKept(live: Tables, snapshot: Tables, fp: Footprint)
    requires Valid(snapshot) && Covers(fp, snapshot) && Fits(Deleted(live, fp), snapshot)
    ensures live.documents - fp.ids + snapshot.documents - fp.ids == live.documents - fp.ids
    ensures live.embeddings - fp.ids + snapshot.embeddings - fp.ids == live.embeddings - fp.ids
    ensures var links := Deleted(live, fp).links + snapshot.links;
            && (forall l :: l in live.links && live.links[l].document !in fp.ids ==>
                  l in links && links[l] == live.links[l])
            && (forall l :: l in links && links[l].document !in fp.ids ==> l in live.links && live.links[l] == links[l])
    ensures forall p :: p in snapshot.migrations ==> p !in DetachedRows(live.migrations, fp)
  {
    hide UniqueDocuments, UniqueTags, UniqueLinks, RowsResolve, DetachedRows, AddTags;
  }

  // ---------- the tables in place ----------

  class RestoreDb {
    var documents: map<DocId, Document>
    var tags: map<TagId, Tag>
    var links: map<LinkId, Link>
    var embeddings: map<DocId, string>
    var migrations: map<RowPath, Row>

    function Contents(): Tables
      reads this
    {
      Tables(documents, tags, links, embeddings, migrations)
    }

    method Rollback(before: Tables)
      modifies this
      ensures Contents() == before
    {
      documents, tags, links := before.documents, before.tags, before.links;
      embeddings, migrations := before.embeddings, before.migrations;
    }

    /** The owner check and the deletions; the owner check fails on contention. */
    method DeleteFootprint(fp: Footprint) returns (ok: bool)
      modifies this
      ensures ok <==> OwnersInside(old(documents), fp)
      ensures Contents() == if ok then Deleted(old(Contents()), fp) else old(Contents())
    {
      var rest := documents.Keys;
      while rest != {}
        invariant rest <= documents.Keys
        invariant forall id :: id in documents && id !in rest && OwnsDocument(fp, id, documents[id]) ==>
                    id in fp.ids && documents[id].path in fp.paths
        decreases rest
      {
        var id :| id in rest;
        if OwnsDocument(fp, id, documents[id]) && (id !in fp.ids || documents[id].path !in fp.paths) {
          return false;
        }
        rest := rest - {id};
      }
      links := map l | l in links && links[l].document !in fp.ids :: links[l];
      embeddings := embeddings - fp.ids;
      documents := documents - fp.ids;
      migrations := map p | p in migrations :: Detach(migrations[p], fp.ids);
      migrations := map p | p in migrations && !OwnsRow(fp, fp.ids, p, migrations[p]) :: migrations[p];
      ok := true;
    }

    method InsertDocuments(rows: map<DocId, Document>) returns (ok: bool)
      requires UniqueDocuments(documents)
      modifies this`documents
      ensures ok <==> old(documents).Keys !! rows.Keys && UniqueDocuments(old(documents) + rows)
      ensures ok ==> documents == old(documents) + rows
    {
      hide UniqueDocuments, Part;
      ghost var before := documents;
      var rest := rows.Keys;
      PartEnds(rows);
      while rest != {}
        invariant rest <= rows.Keys
        invariant documents == before + Part(rows, rest) && UniqueDocuments(documents)
        invariant forall id :: id in rows && id !in rest ==> id !in before
        decreases rest
      {
        var id :| id in rest;
        PartNext(before, rows, rest, id);
        DocumentInsert(before, rows, rest, id);
        if id in documents || exists other :: other in documents && documents[other].path == rows[id].path {
          return false;
        }
        documents := documents[id := rows[id]];
        rest := rest - {id};
      }
      ok := true;
    }

    /** INSERT OR IGNORE, row by row. */
    method InsertTags(rows: map<TagId, Tag>)
      requires UniqueTags(rows)
      modifies this`tags
      ensures tags == AddTags(old(tags), rows)
    {
      hide Part;
      ghost var before := tags;
      var rest := rows.Keys;
      PartEnds(rows);
      assert AddTags(before, map[]) == before;
      while rest != {}
        invariant rest <= rows.Keys
        invariant tags == AddTags(before, Part(rows, rest))
        decreases rest
      {
        var tag :| tag in rest;
        TagInsert(before, rows, rest, tag);
        if tag !in tags && !NameTaken(tags, rows[tag].normalized) {
          tags := tags[tag := rows[tag]];
        }
        rest := rest - {tag};
      }
    }

    method InsertLinks(rows: map<LinkId, Link>) returns (ok: bool)
      requires UniqueLinks(links)
      modifies this`links
      ensures ok <==>
                old(links).Keys !! rows.Keys && UniqueLinks(old(links) + rows) && LinksResolve(rows, documents, tags)
      ensures ok ==> links == old(links) + rows
    {
      hide UniqueLinks, LinkTaken, Part;
      ghost var before := links;
      var rest := rows.Keys;
      PartEnds(rows);
      while rest != {}
        invariant rest <= rows.Keys
        invariant links == before + Part(rows, rest) && UniqueLinks(links)
        invariant forall l :: l in rows && l !in rest ==>
                  l !in before && rows[l].document in documents && rows[l].tag in tags
        decreases rest
      {
        var l :| l in rest;
        PartNext(before, rows, rest, l);
        LinkInsert(before, rows, rest, l);
        if l in links || LinkTaken(links, rows[l]) || rows[l].document !in documents || rows[l].tag !in tags {
          return false;
        }
        links := links[l := rows[l]];
        rest := rest - {l};
      }
      ok := true;
    }

    method InsertEmbeddings(rows: map<DocId, string>) returns (ok: bool)
      modifies this`embeddings
      ensures ok <==> old(embeddings).Keys !! rows.Keys && rows.Keys <= documents.Keys
      ensures ok ==> embeddings == old(embeddings) + rows
    {
      hide Part;
      ghost var before := embeddings;
      var rest := rows.Keys;
      PartEnds(rows);
      while rest != {}
        invariant rest <= rows.Keys
        invariant embeddings == before + Part(rows, rest)
        invariant forall id :: id in rows && id !in rest ==> id !in before && id in documents
        decreases rest
      {
        var id :| id in rest;
        PartNext(before, rows, rest, id);
        if id in embeddings || id !in documents {
          return false;
        }
        embeddings := embeddings[id := rows[id]];
        rest := rest - {id};
      }
      ok := true;
    }

    method InsertMigrations(rows: map<RowPath, Row>) returns (ok: bool)
      modifies this`migrations
      ensures ok <==> old(migrations).Keys !! rows.Keys && RowsResolve(rows, documents)
      ensures ok ==> migrations == old(migrations) + rows
    {
      hide Part;
      ghost var before := migrations;
      var rest := rows.Keys;
      PartEnds(rows);
      while rest != {}
        invariant rest <= rows.Keys
        invariant migrations == before + Part(rows, rest)
        invariant forall p :: p in rows && p !in rest ==> p !in before && (rows[p].document.Some? ==>
                  rows[p].document.value in documents)
        decreases rest
      {
        var p :| p in rest;
        PartNext(before, rows, rest, p);
        if p in migrations || (rows[p].document.Some? && rows[p].document.value !in documents) {
          return false;
        }
        migrations := migrations[p := rows[p]];
        rest := rest - {p};
      }
      ok := true;
    }

    /** restoreDocumentMetadataMutationWithinFootprint; a failure leaves the rollback to the
        surrounding transaction. */
    method RestoreWithinFootprint(snapshot: Tables, fp: Footprint, created: set<TagId>) returns (ok: bool)
      requires Valid(Contents()) && UniqueTags(snapshot.tags)
      modifies this
      ensures ok <==> OwnersInside(old(documents), fp) && Fits(Deleted(old(Contents()), fp), snapshot)
      ensures ok ==> Contents() == Inserted(Deleted(old(Contents()), fp), snapshot, created)
    {
      hide OwnersInside, DetachedRows, AddTags, LinksResolve, RowsResolve;
      ok := DeleteFootprint(fp);
      if !ok { return; }
      ok := InsertDocuments(snapshot.documents);
      if !ok { return; }
      InsertTags(snapshot.tags);
      ok := InsertLinks(snapshot.links);
      if !ok { return; }
      ok := InsertEmbeddings(snapshot.embeddings);
      if !ok { return; }
      ok := InsertMigrations(snapshot.migrations);
      if !ok { return; }
      tags := map tag | tag in tags && (tag !in created || Referenced(links, tag)) :: tags[tag];
    }

    /** restoreDocumentMetadataMutationCASIdempotent. */
    method RestoreCas(snapshot: Tables, expected: Tables, fp: Footprint, created: set<TagId>) returns (o: Outcome)
      requires Valid(Contents()) && UniqueTags(snapshot.tags)
      modifies this
      ensures Valid(Contents())
      ensures o != RestoredNow ==> Contents() == old(Contents())
      ensures o == AlreadyRestored <==> Owned(old(Contents()), fp) == snapshot
      ensures o == Conflict <==> Owned(old(Contents()), fp) != snapshot && Owned(old(Contents()), fp) != expected
      ensures o == RestoredNow ==>
                Owned(Contents(), fp) == snapshot && TagsKept(old(Contents()), Contents(), snapshot, created)
      ensures Valid(snapshot) && Covers(fp, expected) && Covers(fp, snapshot) && (o == RestoredNow || o == Failed) ==>
                && (o == RestoredNow <==> TagsFit(old(Contents()), snapshot, fp, created))
                && OutsideKept(old(Contents()), Contents(), fp)
    {
      hide Owned, Fits, Inserted, Deleted, TagsFit, Covers, OwnersInside, TagsKept, OutsideKept, UniqueTags, Valid;
      var before := Contents();
      var current := Owned(Contents(), fp);
      if current == snapshot {
        return AlreadyRestored;
      }
      if current != expected {
        return Conflict;
      }
      if Valid(snapshot) && Covers(fp, expected) && Covers(fp, snapshot) {
        RestoreYieldsSnapshot(before, expected, snapshot, fp, created);
        if Fits(Deleted(before, fp), snapshot) {
          RestoreKeepsOutside(before, expected, snapshot, fp, created);
        }
      }
      var ok := RestoreWithinFootprint(snapshot, fp, created);
      if !ok || Owned(Contents(), fp) != snapshot {
        Rollback(before);
        KeptByRollback(before, fp);
        return Failed;
      }
      RestoredValid(before, snapshot, fp, created);
      RestoreKeepsTags(before, snapshot, fp, created);
      o := RestoredNow;
    }

    /** The call repeated by the next recovery of the same journal. */
    method RestoreAgain(snapshot: Tables, expected: Tables, fp: Footprint,
                        created: set<TagId>) returns (first: Outcome, second: Outcome)
      requires Valid(Contents()) && UniqueTags(snapshot.tags)
      modifies this
      ensures first == RestoredNow || first == AlreadyRestored ==>
                second == AlreadyRestored && Owned(Contents(), fp) == snapshot
      ensures first == Conflict ==> second == Conflict
    {
      hide Owned, Valid, UniqueTags, TagsKept, OutsideKept, TagsFit, Covers;
      first := RestoreCas(snapshot, expected, fp, created);
      second := RestoreCas(snapshot, expected, fp, created);
    }
  }

  lemma KeptByRollback(before: Tables, fp: Footprint)
    ensures OutsideKept(before, before, fp)
  {
  }

  // ---------- the insertion loops ----------

  /** The rows inserted so far. */
  function Part<K, V>(rows: map<K, V>, rest: set<K>): map<K, V> {
    map k | k in rows && k !in rest :: rows[k]
  }

  lemma PartEnds<K, V>(rows: map<K, V>)
    ensures Part(rows, rows.Keys) == map[] && Part(rows, {}) == rows
  {
  }

  lemma PartNext<K, V>(before: map<K, V>, rows: map<K, V>, rest: set<K>, k: K)
    requires k in rest && k in rows
    ensures before + Part(rows, rest - {k}) == (before + Part(rows, rest))[k := rows[k]]
    ensures k in before + Part(rows, rest) <==> k in before
  {
  }

  lemma DocumentInsert(before: map<DocId, Document>, rows: map<DocId, Document>, rest: set<DocId>, id: DocId)
    requires id in rest && id in rows && UniqueDocuments(before + Part(rows, rest))
    requires forall k :: k in rows && k !in rest ==> k !in before
    ensures var now := before + Part(rows, rest);
            if exists other :: other in now && now[other].path == rows[id].path
            then !(before.Keys !! rows.Keys && UniqueDocuments(before + rows))
            else UniqueDocuments(now[id := rows[id]])
  {
    var now := before + Part(rows, rest);
    if other :| other in now && now[other].path == rows[id].path {
      if before.Keys !! rows.Keys {
        assert (before + rows)[other] == now[other] && (before + rows)[id] == rows[id];
      }
    }
  }

  lemma LinkInsert(before: map<LinkId, Link>, rows: map<LinkId, Link>, rest: set<LinkId>, l: LinkId)
    requires l in rest && l in rows && UniqueLinks(before + Part(rows, rest))
    requires forall k :: k in rows && k !in rest ==> k !in before
    ensures var now := before + Part(rows, rest);
            if LinkTaken(now, rows[l])
            then !(before.Keys !! rows.Keys && UniqueLinks(before + rows))
            else UniqueLinks(now[l := rows[l]])
  {
    var now := before + Part(rows, rest);
    if other :| other in now && now[other] == rows[l] {
      if before.Keys !! rows.Keys {
        assert other in before + rows && (before + rows)[other] == (before + rows)[l];
      }
    } else {
      var next := now[l := rows[l]];
      forall i, j | i in next && j in next && next[i] == next[j]
        ensures i == j
      {
        assert i != l ==> now[i] != rows[l];
        assert j != l ==> now[j] != rows[l];
      }
    }
  }

  lemma TagInsert(before: map<TagId, Tag>, rows: map<TagId, Tag>, rest: set<TagId>, tag: TagId)
    requires UniqueTags(rows) && tag in rest && tag in rows
    ensures var now := AddTags(before, Part(rows, rest));
            AddTags(before, Part(rows, rest - {tag}))
            == if tag !in now && !NameTaken(now, rows[tag].normalized) then now[tag := rows[tag]] else now
  {
    hide NameTaken, AddTags;
    TakenBefore(before, rows, rest, tag);
    TagKnownBefore(before, rows, rest, tag);
    assert Part(rows, rest - {tag}) == Part(rows, rest)[tag := rows[tag]];
    AddOneTag(before, Part(rows, rest), tag, rows[tag]);
  }

  lemma TagKnownBefore(before: map<TagId, Tag>, rows: map<TagId, Tag>, rest: set<TagId>, tag: TagId)
    requires tag in rest
    ensures tag in AddTags(before, Part(rows, rest)) <==> tag in before
  {
    hide NameTaken;
  }

  lemma AddOneTag(before: map<TagId, Tag>, part: map<TagId, Tag>, tag: TagId, row: Tag)
    requires tag !in part
    ensures AddTags(before, part[tag := row])
            == if tag !in before && !NameTaken(before, row.normalized) then AddTags(before, part)[tag := row]
               else AddTags(before, part)
  {
    hide NameTaken;
  }

  /** Distinct names: the rows inserted so far do not take this row's. */
  lemma TakenBefore(before: map<TagId, Tag>, rows: map<TagId, Tag>, rest: set<TagId>, tag: TagId)
    requires UniqueTags(rows) && tag in rest && tag in rows
    ensures NameTaken(AddTags(before, Part(rows, rest)), rows[tag].normalized) <==>
              NameTaken(before, rows[tag].normalized)
  {
    var now := AddTags(before, Part(rows, rest));
    if other :| other in before && before[other].normalized == rows[tag].normalized {
      assert other in now && now[other].normalized == rows[tag].normalized;
    }
  }
}
