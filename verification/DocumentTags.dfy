/** The two writers of one document's tags in server/documentMetadata.ts: the set difference, which
    keeps the association row of every tag that stays, and the full replacement. */
module DocumentTags {
  import opened Options

  type DocId = string
  datatype TagId = TagId(n: nat)
  datatype LinkId = LinkId(n: nat)

  datatype Tag = Tag(name: string, identity: string)
  datatype Link = Link(document: DocId, tag: TagId)

  /** The identities a document carries. */
  ghost predicate Carries(tags: map<TagId, Tag>, links: map<LinkId, Link>, d: DocId, identity: string) {
    exists l :: l in links && links[l].document == d && links[l].tag in tags && tags[links[l].tag].identity == identity
  }

  function Rows(links: map<LinkId, Link>, d: DocId): set<LinkId> {
    set l | l in links && links[l].document == d
  }

  ghost predicate Requests(requested: seq<Tag>, identity: string) {
    exists i :: 0 <= i < |requested| && requested[i].identity == identity
  }

  /** normalizeAndDedupeTags leaves one entry per identity. */
  ghost predicate Deduped(requested: seq<Tag>) {
    forall i, j :: 0 <= i < j < |requested| ==> requested[i].identity != requested[j].identity
  }

  datatype SetDiff = SetDiff(kept: set<LinkId>, added: set<LinkId>, removed: set<LinkId>)

  class TagTables {
    var tags: map<TagId, Tag>
    var links: map<LinkId, Link>
    /** AUTOINCREMENT: ids from here on have never been used. */
    var nextTag: nat
    var nextLink: nat

    ghost predicate Valid()
      reads this
    {
      && (forall i, j :: i in tags && j in tags && tags[i].identity == tags[j].identity ==> i == j)
      && (forall i, j :: i in links && j in links && links[i] == links[j] ==> i == j)
      && (forall l :: l in links ==> links[l].tag in tags && l.n < nextLink)
      && (forall t :: t in tags ==> t.n < nextTag)
    }

    method FindTag(identity: string) returns (found: Option<TagId>)
      ensures found.Some? ==> found.value in tags && tags[found.value].identity == identity
      ensures found.None? ==> forall t :: t in tags ==> tags[t].identity != identity
    {
      var rest := tags.Keys;
      while rest != {}
        invariant rest <= tags.Keys
        invariant forall t :: t in tags && t !in rest ==> tags[t].identity != identity
        decreases rest
      {
        var t :| t in rest;
        if tags[t].identity == identity {
          return Some(t);
        }
        rest := rest - {t};
      }
      return None;
    }

    /** INSERT INTO tags ... ON CONFLICT(normalized_name) DO NOTHING. */
    method InsertTag(tag: Tag)
      requires Valid()
      modifies this`tags, this`nextTag
      ensures Valid() && TagsGrow(old(tags), tags, [tag]) && Known(tags, tag.identity)
    {
      var found := FindTag(tag.identity);
      if found.None? {
        tags := tags[TagId(nextTag) := tag];
        assert TagId(nextTag) in tags && tags[TagId(nextTag)].identity == tag.identity;
        nextTag := nextTag + 1;
      }
    }

    /** insertOrGetTags: an identity that exists keeps its row and its display name. */
    method InsertOrGetTags(requested: seq<Tag>)
      requires Valid()
      modifies this`tags, this`nextTag
      ensures Valid() && TagsGrow(old(tags), tags, requested)
      ensures forall i :: 0 <= i < |requested| ==> Known(tags, requested[i].identity)
    {
      hide Valid, Known, TagsGrow;
      ghost var before := tags;
      var i := 0;
      TagsGrowNone(tags, requested);
      while i < |requested|
        invariant 0 <= i <= |requested| && Valid() && TagsGrow(before, tags, requested)
        invariant forall j :: 0 <= j < i ==> Known(tags, requested[j].identity)
      {
        ghost var now := tags;
        InsertTag(requested[i]);
        TagsGrowTwice(before, now, tags, requested, i);
        i := i + 1;
      }
    }

    /** Delete the document's rows whose identity is no longer requested. */
    method DropUnrequested(d: DocId, requested: seq<Tag>) returns (kept: set<LinkId>, removed: set<LinkId>)
      requires Valid()
      modifies this`links
      ensures Valid() && OthersKept(old(links), links, d)
      ensures kept + removed == Rows(old(links), d) && kept !! removed && Rows(links, d) == kept
      ensures forall l :: l in kept ==> links[l] == old(links)[l]
      ensures forall l :: l in Rows(old(links), d) ==>
                (l in kept <==> Requests(requested, tags[old(links)[l].tag].identity))
    {
      ghost var before := links;
      RowsResolve(d);
      WantedRows(tags, links, d, requested);
      hide Valid, Requests, OthersKept, Rows, Wanted;
      kept, removed := SortRows(d, requested);
      RowsDropped(before, d, kept);
    }

    method SortRows(d: DocId, requested: seq<Tag>) returns (kept: set<LinkId>, removed: set<LinkId>)
      requires Valid()
      modifies this`links
      ensures Valid() && links == old(links) - removed
      ensures kept == Wanted(tags, old(links), d, requested) && removed == Rows(old(links), d) - kept
    {
      ghost var before, wantedRows := links, Wanted(tags, links, d, requested);
      var all := Rows(links, d);
      var rest := all;
      kept, removed := {}, {};
      RowsResolve(d);
      WantedRows(tags, links, d, requested);
      hide Valid, Requests, Rows, Wanted;
      while rest != {}
        invariant rest <= all && Valid() && links == before - removed
        invariant forall l :: l in kept <==> l in all && l !in rest && l in wantedRows
        invariant forall l :: l in removed <==> l in all && l !in rest && l !in wantedRows
        decreases rest
      {
        var l :| l in rest;
        assert links[l] == before[l];
        var wanted := IsRequested(requested, tags[links[l].tag].identity);
        if wanted {
          kept := kept + {l};
        } else {
          DropLink(l);
          removed := removed + {l};
        }
        rest := rest - {l};
      }
    }

    /** DELETE FROM document_tags WHERE association_id = ?. */
    method DropLink(l: LinkId)
      requires Valid()
      modifies this`links
      ensures Valid() && links == old(links) - {l}
    {
      links := links - {l};
    }

    /** One INSERT INTO document_tags. */
    method InsertLink(d: DocId, t: TagId) returns (l: LinkId)
      requires Valid() && t in tags && Link(d, t) !in links.Values
      modifies this`links, this`nextLink
      ensures Valid() && l == LinkId(old(nextLink)) && nextLink == old(nextLink) + 1 && l !in old(links)
      ensures links == old(links)[l := Link(d, t)]
    {
      l := LinkId(nextLink);
      forall i | i in links
        ensures links[i] != Link(d, t)
      {
        assert links[i] in links.Values;
      }
      links := links[l := Link(d, t)];
      nextLink := nextLink + 1;
    }

    /** Insert the requested tags the document does not carry. */
    method InsertMissing(d: DocId, requested: seq<Tag>) returns (added: set<LinkId>)
      requires Valid() && forall i :: 0 <= i < |requested| ==> Known(tags, requested[i].identity)
      modifies this`links, this`nextLink
      ensures Valid()
      ensures Rows(links, d) == Rows(old(links), d) + added && added !! Rows(old(links), d)
      ensures OthersKept(old(links), links, d)
      ensures forall l :: l in Rows(old(links), d) ==> links[l] == old(links)[l]
      ensures forall l :: l in added ==> l.n >= old(nextLink) && Requests(requested, tags[links[l].tag].identity)
      ensures forall i :: 0 <= i < |requested| ==> Carries(tags, links, d, requested[i].identity)
    {
      hide Valid, Carries, Known, Requests, OthersKept, Rows;
      ghost var before, next0 := links, nextLink;
      added := {};
      var i := 0;
      NothingAdded(links, d);
      while i < |requested|
        invariant 0 <= i <= |requested| && Valid() && nextLink >= next0
        invariant Rows(links, d) == Rows(before, d) + added && added !! Rows(before, d) && OthersKept(before, links, d)
        invariant forall l :: l in Rows(before, d) ==> l in links && l in before && links[l] == before[l]
        invariant forall l :: l in added ==> l in links && links[l].tag in tags
        invariant forall l :: l in added ==> l.n >= next0 && Requests(requested, tags[links[l].tag].identity)
        invariant forall j :: 0 <= j < i ==> Carries(tags, links, d, requested[j].identity)
      {
        ghost var now := links;
        RequestedAt(requested, i);
        var one := InsertOne(d, requested[i].identity);
        OthersKeptTwice(before, now, links, d);
        added := added + one;
        i := i + 1;
      }
    }

    /** Insert the tag with this identity unless the document carries it. */
    method InsertOne(d: DocId, identity: string) returns (added: set<LinkId>)
      requires Valid() && Known(tags, identity)
      modifies this`links, this`nextLink
      ensures Valid() && nextLink >= old(nextLink)
      ensures Rows(links, d) == Rows(old(links), d) + added && added !! Rows(old(links), d)
      ensures OthersKept(old(links), links, d)
      ensures forall l :: l in Rows(old(links), d) ==> l in links && links[l] == old(links)[l]
      ensures forall l :: l in added ==>
                l.n >= old(nextLink) && l in links && links[l].tag in tags && tags[links[l].tag].identity == identity
      ensures Carries(tags, links, d, identity)
      ensures forall other :: Carries(tags, old(links), d, other) ==> Carries(tags, links, d, other)
    {
      hide Valid, Carries, Known, OthersKept, Rows;
      added := {};
      NothingAdded(links, d);
      var found := FindTag(identity);
      KnownIsFound(tags, identity, found);
      if Link(d, found.value) !in links.Values {
        ghost var now := links;
        var l := InsertLink(d, found.value);
        RowInserted(now, d, l, found.value);
        CarriesMore(tags, now, links, d);
        CarriesNew(tags, links, d, l);
        added := {l};
      } else {
        CarriesPresent(tags, links, d, found.value);
      }
    }

    /** applyDocumentTagsSetDiff. */
    method ApplySetDiff(d: DocId, requested: seq<Tag>) returns (diff: SetDiff)
      requires Valid() && Deduped(requested)
      modifies this
      ensures Valid()
      ensures diff.kept + diff.removed == Rows(old(links), d) && diff.kept !! diff.removed
      ensures diff.kept + diff.added == Rows(links, d) && diff.kept !! diff.added
      ensures forall l :: l in diff.kept ==> l in old(links) && links[l] == old(links)[l]
      ensures forall l :: l in diff.added ==> l.n >= old(nextLink)
      ensures forall l :: l in Rows(old(links), d) ==>
                (l in diff.kept <==> Requests(requested, old(tags)[old(links)[l].tag].identity))
      ensures forall identity :: Carries(tags, links, d, identity) <==> Requests(requested, identity)
      ensures OthersKept(old(links), links, d) && TagsGrow(old(tags), tags, requested)
    {
      ghost var before := links;
      RowsResolve(d);
      InsertOrGetTags(requested);
      RowsResolve(d);
      hide Valid, Carries, Requests, Known, OthersKept;
      var kept, removed := DropUnrequested(d, requested);
      ghost var dropped := links;
      RowsResolve(d);
      var added := InsertMissing(d, requested);
      RowsResolve(d);
      OthersKeptTwice(before, dropped, links, d);
      diff := SetDiff(kept, added, removed);
      forall identity
        ensures Carries(tags, links, d, identity) <==> Requests(requested, identity)
      {
        CarriesRequested(tags, links, d, requested, identity);
      }
    }

    lemma RowsResolve(d: DocId)
      requires Valid()
      ensures forall l :: l in links && links[l].document == d ==> l in Rows(links, d)
      ensures forall l :: l in Rows(links, d) ==> l in links && links[l].tag in tags
    {
    }

    method DropAll(d: DocId)
      requires Valid()
      modifies this`links
      ensures Valid() && Rows(links, d) == {} && OthersKept(old(links), links, d)
      ensures links.Keys <= old(links).Keys
    {
      links := links - Rows(links, d);
    }

    /** replaceDocumentTags after insertOrGetTags: every row is rewritten, the membership is the
        one the set difference leaves. */
    method ReplaceTags(d: DocId, requested: seq<Tag>)
      requires Valid() && Deduped(requested)
      modifies this
      ensures Valid()
      ensures forall l :: l in Rows(links, d) ==> l.n >= old(nextLink)
      ensures forall identity :: Carries(tags, links, d, identity) <==> Requests(requested, identity)
      ensures OthersKept(old(links), links, d)
    {
      hide Valid, Carries, Requests, Known, OthersKept;
      ghost var before := links;
      InsertOrGetTags(requested);
      DropAll(d);
      ghost var dropped := links;
      var added := InsertMissing(d, requested);
      RowsResolve(d);
      OthersKeptTwice(before, dropped, links, d);
      forall identity
        ensures Carries(tags, links, d, identity) <==> Requests(requested, identity)
      {
        CarriesRequested(tags, links, d, requested, identity);
      }
    }
  }

  ghost predicate Known(tags: map<TagId, Tag>, identity: string) {
    exists t :: t in tags && tags[t].identity == identity
  }

  /** The rows of other documents are as they were. */
  ghost predicate OthersKept(before: map<LinkId, Link>, after: map<LinkId, Link>, d: DocId) {
    && (forall l :: l in before && before[l].document != d ==> l in after && after[l] == before[l])
    && (forall l :: l in after && after[l].document != d ==> l in before && before[l] == after[l])
  }

  /** Existing tag rows stay as they are; the new ones are requested. */
  ghost predicate TagsGrow(before: map<TagId, Tag>, after: map<TagId, Tag>, requested: seq<Tag>) {
    && (forall t :: t in before ==> t in after && after[t] == before[t])
    && (forall t :: t in after && t !in before ==> after[t] in requested)
  }

  lemma TagsGrowNone(tags: map<TagId, Tag>, requested: seq<Tag>)
    ensures TagsGrow(tags, tags, requested)
  {
  }

  lemma TagsGrowTwice(before: map<TagId, Tag>, middle: map<TagId, Tag>, after: map<TagId, Tag>, requested: seq<Tag>,
                      i: nat)
    requires i < |requested| && TagsGrow(before, middle, requested) && TagsGrow(middle, after, [requested[i]])
    ensures TagsGrow(before, after, requested)
    ensures forall identity :: Known(middle, identity) ==> Known(after, identity)
  {
    assert requested[i] in requested;
    forall identity | Known(middle, identity)
      ensures Known(after, identity)
    {
      var t :| t in middle && middle[t].identity == identity;
      assert t in after;
    }
  }

  lemma RowInserted(links: map<LinkId, Link>, d: DocId, l: LinkId, t: TagId)
    requires l !in links
    ensures var after := links[l := Link(d, t)];
            Rows(after, d) == Rows(links, d) + {l} && OthersKept(links, after, d)
            && forall k :: k in Rows(links, d) ==> k in after && after[k] == links[k]
  {
  }

  ghost function Wanted(tags: map<TagId, Tag>, links: map<LinkId, Link>, d: DocId, requested: seq<Tag>): set<LinkId> {
    set l | l in Rows(links, d) && links[l].tag in tags && Requests(requested, tags[links[l].tag].identity)
  }

  lemma WantedRows(tags: map<TagId, Tag>, links: map<LinkId, Link>, d: DocId, requested: seq<Tag>)
    ensures Wanted(tags, links, d, requested) <= Rows(links, d)
    ensures forall l :: l in Rows(links, d) && links[l].tag in tags ==>
              (l in Wanted(tags, links, d, requested) <==> Requests(requested, tags[links[l].tag].identity))
  {
    hide Requests;
  }

  lemma RowsDropped(links: map<LinkId, Link>, d: DocId, kept: set<LinkId>)
    requires kept <= Rows(links, d)
    ensures var after := links - (Rows(links, d) - kept);
            && Rows(after, d) == kept && OthersKept(links, after, d)
            && forall l :: l in kept ==> l in after && after[l] == links[l]
  {
  }

  lemma NothingAdded(links: map<LinkId, Link>, d: DocId)
    ensures Rows(links, d) + {} == Rows(links, d) && OthersKept(links, links, d)
    ensures forall l :: l in Rows(links, d) ==> l in links
  {
  }

  lemma OthersKeptTwice(before: map<LinkId, Link>, middle: map<LinkId, Link>, after: map<LinkId, Link>, d: DocId)
    requires OthersKept(before, middle, d) && OthersKept(middle, after, d)
    ensures OthersKept(before, after, d)
  {
  }

  lemma KnownIsFound(tags: map<TagId, Tag>, identity: string, found: Option<TagId>)
    requires Known(tags, identity) && (found.None? ==> forall t :: t in tags ==> tags[t].identity != identity)
    ensures found.Some?
  {
  }

  lemma RequestedAt(requested: seq<Tag>, i: nat)
    requires i < |requested|
    ensures Requests(requested, requested[i].identity)
  {
  }

  lemma CarriesMore(tags: map<TagId, Tag>, before: map<LinkId, Link>, after: map<LinkId, Link>, d: DocId)
    requires forall l :: l in before ==> l in after && after[l] == before[l]
    ensures forall identity :: Carries(tags, before, d, identity) ==> Carries(tags, after, d, identity)
  {
  }

  lemma CarriesNew(tags: map<TagId, Tag>, links: map<LinkId, Link>, d: DocId, l: LinkId)
    requires l in links && links[l].document == d && links[l].tag in tags
    ensures Carries(tags, links, d, tags[links[l].tag].identity)
  {
  }

  lemma CarriesPresent(tags: map<TagId, Tag>, links: map<LinkId, Link>, d: DocId, t: TagId)
    requires t in tags && Link(d, t) in links.Values
    ensures Carries(tags, links, d, tags[t].identity)
  {
    var l :| l in links && links[l] == Link(d, t);
  }

  lemma CarriesRequested(tags: map<TagId, Tag>, links: map<LinkId, Link>, d: DocId, requested: seq<Tag>,
                         identity: string)
    requires forall l :: l in links && links[l].document == d ==>
              links[l].tag in tags && Requests(requested, tags[links[l].tag].identity)
    requires forall i :: 0 <= i < |requested| ==> Carries(tags, links, d, requested[i].identity)
    ensures Carries(tags, links, d, identity) <==> Requests(requested, identity)
  {
  }

  method IsRequested(requested: seq<Tag>, identity: string) returns (wanted: bool)
    ensures wanted <==> Requests(requested, identity)
  {
    var i := 0;
    while i < |requested|
      invariant 0 <= i <= |requested|
      invariant forall j :: 0 <= j < i ==> requested[j].identity != identity
    {
      if requested[i].identity == identity {
        return true;
      }
      i := i + 1;
    }
    wanted := false;
  }
}
