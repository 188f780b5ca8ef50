/** writeMigration of server/tagIdentityMigration.ts: tags with one canonical identity are merged
    into the lowest id, in place, with UNIQUE(normalized_name) kept after every single update. */
module TagIdentityMigration {
  import opened TagIdentity

  type DocId = string
  type TagId = nat

  /** A stored normalized_name; the staging names of one run carry fresh UUIDs. */
  datatype Norm = Plain(name: string) | Staged(id: TagId)
  datatype Tag = Tag(name: string, norm: Norm)
  datatype Link = Link(document: DocId, tag: TagId)

  datatype Report = Report(
    rowsScanned: int, logicalGroups: int, collisionGroups: int, associationsMoved: int, associationsCollapsed: int,
    tagRowsDeleted: int, displayRowsChanged: int, identityRowsChanged: int, documentsVersioned: int)

  const MAX_SAFE_INTEGER := 0x1F_FFFF_FFFF_FFFF

  // ---------- what the migration means ----------

  predicate UniqueNames(tags: map<TagId, Tag>) {
    forall i, j :: i in tags && j in tags && tags[i].norm == tags[j].norm ==> i == j
  }

  predicate AllValid(rules: Rules, tags: map<TagId, Tag>) {
    forall id :: id in tags ==> Canonicalize(rules, tags[id].name).Canonical?
  }

  function IdentityOf(rules: Rules, tag: Tag): string {
    match Canonicalize(rules, tag.name) case Canonical(_, identity) => identity case Invalid => ""
  }

  function DisplayOf(rules: Rules, tag: Tag): string {
    match Canonicalize(rules, tag.name) case Canonical(display, _) => display case Invalid => ""
  }

  function Group(rules: Rules, tags: map<TagId, Tag>, identity: string): set<TagId> {
    set id | id in tags && IdentityOf(rules, tags[id]) == identity
  }

  /** The row of a group that stays: the lowest id. */
  predicate Survives(rules: Rules, tags: map<TagId, Tag>, id: TagId) {
    && id in tags
    && forall other :: other in tags && IdentityOf(rules, tags[other]) == IdentityOf(rules, tags[id]) ==> id <= other
  }

  predicate SurvivorFor(rules: Rules, tags: map<TagId, Tag>, id: TagId, s: TagId)
    requires id in tags
  {
    Survives(rules, tags, s) && IdentityOf(rules, tags[s]) == IdentityOf(rules, tags[id])
  }

  lemma SurvivorExists(rules: Rules, tags: map<TagId, Tag>, id: TagId)
    requires id in tags
    ensures exists s :: SurvivorFor(rules, tags, id, s)
  {
    hide Canonicalize;
    var s := Least(Group(rules, tags, IdentityOf(rules, tags[id])), id);
    forall other | other in tags && IdentityOf(rules, tags[other]) == IdentityOf(rules, tags[s])
      ensures s <= other
    {
      assert other in Group(rules, tags, IdentityOf(rules, tags[id]));
    }
    assert SurvivorFor(rules, tags, id, s);
  }

  lemma {:induction false} Least(ids: set<TagId>, id: TagId) returns (least: TagId)
    requires id in ids
    ensures least in ids && forall other :: other in ids ==> least <= other
    decreases ids
  {
    var rest := ids - {id};
    if rest == {} {
      assert ids == {id};
      return id;
    }
    var other :| other in rest;
    least := Least(rest, other);
    assert ids == rest + {id};
    if id < least {
      least := id;
    }
  }

  ghost function Survivor(rules: Rules, tags: map<TagId, Tag>, id: TagId): (s: TagId)
    requires id in tags
    ensures SurvivorFor(rules, tags, id, s)
  {
    SurvivorExists(rules, tags, id);
    var s :| SurvivorFor(rules, tags, id, s);
    s
  }

  lemma OneSurvivor(rules: Rules, tags: map<TagId, Tag>, id: TagId, s: TagId)
    requires id in tags && SurvivorFor(rules, tags, id, s)
    ensures Survivor(rules, tags, id) == s
  {
    hide Canonicalize;
  }

  function CanonicalTag(rules: Rules, tag: Tag): Tag {
    Tag(DisplayOf(rules, tag), Plain(IdentityOf(rules, tag)))
  }

  /** One row per identity, in canonical form. */
  ghost function MigratedTags(rules: Rules, tags: map<TagId, Tag>): map<TagId, Tag> {
    map id | id in tags && Survives(rules, tags, id) :: CanonicalTag(rules, tags[id])
  }

  /** Where an association ends up once the groups in `done` are merged. */
  ghost function Target(rules: Rules, tags: map<TagId, Tag>, done: set<string>, l: Link): Link {
    if l.tag in tags && IdentityOf(rules, tags[l.tag]) in done
    then Link(l.document, Survivor(rules, tags, l.tag)) else l
  }

  ghost function MergedLinks(rules: Rules, tags: map<TagId, Tag>, done: set<string>, links: set<Link>): set<Link> {
    set l | l in links :: Target(rules, tags, done, l)
  }

  function Identities(rules: Rules, tags: map<TagId, Tag>): set<string> {
    set id | id in tags :: IdentityOf(rules, tags[id])
  }

  ghost function MigratedLinks(rules: Rules, tags: map<TagId, Tag>, links: set<Link>): set<Link> {
    MergedLinks(rules, tags, Identities(rules, tags), links)
  }

  // ---------- one group ----------

  lemma TargetNext(rules: Rules, tags: map<TagId, Tag>, done: set<string>, identity: string, s: TagId, l: Link)
    requires Survives(rules, tags, s) && IdentityOf(rules, tags[s]) == identity && identity !in done
    ensures var now := Target(rules, tags, done, l);
            Target(rules, tags, done + {identity}, l)
            == if now.tag in Group(rules, tags, identity) then Link(now.document, s) else now
  {
    hide IdentityOf;
    if l.tag in tags && IdentityOf(rules, tags[l.tag]) == identity {
      OneSurvivor(rules, tags, l.tag, s);
    }
  }

  /** INSERT OR IGNORE of the group's associations under the survivor, then the losing rows'
      associations go. */
  function Repointed(now: set<Link>, rows: set<TagId>, s: TagId): set<Link> {
    set l | l in now && l.tag in rows :: Link(l.document, s)
  }

  function WithTag(links: set<Link>, rows: set<TagId>): set<Link> {
    set l | l in links && l.tag in rows
  }

  lemma MergeNext(rules: Rules, tags: map<TagId, Tag>, links: set<Link>, done: set<string>, identity: string, s: TagId)
    requires Survives(rules, tags, s) && IdentityOf(rules, tags[s]) == identity && identity !in done
    ensures var rows := Group(rules, tags, identity);
            var now := MergedLinks(rules, tags, done, links);
            var all := now + Repointed(now, rows, s);
            MergedLinks(rules, tags, done + {identity}, links) == all - WithTag(all, rows - {s})
  {
    hide IdentityOf, Target;
    var rows := Group(rules, tags, identity);
    var now := MergedLinks(rules, tags, done, links);
    var all := now + Repointed(now, rows, s);
    var next := MergedLinks(rules, tags, done + {identity}, links);
    assert s in rows;
    forall l | l in next
      ensures l in all && l.tag !in rows - {s}
    {
      var m :| m in links && l == Target(rules, tags, done + {identity}, m);
      TargetNext(rules, tags, done, identity, s, m);
      assert Target(rules, tags, done, m) in now;
    }
    forall l | l in all && l.tag !in rows - {s}
      ensures l in next
    {
      if l in now {
        var m :| m in links && l == Target(rules, tags, done, m);
        TargetNext(rules, tags, done, identity, s, m);
      } else {
        var k :| k in now && k.tag in rows && l == Link(k.document, s);
        var m :| m in links && k == Target(rules, tags, done, m);
        TargetNext(rules, tags, done, identity, s, m);
      }
    }
  }

  lemma CollapseCount(now: set<Link>, rows: set<TagId>, s: TagId)
    requires s in rows
    ensures var losing := rows - {s};
            var inserted := Repointed(now, rows, s) - now;
            |now + Repointed(now, rows, s) - WithTag(now + Repointed(now, rows, s), losing)|
                == |now| + |inserted| - |WithTag(now, losing)|
  {
    var losing := rows - {s};
    var inserted := Repointed(now, rows, s) - now;
    assert now + Repointed(now, rows, s) == now + inserted;
    assert WithTag(now + inserted, losing) == WithTag(now, losing);
    assert now + inserted - WithTag(now, losing) + WithTag(now, losing) == now + inserted;
  }

  // ---------- the tag rows on the way ----------

  predicate NeedsStaging(rules: Rules, tags: map<TagId, Tag>, identity: string) {
    var rows := Group(rules, tags, identity);
    |rows| > 1 || exists id :: id in rows && CanonicalTag(rules, tags[id]) != tags[id]
  }

  function StagedRow(rules: Rules, tags: map<TagId, Tag>, id: TagId): Tag
    requires id in tags
  {
    if NeedsStaging(rules, tags, IdentityOf(rules, tags[id])) then tags[id].(norm := Staged(id)) else tags[id]
  }

  /** The rows after staging, once the groups in `done` are merged and final. */
  function PartlyMigrated(rules: Rules, tags: map<TagId, Tag>, done: set<string>): map<TagId, Tag> {
    map id | id in tags && (IdentityOf(rules, tags[id]) in done ==> Survives(rules, tags, id)) ::
      if IdentityOf(rules, tags[id]) in done then CanonicalTag(rules, tags[id]) else StagedRow(rules, tags, id)
  }

  ghost predicate NoStagedNames(tags: map<TagId, Tag>) {
    forall id :: id in tags ==> tags[id].norm.Plain?
  }

  /** Writing a survivor's final name meets no other row, staged, untouched or final. */
  lemma FinalNameFree(rules: Rules, tags: map<TagId, Tag>, done: set<string>, identity: string, s: TagId, other: TagId)
    requires Survives(rules, tags, s) && IdentityOf(rules, tags[s]) == identity && identity !in done
    requires other in PartlyMigrated(rules, tags, done) && other !in Group(rules, tags, identity)
    ensures PartlyMigrated(rules, tags, done)[other].norm != Plain(identity)
  {
    hide IdentityOf, DisplayOf;
    var group := Group(rules, tags, IdentityOf(rules, tags[other]));
    assert other in group;
  }

  lemma MigrateNext(rules: Rules, tags: map<TagId, Tag>, done: set<string>, identity: string, s: TagId)
    requires Survives(rules, tags, s) && IdentityOf(rules, tags[s]) == identity && identity !in done
    ensures var now, rows := PartlyMigrated(rules, tags, done), Group(rules, tags, identity);
            && rows <= now.Keys
            && PartlyMigrated(rules, tags, done + {identity}) == (now - (rows - {s}))[s := CanonicalTag(rules, tags[s])]
            && (!NeedsStaging(rules, tags, identity) ==> rows == {s} && now[s] == CanonicalTag(rules, tags[s]))
  {
    hide IdentityOf, DisplayOf, CanonicalTag;
    var now, rows := PartlyMigrated(rules, tags, done), Group(rules, tags, identity);
    assert s in rows;
    forall id | id in rows
      ensures Survives(rules, tags, id) <==> id == s
    {
    }
    if !NeedsStaging(rules, tags, identity) {
      OnlyOne(rows, s);
    }
  }

  lemma OnlyOne(rows: set<TagId>, s: TagId)
    requires s in rows && |rows| <= 1
    ensures rows == {s}
  {
    assert |rows - {s}| == 0;
    assert rows == rows - {s} + {s};
  }

  // ---------- documents and the checks at the end ----------

  /** A document's version moves when one of its rows is a losing one, or survives under another
      display name. */
  predicate Touches(rules: Rules, tags: map<TagId, Tag>, id: TagId) {
    id in tags && (!Survives(rules, tags, id) || tags[id].name != DisplayOf(rules, tags[id]))
  }

  function Affected(rules: Rules, tags: map<TagId, Tag>, links: set<Link>): set<DocId> {
    set l | l in links && Touches(rules, tags, l.tag) :: l.document
  }

  /** nextMetadataUpdatedAt. */
  predicate CanAdvance(current: int) {
    0 <= current < MAX_SAFE_INTEGER
  }

  function NextVersion(current: int, now: int): int {
    if now > current + 1 then now else current + 1
  }

  function Advanced(versions: map<DocId, int>, documents: set<DocId>, now: int): map<DocId, int> {
    map d | d in versions :: if d in documents then NextVersion(versions[d], now) else versions[d]
  }

  /** verifyCanonicalState. */
  predicate CanonicalState(rules: Rules, tags: map<TagId, Tag>) {
    && AllValid(rules, tags)
    && (forall id :: id in tags ==> tags[id].norm == Plain(IdentityOf(rules, tags[id])))
    && (forall i, j :: i in tags && j in tags && IdentityOf(rules, tags[i]) == IdentityOf(rules, tags[j]) ==> i == j)
  }

  function LogicalMemberships(rules: Rules, tags: map<TagId, Tag>, links: set<Link>): set<(DocId, string)> {
    set l | l in links && l.tag in tags :: (l.document, IdentityOf(rules, tags[l.tag]))
  }

  /** No surviving tag keeps a leading # in its display name. */
  predicate NoHashLeft(rules: Rules, tags: map<TagId, Tag>) {
    forall id :: id in tags && Survives(rules, tags, id) ==>
          DisplayOf(rules, tags[id]) != "" && DisplayOf(rules, tags[id])[0] != '#'
  }

  // ---------- what the result is ----------

  lemma CanonicalTwice(rules: Rules, tag: Tag)
    requires Canonicalize(rules, tag.name).Canonical?
    ensures DisplayOf(rules, tag) != ""
    ensures var again := CanonicalTag(rules, tag);
            if DisplayOf(rules, tag)[0] != '#'
            then Canonicalize(rules, again.name) == Canonicalize(rules, tag.name)
            else Canonicalize(rules, again.name).Canonical? ==> IdentityOf(rules, again) != IdentityOf(rules, tag)
  {
    StableDisplay(rules, tag.name);
    hide Display, Lower;
  }

  /** The closing check passes exactly when no surviving tag keeps a leading #. */
  lemma ResultIsCanonical(rules: Rules, tags: map<TagId, Tag>)
    requires AllValid(rules, tags)
    ensures CanonicalState(rules, MigratedTags(rules, tags)) <==> NoHashLeft(rules, tags)
  {
    hide Canonicalize;
    var after := MigratedTags(rules, tags);
    forall id | id in after
      ensures Canonicalize(rules, after[id].name).Canonical? && after[id].norm == Plain(IdentityOf(rules, after[id]))
              <==> DisplayOf(rules, tags[id]) != "" && DisplayOf(rules, tags[id])[0] != '#'
      ensures DisplayOf(rules, tags[id]) != "" && DisplayOf(rules, tags[id])[0] != '#' ==>
                IdentityOf(rules, after[id]) == IdentityOf(rules, tags[id])
    {
      CanonicalTwice(rules, tags[id]);
    }
  }

  lemma MovedLink(rules: Rules, tags: map<TagId, Tag>, links: set<Link>, l: Link)
    requires l in links && l.tag in tags
    ensures Target(rules, tags, Identities(rules, tags), l) == Link(l.document, Survivor(rules, tags, l.tag))
    ensures Link(l.document, Survivor(rules, tags, l.tag)) in MigratedLinks(rules, tags, links)
  {
    hide IdentityOf, Survives;
    assert Target(rules, tags, Identities(rules, tags), l) in MigratedLinks(rules, tags, links);
  }

  /** One tag spelled with two # signs is valid and can never be migrated. */
  lemma DoubleHashBlocks(rules: Rules, x: string, norm: Norm)
    requires x != "" && !IsSpace(x[|x| - 1]) && |x| <= 98
    requires !rules.forbidden('#') && forall c :: c in x ==> !rules.forbidden(c)
    ensures var tags := map[1 := Tag("##" + x, norm)]; AllValid(rules, tags) && !NoHashLeft(rules, tags)
  {
    DoubleHashIsValid(rules, x);
    hide Canonicalize, IsSpace;
    var tags: map<TagId, Tag> := map[1 := Tag("##" + x, norm)];
    assert Survives(rules, tags, 1) && DisplayOf(rules, tags[1]) == "#" + x;
  }

  /** The set of (document, identity) memberships is the same afterwards. */
  lemma MembershipsKept(rules: Rules, tags: map<TagId, Tag>, links: set<Link>)
    requires AllValid(rules, tags) && NoHashLeft(rules, tags)
    requires forall l :: l in links ==> l.tag in tags
    ensures LogicalMemberships(rules, MigratedTags(rules, tags), MigratedLinks(rules, tags, links))
              == LogicalMemberships(rules, tags, links)
  {
    hide Canonicalize, IdentityOf, DisplayOf, Survives, Target, MigratedTags, AllValid, NoHashLeft;
    var after, moved := MigratedTags(rules, tags), MigratedLinks(rules, tags, links);
    forall p | p in LogicalMemberships(rules, after, moved)
      ensures p in LogicalMemberships(rules, tags, links)
    {
      var m :| m in moved && m.tag in after && p == (m.document, IdentityOf(rules, after[m.tag]));
      var l :| l in links && m == Target(rules, tags, Identities(rules, tags), l);
      MovedLink(rules, tags, links, l);
      SurvivorKeepsIdentity(rules, tags, l.tag);
    }
    forall p | p in LogicalMemberships(rules, tags, links)
      ensures p in LogicalMemberships(rules, after, moved)
    {
      var l :| l in links && l.tag in tags && p == (l.document, IdentityOf(rules, tags[l.tag]));
      MovedLink(rules, tags, links, l);
      SurvivorKeepsIdentity(rules, tags, l.tag);
    }
  }

  lemma SurvivorKeepsIdentity(rules: Rules, tags: map<TagId, Tag>, id: TagId)
    requires AllValid(rules, tags) && NoHashLeft(rules, tags) && id in tags
    ensures var s := Survivor(rules, tags, id);
            s in MigratedTags(rules, tags)
                && IdentityOf(rules, MigratedTags(rules, tags)[s]) == IdentityOf(rules, tags[id])
  {
    hide Canonicalize;
    CanonicalTwice(rules, tags[Survivor(rules, tags, id)]);
  }

  /** The tags a document shows: physical row and display name. */
  ghost function Shown(tags: map<TagId, Tag>, links: set<Link>, d: DocId): set<(TagId, string)> {
    set l | l in links && l.document == d && l.tag in tags :: (l.tag, tags[l.tag].name)
  }

  /** The affected documents are exactly those whose shown tags change. */
  lemma AffectedShowsDifferently(rules: Rules, tags: map<TagId, Tag>, links: set<Link>, d: DocId)
    requires forall l :: l in links ==> l.tag in tags
    ensures d in Affected(rules, tags, links) <==>
              Shown(tags, links, d) != Shown(MigratedTags(rules, tags), MigratedLinks(rules, tags, links), d)
  {
    hide Canonicalize, IdentityOf, DisplayOf, Survives;
    var after, moved := MigratedTags(rules, tags), MigratedLinks(rules, tags, links);
    if l :| l in links && Touches(rules, tags, l.tag) && l.document == d {
      assert (l.tag, tags[l.tag].name) in Shown(tags, links, d);
    } else {
      forall l | l in links && l.document == d
        ensures Target(rules, tags, Identities(rules, tags), l) == l && l.tag in after
        ensures after[l.tag].name == tags[l.tag].name
      {
        assert !Touches(rules, tags, l.tag);
        SurvivesAlone(rules, tags, l.tag);
      }
      LinksKeep(rules, tags, links, d);
    }
  }

  lemma SurvivesAlone(rules: Rules, tags: map<TagId, Tag>, id: TagId)
    requires id in tags && Survives(rules, tags, id)
    ensures Survivor(rules, tags, id) == id
  {
    OneSurvivor(rules, tags, id, id);
  }

  lemma LinksKeep(rules: Rules, tags: map<TagId, Tag>, links: set<Link>, d: DocId)
    requires forall l :: l in links && l.document == d ==> Target(rules, tags, Identities(rules, tags), l) == l
    ensures forall l: Link :: l.document == d ==> (l in MigratedLinks(rules, tags, links) <==> l in links)
  {
    hide IdentityOf;
    forall l: Link | l.document == d && l in MigratedLinks(rules, tags, links)
      ensures l in links
    {
      var m :| m in links && l == Target(rules, tags, Identities(rules, tags), m);
    }
    forall l: Link | l.document == d && l in links
      ensures l in MigratedLinks(rules, tags, links)
    {
      assert Target(rules, tags, Identities(rules, tags), l) == l;
    }
  }

  /** On the result nothing is left to do: no row, association or document changes again. */
  lemma RerunChangesNothing(rules: Rules, tags: map<TagId, Tag>, links: set<Link>)
    requires AllValid(rules, tags) && NoHashLeft(rules, tags)
    requires forall l :: l in links ==> l.tag in tags
    ensures var after, moved := MigratedTags(rules, tags), MigratedLinks(rules, tags, links);
            && AllValid(rules, after) && NoHashLeft(rules, after)
            && MigratedTags(rules, after) == after
            && MigratedLinks(rules, after, moved) == moved
            && Affected(rules, after, moved) == {}
  {
    hide Canonicalize, Target, MergedLinks;
    var after, moved := MigratedTags(rules, tags), MigratedLinks(rules, tags, links);
    forall id | id in after
      ensures Canonicalize(rules, after[id].name) == Canonicalize(rules, tags[id].name)
    {
      CanonicalTwice(rules, tags[id]);
    }
    forall id | id in after
      ensures Survives(rules, after, id) && Survivor(rules, after, id) == id && !Touches(rules, after, id)
    {
      SurvivesAlone(rules, after, id);
    }
    UntouchedLinks(rules, after, moved);
  }

  lemma UntouchedLinks(rules: Rules, tags: map<TagId, Tag>, links: set<Link>)
    requires forall id :: id in tags ==> Survivor(rules, tags, id) == id && !Touches(rules, tags, id)
    ensures MigratedLinks(rules, tags, links) == links && Affected(rules, tags, links) == {}
  {
    hide IdentityOf, Survives, Identities;
    FixedLinks(rules, tags, Identities(rules, tags), links);
  }

  lemma FixedLinks(rules: Rules, tags: map<TagId, Tag>, done: set<string>, links: set<Link>)
    requires forall l :: l in links ==> Target(rules, tags, done, l) == l
    ensures MergedLinks(rules, tags, done, links) == links
  {
    hide Target;
    forall l | l in links
      ensures l in MergedLinks(rules, tags, done, links)
    {
      assert Target(rules, tags, done, l) == l;
    }
  }

  // ---------- the counters ----------

  ghost function DisplayChanged(rules: Rules, tags: map<TagId, Tag>, done: set<string>): set<TagId> {
    set id | id in tags && Survives(rules, tags, id) && IdentityOf(rules, tags[id]) in done
             && tags[id].name != DisplayOf(rules, tags[id])
  }

  ghost function IdentityChanged(rules: Rules, tags: map<TagId, Tag>, done: set<string>): set<TagId> {
    set id | id in tags && Survives(rules, tags, id) && IdentityOf(rules, tags[id]) in done
             && tags[id].norm != Plain(IdentityOf(rules, tags[id]))
  }

  ghost function Colliding(rules: Rules, tags: map<TagId, Tag>): set<string> {
    set i | i in Identities(rules, tags) && |Group(rules, tags, i)| > 1
  }

  lemma DisplayChangedNext(rules: Rules, tags: map<TagId, Tag>, done: set<string>, identity: string, s: TagId)
    requires Survives(rules, tags, s) && IdentityOf(rules, tags[s]) == identity && identity !in done
    ensures |DisplayChanged(rules, tags, done + {identity})|
            == |DisplayChanged(rules, tags, done)| + if tags[s].name != DisplayOf(rules, tags[s]) then 1 else 0
  {
    hide IdentityOf, DisplayOf;
    assert DisplayChanged(rules, tags, done + {identity})
        == DisplayChanged(rules, tags, done) + if tags[s].name != DisplayOf(rules, tags[s]) then {s} else {};
  }

  lemma IdentityChangedNext(rules: Rules, tags: map<TagId, Tag>, done: set<string>, identity: string, s: TagId)
    requires Survives(rules, tags, s) && IdentityOf(rules, tags[s]) == identity && identity !in done
    ensures |IdentityChanged(rules, tags, done + {identity})|
            == |IdentityChanged(rules, tags, done)| + if tags[s].norm != Plain(identity) then 1 else 0
  {
    hide IdentityOf;
    assert IdentityChanged(rules, tags, done + {identity})
        == IdentityChanged(rules, tags, done) + if tags[s].norm != Plain(identity) then {s} else {};
  }

  /** Rows inserted for a group were in the table neither before nor at the start. */
  lemma MovedNext(rules: Rules, tags: map<TagId, Tag>, links: set<Link>, done: set<string>, identity: string, s: TagId)
    requires Survives(rules, tags, s) && IdentityOf(rules, tags[s]) == identity && identity !in done
    ensures var now := MergedLinks(rules, tags, done, links);
            var inserted := Repointed(now, Group(rules, tags, identity), s) - now;
            |MergedLinks(rules, tags, done + {identity}, links) - links| == |now - links| + |inserted|
  {
    hide IdentityOf, Target, Survives;
    var rows := Group(rules, tags, identity);
    var now := MergedLinks(rules, tags, done, links);
    var inserted := Repointed(now, rows, s) - now;
    MergeNext(rules, tags, links, done, identity, s);
    forall l: Link | l.tag in rows
      ensures l in now <==> l in links
    {
      GroupUntouched(rules, tags, links, done, identity, l);
    }
    assert s in rows by { SurvivesInGroup(rules, tags, identity, s); }
    assert MergedLinks(rules, tags, done + {identity}, links) - links == (now - links) + inserted;
  }

  lemma SurvivesInGroup(rules: Rules, tags: map<TagId, Tag>, identity: string, s: TagId)
    requires Survives(rules, tags, s) && IdentityOf(rules, tags[s]) == identity
    ensures s in Group(rules, tags, identity)
  {
  }

  /** Until its own group is merged, an association with one of the group's rows is as it was. */
  lemma GroupUntouched(rules: Rules, tags: map<TagId, Tag>, links: set<Link>, done: set<string>, identity: string,
                       l: Link)
    requires identity !in done && l.tag in Group(rules, tags, identity)
    ensures l in MergedLinks(rules, tags, done, links) <==> l in links
  {
    hide IdentityOf, Survives;
    if l in MergedLinks(rules, tags, done, links) {
      var m :| m in links && l == Target(rules, tags, done, m);
    }
    if l in links {
      assert l == Target(rules, tags, done, l);
    }
  }

  // ---------- grouping ----------

  /** The groups of the rows read so far. */
  ghost predicate Grouped(rules: Rules, tags: map<TagId, Tag>, rest: set<TagId>, groups: map<string, set<TagId>>) {
    && (forall i :: i in groups ==> groups[i] == Group(rules, tags, i) - rest && groups[i] != {})
    && (forall id :: id in tags && id !in rest ==> IdentityOf(rules, tags[id]) in groups)
  }

  lemma GroupedEnds(rules: Rules, tags: map<TagId, Tag>)
    ensures Grouped(rules, tags, tags.Keys, map[])
  {
  }

  lemma GroupedNext(rules: Rules, tags: map<TagId, Tag>, rest: set<TagId>, groups: map<string, set<TagId>>, id: TagId)
    requires id in rest && id in tags && Grouped(rules, tags, rest, groups)
    ensures var identity := IdentityOf(rules, tags[id]);
            Grouped(rules, tags, rest - {id},
                    groups[identity := {id} + if identity in groups then groups[identity] else {}])
  {
    hide IdentityOf;
    var identity := IdentityOf(rules, tags[id]);
    if identity !in groups {
      assert Group(rules, tags, identity) - rest == {};
    }
    assert Group(rules, tags, identity) - (rest - {id}) == Group(rules, tags, identity) - rest + {id};
    forall i | i in groups && i != identity
      ensures Group(rules, tags, i) - (rest - {id}) == Group(rules, tags, i) - rest
    {
      assert id !in Group(rules, tags, i);
    }
  }

  lemma GroupedAll(rules: Rules, tags: map<TagId, Tag>, groups: map<string, set<TagId>>)
    requires Grouped(rules, tags, {}, groups)
    ensures groups == map i | i in Identities(rules, tags) :: Group(rules, tags, i)
  {
    hide IdentityOf;
    forall i
      ensures i in groups <==> i in Identities(rules, tags)
      ensures i in groups ==> groups[i] == Group(rules, tags, i)
    {
      if i in groups {
        assert groups[i] == Group(rules, tags, i);
        var id :| id in groups[i];
      }
    }
  }

  // ---------- the tables in place ----------

  class TagTables {
    const rules: Rules
    var tags: map<TagId, Tag>
    var links: set<Link>
    var versions: map<DocId, int>

    ghost predicate Valid()
      reads this
    {
      UniqueNames(tags) && NoStagedNames(tags) && forall l :: l in links ==> l.tag in tags && l.document in versions
    }

    /** UPDATE tags ... WHERE id = ?: UNIQUE(normalized_name) holds after the statement. */
    method UpdateTag(id: TagId, tag: Tag)
      requires id in tags
      requires forall other :: other in tags && other != id ==> tags[other].norm != tag.norm
      modifies this`tags
      ensures tags == old(tags)[id := tag]
    {
      tags := tags[id := tag];
    }

    /** canonicalTag of every row; the first invalid name fails the migration. */
    method GroupRows() returns (ok: bool, groups: map<string, set<TagId>>)
      ensures ok <==> AllValid(rules, tags)
      ensures ok ==> groups == map i | i in Identities(rules, tags) :: Group(rules, tags, i)
    {
      hide Canonicalize, IdentityOf, Grouped;
      groups := map[];
      var rest := tags.Keys;
      GroupedEnds(rules, tags);
      while rest != {}
        invariant rest <= tags.Keys
        invariant forall id :: id in tags && id !in rest ==> Canonicalize(rules, tags[id].name).Canonical?
        invariant Grouped(rules, tags, rest, groups)
        decreases rest
      {
        var id :| id in rest;
        if Canonicalize(rules, tags[id].name).Invalid? {
          return false, map[];
        }
        GroupedNext(rules, tags, rest, groups, id);
        var identity := IdentityOf(rules, tags[id]);
        groups := groups[identity := {id} + if identity in groups then groups[identity] else {}];
        rest := rest - {id};
      }
      GroupedAll(rules, tags, groups);
      ok := true;
    }

    /** stageNamespace: every row of the group gets a private name. */
    method StageNamespace(rows: set<TagId>)
      requires rows <= tags.Keys && StagedOwn(tags)
      modifies this`tags
      ensures tags == StagedRows(old(tags), rows)
    {
      ghost var before := tags;
      var rest := rows;
      assert StagedRows(before, rows - rest) == before;
      while rest != {}
        invariant rest <= rows
        invariant tags == StagedRows(before, rows - rest)
        decreases rest
      {
        var id :| id in rest;
        UpdateTag(id, tags[id].(norm := Staged(id)));
        assert rows - (rest - {id}) == rows - rest + {id};
        rest := rest - {id};
      }
      assert rows - rest == rows;
    }

    method StageGroups(groups: map<string, set<TagId>>)
      requires NoStagedNames(tags) && groups == map i | i in Identities(rules, tags) :: Group(rules, tags, i)
      modifies this`tags
      ensures tags == PartlyMigrated(rules, old(tags), {})
    {
      hide IdentityOf, DisplayOf, NeedsStaging, Group, StagedRows, NoStagedNames, StagedOwn, PartlyMigrated;
      var before := tags;
      var rest := groups.Keys;
      assert groups.Keys == Identities(rules, before);
      NothingStaged(rules, before, rest);
      while rest != {}
        invariant rest <= groups.Keys
        invariant tags == StagedRows(before, StagedIds(rules, before, groups.Keys - rest))
        decreases rest
      {
        var identity :| identity in rest;
        StageNext(rules, before, groups.Keys - rest, identity);
        assert groups.Keys - (rest - {identity}) == groups.Keys - rest + {identity};
        if NeedsStaging(rules, before, identity) {
          StageNamespace(groups[identity]);
        }
        rest := rest - {identity};
      }
      assert groups.Keys - rest == groups.Keys;
      AllStaged(rules, before);
    }

    method DeleteAssociations(rows: set<TagId>)
      modifies this`links
      ensures links == old(links) - WithTag(old(links), rows)
    {
      ghost var before := links;
      var rest := rows;
      while rest != {}
        invariant rest <= rows
        invariant links == before - WithTag(before, rows - rest)
        decreases rest
      {
        var id :| id in rest;
        links := set l | l in links && l.tag != id;
        rest := rest - {id};
      }
      assert rows - rest == rows;
    }

    method DeleteTags(rows: set<TagId>)
      modifies this`tags
      ensures tags == old(tags) - rows
    {
      ghost var before := tags;
      var rest := rows;
      while rest != {}
        invariant rest <= rows
        invariant tags == before - (rows - rest)
        decreases rest
      {
        var id :| id in rest;
        tags := tags - {id};
        rest := rest - {id};
      }
      assert rows - rest == rows;
    }

    /** Merge one group into its lowest row and write the final name. `survivor` is the row as it
        was before staging. */
    method MergeGroup(rows: set<TagId>, s: TagId, survivor: Tag) returns (moved: int, collapsed: int)
      requires s in rows && rows <= tags.Keys
      requires forall other :: other in tags && other !in rows ==>
                tags[other].norm != Plain(IdentityOf(rules, survivor))
      requires |rows| > 1 || CanonicalTag(rules, survivor) != survivor || tags[s] == survivor
      modifies this`tags, this`links
      ensures tags == (old(tags) - (rows - {s}))[s := CanonicalTag(rules, survivor)]
      ensures var all := old(links) + Repointed(old(links), rows, s); links == all - WithTag(all, rows - {s})
      ensures moved == |Repointed(old(links), rows, s) - old(links)|
      ensures collapsed == |old(links)| - |links|
    {
      hide IdentityOf, DisplayOf;
      moved, collapsed := 0, 0;
      var losing := rows - {s};
      if losing != {} {
        var count := |WithTag(links, losing)|;
        var inserted := Repointed(links, rows, s) - links;
        CollapseCount(links, rows, s);
        assert links + inserted == links + Repointed(links, rows, s);
        links := links + inserted;
        moved := |inserted|;
        DeleteAssociations(losing);
        collapsed := count - |inserted|;
        DeleteTags(losing);
      } else {
        AloneRepoints(links, rows, s);
      }
      if losing != {} || CanonicalTag(rules, survivor) != survivor {
        UpdateTag(s, CanonicalTag(rules, survivor));
      }
    }

    /** The group loop, in any order of the groups. */
    method MergeGroups(groups: map<string, set<TagId>>, before: map<TagId, Tag>) returns (report: Report)
      requires groups == map i | i in Identities(rules, before) :: Group(rules, before, i)
      requires tags == PartlyMigrated(rules, before, {})
      modifies this`tags, this`links
      ensures tags == MigratedTags(rules, before) && links == MigratedLinks(rules, before, old(links))
      ensures report == Progress(rules, before, old(links), tags, links, Identities(rules, before))
    {
      hide IdentityOf, DisplayOf, CanonicalTag, Group, PartlyMigrated, MergedLinks, NeedsStaging, Survives,
           DisplayChanged, IdentityChanged, Repointed, WithTag, Colliding, MigratedTags, Identities, Progress,
               Survivor, SurvivorFor, Target;
      ghost var links0 := links;
      report := Report(|before|, |groups|, |set i | i in groups && |groups[i]| > 1|, 0, 0, 0, 0, 0, 0);
      var rest := groups.Keys;
      StartMerging(rules, before, links, groups);
      assert groups.Keys - rest == {};
      while rest != {}
        invariant rest <= groups.Keys
        invariant tags == PartlyMigrated(rules, before, groups.Keys - rest)
        invariant links == MergedLinks(rules, before, groups.Keys - rest, links0)
        invariant report == Progress(rules, before, links0, tags, links, groups.Keys - rest)
        decreases rest
      {
        var identity :| identity in rest;
        ghost var done := groups.Keys - rest;
        var rows := groups[identity];
        GroupNotEmpty(rules, before, identity);
        var s := Lowest(rows);
        LowestSurvives(rules, before, identity, s);
        MergeStep(rules, before, links0, done, identity, s);
        ProgressNext(rules, before, links0, done, identity, s);
        assert groups.Keys - (rest - {identity}) == done + {identity};
        var moved, collapsed := MergeGroup(rows, s, before[s]);
        report := report.(
          associationsMoved := report.associationsMoved + moved,
          associationsCollapsed := report.associationsCollapsed + collapsed,
          tagRowsDeleted := report.tagRowsDeleted + |rows - {s}|,
          displayRowsChanged :=
            report.displayRowsChanged + if before[s].name != DisplayOf(rules, before[s]) then 1 else 0,
          identityRowsChanged := report.identityRowsChanged + if before[s].norm != Plain(identity) then 1 else 0);
        rest := rest - {identity};
      }
      assert groups.Keys - rest == groups.Keys;
      AllMerged(rules, before);
    }

    /** The documents to version, found group by group before anything is staged. */
    method AffectedDocuments(groups: map<string, set<TagId>>) returns (affected: set<DocId>)
      requires groups == map i | i in Identities(rules, tags) :: Group(rules, tags, i)
      requires forall l :: l in links ==> l.tag in tags
      ensures affected == Affected(rules, tags, links)
    {
      hide IdentityOf, DisplayOf, Group, Identities, Survives, AffectedIn;
      affected := {};
      var rest := groups.Keys;
      AffectedEnds(rules, tags, links);
      assert groups.Keys == Identities(rules, tags) && groups.Keys - rest == {};
      while rest != {}
        invariant rest <= groups.Keys
        invariant affected == AffectedIn(rules, tags, links, groups.Keys - rest)
        decreases rest
      {
        var identity :| identity in rest;
        var rows := groups[identity];
        GroupNotEmpty(rules, tags, identity);
        var s := Lowest(rows);
        LowestSurvives(rules, tags, identity, s);
        AffectedNext(rules, tags, links, groups.Keys - rest, identity, s);
        assert groups.Keys - (rest - {identity}) == groups.Keys - rest + {identity};
        var touched := if tags[s].name != DisplayOf(rules, tags[s]) then rows else rows - {s};
        affected := affected + set l | l in links && l.tag in touched :: l.document;
        rest := rest - {identity};
      }
      assert groups.Keys - rest == groups.Keys;
    }

    /** nextMetadataUpdatedAt for every affected document; an exhausted version fails. */
    method AdvanceVersions(affected: set<DocId>, now: int) returns (ok: bool, count: int)
      requires affected <= versions.Keys
      modifies this`versions
      ensures ok <==> forall d :: d in affected ==> CanAdvance(old(versions)[d])
      ensures ok ==> versions == Advanced(old(versions), affected, now) && count == |affected|
    {
      hide CanAdvance, NextVersion;
      ghost var before := versions;
      var rest := affected;
      count := 0;
      assert affected - rest == {};
      while rest != {}
        invariant rest <= affected && count == |affected - rest|
        invariant versions == Advanced(before, affected - rest, now)
        invariant forall d :: d in affected - rest ==> CanAdvance(before[d])
        decreases rest
      {
        var d :| d in rest;
        if !CanAdvance(versions[d]) {
          return false, count;
        }
        versions := versions[d := NextVersion(versions[d], now)];
        assert affected - (rest - {d}) == affected - rest + {d};
        count := count + 1;
        rest := rest - {d};
      }
      assert affected - rest == affected;
      ok := true;
    }

    method Rollback(tags0: map<TagId, Tag>, links0: set<Link>, versions0: map<DocId, int>)
      modifies this
      ensures tags == tags0 && links == links0 && versions == versions0
    {
      tags, links, versions := tags0, links0, versions0;
    }

    /** writeMigration inside its transaction. */
    method WriteMigration(now: int) returns (ok: bool, report: Report)
      requires Valid()
      modifies this
      ensures Valid()
      ensures ok <==> && AllValid(rules, old(tags)) && NoHashLeft(rules, old(tags))
                      && forall d :: d in Affected(rules, old(tags), old(links)) ==> CanAdvance(old(versions)[d])
      ensures if ok
              then && tags == MigratedTags(rules, old(tags))
                   && links == MigratedLinks(rules, old(tags), old(links))
                   && versions == Advanced(old(versions), Affected(rules, old(tags), old(links)), now)
                   && report == Progress(rules, old(tags), old(links), tags, links, Identities(rules, old(tags))).(
                                  documentsVersioned := |Affected(rules, old(tags), old(links))|)
              else tags == old(tags) && links == old(links) && versions == old(versions)
    {
      hide AllValid, NoHashLeft, Identities, Group, Affected, PartlyMigrated, MigratedTags, MigratedLinks, Progress,
           CanonicalState, LogicalMemberships, CanAdvance, Advanced, UniqueNames, NoStagedNames;
      report := Report(|tags|, 0, 0, 0, 0, 0, 0, 0, 0);
      var tags0, links0, versions0 := tags, links, versions;
      var valid, groups := GroupRows();
      if !valid {
        return false, report;
      }
      var memberships := LogicalMemberships(rules, tags, links);
      var affected := AffectedDocuments(groups);
      AffectedExist(rules, tags, links, versions);
      StageGroups(groups);
      report := MergeGroups(groups, tags0);
      MigratedKeepsValid(rules, tags0, links0, versions0);
      ResultIsCanonical(rules, tags0);
      var advanced, count := AdvanceVersions(affected, now);
      if !advanced || !CanonicalState(rules, tags) {
        Rollback(tags0, links0, versions0);
        return false, report;
      }
      MembershipsKept(rules, tags0, links0);
      if LogicalMemberships(rules, tags, links) != memberships {
        assert false; // verifySetsEqual never throws
      }
      report := report.(documentsVersioned := count);
      AdvancedKeys(versions0, affected, now);
      ok := true;
    }
  }

  ghost predicate StagedOwn(tags: map<TagId, Tag>) {
    forall id :: id in tags && tags[id].norm.Staged? ==> tags[id].norm.id == id
  }

  function StagedRows(tags: map<TagId, Tag>, rows: set<TagId>): map<TagId, Tag> {
    map id | id in tags :: if id in rows then tags[id].(norm := Staged(id)) else tags[id]
  }

  ghost function StagedIds(rules: Rules, tags: map<TagId, Tag>, done: set<string>): set<TagId> {
    set id | id in tags && IdentityOf(rules, tags[id]) in done && NeedsStaging(rules, tags, IdentityOf(rules, tags[id]))
  }

  lemma NothingStaged(rules: Rules, tags: map<TagId, Tag>, rest: set<string>)
    ensures StagedRows(tags, StagedIds(rules, tags, rest - rest)) == tags
  {
  }

  lemma StageNext(rules: Rules, tags: map<TagId, Tag>, done: set<string>, identity: string)
    requires NoStagedNames(tags)
    ensures var now, rows := StagedRows(tags, StagedIds(rules, tags, done)), Group(rules, tags, identity);
            && rows <= now.Keys && StagedOwn(now)
            && StagedRows(tags, StagedIds(rules, tags, done + {identity}))
               == if NeedsStaging(rules, tags, identity) then StagedRows(now, rows) else now
  {
    hide IdentityOf, DisplayOf, NeedsStaging;
  }

  lemma AllStaged(rules: Rules, tags: map<TagId, Tag>)
    ensures StagedRows(tags, StagedIds(rules, tags, Identities(rules, tags))) == PartlyMigrated(rules, tags, {})
  {
    hide IdentityOf, DisplayOf, NeedsStaging, Survives;
  }

  lemma AloneRepoints(links: set<Link>, rows: set<TagId>, s: TagId)
    requires s in rows && rows - {s} == {}
    ensures var all := links + Repointed(links, rows, s);
            all == links && WithTag(all, rows - {s}) == {} && Repointed(links, rows, s) - links == {}
    ensures rows == {s} && |rows| == 1
  {
    assert rows == rows - {s} + {s};
  }

  method Lowest(rows: set<TagId>) returns (s: TagId)
    requires rows != {}
    ensures s in rows && forall id :: id in rows ==> s <= id
  {
    s :| s in rows;
    var rest := rows - {s};
    while rest != {}
      invariant rest <= rows && s in rows
      invariant forall id :: id in rows && id !in rest ==> s <= id
      decreases rest
    {
      var id :| id in rest;
      if id < s {
        s := id;
      }
      rest := rest - {id};
    }
  }

  /** The counters once the groups in `done` are merged. */
  ghost function Progress(rules: Rules, before: map<TagId, Tag>, links0: set<Link>, tags: map<TagId, Tag>,
                          links: set<Link>, done: set<string>): Report {
    Report(
      |before|, |Identities(rules, before)|, |Colliding(rules, before)|,
      |links - links0|, |links0| - |links|, |before| - |tags|,
      |DisplayChanged(rules, before, done)|, |IdentityChanged(rules, before, done)|, 0)
  }

  lemma StartMerging(rules: Rules, before: map<TagId, Tag>, links: set<Link>, groups: map<string, set<TagId>>)
    requires groups == map i | i in Identities(rules, before) :: Group(rules, before, i)
    ensures groups.Keys == Identities(rules, before) && |groups| == |groups.Keys|
    ensures MergedLinks(rules, before, {}, links) == links
    ensures (set i | i in groups && |groups[i]| > 1) == Colliding(rules, before)
    ensures Progress(rules, before, links, PartlyMigrated(rules, before, {}), links, {})
            == Report(|before|, |groups|, |set i | i in groups && |groups[i]| > 1|, 0, 0, 0, 0, 0, 0)
  {
    hide IdentityOf, DisplayOf, NeedsStaging;
    FixedLinks(rules, before, {}, links);
    assert PartlyMigrated(rules, before, {}).Keys == before.Keys;
    assert DisplayChanged(rules, before, {}) == {} && IdentityChanged(rules, before, {}) == {};
    assert links - links == {};
  }

  lemma GroupNotEmpty(rules: Rules, tags: map<TagId, Tag>, identity: string)
    requires identity in Identities(rules, tags)
    ensures Group(rules, tags, identity) != {} && Group(rules, tags, identity) <= tags.Keys
  {
    hide IdentityOf;
    var id :| id in tags && IdentityOf(rules, tags[id]) == identity;
    assert id in Group(rules, tags, identity);
  }

  lemma LowestSurvives(rules: Rules, tags: map<TagId, Tag>, identity: string, s: TagId)
    requires s in Group(rules, tags, identity) && forall id :: id in Group(rules, tags, identity) ==> s <= id
    ensures Survives(rules, tags, s) && IdentityOf(rules, tags[s]) == identity
  {
    hide IdentityOf;
    forall other | other in tags && IdentityOf(rules, tags[other]) == identity
      ensures s <= other
    {
      assert other in Group(rules, tags, identity);
    }
  }

  /** Everything one iteration of the group loop needs. */
  lemma MergeStep(rules: Rules, before: map<TagId, Tag>, links0: set<Link>, done: set<string>, identity: string,
                  s: TagId)
    requires Survives(rules, before, s) && IdentityOf(rules, before[s]) == identity && identity !in done
    ensures var now, rows := PartlyMigrated(rules, before, done), Group(rules, before, identity);
            && rows <= now.Keys && s in rows
            && PartlyMigrated(rules, before, done + {identity})
                 == (now - (rows - {s}))[s := CanonicalTag(rules, before[s])]
            && (|rows| > 1 || CanonicalTag(rules, before[s]) != before[s] || now[s] == before[s])
            && (forall other :: other in now && other !in rows ==> now[other].norm != Plain(identity))
    ensures var now, rows := MergedLinks(rules, before, done, links0), Group(rules, before, identity);
            var all := now + Repointed(now, rows, s);
            MergedLinks(rules, before, done + {identity}, links0) == all - WithTag(all, rows - {s})
  {
    hide IdentityOf, DisplayOf, CanonicalTag, PartlyMigrated, MergedLinks, Survives, Repointed, WithTag;
    var now, rows := PartlyMigrated(rules, before, done), Group(rules, before, identity);
    MigrateNext(rules, before, done, identity, s);
    assert s in rows by { SurvivesInGroup(rules, before, identity, s); }
    forall other | other in now && other !in rows
      ensures now[other].norm != Plain(identity)
    {
      FinalNameFree(rules, before, done, identity, s, other);
    }
    if !(|rows| > 1 || CanonicalTag(rules, before[s]) != before[s]) {
      OnlyOne(rows, s);
    }
    MergeNext(rules, before, links0, done, identity, s);
  }

  lemma ProgressNext(rules: Rules, before: map<TagId, Tag>, links0: set<Link>, done: set<string>, identity: string,
                     s: TagId)
    requires Survives(rules, before, s) && IdentityOf(rules, before[s]) == identity && identity !in done
    ensures var rows := Group(rules, before, identity);
            var now, next :=
                  MergedLinks(rules, before, done, links0), MergedLinks(rules, before, done + {identity}, links0);
            var report := Progress(rules, before, links0, PartlyMigrated(rules, before, done), now, done);
            Progress(rules, before, links0, PartlyMigrated(rules, before, done + {identity}), next, done + {identity})
            == report.(
              associationsMoved := report.associationsMoved + |Repointed(now, rows, s) - now|,
              associationsCollapsed := report.associationsCollapsed + |now| - |next|,
              tagRowsDeleted := report.tagRowsDeleted + |rows - {s}|,
              displayRowsChanged :=
            report.displayRowsChanged + if before[s].name != DisplayOf(rules, before[s]) then 1 else 0,
              identityRowsChanged := report.identityRowsChanged + if before[s].norm != Plain(identity) then 1 else 0)
  {
    hide IdentityOf, DisplayOf, CanonicalTag, PartlyMigrated, MergedLinks, Survives, Repointed, WithTag,
         DisplayChanged, IdentityChanged;
    var now, rows := PartlyMigrated(rules, before, done), Group(rules, before, identity);
    MigrateNext(rules, before, done, identity, s);
    assert s in rows by { SurvivesInGroup(rules, before, identity, s); }
    RemoveCount(now, rows - {s}, s, CanonicalTag(rules, before[s]));
    MovedNext(rules, before, links0, done, identity, s);
    DisplayChangedNext(rules, before, done, identity, s);
    IdentityChangedNext(rules, before, done, identity, s);
  }

  lemma RemoveCount(tags: map<TagId, Tag>, rows: set<TagId>, s: TagId, tag: Tag)
    requires rows <= tags.Keys && s in tags && s !in rows
    ensures |(tags - rows)[s := tag]| == |tags| - |rows|
  {
    var after := (tags - rows)[s := tag];
    assert after.Keys == tags.Keys - rows;
    assert after.Keys + rows == tags.Keys;
  }

  lemma AllMerged(rules: Rules, tags: map<TagId, Tag>)
    ensures PartlyMigrated(rules, tags, Identities(rules, tags)) == MigratedTags(rules, tags)
  {
    hide IdentityOf, DisplayOf, NeedsStaging, Survives;
  }

  ghost function AffectedIn(rules: Rules, tags: map<TagId, Tag>, links: set<Link>, done: set<string>): set<DocId> {
    set l | l in links && Touches(rules, tags, l.tag) && IdentityOf(rules, tags[l.tag]) in done :: l.document
  }

  lemma AffectedEnds(rules: Rules, tags: map<TagId, Tag>, links: set<Link>)
    ensures AffectedIn(rules, tags, links, {}) == {}
    ensures AffectedIn(rules, tags, links, Identities(rules, tags)) == Affected(rules, tags, links)
  {
    hide IdentityOf, DisplayOf, Survives;
    assert forall id :: id in tags ==> IdentityOf(rules, tags[id]) in Identities(rules, tags);
  }

  lemma AffectedNext(rules: Rules, tags: map<TagId, Tag>, links: set<Link>, done: set<string>, identity: string,
                     s: TagId)
    requires Survives(rules, tags, s) && IdentityOf(rules, tags[s]) == identity
    requires forall l :: l in links ==> l.tag in tags
    ensures var rows := Group(rules, tags, identity);
            var touched := if tags[s].name != DisplayOf(rules, tags[s]) then rows else rows - {s};
            AffectedIn(rules, tags, links, done + {identity})
            == AffectedIn(rules, tags, links, done) + set l | l in links && l.tag in touched :: l.document
  {
    hide IdentityOf, DisplayOf;
    var rows := Group(rules, tags, identity);
    forall id | id in rows
      ensures Survives(rules, tags, id) <==> id == s
    {
    }
    forall l | l in links && l.tag in rows
      ensures l.document in AffectedIn(rules, tags, links, done + {identity}) <== Touches(rules, tags, l.tag)
    {
    }
  }

  lemma AffectedExist(rules: Rules, tags: map<TagId, Tag>, links: set<Link>, versions: map<DocId, int>)
    requires forall l :: l in links ==> l.document in versions
    ensures Affected(rules, tags, links) <= versions.Keys
  {
  }

  lemma AdvancedKeys(versions: map<DocId, int>, affected: set<DocId>, now: int)
    ensures Advanced(versions, affected, now).Keys == versions.Keys
    ensures forall d :: d in versions ==>
              (d in affected ==> Advanced(versions, affected, now)[d] > versions[d])
              && (d !in affected ==> Advanced(versions, affected, now)[d] == versions[d])
  {
  }

  lemma MigratedKeepsValid(rules: Rules, tags: map<TagId, Tag>, links: set<Link>, versions: map<DocId, int>)
    requires forall l :: l in links ==> l.tag in tags && l.document in versions
    ensures UniqueNames(MigratedTags(rules, tags)) && NoStagedNames(MigratedTags(rules, tags))
    ensures forall l :: l in MigratedLinks(rules, tags, links) ==>
              l.tag in MigratedTags(rules, tags) && l.document in versions
  {
    hide IdentityOf, DisplayOf;
    forall l | l in MigratedLinks(rules, tags, links)
      ensures l.tag in MigratedTags(rules, tags) && l.document in versions
    {
      var m :| m in links && l == Target(rules, tags, Identities(rules, tags), m);
      MovedLink(rules, tags, links, m);
    }
  }
}
