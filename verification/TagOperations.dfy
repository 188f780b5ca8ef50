/** Rename, merge and remove of server/tagManagement.ts: a plan is built by reading, its
    fingerprint is compared with the reviewed one, and the plan is then carried out and checked in
    one transaction. A fingerprint is modelled by the plan it is the hash of. */
module TagOperations {
  import opened Options
  import opened TagIdentity

  type DocId = string
  type TagId = nat

  datatype Tag = Tag(name: string, identity: string)
  datatype Link = Link(document: DocId, tag: TagId)
  datatype Operation =
    Rename(source: TagId, name: string) | Merge(source: TagId, destination: TagId) | Remove(source: TagId)
  datatype Conflict = NoConflict | DestinationExists | InvalidOperation | SourceDestinationSame

  datatype Tables = Tables(tags: map<TagId, Tag>, links: set<Link>, versions: map<DocId, int>)

  /** One affected document as the fingerprint sees it. */
  datatype Affected = Affected(version: int, tags: map<TagId, Tag>)

  datatype Plan = Plan(
    op: Operation, source: Option<Tag>, destination: Option<(TagId, Tag)>, requested: Option<Tag>,
    displayOnly: bool, affected: map<DocId, Affected>,
    adds: nat, removes: nat, collapses: nat, deletes: nat, conflict: Conflict)

  const MAX_SAFE_INTEGER := 0x1F_FFFF_FFFF_FFFF

  ghost predicate Valid(t: Tables) {
    && (forall i, j :: i in t.tags && j in t.tags && t.tags[i].identity == t.tags[j].identity ==> i == j)
    && (forall l :: l in t.links ==> l.tag in t.tags && l.document in t.versions)
  }

  // ---------- reading ----------

  /** assertCanonicalTagRow. */
  predicate CanonicalRow(rules: Rules, tag: Tag) {
    Canonicalize(rules, tag.name) == Canonical(tag.name, tag.identity)
  }

  /** parseTagOperation: the new name of a rename is replaced by its display form. */
  function Parse(rules: Rules, op: Operation): Option<Operation> {
    match op
    case Rename(source, name) =>
      (match Canonicalize(rules, name)
       case Canonical(display, _) => Some(Rename(source, display))
       case Invalid => None)
    case Merge(_, _) => Some(op)
    case Remove(_) => Some(op)
  }

  function Requested(rules: Rules, op: Operation): Option<Tag> {
    match op
    case Rename(_, name) =>
      (match Canonicalize(rules, name)
       case Canonical(display, identity) => Some(Tag(display, identity))
       case Invalid => None)
    case Merge(_, _) => None
    case Remove(_) => None
  }

  /** The rows readResolvedTags selects. */
  predicate Selected(rules: Rules, op: Operation, id: TagId, tag: Tag) {
    || id == op.source
    || (op.Rename? && Requested(rules, op).Some? && tag.identity == Requested(rules, op).value.identity)
    || (op.Merge? && id == op.destination)
  }

  function TagsOf(links: set<Link>, d: DocId): set<TagId> {
    set l | l in links && l.document == d :: l.tag
  }

  function Carriers(links: set<Link>, id: TagId): set<DocId> {
    set l | l in links && l.tag == id :: l.document
  }

  function CompleteTags(t: Tables, d: DocId): map<TagId, Tag> {
    map id | id in t.tags && Link(d, id) in t.links :: t.tags[id]
  }

  function AffectedOf(t: Tables, source: TagId): map<DocId, Affected> {
    map d | d in t.versions && Link(d, source) in t.links :: Affected(t.versions[d], CompleteTags(t, d))
  }

  predicate Owns(tags: map<TagId, Tag>, identity: string, id: TagId) {
    id in tags && tags[id].identity == identity
  }

  ghost function OwnerOf(tags: map<TagId, Tag>, identity: string): Option<(TagId, Tag)> {
    if id :| Owns(tags, identity, id) then Some((id, tags[id])) else None
  }

  ghost function Destination(rules: Rules, t: Tables, op: Operation): Option<(TagId, Tag)> {
    match op
    case Rename(_, _) =>
      if Requested(rules, op).None? then None else OwnerOf(t.tags, Requested(rules, op).value.identity)
    case Merge(_, destination) => if destination in t.tags then Some((destination, t.tags[destination])) else None
    case Remove(_) => None
  }

  datatype Built = Ready(plan: Plan) | Missing | BadName | Corrupt | Private

  function ConflictOf(op: Operation, source: Tag, destination: Option<(TagId, Tag)>, requested: Option<Tag>): Conflict {
    match op
    case Rename(id, _) =>
      if destination.None? then NoConflict
      else if destination.value.0 != id then DestinationExists
      else if requested.Some? && requested.value.name != source.name then NoConflict
      else InvalidOperation
    case Merge(id, destination) => if id == destination then SourceDestinationSame else NoConflict
    case Remove(_) => NoConflict
  }

  /** The affected documents that already carry the destination. */
  function Collapsing(affected: map<DocId, Affected>, destination: TagId): set<DocId> {
    set d | d in affected && destination in affected[d].tags
  }

  function PlanOf(op: Operation, source: Tag, destination: Option<(TagId, Tag)>, requested: Option<Tag>,
                  affected: map<DocId, Affected>): Plan {
    var conflict := ConflictOf(op, source, destination, requested);
    var merging := op.Merge? && conflict == NoConflict;
    var collapses := if merging then |Collapsing(affected, op.destination)| else 0;
    Plan(
      op, Some(source), destination, requested,
      op.Rename? && destination.Some? && conflict == NoConflict,
      affected,
      if merging then |affected.Keys - Collapsing(affected, op.destination)| else 0,
      if merging || op.Remove? then |affected| else 0,
      collapses,
      if merging || op.Remove? then 1 else 0,
      conflict)
  }

  /** buildTagOperationPlanState with its thrown errors. It parses the operation it is given, and
      the plan carries the parsed one. */
  ghost function PlanFor(rules: Rules, managed: DocId -> bool, t: Tables, op: Operation): Built {
    if op.Rename? && Requested(rules, op).None? then BadName
    else if exists id :: id in t.tags && Selected(rules, op, id, t.tags[id]) && !CanonicalRow(rules, t.tags[id])
    then Corrupt
    else
      var destination := Destination(rules, t, op);
      var affected := AffectedOf(t, op.source);
      if op.source !in t.tags || (op.Merge? && destination.None?) then Missing
      else if exists d :: d in affected && managed(d) then Private
      else if exists d, id :: d in affected && id in affected[d].tags && !CanonicalRow(rules, affected[d].tags[id])
      then Corrupt
      else Ready(PlanOf(Parse(rules, op).value, t.tags[op.source], destination, Requested(rules, op), affected))
  }

  // ---------- what an operation means ----------

  function NextVersion(current: int, now: int): int {
    if current + 1 > now then current + 1 else now
  }

  function MeantTags(op: Operation, requested: Option<Tag>, tags: map<TagId, Tag>): map<TagId, Tag> {
    match op
    case Rename(source, _) => if requested.Some? then tags[source := requested.value] else tags
    case Merge(source, _) => tags - {source}
    case Remove(source) => tags - {source}
  }

  /** The tag set of one document afterwards. */
  function MeantTagsOf(op: Operation, before: set<TagId>): set<TagId> {
    match op
    case Rename(_, _) => before
    case Merge(source, destination) => if source in before then before - {source} + {destination} else before
    case Remove(source) => before - {source}
  }

  ghost predicate Meant(op: Operation, requested: Option<Tag>, before: Tables, after: Tables, now: int) {
    && after.tags == MeantTags(op, requested, before.tags)
    && (forall d :: TagsOf(after.links, d) == MeantTagsOf(op, TagsOf(before.links, d)))
    && after.versions == map d | d in before.versions ::
         if d in Carriers(before.links, op.source) then NextVersion(before.versions[d], now) else before.versions[d]
  }

  /** adds + collapses = removes = affected for a merge. */
  lemma MergeAccounting(op: Operation, source: Tag, destination: Option<(TagId, Tag)>, requested: Option<Tag>,
                        affected: map<DocId, Affected>)
    requires op.Merge? && op.source != op.destination
    ensures var plan := PlanOf(op, source, destination, requested, affected);
            plan.adds + plan.collapses == plan.removes == |affected|
  {
    var collapsing := Collapsing(affected, op.destination);
    assert affected.Keys == (affected.Keys - collapsing) + collapsing;
    assert |affected| == |affected.Keys|;
  }

  /** A rename to a free identity, or to another spelling of its own, is the only rename allowed. */
  lemma RenameAllowed(rules: Rules, managed: DocId -> bool, t: Tables, op: Operation)
    requires Valid(t) && op.Rename? && PlanFor(rules, managed, t, op).Ready?
    ensures var requested := Requested(rules, op).value;
            PlanFor(rules, managed, t, op).plan.conflict == NoConflict
            <==> (forall id :: Owns(t.tags, requested.identity, id) ==> id == op.source)
                 && t.tags[op.source] != requested
  {
    hide Canonicalize, AffectedOf, CanonicalRow;
    var requested := Requested(rules, op).value;
    if id :| Owns(t.tags, requested.identity, id) {
      assert forall other :: Owns(t.tags, requested.identity, other) ==> other == id;
    } else {
      assert !Owns(t.tags, requested.identity, op.source);
    }
  }

  // ---------- in place ----------

  class TagDb {
    const rules: Rules
    const managed: DocId -> bool
    var tags: map<TagId, Tag>
    var links: set<Link>
    var versions: map<DocId, int>

    function Contents(): Tables
      reads this
    {
      Tables(tags, links, versions)
    }

    method FindIdentity(identity: string) returns (found: Option<TagId>)
      ensures found.Some? ==> Owns(tags, identity, found.value)
      ensures found.None? ==> forall id :: !Owns(tags, identity, id)
    {
      var rest := tags.Keys;
      while rest != {}
        invariant rest <= tags.Keys
        invariant forall id :: id in tags && id !in rest ==> tags[id].identity != identity
        decreases rest
      {
        var id :| id in rest;
        if tags[id].identity == identity {
          return Some(id);
        }
        rest := rest - {id};
      }
      return None;
    }

    method ResolveDestination(op: Operation) returns (destination: Option<(TagId, Tag)>)
      requires Valid(Contents())
      ensures destination == Destination(rules, Contents(), op)
    {
      hide Canonicalize;
      match op
      case Rename(_, _) =>
        var requested := Requested(rules, op);
        if requested.None? {
          return None;
        }
        var found := FindIdentity(requested.value.identity);
        destination := if found.Some? then Some((found.value, tags[found.value])) else None;
      case Merge(_, destinationId) =>
        destination := if destinationId in tags then Some((destinationId, tags[destinationId])) else None;
      case Remove(_) =>
        destination := None;
    }

    /** The counting loop of a merge plan. */
    method CountMerge(affected: map<DocId, Affected>, destination: TagId) returns (adds: nat, collapses: nat)
      ensures collapses == |Collapsing(affected, destination)|
      ensures adds == |affected.Keys - Collapsing(affected, destination)|
    {
      hide Collapsing;
      adds, collapses := 0, 0;
      ghost var both := Collapsing(affected, destination);
      var rest := affected.Keys;
      assert affected.Keys - rest == {};
      while rest != {}
        invariant rest <= affected.Keys
        invariant collapses == |both * (affected.Keys - rest)| && adds == |affected.Keys - rest - both|
        decreases rest
      {
        var d :| d in rest;
        CountNext(both, affected.Keys - rest, d);
        assert affected.Keys - (rest - {d}) == affected.Keys - rest + {d};
        CollapsingHas(affected, destination, d);
        if destination in affected[d].tags {
          collapses := collapses + 1;
        } else {
          adds := adds + 1;
        }
        rest := rest - {d};
      }
      assert affected.Keys - rest == affected.Keys;
      CollapsingWithin(affected, destination);
    }

    method BuildPlan(op: Operation) returns (built: Built)
      requires Valid(Contents())
      ensures built == PlanFor(rules, managed, Contents(), op)
    {
      hide Canonicalize, CanonicalRow, Destination, Selected, AffectedOf;
      var requested := Requested(rules, op);
      if op.Rename? && requested.None? {
        return BadName;
      }
      if exists id :: id in tags && Selected(rules, op, id, tags[id]) && !CanonicalRow(rules, tags[id]) {
        return Corrupt;
      }
      var destination := ResolveDestination(op);
      if op.source !in tags || (op.Merge? && destination.None?) {
        return Missing;
      }
      var affected := AffectedOf(Contents(), op.source);
      if exists d :: d in affected && managed(d) {
        return Private;
      }
      if exists d, id :: d in affected && id in affected[d].tags && !CanonicalRow(rules, affected[d].tags[id]) {
        return Corrupt;
      }
      var conflict := ConflictOf(op, tags[op.source], destination, requested);
      var adds, removes, collapses, deletes := 0, 0, 0, 0;
      if op.Merge? && conflict == NoConflict {
        adds, collapses := CountMerge(affected, op.destination);
        removes, deletes := |affected|, 1;
      } else if op.Remove? {
        removes, deletes := |affected|, 1;
      }
      return Ready(Plan(Parse(rules, op).value, Some(tags[op.source]), destination, requested,
                        op.Rename? && destination.Some? && conflict == NoConflict, affected,
                        adds, removes, collapses, deletes, conflict));
    }

    /** The candidate versions of captureApplyAffectedDocuments. */
    method CaptureVersions(affected: map<DocId, Affected>) returns (ok: bool)
      ensures ok <==> forall d :: d in affected ==> CanAdvance(affected[d].version)
    {
      var rest := affected.Keys;
      while rest != {}
        invariant rest <= affected.Keys
        invariant forall d :: d in affected && d !in rest ==> CanAdvance(affected[d].version)
        decreases rest
      {
        var d :| d in rest;
        if !CanAdvance(affected[d].version) {
          return false;
        }
        rest := rest - {d};
      }
      ok := true;
    }

    method Rollback(before: Tables)
      modifies this
      ensures Contents() == before
    {
      tags, links, versions := before.tags, before.links, before.versions;
    }

    /** UPDATE documents ... WHERE id IN (SELECT document_id ... WHERE tag_id = ?). */
    method AdvanceCarriers(source: TagId, now: int) returns (changes: nat)
      requires Valid(Contents())
      modifies this`versions
      ensures versions == map d | d in old(versions) ::
                            if d in Carriers(links, source) then NextVersion(old(versions)[d], now) else old(versions)[d]
      ensures changes == |Carriers(links, source)|
    {
      versions :=
        map d | d in versions :: if d in Carriers(links, source) then NextVersion(versions[d], now) else versions[d];
      changes := |Carriers(links, source)|;
    }

    method RenameTag(source: TagId, requested: Tag, displayOnly: bool)
      requires source in tags && (displayOnly ==> tags[source].identity == requested.identity)
      requires forall id :: Owns(tags, requested.identity, id) ==> id == source
      modifies this`tags
      ensures tags == old(tags)[source := requested]
    {
      if displayOnly {
        tags := tags[source := tags[source].(name := requested.name)];
      } else {
        tags := tags[source := requested];
      }
    }

    /** INSERT ... ON CONFLICT DO NOTHING, DELETE associations, DELETE tag, with their change
        counts. */
    method MergeTag(source: TagId, destination: TagId) returns (inserted: nat, deleted: nat)
      requires source in tags && source != destination
      modifies this`tags, this`links
      ensures tags == old(tags) - {source}
      ensures forall d :: TagsOf(links, d) == MeantTagsOf(Merge(source, destination), TagsOf(old(links), d))
      ensures inserted == |Carriers(old(links), source) - Carriers(old(links), destination)|
      ensures deleted == |Carriers(old(links), source)|
      ensures forall l :: l in links ==>
                l in old(links) || (l.tag == destination && Link(l.document, source) in old(links))
      ensures forall l :: l in links ==> l.tag != source
    {
      ghost var before := links;
      var added := (set d | d in Carriers(links, source) :: Link(d, destination)) - links;
      AddedCount(links, source, destination);
      inserted := |added|;
      links := links + added;
      var removed := set l | l in links && l.tag == source;
      assert removed == set l | l in before && l.tag == source;
      LinkCount(before, source);
      deleted := |removed|;
      links := links - removed;
      tags := tags - {source};
      forall d
        ensures TagsOf(links, d) == MeantTagsOf(Merge(source, destination), TagsOf(before, d))
      {
        MergedTagsOf(before, links, source, destination, d);
      }
    }

    method RemoveTag(source: TagId) returns (deleted: nat)
      requires source in tags
      modifies this`tags, this`links
      ensures tags == old(tags) - {source}
      ensures links == set l | l in old(links) && l.tag != source
      ensures deleted == |Carriers(old(links), source)|
    {
      ghost var before := links;
      var removed := set l | l in links && l.tag == source;
      LinkCount(links, source);
      deleted := |removed|;
      links := links - removed;
      assert links == set l | l in before && l.tag != source;
      tags := tags - {source};
    }

    /** The mutation of an allowed plan. The count checks of the transaction are assertions: none
        of them can throw. Only the closing row check of a rename can. */
    method Carry(plan: Plan, now: int) returns (ok: bool)
      requires Valid(Contents()) && Sound(Contents(), plan)
      modifies this
      ensures ok <==> (plan.op.Rename? ==> CanonicalRow(rules, plan.requested.value))
      ensures ok ==> Valid(Contents()) && Meant(plan.op, plan.requested, old(Contents()), Contents(), now)
    {
      ghost var before := Contents();
      var source := plan.op.source;
      var changes := AdvanceCarriers(source, now);
      hide Valid, CanonicalRow, MeantTagsOf, TagsOf, Carriers, Owns;
      assert changes == |plan.affected|;
      match plan.op
      case Rename(_, _) =>
        RenameTag(source, plan.requested.value, plan.displayOnly);
        RenameKeepsValid(before, source, plan.requested.value, versions);
        ok := CanonicalRow(rules, tags[source]);
        TagsOfRename(plan.op, links);
      case Merge(_, destination) =>
        var inserted, deleted := MergeTag(source, destination);
        assert inserted == plan.adds && deleted == plan.removes;
        DeleteKeepsValid(before, Contents(), source);
        ok := true;
      case Remove(_) =>
        var deleted := RemoveTag(source);
        assert deleted == plan.removes;
        RemovedTagsOf(before.links, source);
        DeleteKeepsValid(before, Contents(), source);
        ok := true;
    }

    /** applyTagOperation from the reviewed plan on. */
    method Apply(op: Operation, reviewed: Plan, now: int) returns (ok: bool)
      requires Valid(Contents())
      modifies this
      ensures Valid(Contents())
      ensures ok <==> Applicable(rules, managed, old(Contents()), op, reviewed)
      ensures ok ==> Meant(reviewed.op, reviewed.requested, old(Contents()), Contents(), now)
      ensures !ok ==> Contents() == old(Contents())
    {
      hide Valid, Meant, Canonicalize, CanonicalRow, PlanFor, Sound;
      var before := Contents();
      var parsed := Parse(rules, op);
      if parsed.None? {
        return false;
      }
      var built := BuildPlan(parsed.value);
      if built != Ready(reviewed) || reviewed.conflict != NoConflict {
        return false;
      }
      PlanIsSound(rules, managed, before, parsed.value, reviewed);
      var captured := CaptureVersions(reviewed.affected);
      if !captured {
        return false;
      }
      ok := Carry(reviewed, now);
      if !ok {
        Rollback(before);
      }
    }
  }

  /** What the transaction relies on of an allowed plan. */
  ghost predicate Sound(t: Tables, plan: Plan) {
    var op := plan.op;
    && op.source in t.tags
    && (op.Rename? ==>
          && plan.requested.Some? && (plan.displayOnly ==> t.tags[op.source].identity == plan.requested.value.identity)
          && forall id :: Owns(t.tags, plan.requested.value.identity, id) ==> id == op.source)
    && |plan.affected| == |Carriers(t.links, op.source)|
    && (op.Merge? ==>
          && op.source != op.destination && op.destination in t.tags
          && plan.adds == |Carriers(t.links, op.source) - Carriers(t.links, op.destination)|)
    && (!op.Rename? ==> plan.removes == |Carriers(t.links, op.source)|)
  }

  lemma RenameKeepsValid(t: Tables, source: TagId, requested: Tag, versions: map<DocId, int>)
    requires Valid(t) && source in t.tags && forall id :: Owns(t.tags, requested.identity, id) ==> id == source
    requires versions.Keys == t.versions.Keys
    ensures Valid(Tables(t.tags[source := requested], t.links, versions))
  {
    var tags := t.tags[source := requested];
    forall i, j | i in tags && j in tags && tags[i].identity == tags[j].identity
      ensures i == j
    {
      assert i != source ==> (Owns(t.tags, requested.identity, i) <==> t.tags[i].identity == requested.identity);
      assert j != source ==> (Owns(t.tags, requested.identity, j) <==> t.tags[j].identity == requested.identity);
    }
  }

  lemma DeleteKeepsValid(t: Tables, after: Tables, source: TagId)
    requires Valid(t) && after.tags == t.tags - {source} && after.versions.Keys == t.versions.Keys
    requires forall l :: l in after.links ==>
              l.tag != source && (l in t.links || (l.tag in t.tags && Link(l.document, source) in t.links))
    ensures Valid(after)
  {
  }

  lemma TagsOfRename(op: Operation, links: set<Link>)
    requires op.Rename?
    ensures forall d :: TagsOf(links, d) == MeantTagsOf(op, TagsOf(links, d))
  {
  }

  ghost predicate Applicable(rules: Rules, managed: DocId -> bool, t: Tables, op: Operation, reviewed: Plan) {
    && Parse(rules, op).Some?
    && PlanFor(rules, managed, t, Parse(rules, op).value) == Ready(reviewed)
    && reviewed.conflict == NoConflict
    && (forall d :: d in reviewed.affected ==> CanAdvance(reviewed.affected[d].version))
    && (op.Rename? ==> reviewed.requested.Some? && CanonicalRow(rules, reviewed.requested.value))
  }

  lemma AffectedAreCarriers(t: Tables, source: TagId, destination: TagId)
    requires Valid(t)
    ensures |AffectedOf(t, source)| == |Carriers(t.links, source)|
    ensures destination in t.tags ==>
              AffectedOf(t, source).Keys - Collapsing(AffectedOf(t, source), destination)
              == Carriers(t.links, source) - Carriers(t.links, destination)
  {
    assert AffectedOf(t, source).Keys == Carriers(t.links, source);
  }

  lemma PlanIsSound(rules: Rules, managed: DocId -> bool, t: Tables, op: Operation, plan: Plan)
    requires Valid(t) && PlanFor(rules, managed, t, op) == Ready(plan) && plan.conflict == NoConflict
    ensures Sound(t, plan) && (plan.op.Rename? <==> op.Rename?) && (op.Rename? ==> plan.requested.Some?)
  {
    hide Canonicalize, CanonicalRow, AffectedOf, Collapsing, Carriers, Selected;
    AffectedAreCarriers(t, op.source, if op.Merge? then op.destination else op.source);
    if op.Rename? {
      RenameAllowed(rules, managed, t, op);
    }
    hide Valid;
  }

  /** A rename passes its closing check exactly when the new display name has no leading # left;
      parsing has removed only one. */
  lemma RenameNeedsNoHash(rules: Rules, op: Operation)
    requires op.Rename? && Requested(rules, op).Some?
    ensures var requested := Requested(rules, op).value;
            requested.name != "" && (CanonicalRow(rules, requested) <==> requested.name[0] != '#')
  {
    StableDisplay(rules, op.name);
    hide Display, Lower;
  }

  /** Apply parses the operation before it builds the plan, which parses it again. So a previewed rename
      is stale when the same name is applied, exactly when its display name still has a leading #. */
  lemma SameNameIsStale(rules: Rules, managed: DocId -> bool, t: Tables, op: Operation)
    requires op.Rename? && Requested(rules, op).Some? && PlanFor(rules, managed, t, op).Ready?
    ensures var previewed := PlanFor(rules, managed, t, op);
            PlanFor(rules, managed, t, Parse(rules, op).value) != previewed
            <==> "#" <= Requested(rules, op).value.name
  {
    hide Canonicalize, Parse, Requested, PlanFor, Display, Lower;
    ParsedAgain(rules, op);
    var again := Parse(rules, op).value;
    if Requested(rules, again) == Requested(rules, op) {
      SamePlan(rules, managed, t, op, again);
    } else if PlanFor(rules, managed, t, again).Ready? {
      PlanShowsRequest(rules, managed, t, op);
      PlanShowsRequest(rules, managed, t, again);
    }
  }

  lemma ParsedAgain(rules: Rules, op: Operation)
    requires op.Rename? && Requested(rules, op).Some?
    ensures Parse(rules, op).Some? && Parse(rules, op).value.Rename? && Parse(rules, op).value.source == op.source
    ensures var again, display := Parse(rules, op).value, Requested(rules, op).value.name;
            && display != ""
            && (display[0] != '#' <==> Requested(rules, again) == Requested(rules, op))
            && (display[0] != '#' ==> Parse(rules, again) == Parse(rules, op))
  {
    StableDisplay(rules, op.name);
    hide Display, Lower;
  }

  lemma PlanShowsRequest(rules: Rules, managed: DocId -> bool, t: Tables, op: Operation)
    requires PlanFor(rules, managed, t, op).Ready?
    ensures PlanFor(rules, managed, t, op).plan.requested == Requested(rules, op)
  {
    hide Canonicalize, Parse, Requested, AffectedOf, CanonicalRow, Selected;
  }

  lemma SamePlan(rules: Rules, managed: DocId -> bool, t: Tables, one: Operation, two: Operation)
    requires one.Rename? && two.Rename? && one.source == two.source
    requires Requested(rules, one) == Requested(rules, two) && Parse(rules, one) == Parse(rules, two)
    ensures PlanFor(rules, managed, t, one) == PlanFor(rules, managed, t, two)
  {
    hide Canonicalize, Parse, Requested, AffectedOf, CanonicalRow;
    assert forall id, tag :: Selected(rules, one, id, tag) <==> Selected(rules, two, id, tag);
  }

  lemma RemovedTagsOf(links: set<Link>, source: TagId)
    ensures var after := set l | l in links && l.tag != source;
            forall d :: TagsOf(after, d) == MeantTagsOf(Remove(source), TagsOf(links, d))
  {
  }

  predicate CanAdvance(current: int) {
    0 <= current < MAX_SAFE_INTEGER
  }

  lemma CountNext(both: set<DocId>, seen: set<DocId>, d: DocId)
    requires d !in seen
    ensures |both * (seen + {d})| == |both * seen| + if d in both then 1 else 0
    ensures |seen + {d} - both| == |seen - both| + if d in both then 0 else 1
  {
    if d in both {
      assert both * (seen + {d}) == both * seen + {d} && seen + {d} - both == seen - both;
    } else {
      assert both * (seen + {d}) == both * seen && seen + {d} - both == seen - both + {d};
    }
  }

  lemma CollapsingHas(affected: map<DocId, Affected>, destination: TagId, d: DocId)
    requires d in affected
    ensures d in Collapsing(affected, destination) <==> destination in affected[d].tags
  {
  }

  lemma CollapsingWithin(affected: map<DocId, Affected>, destination: TagId)
    ensures Collapsing(affected, destination) * affected.Keys == Collapsing(affected, destination)
  {
  }

  lemma {:induction false} SameSize(documents: set<DocId>, id: TagId)
    ensures |set d | d in documents :: Link(d, id)| == |documents|
    decreases documents
  {
    if documents != {} {
      var d :| d in documents;
      SameSize(documents - {d}, id);
      assert (set e | e in documents :: Link(e, id)) == (set e | e in documents - {d} :: Link(e, id)) + {Link(d, id)};
    }
  }

  lemma LinkCount(links: set<Link>, id: TagId)
    ensures |set l | l in links && l.tag == id| == |Carriers(links, id)|
  {
    SameSize(Carriers(links, id), id);
    assert (set l | l in links && l.tag == id) == set d | d in Carriers(links, id) :: Link(d, id);
  }

  lemma AddedCount(links: set<Link>, source: TagId, destination: TagId)
    ensures |(set d | d in Carriers(links, source) :: Link(d, destination)) - links|
              == |Carriers(links, source) - Carriers(links, destination)|
  {
    var lacking := Carriers(links, source) - Carriers(links, destination);
    SameSize(lacking, destination);
    assert (set d | d in Carriers(links, source) :: Link(d, destination)) - links
           == set d | d in lacking :: Link(d, destination);
  }

  lemma MergedTagsOf(before: set<Link>, after: set<Link>, source: TagId, destination: TagId, d: DocId)
    requires source != destination
    requires after == before + (set c | c in Carriers(before, source) :: Link(c, destination))
                      - (set l | l in before && l.tag == source)
    ensures TagsOf(after, d) == MeantTagsOf(Merge(source, destination), TagsOf(before, d))
  {
    assert source in TagsOf(before, d) <==> Link(d, source) in before;
    assert forall id :: id in TagsOf(after, d) <==> Link(d, id) in after;
    assert forall id :: id in TagsOf(before, d) <==> Link(d, id) in before;
  }
}
