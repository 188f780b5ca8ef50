/** recoverRenameReferencesJournal (server/crashRecovery.ts) for a renamed document or folder: the
    files that link to it are rewritten in place, all to the new or all to the old name, and on a
    roll-back what was renamed goes home. */
module ReferenceRecovery {
  import opened Options

  type Path = string
  type DocId = string

  datatype Kind = Document | Folder
  datatype Phase = Preparing | RollForward | RollBack | CleanupPhase
  datatype Reference = Reference(path: Path, before: string, after: string)
  datatype Outcome = Completed | Cleaned | Quarantined | RecoveryFailed

  /** A renamed document: its path below the renamed one, its id, and its text at the time of the
      rename, for which the journal holds the hash. */
  datatype Identity = Identity(suffix: Path, id: DocId, text: string)

  /** Document texts by logical path, and which of the two folders exist. */
  datatype Vault = Vault(files: map<Path, string>, folders: set<Path>)

  /** The fields of the journal recovery never changes. A document is its own only identity. */
  datatype Plan = Plan(kind: Kind, src: Path, dest: Path, identities: seq<Identity>, references: seq<Reference>)
  {
    /** What the parser guarantees, and the rename before it: no folder moves into itself. */
    ghost predicate Valid() {
      && src != dest
      && (forall i, j :: 0 <= i < j < |references| ==> references[i].path != references[j].path)
      && (forall i :: 0 <= i < |references| ==> references[i].before != references[i].after)
      && (if kind.Document? then |identities| == 1 && identities[0].suffix == ""
          else && !(src + "/" <= dest) && !(dest + "/" <= src)
               && forall i :: i in identities ==> "/" <= i.suffix)
    }
  }

  /** The document itself, or a document in the folder's subtree. */
  predicate Inside(plan: Plan, root: Path, p: Path) {
    if plan.kind.Document? then p == root else root + "/" <= p
  }

  function Relocated(p: Path, from: Path, to: Path): Path {
    to + if |from| <= |p| then p[|from|..] else ""
  }

  lemma RelocatedBack(plan: Plan, p: Path, from: Path, to: Path)
    requires Inside(plan, from, p)
    ensures Inside(plan, to, Relocated(p, from, to)) && Relocated(Relocated(p, from, to), to, from) == p
  {
    if plan.kind.Folder? {
      assert p == from + p[|from|..];
      assert Relocated(p, from, to)[..|to| + 1] == to + "/" by { assert p[|from|] == (from + "/")[|from|]; }
    }
  }

  lemma NestedPrefixes(a: string, b: string, p: string)
    requires a + "/" <= p && b + "/" <= p && |a| <= |b|
    ensures a == b || a + "/" <= b
  {
    if |a| == |b| {
      assert a == p[..|a|] == b;
    } else {
      assert (a + "/") == p[..|a| + 1] == (b + "/")[..|a| + 1];
      assert (b + "/")[..|a| + 1] == b[..|a| + 1];
    }
  }

  /** Neither place lies inside the other. */
  lemma PlacesAreApart(plan: Plan, p: Path)
    requires plan.Valid() && Inside(plan, plan.src, p)
    ensures !Inside(plan, plan.dest, p)
  {
    if plan.kind.Folder? && plan.dest + "/" <= p {
      if |plan.src| <= |plan.dest| {
        NestedPrefixes(plan.src, plan.dest, p);
      } else {
        NestedPrefixes(plan.dest, plan.src, p);
      }
    }
  }

  ghost predicate WellFormed(plan: Plan, v: Vault) {
    plan.kind.Folder? ==>
      forall p :: p in v.files ==>
        (plan.src + "/" <= p ==> plan.src in v.folders) && (plan.dest + "/" <= p ==> plan.dest in v.folders)
  }

  function Desired(phase: Phase, r: Reference): string {
    if phase == RollForward then r.after else r.before
  }

  function Expected(phase: Phase, r: Reference): string {
    if phase == RollForward then r.before else r.after
  }

  predicate Exists(plan: Plan, v: Vault, root: Path) {
    if plan.kind.Document? then root in v.files else root in v.folders
  }

  predicate ReferredAt(plan: Plan, p: Path) {
    exists r :: r in plan.references && r.path == p
  }

  predicate AfterTextAt(plan: Plan, p: Path, text: string) {
    exists r :: r in plan.references && r.path == p && text == r.after
  }

  /** The journaled text, or the after text of the identity's own reference, which is listed under
      the destination path; for a folder the source path is tried next. */
  predicate IdentityMatches(plan: Plan, files: map<Path, string>, root: Path, i: Identity) {
    && root + i.suffix in files
    && var text := files[root + i.suffix];
       || text == i.text
       || AfterTextAt(plan, plan.dest + i.suffix, text)
       || (plan.kind.Folder? && !ReferredAt(plan, plan.dest + i.suffix) && AfterTextAt(plan, plan.src + i.suffix, text))
  }

  /** fileGenerationMatches and folderGenerationMatches. */
  predicate Owns(plan: Plan, v: Vault, root: Path) {
    Exists(plan, v, root) && forall i :: i in plan.identities ==> IdentityMatches(plan, v.files, root, i)
  }

  predicate Holds(ids: map<Path, DocId>, p: Path, id: DocId) {
    p in ids && ids[p] == id
  }

  /** Every reference still holds one of its two texts. */
  predicate Rewritable(plan: Plan, files: map<Path, string>) {
    forall r :: r in plan.references ==> r.path in files && (files[r.path] == r.before || files[r.path] == r.after)
  }

  /** The files with the first k references rewritten. */
  function Rewritten(plan: Plan, phase: Phase, files: map<Path, string>, k: nat): map<Path, string>
    requires k <= |plan.references|
  {
    if k == 0 then files
    else Rewritten(plan, phase, files, k - 1)[plan.references[k - 1].path := Desired(phase, plan.references[k - 1])]
  }

  function AllRewritten(plan: Plan, phase: Phase, files: map<Path, string>): map<Path, string> {
    Rewritten(plan, phase, files, |plan.references|)
  }

  lemma {:induction false} RewrittenAt(plan: Plan, phase: Phase, files: map<Path, string>, k: nat)
    requires plan.Valid() && k <= |plan.references|
    ensures var after := Rewritten(plan, phase, files, k);
            && (forall i :: 0 <= i < k ==>
                  plan.references[i].path in after
                      && after[plan.references[i].path] == Desired(phase, plan.references[i]))
            && (forall p :: (forall i :: 0 <= i < k ==> plan.references[i].path != p) ==>
                  (p in after <==> p in files) && (p in after ==> after[p] == files[p]))
  {
    if k > 0 {
      RewrittenAt(plan, phase, files, k - 1);
    }
  }

  lemma RewrittenNone(plan: Plan, phase: Phase, files: map<Path, string>)
    ensures Rewritten(plan, phase, files, 0) == files
  {
  }

  lemma RewrittenStep(plan: Plan, phase: Phase, files: map<Path, string>, k: nat)
    requires plan.Valid() && k < |plan.references|
    ensures var r, now := plan.references[k], Rewritten(plan, phase, files, k);
            && (r.path in now <==> r.path in files)
            && (r.path in files ==> now[r.path] == files[r.path])
            && Rewritten(plan, phase, files, k + 1) == now[r.path := Desired(phase, r)]
            && (r.path in now && now[r.path] == Desired(phase, r) ==> Rewritten(plan, phase, files, k + 1) == now)
  {
    RewrittenAt(plan, phase, files, k);
  }

  /** Starting from any mixture of rewritten and untouched references, the result is the same. */
  lemma RewriteConverges(plan: Plan, phase: Phase, one: map<Path, string>, two: map<Path, string>)
    requires plan.Valid() && one.Keys == two.Keys
    requires forall p :: p in one && one[p] != two[p] ==> exists r :: r in plan.references && r.path == p
    ensures AllRewritten(plan, phase, one) == AllRewritten(plan, phase, two)
  {
    var k := |plan.references|;
    RewrittenAt(plan, phase, one, k);
    RewrittenAt(plan, phase, two, k);
    var a, b := AllRewritten(plan, phase, one), AllRewritten(plan, phase, two);
    forall p
      ensures p in a <==> p in b
      ensures p in a ==> a[p] == b[p]
    {
      if i :| 0 <= i < k && plan.references[i].path == p {
      } else {
        assert p in a <==> p in one;
        assert p in b <==> p in two;
      }
    }
  }

  // ---------- when recovery completes ----------

  /** A roll-back whose source path is taken while the destination still is the renamed generation
      can only go forward. */
  predicate MustGoForward(plan: Plan, phase: Phase, v: Vault) {
    phase == RollBack && Owns(plan, v, plan.dest) && Exists(plan, v, plan.src)
  }

  function Direction(plan: Plan, phase: Phase, v: Vault): Phase {
    if MustGoForward(plan, phase, v) then RollForward else phase
  }

  predicate MovesHome(plan: Plan, phase: Phase, v: Vault) {
    phase == RollBack && Exists(plan, v, plan.dest) && !Exists(plan, v, plan.src)
  }

  /** The metadata row of the renamed document, or every row at or below the folder's path. */
  predicate RowMoves(plan: Plan, p: Path) {
    p == plan.dest || (plan.kind.Folder? && plan.dest + "/" <= p)
  }

  /** moveDocumentMetadataPrefix meets no other row; a document's row replaces one at the source. */
  predicate RowsFree(plan: Plan, ids: map<Path, DocId>) {
    if plan.kind.Document? then plan.dest in ids
    else forall p :: p in ids && RowMoves(plan, p) ==> Relocated(p, plan.dest, plan.src) !in ids
  }

  /** Whether the metadata is moved at all on a roll-back: not for a folder whose owner journal has
      handled it, unless the folder itself still has to go home. */
  predicate MovesRows(plan: Plan, handled: bool, v: Vault, ids: map<Path, DocId>)
    requires plan.Valid()
  {
    || MovesHome(plan, RollBack, v)
    || (if plan.kind.Document?
        then !Holds(ids, plan.src, plan.identities[0].id) && Holds(ids, plan.dest, plan.identities[0].id)
        else !handled)
  }

  predicate MayProceed(plan: Plan, phase: Phase, v: Vault, ids: map<Path, DocId>)
    requires plan.Valid()
  {
    if phase == RollForward then
      Owns(plan, v, plan.dest) && (plan.kind.Document? ==> Holds(ids, plan.dest, plan.identities[0].id))
    else
      && !MustGoForward(plan, phase, v)
      && (Owns(plan, v, plan.src) || Owns(plan, v, plan.dest))
      && (plan.kind.Document? ==>
            Holds(ids, plan.src, plan.identities[0].id) || Holds(ids, plan.dest, plan.identities[0].id))
  }

  /** What an undisturbed recovery needs, checked on the vault and the ids it finds. */
  ghost predicate CanComplete(plan: Plan, handled: bool, phase: Phase, v: Vault, ids: map<Path, DocId>)
    requires plan.Valid()
  {
    var direction := Direction(plan, phase, v);
    && Rewritable(plan, v.files)
    && MayProceed(plan, direction, v, ids)
    && (direction == RollBack && MovesRows(plan, handled, v, ids) ==> RowsFree(plan, ids))
  }

  /** What was renamed goes home on a roll-back. */
  function AtHome(plan: Plan, phase: Phase, v: Vault): Vault {
    if !MovesHome(plan, phase, v) then v
    else
      var went := set p | p in v.files && Inside(plan, plan.dest, p) :: Relocated(p, plan.dest, plan.src);
      Vault(
        (map p | p in v.files && !Inside(plan, plan.dest, p) :: v.files[p])
        + (map q | q in went && Relocated(q, plan.src, plan.dest) in v.files ::
            v.files[Relocated(q, plan.src, plan.dest)]),
        if plan.kind.Folder? then v.folders - {plan.dest} + {plan.src} else v.folders)
  }

  function MovedIds(plan: Plan, ids: map<Path, DocId>): map<Path, DocId> {
    var went := set p | p in ids && RowMoves(plan, p) :: Relocated(p, plan.dest, plan.src);
    (map p | p in ids && !RowMoves(plan, p) :: ids[p])
    + (map q | q in went && Relocated(q, plan.src, plan.dest) in ids :: ids[Relocated(q, plan.src, plan.dest)])
  }

  /** The vault a completed recovery leaves. */
  function Final(plan: Plan, phase: Phase, v: Vault): Vault {
    var direction := Direction(plan, phase, v);
    AtHome(plan, direction, v.(files := AllRewritten(plan, direction, v.files)))
  }

  function FinalIds(plan: Plan, handled: bool, phase: Phase, v: Vault, ids: map<Path, DocId>): map<Path, DocId>
    requires plan.Valid()
  {
    if Direction(plan, phase, v) == RollBack && MovesRows(plan, handled, v, ids) then MovedIds(plan, ids) else ids
  }

  /** Where a reference's file is after a completed recovery. */
  function Home(plan: Plan, phase: Phase, v: Vault, p: Path): Path {
    if MovesHome(plan, Direction(plan, phase, v), v) && Inside(plan, plan.dest, p)
    then Relocated(p, plan.dest, plan.src) else p
  }

  lemma AtHomeAt(plan: Plan, phase: Phase, v: Vault, p: Path)
    requires plan.Valid() && WellFormed(plan, v) && MovesHome(plan, phase, v) && p in v.files
    ensures var q := if Inside(plan, plan.dest, p) then Relocated(p, plan.dest, plan.src) else p;
            q in AtHome(plan, phase, v).files && AtHome(plan, phase, v).files[q] == v.files[p]
    ensures Inside(plan, plan.dest, p) ==> p !in AtHome(plan, phase, v).files
  {
    if Inside(plan, plan.dest, p) {
      RelocatedBack(plan, p, plan.dest, plan.src);
    }
    forall o | o in v.files && Inside(plan, plan.dest, o) && Relocated(o, plan.dest, plan.src) == p
      ensures false
    {
      RelocatedBack(plan, o, plan.dest, plan.src);
      PlacesAreApart(plan, p);
    }
  }

  lemma RewrittenKeeps(plan: Plan, phase: Phase, v: Vault)
    requires plan.Valid() && Rewritable(plan, v.files)
    ensures var after := v.(files := AllRewritten(plan, phase, v.files));
            && after.files.Keys == v.files.Keys
            && (MovesHome(plan, phase, after) <==> MovesHome(plan, phase, v))
            && (WellFormed(plan, v) ==> WellFormed(plan, after))
            && forall r :: r in plan.references ==> after.files[r.path] == Desired(phase, r)
  {
    var k := |plan.references|;
    RewrittenAt(plan, phase, v.files, k);
    var after := AllRewritten(plan, phase, v.files);
    forall p
      ensures p in after <==> p in v.files
    {
      if i :| 0 <= i < k && plan.references[i].path == p {
        assert plan.references[i] in plan.references;
      }
    }
    hide Rewritten, Inside;
  }

  /** A completed recovery leaves every reference on the chosen side: all before or all after. */
  lemma AllOrNothing(plan: Plan, handled: bool, phase: Phase, v: Vault, ids: map<Path, DocId>)
    requires plan.Valid() && WellFormed(plan, v) && CanComplete(plan, handled, phase, v, ids)
    ensures var final := Final(plan, phase, v).files;
            forall r :: r in plan.references ==>
              && Home(plan, phase, v, r.path) in final
              && final[Home(plan, phase, v, r.path)] == Desired(Direction(plan, phase, v), r)
  {
    var direction := Direction(plan, phase, v);
    RewrittenKeeps(plan, direction, v);
    hide AllRewritten, Owns, AtHome, MayProceed, WellFormed, RowsFree, MovesRows;
    var after := v.(files := AllRewritten(plan, direction, v.files));
    forall r | r in plan.references
      ensures var final := Final(plan, phase, v).files;
              Home(plan, phase, v, r.path) in final && final[Home(plan, phase, v, r.path)] == Desired(direction, r)
    {
      if MovesHome(plan, direction, v) {
        AtHomeAt(plan, direction, after, r.path);
      } else {
        StaysPut(plan, direction, after);
      }
    }
  }

  lemma StaysPut(plan: Plan, phase: Phase, v: Vault)
    requires !MovesHome(plan, phase, v)
    ensures AtHome(plan, phase, v) == v
  {
  }

  /** Nothing changes but the references and what lies at the two places. */
  lemma OthersUntouched(plan: Plan, phase: Phase, v: Vault, p: Path)
    requires plan.Valid() && !Inside(plan, plan.src, p) && !Inside(plan, plan.dest, p)
    requires forall r :: r in plan.references ==> r.path != p
    ensures var final := Final(plan, phase, v).files;
            (p in final <==> p in v.files) && (p in final ==> final[p] == v.files[p])
  {
    var direction := Direction(plan, phase, v);
    RewrittenAt(plan, direction, v.files, |plan.references|);
    var after := AllRewritten(plan, direction, v.files);
    hide Rewritten, Owns;
    forall o | o in after && Inside(plan, plan.dest, o)
      ensures Relocated(o, plan.dest, plan.src) != p
    {
      RelocatedBack(plan, o, plan.dest, plan.src);
    }
  }

  /** The self references of a plan read from one set of files. */
  ghost predicate Consistent(plan: Plan) {
    && (forall r, i :: r in plan.references && i in plan.identities && r.path == plan.dest + i.suffix ==>
           r.before == i.text)
    && (forall r :: r in plan.references ==> !Inside(plan, plan.src, r.path))
  }

  /** A crash among the rewrites costs nothing: whichever references are already rewritten, in
      either direction, recovery can complete just the same and leaves the same files. */
  lemma RewritesAreCrashSafe(plan: Plan, handled: bool, phase: Phase,
                             found: Vault, crashed: Vault, ids: map<Path, DocId>)
    requires plan.Valid() && Consistent(plan) && Rewritable(plan, found.files) && Rewritable(plan, crashed.files)
    requires found.files.Keys == crashed.files.Keys && found.folders == crashed.folders
    requires forall p :: p in found.files && found.files[p] != crashed.files[p] ==> ReferredAt(plan, p)
    ensures CanComplete(plan, handled, phase, found, ids) <==> CanComplete(plan, handled, phase, crashed, ids)
    ensures CanComplete(plan, handled, phase, found, ids) ==> Final(plan, phase, found) == Final(plan, phase, crashed)
  {
    SameOwners(plan, found, crashed);
    hide Rewritten, Owns, Consistent;
    if CanComplete(plan, handled, phase, found, ids) {
      RewriteConverges(plan, Direction(plan, phase, found), found.files, crashed.files);
    }
  }

  lemma SameOwners(plan: Plan, found: Vault, crashed: Vault)
    requires plan.Valid() && Consistent(plan) && Rewritable(plan, found.files) && Rewritable(plan, crashed.files)
    requires found.files.Keys == crashed.files.Keys && found.folders == crashed.folders
    requires forall p :: p in found.files && found.files[p] != crashed.files[p] ==> ReferredAt(plan, p)
    ensures Owns(plan, found, plan.dest) <==> Owns(plan, crashed, plan.dest)
    ensures Owns(plan, found, plan.src) <==> Owns(plan, crashed, plan.src)
  {
    forall i | i in plan.identities
      ensures IdentityMatches(plan, found.files, plan.dest, i) <==> IdentityMatches(plan, crashed.files, plan.dest, i)
      ensures IdentityMatches(plan, found.files, plan.src, i) <==> IdentityMatches(plan, crashed.files, plan.src, i)
    {
      SameIdentity(plan, found.files, crashed.files, i);
    }
  }

  lemma SameIdentity(plan: Plan, found: map<Path, string>, crashed: map<Path, string>, i: Identity)
    requires plan.Valid() && Consistent(plan) && Rewritable(plan, found) && Rewritable(plan, crashed)
               && found.Keys == crashed.Keys
    requires forall p :: p in found && found[p] != crashed[p] ==> ReferredAt(plan, p)
    requires i in plan.identities
    ensures IdentityMatches(plan, found, plan.dest, i) <==> IdentityMatches(plan, crashed, plan.dest, i)
    ensures IdentityMatches(plan, found, plan.src, i) <==> IdentityMatches(plan, crashed, plan.src, i)
  {
    SourceIsInside(plan, i);
    var p := plan.dest + i.suffix;
    if p in found && found[p] != crashed[p] {
      var r :| r in plan.references && r.path == p;
      assert AfterTextAt(plan, p, r.after);
    }
  }

  lemma SourceIsInside(plan: Plan, i: Identity)
    requires plan.Valid() && i in plan.identities
    ensures Inside(plan, plan.src, plan.src + i.suffix) && Inside(plan, plan.dest, plan.dest + i.suffix)
  {
    if plan.kind.Document? {
      assert plan.src + "" == plan.src && plan.dest + "" == plan.dest;
    } else {
      assert (plan.src + i.suffix)[..|plan.src| + 1] == plan.src + i.suffix[..1];
      assert (plan.dest + i.suffix)[..|plan.dest| + 1] == plan.dest + i.suffix[..1];
    }
  }

  // ---------- the metadata rows ----------

  lemma RowRelocatedBack(plan: Plan, p: Path)
    requires plan.Valid() && RowMoves(plan, p)
    ensures var q := Relocated(p, plan.dest, plan.src);
            Relocated(q, plan.src, plan.dest) == p && !RowMoves(plan, q) && (plan.kind.Document? ==> q == plan.src)
  {
    var q := Relocated(p, plan.dest, plan.src);
    assert plan.dest <= p && q[..|plan.src|] == plan.src;
    if plan.kind.Folder? && p != plan.dest {
      RelocatedBack(plan, p, plan.dest, plan.src);
      PlacesAreApart(plan, q);
    }
  }

  /** After a roll-back that moves metadata every row of the destination is back at the source,
      and no other row is lost except a document's row replaced at the source path. */
  lemma RowsGoHome(plan: Plan, ids: map<Path, DocId>, p: Path)
    requires plan.Valid() && RowsFree(plan, ids)
    ensures var after := MovedIds(plan, ids);
            && (RowMoves(plan, p) ==>
                 p !in after && (p in ids ==> Holds(after, Relocated(p, plan.dest, plan.src), ids[p])))
            && (!RowMoves(plan, p) && p in ids && (plan.kind.Document? ==> p != plan.src) ==> Holds(after, p, ids[p]))
            && (p in after ==> p in ids || Relocated(p, plan.src, plan.dest) in ids)
  {
    forall o | RowMoves(plan, o)
      ensures Relocated(Relocated(o, plan.dest, plan.src), plan.src, plan.dest) == o
      ensures !RowMoves(plan, Relocated(o, plan.dest, plan.src))
      ensures plan.kind.Document? ==> Relocated(o, plan.dest, plan.src) == plan.src
    {
      RowRelocatedBack(plan, o);
    }
    hide Relocated, RowMoves;
  }

  /** After a roll-back the source path carries the document's id, except where the document went
      home while the destination row was another document's: that row then replaces it. */
  lemma IdGoesHome(plan: Plan, handled: bool, phase: Phase, v: Vault, ids: map<Path, DocId>)
    requires plan.Valid() && plan.kind.Document? && (phase == RollForward || phase == RollBack)
    requires CanComplete(plan, handled, phase, v, ids)
    ensures var after, id := FinalIds(plan, handled, phase, v, ids), plan.identities[0].id;
            if Direction(plan, phase, v) == RollForward then after == ids && Holds(after, plan.dest, id)
            else Holds(after, plan.src, id) <==> (MovesHome(plan, phase, v) ==> Holds(ids, plan.dest, id))
  {
    RowRelocatedBack(plan, plan.dest);
    if RowsFree(plan, ids) {
      RowsGoHome(plan, ids, plan.dest);
    }
    hide Rewritable, Owns, MovedIds;
  }

  // ---------- the way home is not repeatable ----------

  lemma OwnsAtHome(plan: Plan, handled: bool, v: Vault, ids: map<Path, DocId>)
    requires plan.Valid() && WellFormed(plan, v) && MovesHome(plan, RollBack, v)
    requires CanComplete(plan, handled, RollBack, v, ids)
    requires forall r :: r in plan.references ==> !Inside(plan, plan.dest, r.path)
    ensures Owns(plan, Final(plan, RollBack, v), plan.src)
  {
    var home := Final(plan, RollBack, v);
    RewrittenKeeps(plan, RollBack, v);
    var after := v.(files := AllRewritten(plan, RollBack, v.files));
    RewrittenAt(plan, RollBack, v.files, |plan.references|);
    hide Rewritten, WellFormed;
    forall i | i in plan.identities
      ensures plan.src + i.suffix in home.files && home.files[plan.src + i.suffix] == v.files[plan.dest + i.suffix]
    {
      var p := plan.dest + i.suffix;
      assert IdentityMatches(plan, v.files, plan.dest, i);
      SourceIsInside(plan, i);
      assert after.files[p] == v.files[p];
      AtHomeAt(plan, RollBack, after, p);
      assert Relocated(p, plan.dest, plan.src) == plan.src + i.suffix;
    }
    hide AllRewritten;
    assert Exists(plan, home, plan.src) by { ExistsAtHome(plan, after); }
  }

  lemma ExistsAtHome(plan: Plan, v: Vault)
    requires plan.Valid() && WellFormed(plan, v) && MovesHome(plan, RollBack, v)
    ensures Exists(plan, AtHome(plan, RollBack, v), plan.src) && !Exists(plan, AtHome(plan, RollBack, v), plan.dest)
  {
    if plan.kind.Document? {
      AtHomeAt(plan, RollBack, v, plan.dest);
      assert Relocated(plan.dest, plan.dest, plan.src) == plan.src;
    }
  }

  lemma RowsAreHome(plan: Plan, handled: bool, v: Vault, ids: map<Path, DocId>)
    requires plan.Valid() && MovesHome(plan, RollBack, v) && CanComplete(plan, handled, RollBack, v, ids)
    requires plan.kind.Document? ==> Holds(ids, plan.dest, plan.identities[0].id)
    ensures var after := FinalIds(plan, handled, RollBack, v, ids);
            && (forall p :: RowMoves(plan, p) ==> p !in after)
            && (plan.kind.Document? ==> Holds(after, plan.src, plan.identities[0].id))
  {
    hide Rewritable, Owns, MovedIds, RowsFree, RowMoves;
    forall p
      ensures RowMoves(plan, p) ==> p !in FinalIds(plan, handled, RollBack, v, ids)
    {
      RowsGoHome(plan, ids, p);
    }
    if plan.kind.Document? {
      IdGoesHome(plan, handled, RollBack, v, ids);
    }
  }

  /** What recovery needs of a roll-back that is already home. */
  lemma CompletesAtHome(plan: Plan, handled: bool, home: Vault, ids: map<Path, DocId>)
    requires plan.Valid() && Rewritable(plan, home.files)
    requires Owns(plan, home, plan.src) && !Exists(plan, home, plan.dest)
    requires forall p :: RowMoves(plan, p) ==> p !in ids
    requires plan.kind.Document? ==> Holds(ids, plan.src, plan.identities[0].id)
    ensures CanComplete(plan, handled, RollBack, home, ids)
  {
    hide Rewritable, Relocated;
    assert !Owns(plan, home, plan.dest);
  }

  lemma RewritableAtHome(plan: Plan, handled: bool, v: Vault, ids: map<Path, DocId>)
    requires plan.Valid() && WellFormed(plan, v) && MovesHome(plan, RollBack, v)
    requires CanComplete(plan, handled, RollBack, v, ids)
    ensures Rewritable(plan, Final(plan, RollBack, v).files)
            <==> forall r :: r in plan.references ==> !Inside(plan, plan.dest, r.path)
  {
    AllOrNothing(plan, handled, RollBack, v, ids);
    RewrittenKeeps(plan, RollBack, v);
    var after := v.(files := AllRewritten(plan, RollBack, v.files));
    hide Rewritten, AllRewritten, Inside, Relocated, Owns, AtHome, WellFormed, MayProceed;
    forall r | r in plan.references && Inside(plan, plan.dest, r.path)
      ensures r.path !in Final(plan, RollBack, v).files
    {
      AtHomeAt(plan, RollBack, after, r.path);
    }
  }

  /** Once a roll-back has moved home what was renamed, a second recovery cannot complete exactly
      when one of the references lies there: references are listed under the destination path. */
  lemma SelfReferenceBlocksRerun(plan: Plan, handled: bool, v: Vault, ids: map<Path, DocId>)
    requires plan.Valid() && WellFormed(plan, v) && MovesHome(plan, RollBack, v)
    requires CanComplete(plan, handled, RollBack, v, ids)
    requires plan.kind.Document? ==> Holds(ids, plan.dest, plan.identities[0].id)
    ensures CanComplete(plan, handled, RollBack, Final(plan, RollBack, v), FinalIds(plan, handled, RollBack, v, ids))
            <==> forall r :: r in plan.references ==> !Inside(plan, plan.dest, r.path)
  {
    RewritableAtHome(plan, handled, v, ids);
    if forall r :: r in plan.references ==> !Inside(plan, plan.dest, r.path) {
      OwnsAtHome(plan, handled, v, ids);
      RewrittenKeeps(plan, RollBack, v);
      ExistsAtHome(plan, v.(files := AllRewritten(plan, RollBack, v.files)));
      RowsAreHome(plan, handled, v, ids);
      hide AllRewritten, AtHome, Rewritable, Owns, WellFormed, Inside, RowMoves, MovedIds, MovesRows, MayProceed,
          Holds, RowsFree;
      CompletesAtHome(plan, handled, Final(plan, RollBack, v), FinalIds(plan, handled, RollBack, v, ids));
    }
  }

  // ---------- the recovery in place ----------

  /** The reference's file, wherever it now is, holds the text of the phase's side. */
  predicate OnSide(plan: Plan, phase: Phase, files: map<Path, string>, r: Reference) {
    var p :=
      if r.path !in files && Inside(plan, plan.dest, r.path) then Relocated(r.path, plan.dest, plan.src) else r.path;
    p in files && files[p] == Desired(phase, r)
  }

  lemma FinishedOnSide(plan: Plan, phase: Phase, v: Vault)
    requires plan.Valid() && WellFormed(plan, v) && Rewritable(plan, v.files)
    ensures var final := AtHome(plan, phase, v.(files := AllRewritten(plan, phase, v.files)));
            forall r :: r in plan.references ==> OnSide(plan, phase, final.files, r)
  {
    RewrittenKeeps(plan, phase, v);
    var after := v.(files := AllRewritten(plan, phase, v.files));
    hide AllRewritten, WellFormed;
    forall r | r in plan.references
      ensures OnSide(plan, phase, AtHome(plan, phase, after).files, r)
    {
      if MovesHome(plan, phase, after) {
        AtHomeAt(plan, phase, after, r.path);
      }
    }
  }

  predicate TextKnown(files: map<Path, string>, r: Reference) {
    r.path in files && (files[r.path] == r.before || files[r.path] == r.after)
  }

  /** One of the first k identities has its row at its destination path. */
  predicate Journaled(plan: Plan, k: nat, ids: map<Path, DocId>, p: Path)
    requires k <= |plan.identities|
  {
    exists i :: 0 <= i < k && p == plan.dest + plan.identities[i].suffix && Holds(ids, p, plan.identities[i].id)
  }

  /** A foreign generation at the destination keeps no journaled id. */
  function Detached(plan: Plan, k: nat, ids: map<Path, DocId>): map<Path, DocId>
    requires k <= |plan.identities|
  {
    map p | p in ids && !Journaled(plan, k, ids, p) :: ids[p]
  }

  datatype Verdict = Proceed | Flip | Defer | Refuse

  /** An external generation that may take the source path: a document, or a folder and its files. */
  ghost predicate AtSource(plan: Plan, files: map<Path, string>) {
    (forall p :: p in files ==> Inside(plan, plan.src, p)) && (plan.kind.Document? ==> plan.src in files)
  }

  function Taken(plan: Plan, v: Vault, generation: map<Path, string>): Vault {
    Vault(v.files + generation, if plan.kind.Folder? then v.folders + {plan.src} else v.folders)
  }

  /** One invocation. `payloadsValid` stands for the bundle check, `handled` for metadata the owner
      journal has taken over, `companion` for a folder-move journal of a way home,
      `refused` are the paths at which an atomic replace fails, `race` an external generation that
      takes the source path just before what was renamed would go home. */
  class Recovery {
    const plan: Plan
    const payloadsValid: bool
    const handled: bool
    const refused: set<Path>
    var phase: Phase
    var journalExists: bool
    var vault: Vault
    var ids: map<Path, DocId>
    var race: Option<map<Path, string>>
    var companion: bool

    ghost predicate Valid()
      reads this
    {
      plan.Valid() && WellFormed(plan, vault) && (race.Some? ==> AtSource(plan, race.value))
    }

    /** The move home: create-only, so it fails when the source path has been taken. */
    method MoveHome() returns (moved: bool)
      requires Valid() && MovesHome(plan, phase, vault)
      modifies this`vault, this`race
      ensures race == None && moved == old(race).None?
      ensures vault == if moved then AtHome(plan, phase, old(vault)) else Taken(plan, old(vault), old(race).value)
    {
      moved := race.None?;
      if moved {
        vault := AtHome(plan, phase, vault);
      } else {
        vault := Taken(plan, vault, race.value);
      }
      race := None;
    }

    /** moveDocumentMetadataReplacingDestination, or for a folder moveDocumentMetadataPrefix. */
    method MoveRows() returns (moved: bool)
      requires plan.Valid()
      modifies this`ids
      ensures moved <==> RowsFree(plan, old(ids))
      ensures ids == if moved then MovedIds(plan, old(ids)) else old(ids)
    {
      moved := RowsFree(plan, ids);
      if moved {
        ids := MovedIds(plan, ids);
      }
    }

    /** The reference loop: skip what is already on the desired side, rewrite what is on the
        other, stop at anything else. */
    method RewriteReferences() returns (o: Outcome)
      requires plan.Valid() && (phase == RollForward || phase == RollBack)
      modifies this`vault
      ensures o == Completed || o == Quarantined || o == RecoveryFailed
      ensures vault.folders == old(vault).folders
      ensures o == Completed ==>
                Rewritable(plan, old(vault).files) && vault.files == AllRewritten(plan, phase, old(vault).files)
      ensures Rewritable(plan, old(vault).files) && refused == {} ==> o == Completed
      ensures exists k :: 0 <= k <= |plan.references| && vault.files == Rewritten(plan, phase, old(vault).files, k)
                          && forall i :: 0 <= i < k ==> TextKnown(old(vault).files, plan.references[i])
    {
      hide Rewritten;
      ghost var before := vault.files;
      var k := 0;
      RewrittenNone(plan, phase, before);
      while k < |plan.references|
        invariant 0 <= k <= |plan.references|
        invariant vault.folders == old(vault).folders && vault.files == Rewritten(plan, phase, before, k)
        invariant forall i :: 0 <= i < k ==> TextKnown(before, plan.references[i])
      {
        var r := plan.references[k];
        var files := vault.files;
        RewrittenStep(plan, phase, before, k);
        if r.path !in files || (files[r.path] != Desired(phase, r) && files[r.path] != Expected(phase, r)) {
          return Quarantined;
        }
        if files[r.path] == Expected(phase, r) {
          if r.path in refused {
            return RecoveryFailed;
          }
          vault := vault.(files := files[r.path := Desired(phase, r)]);
        }
        k := k + 1;
      }
      forall r | r in plan.references
        ensures TextKnown(before, r)
      {
        var i :| 0 <= i < |plan.references| && plan.references[i] == r;
      }
      o := Completed;
    }

    method DetachIdentities()
      modifies this`ids
      ensures ids == Detached(plan, |plan.identities|, old(ids))
    {
      ghost var before := ids;
      var k := 0;
      while k < |plan.identities|
        invariant 0 <= k <= |plan.identities|
        invariant ids == Detached(plan, k, before)
      {
        var i := plan.identities[k];
        if Holds(ids, plan.dest + i.suffix, i.id) {
          ids := ids - {plan.dest + i.suffix};
        }
        k := k + 1;
      }
    }

    /** The ownership checks before anything is written. */
    method CheckOwnership() returns (verdict: Verdict)
      requires plan.Valid() && (phase == RollForward || phase == RollBack)
      modifies this`ids
      ensures verdict == Flip <==> MustGoForward(plan, phase, vault)
      ensures verdict == Proceed <==> MayProceed(plan, phase, vault, old(ids))
      ensures verdict != Defer
      ensures ids == if phase == RollForward && Exists(plan, vault, plan.dest) && !Owns(plan, vault, plan.dest)
                     then Detached(plan, |plan.identities|, old(ids)) else old(ids)
    {
      hide Detached;
      if phase == RollForward {
        if !Exists(plan, vault, plan.dest) {
          return Refuse;
        }
        if !Owns(plan, vault, plan.dest) {
          DetachIdentities();
          return Refuse;
        }
        if plan.kind.Document? && !Holds(ids, plan.dest, plan.identities[0].id) {
          return Refuse;
        }
      } else {
        if !Owns(plan, vault, plan.src) && !Owns(plan, vault, plan.dest) {
          return Refuse;
        }
        if Owns(plan, vault, plan.dest) && Exists(plan, vault, plan.src) {
          return Flip;
        }
        if plan.kind.Document? && !Holds(ids, plan.src, plan.identities[0].id)
            && !Holds(ids, plan.dest, plan.identities[0].id) {
          return Refuse;
        }
      }
      verdict := Proceed;
    }

    /** After the references: on a roll-back what was renamed and its metadata go home. A folder goes
        by a folder-move journal of its own, written first and left behind where its move or its rows
        fail; only a document that finds its path taken turns the direction. */
    method Finish() returns (verdict: Verdict)
      requires Valid() && (phase == RollForward || phase == RollBack)
      modifies this`vault, this`ids, this`race, this`companion
      ensures var moves, folder, raced := MovesHome(plan, phase, old(vault)), plan.kind.Folder?, old(race).Some?;
              var waits := folder && old(companion);
              var rows := phase == RollBack && MovesRows(plan, handled, old(vault), old(ids));
              && (verdict == Defer <==> moves && waits)
              && (verdict == Flip <==> moves && raced && !folder)
              && (verdict == Refuse <==>
                   || (moves && raced && folder && !waits)
                   || (rows && !RowsFree(plan, old(ids)) && !(moves && (waits || raced))))
              && (verdict == Proceed ==>
                    && vault == AtHome(plan, phase, old(vault))
                    && ids == if rows then MovedIds(plan, old(ids)) else old(ids))
              && (verdict == Flip || (verdict == Refuse && moves && raced) ==>
                    ids == old(ids) && vault == Taken(plan, old(vault), old(race).value))
              && (companion <==> old(companion) || (verdict == Refuse && moves && folder))
              && race == if verdict == Flip || (verdict == Refuse && moves) then None else old(race)
    {
      hide MovedIds, AtHome, RowsFree;
      verdict := Proceed;
      if phase == RollBack && Exists(plan, vault, plan.dest) && !Exists(plan, vault, plan.src) {
        if companion && plan.kind.Folder? {
          return Defer;
        }
        var moved := MoveHome();
        if !moved && plan.kind.Document? {
          return Flip;
        }
        var movedRows := false;
        if moved {
          movedRows := MoveRows();
        }
        if !movedRows {
          companion := companion || plan.kind.Folder?;
          return Refuse;
        }
      } else {
        StaysPut(plan, phase, vault);
        if phase == RollBack {
          if plan.kind.Document? {
            if !Holds(ids, plan.src, plan.identities[0].id) && Holds(ids, plan.dest, plan.identities[0].id) {
              var movedRows := MoveRows();
              if !movedRows {
                return Refuse;
              }
            }
          } else if !handled {
            var movedRows := MoveRows();
            if !movedRows {
              return Refuse;
            }
          }
        }
      }
    }

    method Recover() returns (o: Outcome)
      requires Valid() && journalExists
      modifies this
      decreases if phase == RollBack then 1 else 0
      ensures phase == old(phase) || (old(phase) == RollBack && phase == RollForward)
      ensures !journalExists <==> o == Completed || o == Cleaned
      ensures o == Cleaned <==> payloadsValid && (old(phase) == Preparing || old(phase) == CleanupPhase)
      ensures (payloadsValid && refused == {} && (old(race).None? || plan.kind.Folder?)
               && (old(phase) == RollForward || old(phase) == RollBack)) ==>
                (o == Completed <==>
                  && CanComplete(plan, handled, old(phase), old(vault), old(ids))
                  && !(plan.kind.Folder? && MovesHome(plan, old(phase), old(vault))
                       && (old(companion) || old(race).Some?)))
      ensures companion != old(companion) ==> companion && plan.kind.Folder? && o == RecoveryFailed
      ensures o == Completed && (old(race).None? || plan.kind.Folder?) ==>
                && phase == Direction(plan, old(phase), old(vault))
                && vault == Final(plan, old(phase), old(vault))
                && ids == FinalIds(plan, handled, old(phase), old(vault), old(ids))
      ensures o == Completed ==> forall r :: r in plan.references ==> OnSide(plan, phase, vault.files, r)
    {
      hide Rewritten, Owns, Holds, OnSide, AtHome, WellFormed, RowsFree, MovedIds, Inside, Detached;
      if !payloadsValid {
        return Quarantined;
      }
      if phase == Preparing || phase == CleanupPhase {
        journalExists := false;
        return Cleaned;
      }
      ghost var vault0, ids0 := vault, ids;
      var verdict := CheckOwnership();
      if verdict == Flip {
        phase := RollForward;
        o := Recover();
        return;
      }
      if verdict == Refuse {
        return Quarantined;
      }
      o := RewriteReferences();
      if o != Completed {
        return;
      }
      RewrittenKeeps(plan, phase, vault0);
      ghost var vault1 := vault;
      verdict := Finish();
      if verdict == Flip {
        TakenIsValid(plan, vault1, old(race).value);
        phase := RollForward;
        o := Recover();
        return;
      }
      if verdict == Defer {
        return Quarantined;
      }
      if verdict == Refuse {
        return RecoveryFailed;
      }
      FinishedOnSide(plan, phase, vault0);
      journalExists := false;
    }
  }

  lemma TakenIsValid(plan: Plan, v: Vault, generation: map<Path, string>)
    requires plan.Valid() && WellFormed(plan, v) && AtSource(plan, generation)
    ensures WellFormed(plan, Taken(plan, v, generation))
  {
    forall p | p in generation
      ensures !Inside(plan, plan.dest, p)
    {
      PlacesAreApart(plan, p);
    }
  }
}
