/** The handshake by which a folder rename's rollback hands the metadata decision from the
    rename-reference journal (the companion) to the reversed folder-move journal (the owner):
    server/routes/folders.ts, server/renameReferenceOwnerBinding.ts, and the recovery of both
    journals. Any step may be followed by a crash, and recovery may take its steps in any order. */
module OwnerHandshake {
  /** metadataDisposition of the companion; Legacy is a companion no owner was bound to. */
  datatype Companion = Legacy | Pending | Owned(handled: bool) | Aborted | Removed

  /** The reversed folder-move journal. */
  datatype Owner = Absent | Prepared | Landed | Committed

  /** Where the folder's rows are, and which effect put them back. */
  datatype Rows = AtDestination | RestoredByOwner | MovedByCompanion

  /** The live rollback: the next step to take, or the process is gone. */
  datatype Pc =
    | Bind | WriteOwner | MarkOwned | MoveTree | RestoreRows | MarkHandled | Commit
    | RemoveOwner | Cleanup | Done | Down

  datatype State = State(
    pc: Pc, companion: Companion, owner: Owner, treeBack: bool, rows: Rows,
    restores: nat, prefixMoves: nat, ownerWritten: bool)

  /** The forward move is committed, its journal removed, the companion set to roll back. */
  predicate Init(s: State) {
    s == State(Bind, Legacy, Absent, false, AtDestination, 0, 0, false)
  }

  // ---------- durable steps ----------

  function BindPending(s: State): State { s.(companion := Pending) }

  function WriteOwnerJournal(s: State): State { s.(owner := Prepared, ownerWritten := true) }

  function Land(s: State): State { s.(owner := Landed, treeBack := true) }

  /** restoreDocumentMetadataMutationCASIdempotent: a second call changes nothing. */
  function Restore(s: State): State {
    if s.rows == RestoredByOwner then s else s.(rows := RestoredByOwner, restores := s.restores + 1)
  }

  /** markRenameReferenceMetadataHandled binds only an owned companion. */
  function Handle(s: State): State
    requires s.companion.Owned?
  {
    s.(companion := Owned(true))
  }

  /** The companion's own rollback: moveDocumentMetadataPrefix, skipped once an owner has handled
      the metadata. */
  function Replay(s: State): State
    requires s.companion.Legacy? || s.companion == Owned(true)
  {
    if s.companion.Legacy?
    then s.(companion := Removed, treeBack := true, rows := MovedByCompanion, prefixMoves := s.prefixMoves + 1)
    else s.(companion := Removed)
  }

  ghost predicate LiveStep(s: State, t: State) {
    match s.pc
    case Bind => t == BindPending(s).(pc := WriteOwner)
    case WriteOwner => t == WriteOwnerJournal(s).(pc := MarkOwned)
    case MarkOwned => t == s.(companion := Owned(false), pc := MoveTree)
    case MoveTree => t == Land(s).(pc := RestoreRows)
    case RestoreRows => s.companion.Owned? && t == Restore(s).(pc := MarkHandled)
    case MarkHandled => s.companion.Owned? && t == Handle(s).(pc := Commit)
    case Commit => t == s.(owner := Committed, pc := RemoveOwner)
    case RemoveOwner => s.companion.Owned? && t == s.(owner := Absent, pc := Cleanup)
    case Cleanup => t == s.(companion := Removed, pc := Done)
    case Done => false
    case Down => false
  }

  ghost predicate CrashStep(s: State, t: State) {
    t == s.(pc := Down)
  }

  /** reconcilePendingRenameReferenceOwner. */
  ghost predicate ReconcileStep(s: State, t: State) {
    && s.pc == Down && s.companion == Pending
    && t == s.(companion := if s.owner == Absent then Aborted else Owned(false))
  }

  /** recoverFolderMoveJournalV4 of the owner; from files-landed on it needs a durably owned
      companion and quarantines otherwise. */
  ghost predicate OwnerStep(s: State, t: State) {
    && s.pc == Down
    && match s.owner
       case Absent => false
       case Prepared => t == Land(s)
       case Landed =>
         && s.companion.Owned?
         && t == if s.rows != RestoredByOwner then Restore(s)
                 else if !s.companion.handled then Handle(s)
                 else s.(owner := Committed)
       case Committed => s.companion.Owned? && t == s.(owner := Absent)
  }

  /** recoverRenameReferencesJournal past the reconciliation. */
  ghost predicate CompanionStep(s: State, t: State) {
    && s.pc == Down
    && (s.companion == Legacy || (s.companion == Owned(true) && s.owner == Absent))
    && t == Replay(s)
  }

  ghost predicate RecoveryStep(s: State, t: State) {
    ReconcileStep(s, t) || OwnerStep(s, t) || CompanionStep(s, t)
  }

  ghost predicate Step(s: State, t: State) {
    LiveStep(s, t) || CrashStep(s, t) || RecoveryStep(s, t)
  }

  ghost predicate IsRun(run: seq<State>) {
    |run| > 0 && Init(run[0]) && forall i :: 0 <= i < |run| - 1 ==> Step(run[i], run[i + 1])
  }

  // ---------- safety ----------

  ghost predicate Inv(s: State) {
    && (s.restores == if s.rows == RestoredByOwner then 1 else 0)
    && (s.prefixMoves == if s.rows == MovedByCompanion then 1 else 0)
    && (s.owner != Absent ==>
         s.ownerWritten && s.companion != Legacy && s.companion != Aborted && s.companion != Removed)
    && (s.rows == RestoredByOwner ==> s.ownerWritten && s.treeBack && (s.companion.Owned? || s.companion == Removed))
    && (s.rows == MovedByCompanion ==> !s.ownerWritten && s.treeBack && s.companion == Removed)
    && (s.companion == Owned(true) ==> s.rows == RestoredByOwner)
    && (s.owner == Committed ==> s.companion == Owned(true))
    && (s.companion == Owned(false) ==> s.owner == Prepared || s.owner == Landed)
    && (s.ownerWritten && s.companion == Removed ==> s.rows == RestoredByOwner)
    && (s.companion == Aborted ==> !s.ownerWritten && s.rows == AtDestination)
    && (s.companion == Pending ==> s.rows == AtDestination && (s.ownerWritten ==> s.owner != Absent))
    && (s.companion == Legacy ==> !s.ownerWritten && s.rows == AtDestination)
    && (s.owner == Landed || s.owner == Committed ==> s.treeBack)
    && (s.owner == Prepared ==> s.rows == AtDestination)
    && (!s.ownerWritten && s.companion != Removed ==> !s.treeBack)
    && (s.companion == Removed && !s.ownerWritten ==> s.rows == MovedByCompanion)
    && PcInv(s)
  }

  ghost predicate PcInv(s: State) {
    match s.pc
    case Bind => s.companion == Legacy && s.owner == Absent
    case WriteOwner => s.companion == Pending && s.owner == Absent && !s.ownerWritten
    case MarkOwned => s.companion == Pending && s.owner == Prepared
    case MoveTree => s.companion == Owned(false) && s.owner == Prepared
    case RestoreRows => s.companion == Owned(false) && s.owner == Landed && s.rows == AtDestination
    case MarkHandled => s.companion == Owned(false) && s.owner == Landed && s.rows == RestoredByOwner
    case Commit => s.companion == Owned(true) && s.owner == Landed
    case RemoveOwner => s.companion == Owned(true) && s.owner == Committed
    case Cleanup => s.companion == Owned(true) && s.owner == Absent
    case Done => s.companion == Removed && s.owner == Absent
    case Down => true
  }

  lemma StepKeepsInv(s: State, t: State)
    requires Inv(s) && Step(s, t)
    ensures Inv(t)
  {
  }

  lemma {:induction false} RunKeepsInv(run: seq<State>)
    requires IsRun(run)
    ensures Inv(run[|run| - 1])
  {
    hide Inv, Step, Init;
    if |run| == 1 {
      InitInv(run[0]);
    } else {
      var prefix := run[..|run| - 1];
      assert forall i :: 0 <= i < |prefix| - 1 ==> Step(prefix[i], prefix[i + 1]) by {
        forall i | 0 <= i < |prefix| - 1
          ensures Step(prefix[i], prefix[i + 1])
        {
          assert Step(run[i], run[i + 1]);
        }
      }
      RunKeepsInv(prefix);
      var k := |run| - 2;
      assert Step(run[k], run[k + 1]);
      StepKeepsInv(run[k], run[k + 1]);
    }
  }

  lemma InitInv(s: State)
    requires Init(s)
    ensures Inv(s)
  {
  }

  /** Over every run with any crashes: at most one of the owner's restore and the companion's
      prefix move is ever applied; the companion's only if no owner journal was ever durable. */
  lemma OneMetadataEffect(run: seq<State>)
    requires IsRun(run)
    ensures var s := run[|run| - 1];
            s.restores + s.prefixMoves <= 1 && (s.prefixMoves == 1 ==> !s.ownerWritten)
                && (s.restores == 1 ==> s.ownerWritten)
  {
    RunKeepsInv(run);
  }

  // ---------- recovery settles ----------

  /** No recovery step is possible. */
  ghost predicate Settled(s: State) {
    forall t :: !RecoveryStep(s, t)
  }

  function OwnerWork(o: Owner): nat {
    match o case Absent => 0 case Committed => 1 case Landed => 4 case Prepared => 5
  }

  function CompanionWork(c: Companion): nat {
    match c
    case Removed => 0
    case Aborted => 0
    case Owned(handled) => (if handled then 1 else 2)
    case Legacy => 1
    case Pending => 3
  }

  function Work(s: State): nat {
    OwnerWork(s.owner) + CompanionWork(s.companion) + if s.rows == RestoredByOwner then 0 else 1
  }

  /** Every recovery step leaves less to do, so recovery ends whatever order it takes. */
  lemma RecoveryTerminates(s: State, t: State)
    requires Inv(s) && RecoveryStep(s, t)
    ensures Work(t) < Work(s)
  {
  }

  /** A pending companion always has a step; where recovery settles, the companion is gone or
      terminally aborted and the owner journal is gone, and the rows went back with the owner
      exactly if its journal was ever durable. */
  lemma SettledIsDecided(s: State)
    requires Inv(s) && s.pc == Down && Settled(s)
    ensures s.companion == Removed || s.companion == Aborted
    ensures s.owner == Absent
    ensures s.rows == RestoredByOwner <==> s.ownerWritten
    ensures s.companion == Aborted <==> s.rows == AtDestination
    ensures s.treeBack <==> s.rows != AtDestination
  {
    var t := if s.companion == Pending then s.(companion := if s.owner == Absent then Aborted else Owned(false))
             else if s.owner == Prepared then Land(s)
             else if s.owner == Landed then (if s.rows != RestoredByOwner then Restore(s)
                                             else if !s.companion.handled then Handle(s) else s.(owner := Committed))
             else if s.owner == Committed then s.(owner := Absent)
             else if s.companion == Legacy || s.companion == Owned(true) then Replay(s)
             else s;
    assert !RecoveryStep(s, t);
  }
}
