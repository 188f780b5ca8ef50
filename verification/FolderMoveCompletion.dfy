/** When a replayable folder move that died in its entry loop is finished by one uninterrupted
    recovery: the multi-pass loop of server/crashRecovery.ts over the step system of FolderMove. */
module FolderMoveCompletion {
  import opened Options
  import opened FolderMove
  import MetadataGraph
  import PrefixTransition

  ghost predicate HasEarly(v: Vault) {
    exists k :: 0 <= k < |v.rows| && v.rows[k].Early?
  }

  /** A document linked into the destination whose staging name is still there. */
  ghost predicate LinkedDocument(v: Vault, k: nat) {
    k < |v.entries| && k < |v.rows| && v.entries[k].dest && v.entries[k].stages > 0 && v.rows[k].Prepared?
  }

  ghost predicate AnyLinkedDocument(v: Vault) {
    exists k :: LinkedDocument(v, k)
  }

  /** One staging name per entry at most, as one interrupted move or restore leaves it. */
  ghost predicate Few(v: Vault) {
    forall k :: 0 <= k < |v.entries| ==> v.entries[k].stages <= 1
  }

  ghost predicate CalmRows(v: Vault) {
    forall k :: 0 <= k < |v.rows| ==> v.rows[k].NoRow? || v.rows[k].Prepared? || v.rows[k].Early?
  }

  /** A proven gate, an intact source shell and the entry loop still to be finished. */
  ghost predicate Going(c: Job, v: Vault) {
    && Moving(c, v)
    && v.dest.Gate? && v.marker && v.made == c.dirs
    && v.srcRoot && v.shells == c.dirs
    && CalmRows(v)
  }

  /** What a crash in the entry loop leaves, whichever run it happened in, as long as no row has
      been touched. */
  ghost predicate Resumable(c: Job, v: Vault) {
    Going(c, v) && Conserved(v) && Few(v) && RowsPrepared(v)
  }

  /** The two leftovers whose combination strands the metadata: the first pass quarantines the
      journal over the missing entry, and the staging rule then moves the linked document's row
      ahead of the transaction. */
  ghost predicate Blocked(v: Vault) {
    AnyMissing(v) && AnyLinkedDocument(v)
  }

  ghost predicate IsRecovery(c: Job, run: seq<State>) {
    && run != []
    && run[0].pc == Down
    && (forall k :: 0 <= k < |run| - 1 ==> Step(c, run[k], run[k + 1]))
    && run[|run| - 1].pc == Finished
  }

  // ---------- the invariant of an uninterrupted recovery ----------

  ghost predicate Done(v: Vault) {
    AllAtDestination(v) && RowsCommitted(v)
  }

  /** The transaction is durably committed: the rows are, and the journal is past files-landed. */
  ghost predicate DurablyCommitted(v: Vault) {
    RowsCommitted(v) && (v.journal.None? || InPhase(v, MetadataCommitted))
  }

  /** Scan or placement with the entry loop unfinished; `b` says whether the metadata will strand. */
  ghost predicate Resuming(c: Job, b: bool, s: State) {
    && Going(c, s.v) && Few(s.v) && !s.progress && 1 <= s.pass <= 2
    && (s.pass == 2 ==> NoStaging(s.v))
    && (b <==> HasEarly(s.v) || Blocked(s.v) || !c.Transitions())
    && (HasEarly(s.v) ==> s.pass == 2)
  }

  /** In the loop: everything below `k` has landed, everything above it can. */
  ghost predicate Looping(c: Job, b: bool, s: State, k: nat, current: bool) {
    && Going(c, s.v) && !s.progress && 1 <= s.pass <= 2
    && (b <==> HasEarly(s.v) || !c.Transitions()) && (HasEarly(s.v) ==> s.pass == 2)
    && (forall j {:trigger s.v.entries[j]} :: 0 <= j < |s.v.entries| ==>
          var e := s.v.entries[j];
          && (j < k ==> e.dest)
          && (j > k || (j == k && !current) ==> e.src || e.dest)
          && e.stages <= (if s.pass == 2 then 0 else 1) + (if j == k && current then 1 else 0))
  }

  ghost predicate Landing(c: Job, b: bool, s: State) {
    && Going(c, s.v) && !s.progress && 1 <= s.pass <= 2
    && (b <==> HasEarly(s.v) || !c.Transitions()) && (HasEarly(s.v) ==> s.pass == 2)
    && AllAtDestination(s.v) && Few(s.v) && (s.pass == 2 ==> NoStaging(s.v))
  }

  ghost predicate Committing(c: Job, b: bool, s: State) {
    && !b && Done(s.v) && !s.progress && 1 <= s.pass <= 2
    && Few(s.v) && (s.pass == 2 ==> NoStaging(s.v))
  }

  /** The staging rules after the journal was quarantined over a missing entry. */
  ghost predicate Restoring(c: Job, b: bool, s: State) {
    && Going(c, s.v) && Few(s.v) && s.pass == 1
    && (s.progress || AnyMissing(s.v) || !(s.pc.Inner? || s.pc.PassEnd?))
    && (b <==> HasEarly(s.v) || AnyLinkedDocument(s.v) || Pending(s) || !c.Transitions())
  }

  /** Every file at the destination and the rows not committed. */
  ghost predicate Waiting(c: Job, v: Vault) {
    && c.strategy.ReplayableMove? && AllAtDestination(v) && CalmRows(v)
    && v.dest.Gate? && v.marker && v.srcRoot && v.shells == c.dirs
  }

  ghost predicate Pending(s: State) {
    s.pc.RowFollows? && s.pc.to.AtDestination? && s.pc.e < |s.v.rows| && s.v.rows[s.pc.e].Prepared?
  }

  ghost predicate Ending(c: Job, b: bool, s: State) {
    match s.v.journal
    case None => !b && Done(s.v) && EndingPass(s)
    case Some(Journal(PreparedPhase, _)) => false
    case Some(Journal(GateCreated, _)) => Restoring(c, b, s)
    case Some(Journal(FilesLanded, _)) =>
      && b && Waiting(c, s.v) && Few(s.v) && 1 <= s.pass <= 2
      && (s.pass == 2 ==> NoStaging(s.v) && !s.progress)
      && (c.Transitions() ==> HasEarly(s.v) && s.pass == 2)
    case Some(Journal(MetadataCommitted, _)) =>
      !b && Done(s.v) && EndingPass(s) && s.pass <= 2 && (s.pass == 2 ==> !s.progress)
  }

  ghost predicate EndingPass(s: State) {
    && 1 <= s.pass <= 3 && Few(s.v)
    && (s.pass >= 2 ==> NoStaging(s.v))
    && (s.pass == 3 ==> !s.progress)
  }

  ghost predicate Recovers(c: Job, b: bool, s: State) {
    && Inv(c, s)
    && (s.pc.Down? || s.recovering)
    && (!c.Transitions() ==> b)
    && match s.pc
       case Down => Resumable(c, s.v) && (b <==> Blocked(s.v) || !c.Transitions())
       case Scan =>
         !s.progress &&
         (match s.v.journal
          case None => !b && Done(s.v) && EndingPass(s)
          case Some(Journal(GateCreated, _)) => Resuming(c, b, s)
          case Some(Journal(FilesLanded, _)) => !c.Transitions() && Waiting(c, s.v) && NoStaging(s.v) && s.pass == 2
          case Some(Journal(MetadataCommitted, _)) => !b && Done(s.v) && NoStaging(s.v) && s.pass == 2
          case _ => false)
       case PlaceEntries => Resuming(c, b, s)
       case TakeAside(k) => Looping(c, b, s, k, false)
       case LinkIn(k) => Looping(c, b, s, k, true)
       case DropStage(k) => Looping(c, b, s, k, true)
       case CheckLanded => Landing(c, b, s)
       case RecordLanded => Landing(c, b, s)
       case CommitRows =>
         && Waiting(c, s.v) && Few(s.v) && (s.pass == 2 ==> NoStaging(s.v))
         && !s.progress && 1 <= s.pass <= 2
         && (b <==> HasEarly(s.v) || !c.Transitions()) && (HasEarly(s.v) ==> s.pass == 2)
       case RecordCommitted => Committing(c, b, s)
       case Finalize => Committing(c, b, s)
       case RemoveShells(_) => Committing(c, b, s)
       case RemoveRoot => Committing(c, b, s)
       case RemoveJournal => Committing(c, b, s)
       case RemoveMarker => Committing(c, b, s) && s.v.journal.None?
       case Inner => Ending(c, b, s)
       case LinkBack(e) => Ending(c, b, s) && s.pass == 1 && e < |s.v.entries| && Missing(s.v.entries[e])
       case DropBack(e) => Ending(c, b, s) && s.pass == 1
       case RowFollows(e, to) => Ending(c, b, s) && s.pass == 1 && !to.AtStaging? && e < |s.v.entries|
              && s.v.entries[e].stages == 0
       case PassEnd => Ending(c, b, s) && NoStaging(s.v)
       case Finished =>
         && AllAtDestination(s.v) && (DurablyCommitted(s.v) <==> !b)
         && (b ==> InPhase(s.v, FilesLanded) && CalmRows(s.v) && (c.Transitions() ==> HasEarly(s.v)))
       case _ => false
  }

  lemma RecoversPlacement(c: Job, b: bool, s: State, s': State)
    requires Recovers(c, b, s) && s.pc.PlaceEntries? && MoveStep(c, s, s') && Inv(c, s')
    ensures Recovers(c, b, s')
  {
    if AnyMissing(s.v) {
      var k :| 0 <= k < |s.v.entries| && Missing(s.v.entries[k]);
      assert s.v.entries[k].stages > 0;
    } else {
      assert forall k :: 0 <= k < |s.v.entries| ==> !Missing(s.v.entries[k]);
    }
  }

  lemma RecoversLoop(c: Job, b: bool, s: State, s': State)
    requires Recovers(c, b, s) && (s.pc.TakeAside? || s.pc.LinkIn? || s.pc.DropStage?)
    requires MoveStep(c, s, s') && Inv(c, s')
    ensures Recovers(c, b, s')
  {
    hide Job.Transitions;
    if s.pc.TakeAside? && s.pc.k < |s.v.entries| {
      assert s.v.entries[s.pc.k].src || s.v.entries[s.pc.k].dest;
    }
  }

  lemma RecoversLanding(c: Job, b: bool, s: State, s': State)
    requires Recovers(c, b, s) && (s.pc.CheckLanded? || s.pc.RecordLanded?)
    requires MoveStep(c, s, s') && Inv(c, s')
    ensures Recovers(c, b, s')
  {
  }

  lemma RecoversCommit(c: Job, b: bool, s: State, s': State)
    requires Recovers(c, b, s) && CommitStep(c, s, s') && Inv(c, s')
    ensures Recovers(c, b, s')
  {
    hide Job.Transitions;
  }

  lemma RecoversShells(c: Job, b: bool, s: State, s': State)
    requires Recovers(c, b, s) && (s.pc.Finalize? || s.pc.RemoveShells?) && CleanStep(c, s, s') && Inv(c, s')
    ensures Recovers(c, b, s')
  {
    hide Conserved;
  }

  lemma RecoversRemoval(c: Job, b: bool, s: State, s': State)
    requires Recovers(c, b, s) && (s.pc.RemoveRoot? || s.pc.RemoveJournal? || s.pc.RemoveMarker?)
    requires CleanStep(c, s, s') && Inv(c, s')
    ensures Recovers(c, b, s')
  {
    hide Conserved;
  }

  lemma RecoversScan(c: Job, b: bool, s: State, s': State)
    requires Recovers(c, b, s) && ScanStep(c, s, s') && Inv(c, s')
    ensures Recovers(c, b, s')
  {
  }

  lemma RecoversPass(c: Job, b: bool, s: State, s': State)
    requires Recovers(c, b, s) && PassStep(s, s') && Inv(c, s')
    ensures Recovers(c, b, s')
  {
  }

  /** Entry `e` loses one staging name; no other entry becomes or stops being a linked document. */
  lemma LinkedElsewhere(v: Vault, v': Vault, e: nat)
    requires v'.rows == v.rows && e < |v.entries| == |v'.entries|
    requires v'.entries == v.entries[e := v'.entries[e]]
    ensures forall k :: k != e ==> (LinkedDocument(v, k) <==> LinkedDocument(v', k))
  {
  }

  lemma RecoversTake(c: Job, b: bool, s: State, s': State)
    requires Recovers(c, b, s) && s.pc.Inner? && InnerStep(s, s') && Inv(c, s')
    ensures Recovers(c, b, s')
  {
    hide PhaseHolds, PcHolds, Job.Transitions;
    if s'.pc.RowFollows? {
      var e := s'.pc.e;
      assert s.v.entries[e].stages == 1;
      LinkedElsewhere(s.v, s'.v, e);
      assert LinkedDocument(s.v, e) ==> Pending(s');
      assert Pending(s') ==> LinkedDocument(s.v, e);
      assert !LinkedDocument(s'.v, e);
    }
  }

  lemma RecoversLinkBack(c: Job, b: bool, s: State, s': State)
    requires Recovers(c, b, s) && (s.pc.LinkBack? || s.pc.DropBack?) && InnerStep(s, s') && Inv(c, s')
    ensures Recovers(c, b, s')
  {
    hide Job.Transitions;
    LinkedElsewhere(s.v, s'.v, s.pc.e);
  }

  lemma RecoversRow(c: Job, b: bool, s: State, s': State)
    requires Recovers(c, b, s) && s.pc.RowFollows? && InnerStep(s, s') && Inv(c, s')
    ensures Recovers(c, b, s')
  {
    var e := s.pc.e;
    assert !LinkedDocument(s.v, e);
    if s.v.rows[e].Prepared? && s.pc.to.AtDestination? {
      assert s'.v.rows[e].Early?;
    } else {
      assert s'.v.rows == s.v.rows;
    }
  }

  predicate MoverPc(pc: Pc) {
    pc.PlaceEntries? || pc.TakeAside? || pc.LinkIn? || pc.DropStage? || pc.CheckLanded? || pc.RecordLanded?
  }

  predicate StagingPc(pc: Pc) {
    pc.Inner? || pc.LinkBack? || pc.DropBack? || pc.RowFollows?
  }

  predicate CleanPc(pc: Pc) {
    pc.Finalize? || pc.RemoveShells? || pc.RemoveRoot? || pc.RemoveJournal? || pc.RemoveMarker?
  }

  /** Each program counter belongs to one part of the step system. */
  lemma StepOfMover(c: Job, s: State, s': State)
    requires Step(c, s, s') && MoverPc(s.pc)
    ensures MoveStep(c, s, s')
  {
    hide MoveStep;
  }

  lemma StepOfStaging(c: Job, s: State, s': State)
    requires Step(c, s, s') && StagingPc(s.pc)
    ensures InnerStep(s, s')
  {
    hide InnerStep;
  }

  lemma StepOfClean(c: Job, s: State, s': State)
    requires Step(c, s, s') && CleanPc(s.pc)
    ensures CleanStep(c, s, s')
  {
    hide CleanStep;
  }

  lemma StepOfRest(c: Job, s: State, s': State)
    requires Step(c, s, s')
    ensures s.pc.CommitRows? || s.pc.RecordCommitted? ==> CommitStep(c, s, s')
    ensures s.pc.Scan? ==> ScanStep(c, s, s')
    ensures s.pc.Down? || s.pc.PassEnd? || s.pc.DropStale? ==> PassStep(s, s')
    ensures !s.pc.Finished? && !s.pc.Halted?
  {
  }

  lemma RecoversStep(c: Job, b: bool, s: State, s': State)
    requires Recovers(c, b, s) && Step(c, s, s')
    ensures Recovers(c, b, s')
  {
    hide Step, Inv, Resuming, Looping, Landing, Committing, Ending;
    StepInv(c, s, s');
    if MoverPc(s.pc) {
      StepOfMover(c, s, s');
      RecoversMover(c, b, s, s');
    } else if StagingPc(s.pc) {
      StepOfStaging(c, s, s');
      RecoversStaging(c, b, s, s');
    } else if CleanPc(s.pc) {
      StepOfClean(c, s, s');
      if s.pc.Finalize? || s.pc.RemoveShells? {
        RecoversShells(c, b, s, s');
      } else {
        RecoversRemoval(c, b, s, s');
      }
    } else {
      StepOfRest(c, s, s');
      if s.pc.CommitRows? || s.pc.RecordCommitted? {
        RecoversCommit(c, b, s, s');
      } else if s.pc.Scan? {
        RecoversScan(c, b, s, s');
      } else {
        RecoversPass(c, b, s, s');
      }
    }
  }

  lemma RecoversMover(c: Job, b: bool, s: State, s': State)
    requires Recovers(c, b, s) && MoverPc(s.pc) && MoveStep(c, s, s') && Inv(c, s')
    ensures Recovers(c, b, s')
  {
    hide Recovers, MoveStep, Inv;
    if s.pc.PlaceEntries? {
      RecoversPlacement(c, b, s, s');
    } else if s.pc.CheckLanded? || s.pc.RecordLanded? {
      RecoversLanding(c, b, s, s');
    } else {
      RecoversLoop(c, b, s, s');
    }
  }

  lemma RecoversStaging(c: Job, b: bool, s: State, s': State)
    requires Recovers(c, b, s) && StagingPc(s.pc) && InnerStep(s, s') && Inv(c, s')
    ensures Recovers(c, b, s')
  {
    hide Recovers, InnerStep, Inv;
    if s.pc.Inner? {
      RecoversTake(c, b, s, s');
    } else if s.pc.RowFollows? {
      RecoversRow(c, b, s, s');
    } else {
      RecoversLinkBack(c, b, s, s');
    }
  }

  /** Whether the metadata of an interrupted move will strand. */
  ghost predicate Strands(c: Job, v: Vault) {
    Blocked(v) || !c.Transitions()
  }

  lemma {:induction false} RecoversRun(c: Job, run: seq<State>, k: nat)
    requires IsRecovery(c, run) && Resumable(c, run[0].v) && k < |run|
    ensures Recovers(c, Strands(c, run[0].v), run[k])
  {
    if k > 0 {
      hide Step, Recovers, Resumable, Strands;
      RecoversRun(c, run, k - 1);
      assert Step(c, run[k - 1], run[k - 1 + 1]);
      RecoversStep(c, Strands(c, run[0].v), run[k - 1], run[k]);
    }
  }

  lemma RecoversPasses(c: Job, b: bool, s: State)
    requires Recovers(c, b, s) && !s.pc.Finished?
    ensures s.pc.Down? || s.pass <= 3
  {
  }

  ghost predicate HasDocuments(v: Vault) {
    exists k :: 0 <= k < |v.rows| && !v.rows[k].NoRow?
  }

  lemma StepKeepsDocuments(c: Job, s: State, s': State)
    requires Step(c, s, s')
    ensures HasDocuments(s.v) <==> HasDocuments(s'.v)
  {
    RowKindsKept(c, s, s');
  }

  lemma RowKindsKept(c: Job, s: State, s': State)
    requires Step(c, s, s')
    ensures |s'.v.rows| == |s.v.rows| && |s'.v.entries| == |s.v.entries|
    ensures forall k :: 0 <= k < |s.v.rows| ==> (s'.v.rows[k].NoRow? <==> s.v.rows[k].NoRow?)
  {
    hide GateStep, MoveStep, CommitStep, CleanStep, ScanStep, PassStep, InnerStep;
    if CommitStep(c, s, s') || InnerStep(s, s') {
      RowKindsKeptByWrites(c, s, s');
    } else if CleanStep(c, s, s') || MoveStep(c, s, s') {
      RowKindsKeptByMoves(c, s, s');
    } else {
      RowKindsKeptByScan(c, s, s');
    }
  }

  lemma RowKindsKeptByWrites(c: Job, s: State, s': State)
    requires CommitStep(c, s, s') || InnerStep(s, s')
    ensures |s'.v.rows| == |s.v.rows| && |s'.v.entries| == |s.v.entries|
    ensures forall k :: 0 <= k < |s.v.rows| ==> (s'.v.rows[k].NoRow? <==> s.v.rows[k].NoRow?)
  {
    hide AllAtDestination, NoStaging, RowsPrepared, RowsCommitted, Job.Transitions;
  }

  lemma RowKindsKeptByMoves(c: Job, s: State, s': State)
    requires CleanStep(c, s, s') || MoveStep(c, s, s')
    ensures s'.v.rows == s.v.rows && |s'.v.entries| == |s.v.entries|
  {
    hide AllAtDestination, NoStaging, RowsCommitted, AnyMissing;
  }

  lemma RowKindsKeptByScan(c: Job, s: State, s': State)
    requires GateStep(c, s, s') || ScanStep(c, s, s') || PassStep(s, s')
    ensures s'.v.rows == s.v.rows && |s'.v.entries| == |s.v.entries|
  {
    hide AllAtSource, RowsPrepared;
  }

  lemma {:induction false} DocumentsKept(c: Job, run: seq<State>, k: nat)
    requires IsRecovery(c, run) && k < |run|
    ensures HasDocuments(run[0].v) <==> HasDocuments(run[k].v)
  {
    hide Step;
    if k > 0 {
      DocumentsKept(c, run, k - 1);
      assert Step(c, run[k - 1], run[k - 1 + 1]);
      StepKeepsDocuments(c, run[k - 1], run[k]);
    }
  }

  /** One uninterrupted recovery of an interrupted entry loop brings every file to the destination,
      in at most three passes. The metadata transaction is committed exactly when the prepared graph
      transitions and the crash left no missing entry together with a document linked under two
      names; otherwise the journal stays at files-landed and the rows of the documents uncommitted. */
  lemma RecoveryCompletesUnlessBlocked(c: Job, run: seq<State>)
    requires IsRecovery(c, run) && Resumable(c, run[0].v)
    ensures var last := run[|run| - 1];
            && AllAtDestination(last.v)
            && (DurablyCommitted(last.v) <==> !Blocked(run[0].v) && c.Transitions())
            && (!DurablyCommitted(last.v) ==>
                  InPhase(last.v, FilesLanded) && (HasDocuments(run[0].v) ==> !RowsCommitted(last.v)))
    ensures forall k :: 0 < k < |run| - 1 ==> run[k].pass <= 3
  {
    hide Step, Resumable, Job.Transitions;
    RecoversRun(c, run, |run| - 1);
    DocumentsKept(c, run, |run| - 1);
    forall k | 0 < k < |run| - 1
      ensures run[k].pass <= 3
    {
      hide Recovers, Step;
      RecoversRun(c, run, k);
      RecoveryProceeds(c, run, k);
      RecoversPasses(c, Strands(c, run[0].v), run[k]);
    }
  }

  lemma NoStepIntoDown(c: Job, s: State, s': State)
    requires Step(c, s, s')
    ensures !s'.pc.Down?
  {
    hide AllAtSource, AllAtDestination, NoStaging, RowsPrepared, RowsCommitted, AnyMissing, Job.Transitions;
    hide MoveStep, CleanStep, GateStep;
    if MoveStep(c, s, s') || CleanStep(c, s, s') || GateStep(c, s, s') {
      NoMoveIntoDown(c, s, s');
    }
  }

  lemma NoMoveIntoDown(c: Job, s: State, s': State)
    requires MoveStep(c, s, s') || CleanStep(c, s, s') || GateStep(c, s, s')
    ensures !s'.pc.Down?
  {
    hide AllAtDestination, NoStaging, RowsCommitted, AnyMissing;
  }

  lemma RecoveryProceeds(c: Job, run: seq<State>, k: nat)
    requires IsRecovery(c, run) && 0 < k < |run| - 1
    ensures !run[k].pc.Down? && !run[k].pc.Finished?
  {
    hide Step;
    assert Step(c, run[k - 1], run[k - 1 + 1]) && Step(c, run[k], run[k + 1]);
    NoStepIntoDown(c, run[k - 1], run[k]);
    StepOfRest(c, run[k], run[k + 1]);
  }

  // ---------- the first crash ----------

  ghost predicate Split(v: Vault, k: nat, current: Entry) {
    forall j :: 0 <= j < |v.entries| ==>
      v.entries[j] == if j < k then Entry(false, 0, true) else if j == k then current else Entry(true, 0, false)
  }

  ghost predicate Intact(c: Job, v: Vault) {
    && |v.rows| == |v.entries| && RowsPrepared(v)
    && v.srcRoot && v.shells == c.dirs
  }

  ghost predicate FirstGate(c: Job, s: State) {
    var v := s.v;
    && Intact(c, v) && AllAtSource(v) && v.made <= c.dirs
    && (s.pc.MakeGate? || v.dest.Gate?)
    && (s.pc.MakeGate? || s.pc.WriteMarker? || v.marker)
    && (s.pc.RecordDirs? ==> v.made == c.dirs)
  }

  ghost predicate FirstLoop(c: Job, s: State) {
    var v := s.v;
    && Intact(c, v) && Going(c, v)
    && match s.pc
       case PlaceEntries => AllAtSource(v)
       case TakeAside(k) => Split(v, k, Entry(true, 0, false))
       case LinkIn(k) => Split(v, k, Entry(false, 1, false))
       case DropStage(k) => Split(v, k, Entry(false, 1, true))
       case _ => true
  }

  predicate GatePc(pc: Pc) {
    pc.MakeGate? || pc.WriteMarker? || pc.RecordGate? || pc.MakeDirs? || pc.RecordDirs?
  }

  /** A route's own replayable move before anything has died. */
  ghost predicate FirstRun(c: Job, s: State) {
    && !s.recovering
    && (GatePc(s.pc) ==> FirstGate(c, s))
    && (InEntryLoop(s.pc) ==> FirstLoop(c, s))
    && !s.pc.Unmark? && !s.pc.RenameTree? && !s.pc.Down? && !s.pc.Scan? && !s.pc.DropStale? && !StagingPc(s.pc)
         && !s.pc.PassEnd? && !s.pc.Finished?
  }

  /** The entry loop of that move, a journaled file taken aside or linked under two names. */
  predicate InEntryLoop(pc: Pc) {
    pc.PlaceEntries? || pc.TakeAside? || pc.LinkIn? || pc.DropStage?
  }

  lemma StepOfGate(c: Job, s: State, s': State)
    requires Step(c, s, s') && GatePc(s.pc)
    ensures GateStep(c, s, s')
  {
    hide GateStep;
  }

  lemma FirstGateStep(c: Job, s: State, s': State)
    requires FirstRun(c, s) && GatePc(s.pc) && GateStep(c, s, s') && c.strategy.ReplayableMove?
    ensures FirstRun(c, s')
  {
  }

  lemma FirstMoveStep(c: Job, s: State, s': State)
    requires FirstRun(c, s) && MoverPc(s.pc) && MoveStep(c, s, s')
    ensures FirstRun(c, s')
  {
  }

  lemma FirstRestStep(c: Job, s: State, s': State)
    requires FirstRun(c, s) && (CommitStep(c, s, s') || CleanStep(c, s, s'))
    ensures FirstRun(c, s')
  {
    hide RowsCommitted, RowsPrepared, AllAtDestination, NoStaging, Job.Transitions;
  }

  lemma FirstRunStep(c: Job, s: State, s': State)
    requires FirstRun(c, s) && Step(c, s, s') && c.strategy.ReplayableMove?
    ensures FirstRun(c, s')
  {
    hide Step, FirstGate, FirstLoop;
    if GatePc(s.pc) {
      StepOfGate(c, s, s');
      FirstGateStep(c, s, s');
    } else if MoverPc(s.pc) {
      StepOfMover(c, s, s');
      FirstMoveStep(c, s, s');
    } else if CleanPc(s.pc) {
      StepOfClean(c, s, s');
      FirstRestStep(c, s, s');
    } else {
      StepOfRest(c, s, s');
      FirstRestStep(c, s, s');
    }
  }

  ghost predicate IsFirstRun(c: Job, run: seq<State>) {
    && run != []
    && Init(c, run[0])
    && forall k :: 0 <= k < |run| - 1 ==> Step(c, run[k], run[k + 1])
  }

  lemma {:induction false} FirstRunHolds(c: Job, run: seq<State>, k: nat)
    requires IsFirstRun(c, run) && c.strategy.ReplayableMove? && k < |run|
    ensures FirstRun(c, run[k])
  {
    hide Step;
    if k > 0 {
      FirstRunHolds(c, run, k - 1);
      assert Step(c, run[k - 1], run[k - 1 + 1]);
      FirstRunStep(c, run[k - 1], run[k]);
    }
  }

  lemma FirstCrashResumable(c: Job, s: State)
    requires FirstRun(c, s) && InEntryLoop(s.pc)
    ensures Resumable(c, s.v) && !Blocked(s.v)
  {
    var n := |s.v.entries|;
    if s.pc.LinkIn? {
      forall k | 0 <= k < n
        ensures !LinkedDocument(s.v, k)
      {
        assert s.v.entries[k].dest ==> s.v.entries[k].stages == 0;
      }
    } else {
      assert forall k :: 0 <= k < n ==> !Missing(s.v.entries[k]);
    }
  }

  /** A move that dies anywhere in its entry loop, one entry taken aside or linked under two names
      included, is completed by one uninterrupted recovery: every journaled file is at the
      destination, and the committed metadata graph is durable exactly if the prepared graph
      transitions to it. */
  lemma CrashInEntryLoopCompletes(c: Job, run: seq<State>, recovery: seq<State>)
    requires c.strategy.ReplayableMove?
    requires IsFirstRun(c, run) && InEntryLoop(run[|run| - 1].pc)
    requires IsRecovery(c, recovery) && recovery[0] == Crash(run[|run| - 1])
    ensures AllAtDestination(recovery[|recovery| - 1].v)
    ensures DurablyCommitted(recovery[|recovery| - 1].v) <==> c.Transitions()
  {
    FirstRunHolds(c, run, |run| - 1);
    FirstCrashResumable(c, run[|run| - 1]);
    hide Step, Resumable, Blocked;
    RecoveryCompletesUnlessBlocked(c, recovery);
  }

  // ---------- a second crash can block ----------

  const TwoDocuments :=
    Job(ReplayableMove, 0,
        MetadataGraph.Graph(map["d" := MetadataGraph.Document("a/x", 0, ""),
                                "e" := MetadataGraph.Document("a/y", 0, "")],
                            map[], {}, map[]),
        "a", "b", 1)

  lemma TwoDocumentsTransition()
    ensures TwoDocuments.Transitions()
  {
    var documents := TwoDocuments.prepared.documents;
    forall id | id in documents
      ensures MetadataGraph.Under("a", documents[id].path) && !MetadataGraph.Selected("b", documents[id].path)
    {
      assert "a/" <= documents[id].path by { assert "a/x"[..2] == "a/" && "a/y"[..2] == "a/"; }
      MetadataGraph.SelectedByCase("b", documents[id].path);
      assert MetadataGraph.Folded(documents[id].path)[0] == 'a' && ("b" + "/")[0] == 'b';
      MetadataGraph.UnderIsSelected("a", documents[id].path);
    }
    hide MetadataGraph.Like, MetadataGraph.Selected;
    forall id | id in documents
      ensures !MetadataGraph.Under("b", documents[id].path)
    {
      assert documents[id].path[0] == 'a' && ("b" + "/")[0] == 'b';
    }
  }

  function At(phase: Phase, dirs: bool, gate: bool, first: Entry, second: Entry): Vault {
    Vault(Some(Journal(phase, dirs)), if gate then Gate else Absent, gate, 0, true, 0,
          [first, second], [Prepared, Prepared])
  }

  /** Killed between the link and the unlink of the first document, then again inside recovery
      right after it took the second one aside. */
  function BlockedRun(): seq<State> {
    var here := Entry(true, 0, false);
    var aside := Entry(false, 1, false);
    var both := Entry(false, 1, true);
    var v0 := At(PreparedPhase, false, false, here, here);
    var gate := v0.(dest := Gate);
    var proved := At(PreparedPhase, false, true, here, here);
    var v1 := At(GateCreated, false, true, here, here);
    var v2 := At(GateCreated, true, true, here, here);
    var v3 := At(GateCreated, true, true, aside, here);
    var v4 := At(GateCreated, true, true, both, here);
    var v5 := At(GateCreated, true, true, both, aside);
    [State(v0, MakeGate, false, false, 0), State(gate, WriteMarker, false, false, 0),
     State(proved, RecordGate, false, false, 0), State(v1, MakeDirs, false, false, 0),
     State(v1, RecordDirs, false, false, 0), State(v2, PlaceEntries, false, false, 0),
     State(v2, TakeAside(0), false, false, 0), State(v3, LinkIn(0), false, false, 0),
     State(v4, DropStage(0), false, false, 0), State(v4, Down, false, false, 0),
     State(v4, Scan, true, false, 1), State(v4, PlaceEntries, true, false, 1),
     State(v4, TakeAside(0), true, false, 1), State(v4, TakeAside(1), true, false, 1),
     State(v5, LinkIn(1), true, false, 1), State(v5, Down, false, false, 0)]
  }

  lemma BlockedRunGate(k: nat)
    requires k < 5
    ensures GateStep(TwoDocuments, BlockedRun()[k], BlockedRun()[k + 1])
  {
  }

  lemma BlockedRunMoves(k: nat)
    requires 5 <= k < 8 || 11 <= k < 14
    ensures MoveStep(TwoDocuments, BlockedRun()[k], BlockedRun()[k + 1])
  {
    var e := BlockedRun()[k].v.entries;
    assert e == [e[0], e[1]];
    assert BlockedRun()[k + 1].v.entries == [BlockedRun()[k + 1].v.entries[0], BlockedRun()[k + 1].v.entries[1]];
  }

  lemma BlockedRunRecovers()
    ensures BlockedRun()[9] == Crash(BlockedRun()[8]) && BlockedRun()[15] == Crash(BlockedRun()[14])
    ensures PassStep(BlockedRun()[9], BlockedRun()[10])
    ensures ScanStep(TwoDocuments, BlockedRun()[10], BlockedRun()[11])
  {
  }

  /** So the completion claim does not survive a second crash: a reachable state blocks. */
  lemma SecondCrashCanBlock()
    ensures IsRun(TwoDocuments, BlockedRun())
    ensures Resumable(TwoDocuments, BlockedRun()[15].v) && Blocked(BlockedRun()[15].v)
    ensures TwoDocuments.Transitions()
  {
    TwoDocumentsTransition();
    hide PrefixTransition.Transitions;
    var run := BlockedRun();
    forall k | 0 <= k < |run| - 1
      ensures Step(TwoDocuments, run[k], run[k + 1]) || run[k + 1] == Crash(run[k])
    {
      hide GateStep, MoveStep, PassStep, ScanStep, CommitStep, CleanStep, InnerStep;
      BlockedRunRecovers();
      if k < 5 {
        BlockedRunGate(k);
      } else if k < 8 || 11 <= k < 14 {
        BlockedRunMoves(k);
      }
    }
    var v := run[15].v;
    assert LinkedDocument(v, 0);
    assert Missing(v.entries[1]);
  }
}
