/** The journaled v4 folder move (server/folderMoveV4Executor.ts, server/folderMoveV4Metadata.ts,
    moveFolderEntriesIntoExistingGate of server/documentFileLifecycle.ts) and its startup recovery
    (recoverFolderMoveJournalV4 and recoverRenameStaging of server/crashRecovery.ts), for any number
    of entries, both strategies and any number of crashes. External writers are not part of this
    model: each declared generation keeps its inode and its text. */
module FolderMove {
  import opened Options
  import MetadataGraph
  import PrefixTransition

  datatype Strategy = AtomicRename | ReplayableMove

  /** A move of a folder that declares `dirs` subdirectories, with the metadata graph its journal
      was prepared with. The route does not try the prefix transition before it writes that. */
  datatype Job = Job(
    strategy: Strategy, dirs: nat,
    prepared: MetadataGraph.Graph, from: MetadataGraph.Path, to: MetadataGraph.Path, ts: int)
  {
    /** PrefixTransition.CompletePrefixTransition's exact condition for reaching the committed graph
        from the prepared one. */
    ghost predicate Transitions() {
      PrefixTransition.Transitions(prepared, from, to, ts)
    }
  }

  /** Where the inode of one journaled entry has names: its source path, private rename staging
      beside it, its destination path. */
  datatype Entry = Entry(src: bool, stages: nat, dest: bool)

  /** The metadata row of one entry. Prepared and Committed are the rows of the two journaled
      graphs; Early is a row a staging recovery moved to the destination ahead of the transaction,
      Stray one it moved to the name of another staging file. An attachment has no row. */
  datatype Row = NoRow | Prepared | Early | Stray | Committed

  datatype Phase = PreparedPhase | GateCreated | FilesLanded | MetadataCommitted

  datatype Journal = Journal(phase: Phase, dirsRecorded: bool)

  datatype Destination = Absent | Gate | SourceTree

  datatype Vault = Vault(
    journal: Option<Journal>,
    dest: Destination, marker: bool, made: nat,  // the gate, its proof file, its subdirectories
    srcRoot: bool, shells: nat,                  // the source root and its subdirectories
    entries: seq<Entry>, rows: seq<Row>)

  datatype Place = AtSource | AtStaging | AtDestination

  datatype Pc =
    | MakeGate | WriteMarker | RecordGate
    | Unmark | RenameTree
    | MakeDirs | RecordDirs
    | PlaceEntries | TakeAside(k: nat) | LinkIn(k: nat) | DropStage(k: nat)
    | CheckLanded | RecordLanded
    | CommitRows | RecordCommitted
    | Finalize | RemoveShells(conflict: bool) | RemoveRoot | RemoveJournal | RemoveMarker
    | Halted
    | Down | Scan | DropStale
    | Inner | LinkBack(e: nat) | DropBack(e: nat) | RowFollows(e: nat, to: Place)
    | PassEnd | Finished

  /** `progress` and `pass` belong to the pass loop of recoverInterruptedOperations. */
  datatype State = State(v: Vault, pc: Pc, recovering: bool, progress: bool, pass: nat) {
    /** The transaction code returns: to its caller, or to the rest of the recovery pass. */
    function Leave(noted: bool): State {
      if recovering then this.(pc := Inner, progress := progress || noted) else this.(pc := Halted)
    }

    function Record(phase: Phase, dirs: bool, next: Pc): State {
      this.(v := v.(journal := Some(Journal(phase, dirs))), pc := next)
    }

    function WithEntry(k: nat, e: Entry, next: Pc): State
      requires k < |v.entries|
    {
      this.(v := v.(entries := v.entries[k := e]), pc := next)
    }
  }

  ghost predicate AllAtSource(v: Vault) {
    forall k :: 0 <= k < |v.entries| ==> v.entries[k] == Entry(true, 0, false)
  }

  ghost predicate AllAtDestination(v: Vault) {
    forall k :: 0 <= k < |v.entries| ==> v.entries[k].dest
  }

  ghost predicate NoStaging(v: Vault) {
    forall k :: 0 <= k < |v.entries| ==> v.entries[k].stages == 0
  }

  /** classifyPlacementV4 finds the declared generation at neither public path. */
  ghost predicate Missing(e: Entry) {
    !e.src && !e.dest
  }

  ghost predicate AnyMissing(v: Vault) {
    exists k :: 0 <= k < |v.entries| && Missing(v.entries[k])
  }

  ghost predicate RowsPrepared(v: Vault) {
    forall k :: 0 <= k < |v.rows| ==> v.rows[k].NoRow? || v.rows[k].Prepared?
  }

  ghost predicate RowsCommitted(v: Vault) {
    forall k :: 0 <= k < |v.rows| ==> v.rows[k].NoRow? || v.rows[k].Committed?
  }

  function CommittedRows(rows: seq<Row>): seq<Row> {
    seq(|rows|, k requires 0 <= k < |rows| => if rows[k].NoRow? then NoRow else Committed)
  }

  /** rename(2) of the whole tree over the empty gate. */
  function Landed(entries: seq<Entry>): seq<Entry> {
    seq(|entries|, k requires 0 <= k < |entries| => Entry(false, entries[k].stages, entries[k].src))
  }

  // ---------- steps ----------

  /** executeFolderMoveV4Physical up to the movers. */
  ghost predicate GateStep(c: Job, s: State, s': State) {
    match s.pc
    case MakeGate =>
      if s.v.dest.Absent? then s' == s.(v := s.v.(dest := Gate), pc := WriteMarker) else s' == s.Leave(false)
    case WriteMarker => s' == s.(v := s.v.(marker := true), pc := RecordGate)
    case RecordGate => s' == s.Record(GateCreated, false, if c.strategy.AtomicRename? then Unmark else MakeDirs)
    case Unmark => s' == s.(v := s.v.(marker := false), pc := RenameTree)
    case RenameTree =>
      if s.v.srcRoot && s.v.dest.Gate? then
        s' == s.(v := s.v.(dest := SourceTree, srcRoot := false, entries := Landed(s.v.entries)), pc := CheckLanded)
      else s' == s.Leave(false)
    case MakeDirs =>
      if s.v.made < c.dirs then s' == s.(v := s.v.(made := s.v.made + 1)) else s' == s.(pc := RecordDirs)
    case RecordDirs => s' == s.Record(GateCreated, true, PlaceEntries)
    case _ => false
  }

  /** moveFolderEntriesIntoExistingGate, shared by the route and recovery; the latter passes only
      the entries still at the source. */
  ghost predicate MoveStep(c: Job, s: State, s': State) {
    var n := |s.v.entries|;
    match s.pc
    case PlaceEntries => if AnyMissing(s.v) then s' == s.Leave(false) else s' == s.(pc := TakeAside(0))
    case TakeAside(k) =>
      if k >= n then s' == s.(pc := CheckLanded)
      else if s.v.entries[k].dest then s' == s.(pc := TakeAside(k + 1))
      else if s.v.entries[k].src then
        s' == s.WithEntry(k, Entry(false, s.v.entries[k].stages + 1, false), LinkIn(k))
      else s' == s.Leave(false)
    case LinkIn(k) => k < n && s' == s.WithEntry(k, s.v.entries[k].(dest := true), DropStage(k))
    case DropStage(k) =>
      && k < n && s.v.entries[k].stages > 0
      && s' == s.WithEntry(k, s.v.entries[k].(stages := s.v.entries[k].stages - 1), TakeAside(k + 1))
    case CheckLanded => if AllAtDestination(s.v) then s' == s.(pc := RecordLanded) else s' == s.Leave(false)
    case RecordLanded => s.v.journal.Some? && s' == s.Record(FilesLanded, s.v.journal.value.dirsRecorded, CommitRows)
    case _ => false
  }

  /** completeFolderMoveV4Metadata; the prefix transition is one SQLite transaction. Where it cannot
      be derived or does not reproduce the derived graph it throws, and the journal stays. */
  ghost predicate CommitStep(c: Job, s: State, s': State) {
    match s.pc
    case CommitRows =>
      if !AllAtDestination(s.v) || (c.strategy.ReplayableMove? && !(s.v.srcRoot && s.v.shells == c.dirs)) then
        s' == s.Leave(false)
      else if !c.Transitions() then s' == s.Leave(false)
      else if RowsCommitted(s.v) then s' == s.(pc := RecordCommitted)
      else if RowsPrepared(s.v) then
        s' == s.(v := s.v.(rows := CommittedRows(s.v.rows)), pc := RecordCommitted)
      else s' == s.Leave(false)
    case RecordCommitted =>
      s.v.journal.Some? && s' == s.Record(MetadataCommitted, s.v.journal.value.dirsRecorded, Finalize)
    case _ => false
  }

  /** finalizeFolderMoveV4Cleanup. */
  ghost predicate CleanStep(c: Job, s: State, s': State) {
    match s.pc
    case Finalize =>
      if !RowsCommitted(s.v) then s' == s.Leave(false)
      else if s.v.srcRoot then s' == s.(pc := RemoveShells(s.v.shells != c.dirs))
      else if c.strategy.ReplayableMove? then s' == s.Leave(false)
      else s' == s.(pc := RemoveJournal)
    case RemoveShells(conflict) =>  // a shell that still holds a staging file is retained
      || (s.v.shells > 0 && s' == s.(v := s.v.(shells := s.v.shells - 1)))
      || ((conflict || !NoStaging(s.v)) && s' == s.Leave(false))
      || (!conflict && NoStaging(s.v) && s.v.shells == 0 && s' == s.(pc := RemoveRoot))
    case RemoveRoot => s' == s.(v := s.v.(srcRoot := false), pc := RemoveJournal)
    case RemoveJournal => s' == s.(v := s.v.(journal := None), pc := RemoveMarker)
    case RemoveMarker => s' == s.(v := s.v.(marker := false)).Leave(true)
    case _ => false
  }

  /** recoverFolderMoveJournalV4, by durable phase. */
  ghost predicate ScanStep(c: Job, s: State, s': State) {
    && s.pc.Scan?
    && match s.v.journal
       case None => s' == s.(pc := Inner)
       case Some(Journal(PreparedPhase, _)) =>
         if s.v.srcRoot && AllAtSource(s.v) && s.v.dest.Absent? && RowsPrepared(s.v) then s' == s.(pc := DropStale)
         else s' == s.Leave(false)
       case Some(Journal(GateCreated, dirs)) =>
         if c.strategy.AtomicRename? then
           if s.v.srcRoot && s.v.dest.Gate? then
             if s.v.marker && s.v.made == 0 then s' == s.(pc := Unmark) else s' == s.Leave(false)
           else if !s.v.srcRoot && s.v.dest.SourceTree? then s' == s.(pc := CheckLanded)
           else s' == s.Leave(false)
         else if !(s.v.dest.Gate? && s.v.marker) then s' == s.Leave(false)
         else if !dirs then
           if s.v.made > 0 then s' == s.Leave(false) else s' == s.(pc := MakeDirs)
         else if s.v.made != c.dirs then s' == s.Leave(false)
         else s' == s.(pc := PlaceEntries)
       case Some(Journal(FilesLanded, _)) =>
         if (if c.strategy.ReplayableMove? then s.v.dest.Gate? && s.v.marker else s.v.dest.SourceTree?) then
           s' == s.(pc := CommitRows)
         else s' == s.Leave(false)
       case Some(Journal(MetadataCommitted, _)) => s' == s.(pc := Finalize)
  }

  /** The pass loop around it. */
  ghost predicate PassStep(s: State, s': State) {
    match s.pc
    case Down => s' == State(s.v, Scan, true, false, 1)
    case DropStale => s' == s.(v := s.v.(journal := None)).Leave(true)
    case PassEnd => s' == if s.progress then State(s.v, Scan, true, false, s.pass + 1) else s.(pc := Finished)
    case _ => false
  }

  /** recoverRenameStaging for every staging file the walk meets. */
  ghost predicate InnerStep(s: State, s': State) {
    var n := |s.v.entries|;
    match s.pc
    case Inner =>
      || (NoStaging(s.v) && s' == s.(pc := PassEnd))
      || exists e, to :: 0 <= e < n && s.v.entries[e].stages > 0 && TakesPartner(s, s', e, to)
    case LinkBack(e) => e < n && s' == s.WithEntry(e, s.v.entries[e].(src := true), DropBack(e))
    case DropBack(e) =>
      && e < n && s.v.entries[e].stages > 0
      && s' == s.WithEntry(e, s.v.entries[e].(stages := s.v.entries[e].stages - 1), Inner).(progress := true)
    case RowFollows(e, to) =>
      && e < |s.v.rows|
      && s' == s.(v := s.v.(rows := if s.v.rows[e].Prepared? then s.v.rows[e := Followed(to)] else s.v.rows),
                  pc := Inner, progress := true)
    case _ => false
  }

  function Followed(to: Place): Row {
    match to
    case AtSource => Prepared
    case AtStaging => Stray
    case AtDestination => Early
  }

  /** Another name of the same inode, in whatever order the paths sort, means the link had landed;
      without one the file goes back to its source. */
  ghost predicate TakesPartner(s: State, s': State, e: nat, to: Place)
    requires e < |s.v.entries| && s.v.entries[e].stages > 0
  {
    var x := s.v.entries[e];
    if x.src || x.dest || x.stages > 1 then
      && (match to case AtSource => x.src case AtStaging => x.stages > 1 case AtDestination => x.dest)
      && s' == s.WithEntry(e, x.(stages := x.stages - 1), RowFollows(e, to))
    else s' == s.(pc := LinkBack(e))
  }

  ghost predicate Step(c: Job, s: State, s': State) {
    || GateStep(c, s, s') || MoveStep(c, s, s') || CommitStep(c, s, s')
    || CleanStep(c, s, s') || ScanStep(c, s, s') || PassStep(s, s') || InnerStep(s, s')
  }

  function Crash(s: State): State {
    State(s.v, Down, false, false, 0)
  }

  ghost predicate Init(c: Job, s: State) {
    && s == State(s.v, MakeGate, false, false, 0)
    && s.v == Vault(Some(Journal(PreparedPhase, false)), Absent, false, 0, true, c.dirs, s.v.entries, s.v.rows)
    && |s.v.rows| == |s.v.entries|
    && AllAtSource(s.v) && RowsPrepared(s.v)
  }

  ghost predicate IsRun(c: Job, run: seq<State>) {
    && run != []
    && Init(c, run[0])
    && forall k :: 0 <= k < |run| - 1 ==> Step(c, run[k], run[k + 1]) || run[k + 1] == Crash(run[k])
  }

  // ---------- conservation ----------

  ghost predicate Untouched(v: Vault) {
    AllAtSource(v) && RowsPrepared(v)
  }

  /** Every journaled inode has a name, never both public ones; a row is under the destination
      prefix only if its file has its destination name. */
  ghost predicate Conserved(v: Vault) {
    && |v.rows| == |v.entries|
    && (forall k {:trigger v.entries[k]} :: 0 <= k < |v.entries| ==>
          var e := v.entries[k];
          && (e.src || e.stages > 0 || e.dest)
          && !(e.src && e.dest)
          && (v.rows[k].Early? || v.rows[k].Committed? ==> e.dest))
  }

  /** With the journal gone, the whole folder and all its rows are on one side. */
  ghost predicate AllOrNothing(v: Vault) {
    Untouched(v) || (AllAtDestination(v) && RowsCommitted(v))
  }

  /** What the durable phase says about files and rows. */
  ghost predicate PhaseHolds(c: Job, v: Vault) {
    match v.journal
    case None => AllOrNothing(v)
    case Some(Journal(PreparedPhase, _)) => Untouched(v)
    case Some(Journal(GateCreated, dirs)) =>
      if c.strategy.AtomicRename? then
        Untouched(v) || (AllAtDestination(v) && NoStaging(v) && RowsPrepared(v) && v.dest.SourceTree? && !v.srcRoot)
      else !dirs ==> Untouched(v)
    case Some(Journal(FilesLanded, _)) => AllAtDestination(v)
    case Some(Journal(MetadataCommitted, _)) => AllAtDestination(v) && RowsCommitted(v)
  }

  ghost predicate InPhase(v: Vault, phase: Phase) {
    v.journal.Some? && v.journal.value.phase == phase
  }

  /** What the process has established by the time it reaches a program counter. */
  ghost predicate PcHolds(c: Job, s: State) {
    var v := s.v;
    var n := |v.entries|;
    match s.pc
    case MakeGate | WriteMarker | RecordGate | DropStale => InPhase(v, PreparedPhase)
    case Unmark | RenameTree => InPhase(v, GateCreated) && c.strategy.AtomicRename? && Untouched(v)
    case MakeDirs | RecordDirs => InPhase(v, GateCreated) && c.strategy.ReplayableMove?
    case PlaceEntries | TakeAside(_) => Moving(c, v)
    case LinkIn(k) => Moving(c, v) && k < n && v.entries[k].stages > 0 && !v.entries[k].src
    case DropStage(k) => Moving(c, v) && k < n && v.entries[k].dest && v.entries[k].stages > 0
    case CheckLanded => InPhase(v, GateCreated) && (c.strategy.ReplayableMove? ==> Moving(c, v))
    case RecordLanded => InPhase(v, GateCreated) && AllAtDestination(v)
    case CommitRows => InPhase(v, FilesLanded)
    case RecordCommitted => InPhase(v, FilesLanded) && RowsCommitted(v)
    case Finalize | RemoveShells(_) | RemoveRoot | RemoveJournal => InPhase(v, MetadataCommitted)
    case DropBack(e) => e < n && v.entries[e].src && v.entries[e].stages > 0
    case RowFollows(e, to) => e < n && e < |v.rows| && (to.AtDestination? ==> v.entries[e].dest)
           && (v.rows[e].Prepared? ==> Moved(c, v))
    case LinkBack(e) => e < n && !v.entries[e].dest && v.entries[e].stages > 0
    case _ => true
  }

  ghost predicate Moving(c: Job, v: Vault) {
    && c.strategy.ReplayableMove?
    && InPhase(v, GateCreated) && v.journal.value.dirsRecorded
  }

  /** The only states in which staging files exist. */
  ghost predicate Moved(c: Job, v: Vault) {
    Moving(c, v) || InPhase(v, FilesLanded) || (v.journal.None? && AllAtDestination(v) && RowsCommitted(v))
  }

  ghost predicate Inv(c: Job, s: State) {
    Conserved(s.v) && PhaseHolds(c, s.v) && PcHolds(c, s)
  }

  lemma LandedIs(entries: seq<Entry>)
    requires forall k :: 0 <= k < |entries| ==> entries[k] == Entry(true, 0, false)
    ensures |Landed(entries)| == |entries|
    ensures forall k :: 0 <= k < |entries| ==> Landed(entries)[k] == Entry(false, 0, true)
  {
  }

  lemma GateStepConserves(c: Job, s: State, s': State)
    requires Inv(c, s) && GateStep(c, s, s')
    ensures Conserved(s'.v)
  {
    if s.pc.RenameTree? {
      LandedIs(s.v.entries);
    }
  }

  lemma GateStepKeepsPhase(c: Job, s: State, s': State)
    requires Inv(c, s) && GateStep(c, s, s')
    ensures PhaseHolds(c, s'.v)
  {
    if s.pc.RenameTree? {
      LandedIs(s.v.entries);
    }
  }

  lemma GateStepAdvances(c: Job, s: State, s': State)
    requires Inv(c, s) && GateStep(c, s, s')
    ensures PcHolds(c, s')
  {
    if s.pc.RenameTree? {
      LandedIs(s.v.entries);
    }
  }

  lemma MoveStepConserves(c: Job, s: State, s': State)
    requires Inv(c, s) && MoveStep(c, s, s')
    ensures Conserved(s'.v)
  {
  }

  lemma MoveStepKeepsPhase(c: Job, s: State, s': State)
    requires Inv(c, s) && MoveStep(c, s, s')
    ensures PhaseHolds(c, s'.v)
  {
  }

  lemma MoveStepAdvances(c: Job, s: State, s': State)
    requires Inv(c, s) && MoveStep(c, s, s')
    ensures PcHolds(c, s')
  {
  }

  lemma CommitStepConserves(c: Job, s: State, s': State)
    requires Inv(c, s) && CommitStep(c, s, s')
    ensures Conserved(s'.v)
  {
    hide Job.Transitions;
  }

  lemma CommitStepKeepsPhase(c: Job, s: State, s': State)
    requires Inv(c, s) && CommitStep(c, s, s')
    ensures PhaseHolds(c, s'.v)
  {
    hide Job.Transitions;
  }

  lemma CommitStepAdvances(c: Job, s: State, s': State)
    requires Inv(c, s) && CommitStep(c, s, s')
    ensures PcHolds(c, s')
  {
    hide Job.Transitions;
  }

  lemma CleanStepConserves(c: Job, s: State, s': State)
    requires Inv(c, s) && CleanStep(c, s, s')
    ensures Conserved(s'.v)
  {
  }

  lemma CleanStepKeepsPhase(c: Job, s: State, s': State)
    requires Inv(c, s) && CleanStep(c, s, s')
    ensures PhaseHolds(c, s'.v)
  {
  }

  lemma CleanStepAdvances(c: Job, s: State, s': State)
    requires Inv(c, s) && CleanStep(c, s, s')
    ensures PcHolds(c, s')
  {
    hide AllAtSource, AllAtDestination, NoStaging, RowsPrepared, RowsCommitted, Conserved, PhaseHolds;
  }

  lemma ScanStepConserves(c: Job, s: State, s': State)
    requires Inv(c, s) && ScanStep(c, s, s')
    ensures Conserved(s'.v)
  {
  }

  lemma ScanStepKeepsPhase(c: Job, s: State, s': State)
    requires Inv(c, s) && ScanStep(c, s, s')
    ensures PhaseHolds(c, s'.v)
  {
  }

  lemma ScanStepAdvances(c: Job, s: State, s': State)
    requires Inv(c, s) && ScanStep(c, s, s')
    ensures PcHolds(c, s')
  {
    hide AllAtSource, AllAtDestination, NoStaging, RowsPrepared, RowsCommitted, Conserved;
  }

  lemma PassStepConserves(c: Job, s: State, s': State)
    requires Inv(c, s) && PassStep(s, s')
    ensures Conserved(s'.v)
  {
  }

  lemma PassStepKeepsPhase(c: Job, s: State, s': State)
    requires Inv(c, s) && PassStep(s, s')
    ensures PhaseHolds(c, s'.v)
  {
  }

  lemma PassStepAdvances(c: Job, s: State, s': State)
    requires Inv(c, s) && PassStep(s, s')
    ensures PcHolds(c, s')
  {
    hide AllAtSource, AllAtDestination, NoStaging, RowsPrepared, RowsCommitted, Conserved, PhaseHolds;
  }

  lemma InnerTakeConserves(c: Job, s: State, s': State)
    requires Inv(c, s) && InnerStep(s, s') && s.pc.Inner?
    ensures Conserved(s'.v)
  {
  }

  lemma InnerTakeKeepsPhase(c: Job, s: State, s': State)
    requires Inv(c, s) && InnerStep(s, s') && s.pc.Inner?
    ensures PhaseHolds(c, s'.v)
  {
  }

  lemma InnerTakeAdvances(c: Job, s: State, s': State)
    requires Inv(c, s) && InnerStep(s, s') && s.pc.Inner?
    ensures PcHolds(c, s')
  {
  }

  lemma InnerFinishConserves(c: Job, s: State, s': State)
    requires Inv(c, s) && InnerStep(s, s') && !s.pc.Inner?
    ensures Conserved(s'.v)
  {
  }

  lemma InnerFinishKeepsPhase(c: Job, s: State, s': State)
    requires Inv(c, s) && InnerStep(s, s') && !s.pc.Inner?
    ensures PhaseHolds(c, s'.v)
  {
  }

  lemma InnerFinishAdvances(c: Job, s: State, s': State)
    requires Inv(c, s) && InnerStep(s, s') && !s.pc.Inner?
    ensures PcHolds(c, s')
  {
  }

  lemma InnerStepInv(c: Job, s: State, s': State)
    requires Inv(c, s) && InnerStep(s, s')
    ensures Inv(c, s')
  {
    hide InnerStep, Conserved, PhaseHolds, PcHolds;
    if s.pc.Inner? {
      InnerTakeConserves(c, s, s');
      InnerTakeKeepsPhase(c, s, s');
      InnerTakeAdvances(c, s, s');
    } else {
      InnerFinishConserves(c, s, s');
      InnerFinishKeepsPhase(c, s, s');
      InnerFinishAdvances(c, s, s');
    }
  }

  lemma StepInv(c: Job, s: State, s': State)
    requires Inv(c, s) && Step(c, s, s')
    ensures Inv(c, s')
  {
    hide GateStep, MoveStep, CommitStep, CleanStep, ScanStep, PassStep, InnerStep, Conserved, PhaseHolds, PcHolds;
    if GateStep(c, s, s') {
      GateStepConserves(c, s, s');
      GateStepKeepsPhase(c, s, s');
      GateStepAdvances(c, s, s');
    } else if MoveStep(c, s, s') {
      MoveStepConserves(c, s, s');
      MoveStepKeepsPhase(c, s, s');
      MoveStepAdvances(c, s, s');
    } else if CommitStep(c, s, s') {
      CommitStepConserves(c, s, s');
      CommitStepKeepsPhase(c, s, s');
      CommitStepAdvances(c, s, s');
    } else if CleanStep(c, s, s') {
      CleanStepConserves(c, s, s');
      CleanStepKeepsPhase(c, s, s');
      CleanStepAdvances(c, s, s');
    } else if ScanStep(c, s, s') {
      ScanStepConserves(c, s, s');
      ScanStepKeepsPhase(c, s, s');
      ScanStepAdvances(c, s, s');
    } else if PassStep(s, s') {
      PassStepConserves(c, s, s');
      PassStepKeepsPhase(c, s, s');
      PassStepAdvances(c, s, s');
    } else {
      InnerStepInv(c, s, s');
    }
  }

  lemma InitInv(c: Job, s: State)
    requires Init(c, s)
    ensures Inv(c, s)
  {
  }

  lemma CrashInv(c: Job, s: State)
    requires Inv(c, s)
    ensures Inv(c, Crash(s))
  {
  }

  lemma {:induction false} RunInv(c: Job, run: seq<State>, k: nat)
    requires IsRun(c, run) && k < |run|
    ensures Inv(c, run[k])
  {
    hide Step, Inv, Init, Crash;
    if k == 0 {
      InitInv(c, run[0]);
    } else {
      RunInv(c, run, k - 1);
      if Step(c, run[k - 1], run[k]) {
        StepInv(c, run[k - 1], run[k]);
      } else {
        CrashInv(c, run[k - 1]);
      }
    }
  }

  /** Over every run, both strategies, any number of crashes in the move and in recovery: no
      journaled file is ever without a name or under both paths, no row runs ahead of its file,
      from files-landed on every file is at the destination, and once the journal is gone files and
      rows are all on one side. */
  lemma FolderMoveConserves(c: Job, run: seq<State>, k: nat)
    requires IsRun(c, run) && k < |run|
    ensures Conserved(run[k].v)
    ensures InPhase(run[k].v, FilesLanded) || InPhase(run[k].v, MetadataCommitted) ==> AllAtDestination(run[k].v)
    ensures InPhase(run[k].v, MetadataCommitted) ==> RowsCommitted(run[k].v)
    ensures run[k].v.journal.None? ==> AllOrNothing(run[k].v)
  {
    RunInv(c, run, k);
  }
}
