/** The ownership-verified replace of server/atomicTextWrite.ts and its startup recovery
    (server/crashRecovery.ts) as one step system: each program counter stands for one await point,
    external writers act between any two steps, and the process may die at any of them, inside
    recovery too. */
module AtomicReplace {
  import opened Filesystem
  import opened Options

  /** One commit(expected) of a prepared replacement; `temp` is the inode of its save temp. */
  datatype Job = Job(expected: Text, replacement: Text, temp: Ino)

  /** Durable phase of the replace journal; Intent is the absent phase field. */
  datatype Phase = Intent | SavePending | ManualRecovery | PostCommitMutation

  datatype Failure = TargetMissing | Conflict | Ownership | PostCommitExternalMutation

  datatype Pc =
    // commit()
    | WriteJournal | CaptureTarget | TakeAside | CheckTaken | ReadTaken
    | RestoreLink(why: Failure) | RestoreUnlink(why: Failure)
    | LinkReplacement | CollisionUnlink
    | Recheck | MarkMutated | MutatedDropTemp
    | DropTemp | DropStaged | DropJournal
    | FailDropTemp(why: Failure) | FailDropJournal(why: Failure)
    | Committed | Failed(why: Failure)
    // process death and startup recovery
    | Down | Scan
    | StaleDropSave | StaleDropJournal
    | DoneDropStaged | DoneDropSave | DoneDropJournal
    | MarkPostCommit
    | FinishLink | FinishDropSave | FinishDropStaged | FinishDropJournal
    | UndoLink | UndoDropStaged | UndoSave | UndoDropJournal
    | MarkPending | RenamePending | MarkManual
    | OrphanStaged | OrphanDropStaged | OrphanSave
    | Recovered

  datatype State = State(
    world: World,
    journal: Option<Phase>,
    pc: Pc,
    held: Option<Ino>,   // identity captured at the target before the takeover
    read: Option<Text>)  // text of the generation taken over, once verified
  {
    function On(disk: Disk, next: Pc): State {
      this.(world := World(disk, world.discarded), pc := next)
    }
  }

  /** The save temp is written and owned; the target is whatever the vault holds. */
  ghost predicate Init(c: Job, s: State) {
    && s.pc == WriteJournal && s.journal == None && s.held == None && s.read == None
    && s.world.discarded == {}
    && s.world.disk.Valid()
    && s.world.disk.names.Keys <= {Formal, Destination, Save}
    && s.world.disk.Holds(Save, c.replacement) && s.world.disk.names[Save] == c.temp
    && (forall n :: n in s.world.disk.names && n != Save ==> s.world.disk.names[n] != c.temp)
    && (forall i :: i in s.world.disk.data ==> s.world.disk.Named(i))
  }

  ghost predicate LiveStep(c: Job, s: State, s': State) {
    var d := s.world.disk;
    match s.pc
    case WriteJournal =>
      s' == s.(journal := Some(Intent), pc := CaptureTarget)
    case CaptureTarget =>
      if Formal !in d.names then s' == s.(pc := FailDropTemp(TargetMissing))
      else || (s' == s.(pc := TakeAside, held := Some(d.names[Formal])))
           || s' == s.(pc := FailDropTemp(Ownership))  // the two reads disagreed
    case TakeAside =>
      if Formal !in d.names then s' == s.(pc := FailDropTemp(TargetMissing))
      else s' == s.On(d.Rename(Formal, Staged), CheckTaken)
    case CheckTaken =>
      if Staged in d.names && s.held == Some(d.names[Staged]) then s' == s.(pc := ReadTaken)
      else s' == s.(pc := FailDropTemp(Ownership))
    case ReadTaken =>
      || (Staged in d.names && d.Holds(Staged, c.expected)
          && s' == s.(pc := LinkReplacement, read := Some(c.expected)))
      || (!d.Holds(Staged, c.expected) && s' == s.(pc := RestoreLink(Conflict)))
      || s' == s.(pc := RestoreLink(Ownership))
    case RestoreLink(why) =>
      if Staged !in d.names || Formal in d.names then s' == s.(pc := FailDropTemp(why))
      else s' == s.On(d.Link(Staged, Formal), RestoreUnlink(why))
    case RestoreUnlink(why) =>
      s' == s.On(d.Unlink(Staged), FailDropTemp(why))
    case LinkReplacement =>
      if Formal in d.names then s' == s.(pc := CollisionUnlink)
      else Save in d.names && s' == s.On(d.Link(Save, Formal), Recheck)
    case CollisionUnlink =>
      s' == s.On(d.Unlink(Staged), FailDropTemp(Conflict))
    case Recheck =>
      || (d.Holds(Staged, c.expected) && s' == s.(pc := DropTemp))
      || s' == s.(pc := MarkMutated)
    case MarkMutated =>  // a failed phase rewrite keeps the original journal
      || s' == s.(journal := Some(PostCommitMutation), pc := MutatedDropTemp)
      || s' == s.(pc := MutatedDropTemp)
    case MutatedDropTemp => s' == s.On(d.Unlink(Save), Failed(PostCommitExternalMutation))
    case DropTemp => s' == s.On(d.Unlink(Save), DropStaged)
    case DropStaged => s' == s.On(d.Unlink(Staged), DropJournal)
    case DropJournal => s' == s.(journal := None, pc := Committed)
    case FailDropTemp(why) => s' == s.On(d.Unlink(Save), FailDropJournal(why))
    case FailDropJournal(why) => s' == s.(journal := None, pc := Failed(why))
    case _ => false
  }

  /** What recoverReplaceJournal decides from the journal and the directory. */
  function ScanNext(c: Job, s: State): State {
    var d := s.world.disk;
    match s.journal
    case None => s.(pc := OrphanStaged)
    case Some(SavePending) => s.(pc := RenamePending)
    case Some(ManualRecovery) => s.(pc := Recovered)
    case Some(PostCommitMutation) => s.(pc := Recovered)
    case Some(Intent) =>
      if Staged !in d.names then
        s.(pc := if Save in d.names && Formal in d.names then StaleDropSave else StaleDropJournal)
      else if Formal in d.names then
        if d.Holds(Formal, c.replacement) then
          s.(pc := if d.Holds(Staged, c.expected) then DoneDropStaged else MarkPostCommit)
        else s.(pc := if Save in d.names then MarkPending else MarkManual)
      else if d.Holds(Staged, c.expected) && d.Holds(Save, c.replacement) then s.(pc := FinishLink)
      else s.(pc := UndoLink)
  }

  /** The removals of a stale, completed or just finished commit; the journal goes last. */
  function CleanNext(s: State): State {
    var d := s.world.disk;
    match s.pc
    case StaleDropSave => s.On(d.Unlink(Save), StaleDropJournal)
    case StaleDropJournal => s.(journal := None, pc := OrphanStaged)
    case DoneDropStaged => s.On(d.Unlink(Staged), DoneDropSave)
    case DoneDropSave => s.On(d.Unlink(Save), DoneDropJournal)
    case DoneDropJournal => s.(journal := None, pc := OrphanStaged)
    case FinishDropSave => s.On(d.Unlink(Save), FinishDropStaged)
    case FinishDropStaged => s.On(d.Unlink(Staged), FinishDropJournal)
    case FinishDropJournal => s.(journal := None, pc := OrphanStaged)
    case _ => s
  }

  /** The orphan rules for what no journal describes any more. */
  function OrphanNext(s: State): State {
    var d := s.world.disk;
    match s.pc
    case OrphanStaged =>
      if Staged !in d.names || Formal in d.names then s.(pc := OrphanSave)
      else s.On(d.Link(Staged, Formal), OrphanDropStaged)
    case OrphanDropStaged => s.On(d.Unlink(Staged), OrphanSave)
    case OrphanSave =>
      if Save in d.names && Formal in d.names then s.On(d.Unlink(Save), Recovered)
      else s.(pc := Recovered)
    case _ => s
  }

  /** Finishing an interrupted commit, or putting the old generation back. */
  function ResolveNext(s: State): State {
    var d := s.world.disk;
    match s.pc
    case FinishLink =>
      if Formal in d.names then s.(pc := UndoLink)
      else if Save !in d.names then s.(pc := Recovered)  // any error but EEXIST retains the journal
      else s.On(d.Link(Save, Formal), FinishDropSave)
    case UndoLink =>
      if Formal in d.names || Staged !in d.names then s.(pc := UndoSave)
      else s.On(d.Link(Staged, Formal), UndoDropStaged)
    case UndoDropStaged => s.On(d.Unlink(Staged), UndoSave)
    case UndoSave => s.(pc := if Save in d.names then MarkPending else UndoDropJournal)
    case UndoDropJournal => s.(journal := None, pc := OrphanStaged)
    case _ => s
  }

  /** Keeping a set of generations for manual recovery. */
  function RetainNext(s: State): State {
    var d := s.world.disk;
    match s.pc
    case MarkPostCommit => s.(journal := Some(PostCommitMutation), pc := Recovered)
    case MarkPending => s.(journal := Some(SavePending), pc := RenamePending)
    case RenamePending =>
      if Save in d.names && Quarantined !in d.names then s.On(d.Rename(Save, Quarantined), MarkManual)
      else s.(pc := if Quarantined in d.names then MarkManual else Recovered)
    case MarkManual => s.(journal := Some(ManualRecovery), pc := Recovered)
    case _ => s
  }

  /** One atomic step of recoverReplaceJournal, or of the orphan rules that follow it once no
      journal is left. Down is the startup that begins a recovery. */
  function RecoveryNext(c: Job, s: State): State {
    match s.pc
    case Down => s.(pc := Scan)
    case Scan => ScanNext(c, s)
    case FinishLink | UndoLink | UndoDropStaged | UndoSave | UndoDropJournal => ResolveNext(s)
    case MarkPostCommit | MarkPending | RenamePending | MarkManual => RetainNext(s)
    case OrphanStaged | OrphanDropStaged | OrphanSave => OrphanNext(s)
    case _ => CleanNext(s)
  }

  predicate Recovering(pc: Pc) {
    RecoveryRank(pc) > 0
  }

  /** Bounds the steps an uninterrupted recovery still takes; 0 for every other counter. */
  function RecoveryRank(pc: Pc): nat {
    match pc
    case Down => 19
    case Scan => 18
    case FinishLink => 17
    case UndoLink => 16
    case UndoDropStaged => 15
    case UndoSave => 14
    case MarkPending => 13
    case RenamePending => 12
    case MarkManual => 11
    case UndoDropJournal => 10
    case FinishDropSave | DoneDropStaged => 9
    case FinishDropStaged | DoneDropSave => 8
    case FinishDropJournal | DoneDropJournal => 7
    case StaleDropSave => 6
    case StaleDropJournal => 5
    case OrphanStaged => 4
    case OrphanDropStaged => 3
    case OrphanSave => 2
    case MarkPostCommit => 1
    case _ => 0
  }

  ghost predicate RecoveryStep(c: Job, s: State, s': State) {
    Recovering(s.pc) && s' == RecoveryNext(c, s)
  }

  /** The process dies: the disk and the journal survive, every local is gone. A later startup of
      a finished recovery is the same step. */
  function Restart(s: State): State {
    State(s.world, s.journal, Down, None, None)
  }

  /** Between the comparison of staged bytes and the unlink that relies on it. */
  predicate InWindow(pc: Pc) {
    || pc.LinkReplacement? || pc.CollisionUnlink? || pc.DropTemp? || pc.DropStaged? || pc.DoneDropStaged?
         || pc.FinishLink? || pc.FinishDropSave? || pc.FinishDropStaged?
  }

  function Frozen(s: State): set<Ino> {
    if InWindow(s.pc) then Bound(s.world.disk, Staged) else {}
  }

  ghost predicate Outside(s: State, s': State) {
    && s'.journal == s.journal && s'.pc == s.pc && s'.held == s.held && s'.read == s.read
    && exists e :: ExternalStep(e, s.world, s'.world, Frozen(s))
  }

  /** Everything but external writers. */
  ghost predicate OwnStep(c: Job, s: State, s': State) {
    LiveStep(c, s, s') || RecoveryStep(c, s, s') || s' == Restart(s)
  }

  ghost predicate IsRun(c: Job, run: seq<State>) {
    && run != []
    && Init(c, run[0])
    && forall k :: 0 <= k < |run| - 1 ==> OwnStep(c, run[k], run[k + 1]) || Outside(run[k], run[k + 1])
  }

  /** A run in which no external writer acts. */
  ghost predicate IsQuietRun(c: Job, run: seq<State>) {
    && run != []
    && Init(c, run[0])
    && forall k :: 0 <= k < |run| - 1 ==> OwnStep(c, run[k], run[k + 1])
  }

  // ---------- external bytes survive ----------

  /** No generation but the save temp has lost its last name, unless it holds exactly the text the
      caller declared to be replacing or an external writer discarded it. */
  ghost predicate Survives(c: Job, s: State) {
    forall i :: i in s.world.disk.data && i != c.temp && i !in s.world.discarded && !s.world.disk.Named(i)
      ==> s.world.disk.data[i] == c.expected
  }

  predicate AfterVerify(pc: Pc) {
    || pc.LinkReplacement? || pc.CollisionUnlink? || pc.Recheck? || pc.MarkMutated? || pc.MutatedDropTemp?
         || pc.DropTemp? || pc.DropStaged? || pc.DropJournal? || pc.Committed?
  }

  predicate BeforeTakeover(pc: Pc) {
    || pc.WriteJournal? || pc.CaptureTarget? || pc.TakeAside?
  }

  /** Names the restores unlink are a second name of the formal generation, unless that generation
      has been discarded since. */
  predicate Unlinking(pc: Pc) {
    pc.RestoreUnlink? || pc == UndoDropStaged || pc == OrphanDropStaged
  }

  /** Which inode each marker names. */
  ghost predicate Markers(c: Job, s: State) {
    var d := s.world.disk;
    && d.Valid()
    && c.temp in d.data
    && (Save in d.names ==> d.names[Save] == c.temp)
    && (Quarantined in d.names ==> d.names[Quarantined] == c.temp)
    && (Staged in d.names ==> d.names[Staged] != c.temp)
    && (BeforeTakeover(s.pc) && Formal in d.names ==> d.names[Formal] != c.temp)
  }

  /** What the process has established by the time it reaches a program counter. */
  ghost predicate Established(c: Job, s: State) {
    var d := s.world.disk;
    && (BeforeTakeover(s.pc) ==> Staged !in d.names)
    && (InWindow(s.pc) && Staged in d.names ==> d.Holds(Staged, c.expected))
    && (Unlinking(s.pc) && Staged in d.names ==>
          (Formal in d.names && d.names[Formal] == d.names[Staged]) || d.names[Staged] in s.world.discarded)
    && (AfterVerify(s.pc) ==> s.read == Some(c.expected))
  }

  ghost predicate Shape(c: Job, s: State) {
    Markers(c, s) && Established(c, s)
  }

  ghost predicate Inv(c: Job, s: State) {
    Shape(c, s) && Survives(c, s)
  }

  lemma LiveStepMarkers(c: Job, s: State, s': State)
    requires Shape(c, s) && LiveStep(c, s, s')
    ensures Markers(c, s')
  {
  }

  lemma LiveStepEstablishes(c: Job, s: State, s': State)
    requires Shape(c, s) && LiveStep(c, s, s')
    ensures Established(c, s')
  {
  }

  lemma ScanShape(c: Job, s: State)
    requires Shape(c, s)
    ensures Shape(c, ScanNext(c, s))
  {
  }

  lemma CleanShape(c: Job, s: State)
    requires Shape(c, s)
    ensures Shape(c, CleanNext(s))
  {
  }

  lemma OrphanShape(c: Job, s: State)
    requires Shape(c, s)
    ensures Shape(c, OrphanNext(s))
  {
  }

  lemma ResolveShape(c: Job, s: State)
    requires Shape(c, s)
    ensures Shape(c, ResolveNext(s))
  {
  }

  lemma RetainShape(c: Job, s: State)
    requires Shape(c, s)
    ensures Shape(c, RetainNext(s))
  {
  }

  lemma RecoveryShape(c: Job, s: State)
    requires Shape(c, s)
    ensures Shape(c, RecoveryNext(c, s))
  {
    match s.pc
    case Down =>
    case Scan => ScanShape(c, s);
    case FinishLink | UndoLink | UndoDropStaged | UndoSave | UndoDropJournal => ResolveShape(c, s);
    case MarkPostCommit | MarkPending | RenamePending | MarkManual => RetainShape(c, s);
    case OrphanStaged | OrphanDropStaged | OrphanSave => OrphanShape(c, s);
    case _ => CleanShape(c, s);
  }

  lemma RestartShape(c: Job, s: State)
    requires Shape(c, s)
    ensures Shape(c, Restart(s))
  {
  }

  lemma OutsideShape(c: Job, s: State, s': State)
    requires Shape(c, s) && Outside(s, s')
    ensures Shape(c, s')
  {
  }

  lemma LiveStepFreesNothingForeign(c: Job, s: State, s': State, i: Ino)
    requires Shape(c, s) && LiveStep(c, s, s') && s.world.disk.Named(i)
    ensures s'.world.disk.Named(i) || i == c.temp || i in s.world.discarded || s.world.disk.data[i] == c.expected
  {
    var d, d' := s.world.disk, s'.world.disk;
    var m :| m in d.names && d.names[m] == i;
    if m in d'.names && d'.names[m] == i {
    } else if s.pc.TakeAside? && m == Formal && Formal !in d'.names {
      assert d'.names[Staged] == i;
    } else if s.pc.RestoreUnlink? && m == Staged && Formal in d.names && d.names[Formal] == i {
      assert d'.names[Formal] == i;
    }
  }

  lemma RecoveryFreesNothingForeign(c: Job, s: State, i: Ino)
    requires Shape(c, s) && s.world.disk.Named(i)
    ensures var d' := RecoveryNext(c, s).world.disk;
            d'.Named(i) || i == c.temp || i in s.world.discarded || s.world.disk.data[i] == c.expected
  {
    var d, d' := s.world.disk, RecoveryNext(c, s).world.disk;
    var m :| m in d.names && d.names[m] == i;
    if m in d'.names && d'.names[m] == i {
    } else if Unlinking(s.pc) && m == Staged && Formal in d.names && d.names[Formal] == i {
      assert d'.names[Formal] == i;
    }
  }

  /** Every name a step of the protocol or of recovery takes away was not the last one, or the
      inode was the save temp, held the expected text, or had been discarded by its own writer. */
  lemma OwnStepFreesNothingForeign(c: Job, s: State, s': State, i: Ino)
    requires Shape(c, s) && OwnStep(c, s, s') && s.world.disk.Named(i)
    ensures s'.world.disk.Named(i) || i == c.temp || i in s.world.discarded || s.world.disk.data[i] == c.expected
  {
    hide RecoveryNext, LiveStep;
    if LiveStep(c, s, s') {
      LiveStepFreesNothingForeign(c, s, s', i);
    } else if RecoveryStep(c, s, s') {
      RecoveryFreesNothingForeign(c, s, i);
    }
  }

  lemma OwnStepInv(c: Job, s: State, s': State)
    requires Inv(c, s) && OwnStep(c, s, s')
    ensures Inv(c, s')
  {
    OwnStepKeepsData(c, s, s');
    hide RecoveryNext, LiveStep, Markers, Established;
    if LiveStep(c, s, s') {
      LiveStepMarkers(c, s, s');
      LiveStepEstablishes(c, s, s');
    } else if RecoveryStep(c, s, s') {
      RecoveryShape(c, s);
    } else {
      RestartShape(c, s);
    }
    forall i | s.world.disk.Named(i)
      ensures s'.world.disk.Named(i) || i == c.temp || i in s.world.discarded || s.world.disk.data[i] == c.expected
    {
      OwnStepFreesNothingForeign(c, s, s', i);
    }
  }

  lemma OwnStepKeepsData(c: Job, s: State, s': State)
    requires OwnStep(c, s, s')
    ensures s'.world.disk.data == s.world.disk.data && s'.world.discarded == s.world.discarded
  {
  }

  lemma OutsideInv(c: Job, s: State, s': State)
    requires Inv(c, s) && Outside(s, s')
    ensures Inv(c, s')
  {
    OutsideShape(c, s, s');
    var d, d' := s.world.disk, s'.world.disk;
    forall i | d.Named(i)
      ensures d'.Named(i) || i in s'.world.discarded
    {
      var m :| m in d.names && d.names[m] == i;
      assert i in s'.world.discarded || (m in d'.names && d'.names[m] == i);
    }
    forall i | i in d'.data && i !in d.data
      ensures d'.Named(i)
    {
      var e :| ExternalStep(e, s.world, s'.world, Frozen(s));
      assert e.path in d'.names;
    }
  }

  lemma InitInv(c: Job, s: State)
    requires Init(c, s)
    ensures Inv(c, s)
  {
  }

  lemma {:induction false} RunInv(c: Job, run: seq<State>, k: nat)
    requires IsRun(c, run) && k < |run|
    ensures Inv(c, run[k])
  {
    hide RecoveryNext, LiveStep, Markers, Established, Survives;
    if k == 0 {
      InitInv(c, run[0]);
    } else {
      RunInv(c, run, k - 1);
      if OwnStep(c, run[k - 1], run[k]) {
        OwnStepInv(c, run[k - 1], run[k]);
      } else {
        OutsideInv(c, run[k - 1], run[k]);
      }
    }
  }

  /** Over every interleaving with external writers, every crash and every recovery. */
  lemma ExternalGenerationsSurvive(c: Job, run: seq<State>, k: nat)
    requires IsRun(c, run) && k < |run|
    ensures Survives(c, run[k])
  {
    RunInv(c, run, k);
  }

  // ---------- what a commit publishes over ----------

  /** The generation taken over is the one captured before, and from the comparison on the one whose
      text was compared. */
  ghost predicate TookTheCaptured(s: State) {
    (s.pc.ReadTaken? || AfterVerify(s.pc)) && Staged in s.world.disk.names ==>
      s.held == Some(s.world.disk.names[Staged])
  }

  ghost predicate ReadAsExpected(c: Job, s: State) {
    && s.pc == ReadTaken
    && s.world.disk.Holds(Staged, c.expected)
    && s.held == Some(s.world.disk.names[Staged])
  }

  lemma OwnStepTookTheCaptured(c: Job, s: State, s': State)
    requires Shape(c, s) && TookTheCaptured(s) && OwnStep(c, s, s')
    ensures TookTheCaptured(s')
    ensures AfterVerify(s'.pc) && !AfterVerify(s.pc) ==> ReadAsExpected(c, s) && s'.held == s.held
    ensures AfterVerify(s'.pc) && AfterVerify(s.pc) ==> s'.held == s.held
  {
    if RecoveryStep(c, s, s') {
      RecoveryLeavesCommit(c, s);
    }
    hide RecoveryNext, Shape;
  }

  lemma RecoveryLeavesCommit(c: Job, s: State)
    requires Recovering(s.pc)
    ensures !AfterVerify(RecoveryNext(c, s).pc) && !RecoveryNext(c, s).pc.ReadTaken?
  {
  }

  lemma OutsideTookTheCaptured(s: State, s': State)
    requires TookTheCaptured(s) && Outside(s, s')
    ensures TookTheCaptured(s') && s'.held == s.held && s'.pc == s.pc
  {
  }

  lemma {:induction false} CapturedRun(c: Job, run: seq<State>, k: nat)
    requires IsRun(c, run) && k < |run|
    ensures TookTheCaptured(run[k])
    ensures AfterVerify(run[k].pc) ==> exists j :: 0 <= j < k && ReadAsExpected(c, run[j]) && run[j].held == run[k].held
  {
    hide RecoveryNext, LiveStep, TookTheCaptured, ReadAsExpected, Shape, Outside;
    if k == 0 {
      assert TookTheCaptured(run[0]) by { InitTook(c, run[0]); }
    } else {
      CapturedRun(c, run, k - 1);
      RunInv(c, run, k - 1);
      if OwnStep(c, run[k - 1], run[k - 1 + 1]) {
        OwnStepTookTheCaptured(c, run[k - 1], run[k]);
      } else {
        OutsideTookTheCaptured(run[k - 1], run[k]);
      }
    }
  }

  lemma InitTook(c: Job, s: State)
    requires Init(c, s)
    ensures TookTheCaptured(s)
  {
  }

  /** A commit gets as far as its link only after it has read the expected text in the generation it
      had captured at the target and taken over; and if that one still has its staging name, it is
      the same one. */
  lemma PublishesOverExpected(c: Job, run: seq<State>, k: nat)
    requires IsRun(c, run) && k < |run| && AfterVerify(run[k].pc)
    ensures exists j :: 0 <= j < k && ReadAsExpected(c, run[j]) && run[j].held == run[k].held
    ensures Staged in run[k].world.disk.names ==> run[k].held == Some(run[k].world.disk.names[Staged])
  {
    CapturedRun(c, run, k);
  }

  // ---------- crash-atomic replace ----------

  /** An uninterrupted startup recovery, run to its end. */
  ghost predicate IsRecovery(c: Job, run: seq<State>) {
    && run != []
    && run[0].pc == Down
    && (forall k :: 0 <= k < |run| - 1 ==> RecoveryStep(c, run[k], run[k + 1]))
    && run[|run| - 1].pc == Recovered
  }

  /** The inode bound to the formal path when the replace began; its text never changes in a run
      without external writers. */
  function Old(s0: State): Option<Ino> {
    if Formal in s0.world.disk.names then Some(s0.world.disk.names[Formal]) else None
  }

  /** The formal path holds what it held, or the replacement where it held the expected text, or is
      still missing. */
  ghost predicate Resolved(c: Job, s0: State, s: State) {
    var d, d0 := s.world.disk, s0.world.disk;
    match Old(s0)
    case None => Formal !in d.names
    case Some(i) =>
      && i in d0.data
      && (d.Holds(Formal, d0.data[i]) || (d0.data[i] == c.expected && d.Holds(Formal, c.replacement)))
  }

  /** The counters at which the formal path may be unbound: taken over, not yet linked. */
  predicate MidTakeover(pc: Pc) {
    || pc.CheckTaken? || pc.ReadTaken? || pc.RestoreLink? || pc.LinkReplacement?
    || pc.Down? || pc.Scan? || pc.FinishLink? || pc.UndoLink?
  }

  predicate Linked(pc: Pc) {
    || pc.Recheck? || pc.MarkMutated? || pc.MutatedDropTemp?
    || pc.DropTemp? || pc.DropStaged? || pc.DropJournal? || pc.Committed?
  }

  ghost predicate InFlight(i: Ino, s: State) {
    var d := s.world.disk;
    && Formal !in d.names
    && Staged in d.names && d.names[Staged] == i
    && MidTakeover(s.pc)
    && s.journal == Some(Intent)
    && (s.pc.CheckTaken? ==> s.held == Some(i))
    && (s.pc.FinishLink? ==> Save in d.names)
  }

  ghost predicate Settled(c: Job, i: Ino, s: State) {
    var d := s.world.disk;
    && Formal in d.names && i in d.data
    && (d.names[Formal] == i || (d.names[Formal] == c.temp && d.data[i] == c.expected))
    && (Staged in d.names ==> d.names[Staged] == i)
    && !s.pc.CheckTaken? && !s.pc.ReadTaken? && !s.pc.RestoreLink? && !s.pc.LinkReplacement?
    && !s.pc.FinishLink? && !s.pc.UndoLink?
    && (s.pc.CaptureTarget? || s.pc.TakeAside? ==> s.journal == Some(Intent))
    && (s.pc.TakeAside? ==> s.held == Some(d.names[Formal]))
    && (Linked(s.pc) ==> d.names[Formal] == c.temp)
  }

  ghost predicate Quiet(c: Job, s0: State, s: State) {
    var d := s.world.disk;
    && Shape(c, s)
    && d.data == s0.world.disk.data
    && c.temp in d.data && d.data[c.temp] == c.replacement
    && match Old(s0)
       case None => Formal !in d.names && Staged !in d.names && !s.pc.TakeAside? && !s.pc.CheckTaken?
              && !AfterVerify(s.pc) && !s.pc.FinishLink?
       case Some(i) => i in d.data && i != c.temp && (InFlight(i, s) || Settled(c, i, s))
  }

  lemma QuietInit(c: Job, s0: State)
    requires Init(c, s0)
    ensures Quiet(c, s0, s0)
  {
  }

  lemma QuietTakeover(c: Job, s0: State, s: State, s': State)
    requires Quiet(c, s0, s) && LiveStep(c, s, s') && (BeforeTakeover(s.pc) || MidTakeover(s.pc))
    ensures Quiet(c, s0, s')
  {
    LiveStepMarkers(c, s, s');
    LiveStepEstablishes(c, s, s');
  }

  lemma QuietPublish(c: Job, s0: State, s: State, s': State)
    requires Quiet(c, s0, s) && LiveStep(c, s, s') && !BeforeTakeover(s.pc) && !MidTakeover(s.pc)
    ensures Quiet(c, s0, s')
  {
    LiveStepMarkers(c, s, s');
    LiveStepEstablishes(c, s, s');
  }

  lemma QuietLive(c: Job, s0: State, s: State, s': State)
    requires Quiet(c, s0, s) && LiveStep(c, s, s')
    ensures Quiet(c, s0, s')
  {
    hide LiveStep, Quiet;
    if BeforeTakeover(s.pc) || MidTakeover(s.pc) {
      QuietTakeover(c, s0, s, s');
    } else {
      QuietPublish(c, s0, s, s');
    }
  }

  lemma QuietScan(c: Job, s0: State, s: State)
    requires Quiet(c, s0, s) && s.pc == Scan
    ensures Quiet(c, s0, ScanNext(c, s))
  {
    ScanShape(c, s);
  }

  lemma QuietClean(c: Job, s0: State, s: State)
    requires Quiet(c, s0, s)
    ensures Quiet(c, s0, CleanNext(s))
  {
    CleanShape(c, s);
  }

  lemma QuietOrphan(c: Job, s0: State, s: State)
    requires Quiet(c, s0, s)
    ensures Quiet(c, s0, OrphanNext(s))
  {
    OrphanShape(c, s);
  }

  lemma QuietResolve(c: Job, s0: State, s: State)
    requires Quiet(c, s0, s)
    ensures Quiet(c, s0, ResolveNext(s))
  {
    ResolveShape(c, s);
  }

  lemma QuietRetain(c: Job, s0: State, s: State)
    requires Quiet(c, s0, s)
    ensures Quiet(c, s0, RetainNext(s))
  {
    RetainShape(c, s);
  }

  lemma QuietRecovery(c: Job, s0: State, s: State)
    requires Quiet(c, s0, s) && Recovering(s.pc)
    ensures Quiet(c, s0, RecoveryNext(c, s))
  {
    match s.pc
    case Down => RecoveryShape(c, s);
    case Scan => QuietScan(c, s0, s);
    case FinishLink | UndoLink | UndoDropStaged | UndoSave | UndoDropJournal => QuietResolve(c, s0, s);
    case MarkPostCommit | MarkPending | RenamePending | MarkManual => QuietRetain(c, s0, s);
    case OrphanStaged | OrphanDropStaged | OrphanSave => QuietOrphan(c, s0, s);
    case _ => QuietClean(c, s0, s);
  }

  lemma QuietRestart(c: Job, s0: State, s: State)
    requires Quiet(c, s0, s)
    ensures Quiet(c, s0, Restart(s))
  {
  }

  lemma {:induction false} QuietRun(c: Job, run: seq<State>, k: nat)
    requires IsQuietRun(c, run) && k < |run|
    ensures Quiet(c, run[0], run[k])
  {
    if k == 0 {
      QuietInit(c, run[0]);
    } else {
      QuietRun(c, run, k - 1);
      var s, s' := run[k - 1], run[k];
      if LiveStep(c, s, s') {
        QuietLive(c, run[0], s, s');
      } else if RecoveryStep(c, s, s') {
        QuietRecovery(c, run[0], s);
      } else {
        QuietRestart(c, run[0], s);
      }
    }
  }

  lemma QuietResolved(c: Job, s0: State, s: State)
    requires Quiet(c, s0, s) && !MidTakeover(s.pc)
    ensures Resolved(c, s0, s)
  {
  }

  /** In a run without external writers, after any step, any number of crashes and any number of
      interrupted recoveries: the old generation still has a name, and unless a takeover is in
      flight the formal path is resolved. */
  lemma NeverLost(c: Job, run: seq<State>, k: nat)
    requires IsQuietRun(c, run) && k < |run|
    ensures Old(run[0]).Some? && Formal !in run[k].world.disk.names ==>
              InFlight(Old(run[0]).value, run[k])
    ensures !MidTakeover(run[k].pc) ==> Resolved(c, run[0], run[k])
    ensures run[k].pc.Committed? ==> run[k].world.disk.Holds(Formal, c.replacement)
  {
    QuietRun(c, run, k);
  }

  lemma ExtendQuietRun(c: Job, run: seq<State>, s': State)
    requires IsQuietRun(c, run) && OwnStep(c, run[|run| - 1], s')
    ensures IsQuietRun(c, run + [s'])
  {
    var run' := run + [s'];
    forall k | 0 <= k < |run'| - 1
      ensures OwnStep(c, run'[k], run'[k + 1])
    {
      if k < |run| - 1 {
        assert OwnStep(c, run[k], run[k + 1]);
      }
    }
  }

  lemma UndisturbedTakeover(c: Job, s0: State) returns (run: seq<State>)
    requires Init(c, s0) && s0.world.disk.Holds(Formal, c.expected)
    ensures IsQuietRun(c, run) && run[0] == s0
    ensures run[|run| - 1] == State(World(s0.world.disk.Rename(Formal, Staged), {}), Some(Intent), LinkReplacement,
                                    Some(s0.world.disk.names[Formal]), Some(c.expected))
  {
    var s1 := s0.(journal := Some(Intent), pc := CaptureTarget);
    var s2 := s1.(pc := TakeAside, held := Some(s0.world.disk.names[Formal]));
    var s3 := s2.On(s2.world.disk.Rename(Formal, Staged), CheckTaken);
    var s4 := s3.(pc := ReadTaken);
    var s5 := s4.(pc := LinkReplacement, read := Some(c.expected));
    assert LiveStep(c, s0, s1) && LiveStep(c, s1, s2) && LiveStep(c, s2, s3);
    assert LiveStep(c, s3, s4) && LiveStep(c, s4, s5);
    run := [s0, s1, s2, s3, s4, s5];
  }

  lemma UndisturbedPublish(c: Job, s: State) returns (run: seq<State>)
    requires s.pc == LinkReplacement && s.world.disk.Holds(Staged, c.expected)
    requires Formal !in s.world.disk.names && Save in s.world.disk.names
    ensures |run| == 6 && run[0] == s
    ensures forall k :: 0 <= k < 5 ==> OwnStep(c, run[k], run[k + 1])
    ensures var d := s.world.disk;
            run[5] == State(World(Disk(d.names[Formal := d.names[Save]] - {Save} - {Staged}, d.data), s.world.discarded),
                            None, Committed, s.held, s.read)
  {
    hide RecoveryNext;
    var s6 := s.On(s.world.disk.Link(Save, Formal), Recheck);
    var s7 := s6.(pc := DropTemp);
    var s8 := s7.On(s7.world.disk.Unlink(Save), DropStaged);
    var s9 := s8.On(s8.world.disk.Unlink(Staged), DropJournal);
    var s10 := s9.(journal := None, pc := Committed);
    assert LiveStep(c, s, s6) && LiveStep(c, s6, s7) && LiveStep(c, s7, s8);
    assert LiveStep(c, s8, s9) && LiveStep(c, s9, s10);
    run := [s, s6, s7, s8, s9, s10];
  }

  /** Undisturbed, a commit of an expected target goes through and leaves nothing but the
      replacement behind. */
  lemma UndisturbedCommit(c: Job, s0: State) returns (run: seq<State>)
    requires Init(c, s0) && s0.world.disk.Holds(Formal, c.expected)
    ensures IsQuietRun(c, run) && run[0] == s0
    ensures var s := run[|run| - 1];
            && s.pc == Committed && s.journal == None
            && s.world.disk.names == s0.world.disk.names[Formal := c.temp] - {Save}
            && s.world.disk.Holds(Formal, c.replacement)
  {
    hide RecoveryNext, LiveStep;
    run := UndisturbedTakeover(c, s0);
    var rest := UndisturbedPublish(c, run[|run| - 1]);
    for k := 1 to 6
      invariant IsQuietRun(c, run) && run[0] == s0 && run[|run| - 1] == rest[k - 1]
    {
      assert OwnStep(c, rest[k - 1], rest[k - 1 + 1]);
      ExtendQuietRun(c, run, rest[k]);
      run := run + [rest[k]];
    }
  }

  lemma RecoveryRankDrops(c: Job, s: State)
    requires Recovering(s.pc)
    ensures RecoveryRank(RecoveryNext(c, s).pc) < RecoveryRank(s.pc)
  {
  }

  lemma RecoveryStaysOnTrack(c: Job, s: State)
    requires Recovering(s.pc)
    ensures Recovering(RecoveryNext(c, s).pc) || RecoveryNext(c, s).pc == Recovered
  {
  }

  /** Recovery neither loops nor gets stuck. */
  lemma {:induction false} RecoveryEnds(c: Job, s: State) returns (run: seq<State>)
    requires Recovering(s.pc)
    ensures run != [] && run[0] == s && run[|run| - 1].pc == Recovered
    ensures forall k :: 0 <= k < |run| - 1 ==> RecoveryStep(c, run[k], run[k + 1])
    decreases RecoveryRank(s.pc)
  {
    hide RecoveryNext;
    var s' := RecoveryNext(c, s);
    RecoveryRankDrops(c, s);
    RecoveryStaysOnTrack(c, s);
    if s'.pc == Recovered {
      run := [s, s'];
    } else {
      var rest := RecoveryEnds(c, s');
      run := [s] + rest;
    }
  }

  lemma {:induction false} RecoveryKeepsQuiet(c: Job, s0: State, run: seq<State>, k: nat)
    requires k < |run| && Quiet(c, s0, run[0])
    requires forall j :: 0 <= j < |run| - 1 ==> RecoveryStep(c, run[j], run[j + 1])
    ensures Quiet(c, s0, run[k])
  {
    hide Quiet, RecoveryNext;
    if k > 0 {
      RecoveryKeepsQuiet(c, s0, run, k - 1);
      assert RecoveryStep(c, run[k - 1], run[k - 1 + 1]);
      QuietRecovery(c, s0, run[k - 1]);
    }
  }

  /** The crash-atomicity of the replace: kill it after any step, kill recovery any number of times,
      and every recovery that runs to its end leaves the target holding its old text, or the
      replacement where the old text was the expected one, and never missing. */
  lemma CrashAtomic(c: Job, run: seq<State>, recovery: seq<State>)
    requires IsQuietRun(c, run)
    requires IsRecovery(c, recovery) && recovery[0] == Restart(run[|run| - 1])
    ensures Resolved(c, run[0], recovery[|recovery| - 1])
  {
    hide RecoveryNext, Quiet, Resolved;
    QuietRun(c, run, |run| - 1);
    QuietRestart(c, run[0], run[|run| - 1]);
    RecoveryKeepsQuiet(c, run[0], recovery, |recovery| - 1);
    QuietResolved(c, run[0], recovery[|recovery| - 1]);
  }

  /** What a finished recovery leaves: nothing further for the next startup to do. */
  ghost predicate Quiescent(s: State) {
    var d := s.world.disk;
    match s.journal
    case None => (Staged in d.names ==> Formal in d.names) && !(Save in d.names && Formal in d.names)
    case Some(SavePending) => Save !in d.names && Quarantined !in d.names
    case Some(Intent) => false
    case _ => true
  }

  ghost predicate TowardQuiescent(s: State) {
    var d := s.world.disk;
    match s.pc
    case FinishLink => Save in d.names
    case RenamePending => s.journal == Some(SavePending)
    case OrphanStaged => s.journal == None
    case OrphanDropStaged => s.journal == None && Formal in d.names
    case OrphanSave => s.journal == None && (Staged in d.names ==> Formal in d.names)
    case Recovered => Quiescent(s)
    case pc => Recovering(pc)
  }

  lemma TowardQuiescentResolve(c: Job, s: State)
    requires TowardQuiescent(s)
    requires s.pc.FinishLink? || s.pc.UndoLink? || s.pc.UndoDropStaged? || s.pc.UndoSave? || s.pc.UndoDropJournal?
    ensures TowardQuiescent(ResolveNext(s))
  {
  }

  lemma TowardQuiescentRetain(s: State)
    requires TowardQuiescent(s)
    requires s.pc.MarkPostCommit? || s.pc.MarkPending? || s.pc.RenamePending? || s.pc.MarkManual?
    ensures TowardQuiescent(RetainNext(s))
  {
  }

  lemma TowardQuiescentStep(c: Job, s: State)
    requires TowardQuiescent(s) && Recovering(s.pc)
    ensures TowardQuiescent(RecoveryNext(c, s))
  {
    hide RetainNext, ResolveNext;
    match s.pc
    case FinishLink | UndoLink | UndoDropStaged | UndoSave | UndoDropJournal => TowardQuiescentResolve(c, s);
    case MarkPostCommit | MarkPending | RenamePending | MarkManual => TowardQuiescentRetain(s);
    case _ =>
  }

  lemma {:induction false} RecoveryQuiesces(c: Job, run: seq<State>, k: nat)
    requires IsRecovery(c, run) && k < |run|
    ensures TowardQuiescent(run[k])
  {
    hide RecoveryNext, Quiescent;
    if k > 0 {
      RecoveryQuiesces(c, run, k - 1);
      assert RecoveryStep(c, run[k - 1], run[k - 1 + 1]);
      TowardQuiescentStep(c, run[k - 1]);
    }
  }

  /** Nothing on the disk or in the journal moves while a quiescent state is recovered again. */
  ghost predicate StillQuiescent(q: State, s: State) {
    && s.world == q.world && s.journal == q.journal && Quiescent(s)
    && (s.pc.Down? || s.pc.Scan? || s.pc.Recovered?
        || (s.journal == None && (s.pc.OrphanStaged? || s.pc.OrphanSave?))
        || (s.journal == Some(SavePending) && s.pc.RenamePending?))
  }

  lemma {:induction false} QuiescentStays(c: Job, q: State, run: seq<State>, k: nat)
    requires Quiescent(q) && IsRecovery(c, run) && run[0] == Restart(q) && k < |run|
    ensures StillQuiescent(q, run[k])
  {
    if k > 0 {
      QuiescentStays(c, q, run, k - 1);
      assert RecoveryStep(c, run[k - 1], run[k - 1 + 1]);
    }
  }

  /** Whatever external writers, crashes and the live protocol left, one recovery that runs to its
      end makes every further one a no-op on the disk and the journal. */
  lemma RecoveryIdempotent(c: Job, once: seq<State>, twice: seq<State>)
    requires IsRecovery(c, once) && IsRecovery(c, twice)
    requires twice[0] == Restart(once[|once| - 1])
    ensures var s, t := once[|once| - 1], twice[|twice| - 1];
            t.world == s.world && t.journal == s.journal
  {
    RecoveryQuiesces(c, once, |once| - 1);
    QuiescentStays(c, once[|once| - 1], twice, |twice| - 1);
  }

  ghost predicate FreesForeign(c: Job, s: State, s': State, i: Ino) {
    && OwnStep(c, s, s')
    && s.world.disk.Named(i) && !s'.world.disk.Named(i)
    && i != c.temp && i in s.world.disk.data && s.world.disk.data[i] != c.expected
  }

  /** The steps that take away the last name of a foreign generation: those that remove the staging
      name after a restore, when the restored path no longer names it. */
  ghost predicate LosesStaged(c: Job, s: State, i: Ino) {
    var d := s.world.disk;
    && Unlinking(s.pc)
    && Staged in d.names && d.names[Staged] == i
    && (forall n :: n in d.names && n != Staged ==> d.names[n] != i)
    && i != c.temp && i in d.data && d.data[i] != c.expected
  }

  lemma UnlinkingTakesStaged(c: Job, s: State, s': State)
    requires Unlinking(s.pc) && OwnStep(c, s, s') && s' != Restart(s)
    ensures s'.world.disk == s.world.disk.Unlink(Staged)
  {
    if LiveStep(c, s, s') {
      assert s.pc.RestoreUnlink?;
    } else {
      assert RecoveryStep(c, s, s') && !s.pc.RestoreUnlink?;
    }
  }

  lemma LossNeedsUnlink(c: Job, s: State, s': State, i: Ino)
    requires Shape(c, s) && FreesForeign(c, s, s', i)
    ensures LosesStaged(c, s, i)
  {
    if LiveStep(c, s, s') {
      LiveStepKeepsUnlessUnlinking(c, s, s', i);
    } else if RecoveryStep(c, s, s') {
      RecoveryKeepsUnlessUnlinking(c, s, i);
    }
    hide LiveStep, RecoveryNext, Shape;
    UnlinkingTakesStaged(c, s, s');
    var d, d' := s.world.disk, s'.world.disk;
    forall n | n in d.names && d.names[n] == i
      ensures n == Staged
    {
      assert n == Staged || n in d'.names;
    }
  }

  lemma LiveStepKeepsUnlessUnlinking(c: Job, s: State, s': State, i: Ino)
    requires Shape(c, s) && LiveStep(c, s, s') && s.world.disk.Named(i)
    ensures s'.world.disk.Named(i) || i == c.temp || s.world.disk.data[i] == c.expected || Unlinking(s.pc)
  {
    var d, d' := s.world.disk, s'.world.disk;
    var m :| m in d.names && d.names[m] == i;
    if m in d'.names && d'.names[m] == i {
    } else if s.pc.TakeAside? && m == Formal && Formal !in d'.names {
      assert d'.names[Staged] == i;
    }
  }

  lemma RecoveryKeepsUnlessUnlinking(c: Job, s: State, i: Ino)
    requires Shape(c, s) && s.world.disk.Named(i)
    ensures RecoveryNext(c, s).world.disk.Named(i) || i == c.temp || s.world.disk.data[i] == c.expected
            || Unlinking(s.pc)
  {
    var d, d' := s.world.disk, RecoveryNext(c, s).world.disk;
    var m :| m in d.names && d.names[m] == i;
    if m in d'.names && d'.names[m] == i {
    }
  }

  /** The exact loss, over every run: a step of the protocol or of recovery takes the last name of a
      foreign generation if and only if it unlinks the staging name of a generation it had put back
      and that has no other name by then; whose writer has then discarded it. */
  lemma LossIsExactly(c: Job, run: seq<State>, k: nat, i: Ino)
    requires IsRun(c, run) && k + 1 < |run| && OwnStep(c, run[k], run[k + 1]) && run[k + 1] != Restart(run[k])
    ensures FreesForeign(c, run[k], run[k + 1], i) <==> LosesStaged(c, run[k], i)
    ensures LosesStaged(c, run[k], i) ==> i in run[k].world.discarded
  {
    hide LiveStep, RecoveryNext, OwnStep;
    RunInv(c, run, k);
    if FreesForeign(c, run[k], run[k + 1], i) {
      LossNeedsUnlink(c, run[k], run[k + 1], i);
    }
    if LosesStaged(c, run[k], i) {
      OwnStepFreesNothingForeign(c, run[k], run[k + 1], i);
      UnlinkingTakesStaged(c, run[k], run[k + 1]);
    }
  }

  const LossJob := Job("a", "b", 1)

  /** The target holds a foreign text, so commit puts it back; an external writer deletes it
      before the staging name goes. */
  function LossRun(): seq<State> {
    var d0 := Disk(map[Formal := 0, Save := 1], map[0 := "c", 1 := "b"]);
    var d1 := Disk(map[Staged := 0, Save := 1], d0.data);
    var d2 := Disk(map[Formal := 0, Staged := 0, Save := 1], d0.data);
    var j := Some(Intent);
    [State(World(d0, {}), None, WriteJournal, None, None),
     State(World(d0, {}), j, CaptureTarget, None, None),
     State(World(d0, {}), j, TakeAside, Some(0), None),
     State(World(d1, {}), j, CheckTaken, Some(0), None),
     State(World(d1, {}), j, ReadTaken, Some(0), None),
     State(World(d1, {}), j, RestoreLink(Conflict), Some(0), None),
     State(World(d2, {}), j, RestoreUnlink(Conflict), Some(0), None),
     State(World(d1, {0}), j, RestoreUnlink(Conflict), Some(0), None),
     State(World(Disk(map[Save := 1], d0.data), {0}), j, FailDropTemp(Conflict), Some(0), None)]
  }

  lemma LossRunStarts()
    ensures Init(LossJob, LossRun()[0])
  {
    var d := LossRun()[0].world.disk;
    assert d.names[Formal] == 0 && d.names[Save] == 1;
    assert d.Named(0) && d.Named(1);
  }

  lemma LossRunDeletes()
    ensures Outside(LossRun()[6], LossRun()[7])
  {
    var s, s' := LossRun()[6], LossRun()[7];
    assert s'.world.disk.names == s.world.disk.Unlink(Formal).names;
    assert ExternalStep(Delete(Formal), s.world, s'.world, Frozen(s));
  }

  lemma LossRunTakesAside()
    ensures LiveStep(LossJob, LossRun()[2], LossRun()[3])
    ensures LiveStep(LossJob, LossRun()[5], LossRun()[6])
    ensures LiveStep(LossJob, LossRun()[7], LossRun()[8])
  {
    var r := LossRun();
    assert r[3].world.disk.names == r[2].world.disk.Rename(Formal, Staged).names;
    assert r[6].world.disk.names == r[5].world.disk.Link(Staged, Formal).names;
    assert r[8].world.disk.names == r[7].world.disk.Unlink(Staged).names;
  }

  /** Without the exemption for discarded generations the survival claim is false: the commit itself
      can unlink the last name of a foreign generation it had put back, once an external writer has
      deleted the restored path. */
  lemma RestoredThenDiscardedIsLost()
    ensures IsRun(LossJob, LossRun())
    ensures FreesForeign(LossJob, LossRun()[7], LossRun()[8], 0)
  {
    hide RecoveryNext, Init, Outside;
    var run := LossRun();
    LossRunStarts();
    LossRunDeletes();
    LossRunTakesAside();
    assert LiveStep(LossJob, run[0], run[1]) && LiveStep(LossJob, run[1], run[2]);
    assert LiveStep(LossJob, run[3], run[4]) && LiveStep(LossJob, run[4], run[5]);
    assert run[7].world.disk.names[Staged] == 0;
  }
}
