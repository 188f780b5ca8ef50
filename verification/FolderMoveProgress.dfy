/** An uninterrupted recovery of an interrupted entry loop is never stuck and ends: the counterpart of
    FolderMoveCompletion, which says where it ends. */
module FolderMoveProgress {
  import opened Options
  import opened FolderMove
  import opened FolderMoveCompletion

  // ---------- a bound on what is left to do ----------

  /** The staging names of all entries. */
  function Stages(entries: seq<Entry>): nat {
    if entries == [] then 0 else entries[0].stages + Stages(entries[1..])
  }

  lemma {:induction false} StagesUpdated(entries: seq<Entry>, k: nat, e: Entry)
    requires k < |entries|
    ensures Stages(entries[k := e]) == Stages(entries) - entries[k].stages + e.stages
  {
    var after := entries[k := e];
    if k == 0 {
      assert after[1..] == entries[1..];
    } else {
      assert after[1..] == entries[1..][k - 1 := e];
      StagesUpdated(entries[1..], k - 1, e);
    }
  }

  lemma {:induction false} FewStages(entries: seq<Entry>)
    requires forall k :: 0 <= k < |entries| ==> entries[k].stages <= 1
    ensures Stages(entries) <= |entries|
  {
    if entries != [] {
      FewStages(entries[1..]);
    }
  }

  /** The steps left in a pass, over and above one for each shell. */
  function PassRank(pc: Pc, n: nat, stages: nat): nat {
    match pc
    case Down => 6 * n + 15
    case Scan => 6 * n + 14
    case PlaceEntries => 6 * n + 13
    case TakeAside(k) => 3 * n + 12 + if k < n then 3 * (n - k) else 0
    case LinkIn(k) => 3 * n + 11 + if k < n then 3 * (n - k) else 0
    case DropStage(k) => 3 * n + 10 + if k < n then 3 * (n - k) else 0
    case CheckLanded => 3 * n + 11
    case RecordLanded => 3 * n + 10
    case CommitRows => 3 * n + 9
    case RecordCommitted => 3 * n + 8
    case Finalize => 3 * n + 7
    case RemoveShells(_) => 3 * n + 6
    case RemoveRoot => 3 * n + 5
    case RemoveJournal => 3 * n + 4
    case RemoveMarker => 3 * n + 3
    case Inner => 3 * stages + 2
    case LinkBack(_) => 3 * stages + 1
    case DropBack(_) => 3 * stages
    case RowFollows(_, _) => 3 * stages + 3
    case PassEnd => 1
    case _ => 0
  }

  function LaterPasses(pc: Pc, pass: nat, n: nat): nat {
    if pc.Down? || pass <= 1 then 12 * n + 30 else if pass == 2 then 6 * n + 15 else 0
  }

  /** Bounds the steps a recovery still takes. */
  function Rank(s: State): nat {
    var n := |s.v.entries|;
    LaterPasses(s.pc, s.pass, n) + PassRank(s.pc, n, Stages(s.v.entries)) + s.v.shells
  }

  // ---------- every step lowers it ----------

  lemma RankDropsLoop(c: Job, s: State, s': State)
    requires (s.pc.LinkIn? || s.pc.DropStage? || s.pc.TakeAside?) && MoveStep(c, s, s') && s'.pc != Inner
    requires s.recovering
    ensures Rank(s') < Rank(s)
  {
  }

  lemma RankDropsLanding(c: Job, s: State, s': State)
    requires (s.pc.PlaceEntries? || s.pc.CheckLanded? || s.pc.RecordLanded?) && MoveStep(c, s, s') && s'.pc != Inner
    requires s.recovering
    ensures Rank(s') < Rank(s)
  {
    hide AnyMissing, AllAtDestination;
  }

  /** The movers leave for the staging rules with at most one staging name per entry. */
  lemma RankDropsLeaving(c: Job, s: State, s': State)
    requires MoverPc(s.pc) && MoveStep(c, s, s') && s'.pc == Inner && Few(s'.v)
    ensures Rank(s') < Rank(s)
  {
    hide AnyMissing, AllAtDestination;
    FewStages(s'.v.entries);
  }

  lemma RankDropsMover(c: Job, b: bool, s: State, s': State)
    requires Recovers(c, b, s) && Recovers(c, b, s') && MoverPc(s.pc) && MoveStep(c, s, s')
    ensures Rank(s') < Rank(s)
  {
    hide MoveStep, Rank, Inv, AllAtDestination, RowsCommitted, CalmRows, HasEarly, AnyMissing, Job.Transitions;
    if s'.pc.Inner? {
      RankDropsLeaving(c, s, s');
    } else if s.pc.PlaceEntries? || s.pc.CheckLanded? || s.pc.RecordLanded? {
      RankDropsLanding(c, s, s');
    } else {
      RankDropsLoop(c, s, s');
    }
  }

  lemma RankDropsTake(s: State, s': State)
    requires s.pc.Inner? && InnerStep(s, s')
    ensures Rank(s') < Rank(s)
  {
    if s'.pc.RowFollows? {
      StagesUpdated(s.v.entries, s'.pc.e, s'.v.entries[s'.pc.e]);
    }
  }

  lemma RankDropsBack(s: State, s': State, e: nat)
    requires (s.pc == LinkBack(e) || s.pc == DropBack(e)) && InnerStep(s, s')
    ensures Rank(s') < Rank(s)
  {
    StagesUpdated(s.v.entries, e, s'.v.entries[e]);
  }

  lemma RankDropsRow(s: State, s': State)
    requires s.pc.RowFollows? && InnerStep(s, s')
    ensures Rank(s') < Rank(s)
  {
  }

  lemma RankDropsStaging(s: State, s': State)
    requires StagingPc(s.pc) && InnerStep(s, s')
    ensures Rank(s') < Rank(s)
  {
    hide InnerStep, Rank;
    match s.pc
    case Inner => RankDropsTake(s, s');
    case LinkBack(e) => RankDropsBack(s, s', e);
    case DropBack(e) => RankDropsBack(s, s', e);
    case RowFollows(_, _) => RankDropsRow(s, s');
  }

  lemma RankDropsCommit(c: Job, b: bool, s: State, s': State)
    requires Recovers(c, b, s) && Recovers(c, b, s') && CommitStep(c, s, s')
    ensures Rank(s') < Rank(s)
  {
    hide Conserved, PhaseHolds, PcHolds, RowsPrepared, CalmRows, HasEarly, Job.Transitions;
    if s'.pc.Inner? {
      FewStages(s'.v.entries);
    }
  }

  lemma RankDropsClean(c: Job, b: bool, s: State, s': State)
    requires Recovers(c, b, s) && Recovers(c, b, s') && CleanPc(s.pc) && CleanStep(c, s, s')
    ensures Rank(s') < Rank(s)
  {
    hide Conserved, PhaseHolds, PcHolds, RowsPrepared, CalmRows, HasEarly, Job.Transitions;
    if s'.pc.Inner? {
      FewStages(s'.v.entries);
    }
  }

  lemma RankDropsScan(c: Job, b: bool, s: State, s': State)
    requires Recovers(c, b, s) && Recovers(c, b, s') && ScanStep(c, s, s')
    ensures Rank(s') < Rank(s)
  {
    hide Conserved, RowsPrepared, CalmRows, HasEarly, Job.Transitions;
    if s'.pc.Inner? {
      FewStages(s'.v.entries);
    }
  }

  lemma RankDropsPass(c: Job, b: bool, s: State, s': State)
    requires Recovers(c, b, s) && Recovers(c, b, s') && PassStep(s, s')
    ensures Rank(s') < Rank(s)
  {
    hide Conserved, PhaseHolds, PcHolds, RowsPrepared, CalmRows, HasEarly, Job.Transitions;
  }

  lemma RankDrops(c: Job, b: bool, s: State, s': State)
    requires Recovers(c, b, s) && Step(c, s, s')
    ensures Recovers(c, b, s') && Rank(s') < Rank(s)
  {
    RecoversStep(c, b, s, s');
    hide Step, Rank, MoveStep, InnerStep, CleanStep, ScanStep, PassStep, CommitStep;
    if MoverPc(s.pc) {
      StepOfMover(c, s, s');
      RankDropsMover(c, b, s, s');
    } else if StagingPc(s.pc) {
      StepOfStaging(c, s, s');
      RankDropsStaging(s, s');
    } else if CleanPc(s.pc) {
      StepOfClean(c, s, s');
      RankDropsClean(c, b, s, s');
    } else {
      StepOfRest(c, s, s');
      if s.pc.CommitRows? || s.pc.RecordCommitted? {
        RankDropsCommit(c, b, s, s');
      } else if s.pc.Scan? {
        RankDropsScan(c, b, s, s');
      } else {
        RankDropsPass(c, b, s, s');
      }
    }
  }

  // ---------- a step is always possible ----------

  lemma MoverGoesOn(c: Job, b: bool, s: State) returns (s': State)
    requires Recovers(c, b, s) && MoverPc(s.pc)
    ensures MoveStep(c, s, s')
  {
    var n := |s.v.entries|;
    match s.pc
    case PlaceEntries => s' := if AnyMissing(s.v) then s.Leave(false) else s.(pc := TakeAside(0));
    case TakeAside(k) =>
      s' := if k >= n then s.(pc := CheckLanded)
            else if s.v.entries[k].dest then s.(pc := TakeAside(k + 1))
            else if s.v.entries[k].src then s.WithEntry(k, Entry(false, s.v.entries[k].stages + 1, false), LinkIn(k))
            else s.Leave(false);
    case LinkIn(k) => s' := s.WithEntry(k, s.v.entries[k].(dest := true), DropStage(k));
    case DropStage(k) =>
      s' := s.WithEntry(k, s.v.entries[k].(stages := s.v.entries[k].stages - 1), TakeAside(k + 1));
    case CheckLanded => s' := if AllAtDestination(s.v) then s.(pc := RecordLanded) else s.Leave(false);
    case RecordLanded => s' := s.Record(FilesLanded, s.v.journal.value.dirsRecorded, CommitRows);
  }

  lemma StagingGoesOn(c: Job, s: State) returns (s': State)
    requires Inv(c, s) && StagingPc(s.pc)
    ensures InnerStep(s, s')
  {
    match s.pc
    case Inner =>
      if NoStaging(s.v) {
        s' := s.(pc := PassEnd);
      } else {
        var e :| 0 <= e < |s.v.entries| && s.v.entries[e].stages > 0;
        var x := s.v.entries[e];
        var to := if x.dest then AtDestination else if x.src then AtSource else AtStaging;
        s' := if x.src || x.dest || x.stages > 1
              then s.WithEntry(e, x.(stages := x.stages - 1), RowFollows(e, to)) else s.(pc := LinkBack(e));
        assert TakesPartner(s, s', e, to);
      }
    case LinkBack(e) => s' := s.WithEntry(e, s.v.entries[e].(src := true), DropBack(e));
    case DropBack(e) =>
      s' := s.WithEntry(e, s.v.entries[e].(stages := s.v.entries[e].stages - 1), Inner).(progress := true);
    case RowFollows(e, to) =>
      s' := s.(v := s.v.(rows := if s.v.rows[e].Prepared? then s.v.rows[e := Followed(to)] else s.v.rows),
               pc := Inner, progress := true);
  }

  lemma CommitGoesOn(c: Job, s: State) returns (s': State)
    requires Inv(c, s) && (s.pc.CommitRows? || s.pc.RecordCommitted?)
    ensures CommitStep(c, s, s')
  {
    hide Job.Transitions, AllAtDestination, RowsCommitted, RowsPrepared, Conserved;
    if s.pc.RecordCommitted? {
      s' := s.Record(MetadataCommitted, s.v.journal.value.dirsRecorded, Finalize);
    } else if !AllAtDestination(s.v) || (c.strategy.ReplayableMove? && !(s.v.srcRoot && s.v.shells == c.dirs)) {
      s' := s.Leave(false);
    } else if !c.Transitions() {
      s' := s.Leave(false);
    } else if RowsCommitted(s.v) {
      s' := s.(pc := RecordCommitted);
    } else if RowsPrepared(s.v) {
      s' := s.(v := s.v.(rows := CommittedRows(s.v.rows)), pc := RecordCommitted);
    } else {
      s' := s.Leave(false);
    }
  }

  lemma CleanGoesOn(c: Job, s: State) returns (s': State)
    requires CleanPc(s.pc)
    ensures CleanStep(c, s, s')
  {
    hide RowsCommitted, NoStaging;
    match s.pc
    case Finalize =>
      s' := if !RowsCommitted(s.v) then s.Leave(false)
            else if s.v.srcRoot then s.(pc := RemoveShells(s.v.shells != c.dirs))
            else if c.strategy.ReplayableMove? then s.Leave(false)
            else s.(pc := RemoveJournal);
    case RemoveShells(conflict) =>
      s' := if s.v.shells > 0 then s.(v := s.v.(shells := s.v.shells - 1))
            else if conflict || !NoStaging(s.v) then s.Leave(false)
            else s.(pc := RemoveRoot);
    case RemoveRoot => s' := s.(v := s.v.(srcRoot := false), pc := RemoveJournal);
    case RemoveJournal => s' := s.(v := s.v.(journal := None), pc := RemoveMarker);
    case RemoveMarker => s' := s.(v := s.v.(marker := false)).Leave(true);
  }

  lemma ScanGoesOn(c: Job, b: bool, s: State) returns (s': State)
    requires Recovers(c, b, s) && s.pc.Scan?
    ensures ScanStep(c, s, s')
  {
    match s.v.journal
    case None => s' := s.(pc := Inner);
    case Some(Journal(GateCreated, _)) => s' := s.(pc := PlaceEntries);
    case Some(Journal(FilesLanded, _)) => s' := s.(pc := CommitRows);
    case Some(Journal(MetadataCommitted, _)) => s' := s.(pc := Finalize);
  }

  /** Recovery is never stuck before it has finished. */
  lemma RecoveryGoesOn(c: Job, b: bool, s: State) returns (s': State)
    requires Recovers(c, b, s) && !s.pc.Finished?
    ensures Step(c, s, s')
  {
    hide MoveStep, InnerStep, CleanStep, ScanStep, CommitStep;
    if MoverPc(s.pc) {
      s' := MoverGoesOn(c, b, s);
    } else if StagingPc(s.pc) {
      s' := StagingGoesOn(c, s);
    } else if CleanPc(s.pc) {
      s' := CleanGoesOn(c, s);
    } else if s.pc.Scan? {
      s' := ScanGoesOn(c, b, s);
    } else if s.pc.Down? {
      s' := State(s.v, Scan, true, false, 1);
    } else if s.pc.PassEnd? {
      s' := if s.progress then State(s.v, Scan, true, false, s.pass + 1) else s.(pc := Finished);
    } else {
      s' := CommitGoesOn(c, s);
    }
  }

  // ---------- so recovery ends ----------

  /** The steps of an uninterrupted recovery, which may not be over. */
  ghost predicate Recoveries(c: Job, run: seq<State>) {
    && run != []
    && run[0].pc == Down
    && forall k :: 0 <= k < |run| - 1 ==> Step(c, run[k], run[k + 1])
  }

  lemma {:induction false} RankFalls(c: Job, run: seq<State>, k: nat)
    requires Recoveries(c, run) && Resumable(c, run[0].v) && k < |run|
    ensures Recovers(c, Strands(c, run[0].v), run[k])
    ensures Rank(run[k]) + k <= Rank(run[0])
  {
    hide Step, Recovers, Resumable, Strands, Rank;
    if k == 0 {
      RecoversStarts(c, run[0]);
    } else {
      RankFalls(c, run, k - 1);
      assert Step(c, run[k - 1], run[k - 1 + 1]);
      RankDrops(c, Strands(c, run[0].v), run[k - 1], run[k]);
    }
  }

  lemma RecoversStarts(c: Job, s: State)
    requires s.pc == Down && Resumable(c, s.v)
    ensures Recovers(c, Strands(c, s.v), s)
  {
  }

  /** Whatever order it takes entries and shells in, an uninterrupted recovery of an interrupted entry
      loop takes at most Rank steps, and where it can take no further one it has finished. */
  lemma RecoveryEnds(c: Job, run: seq<State>)
    requires Recoveries(c, run) && Resumable(c, run[0].v)
    ensures |run| <= Rank(run[0]) + 1
    ensures var last := run[|run| - 1];
            last.pc == Finished <==> forall s' {:trigger Step(c, last, s')} :: !Step(c, last, s')
  {
    hide Step, Recovers, Resumable, Strands, Rank;
    RankFalls(c, run, |run| - 1);
    var last := run[|run| - 1];
    if last.pc == Finished {
      forall s'
        ensures !Step(c, last, s')
      {
        if Step(c, last, s') {
          StepOfRest(c, last, s');
        }
      }
    } else {
      var s' := RecoveryGoesOn(c, Strands(c, run[0].v), last);
    }
  }

  /** And from every such state there is a recovery that finishes. */
  lemma {:induction false} RecoveryExists(c: Job, run: seq<State>) returns (whole: seq<State>)
    requires Recoveries(c, run) && Resumable(c, run[0].v)
    ensures IsRecovery(c, whole) && whole[0] == run[0]
    decreases Rank(run[|run| - 1])
  {
    hide Step, Recovers, Resumable, Strands, Rank;
    RankFalls(c, run, |run| - 1);
    var last := run[|run| - 1];
    if last.pc == Finished {
      whole := run;
    } else {
      var s' := RecoveryGoesOn(c, Strands(c, run[0].v), last);
      RankDrops(c, Strands(c, run[0].v), last, s');
      var longer := run + [s'];
      forall k | 0 <= k < |longer| - 1
        ensures Step(c, longer[k], longer[k + 1])
      {
        if k < |run| - 1 {
          assert Step(c, run[k], run[k + 1]);
        }
      }
      whole := RecoveryExists(c, longer);
    }
  }

  /** A move killed anywhere in its entry loop: every recovery of it ends, with every journaled file at
      the destination, and with the rows durably committed exactly if the prepared graph transitions. */
  lemma CrashInEntryLoopRecovers(c: Job, run: seq<State>, recovery: seq<State>)
    requires c.strategy.ReplayableMove?
    requires IsFirstRun(c, run) && InEntryLoop(run[|run| - 1].pc)
    requires Recoveries(c, recovery) && recovery[0] == Crash(run[|run| - 1])
    ensures |recovery| <= Rank(recovery[0]) + 1
    ensures var last := recovery[|recovery| - 1];
            && (last.pc != Finished ==> exists s' {:trigger Step(c, last, s')} :: Step(c, last, s'))
            && (last.pc == Finished ==> AllAtDestination(last.v) && (DurablyCommitted(last.v) <==> c.Transitions()))
  {
    FirstRunHolds(c, run, |run| - 1);
    FirstCrashResumable(c, run[|run| - 1]);
    hide Step, Resumable, Rank, DurablyCommitted, Job.Transitions;
    RecoveryEnds(c, recovery);
    if recovery[|recovery| - 1].pc == Finished {
      CrashInEntryLoopCompletes(c, run, recovery);
    }
  }
}
