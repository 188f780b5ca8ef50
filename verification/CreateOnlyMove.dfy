/** createOnlyMoveFile of server/documentFileLifecycle.ts: take the source aside, check its
    generation, link it create-only into the destination, drop the staging name. External writers
    act on both vault paths between any two steps. Formal is the source path here. */
module CreateOnlyMove {
  import opened Filesystem
  import opened Options

  /** Generation the move must prove, as a folder journal declares it. */
  datatype Job = Job(expected: Option<(Ino, Text)>)

  datatype Failure = SourceMissing | GenerationMismatch | DestinationOccupied

  datatype Pc =
    | PreCheck | TakeAside | PostCheck | LinkDestination | DropStaged
    | RestoreLink(why: Failure) | RestoreUnlink(why: Failure)
    | Moved
    | Failed(why: Failure, quarantined: bool)

  datatype State = State(world: World, pc: Pc, taken: Option<Ino>) {
    function On(disk: Disk, next: Pc): State {
      this.(world := World(disk, world.discarded), pc := next)
    }
  }

  predicate Matches(c: Job, d: Disk, n: Name) {
    match c.expected
    case None => true
    case Some((ino, text)) => n in d.names && d.names[n] == ino && d.Holds(n, text)
  }

  ghost predicate Init(s: State) {
    && s.pc == PreCheck && s.taken == None
    && s.world.discarded == {}
    && s.world.disk.Valid()
    && Staged !in s.world.disk.names
    && (forall i :: i in s.world.disk.data ==> s.world.disk.Named(i))
  }

  function LiveNext(c: Job, s: State): State {
    var d := s.world.disk;
    match s.pc
    case PreCheck => s.(pc := if Matches(c, d, Formal) then TakeAside else Failed(GenerationMismatch, false))
    case TakeAside =>
      if Formal !in d.names then s.(pc := Failed(SourceMissing, false))
      else s.On(d.Rename(Formal, Staged), PostCheck).(taken := Some(d.names[Formal]))
    case PostCheck => s.(pc := if Matches(c, d, Staged) then LinkDestination else RestoreLink(GenerationMismatch))
    case LinkDestination =>
      if Destination in d.names || Staged !in d.names then s.(pc := RestoreLink(DestinationOccupied))
      else s.On(d.Link(Staged, Destination), DropStaged)
    case DropStaged => s.On(d.Unlink(Staged), Moved)
    case RestoreLink(why) =>
      if Formal in d.names || Staged !in d.names then s.(pc := Failed(why, true))
      else s.On(d.Link(Staged, Formal), RestoreUnlink(why))
    case RestoreUnlink(why) => s.On(d.Unlink(Staged), Failed(why, false))
    case _ => s
  }

  ghost predicate LiveStep(c: Job, s: State, s': State) {
    !s.pc.Moved? && !s.pc.Failed? && s' == LiveNext(c, s)
  }

  ghost predicate Outside(s: State, s': State) {
    && s'.pc == s.pc && s'.taken == s.taken
    && exists e :: ExternalStep(e, s.world, s'.world, {})
  }

  ghost predicate IsRun(c: Job, run: seq<State>) {
    && run != []
    && Init(run[0])
    && forall k :: 0 <= k < |run| - 1 ==> LiveStep(c, run[k], run[k + 1]) || Outside(run[k], run[k + 1])
  }

  /** A move never removes the last name of anything: not of the source, not of what it finds at
      the destination, not of a foreign file it took aside by mistake. */
  ghost predicate Survives(s: State) {
    forall i :: i in s.world.disk.data && i !in s.world.discarded ==> s.world.disk.Named(i)
  }

  /** The staging name is not the last one of its inode, unless somebody has discarded that. */
  ghost predicate SecondName(s: State, n: Name)
    requires Staged in s.world.disk.names
  {
    var d := s.world.disk;
    (n in d.names && d.names[n] == d.names[Staged]) || d.names[Staged] in s.world.discarded
  }

  ghost predicate Shape(c: Job, s: State) {
    var d := s.world.disk;
    && d.Valid()
    && (s.pc.PreCheck? || s.pc.TakeAside? ==> Staged !in d.names)
    && (s.pc.PostCheck? || s.pc.LinkDestination? || s.pc.DropStaged? ==>
          Staged in d.names && s.taken == Some(d.names[Staged]))
    && (s.pc.LinkDestination? || s.pc.DropStaged? || s.pc.Moved? ==>
          s.taken.Some? && (c.expected.Some? ==> s.taken.value == c.expected.value.0))
    && (s.pc.DropStaged? ==> SecondName(s, Destination))
    && (s.pc.RestoreUnlink? && Staged in d.names ==> SecondName(s, Formal))
    && (s.pc.Moved? ==> (Destination in d.names && s.taken == Some(d.names[Destination]))
                        || (s.taken.Some? && s.taken.value in s.world.discarded))
  }

  ghost predicate Inv(c: Job, s: State) {
    Shape(c, s) && Survives(s)
  }

  lemma LiveShape(c: Job, s: State)
    requires Shape(c, s)
    ensures Shape(c, LiveNext(c, s))
    ensures LiveNext(c, s).world.disk.data == s.world.disk.data
    ensures LiveNext(c, s).world.discarded == s.world.discarded
  {
  }

  lemma LiveKeepsNamed(c: Job, s: State, i: Ino)
    requires Shape(c, s) && s.world.disk.Named(i) && i !in s.world.discarded
    ensures LiveNext(c, s).world.disk.Named(i)
  {
    var d, d' := s.world.disk, LiveNext(c, s).world.disk;
    var m :| m in d.names && d.names[m] == i;
    assert || (m in d'.names && d'.names[m] == i)
           || (Staged in d'.names && d'.names[Staged] == i)
           || (Destination in d'.names && d'.names[Destination] == i)
           || (Formal in d'.names && d'.names[Formal] == i);
  }

  lemma OutsideInv(c: Job, s: State, s': State)
    requires Inv(c, s) && Outside(s, s')
    ensures Inv(c, s')
  {
    var e :| ExternalStep(e, s.world, s'.world, {});
    var d, d' := s.world.disk, s'.world.disk;
    forall i | i in d'.data && i !in s'.world.discarded
      ensures d'.Named(i)
    {
      if i in d.data {
        var m :| m in d.names && d.names[m] == i;
        assert m in d'.names && d'.names[m] == i;
      } else {
        assert d'.names[e.path] == i;
      }
    }
  }

  lemma {:induction false} RunInv(c: Job, run: seq<State>, k: nat)
    requires IsRun(c, run) && k < |run|
    ensures Inv(c, run[k])
  {
    if k > 0 {
      RunInv(c, run, k - 1);
      var s := run[k - 1];
      if LiveStep(c, s, run[k]) {
        LiveShape(c, s);
        forall i | s.world.disk.Named(i) && i !in s.world.discarded
          ensures run[k].world.disk.Named(i)
        {
          LiveKeepsNamed(c, s, i);
        }
      } else {
        OutsideInv(c, s, run[k]);
      }
    }
  }

  /** Over every interleaving with external writers, with or without a declared generation. */
  lemma NothingIsOverwritten(c: Job, run: seq<State>, k: nat)
    requires IsRun(c, run) && k < |run|
    ensures Survives(run[k])
  {
    RunInv(c, run, k);
  }

  /** A reported success moved one generation, the declared one where one was declared, and that
      is what the destination holds unless an external writer has replaced it since. */
  lemma MovedTheDeclaredGeneration(c: Job, run: seq<State>, k: nat)
    requires IsRun(c, run) && k < |run| && run[k].pc.Moved?
    ensures run[k].taken.Some?
    ensures c.expected.Some? ==> run[k].taken.value == c.expected.value.0
    ensures var d := run[k].world.disk;
            (Destination in d.names && d.names[Destination] == run[k].taken.value)
            || run[k].taken.value in run[k].world.discarded
  {
    RunInv(c, run, k);
  }

  // ---------- a move that died ----------

  /** recoverRenameStaging of server/crashRecovery.ts: a second name means the link landed, so
      the staging name goes; otherwise the file is put back create-only. */
  function RecoverStaging(d: Disk): Disk {
    if Staged !in d.names then d
    else if exists n :: n in d.names && n != Staged && d.names[n] == d.names[Staged] then d.Unlink(Staged)
    else if Formal in d.names then d
    else d.Link(Staged, Formal).Unlink(Staged)
  }

  /** The moved inode, followed through a run without external writers. */
  ghost predicate Tracks(i: Ino, d0: Disk, s: State) {
    var d := s.world.disk;
    && s.world.discarded == {}
    && d.names.Keys <= {Formal, Destination, Staged}
    && (Formal in d.names ==> d.names[Formal] == i)
    && (Staged in d.names ==> d.names[Staged] == i)
    && (Formal in d.names || Staged in d.names || (Destination in d.names && d.names[Destination] == i))
    && (s.pc.PreCheck? || s.pc.TakeAside? || s.pc.RestoreUnlink? || s.pc.Failed? ==> Formal in d.names)
    && (s.pc.RestoreLink? ==> Staged in d.names)
    && (s.pc.PostCheck? || s.pc.LinkDestination? || s.pc.DropStaged? || s.pc.RestoreLink? || s.pc.Moved? ==>
          Formal !in d.names)
    && (if Destination in d0.names then Destination in d.names && d.names[Destination] == d0.names[Destination]
        else Destination in d.names ==> d.names[Destination] == i && (s.pc.DropStaged? || s.pc.Moved?))
  }

  lemma TracksStep(c: Job, i: Ino, d0: Disk, s: State)
    requires Shape(c, s) && Tracks(i, d0, s)
    ensures Tracks(i, d0, LiveNext(c, s))
  {
  }

  /** A run without external writers, from a source path and perhaps an occupied destination. */
  ghost predicate IsQuietRun(c: Job, run: seq<State>) {
    && run != []
    && Init(run[0])
    && (forall k :: 0 <= k < |run| - 1 ==> LiveStep(c, run[k], run[k + 1]))
    && var names := run[0].world.disk.names;
       && names.Keys <= {Formal, Destination}
       && Formal in names
       && (Destination in names ==> names[Destination] != names[Formal])
  }

  lemma {:induction false} TracksRun(c: Job, run: seq<State>, k: nat)
    requires IsQuietRun(c, run) && k < |run|
    ensures Tracks(run[0].world.disk.names[Formal], run[0].world.disk, run[k])
  {
    if k > 0 {
      TracksRun(c, run, k - 1);
      hide LiveNext;
      RunInv(c, run, k - 1);
      assert LiveStep(c, run[k - 1], run[k - 1 + 1]);
      TracksStep(c, run[0].world.disk.names[Formal], run[0].world.disk, run[k - 1]);
    }
  }

  lemma RecoverTracked(c: Job, i: Ino, d0: Disk, s: State)
    requires Shape(c, s) && Tracks(i, d0, s) && d0.Valid()
    requires Formal in d0.names && d0.names[Formal] == i && d0.names.Keys <= {Formal, Destination}
    requires Destination in d0.names ==> d0.names[Destination] != i
    ensures var d := RecoverStaging(s.world.disk);
            d.names == d0.names || (Destination !in d0.names && d.names == map[Destination := i])
  {
    var last := s.world.disk;
    if Staged in last.names && Formal in last.names {
      assert last.names[Formal] == last.names[Staged];
    } else if Staged in last.names && Destination in last.names && last.names[Destination] == i {
      assert last.names[Destination] == last.names[Staged];
    }
    var d := RecoverStaging(last);
    assert d.names.Keys == d0.names.Keys || d.names.Keys == {Destination};
  }

  /** Killed after any step, the file ends under exactly one of the two paths, and whatever
      occupied the destination still does. */
  lemma CrashLeavesOneName(c: Job, run: seq<State>)
    requires IsQuietRun(c, run)
    ensures var d0 := run[0].world.disk;
            var d := RecoverStaging(run[|run| - 1].world.disk);
            || d.names == d0.names
            || (Destination !in d0.names && d.names == map[Destination := d0.names[Formal]])
  {
    TracksRun(c, run, |run| - 1);
    RunInv(c, run, |run| - 1);
    RecoverTracked(c, run[0].world.disk.names[Formal], run[0].world.disk, run[|run| - 1]);
  }
}
