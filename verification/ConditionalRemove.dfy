/** removeTextIfUnchanged of server/atomicTextWrite.ts: take the file aside, compare, compare again,
    unlink; anything else is put back create-only. External writers act between any two steps. */
module ConditionalRemove {
  import opened Filesystem
  import opened Options

  /** `owned` is the generation a created-file rollback insists on. */
  datatype Job = Job(expected: Text, owned: Option<Ino>)

  datatype Result =
    | Removed
    | NotRemoved            // missing, or other bytes, before anything was touched
    | OwnershipLost         // thrown; a taken file stays under its staging name
    | MutatedExternally(restored: bool)

  datatype Pc =
    | Capture | Verify | TakeAside | ReadStaged | Recapture
    | RestoreCheck | RestoreLink | RestoreUnlink
    | UnlinkStaged
    | Done(result: Result)

  datatype State = State(world: World, pc: Pc, held: Option<Ino>) {
    function On(disk: Disk, next: Pc): State {
      this.(world := World(disk, world.discarded), pc := next)
    }
  }

  ghost predicate Init(s: State) {
    && s.pc == Capture && s.held == None
    && s.world.discarded == {}
    && s.world.disk.Valid()
    && Staged !in s.world.disk.names
    && (forall i :: i in s.world.disk.data ==> s.world.disk.Named(i))
  }

  ghost predicate LiveStep(c: Job, s: State, s': State) {
    var d := s.world.disk;
    match s.pc
    case Capture =>
      if Formal !in d.names then s' == s.(pc := Done(NotRemoved))
      else if c.owned.Some? && c.owned.value != d.names[Formal] then s' == s.(pc := Done(OwnershipLost))
      else if !d.Holds(Formal, c.expected) then s' == s.(pc := Done(NotRemoved))
      else || s' == s.(pc := Verify, held := Some(d.names[Formal]))
           || s' == s.(pc := Done(OwnershipLost))  // the two reads disagreed
    case Verify =>
      if Formal in d.names && s.held == Some(d.names[Formal]) then s' == s.(pc := TakeAside)
      else s' == s.(pc := Done(OwnershipLost))
    case TakeAside =>
      if Formal !in d.names then s' == s.(pc := Done(NotRemoved))
      else s' == s.On(d.Rename(Formal, Staged), ReadStaged)
    case ReadStaged =>
      if Staged in d.names && s.held == Some(d.names[Staged]) then
        || s' == s.(pc := if d.Holds(Staged, c.expected) then Recapture else RestoreCheck)
        || s' == s.(pc := Done(OwnershipLost))
      else s' == s.(pc := Done(OwnershipLost))
    case Recapture =>
      if Staged in d.names && s.held == Some(d.names[Staged]) then
        || s' == s.(pc := if d.Holds(Staged, c.expected) then UnlinkStaged else RestoreCheck)
        || s' == s.(pc := Done(OwnershipLost))
      else s' == s.(pc := Done(OwnershipLost))
    case RestoreCheck =>
      || (Staged in d.names && s.held == Some(d.names[Staged]) && s' == s.(pc := RestoreLink))
      || s' == s.(pc := Done(MutatedExternally(false)))
    case RestoreLink =>
      if Staged !in d.names || Formal in d.names then s' == s.(pc := Done(MutatedExternally(false)))
      else s' == s.On(d.Link(Staged, Formal), RestoreUnlink)
    case RestoreUnlink => s' == s.On(d.Unlink(Staged), Done(MutatedExternally(true)))
    case UnlinkStaged => s' == s.On(d.Unlink(Staged), Done(Removed))
    case Done(_) => false
  }

  ghost predicate Outside(s: State, s': State) {
    && s'.pc == s.pc && s'.held == s.held
    && exists e :: ExternalStep(e, s.world, s'.world, Frozen(s))
  }

  /** From the last comparison of the staged bytes to their unlink. */
  function Frozen(s: State): set<Ino> {
    if s.pc.UnlinkStaged? then Bound(s.world.disk, Staged) else {}
  }

  ghost predicate IsRun(c: Job, run: seq<State>) {
    && run != []
    && Init(run[0])
    && forall k :: 0 <= k < |run| - 1 ==> LiveStep(c, run[k], run[k + 1]) || Outside(run[k], run[k + 1])
  }

  ghost predicate Survives(c: Job, s: State) {
    forall i :: i in s.world.disk.data && i !in s.world.discarded && !s.world.disk.Named(i)
      ==> s.world.disk.data[i] == c.expected && s.held == Some(i)
  }

  predicate BeforeTakeover(pc: Pc) {
    pc.Capture? || pc.Verify? || pc.TakeAside?
  }

  ghost predicate Shape(c: Job, s: State) {
    var d := s.world.disk;
    && d.Valid()
    && (BeforeTakeover(s.pc) ==> Staged !in d.names)
    && (s.held.None? ==> s.pc.Capture? || s.pc.Done?)
    && (s.pc.Capture? ==> s.held.None?)
    && (s.held.Some? && c.owned.Some? ==> c.owned == s.held)
    && (s.pc.UnlinkStaged? ==> d.Holds(Staged, c.expected) && s.held == Some(d.names[Staged]))
    && (s.pc.RestoreUnlink? && Staged in d.names ==>
          (Formal in d.names && d.names[Formal] == d.names[Staged]) || d.names[Staged] in s.world.discarded)
  }

  ghost predicate Inv(c: Job, s: State) {
    Shape(c, s) && Survives(c, s)
  }

  lemma LiveStepShape(c: Job, s: State, s': State)
    requires Shape(c, s) && LiveStep(c, s, s')
    ensures Shape(c, s')
    ensures s'.world.disk.data == s.world.disk.data && s'.world.discarded == s.world.discarded
    ensures s.held.Some? ==> s'.held == s.held
  {
  }

  /** The name a step takes away is not the last one, or the file is the one to be removed. */
  lemma StepFreesOnlyExpected(c: Job, s: State, s': State, i: Ino)
    requires Shape(c, s) && LiveStep(c, s, s') && s.world.disk.Named(i)
    ensures || s'.world.disk.Named(i) || i in s.world.discarded
            || (s.world.disk.data[i] == c.expected && s.held == Some(i) && s.pc.UnlinkStaged?)
  {
    var d, d' := s.world.disk, s'.world.disk;
    var m :| m in d.names && d.names[m] == i;
    if m in d'.names && d'.names[m] == i {
    } else if s.pc.TakeAside? && m == Formal && Formal !in d'.names {
      assert d'.names[Staged] == i;
    } else if s.pc.RestoreUnlink? && Formal in d.names && d.names[Formal] == i {
      assert d'.names[Formal] == i;
    }
  }

  /** Once held is set it never changes, so no inode but one can have lost its name to the remove. */
  lemma LiveStepInv(c: Job, s: State, s': State)
    requires Inv(c, s) && LiveStep(c, s, s')
    ensures Inv(c, s')
  {
    LiveStepShape(c, s, s');
    forall i | s.world.disk.Named(i)
      ensures || s'.world.disk.Named(i) || i in s.world.discarded
              || (s.world.disk.data[i] == c.expected && s'.held == Some(i))
    {
      StepFreesOnlyExpected(c, s, s', i);
    }
  }

  lemma OutsideInv(c: Job, s: State, s': State)
    requires Inv(c, s) && Outside(s, s')
    ensures Inv(c, s')
  {
    var e :| ExternalStep(e, s.world, s'.world, Frozen(s));
    var d, d' := s.world.disk, s'.world.disk;
    forall i | d.Named(i)
      ensures d'.Named(i) || i in s'.world.discarded
    {
      var m :| m in d.names && d.names[m] == i;
      assert i in s'.world.discarded || (m in d'.names && d'.names[m] == i);
    }
    forall i | i in d'.data && i !in d.data
      ensures d'.Named(i)
    {
      assert e.path in d'.names;
    }
  }

  lemma {:induction false} RunInv(c: Job, run: seq<State>, k: nat)
    requires IsRun(c, run) && k < |run|
    ensures Inv(c, run[k])
  {
    if k > 0 {
      RunInv(c, run, k - 1);
      if LiveStep(c, run[k - 1], run[k]) {
        LiveStepInv(c, run[k - 1], run[k]);
      } else {
        OutsideInv(c, run[k - 1], run[k]);
      }
    }
  }

  /** Over every interleaving: what the remove unlinked for good held the expected text and was the
      one file it captured (the caller's own generation where it named one). */
  lemma OnlyTheExpectedFileGoes(c: Job, run: seq<State>, k: nat)
    requires IsRun(c, run) && k < |run|
    ensures Survives(c, run[k])
    ensures run[k].held.Some? && c.owned.Some? ==> run[k].held == c.owned
  {
    RunInv(c, run, k);
  }

  /** Success is reported only by the step that unlinks exactly that file under its staging name. */
  lemma RemovedIsTheCapturedFile(c: Job, run: seq<State>, k: nat)
    requires IsRun(c, run) && k + 1 < |run|
    requires !run[k].pc.Done? && run[k + 1].pc == Done(Removed)
    ensures var d := run[k].world.disk;
            && d.Holds(Staged, c.expected) && run[k].held == Some(d.names[Staged])
            && run[k + 1].world.disk == Disk(d.names - {Staged}, d.data)
  {
    RunInv(c, run, k);
  }

  // ---------- the orphan rule for a remove that died ----------

  /** The startup rule for a removal staging name without a journal
      (server/crashRecovery.ts). */
  function RecoverOrphan(d: Disk): Disk {
    if Staged !in d.names then d
    else if Formal in d.names then d.Unlink(Staged)
    else d.Link(Staged, Formal).Unlink(Staged)
  }

  /** Alone, the rule always puts the file back. */
  lemma OrphanComesBack(d: Disk)
    requires Staged in d.names && Formal !in d.names
    ensures RecoverOrphan(d).names == (d.names - {Staged})[Formal := d.names[Staged]]
  {
  }

  /** It is not safe against a writer that recreated the path: a generation goes for good exactly
      when it was taken aside, has no other name and the path is bound again; nothing compares its
      bytes with the text the remove expected. */
  lemma OrphanRuleLoses(d: Disk, i: Ino)
    requires d.Named(i)
    ensures !RecoverOrphan(d).Named(i) <==>
              && Staged in d.names && d.names[Staged] == i
              && Formal in d.names
              && (forall n :: n in d.names && n != Staged ==> d.names[n] != i)
  {
    var m :| m in d.names && d.names[m] == i;
    var d' := RecoverOrphan(d);
    if Staged in d.names && Formal !in d.names {
      assert d'.names[if m == Staged then Formal else m] == i;
    } else if m != Staged {
      assert m in d'.names && d'.names[m] == i;
    } else if n :| n in d.names && n != Staged && d.names[n] == i {
      assert n in d'.names && d'.names[n] == i;
    }
  }
}
