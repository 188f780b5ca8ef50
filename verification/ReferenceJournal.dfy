/** The life of a rename-reference journal and its payload files: prepareRenameReferenceJournal of
    server/renameReferenceJournal.ts, its direction changes and cleanup, and the way startup
    recovery (server/crashRecovery.ts) ends it, with a crash possible between any two steps. */
module ReferenceJournal {
  import opened Options

  datatype Phase = Preparing | RollForward | RollBack | Cleanup

  datatype Pc =
    | WriteJournal | WritePayload(i: nat) | Activate | Live
    | RemovePayload(i: nat) | RemoveJournal | Done
    | Down | Scan | DropPayload(i: nat) | DropJournal | Settled

  /** payloads[i] tells whether the i-th declared payload file exists with its declared bytes. */
  datatype State = State(journal: Option<Phase>, payloads: seq<bool>, pc: Pc)

  ghost predicate AllPresent(payloads: seq<bool>) {
    forall i :: 0 <= i < |payloads| ==> payloads[i]
  }

  ghost predicate NonePresent(payloads: seq<bool>) {
    forall i :: 0 <= i < |payloads| ==> !payloads[i]
  }

  ghost predicate Init(s: State) {
    s.journal == None && s.pc == WriteJournal && s.payloads != [] && NonePresent(s.payloads)
  }

  ghost predicate LiveStep(s: State, t: State) {
    match s.pc
    case WriteJournal => t == s.(journal := Some(Preparing), pc := WritePayload(0))
    case WritePayload(i) =>
      || (i < |s.payloads| && t == s.(payloads := s.payloads[i := true], pc := WritePayload(i + 1)))
      || (i >= |s.payloads| && t == s.(pc := Activate))
      || t == s.(pc := RemovePayload(0))  // the write failed
    case Activate =>
      || t == s.(journal := Some(RollForward), pc := Live)
      || t == s.(pc := RemovePayload(0))
    case Live =>  // setDirection, or cleanup
      || t == s.(journal := Some(RollForward))
      || t == s.(journal := Some(RollBack))
      || t == s.(journal := Some(Cleanup), pc := RemovePayload(0))
    case RemovePayload(i) =>
      if i < |s.payloads| then t == s.(payloads := s.payloads[i := false], pc := RemovePayload(i + 1))
      else t == s.(pc := RemoveJournal)
    case RemoveJournal => t == s.(journal := None, pc := Done)
    case _ => false
  }

  /** The bundle is validated first, payloads included. Where the phase calls for the references,
      their recovery may complete, stop, or turn the direction forward. */
  ghost predicate RecoveryStep(s: State, t: State) {
    match s.pc
    case Down => t == s.(pc := Scan)
    case Scan =>
      if s.journal.None? || !AllPresent(s.payloads) then t == s.(pc := Settled)
      else if s.journal == Some(Preparing) || s.journal == Some(Cleanup) then t == s.(pc := DropPayload(0))
      else t == s.(pc := DropPayload(0)) || t == s.(pc := Settled) || t == s.(journal := Some(RollForward))
    case DropPayload(i) =>
      if i < |s.payloads| then t == s.(payloads := s.payloads[i := false], pc := DropPayload(i + 1))
      else t == s.(pc := DropJournal)
    case DropJournal => t == s.(journal := None, pc := Settled)
    case _ => false
  }

  ghost predicate Step(s: State, t: State) {
    LiveStep(s, t) || RecoveryStep(s, t) || t == s.(pc := Down)
  }

  ghost predicate IsRun(run: seq<State>) {
    |run| > 0 && forall i :: 0 <= i < |run| - 1 ==> Step(run[i], run[i + 1])
  }

  // ---------- over every run ----------

  ghost predicate RemovedUpTo(payloads: seq<bool>, k: nat) {
    forall i :: 0 <= i < k && i < |payloads| ==> !payloads[i]
  }

  ghost predicate WrittenUpTo(payloads: seq<bool>, k: nat) {
    forall i :: 0 <= i < k && i < |payloads| ==> payloads[i]
  }

  ghost predicate Inv(s: State) {
    && s.payloads != []
    && (s.journal.None? ==> NonePresent(s.payloads))
    && match s.pc
       case WriteJournal => s.journal.None?
       case WritePayload(i) => s.journal == Some(Preparing) && WrittenUpTo(s.payloads, i)
       case Activate => s.journal == Some(Preparing) && AllPresent(s.payloads)
       case Live => (s.journal == Some(RollForward) || s.journal == Some(RollBack)) && AllPresent(s.payloads)
       case RemovePayload(i) => s.journal.Some? && RemovedUpTo(s.payloads, i)
       case RemoveJournal => NonePresent(s.payloads)
       case DropPayload(i) => s.journal.Some? && RemovedUpTo(s.payloads, i)
       case DropJournal => NonePresent(s.payloads)
       case _ => true
  }

  lemma StepKeepsInv(s: State, t: State)
    requires Inv(s) && Step(s, t)
    ensures Inv(t)
  {
  }

  lemma {:induction false} RunKeepsInv(run: seq<State>, k: nat)
    requires IsRun(run) && Inv(run[0]) && k < |run|
    ensures Inv(run[k])
  {
    hide Inv, Step;
    if k > 0 {
      RunKeepsInv(run, k - 1);
      assert Step(run[k - 1], run[k - 1 + 1]);
      StepKeepsInv(run[k - 1], run[k]);
    }
  }

  /** However often the process dies, no payload outlives its journal, and while references may be
      written every payload of both directions is there. */
  lemma NoOrphanPayload(run: seq<State>, k: nat)
    requires IsRun(run) && Init(run[0]) && k < |run|
    ensures run[k].journal.None? ==> NonePresent(run[k].payloads)
    ensures run[k].pc.Live? ==> AllPresent(run[k].payloads)
  {
    RunKeepsInv(run, k);
  }

  // ---------- what recovery can still end ----------

  ghost predicate IsRecovery(run: seq<State>) {
    && |run| > 0 && run[0].pc == Down
    && (forall i :: 0 <= i < |run| - 1 ==> RecoveryStep(run[i], run[i + 1]))
    && run[|run| - 1].pc == Settled
  }

  /** A journal with a missing payload, whatever its phase, is never looked at again. */
  ghost predicate Stranded(s: State, was: State) {
    && s.journal == was.journal && s.payloads == was.payloads
    && (s.pc.Down? || s.pc.Scan? || s.pc.Settled?)
  }

  lemma {:induction false} StrandedStays(run: seq<State>, k: nat)
    requires IsRun(run) && k < |run| && run[0].pc == Down
    requires run[0].journal.Some? && !AllPresent(run[0].payloads)
    ensures Stranded(run[k], run[0])
  {
    hide AllPresent;
    if k > 0 {
      StrandedStays(run, k - 1);
      assert Step(run[k - 1], run[k - 1 + 1]);
    }
  }

  ghost predicate Cleaning(s: State) {
    && s.payloads != [] && (s.journal.None? ==> s.pc == Settled && NonePresent(s.payloads))
    && match s.pc
       case Down => AllPresent(s.payloads) && (s.journal == Some(Preparing) || s.journal == Some(Cleanup))
       case Scan => AllPresent(s.payloads) && (s.journal == Some(Preparing) || s.journal == Some(Cleanup))
       case DropPayload(i) => RemovedUpTo(s.payloads, i)
       case DropJournal => NonePresent(s.payloads)
       case Settled => s.journal.None?
       case _ => false
  }

  lemma {:induction false} RecoveryCleans(run: seq<State>, k: nat)
    requires |run| > 0 && (forall i :: 0 <= i < |run| - 1 ==> RecoveryStep(run[i], run[i + 1])) && k < |run|
    requires Cleaning(run[0])
    ensures Cleaning(run[k])
  {
    if k > 0 {
      RecoveryCleans(run, k - 1);
      assert RecoveryStep(run[k - 1], run[k - 1 + 1]);
    }
  }

  /** An interrupted preparation or cleanup is cleaned by an uninterrupted recovery exactly when the
      crash left every payload: that is, after the last payload was written, or before the first
      was removed. */
  lemma CleanedIffComplete(run: seq<State>)
    requires IsRecovery(run) && run[0].payloads != []
    requires run[0].journal == Some(Preparing) || run[0].journal == Some(Cleanup)
    ensures run[|run| - 1].journal == None <==> AllPresent(run[0].payloads)
    ensures run[|run| - 1].journal == None ==> NonePresent(run[|run| - 1].payloads)
  {
    if AllPresent(run[0].payloads) {
      RecoveryCleans(run, |run| - 1);
    } else {
      forall i | 0 <= i < |run| - 1
        ensures Step(run[i], run[i + 1])
      {
        assert RecoveryStep(run[i], run[i + 1]);
      }
      hide RecoveryStep, LiveStep;
      StrandedStays(run, |run| - 1);
    }
  }
}
