/** The promise-chain locks of server/documentWriteLock.ts as a step system: any number of tasks,
    each taking the vault structure lock and then its sorted document locks, interleaved at every
    await. */
module WriteLocks {
  import opened Options

  /** Locks in their global acquisition order; the structure lock comes before every document. */
  type Key = nat
  type TaskId = nat

  datatype Status = Waiting | Holding | Released

  /** One call of withInternalWriteLock: the call it awaits, if the key had a tail then. */
  datatype Ticket = Ticket(task: TaskId, previous: Option<nat>, status: Status)

  /** A nested chain of lock calls: `held` locks are taken, the next one may be awaited; releases
      run inside out. */
  datatype Task = Task(plan: seq<Key>, held: nat, waiting: bool, releasing: bool, tickets: seq<nat>)

  /** tails and waiters are the module's two maps. `calls` numbers the calls on a key, `served`
      counts its releases; both only describe the promises. */
  datatype State = State(
    tails: map<Key, nat>, waiters: map<Key, nat>, tasks: map<TaskId, Task>,
    calls: map<Key, seq<Ticket>>, served: map<Key, nat>)

  function Calls(s: State, k: Key): seq<Ticket> {
    if k in s.calls then s.calls[k] else []
  }

  function Served(s: State, k: Key): nat {
    if k in s.served then s.served[k] else 0
  }

  function Waiters(s: State, k: Key): nat {
    if k in s.waiters then s.waiters[k] else 0
  }

  /** The tail promise of call i has resolved: it and everything it waited for is released. */
  predicate TailResolved(calls: seq<Ticket>, i: nat)
    decreases i
  {
    && i < |calls| && calls[i].status == Released
    && (calls[i].previous.None? || (calls[i].previous.value < i && TailResolved(calls, calls[i].previous.value)))
  }

  // ---------- steps ----------

  function SetWaiters(s: State, k: Key, n: nat): map<Key, nat> {
    if n > 0 then s.waiters[k := n] else s.waiters - {k}
  }

  ghost predicate EnqueueStep(s: State, t: State, id: TaskId) {
    && id in s.tasks
    && var task := s.tasks[id];
    && !task.waiting && !task.releasing && task.held < |task.plan|
    && var k := task.plan[task.held];
       var calls := Calls(s, k);
       var previous := if k in s.tails then Some(s.tails[k]) else None;
       t == s.(
         waiters := if previous.Some? then SetWaiters(s, k, Waiters(s, k) + 1) else s.waiters,
         tails := s.tails[k := |calls|],
         calls := s.calls[k := calls + [Ticket(id, previous, Waiting)]],
         tasks := s.tasks[id := task.(waiting := true, tickets := task.tickets + [|calls|])])
  }

  ghost predicate WakeStep(s: State, t: State, id: TaskId) {
    && id in s.tasks
    && var task := s.tasks[id];
    && task.waiting && task.held < |task.plan| && task.held < |task.tickets|
    && var k, i := task.plan[task.held], task.tickets[task.held];
       var calls := Calls(s, k);
    && i < |calls|
    && (calls[i].previous.Some? ==> TailResolved(calls, calls[i].previous.value))
    && t == s.(
         waiters :=
          if calls[i].previous.Some? then SetWaiters(s, k, if Waiters(s, k) > 0 then Waiters(s, k) - 1 else 0)
          else s.waiters,
         calls := s.calls[k := calls[i := calls[i].(status := Holding)]],
         tasks := s.tasks[id := task.(waiting := false, held := task.held + 1)])
  }

  /** The operation under all the locks has returned or thrown. */
  ghost predicate FinishStep(s: State, t: State, id: TaskId) {
    && id in s.tasks
    && var task := s.tasks[id];
    && !task.waiting && !task.releasing && task.held == |task.plan|
    && t == s.(tasks := s.tasks[id := task.(releasing := true)])
  }

  ghost predicate ReleaseStep(s: State, t: State, id: TaskId) {
    && id in s.tasks
    && var task := s.tasks[id];
    && task.releasing && 0 < task.held <= |task.plan| && task.held <= |task.tickets|
    && var k, i := task.plan[task.held - 1], task.tickets[task.held - 1];
       var calls := Calls(s, k);
    && i < |calls|
    && t == s.(
         calls := s.calls[k := calls[i := calls[i].(status := Released)]],
         served := s.served[k := Served(s, k) + 1],
         tails := if k in s.tails && s.tails[k] == i then s.tails - {k} else s.tails,
         tasks := s.tasks[id := task.(held := task.held - 1, tickets := task.tickets[..task.held - 1])])
  }

  ghost predicate TaskStep(s: State, t: State, id: TaskId) {
    EnqueueStep(s, t, id) || WakeStep(s, t, id) || FinishStep(s, t, id) || ReleaseStep(s, t, id)
  }

  ghost predicate Step(s: State, t: State) {
    exists id :: TaskStep(s, t, id)
  }

  /** One global acquisition order: a plan is strictly increasing. */
  ghost predicate Ordered(plan: seq<Key>) {
    forall i, j :: 0 <= i < j < |plan| ==> plan[i] < plan[j]
  }

  ghost predicate Init(s: State) {
    && s.tails == map[] && s.waiters == map[] && s.calls == map[] && s.served == map[]
    && forall id :: id in s.tasks ==>
          Ordered(s.tasks[id].plan) && s.tasks[id] == Task(s.tasks[id].plan, 0, false, false, [])
  }

  ghost predicate IsRun(run: seq<State>) {
    |run| > 0 && Init(run[0]) && forall i :: 0 <= i < |run| - 1 ==> Step(run[i], run[i + 1])
  }

  // ---------- one key ----------

  function Queued(calls: seq<Ticket>, n: nat): set<nat> {
    set i: nat | n <= i < |calls| && calls[i].status == Waiting && calls[i].previous.Some?
  }

  /** The first n calls are released, the rest wait in order behind call n. */
  ghost predicate KeyInv(calls: seq<Ticket>, n: nat, tail: Option<nat>, waiters: nat) {
    && n <= |calls|
    && (forall i :: 0 <= i < |calls| ==> (calls[i].status == Released <==> i < n))
    && (forall i :: n < i < |calls| ==> calls[i].status == Waiting && calls[i].previous == Some(i - 1))
    && (forall i :: 0 <= i < |calls| && calls[i].previous.Some? ==> calls[i].previous == Some(i - 1) && 0 < i)
    && tail == (if n < |calls| then Some(|calls| - 1) else None)
    && waiters == |Queued(calls, n)|
  }

  function Tail(s: State, k: Key): Option<nat> {
    if k in s.tails then Some(s.tails[k]) else None
  }

  ghost predicate AtKey(s: State, k: Key) {
    KeyInv(Calls(s, k), Served(s, k), Tail(s, k), Waiters(s, k)) && (k in s.waiters ==> s.waiters[k] > 0)
  }

  /** Exactly the released prefix has resolved. */
  lemma {:induction false} ResolvedIsServed(calls: seq<Ticket>, n: nat, tail: Option<nat>, waiters: nat, i: nat)
    requires KeyInv(calls, n, tail, waiters) && i < |calls|
    ensures TailResolved(calls, i) <==> i < n
    decreases i
  {
    if i < n && calls[i].previous.Some? {
      ResolvedIsServed(calls, n, tail, waiters, i - 1);
    }
  }

  lemma EnqueueKey(calls: seq<Ticket>, n: nat, tail: Option<nat>, waiters: nat, id: TaskId)
    requires KeyInv(calls, n, tail, waiters)
    ensures KeyInv(calls + [Ticket(id, tail, Waiting)], n, Some(|calls|), if tail.Some? then waiters + 1 else waiters)
  {
    var next := calls + [Ticket(id, tail, Waiting)];
    assert Queued(next, n) == Queued(calls, n) + if tail.Some? then {|calls|} else {};
  }

  lemma WakeKey(calls: seq<Ticket>, n: nat, tail: Option<nat>, waiters: nat, i: nat)
    requires KeyInv(calls, n, tail, waiters) && i < |calls| && calls[i].status == Waiting
    requires calls[i].previous.Some? ==> TailResolved(calls, calls[i].previous.value)
    ensures i == n
    ensures calls[i].previous.Some? ==> waiters > 0
    ensures KeyInv(calls[i := calls[i].(status := Holding)], n, tail,
                   if calls[i].previous.Some? then waiters - 1 else waiters)
  {
    if calls[i].previous.Some? {
      ResolvedIsServed(calls, n, tail, waiters, i - 1);
    }
    var next := calls[i := calls[i].(status := Holding)];
    assert Queued(next, n) == Queued(calls, n) - {i};
    if calls[i].previous.Some? {
      assert i in Queued(calls, n);
    }
  }

  lemma ReleaseKey(calls: seq<Ticket>, n: nat, tail: Option<nat>, waiters: nat, i: nat)
    requires KeyInv(calls, n, tail, waiters) && i < |calls| && calls[i].status == Holding
    ensures i == n
    ensures KeyInv(calls[i := calls[i].(status := Released)], n + 1, if tail == Some(i) then None else tail, waiters)
  {
    var next := calls[i := calls[i].(status := Released)];
    assert Queued(next, n + 1) == Queued(calls, n);
  }

  // ---------- the whole table ----------

  /** A task's tickets are its calls on the first locks of its plan, held but for a last one it
      waits for. */
  ghost predicate TicketOf(s: State, id: TaskId, j: nat)
    requires id in s.tasks && j < |s.tasks[id].tickets| && j < |s.tasks[id].plan|
  {
    var task := s.tasks[id];
    var calls, i := Calls(s, task.plan[j]), task.tickets[j];
    i < |calls| && calls[i].task == id && calls[i].status == if j < task.held then Holding else Waiting
  }

  ghost predicate TaskInv(s: State, id: TaskId)
    requires id in s.tasks
  {
    var task := s.tasks[id];
    && Ordered(task.plan) && task.held <= |task.plan|
    && (task.waiting ==> task.held < |task.plan| && !task.releasing)
    && |task.tickets| == task.held + (if task.waiting then 1 else 0)
    && forall j :: 0 <= j < |task.tickets| ==> TicketOf(s, id, j)
  }

  /** An unreleased call belongs to a task that has its ticket. */
  ghost predicate CallOwned(s: State, k: Key, i: nat)
    requires i < |Calls(s, k)|
  {
    var id := Calls(s, k)[i].task;
    && id in s.tasks
    && exists j ::
           0 <= j < |s.tasks[id].tickets| && j < |s.tasks[id].plan| && s.tasks[id].plan[j] == k
               && s.tasks[id].tickets[j] == i
  }

  ghost predicate Inv(s: State) {
    && (forall k :: AtKey(s, k))
    && (forall id :: id in s.tasks ==> TaskInv(s, id))
    && (forall k, i :: 0 <= i < |Calls(s, k)| && Calls(s, k)[i].status != Released ==> CallOwned(s, k, i))
  }

  /** A step of one task leaves the calls of every other task alone. */
  ghost predicate OthersAlone(s: State, t: State, id: TaskId) {
    && t.tasks.Keys == s.tasks.Keys
    && (forall o :: o in s.tasks && o != id ==> t.tasks[o] == s.tasks[o])
    && (forall q, i :: 0 <= i < |Calls(s, q)| && Calls(s, q)[i].task != id ==>
          i < |Calls(t, q)| && Calls(t, q)[i] == Calls(s, q)[i])
    && (forall q, i :: 0 <= i < |Calls(t, q)| && Calls(t, q)[i].task != id ==>
          i < |Calls(s, q)| && Calls(t, q)[i] == Calls(s, q)[i])
  }

  lemma OthersKeep(s: State, t: State, id: TaskId)
    requires Inv(s) && OthersAlone(s, t, id)
    ensures forall o :: o in t.tasks && o != id ==> TaskInv(t, o)
    ensures forall q, i :: 0 <= i < |Calls(t, q)| && Calls(t, q)[i].status != Released && Calls(t, q)[i].task != id ==>
              CallOwned(t, q, i)
  {
    hide AtKey, Ordered, Calls;
    forall o | o in t.tasks && o != id
      ensures TaskInv(t, o)
    {
      assert TaskInv(s, o);
      forall j | 0 <= j < |t.tasks[o].tickets|
        ensures TicketOf(t, o, j)
      {
        assert TicketOf(s, o, j);
      }
    }
    forall q, i | 0 <= i < |Calls(t, q)| && Calls(t, q)[i].status != Released && Calls(t, q)[i].task != id
      ensures CallOwned(t, q, i)
    {
      assert CallOwned(s, q, i);
    }
  }

  lemma EnqueueKeepsInv(s: State, t: State, id: TaskId)
    requires Inv(s) && EnqueueStep(s, t, id)
    ensures Inv(t)
  {
    hide KeyInv, Ordered, OthersAlone;
    var task := s.tasks[id];
    var k := task.plan[task.held];
    assert OthersAlone(s, t, id) by { EnqueueAlone(s, t, id); }
    OthersKeep(s, t, id);
    assert AtKey(s, k) && TaskInv(s, id);
    EnqueueKey(Calls(s, k), Served(s, k), Tail(s, k), Waiters(s, k), id);
    forall q
      ensures AtKey(t, q)
    {
      assert AtKey(s, q);
    }
    EnqueueOwn(s, t, id);
  }

  lemma EnqueueAlone(s: State, t: State, id: TaskId)
    requires EnqueueStep(s, t, id)
    ensures OthersAlone(s, t, id)
  {
  }

  lemma EnqueueOwn(s: State, t: State, id: TaskId)
    requires Inv(s) && EnqueueStep(s, t, id)
    ensures TaskInv(t, id)
    ensures forall q, i :: 0 <= i < |Calls(t, q)| && Calls(t, q)[i].status != Released && Calls(t, q)[i].task == id ==>
              CallOwned(t, q, i)
  {
    hide AtKey, Ordered;
    var task := s.tasks[id];
    assert TaskInv(s, id);
    forall j | 0 <= j < |t.tasks[id].tickets|
      ensures TicketOf(t, id, j)
    {
      if j < |task.tickets| {
        assert TicketOf(s, id, j);
      }
    }
    forall q, i | 0 <= i < |Calls(t, q)| && Calls(t, q)[i].status != Released && Calls(t, q)[i].task == id
      ensures CallOwned(t, q, i)
    {
      if i < |Calls(s, q)| {
        assert CallOwned(s, q, i);
        var j :| 0 <= j < |task.tickets| && j < |task.plan| && task.plan[j] == q && task.tickets[j] == i;
        assert t.tasks[id].tickets[j] == i;
      } else {
        assert t.tasks[id].tickets[task.held] == i;
      }
    }
  }

  lemma WakeKeepsInv(s: State, t: State, id: TaskId)
    requires Inv(s) && WakeStep(s, t, id)
    ensures Inv(t)
  {
    hide KeyInv, Ordered, OthersAlone, TailResolved;
    var task := s.tasks[id];
    var k := task.plan[task.held];
    assert OthersAlone(s, t, id) by { WakeAlone(s, t, id); }
    OthersKeep(s, t, id);
    assert AtKey(s, k) && TaskInv(s, id) && TicketOf(s, id, task.held);
    WakeKey(Calls(s, k), Served(s, k), Tail(s, k), Waiters(s, k), task.tickets[task.held]);
    forall q
      ensures AtKey(t, q)
    {
      assert AtKey(s, q);
    }
    WakeOwn(s, t, id);
  }

  lemma WakeAlone(s: State, t: State, id: TaskId)
    requires Inv(s) && WakeStep(s, t, id)
    ensures OthersAlone(s, t, id)
  {
    hide AtKey, Ordered, TailResolved, CallOwned;
    assert TaskInv(s, id) && TicketOf(s, id, s.tasks[id].held);
  }

  lemma WakeOwn(s: State, t: State, id: TaskId)
    requires Inv(s) && WakeStep(s, t, id)
    ensures TaskInv(t, id)
    ensures forall q, i :: 0 <= i < |Calls(t, q)| && Calls(t, q)[i].status != Released && Calls(t, q)[i].task == id ==>
              CallOwned(t, q, i)
  {
    hide AtKey, TailResolved;
    var task := s.tasks[id];
    assert TaskInv(s, id);
    forall j | 0 <= j < |t.tasks[id].tickets|
      ensures TicketOf(t, id, j)
    {
      assert TicketOf(s, id, j);
      assert j < task.held ==> task.plan[j] < task.plan[task.held];
    }
    forall q, i | 0 <= i < |Calls(t, q)| && Calls(t, q)[i].status != Released && Calls(t, q)[i].task == id
      ensures CallOwned(t, q, i)
    {
      assert TicketOf(s, id, task.held);
      assert Calls(s, q)[i].status != Released && CallOwned(s, q, i);
    }
  }

  lemma ReleaseKeepsInv(s: State, t: State, id: TaskId)
    requires Inv(s) && ReleaseStep(s, t, id)
    ensures Inv(t)
  {
    hide KeyInv, Ordered, OthersAlone;
    var task := s.tasks[id];
    var k := task.plan[task.held - 1];
    assert OthersAlone(s, t, id) by { ReleaseAlone(s, t, id); }
    OthersKeep(s, t, id);
    assert AtKey(s, k) && TaskInv(s, id) && TicketOf(s, id, task.held - 1);
    ReleaseKey(Calls(s, k), Served(s, k), Tail(s, k), Waiters(s, k), task.tickets[task.held - 1]);
    forall q
      ensures AtKey(t, q)
    {
      assert AtKey(s, q);
    }
    ReleaseOwn(s, t, id);
  }

  lemma ReleaseAlone(s: State, t: State, id: TaskId)
    requires Inv(s) && ReleaseStep(s, t, id)
    ensures OthersAlone(s, t, id)
  {
    hide AtKey, Ordered, CallOwned;
    assert TaskInv(s, id) && TicketOf(s, id, s.tasks[id].held - 1);
  }

  lemma ReleaseOwn(s: State, t: State, id: TaskId)
    requires Inv(s) && ReleaseStep(s, t, id)
    ensures TaskInv(t, id)
    ensures forall q, i :: 0 <= i < |Calls(t, q)| && Calls(t, q)[i].status != Released && Calls(t, q)[i].task == id ==>
              CallOwned(t, q, i)
  {
    hide AtKey;
    var task := s.tasks[id];
    assert TaskInv(s, id);
    forall j | 0 <= j < |t.tasks[id].tickets|
      ensures TicketOf(t, id, j)
    {
      assert TicketOf(s, id, j);
      assert task.plan[j] < task.plan[task.held - 1];
    }
    forall q, i | 0 <= i < |Calls(t, q)| && Calls(t, q)[i].status != Released && Calls(t, q)[i].task == id
      ensures CallOwned(t, q, i)
    {
      assert TicketOf(s, id, task.held - 1);
      assert Calls(s, q)[i].status != Released && CallOwned(s, q, i);
      var j :| 0 <= j < |task.tickets| && j < |task.plan| && task.plan[j] == q && task.tickets[j] == i;
      assert j != task.held - 1;
      assert t.tasks[id].tickets[j] == i;
    }
  }

  lemma FinishKeepsInv(s: State, t: State, id: TaskId)
    requires Inv(s) && FinishStep(s, t, id)
    ensures Inv(t)
  {
    hide KeyInv, Ordered, OthersAlone;
    assert OthersAlone(s, t, id) by { FinishAlone(s, t, id); }
    OthersKeep(s, t, id);
    forall q
      ensures AtKey(t, q)
    {
      assert AtKey(s, q);
    }
    assert TaskInv(s, id);
    forall j | 0 <= j < |t.tasks[id].tickets|
      ensures TicketOf(t, id, j)
    {
      assert TicketOf(s, id, j);
    }
    forall q, i | 0 <= i < |Calls(t, q)| && Calls(t, q)[i].status != Released && Calls(t, q)[i].task == id
      ensures CallOwned(t, q, i)
    {
      assert CallOwned(s, q, i);
    }
  }

  lemma FinishAlone(s: State, t: State, id: TaskId)
    requires FinishStep(s, t, id)
    ensures OthersAlone(s, t, id)
  {
  }

  lemma InitInv(s: State)
    requires Init(s)
    ensures Inv(s)
  {
    forall k
      ensures AtKey(s, k)
    {
      assert Queued([], 0) == {};
    }
  }

  lemma {:induction false} RunKeepsInv(run: seq<State>)
    requires IsRun(run)
    ensures Inv(run[|run| - 1])
  {
    hide Inv, TaskStep, Init, EnqueueStep, WakeStep, ReleaseStep, FinishStep;
    if |run| == 1 {
      InitInv(run[0]);
    } else {
      var prefix := run[..|run| - 1];
      forall i | 0 <= i < |prefix| - 1
        ensures Step(prefix[i], prefix[i + 1])
      {
        assert Step(run[i], run[i + 1]);
      }
      RunKeepsInv(prefix);
      var k := |run| - 2;
      assert Step(run[k], run[k + 1]);
      StepKeepsInv(run[k], run[k + 1]);
    }
  }

  lemma StepKeepsInv(s: State, t: State)
    requires Inv(s) && Step(s, t)
    ensures Inv(t)
  {
    hide Inv, EnqueueStep, WakeStep, ReleaseStep, FinishStep;
    var id :| TaskStep(s, t, id);
    if EnqueueStep(s, t, id) {
      EnqueueKeepsInv(s, t, id);
    } else if WakeStep(s, t, id) {
      WakeKeepsInv(s, t, id);
    } else if FinishStep(s, t, id) {
      FinishKeepsInv(s, t, id);
    } else {
      ReleaseKeepsInv(s, t, id);
    }
  }

  // ---------- what every run keeps ----------

  ghost predicate Holds(s: State, id: TaskId, k: Key) {
    id in s.tasks && exists j :: 0 <= j < s.tasks[id].held && j < |s.tasks[id].plan| && s.tasks[id].plan[j] == k
  }

  lemma HolderIsHead(s: State, id: TaskId, k: Key)
    requires Inv(s) && Holds(s, id, k)
    ensures Served(s, k) < |Calls(s, k)| && Calls(s, k)[Served(s, k)].task == id
  {
    assert AtKey(s, k) && TaskInv(s, id);
    var j :| 0 <= j < s.tasks[id].held && j < |s.tasks[id].plan| && s.tasks[id].plan[j] == k;
    assert TicketOf(s, id, j);
  }

  /** At most one task holds a lock. */
  lemma MutualExclusion(run: seq<State>, a: TaskId, b: TaskId, k: Key)
    requires IsRun(run) && Holds(run[|run| - 1], a, k) && Holds(run[|run| - 1], b, k)
    ensures a == b
  {
    RunKeepsInv(run);
    HolderIsHead(run[|run| - 1], a, k);
    HolderIsHead(run[|run| - 1], b, k);
  }

  /** Locks are granted in the order of the calls. */
  lemma Fifo(run: seq<State>, k: Key, i: nat, j: nat)
    requires IsRun(run) && i < j < |Calls(run[|run| - 1], k)|
    requires Calls(run[|run| - 1], k)[j].status != Waiting
    ensures Calls(run[|run| - 1], k)[i].status == Released
  {
    RunKeepsInv(run);
    assert AtKey(run[|run| - 1], k);
  }

  /** The two maps tell exactly who is there: a tail entry while some call is unreleased, and one
      waiter for every call that was queued behind another and has not been woken. */
  lemma MapsAreExact(run: seq<State>, k: Key)
    requires IsRun(run)
    ensures var s := run[|run| - 1];
            && (k in s.tails <==> exists i :: 0 <= i < |Calls(s, k)| && Calls(s, k)[i].status != Released)
            && Waiters(s, k) == |set i: nat | i < |Calls(s, k)| && Calls(s, k)[i].status == Waiting
                 && Calls(s, k)[i].previous.Some?|
            && (k in s.waiters <==>
                 exists i :: 0 <= i < |Calls(s, k)| && Calls(s, k)[i].status == Waiting
                       && Calls(s, k)[i].previous.Some?)
  {
    RunKeepsInv(run);
    var s := run[|run| - 1];
    assert AtKey(s, k);
    var queued := set i: nat | i < |Calls(s, k)| && Calls(s, k)[i].status == Waiting && Calls(s, k)[i].previous.Some?;
    assert queued == Queued(Calls(s, k), Served(s, k));
    if k in s.tails {
      assert Calls(s, k)[Served(s, k)].status != Released;
    }
    if |queued| > 0 {
      var i :| i in queued;
    }
    if i :| 0 <= i < |Calls(s, k)| && Calls(s, k)[i].status == Waiting && Calls(s, k)[i].previous.Some? {
      assert i in queued;
    }
  }

  // ---------- progress ----------

  ghost predicate Finished(task: Task) {
    task.releasing && task.held == 0
  }

  lemma NotWaitingCanStep(s: State, id: TaskId) returns (t: State)
    requires Inv(s) && id in s.tasks && !Finished(s.tasks[id]) && !s.tasks[id].waiting
    ensures TaskStep(s, t, id)
  {
    assert TaskInv(s, id);
    var task := s.tasks[id];
    if task.releasing {
      assert TicketOf(s, id, task.held - 1);
      var k, i := task.plan[task.held - 1], task.tickets[task.held - 1];
      t := s.(
        calls := s.calls[k := Calls(s, k)[i := Calls(s, k)[i].(status := Released)]],
        served := s.served[k := Served(s, k) + 1],
        tails := if k in s.tails && s.tails[k] == i then s.tails - {k} else s.tails,
        tasks := s.tasks[id := task.(held := task.held - 1, tickets := task.tickets[..task.held - 1])]);
      assert ReleaseStep(s, t, id);
    } else if task.held == |task.plan| {
      t := s.(tasks := s.tasks[id := task.(releasing := true)]);
      assert FinishStep(s, t, id);
    } else {
      var k := task.plan[task.held];
      var previous := if k in s.tails then Some(s.tails[k]) else None;
      t := s.(
        waiters := if previous.Some? then SetWaiters(s, k, Waiters(s, k) + 1) else s.waiters,
        tails := s.tails[k := |Calls(s, k)|],
        calls := s.calls[k := Calls(s, k) + [Ticket(id, previous, Waiting)]],
        tasks := s.tasks[id := task.(waiting := true, tickets := task.tickets + [|Calls(s, k)|])]);
      assert EnqueueStep(s, t, id);
    }
  }

  /** The first unreleased call on a key, if it still waits, can be woken. */
  lemma HeadCanWake(s: State, id: TaskId) returns (t: State)
    requires Inv(s) && id in s.tasks && s.tasks[id].waiting && TaskInv(s, id)
    requires s.tasks[id].tickets[s.tasks[id].held] == Served(s, s.tasks[id].plan[s.tasks[id].held])
    ensures TaskStep(s, t, id)
  {
    var task := s.tasks[id];
    var k, i := task.plan[task.held], task.tickets[task.held];
    var calls := Calls(s, k);
    assert TicketOf(s, id, task.held) && AtKey(s, k);
    if calls[i].previous.Some? {
      ResolvedIsServed(calls, Served(s, k), Tail(s, k), Waiters(s, k), i - 1);
    }
    t := s.(
      waiters :=
          if calls[i].previous.Some? then SetWaiters(s, k, if Waiters(s, k) > 0 then Waiters(s, k) - 1 else 0)
          else s.waiters,
      calls := s.calls[k := calls[i := calls[i].(status := Holding)]],
      tasks := s.tasks[id := task.(waiting := false, held := task.held + 1)]);
    assert WakeStep(s, t, id);
  }

  ghost function Awaited(s: State, id: TaskId): Key
    requires id in s.tasks && s.tasks[id].held < |s.tasks[id].plan|
  {
    s.tasks[id].plan[s.tasks[id].held]
  }

  lemma {:induction false} HighestAwaited(s: State, ids: set<TaskId>, some: TaskId) returns (top: TaskId)
    requires some in ids && forall id :: id in ids ==> id in s.tasks && s.tasks[id].held < |s.tasks[id].plan|
    ensures top in ids && forall id :: id in ids ==> Awaited(s, id) <= Awaited(s, top)
    decreases ids
  {
    hide Awaited;
    var rest := ids - {some};
    if rest == {} {
      assert ids == {some};
      return some;
    }
    var other :| other in rest;
    top := HighestAwaited(s, rest, other);
    assert ids == rest + {some};
    if Awaited(s, top) < Awaited(s, some) {
      top := some;
    }
  }

  /** Whoever is at the head of the highest awaited lock waits for nothing above it, so it is not
      blocked. */
  lemma AllWaitingCanStep(s: State, top: TaskId) returns (id: TaskId, t: State)
    requires Inv(s) && top in s.tasks && !Finished(s.tasks[top]) && s.tasks[top].held < |s.tasks[top].plan|
    requires forall o :: o in s.tasks && !Finished(s.tasks[o]) ==>
               s.tasks[o].waiting && s.tasks[o].held < |s.tasks[o].plan| && Awaited(s, o) <= Awaited(s, top)
    ensures TaskStep(s, t, id)
  {
    hide TaskStep;
    var k := Awaited(s, top);
    assert TaskInv(s, top) && TicketOf(s, top, s.tasks[top].held) && AtKey(s, k);
    var n := Served(s, k);
    assert CallOwned(s, k, n);
    id := Calls(s, k)[n].task;
    var task := s.tasks[id];
    var j :| 0 <= j < |task.tickets| && j < |task.plan| && task.plan[j] == k && task.tickets[j] == n;
    assert TaskInv(s, id) && TicketOf(s, id, j);
    if j < task.held {
      assert false;
    }
    t := HeadCanWake(s, id);
  }

  /** No deadlock: while a task is unfinished, some task can take a step. */
  lemma NoDeadlock(run: seq<State>, unfinished: TaskId) returns (t: State)
    requires IsRun(run) && unfinished in run[|run| - 1].tasks && !Finished(run[|run| - 1].tasks[unfinished])
    ensures Step(run[|run| - 1], t)
  {
    var s := run[|run| - 1];
    RunKeepsInv(run);
    hide TaskStep, AtKey, CallOwned, Finished, IsRun;
    assert forall id :: id in s.tasks ==> TaskInv(s, id);
    if id :| id in s.tasks && !Finished(s.tasks[id]) && !s.tasks[id].waiting {
      t := NotWaitingCanStep(s, id);
      assert TaskStep(s, t, id);
    } else {
      var waiting := set id | id in s.tasks && !Finished(s.tasks[id]);
      assert forall id :: id in waiting ==> TaskInv(s, id) && s.tasks[id].held < |s.tasks[id].plan|;
      var top := HighestAwaited(s, waiting, unfinished);
      forall o | o in s.tasks && !Finished(s.tasks[o])
        ensures s.tasks[o].held < |s.tasks[o].plan| && Awaited(s, o) <= Awaited(s, top)
      {
        assert o in waiting;
      }
      var id;
      id, t := AllWaitingCanStep(s, top);
      assert TaskStep(s, t, id);
    }
  }

  function Work(task: Task): int {
    if task.releasing then task.held
    else |task.plan| + 1 + 2 * (|task.plan| - task.held) - if task.waiting then 1 else 0
  }

  ghost function Sum(tasks: map<TaskId, Task>, ids: set<TaskId>): int
    requires ids <= tasks.Keys
  {
    if ids == {} then 0
    else var id :| id in ids; Work(tasks[id]) + Sum(tasks, ids - {id})
  }

  lemma {:induction false} SumWithout(tasks: map<TaskId, Task>, ids: set<TaskId>, id: TaskId)
    requires id in ids && ids <= tasks.Keys
    ensures Sum(tasks, ids) == Work(tasks[id]) + Sum(tasks, ids - {id})
    decreases ids
  {
    var first :| first in ids && Sum(tasks, ids) == Work(tasks[first]) + Sum(tasks, ids - {first});
    hide Sum;
    if first != id {
      assert ids - {first} - {id} == ids - {id} - {first};
      SumWithout(tasks, ids - {first}, id);
      SumWithout(tasks, ids - {id}, first);
    }
  }

  lemma {:induction false} SumSame(one: map<TaskId, Task>, two: map<TaskId, Task>, ids: set<TaskId>)
    requires ids <= one.Keys && ids <= two.Keys && forall id :: id in ids ==> one[id] == two[id]
    ensures Sum(one, ids) == Sum(two, ids)
    decreases ids
  {
    if ids != {} {
      var id :| id in ids;
      SumWithout(one, ids, id);
      SumWithout(two, ids, id);
      SumSame(one, two, ids - {id});
    }
  }

  /** Every step is one unit of work, so a run ends, and where it cannot go on every task has
      finished. */
  lemma StepIsWork(s: State, t: State)
    requires Inv(s) && Step(s, t)
    ensures t.tasks.Keys == s.tasks.Keys && Sum(t.tasks, t.tasks.Keys) == Sum(s.tasks, s.tasks.Keys) - 1
  {
    hide Inv, TaskStep, Sum, Work;
    var id :| TaskStep(s, t, id);
    OneUnit(s, t, id);
    SumWithout(s.tasks, s.tasks.Keys, id);
    SumWithout(t.tasks, t.tasks.Keys, id);
    SumSame(s.tasks, t.tasks, s.tasks.Keys - {id});
  }

  lemma OneUnit(s: State, t: State, id: TaskId)
    requires Inv(s) && TaskStep(s, t, id)
    ensures id in s.tasks && t.tasks.Keys == s.tasks.Keys
    ensures Work(t.tasks[id]) == Work(s.tasks[id]) - 1
    ensures forall o :: o in s.tasks && o != id ==> t.tasks[o] == s.tasks[o]
  {
    hide AtKey, CallOwned, TailResolved, Ordered, TicketOf;
    assert TaskInv(s, id);
  }

  lemma {:induction false} WorkIsNatural(s: State, ids: set<TaskId>)
    requires Inv(s) && ids <= s.tasks.Keys
    ensures Sum(s.tasks, ids) >= 0
    decreases ids
  {
    hide AtKey, CallOwned, Ordered;
    if ids != {} {
      var id :| id in ids;
      SumWithout(s.tasks, ids, id);
      assert TaskInv(s, id);
      WorkIsNatural(s, ids - {id});
    }
  }

  /** A run is never longer than the work its tasks set out with. */
  lemma {:induction false} RunsAreBounded(run: seq<State>)
    requires IsRun(run)
    ensures run[|run| - 1].tasks.Keys == run[0].tasks.Keys
    ensures Sum(run[|run| - 1].tasks, run[0].tasks.Keys) == Sum(run[0].tasks, run[0].tasks.Keys) - (|run| - 1)
    ensures |run| - 1 <= Sum(run[0].tasks, run[0].tasks.Keys)
  {
    hide Inv, TaskStep, Init, Sum;
    RunKeepsInv(run);
    if |run| > 1 {
      var prefix := run[..|run| - 1];
      forall i | 0 <= i < |prefix| - 1
        ensures Step(prefix[i], prefix[i + 1])
      {
        assert Step(run[i], run[i + 1]);
      }
      RunsAreBounded(prefix);
      RunKeepsInv(prefix);
      var k := |run| - 2;
      assert Step(run[k], run[k + 1]);
      StepIsWork(run[k], run[k + 1]);
    }
    WorkIsNatural(run[|run| - 1], run[0].tasks.Keys);
  }
}
