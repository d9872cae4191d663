/**
 The worker pool of framework/event/event_bus.go as a step system: publishers inside `dispatchToHandler`,
 workers, fallback goroutines, the outbox poller and one call of `StopWorkerPool` take steps in any order.
 A step is a critical section, a channel operation, a wait-group operation or an atomic update.

 A task is one handler dispatch, known by its position in `tasks`. The wait groups and the three event
 counters are integers that the steps change as the code does; `fault` records a send on the closed queue,
 a second close, a counter below zero, or an `Add` that races with, or comes after, the final `Wait`.
 */
module EventPool {

  datatype Policy = Block | FallBack | Discard | Other

  datatype Config = Config(policy: Policy, capacity: nat, size: nat) {
    predicate Valid() {
      capacity > 0 && size > 0
    }
  }

  datatype Place =
    | Pending                   // an earlier handler of the same dispatch is still being handed over
    | Registered                // captured the pool and was added to `publishers`
    | Sending                   // saw `accepting`
    | Unsent                    // found the queue full; needs a fallback goroutine
    | Queued
    | InWorker
    | InFallback
    | Rejected(counted: bool)   // will not run; `counted` in `discardedEvents` or not yet
    | Executed
    | Discarded

  /** Where the owner of a task is in `finishListener`. */
  datatype Finish = NotYet | Lookup | Decrement | Delete | Complete | Finished

  /** The `dispatchToHandler` call of a task: not counted in `publishers`, counted, or over. */
  datatype Side = Outside | Inside | Returned

  /**
   `first`: no earlier handler in the same dispatch. `poller`: dispatched by the outbox poller. `inPool`: found the pool
   and was let in.
   */
  datatype Task = Task(oid: nat, first: bool, poller: bool, inPool: bool, place: Place, fin: Finish, side: Side)

  /** How far `StopWorkerPool` has come. */
  datatype Stop = NotCalled | Captured | Refusing | PollerStopped | Drained | Closed | WorkersDone | Stopped

  datatype State = State(
    tasks: seq<Task>,
    queue: seq<nat>,
    closed: bool,
    accepting: bool,
    current: bool,            // `currentPool` is this pool
    stop: Stop,
    publishers: int,
    fallbacks: int,
    workers: int,             // wait group of the workers
    idle: int,                // workers waiting to receive
    cells: map<nat, int>,     // the counters that the entries of `outboxCounters` point to
    entries: set<nat>,        // keys of `outboxCounters`
    started: map<nat, nat>,   // dispatches per outbox id
    completed: map<nat, nat>, // calls of `completeOutboxEvent` per outbox id
    dispatched: int,
    executed: int,
    discarded: int,
    fault: bool)

  function Init(c: Config): State {
    State([], [], false, true, true, NotCalled, 0, 0, c.size, c.size, map[], {}, map[], map[], 0, 0, 0, false)
  }

  datatype Action =
    | Dispatch(n: nat, oid: nat, poller: bool)
    | Enter(i: nat)
    | CheckAccepting(i: nat)
    | Send(i: nat)
    | StartFallback(i: nat)
    | CountDiscard(i: nat)
    | BeginFinish(i: nat)
    | FinishStep(i: nat)
    | Release(i: nat)
    | Leave(i: nat)
    | Receive
    | WorkerExit
    | StopStep

  function Get<K>(m: map<K, nat>, k: K): nat {
    if k in m then m[k] else 0
  }

  predicate StopBefore(s: Stop, what: Stop) {
    StopRank(s) > StopRank(what)
  }

  function StopRank(s: Stop): nat {
    match s
    case NotCalled => 7 case Captured => 6 case Refusing => 5 case PollerStopped => 4
    case Drained => 3 case Closed => 2 case WorkersDone => 1 case Stopped => 0
  }

  // ---------------------------------------------------------------------------------------------
  // Counting tasks.

  datatype Kind =
    | KEntered | KInside | KHeld | KQueued | KWorker | KFallback | KExecuted | KCounted
    | KOpen(oid: nat) | KDelete(oid: nat) | KComplete(oid: nat)

  predicate Is(k: Kind, t: Task) {
    match k
    case KEntered => !t.place.Pending?
    case KInside => t.side.Inside?
    case KHeld => t.place.Registered? || t.place.Sending? || t.place.Unsent? || t.place == Rejected(false)
    case KQueued => t.place.Queued?
    case KWorker => t.place.InWorker?
    case KFallback => t.place.InFallback?
    case KExecuted => t.place.Executed?
    case KCounted => t.place == Rejected(true) || t.place.Discarded?
    case KOpen(oid) => t.oid == oid && (t.fin.NotYet? || t.fin.Lookup? || t.fin.Decrement?)
    case KDelete(oid) => t.oid == oid && t.fin.Delete?
    case KComplete(oid) => t.oid == oid && t.fin.Complete?
  }

  function One(b: bool): nat {
    if b then 1 else 0
  }

  function Count(k: Kind, ts: seq<Task>): nat {
    CountTo(k, ts, |ts|)
  }

  function CountTo(k: Kind, ts: seq<Task>, n: nat): nat
    requires n <= |ts|
  {
    if n == 0 then 0 else CountTo(k, ts, n - 1) + One(Is(k, ts[n - 1]))
  }

  lemma {:induction false} CountToSame(k: Kind, ts: seq<Task>, us: seq<Task>, n: nat)
    requires n <= |ts| && n <= |us| && ts[..n] == us[..n]
    ensures CountTo(k, ts, n) == CountTo(k, us, n)
  {
    if n > 0 {
      assert ts[..n - 1] == ts[..n][..n - 1] == us[..n - 1];
      assert ts[n - 1] == ts[..n][n - 1] == us[n - 1];
      CountToSame(k, ts, us, n - 1);
    }
  }

  lemma {:induction false} CountUpdateTo(k: Kind, ts: seq<Task>, i: nat, t: Task, n: nat)
    requires i < n <= |ts|
    ensures CountTo(k, ts[i := t], n) == CountTo(k, ts, n) - One(Is(k, ts[i])) + One(Is(k, t))
  {
    if i < n - 1 {
      CountUpdateTo(k, ts, i, t, n - 1);
    } else {
      CountToSame(k, ts, ts[i := t], i);
    }
  }

  lemma CountUpdate(k: Kind, ts: seq<Task>, i: nat, t: Task)
    requires i < |ts|
    ensures Count(k, ts[i := t]) == Count(k, ts) - One(Is(k, ts[i])) + One(Is(k, t))
  {
    CountUpdateTo(k, ts, i, t, |ts|);
  }

  lemma {:induction false} CountSeesTo(k: Kind, ts: seq<Task>, i: nat, n: nat)
    requires i < n <= |ts| && Is(k, ts[i])
    ensures CountTo(k, ts, n) > 0
  {
    if i < n - 1 {
      CountSeesTo(k, ts, i, n - 1);
    }
  }

  lemma CountSees(k: Kind, ts: seq<Task>, i: nat)
    requires i < |ts| && Is(k, ts[i])
    ensures Count(k, ts) > 0
  {
    CountSeesTo(k, ts, i, |ts|);
  }

  lemma {:induction false} CountFindsTo(k: Kind, ts: seq<Task>, n: nat) returns (i: nat)
    requires n <= |ts| && CountTo(k, ts, n) > 0
    ensures i < n && Is(k, ts[i])
  {
    if Is(k, ts[n - 1]) {
      i := n - 1;
    } else {
      i := CountFindsTo(k, ts, n - 1);
    }
  }

  lemma CountFinds(k: Kind, ts: seq<Task>) returns (i: nat)
    requires Count(k, ts) > 0
    ensures i < |ts| && Is(k, ts[i])
  {
    i := CountFindsTo(k, ts, |ts|);
  }

  // ---------------------------------------------------------------------------------------------
  // Steps.

  predicate InFlight(s: State, oid: nat) {
    Count(KOpen(oid), s.tasks) + Count(KDelete(oid), s.tasks) + Count(KComplete(oid), s.tasks) > 0
  }

  /** The publisher has nothing left to do for it. */
  predicate HandedOver(p: Place) {
    p.Queued? || p.InWorker? || p.InFallback? || p.Executed? || p.Discarded?
  }

  predicate Enabled(c: Config, s: State, a: Action) {
    match a
    case Dispatch(n, oid, poller) =>
      // an outbox id is not dispatched again while in flight; the poller stops dispatching when stopped
      && (oid > 0 ==> !InFlight(s, oid))
      && (poller ==> StopBefore(s.stop, PollerStopped))
    case Enter(i) =>
      && i < |s.tasks| && s.tasks[i].place.Pending?
      && (s.tasks[i].first || (i > 0 && s.tasks[i - 1].side.Returned?))
    case CheckAccepting(i) => i < |s.tasks| && s.tasks[i].place.Registered?
    case Send(i) =>
      && i < |s.tasks| && s.tasks[i].place.Sending?
      && (c.policy.Block? ==> s.closed || |s.queue| < c.capacity)
    case StartFallback(i) => i < |s.tasks| && s.tasks[i].place.Unsent?
    case CountDiscard(i) =>
      && i < |s.tasks| && s.tasks[i].place == Rejected(false)
      && s.tasks[i].fin == if s.tasks[i].side.Outside? then NotYet else Finished
    case BeginFinish(i) =>
      && i < |s.tasks| && s.tasks[i].fin.NotYet?
      && (s.tasks[i].place.InWorker? || s.tasks[i].place.InFallback?
          || s.tasks[i].place == Rejected(s.tasks[i].side.Outside?))
    case FinishStep(i) => i < |s.tasks| && !s.tasks[i].fin.NotYet? && !s.tasks[i].fin.Finished?
    case Release(i) =>
      && i < |s.tasks| && s.tasks[i].fin.Finished?
      && (s.tasks[i].place.InWorker? || s.tasks[i].place.InFallback? || s.tasks[i].place == Rejected(true))
    case Leave(i) =>
      && i < |s.tasks| && s.tasks[i].side.Inside?
      && HandedOver(s.tasks[i].place)
    case Receive => s.idle > 0 && s.queue != []
    case WorkerExit => s.idle > 0 && s.queue == [] && s.closed
    case StopStep =>
      match s.stop
      case NotCalled => true
      case Captured => true
      case Refusing => forall i | 0 <= i < |s.tasks| && s.tasks[i].poller :: s.tasks[i].side.Returned?
      case PollerStopped => s.publishers == 0
      case Drained => true
      case Closed => s.workers == 0
      case WorkersDone => s.fallbacks == 0
      case Stopped => false
  }

  /** The queue element at the head, which `Receive` takes; guarded so that it is total. */
  predicate HeadInRange(s: State) {
    s.queue != [] ==> s.queue[0] < |s.tasks|
  }

  function NewTasks(n: nat, oid: nat, poller: bool): (ts: seq<Task>)
    ensures |ts| == n
  {
    if n == 0 then []
    else NewTasks(n - 1, oid, poller) + [Task(oid, n == 1, poller, false, Pending, NotYet, Outside)]
  }

  function Put(s: State, i: nat, t: Task): State
    requires i < |s.tasks|
  {
    s.(tasks := s.tasks[i := t])
  }

  function Next(c: Config, s: State, a: Action): State
    requires Enabled(c, s, a) && HeadInRange(s)
  {
    match a
    case Dispatch(n, oid, poller) => NextDispatch(s, n, oid, poller)
    case Enter(i) => NextEnter(s, i)
    case CheckAccepting(i) => NextCheck(c, s, i)
    case Send(i) => NextSend(c, s, i)
    case StartFallback(i) => GoFallback(s, i)
    case CountDiscard(i) => NextDiscard(s, i)
    case BeginFinish(i) => NextBegin(s, i)
    case FinishStep(i) => NextFinish(s, i)
    case Release(i) => NextRelease(s, i)
    case Leave(i) => NextLeave(s, i)
    case Receive => NextReceive(s)
    case WorkerExit => s.(idle := s.idle - 1, workers := s.workers - 1, fault := s.fault || s.workers <= 0)
    case StopStep => NextStop(s)
  }

  /** The section of `dispatchToHandler` under `poolMu`. */
  function NextEnter(s: State, i: nat): State
    requires i < |s.tasks|
  {
    var t := s.tasks[i];
    if s.current then
      Put(s, i, t.(place := Registered, side := Inside, inPool := true))
      .(publishers := s.publishers + 1, dispatched := s.dispatched + 1,
        fault := s.fault || !StopBefore(s.stop, PollerStopped))
    else Put(s, i, t.(place := Rejected(false))).(dispatched := s.dispatched + 1)
  }

  /** The section of `dispatchWithPool` and `dispatchStoppingPool` under `pool.mu`. */
  function NextCheck(c: Config, s: State, i: nat): State
    requires i < |s.tasks|
  {
    if s.accepting then Put(s, i, s.tasks[i].(place := Sending))
    else if c.policy.Discard? then Put(s, i, s.tasks[i].(place := Rejected(false)))
    else GoFallback(s, i)
  }

  /** The channel operation of `dispatchAcceptingPool`. */
  function NextSend(c: Config, s: State, i: nat): State
    requires i < |s.tasks|
  {
    var place := SendPlace(c, s);
    if s.closed && !c.policy.Other? then s.(fault := true)
    else s.(tasks := s.tasks[i := s.tasks[i].(place := place)],
            queue := if place.Queued? then s.queue + [i] else s.queue)
  }

  /** Where a task goes from an open queue; a policy with an unknown name sends nothing. */
  function SendPlace(c: Config, s: State): Place {
    if c.policy.Other? then Unsent
    else if |s.queue| < c.capacity then Queued
    else if c.policy.Discard? then Rejected(false)
    else Unsent
  }

  function NextDiscard(s: State, i: nat): State
    requires i < |s.tasks|
  {
    Put(s, i, s.tasks[i].(place := Rejected(true))).(discarded := s.discarded + 1)
  }

  function NextBegin(s: State, i: nat): State
    requires i < |s.tasks|
  {
    Put(s, i, s.tasks[i].(fin := Lookup))
  }

  /** The owner of a task is done with it. */
  function NextRelease(s: State, i: nat): State
    requires i < |s.tasks|
  {
    var t := s.tasks[i];
    var ran := !t.place.Rejected?;
    s.(tasks := s.tasks[i := t.(place := if ran then Executed else Discarded,
                                side := if !ran && t.side.Outside? then Returned else t.side)],
       executed := s.executed + One(ran),
       idle := s.idle + One(t.place.InWorker?),
       fallbacks := s.fallbacks - One(t.place.InFallback?),
       fault := s.fault || (t.place.InFallback? && s.fallbacks <= 0))
  }

  /** `publishers.Done()`. */
  function NextLeave(s: State, i: nat): State
    requires i < |s.tasks|
  {
    Put(s, i, s.tasks[i].(side := Returned))
    .(publishers := s.publishers - 1, fault := s.fault || s.publishers <= 0)
  }

  function NextReceive(s: State): State
    requires s.queue != [] && s.queue[0] < |s.tasks|
  {
    Put(s, s.queue[0], s.tasks[s.queue[0]].(place := InWorker)).(queue := s.queue[1..], idle := s.idle - 1)
  }

  /** The next step of `StopWorkerPool`. */
  function NextStop(s: State): State
    requires !s.stop.Stopped?
  {
    s.(stop := StopAfter(s.stop),
       current := s.current && !s.stop.NotCalled?,
       accepting := s.accepting && !s.stop.Captured?,
       closed := s.closed || s.stop.Drained?,
       fault := s.fault || (s.stop.Drained? && s.closed))
  }

  function StopAfter(stop: Stop): Stop
    requires !stop.Stopped?
  {
    match stop
    case NotCalled => Captured case Captured => Refusing case Refusing => PollerStopped
    case PollerStopped => Drained case Drained => Closed case Closed => WorkersDone case WorkersDone => Stopped
  }

  /** `dispatch`: no listener completes the outbox row at once; otherwise the counter is set first. */
  function NextDispatch(s: State, n: nat, oid: nat, poller: bool): State {
    s.(tasks := s.tasks + NewTasks(n, oid, poller),
       started := if oid == 0 then s.started else s.started[oid := Get(s.started, oid) + 1],
       completed := if oid == 0 || n > 0 then s.completed else s.completed[oid := Get(s.completed, oid) + 1],
       cells := if oid == 0 || n == 0 then s.cells else s.cells[oid := n],
       entries := if oid == 0 || n == 0 then s.entries else s.entries + {oid})
  }

  /** `fallbacks.Add(1)` and the `go` statement. */
  function GoFallback(s: State, i: nat): State
    requires i < |s.tasks|
  {
    Put(s, i, s.tasks[i].(place := InFallback))
    .(fallbacks := s.fallbacks + 1, fault := s.fault || !StopBefore(s.stop, WorkersDone))
  }

  /** One step of `finishListener`: look the counter up, decrement it, delete the entry, complete the row. */
  function NextFinish(s: State, i: nat): State
    requires i < |s.tasks|
  {
    var t := s.tasks[i];
    var oid := t.oid;
    s.(tasks := s.tasks[i := t.(fin := FinishAfter(s, t))],
       cells := if t.fin.Decrement? then s.cells[oid := Cell(s, oid) - 1] else s.cells,
       entries := if t.fin.Delete? then s.entries - {oid} else s.entries,
       completed := if t.fin.Complete? then s.completed[oid := Get(s.completed, oid) + 1] else s.completed)
  }

  function Cell(s: State, oid: nat): int {
    if oid in s.cells then s.cells[oid] else 0
  }

  function FinishAfter(s: State, t: Task): Finish {
    match t.fin
    case Lookup => if t.oid != 0 && t.oid in s.entries then Decrement else Finished
    case Decrement => if Cell(s, t.oid) - 1 <= 0 then Delete else Finished
    case Delete => Complete
    case _ => Finished
  }

  // ---------------------------------------------------------------------------------------------
  // What every reachable state satisfies.

  predicate TaskOk(t: Task) {
    match t.place
    case Pending => t.side.Outside? && t.fin.NotYet?
    case Registered => t.side.Inside? && t.fin.NotYet?
    case Sending => t.side.Inside? && t.fin.NotYet?
    case Unsent => t.side.Inside? && t.fin.NotYet?
    case Queued => !t.side.Outside? && t.fin.NotYet?
    case InWorker => !t.side.Outside?
    case InFallback => !t.side.Outside?
    case Rejected(counted) =>
      && !t.side.Returned?
      && (t.side.Outside? && !t.fin.NotYet? ==> counted)
      && (t.side.Inside? && counted ==> t.fin.Finished?)
    case Executed => !t.side.Outside? && t.fin.Finished?
    case Discarded => !t.side.Outside? && t.fin.Finished?
  }

  ghost predicate TasksOk(s: State) {
    && (forall i | 0 <= i < |s.tasks| :: TaskOk(s.tasks[i]))
    && (s.tasks != [] ==> s.tasks[0].first)
  }

  ghost predicate QueueOk(c: Config, s: State) {
    && |s.queue| <= c.capacity
    && |s.queue| == Count(KQueued, s.tasks)
    && (forall j | 0 <= j < |s.queue| :: s.queue[j] < |s.tasks| && s.tasks[s.queue[j]].place.Queued?)
    && (forall j, k | 0 <= j < k < |s.queue| :: s.queue[j] != s.queue[k])
  }

  ghost predicate CountsOk(c: Config, s: State) {
    && s.publishers == Count(KInside, s.tasks)
    && s.fallbacks == Count(KFallback, s.tasks)
    && s.workers <= c.size && s.idle >= 0
    && s.workers == s.idle + Count(KWorker, s.tasks)
    && s.dispatched == Count(KEntered, s.tasks)
    && s.executed == Count(KExecuted, s.tasks)
    && s.discarded == Count(KCounted, s.tasks)
  }

  ghost predicate StopOk(c: Config, s: State) {
    && (s.current <==> s.stop.NotCalled?)
    && (s.accepting <==> StopBefore(s.stop, Refusing))
    && (s.closed <==> !StopBefore(s.stop, Closed))
    && (!StopBefore(s.stop, Drained) ==> s.publishers == 0)
    && (s.workers < c.size ==> s.closed && s.queue == [])
    && (!StopBefore(s.stop, WorkersDone) ==> s.workers == 0)
    && (s.stop.Stopped? ==> s.fallbacks == 0)
  }

  ghost predicate OutboxOk(s: State, oid: nat) {
    var open, del, comp := Count(KOpen(oid), s.tasks), Count(KDelete(oid), s.tasks), Count(KComplete(oid), s.tasks);
    && (open > 0 ==> oid in s.cells && s.cells[oid] == open && del + comp == 0)
    && del + comp <= 1
    && (oid in s.entries <==> open + del > 0)
    && Get(s.started, oid) == Get(s.completed, oid) + One(InFlight(s, oid))
  }

  ghost predicate OutboxesOk(s: State) {
    forall oid: nat | oid > 0 :: OutboxOk(s, oid)
  }

  ghost predicate Inv(c: Config, s: State): (ok: bool)
    ensures ok ==> HeadInRange(s)
  {
    && !s.fault
    && TasksOk(s)
    && QueueOk(c, s)
    && CountsOk(c, s)
    && StopOk(c, s)
    && OutboxesOk(s)
  }

  lemma InitInv(c: Config)
    requires c.Valid()
    ensures Inv(c, Init(c))
  {
  }

  /** The state changes at one task, and every counter by what that change calls for. */
  ghost predicate Moved(s: State, i: nat, s': State) {
    && i < |s.tasks|
    && |s'.tasks| == |s.tasks|
    && var u, t := s.tasks[i], s'.tasks[i];
    && s'.tasks == s.tasks[i := t]
    && t.oid == u.oid && t.first == u.first && TaskOk(t)
    && s'.publishers == s.publishers - One(u.side.Inside?) + One(t.side.Inside?)
    && s'.fallbacks == s.fallbacks - One(u.place.InFallback?) + One(t.place.InFallback?)
    && s'.idle == s.idle + One(u.place.InWorker?) - One(t.place.InWorker?)
    && s'.dispatched == s.dispatched + One(u.place.Pending? && !t.place.Pending?)
    && s'.executed == s.executed + One(!u.place.Executed? && t.place.Executed?)
    && s'.discarded == s.discarded - One(Is(KCounted, u)) + One(Is(KCounted, t))
    && (t.place.Pending? ==> u.place.Pending?) && (u.place.Executed? ==> t.place.Executed?)
    && s'.workers == s.workers && s'.idle >= 0
  }

  lemma MovedCounts(c: Config, s: State, i: nat, s': State)
    requires CountsOk(c, s) && TasksOk(s) && Moved(s, i, s')
    ensures CountsOk(c, s') && TasksOk(s')
  {
    CountUpdate(KEntered, s.tasks, i, s'.tasks[i]);
    CountUpdate(KInside, s.tasks, i, s'.tasks[i]);
    CountUpdate(KWorker, s.tasks, i, s'.tasks[i]);
    CountUpdate(KFallback, s.tasks, i, s'.tasks[i]);
    CountUpdate(KExecuted, s.tasks, i, s'.tasks[i]);
    CountUpdate(KCounted, s.tasks, i, s'.tasks[i]);
  }

  /** A task that is in the queue both before and after, or neither, leaves the queue's invariant alone. */
  lemma MovedQueue(c: Config, s: State, i: nat, s': State)
    requires QueueOk(c, s) && Moved(s, i, s')
    requires s'.queue == s.queue && (s.tasks[i].place.Queued? <==> s'.tasks[i].place.Queued?)
    ensures QueueOk(c, s')
  {
    CountUpdate(KQueued, s.tasks, i, s'.tasks[i]);
  }

  /** A move outside `finishListener` leaves the outbox bookkeeping alone. */
  lemma MovedOutbox(s: State, i: nat, s': State)
    requires OutboxesOk(s) && Moved(s, i, s') && s'.tasks[i].fin == s.tasks[i].fin
    requires s'.cells == s.cells && s'.entries == s.entries && s'.started == s.started && s'.completed == s.completed
    ensures OutboxesOk(s')
  {
    forall oid: nat | oid > 0 ensures OutboxOk(s', oid) {
      assert OutboxOk(s, oid);
      CountUpdate(KOpen(oid), s.tasks, i, s'.tasks[i]);
      CountUpdate(KDelete(oid), s.tasks, i, s'.tasks[i]);
      CountUpdate(KComplete(oid), s.tasks, i, s'.tasks[i]);
    }
  }

  /** Somebody holds the pool's `publishers` group, so the queue is open and may still be sent to. */
  lemma InsideMeansOpen(c: Config, s: State, i: nat)
    requires CountsOk(c, s) && StopOk(c, s) && i < |s.tasks| && s.tasks[i].side.Inside?
    ensures s.publishers > 0 && !s.closed && StopBefore(s.stop, Drained)
  {
    CountSees(KInside, s.tasks, i);
  }

  lemma DispatchCounts(s: State, n: nat, oid: nat, poller: bool, k: Kind)
    ensures Count(k, NextDispatch(s, n, oid, poller).tasks) == Count(k, s.tasks) + if k == KOpen(oid) then n else 0
  {
    NewTasksCount(k, s.tasks, n, oid, poller, n);
  }

  /** The bookkeeping of an outbox id depends only on its own counter, entry, totals and task counts. */
  lemma OutboxFrame(s: State, s': State, oid: nat)
    requires OutboxOk(s, oid)
    requires Count(KOpen(oid), s'.tasks) == Count(KOpen(oid), s.tasks)
    requires Count(KDelete(oid), s'.tasks) == Count(KDelete(oid), s.tasks)
    requires Count(KComplete(oid), s'.tasks) == Count(KComplete(oid), s.tasks)
    requires oid in s'.entries <==> oid in s.entries
    requires oid in s.cells ==> oid in s'.cells && s'.cells[oid] == s.cells[oid]
    requires Get(s'.started, oid) == Get(s.started, oid) && Get(s'.completed, oid) == Get(s.completed, oid)
    ensures OutboxOk(s', oid)
  {
  }

  lemma DispatchOwnOutbox(s: State, n: nat, oid: nat, poller: bool)
    requires oid > 0 && OutboxOk(s, oid) && !InFlight(s, oid)
    ensures OutboxOk(NextDispatch(s, n, oid, poller), oid)
  {
    DispatchCounts(s, n, oid, poller, KOpen(oid));
    DispatchCounts(s, n, oid, poller, KDelete(oid));
    DispatchCounts(s, n, oid, poller, KComplete(oid));
  }

  lemma DispatchOtherOutbox(s: State, n: nat, oid: nat, poller: bool, id: nat)
    requires id > 0 && OutboxOk(s, id) && oid != id
    ensures OutboxOk(NextDispatch(s, n, oid, poller), id)
  {
    DispatchCounts(s, n, oid, poller, KOpen(id));
    DispatchCounts(s, n, oid, poller, KDelete(id));
    DispatchCounts(s, n, oid, poller, KComplete(id));
    OutboxFrame(s, NextDispatch(s, n, oid, poller), id);
  }

  lemma DispatchRest(c: Config, s: State, n: nat, oid: nat, poller: bool)
    requires QueueOk(c, s) && CountsOk(c, s)
    ensures QueueOk(c, NextDispatch(s, n, oid, poller)) && CountsOk(c, NextDispatch(s, n, oid, poller))
  {
    DispatchCounts(s, n, oid, poller, KEntered);
    DispatchCounts(s, n, oid, poller, KInside);
    DispatchCounts(s, n, oid, poller, KQueued);
    DispatchCounts(s, n, oid, poller, KWorker);
    DispatchCounts(s, n, oid, poller, KFallback);
    DispatchCounts(s, n, oid, poller, KExecuted);
    DispatchCounts(s, n, oid, poller, KCounted);
  }

  lemma DispatchTasks(s: State, n: nat, oid: nat, poller: bool)
    requires TasksOk(s)
    ensures TasksOk(NextDispatch(s, n, oid, poller))
  {
    NewTasksAre(n, oid, poller);
  }

  lemma DispatchInv(c: Config, s: State, n: nat, oid: nat, poller: bool)
    requires Inv(c, s) && Enabled(c, s, Dispatch(n, oid, poller))
    ensures Inv(c, NextDispatch(s, n, oid, poller))
  {
    var s' := NextDispatch(s, n, oid, poller);
    DispatchTasks(s, n, oid, poller);
    DispatchRest(c, s, n, oid, poller);
    forall id: nat | id > 0 ensures OutboxOk(s', id) {
      assert OutboxOk(s, id);
      if id == oid {
        DispatchOwnOutbox(s, n, oid, poller);
      } else {
        DispatchOtherOutbox(s, n, oid, poller, id);
      }
    }
  }

  lemma {:induction false} NewTasksAre(n: nat, oid: nat, poller: bool)
    ensures forall i | 0 <= i < n ::
      NewTasks(n, oid, poller)[i] == Task(oid, i == 0, poller, false, Pending, NotYet, Outside)
  {
    if n > 0 {
      NewTasksAre(n - 1, oid, poller);
    }
  }

  lemma {:induction false} NewTasksCount(k: Kind, ts: seq<Task>, n: nat, oid: nat, poller: bool, m: nat)
    requires m <= n
    ensures CountTo(k, ts + NewTasks(n, oid, poller), |ts| + m) == Count(k, ts) + if k == KOpen(oid) then m else 0
  {
    if m == 0 {
      CountToSame(k, ts, ts + NewTasks(n, oid, poller), |ts|);
    } else {
      NewTasksAre(n, oid, poller);
      NewTasksCount(k, ts, n, oid, poller, m - 1);
    }
  }

  /** A move outside the queue and outside `finishListener` keeps the invariant if it keeps the stop order. */
  lemma MovedInv(c: Config, s: State, i: nat, s': State)
    requires Inv(c, s) && Moved(s, i, s') && !s'.fault && StopOk(c, s')
    requires s'.queue == s.queue && (s.tasks[i].place.Queued? <==> s'.tasks[i].place.Queued?)
    requires s'.tasks[i].fin == s.tasks[i].fin
    requires s'.cells == s.cells && s'.entries == s.entries && s'.started == s.started && s'.completed == s.completed
    ensures Inv(c, s')
  {
    MovedCounts(c, s, i, s');
    MovedQueue(c, s, i, s');
    MovedOutbox(s, i, s');
  }

  lemma EnterPoolInv(c: Config, s: State, i: nat)
    requires Inv(c, s) && i < |s.tasks| && s.tasks[i].place.Pending? && s.current
    ensures Inv(c, NextEnter(s, i))
  {
    hide QueueOk, OutboxesOk, Count;
    assert TaskOk(s.tasks[i]);
    MovedInv(c, s, i, NextEnter(s, i));
  }

  lemma TurnedAwayInv(c: Config, s: State, i: nat)
    requires Inv(c, s) && i < |s.tasks| && s.tasks[i].place.Pending? && !s.current
    ensures Inv(c, NextEnter(s, i))
  {
    hide QueueOk, OutboxesOk, Count;
    assert TaskOk(s.tasks[i]);
    MovedInv(c, s, i, NextEnter(s, i));
  }

  lemma EnterInv(c: Config, s: State, i: nat)
    requires Inv(c, s) && Enabled(c, s, Enter(i))
    ensures Inv(c, NextEnter(s, i))
  {
    hide Inv, NextEnter;
    if s.current {
      EnterPoolInv(c, s, i);
    } else {
      TurnedAwayInv(c, s, i);
    }
  }

  lemma FallbackInv(c: Config, s: State, i: nat)
    requires Inv(c, s) && i < |s.tasks| && (s.tasks[i].place.Registered? || s.tasks[i].place.Unsent?)
    ensures Inv(c, GoFallback(s, i))
  {
    hide QueueOk, OutboxesOk, Count;
    InsideMeansOpen(c, s, i);
    MovedInv(c, s, i, GoFallback(s, i));
  }

  lemma StartFallbackInv(c: Config, s: State, i: nat)
    requires Inv(c, s) && Enabled(c, s, StartFallback(i))
    ensures Inv(c, GoFallback(s, i))
  {
    hide Inv;
    FallbackInv(c, s, i);
  }

  lemma CheckAcceptingInv(c: Config, s: State, i: nat)
    requires Inv(c, s) && Enabled(c, s, CheckAccepting(i))
    ensures Inv(c, NextCheck(c, s, i))
  {
    hide QueueOk, OutboxesOk, Count;
    if !s.accepting && !c.policy.Discard? {
      FallbackInv(c, s, i);
    } else {
      MovedInv(c, s, i, NextCheck(c, s, i));
    }
  }

  lemma EnqueueInv(c: Config, s: State, i: nat, s': State)
    requires Inv(c, s) && i < |s.tasks| && s.tasks[i].place.Sending? && |s.queue| < c.capacity
    requires s' == Put(s, i, s.tasks[i].(place := Queued)).(queue := s.queue + [i])
    ensures Inv(c, s')
  {
    hide OutboxesOk;
    InsideMeansOpen(c, s, i);
    assert Moved(s, i, s');
    MovedCounts(c, s, i, s');
    MovedOutbox(s, i, s');
    CountUpdate(KQueued, s.tasks, i, s'.tasks[i]);
  }

  lemma NotEnqueuedInv(c: Config, s: State, i: nat, place: Place)
    requires Inv(c, s) && i < |s.tasks| && s.tasks[i].place.Sending? && (place.Unsent? || place == Rejected(false))
    ensures Inv(c, Put(s, i, s.tasks[i].(place := place)))
  {
    hide QueueOk, OutboxesOk, Count;
    MovedInv(c, s, i, Put(s, i, s.tasks[i].(place := place)));
  }

  lemma SendInv(c: Config, s: State, i: nat)
    requires Inv(c, s) && Enabled(c, s, Send(i))
    ensures Inv(c, NextSend(c, s, i))
  {
    hide QueueOk, OutboxesOk;
    InsideMeansOpen(c, s, i);
    if !c.policy.Other? && |s.queue| < c.capacity {
      EnqueueInv(c, s, i, NextSend(c, s, i));
    } else {
      NotEnqueuedInv(c, s, i, if c.policy.Discard? then Rejected(false) else Unsent);
    }
  }

  lemma CountDiscardInv(c: Config, s: State, i: nat)
    requires Inv(c, s) && Enabled(c, s, CountDiscard(i))
    ensures Inv(c, NextDiscard(s, i))
  {
    hide QueueOk, OutboxesOk, Count;
    MovedInv(c, s, i, NextDiscard(s, i));
  }

  lemma ReleaseWorkerInv(c: Config, s: State, i: nat)
    requires Inv(c, s) && Enabled(c, s, Release(i)) && s.tasks[i].place.InWorker?
    ensures Inv(c, NextRelease(s, i))
  {
    hide QueueOk, OutboxesOk, Count;
    CountSees(KWorker, s.tasks, i);
    MovedInv(c, s, i, NextRelease(s, i));
  }

  lemma ReleaseFallbackInv(c: Config, s: State, i: nat)
    requires Inv(c, s) && Enabled(c, s, Release(i)) && s.tasks[i].place.InFallback?
    ensures Inv(c, NextRelease(s, i))
  {
    hide QueueOk, OutboxesOk, Count;
    CountSees(KFallback, s.tasks, i);
    MovedInv(c, s, i, NextRelease(s, i));
  }

  lemma ReleaseDiscardInv(c: Config, s: State, i: nat)
    requires Inv(c, s) && Enabled(c, s, Release(i)) && s.tasks[i].place.Rejected?
    ensures Inv(c, NextRelease(s, i))
  {
    hide QueueOk, OutboxesOk, Count;
    MovedInv(c, s, i, NextRelease(s, i));
  }

  lemma ReleaseInv(c: Config, s: State, i: nat)
    requires Inv(c, s) && Enabled(c, s, Release(i))
    ensures Inv(c, NextRelease(s, i))
  {
    if s.tasks[i].place.InFallback? {
      ReleaseFallbackInv(c, s, i);
    } else if s.tasks[i].place.InWorker? {
      ReleaseWorkerInv(c, s, i);
    } else {
      ReleaseDiscardInv(c, s, i);
    }
  }

  lemma LeaveInv(c: Config, s: State, i: nat)
    requires Inv(c, s) && Enabled(c, s, Leave(i))
    ensures Inv(c, NextLeave(s, i))
  {
    hide QueueOk, OutboxesOk, Count;
    InsideMeansOpen(c, s, i);
    MovedInv(c, s, i, NextLeave(s, i));
  }

  lemma ReceiveQueue(c: Config, s: State)
    requires QueueOk(c, s) && s.queue != []
    ensures QueueOk(c, NextReceive(s))
  {
    CountUpdate(KQueued, s.tasks, s.queue[0], s.tasks[s.queue[0]].(place := InWorker));
  }

  lemma ReceiveInv(c: Config, s: State)
    requires Inv(c, s) && Enabled(c, s, Receive)
    ensures Inv(c, NextReceive(s))
  {
    hide OutboxesOk, Count;
    var s', i := NextReceive(s), s.queue[0];
    assert Moved(s, i, s');
    ReceiveQueue(c, s);
    MovedCounts(c, s, i, s');
    MovedOutbox(s, i, s');
  }

  /** `finishListener` moves a task through its steps; everything but the outbox bookkeeping stays. */
  lemma FinishInv(c: Config, s: State, i: nat, s': State)
    requires Inv(c, s) && i < |s.tasks| && !s.tasks[i].place.Queued?
    requires |s'.tasks| == |s.tasks| && s'.tasks == s.tasks[i := s.tasks[i].(fin := s'.tasks[i].fin)]
    requires TaskOk(s'.tasks[i])
    requires s' == s.(tasks := s'.tasks, cells := s'.cells, entries := s'.entries, completed := s'.completed)
    requires OutboxesOk(s')
    ensures Inv(c, s')
  {
    hide OutboxesOk, Count;
    assert Moved(s, i, s');
    MovedCounts(c, s, i, s');
    MovedQueue(c, s, i, s');
  }

  /** The outbox counts of one id when task `i` becomes `t`. */
  lemma OutboxCounts(s: State, i: nat, t: Task, oid: nat)
    requires i < |s.tasks| && t.oid == s.tasks[i].oid
    ensures
      var u, ts := s.tasks[i], s.tasks[i := t];
      && Count(KOpen(oid), ts) == Count(KOpen(oid), s.tasks) - One(Is(KOpen(oid), u)) + One(Is(KOpen(oid), t))
      && Count(KDelete(oid), ts) == Count(KDelete(oid), s.tasks) - One(Is(KDelete(oid), u)) + One(Is(KDelete(oid), t))
      && Count(KComplete(oid), ts)
        == Count(KComplete(oid), s.tasks) - One(Is(KComplete(oid), u)) + One(Is(KComplete(oid), t))
  {
    CountUpdate(KOpen(oid), s.tasks, i, t);
    CountUpdate(KDelete(oid), s.tasks, i, t);
    CountUpdate(KComplete(oid), s.tasks, i, t);
  }

  lemma BeginFinishOutboxes(s: State, i: nat)
    requires i < |s.tasks| && s.tasks[i].fin.NotYet? && OutboxesOk(s)
    ensures OutboxesOk(NextBegin(s, i))
  {
    hide Count, OutboxOk;
    var s' := NextBegin(s, i);
    forall oid: nat | oid > 0 ensures OutboxOk(s', oid) {
      assert OutboxOk(s, oid);
      OutboxCounts(s, i, s'.tasks[i], oid);
      OutboxFrame(s, s', oid);
    }
  }

  lemma BeginFinishInv(c: Config, s: State, i: nat)
    requires Inv(c, s) && Enabled(c, s, BeginFinish(i))
    ensures Inv(c, NextBegin(s, i))
  {
    hide QueueOk, CountsOk, StopOk, OutboxesOk;
    BeginFinishOutboxes(s, i);
    FinishInv(c, s, i, NextBegin(s, i));
  }

  /** `finishListener` for one id does not touch another id's bookkeeping. */
  lemma OtherOutbox(s: State, i: nat, oid: nat)
    requires i < |s.tasks| && oid > 0 && OutboxOk(s, oid) && s.tasks[i].oid != oid
    requires !s.tasks[i].fin.NotYet? && !s.tasks[i].fin.Finished?
    ensures OutboxOk(NextFinish(s, i), oid)
  {
    OutboxCounts(s, i, NextFinish(s, i).tasks[i], oid);
    OutboxFrame(s, NextFinish(s, i), oid);
  }

  lemma LookupOutbox(s: State, i: nat, oid: nat)
    requires i < |s.tasks| && s.tasks[i].fin.Lookup? && oid == s.tasks[i].oid > 0 && OutboxOk(s, oid)
    ensures OutboxOk(NextFinish(s, i), oid)
  {
    CountSees(KOpen(oid), s.tasks, i);
    OutboxCounts(s, i, NextFinish(s, i).tasks[i], oid);
  }

  lemma DecrementOutbox(s: State, i: nat, oid: nat)
    requires i < |s.tasks| && s.tasks[i].fin.Decrement? && oid == s.tasks[i].oid > 0 && OutboxOk(s, oid)
    ensures OutboxOk(NextFinish(s, i), oid)
  {
    CountSees(KOpen(oid), s.tasks, i);
    OutboxCounts(s, i, NextFinish(s, i).tasks[i], oid);
  }

  lemma DeleteOutbox(s: State, i: nat, oid: nat)
    requires i < |s.tasks| && s.tasks[i].fin.Delete? && oid == s.tasks[i].oid > 0 && OutboxOk(s, oid)
    ensures OutboxOk(NextFinish(s, i), oid)
  {
    CountSees(KDelete(oid), s.tasks, i);
    OutboxCounts(s, i, NextFinish(s, i).tasks[i], oid);
  }

  lemma CompleteOutbox(s: State, i: nat, oid: nat)
    requires i < |s.tasks| && s.tasks[i].fin.Complete? && oid == s.tasks[i].oid > 0 && OutboxOk(s, oid)
    ensures OutboxOk(NextFinish(s, i), oid)
  {
    CountSees(KComplete(oid), s.tasks, i);
    OutboxCounts(s, i, NextFinish(s, i).tasks[i], oid);
  }

  lemma FinishStepOutboxes(s: State, i: nat)
    requires i < |s.tasks| && !s.tasks[i].fin.NotYet? && !s.tasks[i].fin.Finished? && OutboxesOk(s)
    ensures OutboxesOk(NextFinish(s, i))
  {
    forall oid: nat | oid > 0 ensures OutboxOk(NextFinish(s, i), oid) {
      assert OutboxOk(s, oid);
      if s.tasks[i].oid != oid {
        OtherOutbox(s, i, oid);
      } else {
        match s.tasks[i].fin
        case Lookup => LookupOutbox(s, i, oid);
        case Decrement => DecrementOutbox(s, i, oid);
        case Delete => DeleteOutbox(s, i, oid);
        case Complete => CompleteOutbox(s, i, oid);
      }
    }
  }

  lemma FinishStepInv(c: Config, s: State, i: nat)
    requires Inv(c, s) && Enabled(c, s, FinishStep(i))
    ensures Inv(c, NextFinish(s, i))
  {
    hide QueueOk, CountsOk, StopOk, OutboxesOk;
    FinishStepOutboxes(s, i);
    FinishInv(c, s, i, NextFinish(s, i));
  }

  lemma StopInv(c: Config, s: State)
    requires Inv(c, s) && Enabled(c, s, StopStep)
    ensures Inv(c, NextStop(s))
  {
    hide Count, TaskOk, OutboxesOk;
    KeepsOutbox(s, NextStop(s));
  }

  lemma WorkerExitInv(c: Config, s: State)
    requires Inv(c, s) && Enabled(c, s, WorkerExit)
    ensures Inv(c, Next(c, s, WorkerExit))
  {
    hide TaskOk, OutboxesOk;
    KeepsOutbox(s, Next(c, s, WorkerExit));
  }

  /** Every step from a good state leads to a good state. */
  lemma StepInv(c: Config, s: State, a: Action)
    requires Inv(c, s) && Enabled(c, s, a)
    ensures Inv(c, Next(c, s, a))
  {
    hide Inv, Enabled, NextDispatch, NextEnter, NextCheck, NextSend, GoFallback, NextDiscard, NextBegin, NextFinish,
      NextRelease, NextLeave, NextReceive, NextStop;
    match a
    case Enter(i) => EnterInv(c, s, i);
    case CheckAccepting(i) => CheckAcceptingInv(c, s, i);
    case Send(i) => SendInv(c, s, i);
    case StartFallback(i) => StartFallbackInv(c, s, i);
    case CountDiscard(i) => CountDiscardInv(c, s, i);
    case BeginFinish(i) => BeginFinishInv(c, s, i);
    case FinishStep(i) => FinishStepInv(c, s, i);
    case Release(i) => ReleaseInv(c, s, i);
    case Leave(i) => LeaveInv(c, s, i);
    case Dispatch(n, oid, poller) => DispatchInv(c, s, n, oid, poller);
    case Receive => ReceiveInv(c, s);
    case WorkerExit => WorkerExitInv(c, s);
    case StopStep => StopInv(c, s);
  }

  lemma KeepsOutbox(s: State, s': State)
    requires s'.tasks == s.tasks && s'.cells == s.cells && s'.entries == s.entries
    requires s'.started == s.started && s'.completed == s.completed
    requires OutboxesOk(s)
    ensures OutboxesOk(s')
  {
    forall oid: nat | oid > 0 ensures OutboxOk(s', oid) {
      assert OutboxOk(s, oid);
    }
  }

  // ---------------------------------------------------------------------------------------------
  // Runs.

  /** `run` is a sequence of enabled steps from `s`. */
  ghost predicate IsRun(c: Config, s: State, run: seq<Action>)
    requires Inv(c, s)
    decreases |run|
  {
    run == [] || (Enabled(c, s, run[0]) && (StepInv(c, s, run[0]); IsRun(c, Next(c, s, run[0]), run[1..])))
  }

  ghost function After(c: Config, s: State, run: seq<Action>): State
    requires Inv(c, s) && IsRun(c, s, run)
    decreases |run|
  {
    if run == [] then s
    else StepInv(c, s, run[0]); After(c, Next(c, s, run[0]), run[1..])
  }

  lemma {:induction false} RunInv(c: Config, s: State, run: seq<Action>)
    requires Inv(c, s) && IsRun(c, s, run)
    ensures Inv(c, After(c, s, run))
    decreases |run|
  {
    if run != [] {
      StepInv(c, s, run[0]);
      RunInv(c, Next(c, s, run[0]), run[1..]);
    }
  }

  ghost predicate Reachable(c: Config, s: State) {
    c.Valid() && (InitInv(c); exists run :: IsRun(c, Init(c), run) && After(c, Init(c), run) == s)
  }

  lemma ReachableInv(c: Config, s: State)
    requires Reachable(c, s)
    ensures Inv(c, s) && c.Valid()
  {
    InitInv(c);
    var run :| IsRun(c, Init(c), run) && After(c, Init(c), run) == s;
    RunInv(c, Init(c), run);
  }

  /**
   In every interleaving: nothing is sent on the closed queue, and nobody is about to; no wait group is added to once
   its final `Wait` has begun or goes below zero. When the stop call returns, no publisher is inside, the queue is
   empty, and no listener of the pool is queued or running in a worker or a fallback goroutine.
   */
  lemma LifecycleSafe(c: Config, s: State)
    requires Reachable(c, s)
    ensures !s.fault && s.publishers >= 0 && s.fallbacks >= 0 && s.workers >= 0
    ensures s.closed ==> forall i | 0 <= i < |s.tasks| :: !s.tasks[i].place.Sending? && !s.tasks[i].side.Inside?
    ensures s.stop.Stopped? ==>
              && s.queue == [] && s.publishers == 0 && s.workers == 0 && s.fallbacks == 0
              && forall i | 0 <= i < |s.tasks| ::
                   !s.tasks[i].side.Inside? && !s.tasks[i].place.Queued?
                   && !s.tasks[i].place.InWorker? && !s.tasks[i].place.InFallback?
  {
    hide Reachable, OutboxesOk;
    ReachableInv(c, s);
    if s.closed {
      forall i | 0 <= i < |s.tasks| ensures !s.tasks[i].place.Sending? && !s.tasks[i].side.Inside? {
        assert TaskOk(s.tasks[i]);
        if s.tasks[i].side.Inside? {
          InsideMeansOpen(c, s, i);
        }
      }
    }
    if s.stop.Stopped? {
      forall i | 0 <= i < |s.tasks|
        ensures !s.tasks[i].side.Inside? && !s.tasks[i].place.Queued?
        ensures !s.tasks[i].place.InWorker? && !s.tasks[i].place.InFallback?
      {
        if s.tasks[i].place.Queued? {
          CountSees(KQueued, s.tasks, i);
        } else if s.tasks[i].place.InWorker? {
          CountSees(KWorker, s.tasks, i);
        } else if s.tasks[i].place.InFallback? {
          CountSees(KFallback, s.tasks, i);
        }
      }
    }
  }

  lemma {:induction false} CountPartition(ts: seq<Task>, n: nat)
    requires n <= |ts|
    ensures CountTo(KEntered, ts, n)
         == CountTo(KExecuted, ts, n) + CountTo(KWorker, ts, n) + CountTo(KFallback, ts, n)
            + CountTo(KQueued, ts, n) + CountTo(KHeld, ts, n) + CountTo(KCounted, ts, n)
  {
    if n > 0 {
      CountPartition(ts, n - 1);
    }
  }

  /**
   Conservation, under every rejection policy and across shutdown: the handler dispatches made so far are
   those executed, running in busy workers, running in fallback goroutines, queued, held by a publisher, and
   counted as discarded.
   */
  lemma Conservation(c: Config, s: State)
    requires Reachable(c, s)
    ensures s.dispatched
      == s.executed + (s.workers - s.idle) + s.fallbacks + |s.queue| + Count(KHeld, s.tasks) + s.discarded
  {
    ReachableInv(c, s);
    CountPartition(s.tasks, |s.tasks|);
  }

  /**
   Outbox completion. The call of `completeOutboxEvent` for a dispatch comes when no handler of its id is
   still to run, running, or before its decrement; at any time the calls made equal the dispatches made,
   short of the one in flight; and when none is in flight the counter entry is gone.
   */
  lemma CompletedExactlyOnce(c: Config, s: State, oid: nat)
    requires Reachable(c, s) && oid > 0
    ensures Get(s.started, oid) == Get(s.completed, oid) + One(InFlight(s, oid))
    ensures !InFlight(s, oid) ==> oid !in s.entries
    ensures (exists i | 0 <= i < |s.tasks| :: s.tasks[i].oid == oid && s.tasks[i].fin.Complete?) ==>
              forall j | 0 <= j < |s.tasks| && s.tasks[j].oid == oid ::
                s.tasks[j].fin.Finished? || s.tasks[j].fin.Complete?
  {
    hide Reachable, QueueOk, CountsOk, StopOk, TasksOk;
    ReachableInv(c, s);
    assert OutboxOk(s, oid);
    if i :| 0 <= i < |s.tasks| && s.tasks[i].oid == oid && s.tasks[i].fin.Complete? {
      CountSees(KComplete(oid), s.tasks, i);
      forall j | 0 <= j < |s.tasks| && s.tasks[j].oid == oid
        ensures s.tasks[j].fin.Finished? || s.tasks[j].fin.Complete?
      {
        if Is(KOpen(oid), s.tasks[j]) {
          CountSees(KOpen(oid), s.tasks, j);
        } else if Is(KDelete(oid), s.tasks[j]) {
          CountSees(KDelete(oid), s.tasks, j);
        }
      }
    }
  }

  // ---------------------------------------------------------------------------------------------
  // What the rejection policy does.

  ghost predicate PolicyOk(c: Config, s: State, t: Task) {
    && (c.policy.Discard? ==> !t.place.Unsent? && !t.place.InFallback?)
    && (c.policy.Block? ==> !t.place.Unsent? && (s.accepting ==> !t.place.InFallback?))
    && (t.place.Rejected? || t.place.Discarded? ==> c.policy.Discard? || !t.inPool)
    && (t.place.Pending? ==> !t.inPool)
    && (!t.place.Pending? && !t.inPool ==> (t.place.Rejected? || t.place.Discarded?) && !s.stop.NotCalled?)
  }

  ghost predicate PolicyInv(c: Config, s: State) {
    forall i | 0 <= i < |s.tasks| :: PolicyOk(c, s, s.tasks[i])
  }

  /** The task that a step moves. */
  predicate Moves(s: State, a: Action, i: nat) {
    match a
    case Dispatch(_, _, _) => false
    case Receive => s.queue != [] && s.queue[0] == i
    case WorkerExit => false
    case StopStep => false
    case _ => a.i == i
  }

  /** A step leaves the other tasks alone, the pool does not open again, and a stop is not taken back. */
  ghost predicate OnlyTask(s: State, i: nat, s': State) {
    && |s'.tasks| == |s.tasks|
    && (forall k | 0 <= k < |s.tasks| && k != i :: s'.tasks[k] == s.tasks[k])
    && s'.accepting == s.accepting && s'.stop == s.stop
  }

  /** A step never takes a dispatch call back, and only `Enter` hands a task over. */
  ghost predicate Forward(t: Task, t': Task) {
    && t'.poller == t.poller && t'.first == t.first
    && (t.side.Returned? ==> t'.side.Returned?)
    && (t'.place.Pending? <==> t.place.Pending?)
  }

  predicate Onward(s: State, s': State) {
    (s'.accepting ==> s.accepting) && (s'.stop.NotCalled? ==> s.stop.NotCalled?)
  }

  lemma EnterOnly(s: State, i: nat)
    requires i < |s.tasks|
    ensures OnlyTask(s, i, NextEnter(s, i))
  {
  }

  lemma CheckOnly(c: Config, s: State, i: nat)
    requires i < |s.tasks|
    ensures OnlyTask(s, i, NextCheck(c, s, i))
    ensures !s.tasks[i].place.Pending? ==> Forward(s.tasks[i], NextCheck(c, s, i).tasks[i])
  {
    hide GoFallback;
    FallbackOnly(s, i);
  }

  lemma SentSomewhere(c: Config, s: State)
    ensures !SendPlace(c, s).Pending?
  {
  }

  lemma SendOnly(c: Config, s: State, i: nat)
    requires i < |s.tasks|
    ensures OnlyTask(s, i, NextSend(c, s, i))
    ensures !s.tasks[i].place.Pending? ==> Forward(s.tasks[i], NextSend(c, s, i).tasks[i])
  {
    hide SendPlace;
    SentSomewhere(c, s);
  }

  lemma FallbackOnly(s: State, i: nat)
    requires i < |s.tasks|
    ensures OnlyTask(s, i, GoFallback(s, i))
    ensures !s.tasks[i].place.Pending? ==> Forward(s.tasks[i], GoFallback(s, i).tasks[i])
  {
  }

  lemma DiscardOnly(s: State, i: nat)
    requires i < |s.tasks|
    ensures OnlyTask(s, i, NextDiscard(s, i))
    ensures !s.tasks[i].place.Pending? ==> Forward(s.tasks[i], NextDiscard(s, i).tasks[i])
  {
  }

  lemma BeginOnly(s: State, i: nat)
    requires i < |s.tasks|
    ensures OnlyTask(s, i, NextBegin(s, i))
    ensures !s.tasks[i].place.Pending? ==> Forward(s.tasks[i], NextBegin(s, i).tasks[i])
  {
  }

  lemma FinishOnly(s: State, i: nat)
    requires i < |s.tasks|
    ensures OnlyTask(s, i, NextFinish(s, i))
    ensures !s.tasks[i].place.Pending? ==> Forward(s.tasks[i], NextFinish(s, i).tasks[i])
  {
    hide FinishAfter;
  }

  lemma ReleaseOnly(s: State, i: nat)
    requires i < |s.tasks|
    ensures OnlyTask(s, i, NextRelease(s, i))
    ensures !s.tasks[i].place.Pending? ==> Forward(s.tasks[i], NextRelease(s, i).tasks[i])
  {
  }

  lemma LeaveOnly(s: State, i: nat)
    requires i < |s.tasks|
    ensures OnlyTask(s, i, NextLeave(s, i))
    ensures !s.tasks[i].place.Pending? ==> Forward(s.tasks[i], NextLeave(s, i).tasks[i])
  {
  }

  lemma ReceiveOnly(s: State)
    requires s.queue != [] && s.queue[0] < |s.tasks|
    ensures OnlyTask(s, s.queue[0], NextReceive(s))
    ensures !s.tasks[s.queue[0]].place.Pending? ==> Forward(s.tasks[s.queue[0]], NextReceive(s).tasks[s.queue[0]])
  {
  }

  lemma StopOnly(s: State)
    requires !s.stop.Stopped?
    ensures NextStop(s).tasks == s.tasks && Onward(s, NextStop(s))
  {
  }

  lemma OthersSame(c: Config, s: State, a: Action)
    requires Inv(c, s) && Enabled(c, s, a)
    ensures |Next(c, s, a).tasks| >= |s.tasks| && (!a.Dispatch? ==> |Next(c, s, a).tasks| == |s.tasks|)
    ensures forall i: nat | i < |s.tasks| && !Moves(s, a, i) :: Next(c, s, a).tasks[i] == s.tasks[i]
    ensures Onward(s, Next(c, s, a)) && (!a.StopStep? ==> Next(c, s, a).stop == s.stop)
  {
    hide Inv, NextEnter, NextCheck, NextSend, GoFallback, NextDiscard, NextBegin, NextFinish, NextRelease, NextLeave,
      NextReceive, NextStop, NewTasks, InFlight;
    match a
    case Enter(k) => EnterOnly(s, k);
    case CheckAccepting(k) => CheckOnly(c, s, k);
    case Send(k) => SendOnly(c, s, k);
    case StartFallback(k) => FallbackOnly(s, k);
    case CountDiscard(k) => DiscardOnly(s, k);
    case BeginFinish(k) => BeginOnly(s, k);
    case FinishStep(k) => FinishOnly(s, k);
    case Release(k) => ReleaseOnly(s, k);
    case Leave(k) => LeaveOnly(s, k);
    case Receive => ReceiveOnly(s);
    case StopStep => StopOnly(s);
    case Dispatch(_, _, _) =>
    case WorkerExit =>
  }

  lemma OthersPolicy(c: Config, s: State, s': State, t: Task)
    requires PolicyOk(c, s, t) && Onward(s, s')
    ensures PolicyOk(c, s', t)
  {
  }

  lemma EnterPolicy(c: Config, s: State, i: nat)
    requires Inv(c, s) && Enabled(c, s, Enter(i)) && PolicyOk(c, s, s.tasks[i])
    ensures PolicyOk(c, NextEnter(s, i), NextEnter(s, i).tasks[i])
  {
    hide QueueOk, CountsOk, OutboxesOk, TasksOk;
  }

  lemma CheckPolicy(c: Config, s: State, i: nat)
    requires i < |s.tasks| && s.tasks[i].place.Registered? && PolicyOk(c, s, s.tasks[i])
    ensures PolicyOk(c, NextCheck(c, s, i), NextCheck(c, s, i).tasks[i])
  {
    hide GoFallback;
    if !s.accepting && !c.policy.Discard? {
      FallbackPolicy(c, s, i);
    }
  }

  lemma SendPolicy(c: Config, s: State, i: nat)
    requires Inv(c, s) && Enabled(c, s, Send(i)) && PolicyOk(c, s, s.tasks[i])
    ensures PolicyOk(c, NextSend(c, s, i), NextSend(c, s, i).tasks[i])
  {
    hide QueueOk, CountsOk, OutboxesOk, TasksOk, StopOk;
    SendingMeansOpen(c, s, i);
  }

  lemma FallbackPolicy(c: Config, s: State, i: nat)
    requires i < |s.tasks| && PolicyOk(c, s, s.tasks[i]) && !c.policy.Discard?
    requires (s.tasks[i].place.Registered? && !s.accepting) || s.tasks[i].place.Unsent?
    ensures PolicyOk(c, GoFallback(s, i), GoFallback(s, i).tasks[i])
  {
  }

  lemma DiscardPolicy(c: Config, s: State, i: nat)
    requires i < |s.tasks| && s.tasks[i].place == Rejected(false) && PolicyOk(c, s, s.tasks[i])
    ensures PolicyOk(c, NextDiscard(s, i), NextDiscard(s, i).tasks[i])
  {
  }

  lemma ReleasePolicy(c: Config, s: State, i: nat)
    requires i < |s.tasks| && PolicyOk(c, s, s.tasks[i])
    requires s.tasks[i].place.InWorker? || s.tasks[i].place.InFallback? || s.tasks[i].place == Rejected(true)
    ensures PolicyOk(c, NextRelease(s, i), NextRelease(s, i).tasks[i])
  {
  }

  lemma ReceivePolicy(c: Config, s: State)
    requires Inv(c, s) && s.queue != [] && PolicyOk(c, s, s.tasks[s.queue[0]])
    ensures PolicyOk(c, NextReceive(s), NextReceive(s).tasks[s.queue[0]])
  {
    hide CountsOk, OutboxesOk, TasksOk, StopOk;
  }

  lemma MovedPolicy(c: Config, s: State, a: Action, i: nat)
    requires Inv(c, s) && PolicyInv(c, s) && Enabled(c, s, a) && i < |s.tasks| && Moves(s, a, i)
    ensures i < |Next(c, s, a).tasks| && PolicyOk(c, Next(c, s, a), Next(c, s, a).tasks[i])
  {
    hide Inv, NextEnter, NextCheck, NextSend, GoFallback, NextDiscard, NextRelease, NextReceive, FinishAfter;
    assert PolicyOk(c, s, s.tasks[i]);
    OthersSame(c, s, a);
    match a
    case Enter(_) => EnterPolicy(c, s, i);
    case CheckAccepting(_) => CheckPolicy(c, s, i);
    case Send(_) => SendPolicy(c, s, i);
    case StartFallback(_) => FallbackPolicy(c, s, i);
    case CountDiscard(_) => DiscardPolicy(c, s, i);
    case Release(_) => ReleasePolicy(c, s, i);
    case Receive => ReceivePolicy(c, s);
    case _ =>
  }

  lemma StepPolicy(c: Config, s: State, a: Action)
    requires Inv(c, s) && PolicyInv(c, s) && Enabled(c, s, a)
    ensures PolicyInv(c, Next(c, s, a))
  {
    hide Inv, Enabled, Next, PolicyOk, Moves, Onward;
    var s' := Next(c, s, a);
    OthersSame(c, s, a);
    NewTasksOnly(c, s, a);
    forall i | 0 <= i < |s'.tasks| ensures PolicyOk(c, s', s'.tasks[i]) {
      if i < |s.tasks| {
        if Moves(s, a, i) {
          MovedPolicy(c, s, a, i);
        } else {
          assert PolicyOk(c, s, s.tasks[i]);
          OthersPolicy(c, s, s', s.tasks[i]);
        }
      } else {
        NewPolicy(c, s', s'.tasks[i]);
      }
    }
  }

  lemma NewTasksOnly(c: Config, s: State, a: Action)
    requires Inv(c, s) && Enabled(c, s, a)
    ensures forall i | |s.tasks| <= i < |Next(c, s, a).tasks| ::
      Next(c, s, a).tasks[i].place.Pending? && !Next(c, s, a).tasks[i].inPool
  {
    hide Inv, Enabled, NewTasks, Next, NextDispatch;
    if a.Dispatch? {
      DispatchedTasks(c, s, a.n, a.oid, a.poller);
    } else {
      OthersSame(c, s, a);
    }
  }

  lemma DispatchedTasks(c: Config, s: State, n: nat, oid: nat, poller: bool)
    requires Inv(c, s) && Enabled(c, s, Dispatch(n, oid, poller))
    ensures var ts := Next(c, s, Dispatch(n, oid, poller)).tasks;
      forall i | |s.tasks| <= i < |ts| :: ts[i].place.Pending? && !ts[i].inPool
  {
    hide Inv, NewTasks;
    NewTasksAre(n, oid, poller);
  }

  lemma NewPolicy(c: Config, s: State, t: Task)
    requires t.place.Pending? && !t.inPool
    ensures PolicyOk(c, s, t)
  {
  }

  lemma {:induction false} RunPolicy(c: Config, s: State, run: seq<Action>)
    requires Inv(c, s) && PolicyInv(c, s) && IsRun(c, s, run)
    ensures PolicyInv(c, After(c, s, run))
    decreases |run|
  {
    hide Inv, PolicyInv, Enabled;
    if run != [] {
      StepInv(c, s, run[0]);
      StepPolicy(c, s, run[0]);
      RunPolicy(c, Next(c, s, run[0]), run[1..]);
    }
  }

  lemma ReachablePolicy(c: Config, s: State)
    requires Reachable(c, s)
    ensures PolicyInv(c, s)
  {
    InitInv(c);
    var run :| IsRun(c, Init(c), run) && After(c, Init(c), run) == s;
    RunPolicy(c, Init(c), run);
  }

  lemma {:induction false} CountsNone(k: Kind, ts: seq<Task>)
    requires forall i | 0 <= i < |ts| :: !Is(k, ts[i])
    ensures Count(k, ts) == 0
  {
    if Count(k, ts) > 0 {
      var i := CountFinds(k, ts);
    }
  }

  /**
   In every reachable state. With policy discard, nothing is ever handed to a fallback goroutine. With any other, a task
   that was let into the pool is never rejected or discarded, and those that were not let in came after the shutdown had
   begun; so before it nothing is discarded. With policy block, no task ever finds the queue full, and none is in a
   fallback goroutine while the pool accepts tasks.
   */
  lemma PolicyRespected(c: Config, s: State)
    requires Reachable(c, s)
    ensures c.policy.Discard? ==>
      s.fallbacks == 0 && forall i | 0 <= i < |s.tasks| :: !s.tasks[i].place.Unsent? && !s.tasks[i].place.InFallback?
    ensures !c.policy.Discard? ==> forall i | 0 <= i < |s.tasks| ::
      s.tasks[i].place.Rejected? || s.tasks[i].place.Discarded? ==> !s.tasks[i].inPool && s.stop != NotCalled
    ensures !c.policy.Discard? && s.stop == NotCalled ==> s.discarded == 0
    ensures c.policy.Block? ==> forall i | 0 <= i < |s.tasks| :: !s.tasks[i].place.Unsent?
    ensures c.policy.Block? && s.accepting ==> s.fallbacks == 0
  {
    hide Reachable, QueueOk, TasksOk, StopOk, OutboxesOk, Count;
    ReachableInv(c, s);
    ReachablePolicy(c, s);
    assert forall i | 0 <= i < |s.tasks| :: PolicyOk(c, s, s.tasks[i]);
    if c.policy.Discard? || (c.policy.Block? && s.accepting) {
      CountsNone(KFallback, s.tasks);
    }
    if !c.policy.Discard? && s.stop == NotCalled {
      CountsNone(KCounted, s.tasks);
    }
  }

  /** Once all is at rest, every task that was let into the pool has been executed, unless the policy is discard. */
  lemma LetInMeansExecuted(c: Config, s: State)
    requires Reachable(c, s) && (forall a: Action :: Enabled(c, s, a) ==> a.Dispatch?) && !c.policy.Discard?
    ensures forall i | 0 <= i < |s.tasks| && s.tasks[i].inPool :: s.tasks[i].place.Executed?
  {
    hide Reachable, Enabled;
    AtRest(c, s);
    PolicyRespected(c, s);
  }

  /** A task gets into the pool exactly while the pool is the current one, and from then on it is held by it. */
  lemma EnterMeans(c: Config, s: State, i: nat)
    requires Inv(c, s) && Enabled(c, s, Enter(i))
    ensures
      var s' := Next(c, s, Enter(i));
      var t := s.tasks[i];
      && s'.dispatched == s.dispatched + 1
      && if s.stop == NotCalled then
           s'.tasks == s.tasks[i := t.(inPool := true, place := Registered, side := Inside)]
           && s'.publishers == s.publishers + 1
         else s'.tasks == s.tasks[i := t.(place := Rejected(false))] && s'.publishers == s.publishers
  {
    hide QueueOk, CountsOk, OutboxesOk;
  }

  /**
   What becomes of a task that is about to be sent: with room in the queue it is queued; on a full queue it is turned
   away by the policy discard, and gets a fallback goroutine by the policy fallback. A policy with an unknown name sends
   nothing and takes the goroutine. Nothing else changes.
   */
  lemma SendMeans(c: Config, s: State, i: nat)
    requires Inv(c, s) && Enabled(c, s, Send(i))
    ensures
      var t := s.tasks[i];
      Next(c, s, Send(i)) ==
        if c.policy != Other && |s.queue| < c.capacity then
          s.(tasks := s.tasks[i := t.(place := Queued)], queue := s.queue + [i])
        else s.(tasks := s.tasks[i := t.(place := if c.policy == Discard then Rejected(false) else Unsent)])
  {
    hide QueueOk, CountsOk, OutboxesOk;
    SendingMeansOpen(c, s, i);
  }

  /** A task that finds the pool closing is turned away by the policy discard, and else gets a fallback goroutine. */
  lemma CheckMeans(c: Config, s: State, i: nat)
    requires Inv(c, s) && Enabled(c, s, CheckAccepting(i))
    ensures
      var s', t := Next(c, s, CheckAccepting(i)), s.tasks[i];
      if s.stop == NotCalled || s.stop == Captured then s' == s.(tasks := s.tasks[i := t.(place := Sending)])
      else if c.policy == Discard then s' == s.(tasks := s.tasks[i := t.(place := Rejected(false))])
      else s'.tasks == s.tasks[i := t.(place := InFallback)] && s'.fallbacks == s.fallbacks + 1
  {
    hide QueueOk, CountsOk, OutboxesOk;
  }

  /** The longest waiting task is the next one to be taken by a worker. */
  lemma ReceiveMeans(c: Config, s: State)
    requires Inv(c, s) && Enabled(c, s, Receive)
    ensures
      var s', i := Next(c, s, Receive), s.queue[0];
      && s.queue == [i] + s'.queue && s'.idle == s.idle - 1
      && s'.tasks == s.tasks[i := s.tasks[i].(place := InWorker)]
  {
    hide CountsOk, OutboxesOk, StopOk;
  }

  // ---------------------------------------------------------------------------------------------
  // What is handed over before what.

  /** The poller's dispatches are over once it has stopped, and the handlers of a dispatch are handed over in order. */
  ghost predicate OrderInv(s: State) {
    && (!StopBefore(s.stop, PollerStopped) ==>
          forall i | 0 <= i < |s.tasks| && s.tasks[i].poller :: s.tasks[i].side.Returned?)
    && (forall i | 0 < i < |s.tasks| && !s.tasks[i].first && !s.tasks[i].place.Pending? ::
          s.tasks[i - 1].side.Returned?)
  }

  lemma MovedForward(c: Config, s: State, a: Action, i: nat)
    requires Inv(c, s) && Enabled(c, s, a) && i < |s.tasks| && Moves(s, a, i) && !a.Enter?
    ensures i < |Next(c, s, a).tasks| && Forward(s.tasks[i], Next(c, s, a).tasks[i])
  {
    hide Inv, NextEnter, NextCheck, NextSend, GoFallback, NextDiscard, NextBegin, NextFinish, NextRelease, NextLeave,
      NextReceive, NextStop, NewTasks, InFlight, Forward, Onward;
    TaskIsOk(c, s, i);
    OthersSame(c, s, a);
    match a
    case CheckAccepting(_) => CheckOnly(c, s, i);
    case Send(_) => SendOnly(c, s, i);
    case StartFallback(_) => FallbackOnly(s, i);
    case CountDiscard(_) => DiscardOnly(s, i);
    case BeginFinish(_) => BeginOnly(s, i);
    case FinishStep(_) => FinishOnly(s, i);
    case Release(_) => ReleaseOnly(s, i);
    case Leave(_) => LeaveOnly(s, i);
    case Receive =>
      HeadIsQueued(c, s);
      ReceiveOnly(s);
  }

  lemma HeadIsQueued(c: Config, s: State)
    requires Inv(c, s) && s.queue != []
    ensures s.tasks[s.queue[0]].place.Queued?
  {
    hide CountsOk, OutboxesOk, StopOk, TasksOk;
  }

  lemma EnterForward(c: Config, s: State, i: nat)
    requires Inv(c, s) && Enabled(c, s, Enter(i))
    ensures
      var t, t' := s.tasks[i], NextEnter(s, i).tasks[i];
      && t'.poller == t.poller && t'.first == t.first && !t.side.Returned?
      && (t.first || (i > 0 && s.tasks[i - 1].side.Returned?))
  {
    hide QueueOk, CountsOk, OutboxesOk, StopOk;
    TaskIsOk(c, s, i);
  }

  /** What a step does to a task as far as the order goes. */
  ghost predicate Carried(s: State, s': State, i: nat)
    requires i < |s.tasks|
  {
    && i < |s'.tasks|
    && var t, t' := s.tasks[i], s'.tasks[i];
      && t'.poller == t.poller && t'.first == t.first && (t.side.Returned? ==> t'.side.Returned?)
      && (!t'.place.Pending? && t.place.Pending? ==> t.first || (i > 0 && s.tasks[i - 1].side.Returned?))
  }

  lemma StepForward(c: Config, s: State, a: Action, i: nat)
    requires Inv(c, s) && Enabled(c, s, a) && i < |s.tasks|
    ensures Carried(s, Next(c, s, a), i)
  {
    hide Inv, Enabled, NextEnter;
    OthersSame(c, s, a);
    if Moves(s, a, i) {
      if a.Enter? {
        EnterForward(c, s, i);
      } else {
        MovedForward(c, s, a, i);
      }
    }
  }

  lemma StepOrder(c: Config, s: State, a: Action)
    requires Inv(c, s) && OrderInv(s) && Enabled(c, s, a)
    ensures OrderInv(Next(c, s, a))
  {
    hide Inv, Enabled, Next, Moves, StopBefore;
    var s' := Next(c, s, a);
    forall i: nat | i < |s.tasks| ensures Carried(s, s', i) {
      StepForward(c, s, a, i);
    }
    OthersSame(c, s, a);
    NewTasksOnly(c, s, a);
    StepStop(c, s, a);
    if !StopBefore(s'.stop, PollerStopped) {
      forall i: nat | i < |s'.tasks| && s'.tasks[i].poller ensures s'.tasks[i].side.Returned? {
        assert i < |s.tasks| ==> Carried(s, s', i);
      }
    }
    forall i: nat | 0 < i < |s'.tasks| && !s'.tasks[i].first && !s'.tasks[i].place.Pending?
      ensures s'.tasks[i - 1].side.Returned?
    {
      assert i < |s.tasks| && Carried(s, s', i) && Carried(s, s', i - 1);
    }
  }

  /** Past the poller, no step brings a task of its own, and the step past it is taken when it has none open. */
  lemma StepStop(c: Config, s: State, a: Action)
    requires Inv(c, s) && Enabled(c, s, a)
    ensures !StopBefore(Next(c, s, a).stop, PollerStopped) ==>
      && (StopBefore(s.stop, PollerStopped) ==>
            forall i | 0 <= i < |s.tasks| && s.tasks[i].poller :: s.tasks[i].side.Returned?)
      && forall i | |s.tasks| <= i < |Next(c, s, a).tasks| :: !Next(c, s, a).tasks[i].poller
  {
    hide Inv, NewTasks, InFlight, NextCheck, NextSend, NextRelease, NextFinish;
    OthersSame(c, s, a);
    if a.Dispatch? {
      NewTasksAre(a.n, a.oid, a.poller);
    }
  }

  lemma {:induction false} RunOrder(c: Config, s: State, run: seq<Action>)
    requires Inv(c, s) && OrderInv(s) && IsRun(c, s, run)
    ensures OrderInv(After(c, s, run))
    decreases |run|
  {
    hide Inv, OrderInv, Enabled;
    if run != [] {
      StepInv(c, s, run[0]);
      StepOrder(c, s, run[0]);
      RunOrder(c, Next(c, s, run[0]), run[1..]);
    }
  }

  /**
   In every reachable state: once the shutdown has gone past the poller, every dispatch call of the poller has returned;
   and a handler of a dispatch is handed over only after the call for the one before it has returned.
   */
  lemma HandedOverInOrder(c: Config, s: State)
    requires Reachable(c, s)
    ensures s.stop in {PollerStopped, Drained, Closed, WorkersDone, Stopped} ==>
      forall i | 0 <= i < |s.tasks| && s.tasks[i].poller :: s.tasks[i].side == Returned
    ensures forall i | 0 < i < |s.tasks| && !s.tasks[i].first && s.tasks[i].place != Pending ::
      s.tasks[i - 1].side == Returned
  {
    hide Inv, Enabled;
    InitInv(c);
    var run :| IsRun(c, Init(c), run) && After(c, Init(c), run) == s;
    RunOrder(c, Init(c), run);
  }

  // ---------------------------------------------------------------------------------------------
  // Shutdown makes progress.

  function PlaceRank(p: Place): nat {
    match p
    case Pending => 9 case Registered => 8 case Sending => 7 case Unsent => 6 case Queued => 4
    case InWorker => 2 case InFallback => 2 case Rejected(counted) => if counted then 1 else 2
    case Executed => 0 case Discarded => 0
  }

  function FinishRank(f: Finish): nat {
    match f
    case NotYet => 5 case Lookup => 4 case Decrement => 3 case Delete => 2 case Complete => 1 case Finished => 0
  }

  function SideRank(side: Side): nat {
    match side
    case Outside => 2 case Inside => 1 case Returned => 0
  }

  function TaskRank(t: Task): nat {
    PlaceRank(t.place) + FinishRank(t.fin) + SideRank(t.side)
  }

  function RankTo(ts: seq<Task>, n: nat): nat
    requires n <= |ts|
  {
    if n == 0 then 0 else RankTo(ts, n - 1) + TaskRank(ts[n - 1])
  }

  function Rank(s: State): int {
    RankTo(s.tasks, |s.tasks|) + s.workers + StopRank(s.stop)
  }

  lemma {:induction false} RankUpdate(ts: seq<Task>, i: nat, t: Task, n: nat)
    requires i < |ts| && n <= |ts|
    ensures RankTo(ts[i := t], n) == RankTo(ts, n) + if i < n then TaskRank(t) - TaskRank(ts[i]) else 0
  {
    if n > 0 {
      RankUpdate(ts, i, t, n - 1);
    }
  }

  lemma MoveRank(s: State, i: nat, s': State)
    requires i < |s.tasks| && |s'.tasks| == |s.tasks| && s'.tasks == s.tasks[i := s'.tasks[i]]
    requires TaskRank(s'.tasks[i]) < TaskRank(s.tasks[i])
    requires s'.workers == s.workers && s'.stop == s.stop
    ensures Rank(s') < Rank(s)
  {
    RankUpdate(s.tasks, i, s'.tasks[i], |s.tasks|);
  }

  lemma EnterRank(s: State, i: nat)
    requires i < |s.tasks| && s.tasks[i].place.Pending? && TaskOk(s.tasks[i])
    ensures Rank(NextEnter(s, i)) < Rank(s)
  {
    hide Rank;
    MoveRank(s, i, NextEnter(s, i));
  }

  lemma FallbackRank(s: State, i: nat)
    requires i < |s.tasks| && (s.tasks[i].place.Registered? || s.tasks[i].place.Unsent?)
    ensures Rank(GoFallback(s, i)) < Rank(s)
  {
    hide Rank;
    MoveRank(s, i, GoFallback(s, i));
  }

  lemma CheckRank(c: Config, s: State, i: nat)
    requires i < |s.tasks| && s.tasks[i].place.Registered?
    ensures Rank(NextCheck(c, s, i)) < Rank(s)
  {
    hide Rank;
    if s.accepting || c.policy.Discard? {
      MoveRank(s, i, NextCheck(c, s, i));
    } else {
      FallbackRank(s, i);
    }
  }

  lemma SendRank(c: Config, s: State, i: nat)
    requires i < |s.tasks| && s.tasks[i].place.Sending? && !s.closed
    ensures Rank(NextSend(c, s, i)) < Rank(s)
  {
    hide Rank;
    MoveRank(s, i, NextSend(c, s, i));
  }

  lemma LeaveRank(s: State, i: nat)
    requires i < |s.tasks| && s.tasks[i].side.Inside?
    ensures Rank(NextLeave(s, i)) < Rank(s)
  {
    hide Rank;
    MoveRank(s, i, NextLeave(s, i));
  }

  lemma DiscardRank(s: State, i: nat)
    requires i < |s.tasks| && s.tasks[i].place == Rejected(false)
    ensures Rank(NextDiscard(s, i)) < Rank(s)
  {
    hide Rank;
    MoveRank(s, i, NextDiscard(s, i));
  }

  lemma BeginFinishRank(s: State, i: nat)
    requires i < |s.tasks| && s.tasks[i].fin.NotYet?
    ensures Rank(NextBegin(s, i)) < Rank(s)
  {
    hide Rank;
    MoveRank(s, i, NextBegin(s, i));
  }

  lemma FinishStepRank(s: State, i: nat)
    requires i < |s.tasks| && !s.tasks[i].fin.NotYet? && !s.tasks[i].fin.Finished?
    ensures Rank(NextFinish(s, i)) < Rank(s)
  {
    hide Rank;
    MoveRank(s, i, NextFinish(s, i));
  }

  lemma ReleaseRank(s: State, i: nat)
    requires i < |s.tasks|
    requires s.tasks[i].place.InWorker? || s.tasks[i].place.InFallback? || s.tasks[i].place == Rejected(true)
    ensures Rank(NextRelease(s, i)) < Rank(s)
  {
    hide Rank;
    MoveRank(s, i, NextRelease(s, i));
  }

  lemma ReceiveRank(c: Config, s: State)
    requires Inv(c, s) && s.queue != []
    ensures Rank(NextReceive(s)) < Rank(s)
  {
    hide Rank, CountsOk, OutboxesOk, StopOk;
    MoveRank(s, s.queue[0], NextReceive(s));
  }

  lemma TaskIsOk(c: Config, s: State, i: nat)
    requires Inv(c, s) && i < |s.tasks|
    ensures TaskOk(s.tasks[i])
  {
    hide QueueOk, CountsOk, OutboxesOk, StopOk;
  }

  /** A task about to be sent finds the queue open. */
  lemma SendingMeansOpen(c: Config, s: State, i: nat)
    requires Inv(c, s) && i < |s.tasks| && s.tasks[i].place.Sending?
    ensures !s.closed
  {
    hide QueueOk, OutboxesOk, Count;
    TaskIsOk(c, s, i);
    InsideMeansOpen(c, s, i);
  }

  /** Every step but a new dispatch lowers the rank. */
  lemma StepRank(c: Config, s: State, a: Action)
    requires Inv(c, s) && Enabled(c, s, a) && !a.Dispatch?
    ensures Rank(Next(c, s, a)) < Rank(s)
  {
    hide Inv, RankTo, TaskOk, NextEnter, NextCheck, NextSend, GoFallback, NextDiscard, NextBegin, NextFinish,
      NextRelease, NextLeave, NextReceive;
    match a
    case Enter(i) =>
      TaskIsOk(c, s, i);
      EnterRank(s, i);
    case CheckAccepting(i) => CheckRank(c, s, i);
    case Send(i) =>
      SendingMeansOpen(c, s, i);
      SendRank(c, s, i);
    case StartFallback(i) => FallbackRank(s, i);
    case CountDiscard(i) => DiscardRank(s, i);
    case BeginFinish(i) => BeginFinishRank(s, i);
    case FinishStep(i) => FinishStepRank(s, i);
    case Release(i) => ReleaseRank(s, i);
    case Leave(i) => LeaveRank(s, i);
    case Receive => ReceiveRank(c, s);
    case WorkerExit =>
    case StopStep =>
  }

  /** Once dispatches have ended, a run has at most as many steps as the rank it starts with. */
  lemma {:induction false} RunsEnd(c: Config, s: State, run: seq<Action>)
    requires Inv(c, s) && IsRun(c, s, run) && forall k | 0 <= k < |run| :: !run[k].Dispatch?
    ensures |run| <= Rank(s)
    decreases |run|
  {
    if run != [] {
      StepInv(c, s, run[0]);
      StepRank(c, s, run[0]);
      RunsEnd(c, Next(c, s, run[0]), run[1..]);
    } else {
      assert Rank(s) >= 0;
    }
  }

  /** A task in a worker, in a fallback goroutine, or turned away can always be moved on by its owner. */
  lemma OwnedTaskMoves(c: Config, s: State, i: nat) returns (a: Action)
    requires TasksOk(s) && i < |s.tasks|
    requires s.tasks[i].place.InWorker? || s.tasks[i].place.InFallback? || s.tasks[i].place.Rejected?
    ensures !a.Dispatch? && Enabled(c, s, a)
  {
    var t := s.tasks[i];
    assert TaskOk(t);
    if t.place == Rejected(false) && t.fin == (if t.side.Outside? then NotYet else Finished) {
      a := CountDiscard(i);
    } else if t.fin.NotYet? {
      a := BeginFinish(i);
    } else if t.fin.Finished? {
      a := Release(i);
    } else {
      a := FinishStep(i);
    }
  }

  /** While the queue is not empty, or the queue is closed and workers remain, some worker can go on. */
  lemma WorkersMove(c: Config, s: State) returns (a: Action)
    requires Inv(c, s) && s.workers > 0 && (s.queue != [] || s.closed)
    ensures !a.Dispatch? && Enabled(c, s, a)
  {
    if s.idle > 0 {
      a := if s.queue != [] then Receive else WorkerExit;
    } else {
      var i := CountFinds(KWorker, s.tasks);
      a := OwnedTaskMoves(c, s, i);
    }
  }

  /** A dispatch call that has not returned, and whose predecessor has, can go on, or a worker can. */
  lemma PublisherMoves(c: Config, s: State, i: nat) returns (a: Action)
    requires c.Valid() && Inv(c, s) && i < |s.tasks| && !s.tasks[i].side.Returned?
    requires i > 0 ==> s.tasks[i - 1].side.Returned?
    ensures !a.Dispatch? && Enabled(c, s, a)
  {
    var t := s.tasks[i];
    assert TaskOk(t);
    match t.place
    case Pending => a := Enter(i);
    case Registered => a := CheckAccepting(i);
    case Sending =>
      InsideMeansOpen(c, s, i);
      if c.policy.Block? && |s.queue| >= c.capacity {
        a := WorkersMove(c, s);
      } else {
        a := Send(i);
      }
    case Unsent => a := StartFallback(i);
    case Rejected(_) => a := OwnedTaskMoves(c, s, i);
    case Queued => a := Leave(i);
    case InWorker => a := Leave(i);
    case InFallback => a := Leave(i);
    case Executed => a := Leave(i);
    case Discarded => a := Leave(i);
  }

  lemma SomePublisherMoves(c: Config, s: State, j: nat) returns (a: Action)
    requires c.Valid() && Inv(c, s) && j < |s.tasks| && !s.tasks[j].side.Returned?
    ensures !a.Dispatch? && Enabled(c, s, a)
  {
    if j > 0 && !s.tasks[j - 1].side.Returned? {
      a := SomePublisherMoves(c, s, j - 1);
    } else {
      a := PublisherMoves(c, s, j);
    }
  }

  /**
   Shutdown cannot get stuck: from the moment the stop call is made until it returns, some step other than a
   new dispatch is enabled, under every policy, the blocking one included.
   */
  lemma NeverStuck(c: Config, s: State)
    requires Reachable(c, s) && !s.stop.Stopped?
    ensures exists a: Action :: !a.Dispatch? && Enabled(c, s, a)
  {
    hide Reachable, OutboxesOk, QueueOk, TaskOk;
    ReachableInv(c, s);
    var a := StopStep;
    if !Enabled(c, s, a) {
      match s.stop
      case Refusing =>
        var i :| 0 <= i < |s.tasks| && s.tasks[i].poller && !s.tasks[i].side.Returned?;
        a := SomePublisherMoves(c, s, i);
      case PollerStopped =>
        var i := CountFinds(KInside, s.tasks);
        a := SomePublisherMoves(c, s, i);
      case Closed => a := WorkersMove(c, s);
      case WorkersDone =>
        var i := CountFinds(KFallback, s.tasks);
        a := OwnedTaskMoves(c, s, i);
    }
    assert !a.Dispatch? && Enabled(c, s, a);
  }

  /** At rest after shutdown, every handler dispatch has been executed or discarded. */
  lemma AtRest(c: Config, s: State)
    requires Reachable(c, s) && forall a: Action :: Enabled(c, s, a) ==> a.Dispatch?
    ensures s.stop.Stopped? && s.dispatched == s.executed + s.discarded
    ensures forall i | 0 <= i < |s.tasks| :: s.tasks[i].place.Executed? || s.tasks[i].place.Discarded?
  {
    if !s.stop.Stopped? {
      NeverStuck(c, s);
    }
    LifecycleSafe(c, s);
    ReachableInv(c, s);
    forall i | 0 <= i < |s.tasks| ensures s.tasks[i].place.Executed? || s.tasks[i].place.Discarded? {
      if !s.tasks[i].side.Returned? {
        var a := SomePublisherMoves(c, s, i);
      }
      assert TaskOk(s.tasks[i]);
    }
    Conservation(c, s);
    if Count(KHeld, s.tasks) > 0 {
      var i := CountFinds(KHeld, s.tasks);
    }
  }
}
