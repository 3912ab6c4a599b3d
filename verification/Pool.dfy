/** ThreadPoolImpl over the task queue as a transition system. Producers, the thread that
    calls start and stop, and any number of workers interleave at the granularity of the
    queue's mutex; a history records what they did. */
module Pool {
  import opened TaskTime
  import opened TaskQueues
  import opened TaskBases

  datatype Worker =
    | Awake                     // has to take the lock next: new, notified, timed out, or between tasks
    | Idle                      // in the untimed wait
    | Timed(deadline: int)      // in the timed wait
    | Running(task: Task)
    | Exited

  predicate Waiting(w: Worker) {
    w.Idle? || w.Timed?
  }

  /** The thread that calls start, stop and the destructor. */
  datatype Control =
    | Between                   // in none of them
    | Spawning(left: nat)       // do_start: threads still to create
    | Closing                   // do_stop: before m_closed is set
    | Notifying                 // m_closed is set, notify_all is still to come
    | Joining(next: nat)        // join: the next thread to wait for

  datatype Event =
    | Created(task: Task, stamp: int, at: int, delayed: bool)
    | Admitted(task: Task)      // add_task found the pool started
    | Refused(task: Task)       // add_task threw ThreadPoolStoppedException
    | Pushed(task: Task)
    | Rejected(task: Task)      // push threw QueueClosedException
    | Removed(requestId: nat)
    | Popped(task: Task, worker: nat, at: int)
    | Finished(task: Task, worker: nat, outcome: Outcome)
    | WorkerLeft(worker: nat)
    | Started                   // start raised the started flag
    | Stopping                  // stop lowered it
    | Closed
    | NotifiedAll
    | Joined                    // do_stop returned

  datatype State = State(
    size: nat,
    queue: QueueState,
    started: bool,
    workers: seq<Worker>,
    control: Control,
    now: int,
    nextSeq: nat,
    held: set<Task>,            // in the hands of a producer
    admitted: set<Task>,        // past the started check, not yet pushed
    notified: bool,             // some notify_all has happened
    joined: bool,               // some do_stop has returned
    log: seq<Event>)

  function Init(size: nat, now: int): State {
    State(size, QueueState([], false), false, [], Between, now, 1, {}, {}, false, false, [])
  }

  datatype Woken = Nobody | One(worker: nat)

  datatype Action =
    | Tick(to: int)
    | Create(task: Task, stamp: int, delayed: bool)
    | CheckStarted(task: Task)
    | Push(task: Task, woken: Woken)
    | Cancel(requestId: nat)
    | TakeLock(worker: nat)
    | TimeOut(worker: nat)
    | WakeSpuriously(worker: nat)
    | Finish(worker: nat, outcome: Outcome)
    | CallStart
    | Spawn
    | CallStop
    | CallDestructor
    | SetClosed
    | NotifyAll
    | Join

  predicate IsWorker(s: State, w: int) {
    0 <= w < |s.workers|
  }

  /** notify_one wakes some waiter, or nobody when nobody waits. */
  predicate MayWake(s: State, woken: Woken) {
    match woken
    case Nobody => s.queue.closed || forall w :: 0 <= w < |s.workers| ==> !Waiting(s.workers[w])
    case One(w) => !s.queue.closed && IsWorker(s, w) && Waiting(s.workers[w])
  }

  predicate Enabled(s: State, a: Action) {
    match a
    case Tick(to) => s.now <= to
    case Create(t, stamp, delayed) =>
      // other pools draw from the same counter; set_due_time may have replaced the stamp
      s.nextSeq <= t.seqId && 0 <= stamp <= s.now && (!delayed ==> t.due == stamp)
    case CheckStarted(t) => t in s.held
    case Push(t, woken) => t in s.admitted && MayWake(s, woken)
    case Cancel(_) => true
    case TakeLock(w) => IsWorker(s, w) && s.workers[w].Awake?
    case TimeOut(w) => IsWorker(s, w) && s.workers[w].Timed? && s.workers[w].deadline <= s.now
    case WakeSpuriously(w) => IsWorker(s, w) && Waiting(s.workers[w])
    case Finish(w, _) => IsWorker(s, w) && s.workers[w].Running?
    case CallStart => s.control.Between?
    case Spawn => s.control.Spawning?
    case CallStop => s.control.Between?
    case CallDestructor => s.control.Between?
    case SetClosed => s.control.Closing?
    case NotifyAll => s.control.Notifying?
    case Join =>
      && s.control.Joining?
      && (IsWorker(s, s.control.next) ==> s.workers[s.control.next].Exited?)
  }

  function Apply(s: State, a: Action): State
    requires Enabled(s, a)
  {
    match a
    case Tick(to) => s.(now := to)
    case Create(t, stamp, delayed) =>
      s.(nextSeq := t.seqId + 1, held := s.held + {t}, log := s.log + [Created(t, stamp, s.now, delayed)])
    case CheckStarted(t) =>
      if s.started then s.(held := s.held - {t}, admitted := s.admitted + {t}, log := s.log + [Admitted(t)])
      else s.(log := s.log + [Refused(t)])
    case Push(t, woken) => ApplyPush(s, t, woken)
    case Cancel(id) =>
      s.(queue := ApplyOp(s.queue, OpRemove(id)), log := s.log + [Removed(id)])
    case TakeLock(w) => ApplyTakeLock(s, w)
    case TimeOut(w) => s.(workers := s.workers[w := Awake])
    case WakeSpuriously(w) => s.(workers := s.workers[w := Awake])
    case Finish(w, outcome) =>
      s.(workers := s.workers[w := Awake], log := s.log + [Finished(s.workers[w].task, w, outcome)])
    case CallStart =>
      if s.started then s
      else s.(started := true, control := Spawning(s.size), log := s.log + [Started])
    case Spawn =>
      if s.control.left == 0 then s.(control := Between)
      else s.(workers := s.workers + [Awake], control := Spawning(s.control.left - 1))
    case CallStop =>
      if !s.started then s
      else s.(started := false, control := Closing, log := s.log + [Stopping])
    case CallDestructor => s.(control := Closing)
    case SetClosed => s.(queue := ApplyOp(s.queue, OpClose), control := Notifying, log := s.log + [Closed])
    case NotifyAll =>
      s.(workers := seq(|s.workers|, i requires 0 <= i < |s.workers| =>
                          if Waiting(s.workers[i]) then Awake else s.workers[i]),
         control := Joining(0), notified := true, log := s.log + [NotifiedAll])
    case Join =>
      if s.control.next < |s.workers| then s.(control := Joining(s.control.next + 1))
      else s.(control := Between, joined := true, log := s.log + [Joined])
  }

  function ApplyPush(s: State, t: Task, woken: Woken): State
    requires Enabled(s, Push(t, woken))
  {
    if s.queue.closed then
      // the exception leaves the task with the producer, who may try again
      s.(admitted := s.admitted - {t}, held := s.held + {t}, log := s.log + [Rejected(t)])
    else
      s.(queue := ApplyOp(s.queue, OpPush(t)),
         admitted := s.admitted - {t},
         workers := if woken.One? then s.workers[woken.worker := Awake] else s.workers,
         log := s.log + [Pushed(t)])
  }

  /** A worker inside wait_pop obtains the lock and decides. */
  function ApplyTakeLock(s: State, w: nat): State
    requires Enabled(s, TakeLock(w))
  {
    match Decide(s.queue, s.now)
    case Extract(t) =>
      s.(queue := s.queue.(elements := s.queue.elements[1..]),
         workers := s.workers[w := Running(t)],
         log := s.log + [Popped(t, w, s.now)])
    case WaitFor(delay) => s.(workers := s.workers[w := Timed(s.now + FromMs(delay))])
    case WaitForChange => s.(workers := s.workers[w := Idle])
    case Leave => s.(workers := s.workers[w := Exited], log := s.log + [WorkerLeft(w)])
  }

  // ----- runs -----

  predicate Legal(s: State, run: seq<Action>)
    decreases |run|
  {
    run == [] || (Enabled(s, run[0]) && Legal(Apply(s, run[0]), run[1..]))
  }

  function After(s: State, run: seq<Action>): State
    requires Legal(s, run)
    decreases |run|
  {
    if run == [] then s else After(Apply(s, run[0]), run[1..])
  }

  lemma {:induction false} RunConcat(s: State, a: seq<Action>, b: seq<Action>)
    requires Legal(s, a) && Legal(After(s, a), b)
    ensures Legal(s, a + b) && After(s, a + b) == After(After(s, a), b)
    decreases |a|
  {
    if a == [] {
      assert a + b == b;
    } else {
      RunConcat(Apply(s, a[0]), a[1..], b);
      assert (a + b)[1..] == a[1..] + b;
    }
  }

  // ----- the life of one task, read off the history -----

  datatype Status =
    | Unknown
    | Held
    | Cleared
    | Pending
    | Active(worker: nat)
    | Done(outcome: Outcome)
    | Cancelled
    | Impossible                // an event the task could not take part in

  function Move(st: Status, from: Status, to: Status): Status {
    if st == from then to else Impossible
  }

  function NextStatus(t: Task, st: Status, e: Event): Status {
    match e
    case Removed(id) => if st.Pending? && t.requestId == id then Cancelled else st
    case WorkerLeft(_) => st
    case Started => st
    case Stopping => st
    case Closed => st
    case NotifiedAll => st
    case Joined => st
    case _ =>
      if e.task != t then st else
      match e
      case Created(_, _, _, _) => Move(st, Unknown, Held)
      case Admitted(_) => Move(st, Held, Cleared)
      case Refused(_) => Move(st, Held, Held)
      case Pushed(_) => Move(st, Cleared, Pending)
      case Rejected(_) => Move(st, Cleared, Held)
      case Popped(_, w, _) => Move(st, Pending, Active(w))
      case Finished(_, w, o) => Move(st, Active(w), Done(o))
  }

  function StatusOf(log: seq<Event>, t: Task): Status {
    if log == [] then Unknown
    else NextStatus(t, StatusOf(log[..|log| - 1], t), log[|log| - 1])
  }

  lemma StatusAppend(log: seq<Event>, e: Event)
    ensures forall t :: StatusOf(log + [e], t) == NextStatus(t, StatusOf(log, t), e)
  {
    assert (log + [e])[..|log|] == log;
  }
}
