/** What every step of the pool keeps, and so what holds in every reachable state. */
module PoolInvariant {
  import opened TaskTime
  import opened TaskQueues
  import opened Pool

  // ----- the parts of the invariant -----

  /** The concrete state and the history agree about this task. */
  ghost predicate Tracked(s: State, t: Task) {
    var st := StatusOf(s.log, t);
    && st != Impossible
    && (t in s.held <==> st == Held)
    && (t in s.admitted <==> st == Cleared)
    && (t in s.queue.elements <==> st == Pending)
    && (st.Active? ==> IsWorker(s, st.worker) && s.workers[st.worker] == Running(t))
    && (forall w :: 0 <= w < |s.workers| && s.workers[w] == Running(t) ==> st == Active(w))
  }

  ghost predicate AllTracked(s: State) {
    forall t :: Tracked(s, t)
  }

  ghost predicate FreshIds(s: State) {
    && (forall t :: StatusOf(s.log, t) != Unknown ==> t.seqId < s.nextSeq)
    && (forall t, u ::
          StatusOf(s.log, t) != Unknown && StatusOf(s.log, u) != Unknown && t.seqId == u.seqId
          ==> t == u)
  }

  /** A worker that is going to look at the queue soon enough. */
  ghost predicate Covers(w: Worker, pending: seq<Task>) {
    w.Awake? || w.Running?
    || (w.Timed? && forall t :: t in pending ==> w.deadline < t.due + 1_000_000)
  }

  ghost predicate Covered(s: State) {
    s.queue.elements != [] && s.workers != [] ==>
      exists w :: 0 <= w < |s.workers| && Covers(s.workers[w], s.queue.elements)
  }

  ghost predicate WorkersFit(s: State) {
    && (forall w :: 0 <= w < |s.workers| && s.workers[w].Exited? ==> s.queue == QueueState([], true))
    && (s.notified ==>
          s.queue.closed && forall w :: 0 <= w < |s.workers| ==> !s.workers[w].Idle?)
  }

  function Unspawned(c: Control): nat {
    if c.Spawning? then c.left else 0
  }

  ghost predicate ControlFits(s: State) {
    && (s.control.Notifying? ==> s.queue.closed)
    && (s.control.Joining? ==>
          && s.notified
          && s.control.next <= |s.workers|
          && forall w :: 0 <= w < s.control.next ==> s.workers[w].Exited?)
    && (s.joined ==> s.notified)
    && (s.joined && 1 <= s.size ==>
          s.queue.elements == [] && forall w :: 0 <= w < |s.workers| ==> !s.workers[w].Running?)
    && (1 <= s.size && s.workers == [] && (s.control.Spawning? ==> s.control.left == 0) ==>
          !s.started && s.admitted == {} && s.queue.elements == [])
    && (s.control.Spawning? ==> s.started && s.control.left <= s.size)
    && (s.control.Between? && !s.started ==> s.workers == [] || s.joined)
    && (|| (s.joined && 1 <= s.size)
        || (s.workers == [] && !s.control.Spawning?)
        || |s.workers| + Unspawned(s.control) == s.size)
  }

  // ----- the history, event by event -----

  /** The started flag, as the history has it. */
  predicate OpenIn(log: seq<Event>) {
    log != [] &&
    (log[|log| - 1].Started? || (!log[|log| - 1].Stopping? && OpenIn(log[..|log| - 1])))
  }

  lemma OpenAppend(log: seq<Event>, e: Event)
    ensures OpenIn(log + [e]) <==> e.Started? || (!e.Stopping? && OpenIn(log))
  {
    assert (log + [e])[..|log|] == log;
  }

  /** What an event says about the events before it. */
  ghost predicate EventOk(size: nat, before: seq<Event>, e: Event) {
    match e
    case Created(t, stamp, at, delayed) =>
      && stamp <= at
      && (!delayed ==> t.due == stamp)
      && forall u :: StatusOf(before, u) != Unknown ==> u.seqId < t.seqId
    case Admitted(t) => OpenIn(before)
    case Refused(t) => !OpenIn(before)
    case Pushed(t) => Closed !in before
    case Rejected(t) => Closed in before
    case Popped(t, w, at) =>
      && StatusOf(before, t) == Pending
      && t.due < at + 1_000_000
      && w < size
      && forall u :: (StatusOf(before, u) == Pending && u != t ==> t.Before(u))
                  && StatusOf(before, u) != Active(w)
    case WorkerLeft(w) =>
      Closed in before && forall u :: StatusOf(before, u) != Pending
    case Joined =>
      && Closed in before
      && (1 <= size ==>
            forall u :: StatusOf(before, u) != Pending && !StatusOf(before, u).Active?)
    case _ => true
  }

  ghost predicate LogOk(size: nat, log: seq<Event>) {
    forall i :: 0 <= i < |log| ==> EventOk(size, log[..i], log[i])
  }

  lemma LogOkAppend(size: nat, log: seq<Event>, e: Event)
    requires LogOk(size, log) && EventOk(size, log, e)
    ensures LogOk(size, log + [e])
  {
    forall i | 0 <= i < |log + [e]| ensures EventOk(size, (log + [e])[..i], (log + [e])[i]) {
      assert (log + [e])[..i] == log[..i];
      if i == |log| { assert log[..i] == log; }
    }
  }

  ghost predicate LogFits(s: State) {
    && LogOk(s.size, s.log)
    && (Closed in s.log <==> s.queue.closed)
    && (NotifiedAll in s.log <==> s.notified)
    && (Joined in s.log <==> s.joined)
    && (OpenIn(s.log) <==> s.started)
  }

  lemma LogGrows(s: State, s': State, e: Event)
    requires LogFits(s) && EventOk(s.size, s.log, e)
    requires s'.size == s.size && s'.log == s.log + [e]
    requires s'.queue.closed == (s.queue.closed || e == Closed)
    requires s'.notified == (s.notified || e == NotifiedAll)
    requires s'.joined == (s.joined || e == Joined)
    requires s'.started == (e == Started || (e != Stopping && s.started))
    ensures LogFits(s')
  {
    OpenAppend(s.log, e);
    LogOkAppend(s.size, s.log, e);
  }

  /** The part about queue, workers and control. */
  ghost predicate Shape(s: State) {
    && 0 <= s.now
    && Sorted(s.queue.elements)
    && Covered(s)
    && WorkersFit(s)
    && ControlFits(s)
  }

  /** The part about tasks and what has happened to them. */
  ghost predicate History(s: State) {
    && AllTracked(s)
    && FreshIds(s)
    && LogFits(s)
  }

  ghost predicate Inv(s: State) {
    Shape(s) && History(s)
  }

  lemma InitInv(size: nat, now: int)
    requires 0 <= now
    ensures Inv(Init(size, now))
  {
    var s := Init(size, now);
    forall t ensures Tracked(s, t) {
      assert StatusOf(s.log, t) == Unknown;
    }
  }

  // ----- steps keep the shape -----

  predicate Quiet(s: State, a: Action) {
    a.Tick? || a.Create? || a.CheckStarted? || (a.Push? && s.queue.closed)
    || a.CallStart? || a.CallStop? || a.CallDestructor? || a.SetClosed?
  }

  lemma QuietShape(s: State, a: Action)
    requires Shape(s) && Enabled(s, a) && Quiet(s, a)
    ensures Shape(Apply(s, a))
  {
    var s' := Apply(s, a);
    if s'.queue.elements != [] && s'.workers != [] {
      var w :| 0 <= w < |s.workers| && Covers(s.workers[w], s.queue.elements);
      assert Covers(s'.workers[w], s'.queue.elements);
    }
  }

  lemma WakeShape(s: State, a: Action)
    requires Shape(s) && Enabled(s, a) && (a.TimeOut? || a.WakeSpuriously? || a.Finish?)
    ensures Shape(Apply(s, a))
  {
    var s' := Apply(s, a);
    assert Covers(s'.workers[a.worker], s'.queue.elements);
  }

  /** push and notify_one: whichever waiter is woken, somebody covers the new task. */
  lemma PushShape(s: State, a: Action)
    requires Shape(s) && Enabled(s, a) && a.Push? && !s.queue.closed
    requires 1 <= s.size ==> s.workers != [] || (s.control.Spawning? && 1 <= s.control.left)
    ensures Shape(Apply(s, a))
  {
    var s' := Apply(s, a);
    InsertSound(s.queue.elements, a.task);
    if s'.workers != [] {
      var w := if a.woken.One? then a.woken.worker else 0;
      assert !s.workers[w].Exited?;
      assert Covers(s'.workers[w], s'.queue.elements);
    }
  }

  /** Cancellation notifies nobody, and needs not: whoever covered the queue still does. */
  lemma CancelShape(s: State, a: Action)
    requires Shape(s) && Enabled(s, a) && a.Cancel?
    ensures Shape(Apply(s, a))
  {
    var s' := Apply(s, a);
    WithoutExact(s.queue.elements, a.requestId);
    if s'.queue.elements != [] && s'.workers != [] {
      var w :| 0 <= w < |s.workers| && Covers(s.workers[w], s.queue.elements);
      assert Covers(s'.workers[w], s'.queue.elements);
    }
  }

  /** The worker that waits on an unready head wakes up in time for every pending task; the
      one that extracts the head covers what it leaves behind. */
  lemma TakeLockShape(s: State, w: nat)
    requires Shape(s) && Enabled(s, TakeLock(w))
    ensures Shape(Apply(s, TakeLock(w)))
  {
    var s' := Apply(s, TakeLock(w));
    if s.queue.elements != [] {
      SortedTail(s.queue.elements);
      assert Covers(s'.workers[w], s'.queue.elements) by {
        if s'.workers[w].Timed? {
          forall t | t in s.queue.elements ensures s'.workers[w].deadline < t.due + 1_000_000 {
            TailMembership(s.queue.elements, t);
            HeadOfLine(s.queue.elements[0], t, s.now);
          }
        }
      }
    }
  }

  lemma SpawnShape(s: State, a: Action)
    requires Shape(s) && Enabled(s, a) && a.Spawn?
    ensures Shape(Apply(s, a))
  {
    var s' := Apply(s, a);
    if s.control.left > 0 {
      assert Covers(s'.workers[|s.workers|], s'.queue.elements);
    } else if s'.queue.elements != [] && s'.workers != [] {
      var w :| 0 <= w < |s.workers| && Covers(s.workers[w], s.queue.elements);
      assert Covers(s'.workers[w], s'.queue.elements);
    }
  }

  lemma NotifyAllShape(s: State, a: Action)
    requires Shape(s) && Enabled(s, a) && a.NotifyAll?
    ensures Shape(Apply(s, a))
  {
    var s' := Apply(s, a);
    if s'.queue.elements != [] && s'.workers != [] {
      assert Covers(s'.workers[0], s'.queue.elements);
    }
  }

  /** When the last thread has been joined, an exited worker vouches for the empty queue. */
  lemma JoinShape(s: State, a: Action)
    requires Shape(s) && Enabled(s, a) && a.Join?
    ensures Shape(Apply(s, a))
  {
    assert s.control.next == |s.workers| && s.workers != [] ==> s.workers[0].Exited?;
  }

  // ----- steps keep the history -----

  /** Events that touch no task. */
  predicate Inert(e: Event) {
    e.WorkerLeft? || e.Started? || e.Stopping? || e.Closed? || e.NotifiedAll? || e.Joined?
  }

  /** No worker picks up or puts down a task. */
  ghost predicate SameRunning(s: State, s': State) {
    && (forall w :: 0 <= w < |s.workers| && s.workers[w].Running? ==>
          w < |s'.workers| && s'.workers[w] == s.workers[w])
    && (forall w :: 0 <= w < |s'.workers| && s'.workers[w].Running? ==>
          w < |s.workers| && s'.workers[w] == s.workers[w])
  }

  ghost predicate SameTasks(s: State, s': State) {
    && s'.held == s.held && s'.admitted == s.admitted
    && s'.queue.elements == s.queue.elements && s'.nextSeq == s.nextSeq
    && SameRunning(s, s')
  }

  lemma NoEvent(s: State, s': State)
    requires History(s) && SameTasks(s, s') && s'.size == s.size && s'.log == s.log
    requires s'.queue.closed == s.queue.closed && s'.notified == s.notified && s'.joined == s.joined
    requires s'.started == s.started
    ensures History(s')
  {
    forall t ensures Tracked(s', t) {
      assert Tracked(s, t);
    }
  }

  lemma InertEvent(s: State, s': State, e: Event)
    requires AllTracked(s) && FreshIds(s) && SameTasks(s, s') && s'.log == s.log + [e] && Inert(e)
    ensures AllTracked(s') && FreshIds(s')
  {
    StatusAppend(s.log, e);
    forall t ensures Tracked(s', t) {
      assert Tracked(s, t);
    }
  }

  lemma LeaveHistory(s: State, w: nat)
    requires History(s) && Enabled(s, TakeLock(w)) && s.queue == QueueState([], true)
    ensures History(Apply(s, TakeLock(w)))
  {
    var s' := Apply(s, TakeLock(w));
    forall u ensures StatusOf(s.log, u) != Pending {
      assert Tracked(s, u);
    }
    LogGrows(s, s', WorkerLeft(w));
    InertEvent(s, s', WorkerLeft(w));
  }

  lemma FlagHistory(s: State, a: Action)
    requires History(s) && Enabled(s, a)
    requires (a.CallStart? && !s.started) || (a.CallStop? && s.started)
    ensures History(Apply(s, a))
  {
    var e := if a.CallStart? then Started else Stopping;
    LogGrows(s, Apply(s, a), e);
    InertEvent(s, Apply(s, a), e);
  }

  lemma SetClosedHistory(s: State, a: Action)
    requires History(s) && a.SetClosed? && Enabled(s, a)
    ensures History(Apply(s, a))
  {
    LogGrows(s, Apply(s, a), Closed);
    InertEvent(s, Apply(s, a), Closed);
  }

  lemma NotifyAllMovesNoTask(s: State)
    requires Enabled(s, NotifyAll)
    ensures SameTasks(s, Apply(s, NotifyAll))
  {
  }

  lemma NotifyAllHistory(s: State, s': State)
    requires History(s) && Enabled(s, NotifyAll) && s' == Apply(s, NotifyAll) && SameTasks(s, s')
    ensures History(s')
  {
    LogGrows(s, s', NotifiedAll);
    InertEvent(s, s', NotifiedAll);
  }

  lemma JoinHistory(s: State, a: Action)
    requires Inv(s) && a.Join? && Enabled(s, a)
    ensures History(Apply(s, a))
  {
    var s' := Apply(s, a);
    if s.control.next == |s.workers| {
      assert 1 <= s.size ==> s.queue.elements == [];
      forall u | 1 <= s.size ensures StatusOf(s.log, u) != Pending && !StatusOf(s.log, u).Active? {
        assert Tracked(s, u);
      }
      LogGrows(s, s', Joined);
      InertEvent(s, s', Joined);
    } else {
      NoEvent(s, s');
    }
  }

  lemma CreateTracks(s: State, a: Action)
    requires AllTracked(s) && a.Create? && Enabled(s, a) && StatusOf(s.log, a.task) == Unknown
    ensures AllTracked(Apply(s, a))
  {
    var s' := Apply(s, a);
    StatusAppend(s.log, Created(a.task, a.stamp, s.now, a.delayed));
    forall t ensures Tracked(s', t) {
      assert Tracked(s, t);
    }
  }

  /** A task's sequence id is new to the history when it is created, and stays its own. */
  lemma CreateFresh(s: State, a: Action)
    requires FreshIds(s) && a.Create? && Enabled(s, a)
    ensures StatusOf(s.log, a.task) == Unknown && FreshIds(Apply(s, a))
  {
    var s' := Apply(s, a);
    StatusAppend(s.log, Created(a.task, a.stamp, s.now, a.delayed));
    forall t ensures StatusOf(s'.log, t) != Unknown <==> StatusOf(s.log, t) != Unknown || t == a.task {
    }
  }

  lemma CreateHistory(s: State, a: Action)
    requires History(s) && a.Create? && Enabled(s, a)
    ensures History(Apply(s, a))
  {
    CreateFresh(s, a);
    CreateTracks(s, a);
    LogGrows(s, Apply(s, a), Created(a.task, a.stamp, s.now, a.delayed));
  }

  /** The event by which an action of this group is recorded. */
  function Record(s: State, a: Action): Event
    requires Enabled(s, a) && Moves(s, a)
  {
    match a
    case CheckStarted(t) => if s.started then Admitted(t) else Refused(t)
    case Push(t, _) => if s.queue.closed then Rejected(t) else Pushed(t)
    case Cancel(id) => Removed(id)
    case Finish(w, o) => Finished(s.workers[w].task, w, o)
    case TakeLock(w) => Popped(s.queue.elements[0], w, s.now)
  }

  /** Actions that move existing tasks along. */
  predicate Moves(s: State, a: Action) {
    a.CheckStarted? || a.Push? || a.Cancel? || a.Finish?
    || (a.TakeLock? && Decide(s.queue, s.now).Extract?)
  }

  /** Whether a task is in the queue after a moving action. */
  predicate QueuedAfter(s: State, a: Action, t: Task)
    requires Enabled(s, a) && Moves(s, a)
  {
    match a
    case Push(x, _) => t in s.queue.elements || (t == x && !s.queue.closed)
    case Cancel(id) => t in s.queue.elements && t.requestId != id
    case TakeLock(_) => t in s.queue.elements && t != s.queue.elements[0]
    case _ => t in s.queue.elements
  }

  lemma MovedQueue(s: State, a: Action)
    requires Sorted(s.queue.elements) && AllTracked(s) && FreshIds(s) && Enabled(s, a) && Moves(s, a)
    ensures forall t :: t in Apply(s, a).queue.elements <==> QueuedAfter(s, a, t)
  {
    match a
    case Push(x, _) =>
      InsertSound(s.queue.elements, x);
      assert Tracked(s, x);
      if y :| y in s.queue.elements && y.seqId == x.seqId {
        assert Tracked(s, y);
      }
    case Cancel(id) => WithoutExact(s.queue.elements, id);
    case TakeLock(_) =>
      forall t ensures t in s.queue.elements[1..] <==> t in s.queue.elements && t != s.queue.elements[0] {
        TailMembership(s.queue.elements, t);
      }
    case _ =>
  }

  /** Where the action finds the task it names. */
  ghost predicate FoundInPlace(s: State, a: Action)
    requires Enabled(s, a) && Moves(s, a)
  {
    match a
    case CheckStarted(t) => StatusOf(s.log, t) == Held
    case Push(t, _) => StatusOf(s.log, t) == Cleared
    case Finish(w, _) => StatusOf(s.log, s.workers[w].task) == Active(w)
    case TakeLock(_) => StatusOf(s.log, s.queue.elements[0]) == Pending
    case _ => true
  }

  lemma MovedTask(s: State, a: Action)
    requires AllTracked(s) && Enabled(s, a) && Moves(s, a)
    ensures FoundInPlace(s, a)
  {
    match a
    case CheckStarted(t) => assert Tracked(s, t);
    case Push(t, _) => assert Tracked(s, t);
    case Finish(w, _) => assert Tracked(s, s.workers[w].task);
    case TakeLock(_) => HeadIsMember(s.queue.elements); assert Tracked(s, s.queue.elements[0]);
    case _ =>
  }

  lemma StatusAppendAt(log: seq<Event>, e: Event, t: Task)
    ensures StatusOf(log + [e], t) == NextStatus(t, StatusOf(log, t), e)
  {
    assert (log + [e])[..|log|] == log;
  }

  /** A task the action does not move stays where the history says it is, and the one it
      moves arrives where its new status says. */
  lemma MovedByCheck(s: State, a: Action, t: Task)
    requires Enabled(s, a) && a.CheckStarted? && FoundInPlace(s, a)
    requires Tracked(s, t) && (t in Apply(s, a).queue.elements <==> QueuedAfter(s, a, t))
    ensures Tracked(Apply(s, a), t)
  {
    StatusAppendAt(s.log, Record(s, a), t);
  }

  lemma MovedByCancel(s: State, a: Action, t: Task)
    requires Enabled(s, a) && a.Cancel?
    requires Tracked(s, t) && (t in Apply(s, a).queue.elements <==> QueuedAfter(s, a, t))
    ensures Tracked(Apply(s, a), t)
  {
    StatusAppendAt(s.log, Record(s, a), t);
  }

  lemma MovedByPush(s: State, a: Action, t: Task)
    requires Enabled(s, a) && a.Push? && FoundInPlace(s, a)
    requires Tracked(s, t) && (t in Apply(s, a).queue.elements <==> QueuedAfter(s, a, t))
    ensures Tracked(Apply(s, a), t)
  {
    StatusAppendAt(s.log, Record(s, a), t);
  }

  lemma MovedByFinish(s: State, a: Action, t: Task)
    requires Enabled(s, a) && a.Finish? && FoundInPlace(s, a)
    requires Tracked(s, t) && (t in Apply(s, a).queue.elements <==> QueuedAfter(s, a, t))
    ensures Tracked(Apply(s, a), t)
  {
    StatusAppendAt(s.log, Record(s, a), t);
  }

  lemma MovedByExtract(s: State, a: Action, t: Task)
    requires Enabled(s, a) && a.TakeLock? && Moves(s, a) && FoundInPlace(s, a)
    requires Tracked(s, t) && (t in Apply(s, a).queue.elements <==> QueuedAfter(s, a, t))
    requires s.queue.elements[0] in s.queue.elements
    ensures Tracked(Apply(s, a), t)
  {
    StatusAppendAt(s.log, Record(s, a), t);
  }

  lemma MovesTracks(s: State, a: Action)
    requires Sorted(s.queue.elements) && AllTracked(s) && FreshIds(s) && Enabled(s, a) && Moves(s, a)
    ensures AllTracked(Apply(s, a))
  {
    MovedQueue(s, a);
    MovedTask(s, a);
    HeadIsMember(s.queue.elements);
    forall t ensures Tracked(Apply(s, a), t) {
      assert Tracked(s, t);
      if a.Push? { MovedByPush(s, a, t); }
      else if a.Finish? { MovedByFinish(s, a, t); }
      else if a.TakeLock? { MovedByExtract(s, a, t); }
      else if a.Cancel? { MovedByCancel(s, a, t); }
      else { MovedByCheck(s, a, t); }
    }
  }

  lemma MovesFresh(s: State, a: Action)
    requires FreshIds(s) && AllTracked(s) && Enabled(s, a) && Moves(s, a)
    ensures FreshIds(Apply(s, a))
  {
    MovedTask(s, a);
    StatusAppend(s.log, Record(s, a));
    forall t ensures StatusOf(Apply(s, a).log, t) != Unknown ==> StatusOf(s.log, t) != Unknown {
    }
  }

  /** What the history may say about the event: the order of extraction, no extraction by a
      busy worker, no insertion after close. */
  lemma MovesEvent(s: State, a: Action)
    requires Sorted(s.queue.elements) && ControlFits(s)
    requires AllTracked(s) && LogFits(s) && Enabled(s, a) && Moves(s, a)
    ensures EventOk(s.size, s.log, Record(s, a))
  {
    MovedTask(s, a);
    if a.TakeLock? {
      var head := s.queue.elements[0];
      ReadyIff(head, s.now);
      SortedTail(s.queue.elements);
      forall u ensures (StatusOf(s.log, u) == Pending && u != head ==> head.Before(u))
                    && StatusOf(s.log, u) != Active(a.worker) {
        assert Tracked(s, u);
        TailMembership(s.queue.elements, u);
      }
    }
  }

  lemma MovesHistory(s: State, a: Action)
    requires Inv(s) && Enabled(s, a) && Moves(s, a)
    ensures History(Apply(s, a))
  {
    MovesTracks(s, a);
    MovesFresh(s, a);
    MovesEvent(s, a);
    LogGrows(s, Apply(s, a), Record(s, a));
  }

  // ----- every step, every run -----

  lemma ShapeKept(s: State, a: Action)
    requires Shape(s) && Enabled(s, a)
    ensures Shape(Apply(s, a))
  {
    match a
    case Push(_, _) => if s.queue.closed { QuietShape(s, a); } else { PushShape(s, a); }
    case Cancel(_) => CancelShape(s, a);
    case TakeLock(w) => TakeLockShape(s, w);
    case TimeOut(_) => WakeShape(s, a);
    case WakeSpuriously(_) => WakeShape(s, a);
    case Finish(_, _) => WakeShape(s, a);
    case Spawn => SpawnShape(s, a);
    case NotifyAll => NotifyAllShape(s, a);
    case Join => JoinShape(s, a);
    case _ => QuietShape(s, a);
  }

  /** Actions of the thread that starts and stops the pool. */
  lemma ControlHistory(s: State, a: Action)
    requires Inv(s) && Enabled(s, a)
    requires a.CallStart? || a.Spawn? || a.CallStop? || a.CallDestructor? || a.SetClosed? || a.Join?
    ensures History(Apply(s, a))
  {
    if (a.CallStart? && !s.started) || (a.CallStop? && s.started) { FlagHistory(s, a); }
    else if a.SetClosed? { SetClosedHistory(s, a); }
    else if a.Join? { JoinHistory(s, a); }
    else { NoEvent(s, Apply(s, a)); }
  }

  /** A look at the queue that extracts nothing. */
  lemma LookHistory(s: State, w: nat)
    requires History(s) && Enabled(s, TakeLock(w)) && !Moves(s, TakeLock(w))
    ensures History(Apply(s, TakeLock(w)))
  {
    if Decide(s.queue, s.now).Leave? { LeaveHistory(s, w); }
    else { NoEvent(s, Apply(s, TakeLock(w))); }
  }

  lemma WakeHistory(s: State, a: Action)
    requires History(s) && Enabled(s, a) && (a.Tick? || a.TimeOut? || a.WakeSpuriously?)
    ensures History(Apply(s, a))
  {
    NoEvent(s, Apply(s, a));
  }

  lemma HistoryKept(s: State, a: Action)
    requires Inv(s) && Enabled(s, a)
    ensures History(Apply(s, a))
  {
    if Moves(s, a) { MovesHistory(s, a); }
    else if a.Create? { CreateHistory(s, a); }
    else if a.NotifyAll? {
      NotifyAllMovesNoTask(s);
      NotifyAllHistory(s, Apply(s, a));
    }
    else if a.TakeLock? { LookHistory(s, a.worker); }
    else if a.Tick? || a.TimeOut? || a.WakeSpuriously? { WakeHistory(s, a); }
    else { ControlHistory(s, a); }
  }

  /** Every step keeps the invariant, whichever thread takes it. */
  lemma StepKeeps(s: State, a: Action)
    requires Inv(s) && Enabled(s, a)
    ensures Inv(Apply(s, a))
  {
    ShapeKept(s, a);
    HistoryKept(s, a);
  }

  lemma {:induction false} RunKeeps(s: State, run: seq<Action>)
    requires Inv(s) && Legal(s, run)
    ensures Inv(After(s, run))
    decreases |run|
  {
    if run == [] {
    } else {
      StepKeeps(s, run[0]);
      RunKeeps(Apply(s, run[0]), run[1..]);
    }
  }

  /** The states some run of a pool of this size can be in. */
  ghost predicate Reachable(size: nat, s: State) {
    exists start: nat, run: seq<Action> ::
      Legal(Init(size, start), run) && After(Init(size, start), run) == s
  }

  lemma {:induction false} SizeIsFixed(s: State, run: seq<Action>)
    requires Legal(s, run)
    ensures After(s, run).size == s.size
    decreases |run|
  {
    if run == [] {
    } else {
      SizeIsFixed(Apply(s, run[0]), run[1..]);
    }
  }

  lemma ReachableInv(size: nat, s: State)
    requires Reachable(size, s)
    ensures Inv(s) && s.size == size
  {
    var start: nat, run: seq<Action> :|
      Legal(Init(size, start), run) && After(Init(size, start), run) == s;
    InitInv(size, start);
    RunKeeps(Init(size, start), run);
    SizeIsFixed(Init(size, start), run);
  }

  lemma OneAction(s: State, a: Action)
    requires Enabled(s, a)
    ensures Legal(s, [a]) && After(s, [a]) == Apply(s, a)
  {
    assert [a][1..] == [];
    assert Legal(Apply(s, a), []);
  }

  lemma ReachableStep(size: nat, s: State, a: Action)
    requires Reachable(size, s) && Enabled(s, a)
    ensures Reachable(size, Apply(s, a))
  {
    var start: nat, run: seq<Action> :|
      Legal(Init(size, start), run) && After(Init(size, start), run) == s;
    OneAction(s, a);
    RunConcat(Init(size, start), run, [a]);
  }
}
