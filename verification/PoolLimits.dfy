/** Where the pool's guarantees end: two promises that hold for some pools only, with the runs
    that break them for the others. */
module PoolLimits {
  import opened TaskTime
  import opened TaskQueues
  import opened Pool
  import opened PoolInvariant

  lemma ReachableInit(size: nat)
    ensures Reachable(size, Init(size, 0))
  {
    var start: nat := 0;
    assert Legal(Init(size, start), []) && After(Init(size, start), []) == Init(size, start);
  }

  // ----- stop leaves nothing behind -----

  ghost predicate StopLeavesNothing(size: nat) {
    forall s :: Reachable(size, s) && s.joined ==> s.queue.elements == []
  }

  /** Exactly the pools with at least one thread are drained by stop. */
  lemma StopLeavesNothingIff(size: nat)
    ensures StopLeavesNothing(size) <==> 1 <= size
  {
    if 1 <= size {
      forall s | Reachable(size, s) && s.joined ensures s.queue.elements == [] {
        ReachableInv(size, s);
      }
    } else {
      var s := AbandonedState();
    }
  }

  /** A pool without threads that was started and given a task. */
  lemma LoadedState() returns (s: State)
    ensures Reachable(0, s)
    ensures s.queue == QueueState([Task(1, 0, 0)], false)
    ensures s.started && s.control == Spawning(0) && s.workers == []
  {
    var t := Task(1, 0, 0);
    ReachableInit(0);
    var s1 := Apply(Init(0, 0), Create(t, 0, false));
    ReachableStep(0, Init(0, 0), Create(t, 0, false));
    var s2 := Apply(s1, CallStart);
    ReachableStep(0, s1, CallStart);
    var s3 := Apply(s2, CheckStarted(t));
    ReachableStep(0, s2, CheckStarted(t));
    s := Apply(s3, Push(t, Nobody));
    ReachableStep(0, s3, Push(t, Nobody));
  }

  lemma ClosedLoadedState() returns (s: State)
    ensures Reachable(0, s)
    ensures s.queue == QueueState([Task(1, 0, 0)], true)
    ensures s.control == Notifying && s.workers == []
  {
    var s4 := LoadedState();
    var s5 := Apply(s4, Spawn);
    ReachableStep(0, s4, Spawn);
    var s6 := Apply(s5, CallStop);
    ReachableStep(0, s5, CallStop);
    s := Apply(s6, SetClosed);
    ReachableStep(0, s6, SetClosed);
  }

  /** ... and stopped with the task still in the queue. */
  lemma AbandonedState() returns (s: State)
    ensures Reachable(0, s) && s.joined && s.queue.elements != []
  {
    var s7 := ClosedLoadedState();
    var s8 := Apply(s7, NotifyAll);
    ReachableStep(0, s7, NotifyAll);
    s := Apply(s8, Join);
    ReachableStep(0, s8, Join);
  }

  // ----- an idle worker and an overdue task -----

  /** A task is a millisecond overdue, a worker idles in the untimed wait, and nobody else is
      going to look at the queue until a running task ends or something new is pushed. */
  ghost predicate Overlooked(s: State, t: Task) {
    && t in s.queue.elements && t.due + 1_000_000 <= s.now
    && (exists w :: 0 <= w < |s.workers| && s.workers[w].Idle?)
    && (forall w :: 0 <= w < |s.workers| ==> s.workers[w].Idle? || s.workers[w].Running?)
  }

  predicate Allowed(run: seq<Action>, delayed: bool) {
    forall a :: a in run && a.Create? && a.delayed ==> delayed
  }

  /** Reachable by a run that creates delayed tasks only if that is allowed. */
  ghost predicate ReachableWith(size: nat, delayed: bool, s: State) {
    exists start: nat, run: seq<Action> ::
      && Legal(Init(size, start), run) && After(Init(size, start), run) == s
      && Allowed(run, delayed)
  }

  ghost predicate NeverOverlooks(size: nat, delayed: bool) {
    forall s, t :: ReachableWith(size, delayed, s) ==> !Overlooked(s, t)
  }

  /** An overdue task never waits beside an idle worker exactly when the pool has at most one
      thread or no task is ever delayed. */
  lemma NeverOverlooksIff(size: nat, delayed: bool)
    ensures NeverOverlooks(size, delayed) <==> size <= 1 || !delayed
  {
    if size <= 1 || !delayed {
      forall s, t | ReachableWith(size, delayed, s) ensures !Overlooked(s, t) {
        if Overlooked(s, t) {
          ReachableEither(size, delayed, s);
          ReachableInv(size, s);
          assert Idle in s.workers;
          if !delayed {
            WorkConserving(size, s);
            NobodyAwake(s.workers);
          }
        }
      }
    } else {
      var s, t := OverlookedState(size);
      ReachableEither(size, true, s);
    }
  }

  lemma ReachableEither(size: nat, delayed: bool, s: State)
    ensures ReachableWith(size, delayed, s) ==> Reachable(size, s)
    ensures delayed && Reachable(size, s) ==> ReachableWith(size, delayed, s)
  {
    if delayed && Reachable(size, s) {
      var start: nat, run: seq<Action> :|
        Legal(Init(size, start), run) && After(Init(size, start), run) == s;
      assert Legal(Init(size, start), run) && After(Init(size, start), run) == s && Allowed(run, delayed);
    }
  }

  // ----- a pool without delayed tasks -----

  function AwakeCount(ws: seq<Worker>): nat {
    if ws == [] then 0 else (if ws[0].Awake? then 1 else 0) + AwakeCount(ws[1..])
  }

  lemma {:induction false} AwakeUpdate(ws: seq<Worker>, w: nat, x: Worker)
    requires w < |ws|
    ensures AwakeCount(ws[w := x])
         == AwakeCount(ws) - (if ws[w].Awake? then 1 else 0) + (if x.Awake? then 1 else 0)
  {
    if w == 0 {
      assert ws[w := x][1..] == ws[1..];
    } else {
      assert ws[w := x][1..] == ws[1..][w - 1 := x];
      AwakeUpdate(ws[1..], w - 1, x);
    }
  }

  lemma {:induction false} AwakeAppend(ws: seq<Worker>)
    ensures AwakeCount(ws) <= AwakeCount(ws + [Awake])
  {
    if ws == [] {
    } else {
      assert (ws + [Awake])[1..] == ws[1..] + [Awake];
      AwakeAppend(ws[1..]);
    }
  }

  lemma {:induction false} NobodyAwake(ws: seq<Worker>)
    ensures (forall w :: 0 <= w < |ws| ==> !ws[w].Awake?) ==> AwakeCount(ws) == 0
  {
    if ws == [] {
    } else {
      NobodyAwake(ws[1..]);
    }
  }

  ghost predicate AllDue(s: State) {
    forall t :: t in s.held || t in s.admitted || t in s.queue.elements ==> t.due <= s.now
  }

  predicate NobodyTimed(ws: seq<Worker>) {
    forall w :: 0 <= w < |ws| ==> !ws[w].Timed?
  }

  /** While anyone idles, every pending task has a worker on its way. */
  predicate EnoughAwake(s: State) {
    Idle in s.workers ==> |s.queue.elements| <= AwakeCount(s.workers)
  }

  ghost predicate UndelayedInv(s: State) {
    AllDue(s) && NobodyTimed(s.workers) && EnoughAwake(s)
  }

  lemma PushUndelayed(s: State, t: Task, woken: Woken)
    requires UndelayedInv(s) && Enabled(s, Push(t, woken))
    ensures UndelayedInv(Apply(s, Push(t, woken)))
  {
    InsertAddsAtMostOne(s.queue.elements, t);
    if woken.One? {
      AwakeUpdate(s.workers, woken.worker, Awake);
    } else if !s.queue.closed {
      assert forall w :: 0 <= w < |s.workers| ==> !Waiting(s.workers[w]);
    }
  }

  lemma TakeLockUndelayed(s: State, w: nat)
    requires UndelayedInv(s) && Enabled(s, TakeLock(w))
    ensures UndelayedInv(Apply(s, TakeLock(w)))
  {
    var s' := Apply(s, TakeLock(w));
    AwakeUpdate(s.workers, w, s'.workers[w]);
    if s.queue.elements == [] {
    } else {
      HeadIsMember(s.queue.elements);
      ReadyIff(s.queue.elements[0], s.now);
      assert forall x :: x in s'.queue.elements ==> x in s.queue.elements;
    }
  }

  lemma WakeUndelayed(s: State, a: Action)
    requires UndelayedInv(s) && Enabled(s, a) && (a.TimeOut? || a.WakeSpuriously? || a.Finish?)
    ensures UndelayedInv(Apply(s, a))
  {
    AwakeUpdate(s.workers, a.worker, Awake);
  }

  lemma CancelUndelayed(s: State, requestId: nat)
    requires UndelayedInv(s)
    ensures UndelayedInv(Apply(s, Cancel(requestId)))
  {
    WithoutIsSubset(s.queue.elements, requestId);
  }

  lemma ProducerUndelayed(s: State, a: Action)
    requires UndelayedInv(s) && Enabled(s, a)
    requires a.Tick? || a.CheckStarted? || (a.Create? && !a.delayed)
    ensures UndelayedInv(Apply(s, a))
  {
  }

  lemma ControlUndelayed(s: State, a: Action)
    requires UndelayedInv(s) && Enabled(s, a)
    requires a.CallStart? || a.CallStop? || a.CallDestructor? || a.SetClosed? || a.Join?
    ensures UndelayedInv(Apply(s, a))
  {
  }

  lemma SpawnUndelayed(s: State)
    requires UndelayedInv(s) && Enabled(s, Spawn)
    ensures UndelayedInv(Apply(s, Spawn))
  {
    AwakeAppend(s.workers);
  }

  lemma NotifyAllUndelayed(s: State)
    requires UndelayedInv(s) && Enabled(s, NotifyAll)
    ensures UndelayedInv(Apply(s, NotifyAll))
  {
    assert Idle !in Apply(s, NotifyAll).workers;
  }

  lemma UndelayedStep(s: State, a: Action)
    requires UndelayedInv(s) && Enabled(s, a) && (a.Create? ==> !a.delayed)
    ensures UndelayedInv(Apply(s, a))
  {
    match a
    case Push(t, woken) => PushUndelayed(s, t, woken);
    case TakeLock(w) => TakeLockUndelayed(s, w);
    case TimeOut(_) => WakeUndelayed(s, a);
    case WakeSpuriously(_) => WakeUndelayed(s, a);
    case Finish(_, _) => WakeUndelayed(s, a);
    case Cancel(id) => CancelUndelayed(s, id);
    case Tick(_) => ProducerUndelayed(s, a);
    case CheckStarted(_) => ProducerUndelayed(s, a);
    case Create(_, _, _) => ProducerUndelayed(s, a);
    case Spawn => SpawnUndelayed(s);
    case NotifyAll => NotifyAllUndelayed(s);
    case _ => ControlUndelayed(s, a);
  }

  lemma {:induction false} UndelayedRun(s: State, run: seq<Action>)
    requires UndelayedInv(s) && Legal(s, run) && Allowed(run, false)
    ensures UndelayedInv(After(s, run))
    decreases |run|
  {
    if run == [] {
    } else {
      assert run[0] in run;
      UndelayedStep(s, run[0]);
      UndelayedRun(Apply(s, run[0]), run[1..]);
    }
  }

  /** In a pool of any size that is never given a delayed task, nobody idles while there is work
      nobody has been woken for: at most as many tasks are pending as workers are about to
      look. */
  lemma WorkConserving(size: nat, s: State)
    requires ReachableWith(size, false, s) && Idle in s.workers
    ensures |s.queue.elements| <= AwakeCount(s.workers)
  {
    var start: nat, run: seq<Action> :|
      && Legal(Init(size, start), run) && After(Init(size, start), run) == s
      && Allowed(run, false);
    UndelayedRun(Init(size, start), run);
  }

  /** A started pool whose first k threads exist and have not run yet. */
  predicate JustSpawned(s: State, size: nat, k: nat) {
    && k <= size
    && s == Init(size, 0).(started := true, workers := s.workers, control := Spawning(size - k), log := s.log)
    && |s.workers| == k && forall w :: 0 <= w < k ==> s.workers[w] == Awake
  }

  lemma {:induction false} SpawnedIsReachable(size: nat, k: nat) returns (s: State)
    requires k <= size
    ensures Reachable(size, s) && JustSpawned(s, size, k)
  {
    if k == 0 {
      ReachableInit(size);
      ReachableStep(size, Init(size, 0), CallStart);
      s := Apply(Init(size, 0), CallStart);
    } else {
      var p := SpawnedIsReachable(size, k - 1);
      ReachableStep(size, p, Spawn);
      s := Apply(p, Spawn);
    }
  }

  /** A started pool with an empty queue whose first k threads idle. */
  predicate IdleFrom(s: State, size: nat, k: nat) {
    && k <= size
    && s == Init(size, 0).(started := true, workers := s.workers, log := s.log)
    && |s.workers| == size
    && forall w :: 0 <= w < size ==> s.workers[w] == if w < k then Idle else Awake
  }

  lemma {:induction false} IdleIsReachable(size: nat, k: nat) returns (s: State)
    requires k <= size
    ensures Reachable(size, s) && IdleFrom(s, size, k)
  {
    if k == 0 {
      var p := SpawnedIsReachable(size, size);
      ReachableStep(size, p, Spawn);
      s := Apply(p, Spawn);
    } else {
      var p := IdleIsReachable(size, k - 1);
      ReachableStep(size, p, TakeLock(k - 1));
      s := Apply(p, TakeLock(k - 1));
    }
  }

  /** All workers idle, with a task due later and a task due now about to be pushed. */
  lemma TwoTasksState(size: nat, later: Task, soon: Task) returns (s: State)
    requires later == Task(1, 0, 2_000_000) && soon == Task(2, 0, 0)
    ensures Reachable(size, s) && s.queue == QueueState([], false) && s.admitted == {later, soon}
    ensures |s.workers| == size && s.now == 0 && forall w :: 0 <= w < size ==> s.workers[w] == Idle
  {
    var s0 := IdleIsReachable(size, size);
    var s1 := Apply(s0, Create(later, 0, true));
    ReachableStep(size, s0, Create(later, 0, true));
    var s2 := Apply(s1, Create(soon, 0, false));
    ReachableStep(size, s1, Create(soon, 0, false));
    var s3 := Apply(s2, CheckStarted(later));
    ReachableStep(size, s2, CheckStarted(later));
    s := Apply(s3, CheckStarted(soon));
    ReachableStep(size, s3, CheckStarted(soon));
  }

  /** Worker 0 waits for the task due later, the others idle, and the task due now is at hand. */
  lemma WaitingState(size: nat, later: Task, soon: Task) returns (s: State)
    requires 2 <= size && later == Task(1, 0, 2_000_000) && soon == Task(2, 0, 0)
    ensures Reachable(size, s) && s.queue == QueueState([later], false) && soon in s.admitted
    ensures |s.workers| == size && s.now == 0
    ensures s.workers[0] == Timed(2_000_000) && forall w :: 0 < w < size ==> s.workers[w] == Idle
  {
    var s4 := TwoTasksState(size, later, soon);
    var s5 := Apply(s4, Push(later, One(0)));
    ReachableStep(size, s4, Push(later, One(0)));
    assert s5.queue == QueueState([later], false);
    s := Apply(s5, TakeLock(0));
    ReachableStep(size, s5, TakeLock(0));
    assert Decide(s5.queue, 0) == WaitFor(2);
  }

  /** Pushing the task that is due wakes the one timed waiter, which runs it ... */
  lemma MisledState(size: nat, later: Task, soon: Task) returns (s: State)
    requires 2 <= size && later == Task(1, 0, 2_000_000) && soon == Task(2, 0, 0)
    ensures Reachable(size, s) && s.queue.elements == [later] && s.now == 0 && |s.workers| == size
    ensures s.workers[0] == Running(soon) && forall w :: 0 < w < size ==> s.workers[w] == Idle
  {
    var s6 := WaitingState(size, later, soon);
    var s7 := Apply(s6, Push(soon, One(0)));
    ReachableStep(size, s6, Push(soon, One(0)));
    assert soon.Before(later) && s7.queue == QueueState([soon, later], false);
    s := Apply(s7, TakeLock(0));
    ReachableStep(size, s7, TakeLock(0));
  }

  /** ... while the first task's due time passes and the other workers sleep on. */
  lemma OverlookedState(size: nat) returns (s: State, later: Task)
    requires 2 <= size
    ensures Reachable(size, s) && Overlooked(s, later)
  {
    later := Task(1, 0, 2_000_000);
    var s8 := MisledState(size, later, Task(2, 0, 0));
    s := Apply(s8, Tick(3_000_000));
    ReachableStep(size, s8, Tick(3_000_000));
    assert s.workers[1] == Idle;
    assert s.queue.elements[0] == later;
  }
}
