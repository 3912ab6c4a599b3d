/** What users of the pool may rely on, in every reachable state and over every run. */
module PoolTheorems {
  import opened TaskTime
  import opened TaskQueues
  import opened TaskBases
  import opened Pool
  import opened PoolInvariant
  import opened TaskLife

  // ----- what the theorems use of a reachable state's history -----

  lemma ReachablePossible(size: nat, s: State)
    requires Reachable(size, s)
    ensures Possible(s.log)
  {
    ReachableInv(size, s);
    forall t ensures StatusOf(s.log, t) != Impossible {
      assert Tracked(s, t);
    }
  }

  lemma ReachableEvent(size: nat, s: State, i: nat)
    requires Reachable(size, s) && i < |s.log|
    ensures EventOk(size, s.log[..i], s.log[i])
  {
    ReachableInv(size, s);
  }

  /** An extraction, and any other task at that moment. */
  lemma ReachablePop(size: nat, s: State, j: nat, u: Task)
    requires Reachable(size, s) && j < |s.log| && s.log[j].Popped?
    ensures s.log[j].task.due < s.log[j].at + 1_000_000 && s.log[j].worker < size
    ensures StatusAt(s.log, j, u) == Pending && u != s.log[j].task ==> s.log[j].task.Before(u)
    ensures StatusAt(s.log, j, u) != Active(s.log[j].worker)
  {
    ReachableEvent(size, s, j);
  }

  ghost predicate NoPushAfterClose(log: seq<Event>) {
    forall c, p :: 0 <= c < p < |log| && log[p].Pushed? ==> log[c] != Closed
  }

  lemma ReachableNoPushAfterClose(size: nat, s: State)
    requires Reachable(size, s)
    ensures NoPushAfterClose(s.log)
  {
    forall c, p | 0 <= c < p < |s.log| && s.log[p].Pushed? ensures s.log[c] != Closed {
      ReachableEvent(size, s, p);
      assert s.log[..p][c] == s.log[c];
    }
  }

  // ----- conservation, at most once -----

  predicate SameMilestone(e: Event, f: Event) {
    && ((e.Created? && f.Created?) || (e.Pushed? && f.Pushed?)
        || (e.Popped? && f.Popped?) || (e.Finished? && f.Finished?))
    && e.task == f.task
  }

  /** No task is created, accepted, extracted or finished twice. */
  lemma AtMostOnce(size: nat, s: State, i: nat, j: nat)
    requires Reachable(size, s) && i < j < |s.log|
    ensures !SameMilestone(s.log[i], s.log[j])
  {
    ReachablePossible(size, s);
    NamedEvent(s.log, i);
    NamedEvent(s.log, j);
    if SameMilestone(s.log[i], s.log[j]) {
      LifeMovesForward(s.log, i + 1, j, s.log[i].task);
    }
  }

  predicate RunBy(s: State, t: Task, w: nat) {
    IsWorker(s, w) && s.workers[w] == Running(t)
  }

  /** Conservation: the accepted tasks are the disjoint union of those in the queue, those
      being run, those that returned, those that threw and those that were cancelled; and a
      task in the queue is in it once, a task being run is run by one worker. */
  lemma Conservation(size: nat, s: State, t: Task)
    requires Reachable(size, s)
    ensures Pushed(t) in s.log <==>
      || t in s.queue.elements
      || (exists w :: RunBy(s, t, w))
      || StatusOf(s.log, t).Done?
      || StatusOf(s.log, t).Cancelled?
    ensures t in s.queue.elements ==>
      && !(exists w :: RunBy(s, t, w))
      && !StatusOf(s.log, t).Done? && !StatusOf(s.log, t).Cancelled?
      && multiset(s.queue.elements)[t] == 1
    ensures forall w :: RunBy(s, t, w) ==>
      && !StatusOf(s.log, t).Done? && !StatusOf(s.log, t).Cancelled?
      && forall v :: RunBy(s, t, v) ==> v == w
  {
    ReachablePossible(size, s);
    AcceptedStatus(s.log, t);
    WhereItIs(size, s, t);
    var st := StatusOf(s.log, t);
    assert st.Active? ==> RunBy(s, t, st.worker);
  }

  lemma WhereItIs(size: nat, s: State, t: Task)
    requires Reachable(size, s)
    ensures t in s.queue.elements <==> StatusOf(s.log, t) == Pending
    ensures multiset(s.queue.elements)[t] == if t in s.queue.elements then 1 else 0
    ensures forall w: nat :: RunBy(s, t, w) <==> StatusOf(s.log, t) == Active(w)
  {
    ReachableInv(size, s);
    assert Tracked(s, t);
    SortedHasNoDuplicates(s.queue.elements, t);
  }

  lemma {:induction false} SortedHasNoDuplicates(q: seq<Task>, t: Task)
    requires Sorted(q)
    ensures multiset(q)[t] == if t in q then 1 else 0
  {
    if q == [] {
    } else {
      assert q == [q[0]] + q[1..];
      SortedTail(q);
      SortedHasNoDuplicates(q[1..], t);
    }
  }

  // ----- promises -----

  /** What the future of a task shows at this point of the history. */
  function PromiseOf(log: seq<Event>, t: Task): Promise {
    SettleAll(Unset, HandlingsOf(log, t))
  }

  /** Every future settles at most once: with a value iff the body returned, with an exception
      iff it threw, with broken_promise iff the task was cancelled while pending, and not yet
      while the task is pending, running or with its producer. */
  lemma FutureSettlesOnce(size: nat, s: State, t: Task)
    requires Reachable(size, s)
    ensures Settlements(Unset, HandlingsOf(s.log, t)) <= 1
    ensures PromiseOf(s.log, t) ==
      match StatusOf(s.log, t)
      case Done(Returned) => Value
      case Done(Threw) => Promise.Exception
      case Cancelled => Abandoned
      case _ => Unset
  {
    ReachablePossible(size, s);
    assert s.log[..|s.log|] == s.log;
    HandlingsMatchStatus(s.log, |s.log|, t);
    if HandlingsOf(s.log, t) == [] {
    } else {
      FirstHandlingDecides(HandlingsOf(s.log, t));
    }
  }

  lemma FinishMoves(size: nat, s: State, w: nat, outcome: Outcome)
    requires Reachable(size, s) && Enabled(s, Finish(w, outcome))
    ensures StatusOf(s.log, s.workers[w].task) == Active(w)
    ensures StatusOf(Apply(s, Finish(w, outcome)).log, s.workers[w].task) == Done(outcome)
  {
    var t := s.workers[w].task;
    WhereItIs(size, s, t);
    assert RunBy(s, t, w);
    StatusAppendAt(s.log, Finished(t, w, outcome), t);
  }

  /** A worker that is done with a task leaves the body's outcome in the task's future. */
  lemma FinishSettles(size: nat, s: State, w: nat, outcome: Outcome)
    requires Reachable(size, s) && Enabled(s, Finish(w, outcome))
    ensures PromiseOf(s.log, s.workers[w].task) == Unset
    ensures PromiseOf(Apply(s, Finish(w, outcome)).log, s.workers[w].task)
         == if outcome == Returned then Value else Promise.Exception
  {
    FinishMoves(size, s, w, outcome);
    ReachableStep(size, s, Finish(w, outcome));
    FutureSettlesOnce(size, s, s.workers[w].task);
    FutureSettlesOnce(size, Apply(s, Finish(w, outcome)), s.workers[w].task);
  }

  /** Cancellation breaks the promises of exactly the pending tasks with the id. */
  lemma CancelSettles(size: nat, s: State, requestId: nat, t: Task)
    requires Reachable(size, s)
    ensures PromiseOf(Apply(s, Cancel(requestId)).log, t) ==
      if t in s.queue.elements && t.requestId == requestId then Abandoned else PromiseOf(s.log, t)
  {
    var s' := Apply(s, Cancel(requestId));
    ReachableStep(size, s, Cancel(requestId));
    WhereItIs(size, s, t);
    FutureSettlesOnce(size, s, t);
    FutureSettlesOnce(size, s', t);
    StatusAppendAt(s.log, Removed(requestId), t);
  }

  // ----- order -----

  /** If a sorts before b and was accepted before b was extracted, then before b was
      extracted a was itself extracted or cancelled. Any number of workers and producers. */
  lemma ExtractionOrder(size: nat, s: State, a: Task, b: Task, i: nat, j: nat) returns (k: nat)
    requires Reachable(size, s) && i < j < |s.log|
    requires s.log[i] == Pushed(a) && s.log[j].Popped? && s.log[j].task == b
    requires a.Before(b)
    ensures i < k < j
    ensures (s.log[k].Popped? && s.log[k].task == a) || s.log[k] == Removed(a.requestId)
  {
    ReachablePossible(size, s);
    NamedEvent(s.log, i);
    ReachablePop(size, s, j, a);
    BeforeIsStrictOrder(a, b, a);
    k := SomethingMovedIt(s.log, i + 1, j, a);
    PossibleThroughout(s.log, k + 1, a);
  }

  /** A worker finishes one task before it extracts the next. */
  lemma WorkerTakesTurns(size: nat, s: State, i: nat, j: nat) returns (k: nat)
    requires Reachable(size, s) && i < j < |s.log|
    requires s.log[i].Popped? && s.log[j].Popped? && s.log[i].worker == s.log[j].worker
    ensures i < k < j
    ensures s.log[k].Finished? && s.log[k].task == s.log[i].task && s.log[k].worker == s.log[i].worker
  {
    ReachablePossible(size, s);
    var a, w := s.log[i].task, s.log[i].worker;
    NamedEvent(s.log, i);
    ReachablePop(size, s, j, a);
    k := SomethingMovedIt(s.log, i + 1, j, a);
    PossibleThroughout(s.log, k + 1, a);
  }

  /** One thread, one producer: an undelayed task whose construction ended before the next
      one's began, and which was accepted before the next one was, has finished or been
      cancelled when the next one is extracted, whatever other producers do meanwhile. */
  lemma SingleThreadFifo(s: State, a: Task, b: Task, c: nat, d: nat, i: nat, j: nat) returns (k: nat)
    requires Reachable(1, s) && c < d < |s.log| && i < j < |s.log|
    requires s.log[c].Created? && s.log[c].task == a && !s.log[c].delayed
    requires s.log[d].Created? && s.log[d].task == b && !s.log[d].delayed
    requires s.log[c].at <= s.log[d].stamp
    requires s.log[i] == Pushed(a) && s.log[j].Popped? && s.log[j].task == b
    ensures i < k < j
    ensures (s.log[k].Finished? && s.log[k].task == a) || s.log[k] == Removed(a.requestId)
  {
    ReachablePossible(1, s);
    assert a.Before(b) by {
      ReachableEvent(1, s, c);
      ReachableEvent(1, s, d);
      NamedEvent(s.log, c);
      LifeMovesForward(s.log, c + 1, d, a);
      DueMsMonotone(a, b);
    }
    k := ExtractionOrder(1, s, a, b, i, j);
    if s.log[k].Popped? {
      ReachablePop(1, s, k, a);
      ReachablePop(1, s, j, a);
      k := WorkerTakesTurns(1, s, k, j);
    }
  }

  // ----- timing -----

  /** No task starts a millisecond or more before it is due. */
  lemma NeverEarly(size: nat, s: State, j: nat)
    requires Reachable(size, s) && j < |s.log| && s.log[j].Popped?
    ensures s.log[j].at > s.log[j].task.due - 1_000_000
  {
    ReachablePop(size, s, j, s.log[j].task);
  }

  /** When a worker decides to wait on the head, nothing anywhere in the queue is due. */
  lemma WaitingMeansNothingDue(size: nat, s: State)
    requires Reachable(size, s) && Decide(s.queue, s.now).WaitFor?
    ensures forall t :: t in s.queue.elements ==> t.due > s.now
  {
    ReachableInv(size, s);
    forall t | t in s.queue.elements ensures t.due > s.now {
      SortedTail(s.queue.elements);
      TailMembership(s.queue.elements, t);
      HeadOfLine(s.queue.elements[0], t, s.now);
    }
  }

  /** No lost wake-up: while tasks are pending, some worker is awake or busy, or wakes by
      itself less than a millisecond after the due time of every pending task. */
  lemma DeadlineCoverage(size: nat, s: State)
    requires Reachable(size, s) && s.workers != [] && s.queue.elements != []
    ensures exists w ::
      && 0 <= w < |s.workers|
      && (s.workers[w].Awake? || s.workers[w].Running?
          || (s.workers[w].Timed?
              && forall t :: t in s.queue.elements ==> s.workers[w].deadline < t.due + 1_000_000))
  {
    ReachableInv(size, s);
    var w :| 0 <= w < |s.workers| && Covers(s.workers[w], s.queue.elements);
  }

  /** A task a millisecond overdue is never stuck: some worker can take the lock, is running
      a task, or has a wait that has already expired. */
  lemma OverdueIsNeverStuck(size: nat, s: State, t: Task)
    requires Reachable(size, s) && s.workers != []
    requires t in s.queue.elements && t.due + 1_000_000 <= s.now
    ensures exists w: nat ::
      && IsWorker(s, w)
      && (Enabled(s, TakeLock(w)) || Enabled(s, Finish(w, Returned)) || Enabled(s, TimeOut(w)))
  {
    DeadlineCoverage(size, s);
    var w :| 0 <= w < |s.workers| &&
      (s.workers[w].Awake? || s.workers[w].Running?
       || (s.workers[w].Timed?
           && forall t :: t in s.queue.elements ==> s.workers[w].deadline < t.due + 1_000_000));
    assert IsWorker(s, w);
  }

  // ----- start -----

  /** A pool that is started, and whose start has returned, has as many threads as it was
      configured for. */
  lemma StartCreatesTheThreads(size: nat, s: State)
    requires Reachable(size, s) && s.started && s.control.Between? && !s.joined
    ensures |s.workers| == size
  {
    ReachableInv(size, s);
  }

  /** add_task gets past its first check exactly between a start and the next stop, and past the
      queue's exactly before close. */
  lemma AdmissionFollowsTheFlag(size: nat, s: State, i: nat)
    requires Reachable(size, s) && i < |s.log|
    ensures s.log[i].Admitted? ==> OpenIn(s.log[..i])
    ensures s.log[i].Refused? ==> !OpenIn(s.log[..i])
    ensures s.log[i].Pushed? ==> Closed !in s.log[..i]
    ensures s.log[i].Rejected? ==> Closed in s.log[..i]
  {
    ReachableEvent(size, s, i);
  }

  /** ... and each attempt gets its answer at once: an admitted task is on its way to the queue,
      a refused one stays with its producer ... */
  lemma CheckIsAnswered(size: nat, s: State, t: Task)
    requires Reachable(size, s) && t in s.held
    ensures Enabled(s, CheckStarted(t))
    ensures var s' := Apply(s, CheckStarted(t));
      if OpenIn(s.log) then s'.log == s.log + [Admitted(t)] && t in s'.admitted && t !in s'.held
      else s'.log == s.log + [Refused(t)] && t in s'.held && t !in s'.admitted
  {
    ReachableInv(size, s);
    assert Tracked(s, t);
  }

  /** ... an accepted one is in the queue, once, and a rejected one is back with its producer; the
      push is never held up, whoever waits. */
  lemma PushIsAnswered(size: nat, s: State, t: Task) returns (woken: Woken)
    requires Reachable(size, s) && t in s.admitted
    ensures Enabled(s, Push(t, woken))
    ensures woken == Nobody <==> Closed in s.log || forall w :: 0 <= w < |s.workers| ==> !Waiting(s.workers[w])
    ensures var s' := Apply(s, Push(t, woken));
      if Closed !in s.log then
        && s'.log == s.log + [Pushed(t)] && t !in s'.admitted && t !in s'.held
        && multiset(s'.queue.elements) == multiset(s.queue.elements) + multiset{t}
      else
        && s'.log == s.log + [Rejected(t)] && s'.queue == s.queue
        && t in s'.held && t !in s'.admitted
  {
    PushFacts(size, s, t);
    woken := Nobody;
    if !s.queue.closed {
      InsertAddsExactlyOne(s.queue.elements, t);
      if w: nat :| w < |s.workers| && Waiting(s.workers[w]) { woken := One(w); }
    }
  }

  lemma PushFacts(size: nat, s: State, t: Task)
    requires Reachable(size, s) && t in s.admitted
    ensures t !in s.held && Sorted(s.queue.elements)
    ensures Closed in s.log <==> s.queue.closed
    ensures forall x :: x in s.queue.elements ==> x.seqId != t.seqId
  {
    ReachableInv(size, s);
    assert Tracked(s, t);
    forall x | x in s.queue.elements ensures x.seqId != t.seqId {
      assert Tracked(s, x);
    }
  }

  // ----- who has left -----

  ghost predicate LeaversLogged(s: State) {
    forall w: nat :: WorkerLeft(w) in s.log <==> w < |s.workers| && s.workers[w].Exited?
  }

  lemma LeaversTakeLock(s: State, w: nat)
    requires LeaversLogged(s) && Enabled(s, TakeLock(w))
    ensures LeaversLogged(Apply(s, TakeLock(w)))
  {
    var s' := Apply(s, TakeLock(w));
    forall v: nat ensures WorkerLeft(v) in s'.log <==> v < |s'.workers| && s'.workers[v].Exited? {
      assert WorkerLeft(v) in s.log <==> v < |s.workers| && s.workers[v].Exited?;
    }
  }

  lemma LeaversWorker(s: State, a: Action)
    requires LeaversLogged(s) && Enabled(s, a)
    requires a.TimeOut? || a.WakeSpuriously? || a.Finish? || (a.Push? && !s.queue.closed)
    ensures LeaversLogged(Apply(s, a))
  {
  }

  lemma LeaversControl(s: State, a: Action)
    requires LeaversLogged(s) && Enabled(s, a) && (a.Spawn? || a.NotifyAll?)
    ensures LeaversLogged(Apply(s, a))
  {
  }

  lemma LeaversOther(s: State, a: Action)
    requires LeaversLogged(s) && Enabled(s, a) && Apply(s, a).workers == s.workers
    requires s.log <= Apply(s, a).log
    requires forall i :: |s.log| <= i < |Apply(s, a).log| ==> !Apply(s, a).log[i].WorkerLeft?
    ensures LeaversLogged(Apply(s, a))
  {
    var log, log' := s.log, Apply(s, a).log;
    assert log' == log + log'[|log|..];
    forall w: nat ensures WorkerLeft(w) in log' <==> WorkerLeft(w) in log {
      assert WorkerLeft(w) !in log'[|log|..];
    }
  }

  lemma LeaversStep(s: State, a: Action)
    requires LeaversLogged(s) && Enabled(s, a)
    ensures LeaversLogged(Apply(s, a))
  {
    match a
    case TakeLock(w) => LeaversTakeLock(s, w);
    case TimeOut(_) => LeaversWorker(s, a);
    case WakeSpuriously(_) => LeaversWorker(s, a);
    case Finish(_, _) => LeaversWorker(s, a);
    case Push(_, _) => if s.queue.closed { LeaversOther(s, a); } else { LeaversWorker(s, a); }
    case Spawn => LeaversControl(s, a);
    case NotifyAll => LeaversControl(s, a);
    case _ => LeaversOther(s, a);
  }

  lemma {:induction false} LeaversRun(s: State, run: seq<Action>)
    requires LeaversLogged(s) && Legal(s, run)
    ensures LeaversLogged(After(s, run))
    decreases |run|
  {
    if run == [] {
    } else {
      LeaversStep(s, run[0]);
      LeaversRun(Apply(s, run[0]), run[1..]);
    }
  }

  /** The threads that have ended are exactly those the history reports as having left. */
  lemma LeaversAreKnown(size: nat, s: State, w: nat)
    requires Reachable(size, s)
    ensures WorkerLeft(w) in s.log <==> IsWorker(s, w) && s.workers[w].Exited?
  {
    var start: nat, run: seq<Action> :|
      Legal(Init(size, start), run) && After(Init(size, start), run) == s;
    LeaversRun(Init(size, start), run);
  }

  // ----- stop -----

  /** stop was called on a started pool, or the destructor ran. */
  predicate StopBegan(s: State, run: seq<Action>)
    requires Legal(s, run)
    decreases |run|
  {
    run != []
    && (run[0].CallDestructor? || (run[0].CallStop? && OpenIn(s.log))
        || StopBegan(Apply(s, run[0]), run[1..]))
  }

  predicate InStop(s: State) {
    s.queue.closed || s.notified || s.joined
    || s.control.Closing? || s.control.Notifying? || s.control.Joining?
  }

  lemma NoStopStep(s: State, a: Action)
    requires Enabled(s, a) && !InStop(s) && !a.CallDestructor? && (a.CallStop? ==> !s.started)
    ensures !InStop(Apply(s, a))
  {
  }

  lemma {:induction false} NoStopRun(size: nat, s: State, run: seq<Action>)
    requires Reachable(size, s) && !InStop(s) && Legal(s, run) && !StopBegan(s, run)
    ensures !InStop(After(s, run))
    decreases |run|
  {
    if run == [] {
    } else {
      ReachableInv(size, s);
      NoStopStep(s, run[0]);
      ReachableStep(size, s, run[0]);
      NoStopRun(size, Apply(s, run[0]), run[1..]);
    }
  }

  /** A pool is closed, woken up and joined only because stop was called while it was started, or
      the destructor ran: stop on a pool that is not started throws and changes nothing. */
  lemma ClosingHasACause(size: nat, start: nat, run: seq<Action>)
    requires Legal(Init(size, start), run) && InStop(After(Init(size, start), run))
    ensures StopBegan(Init(size, start), run)
  {
    if !StopBegan(Init(size, start), run) {
      assert Legal(Init(size, start), []) && After(Init(size, start), []) == Init(size, start);
      NoStopRun(size, Init(size, start), run);
    }
  }

  /** After close nothing becomes pending any more. */
  lemma {:induction false} StaysOut(log: seq<Event>, c: nat, i: nat, j: nat, t: Task)
    requires NoPushAfterClose(log) && c < i <= j <= |log| && log[c] == Closed
    requires StatusAt(log, i, t) != Pending
    ensures StatusAt(log, j, t) != Pending
    decreases j
  {
    if i == j {
    } else {
      StaysOut(log, c, i, j - 1, t);
      StatusStep(log, j - 1, t);
    }
  }

  /** With at least one thread, by the time stop (or the destructor) returns every task ever
      accepted has run to its end or was cancelled, those that slipped in between the
      started flag and the closing of the queue included; and so it stays. */
  lemma StopDrains(size: nat, s: State, t: Task, i: nat)
    requires 1 <= size && Reachable(size, s) && i < |s.log| && s.log[i] == Joined
    requires Pushed(t) in s.log
    ensures StatusAt(s.log, i, t).Done? || StatusAt(s.log, i, t).Cancelled?
    ensures StatusOf(s.log, t) == StatusAt(s.log, i, t)
  {
    ReachablePossible(size, s);
    ReachableNoPushAfterClose(size, s);
    ReachableEvent(size, s, i);
    var c :| 0 <= c < i && s.log[..i][c] == Closed;
    var p :| 0 <= p < |s.log| && s.log[p] == Pushed(t);
    assert p < i;
    NamedEvent(s.log, p);
    StaysAccepted(s.log, p + 1, i, t);
    StatusNow(s.log, t);
    LifeMovesForward(s.log, i, |s.log|, t);
    PossibleThroughout(s.log, |s.log|, t);
  }

  /** So nobody waits in vain on the future of an accepted task: it is ready, and shows how the
      task ended. */
  lemma StopSettlesEveryFuture(size: nat, s: State, t: Task)
    requires 1 <= size && Reachable(size, s) && s.joined && Pushed(t) in s.log
    ensures PromiseOf(s.log, t) != Unset
    ensures PromiseOf(s.log, t) == Value <==> StatusOf(s.log, t) == Done(Returned)
    ensures PromiseOf(s.log, t) == Promise.Exception <==> StatusOf(s.log, t) == Done(Threw)
    ensures PromiseOf(s.log, t) == Abandoned <==> StatusOf(s.log, t) == Cancelled
  {
    ClosedWasLogged(size, s);
    var i :| 0 <= i < |s.log| && s.log[i] == Joined;
    StopDrains(size, s, t, i);
    FutureSettlesOnce(size, s, t);
  }

  /** A worker leaves only when the queue has been closed and nothing is pending, so a
      throwing task never costs the pool a thread; and nothing becomes pending later. */
  lemma WorkersLeaveLast(size: nat, s: State, i: nat, j: nat, t: Task)
    requires Reachable(size, s) && i < |s.log| && s.log[i].WorkerLeft?
    requires i <= j <= |s.log|
    ensures Closed in s.log[..i] && StatusAt(s.log, j, t) != Pending
  {
    ReachableNoPushAfterClose(size, s);
    ReachableEvent(size, s, i);
    var c :| 0 <= c < i && s.log[..i][c] == Closed;
    StaysOut(s.log, c, i, j, t);
  }

  lemma StepGrows(s: State, a: Action)
    requires Enabled(s, a)
    ensures s.log <= Apply(s, a).log
    ensures s.joined ==> Apply(s, a).joined
  {
  }

  lemma {:induction false} HistoryGrows(s: State, run: seq<Action>)
    requires Legal(s, run)
    ensures s.log <= After(s, run).log
    ensures s.joined ==> After(s, run).joined
    decreases |run|
  {
    if run == [] {
    } else {
      StepGrows(s, run[0]);
      HistoryGrows(Apply(s, run[0]), run[1..]);
    }
  }

  lemma ReachableAfter(size: nat, s: State, run: seq<Action>)
    requires Reachable(size, s) && Legal(s, run)
    ensures Reachable(size, After(s, run))
  {
    var start: nat, first: seq<Action> :|
      Legal(Init(size, start), first) && After(Init(size, start), first) == s;
    RunConcat(Init(size, start), first, run);
  }

  /** Close is final: whatever is called afterwards, start included, no task is ever accepted
      again. */
  lemma CloseIsFinal(size: nat, s: State, run: seq<Action>, i: nat)
    requires Reachable(size, s) && s.queue.closed && Legal(s, run)
    requires |s.log| <= i < |After(s, run).log|
    ensures !After(s, run).log[i].Pushed?
  {
    ClosedWasLogged(size, s);
    var c :| 0 <= c < |s.log| && s.log[c] == Closed;
    ReachableAfter(size, s, run);
    ReachableNoPushAfterClose(size, After(s, run));
    HistoryGrows(s, run);
    assert After(s, run).log[c] == Closed;
  }

  lemma ClosedWasLogged(size: nat, s: State)
    requires Reachable(size, s)
    ensures s.queue.closed ==> Closed in s.log
    ensures s.joined ==> Joined in s.log
  {
    ReachableInv(size, s);
  }

  /** A pool that has been stopped is dead: whatever is called afterwards, a second start
      included, no worker extracts anything ... */
  lemma StoppedPoolRunsNothing(size: nat, s: State, run: seq<Action>, i: nat)
    requires 1 <= size && Reachable(size, s) && s.joined && Legal(s, run)
    requires |s.log| <= i < |After(s, run).log|
    ensures !After(s, run).log[i].Popped?
  {
    var s' := After(s, run);
    ClosedWasLogged(size, s);
    var d :| 0 <= d < |s.log| && s.log[d] == Joined;
    ReachableAfter(size, s, run);
    ReachablePossible(size, s');
    ReachableNoPushAfterClose(size, s');
    HistoryGrows(s, run);
    assert s'.log[d] == Joined;
    ReachableEvent(size, s', d);
    var c :| 0 <= c < d && s'.log[..d][c] == Closed;
    if s'.log[i].Popped? {
      NamedEvent(s'.log, i);
      StaysOut(s'.log, c, d, i, s'.log[i].task);
    }
  }

  lemma StoppedIsEmpty(size: nat, s: State)
    requires 1 <= size && Reachable(size, s) && s.joined
    ensures s.queue == QueueState([], true)
  {
    ReachableInv(size, s);
  }

  /** ... and every worker that gets the lock leaves at once. */
  lemma StoppedPoolSendsWorkersHome(size: nat, s: State, run: seq<Action>, w: nat)
    requires 1 <= size && Reachable(size, s) && s.joined && Legal(s, run)
    requires Enabled(After(s, run), TakeLock(w))
    ensures Apply(After(s, run), TakeLock(w)).workers[w] == Exited
  {
    ReachableAfter(size, s, run);
    HistoryGrows(s, run);
    StoppedIsEmpty(size, After(s, run));
  }
}
