/** Where the poll engine's guarantees end: what holds for some pools and some ways of calling
    start and stop only, with the runs that break it for the others. */
module PollLimits {
  import opened TaskTime
  import opened PollEngine
  import opened PollTheorems

  /** No two callbacks are in progress at the same time. */
  ghost predicate Exclusive(e: Engine) {
    forall i, j :: 0 <= i < j < |e.threads| ==>
      !(e.threads[i].at.InCallback? && e.threads[j].at.InCallback?)
  }

  lemma OneAtATime(e: Engine)
    requires Inv(e) && (e.workers <= 1 || !e.hasCallback || Total(Live, e) <= 1)
    ensures Exclusive(e)
  {
    forall i, j | 0 <= i < j < |e.threads| && e.threads[i].at.InCallback? && e.threads[j].at.InCallback?
      ensures false
    {
      TwoWeigh(Live, e.threads, i, j);
      TwoWeigh(Holding, e.threads, i, j);
    }
  }

  // ----- overlapping callbacks -----

  ghost predicate AlwaysExclusive(workers: nat, starts: nat) {
    forall e :: Reachable(e) && e.workers == workers && e.starts <= starts ==> Exclusive(e)
  }

  /** A pool thread runs the only poll task up to the point where it has seen m_running set. */
  lemma RunToCallback(e: Engine) returns (e': Engine)
    requires Reachable(e) && e.running && |e.tasks| == 1 && e.tasks[0].due <= e.now && FreeWorker(e)
    ensures Reachable(e')
    ensures e' == e.(tasks := [], threads := e.threads + [Thread(true, Cleared)])
  {
    ReadyIff(e.tasks[0], e.now);
    var e1 := Extend(e, PickUp(0));
    assert e1.threads == e.threads + [Thread(true, Entered)] && e1.tasks == [];
    e' := Extend(e1, CheckRunning(|e.threads|));
  }

  predicate Setting(e: Engine, workers: nat, others: nat) {
    e.workers == workers && e.others == others && e.hasCallback && e.now == 0 && e.interval == 0
  }

  lemma Started(workers: nat) returns (e: Engine)
    ensures Reachable(e) && Setting(e, workers, 0) && e.running && e.starts == 1 && e.stops == []
    ensures e.threads == [Thread(false, Over)] && |e.tasks| == 1 && e.tasks[0].due == 0
  {
    ReachableFresh(workers, true, 0, 0);
    var e1 := Extend(Fresh(workers, true, 0, 0), Start);
    assert e1.threads == [Thread(false, Scheduling)];
    e := Schedule(e1, 0);
    assert e.threads == [Thread(false, Over)];
  }

  /** A started engine about to call back, while this many pool threads are busy otherwise. */
  lemma AboutToCallBack(workers: nat, others: nat) returns (e: Engine)
    requires others <= 1 && others < workers
    ensures Reachable(e) && Setting(e, workers, others) && e.running && e.starts == 1
    ensures e.threads == [Thread(false, Over), Thread(true, Cleared)] && e.tasks == [] && e.stops == []
  {
    e := Started(workers);
    if others == 1 { e := Extend(e, OtherBegins); }
    e := RunToCallback(e);
  }

  /** stop returns although a callback is still about to begin. */
  lemma StopOvertaken(workers: nat) returns (e: Engine)
    requires 1 <= workers
    ensures Reachable(e) && Setting(e, workers, 0) && e.starts == 1 && e.stops == [Returned]
    ensures e.threads == [Thread(false, Over), Thread(true, Cleared)] && e.tasks == []
  {
    e := AboutToCallBack(workers, 0);
    e := Extend(e, StopFlag);
    e := Extend(e, StopLoad(0));
    e := Extend(e, StopCancel(0));
  }

  lemma RestartAfterStop(workers: nat) returns (e: Engine)
    requires 2 <= workers
    ensures Reachable(e) && Setting(e, workers, 0) && e.starts == 2 && e.stops == [Returned] && e.running
    ensures e.threads == [Thread(false, Over), Thread(true, Cleared), Thread(false, Over)]
    ensures |e.tasks| == 1 && e.tasks[0].due == 0 && FreeWorker(e)
  {
    var e1 := StopOvertaken(workers);
    var e2 := Extend(e1, Start);
    assert e2.threads[2] == Thread(false, Scheduling);
    e := Schedule(e2, 2);
    WeighAppend(Holding, [], Thread(false, Over));
    WeighAppend(Holding, [Thread(false, Over)], Thread(true, Cleared));
    WeighAppend(Holding, [Thread(false, Over), Thread(true, Cleared)], Thread(false, Over));
  }

  /** start, stop, start: although stop had returned before the second start, two callbacks
      overlap. */
  lemma RestartOverlaps(workers: nat) returns (e: Engine)
    requires 2 <= workers
    ensures Reachable(e) && e.workers == workers && e.starts == 2 && e.stops == [Returned]
    ensures !Exclusive(e)
  {
    e := RestartAfterStop(workers);
    e := RunToCallback(e);
    e := Extend(e, BeginCallback(1));
    e := Extend(e, BeginCallback(3));
    assert e.threads[1].at.InCallback? && e.threads[3].at.InCallback?;
  }

  /** Callbacks never overlap exactly when the pool has at most one thread or start is called at
      most once. */
  lemma AlwaysExclusiveIff(workers: nat, starts: nat)
    ensures AlwaysExclusive(workers, starts) <==> workers <= 1 || starts <= 1
  {
    if workers <= 1 || starts <= 1 {
      forall e | Reachable(e) && e.workers == workers && e.starts <= starts ensures Exclusive(e) {
        ReachableInv(e);
        OneAtATime(e);
      }
    } else {
      var e := RestartOverlaps(workers);
    }
  }

  // ----- when one more start is dangerous -----

  lemma {:induction false} NoStartKeeps(e: Engine, run: seq<Step>)
    requires Legal(e, run) && NoStart(run)
    ensures Total(Live, After(e, run)) <= Total(Live, e)
    ensures After(e, run).workers == e.workers && After(e, run).hasCallback == e.hasCallback
    decreases |run|
  {
    if run == [] {
    } else {
      assert run[0] in run;
      LiveStep(e, run[0]);
      NoStartKeeps(Do(e, run[0]), run[1..]);
    }
  }

  /** What stays as it is while the threads in run_impl are driven to its end. */
  predicate SameBut(e: Engine, e': Engine) {
    && e'.workers == e.workers && e'.hasCallback == e.hasCallback && e'.running == e.running
    && Total(Live, e') == Total(Live, e)
  }

  predicate InRunImpl(p: Point) {
    !p.Over? && !Polling(p)
  }

  function NextInRunImpl(p: Point, i: nat): Step
    requires InRunImpl(p)
  {
    match p
    case Scheduling => ReadInterval(i)
    case IntervalRead(_) => Stamp(i)
    case Stamped(_) => DrawId(i)
    case IdDrawn(_, _) => StoreId(i)
    case IdStored(_) => LoadId(i)
    case IdLoaded(_, _) => Dispatch(i, false)
  }

  lemma OneStepAhead(e: Engine, i: nat)
    requires i < |e.threads| && InRunImpl(e.threads[i].at)
    ensures var x := NextInRunImpl(e.threads[i].at, i);
      && Can(e, x) && ThreadStep(x) && x.thread == i
      && !Polling(Destination(e, x))
      && (Destination(e, x).Over? <==> x.Dispatch?)
      && Weigh(StepsLeft, Thread(true, Destination(e, x))) < Weigh(StepsLeft, e.threads[i])
  {
  }

  lemma OneStepInRunImpl(e: Engine, i: nat)
    requires i < |e.threads| && InRunImpl(e.threads[i].at)
    ensures var x := NextInRunImpl(e.threads[i].at, i);
      && Can(e, x) && ThreadStep(x)
      && SameBut(e, Do(e, x))
      && Do(e, x).threads == Moved(e.threads, i, Destination(e, x))
  {
    OneStepAhead(e, i);
    ThreadWeight(Live, e, NextInRunImpl(e.threads[i].at, i));
  }

  /** The thread finishes run_impl; its task is pending afterwards. */
  lemma {:induction false} FinishOne(e0: Engine, e: Engine, i: nat) returns (e': Engine)
    requires Reaches(e0, e) && i < |e.threads| && !Polling(e.threads[i].at)
    ensures Reaches(e0, e') && SameBut(e, e') && e'.threads == Moved(e.threads, i, Over)
    decreases Weigh(StepsLeft, e.threads[i])
  {
    if e.threads[i].at.Over? {
      e' := e;
    } else {
      OneStepAhead(e, i);
      OneStepInRunImpl(e, i);
      var e1 := Further(e0, e, NextInRunImpl(e.threads[i].at, i));
      e' := FinishOne(e0, e1, i);
    }
  }

  predicate OutOfRunImpl(threads: seq<Thread>, n: nat) {
    forall i :: 0 <= i < n <= |threads| ==> !InRunImpl(threads[i].at)
  }

  lemma {:induction false} FinishAll(e0: Engine, e: Engine, n: nat) returns (e': Engine)
    requires Reaches(e0, e) && n <= |e.threads|
    ensures Reaches(e0, e') && SameBut(e, e') && |e'.threads| == |e.threads|
    ensures OutOfRunImpl(e'.threads, n)
  {
    if n == 0 {
      e' := e;
    } else {
      e' := FinishAll(e0, e, n - 1);
      if !Polling(e'.threads[n - 1].at) {
        e' := FinishOne(e0, e', n - 1);
      }
    }
  }

  lemma {:induction false} FinishOthers(e0: Engine, e: Engine) returns (e': Engine)
    requires Reaches(e0, e)
    ensures Reaches(e0, e') && SameBut(e, e') && e'.threads == e.threads && e'.others == 0
    decreases e.others
  {
    if e.others == 0 {
      e' := e;
    } else {
      var e1 := Further(e0, e, OtherEnds);
      e' := FinishOthers(e0, e1);
    }
  }

  /** All live poll tasks are pending or hold a pool thread, and no other thread is taken. */
  ghost predicate Settled(e: Engine) {
    && WeighAll(Holding, e.threads) == WeighAll(Live, e.threads) && e.others == 0
    && OutOfRunImpl(e.threads, |e.threads|)
  }

  lemma {:induction false} LiveIsHolding(threads: seq<Thread>)
    requires OutOfRunImpl(threads, |threads|)
    requires forall i :: 0 <= i < |threads| && Polling(threads[i].at) ==> threads[i].onPool
    ensures WeighAll(Holding, threads) == WeighAll(Live, threads)
  {
    if threads == [] {
    } else {
      assert forall i :: 0 <= i < |threads[1..]| ==> threads[1..][i] == threads[i + 1];
      LiveIsHolding(threads[1..]);
    }
  }

  lemma Settle(e0: Engine, e: Engine) returns (e': Engine)
    requires Reachable(e0) && Reaches(e0, e)
    ensures Reaches(e0, e') && SameBut(e, e') && Settled(e')
  {
    var e1 := FinishAll(e0, e, |e.threads|);
    e' := FinishOthers(e0, e1);
    ReachedIsReachable(e0, e');
    ReachableInv(e');
    LiveIsHolding(e'.threads);
  }

  lemma LetTimePass(e0: Engine, e: Engine) returns (e': Engine)
    requires Reaches(e0, e) && e.tasks != []
    ensures Reaches(e0, e') && e' == e.(now := e'.now) && e'.tasks[0].Ready(e'.now)
  {
    e' := Further(e0, e, Tick(if e.now <= e.tasks[0].due then e.tasks[0].due else e.now));
    ReadyIff(e'.tasks[0], e'.now);
  }

  /** A free pool thread takes a pending poll task, when its time has come. */
  lemma TakeOne(e0: Engine, e: Engine) returns (e': Engine)
    requires Reaches(e0, e) && Settled(e) && FreeWorker(e) && e.tasks != []
    ensures Reaches(e0, e') && SameBut(e, e') && Settled(e')
    ensures WeighAll(Holding, e'.threads) == WeighAll(Holding, e.threads) + 1
  {
    var e1 := LetTimePass(e0, e);
    e' := Further(e0, e1, PickUp(0));
    assert e'.threads == e.threads + [Thread(true, Entered)];
    WeighAppend(Live, e.threads, Thread(true, Entered));
    WeighAppend(Holding, e.threads, Thread(true, Entered));
  }

  /** If that many poll tasks live and the pool has the threads, so many threads hold one. */
  lemma {:induction false} Gather(e0: Engine, e: Engine, n: nat) returns (e': Engine)
    requires Reaches(e0, e) && Settled(e) && n <= e.workers && n <= Total(Live, e)
    ensures Reaches(e0, e') && SameBut(e, e') && Settled(e')
    ensures n <= WeighAll(Holding, e'.threads)
    decreases n - WeighAll(Holding, e.threads)
  {
    if n <= WeighAll(Holding, e.threads) {
      e' := e;
    } else {
      var e1 := TakeOne(e0, e);
      e' := Gather(e0, e1, n);
    }
  }

  lemma {:induction false} FindOne(w: Weight, threads: seq<Thread>) returns (i: nat)
    requires 1 <= WeighAll(w, threads)
    ensures i < |threads| && 1 <= Weigh(w, threads[i])
  {
    if 1 <= Weigh(w, threads[0]) {
      i := 0;
    } else {
      i := FindOne(w, threads[1..]);
      i := i + 1;
    }
  }

  lemma FindTwo(threads: seq<Thread>) returns (i: nat, j: nat)
    requires 2 <= WeighAll(Holding, threads)
    ensures i < |threads| && j < |threads| && i != j
    ensures !threads[i].at.Over? && !threads[j].at.Over?
  {
    var none := Thread(false, Over);
    i := FindOne(Holding, threads);
    WeighUpdate(Holding, threads, i, none);
    j := FindOne(Holding, threads[i := none]);
  }

  /** A thread in poll_impl goes on until it is in the callback. */
  lemma GoCallBack(e0: Engine, e: Engine, i: nat) returns (e': Engine)
    requires Reaches(e0, e) && i < |e.threads| && Polling(e.threads[i].at) && e.running && e.hasCallback
    ensures Reaches(e0, e') && e'.running && e'.hasCallback
    ensures e'.threads == Moved(e.threads, i, InCallback)
  {
    e' := e;
    if e'.threads[i].at.Entered? { e' := Further(e0, e', CheckRunning(i)); }
    if e'.threads[i].at.Cleared? { e' := Further(e0, e', BeginCallback(i)); }
  }

  lemma TwoLiveOverlap(e0: Engine) returns (e: Engine)
    requires Reachable(e0) && e0.running && e0.hasCallback && 2 <= e0.workers && 2 <= Total(Live, e0)
    ensures Reaches(e0, e) && !Exclusive(e)
  {
    ReachesSelf(e0);
    var e1 := Settle(e0, e0);
    var e2 := Gather(e0, e1, 2);
    var i, j := FindTwo(e2.threads);
    var e3 := GoCallBack(e0, e2, i);
    e := GoCallBack(e0, e3, j);
    var low, high := if i < j then i else j, if i < j then j else i;
    assert e.threads[low].at.InCallback? && e.threads[high].at.InCallback?;
  }

  /** Calling start once more can lead to overlapping callbacks, whatever stops come after it,
      exactly when a callback is set, the pool has at least two threads and something of an
      earlier start is still pending, running or about to be dispatched. */
  lemma RestartOverlapsIff(e: Engine)
    requires Reachable(e)
    ensures (exists e' :: Reaches(Do(e, Start), e') && !Exclusive(e'))
       <==> e.hasCallback && 2 <= e.workers && 1 <= Total(Live, e)
  {
    var e0 := Extend(e, Start);
    WeighAppend(Live, e.threads, Thread(false, Scheduling));
    if e.hasCallback && 2 <= e.workers && 1 <= Total(Live, e) {
      var e' := TwoLiveOverlap(e0);
    }
    if e' :| Reaches(e0, e') && !Exclusive(e') {
      var run :| Legal(e0, run) && NoStart(run) && After(e0, run) == e';
      NoStartKeeps(e0, run);
      ReachedIsReachable(e0, e');
      ReachableInv(e');
      if e'.workers <= 1 || !e'.hasCallback || Total(Live, e') <= 1 { OneAtATime(e'); }
    }
  }

  // ----- polling goes on -----

  ghost predicate CallingBack(e: Engine) {
    exists i :: 0 <= i < |e.threads| && e.threads[i].at.InCallback?
  }

  lemma OneLiveCallsBack(e: Engine) returns (e': Engine)
    requires Reachable(e) && e.running && e.hasCallback && 1 <= e.workers && 1 <= Total(Live, e)
    ensures Reaches(e, e') && CallingBack(e')
  {
    ReachesSelf(e);
    var e1 := Settle(e, e);
    var e2 := Gather(e, e1, 1);
    var i := FindOne(Holding, e2.threads);
    e' := GoCallBack(e, e2, i);
    assert e'.threads[i].at.InCallback?;
  }

  lemma CallbackNeeds(e: Engine)
    requires Inv(e) && CallingBack(e)
    ensures e.hasCallback && 1 <= e.workers && 1 <= Total(Live, e)
  {
    var i :| 0 <= i < |e.threads| && e.threads[i].at.InCallback?;
    WeighUpdate(Live, e.threads, i, Thread(false, Over));
    WeighUpdate(Holding, e.threads, i, Thread(false, Over));
  }

  /** While m_running is set a callback can follow, without another start, exactly when one is
      set, the pool has a thread, and some poll task is pending, running or about to be
      dispatched: so one call of start keeps the engine polling. */
  lemma CallbackFollowsIff(e: Engine)
    requires Reachable(e) && e.running
    ensures (exists e' :: Reaches(e, e') && CallingBack(e'))
       <==> e.hasCallback && 1 <= e.workers && 1 <= Total(Live, e)
  {
    if e.hasCallback && 1 <= e.workers && 1 <= Total(Live, e) {
      var e' := OneLiveCallsBack(e);
    }
    if e' :| Reaches(e, e') && CallingBack(e') {
      var run :| Legal(e, run) && NoStart(run) && After(e, run) == e';
      NoStartKeeps(e, run);
      ReachedIsReachable(e, e');
      ReachableInv(e');
      CallbackNeeds(e');
    }
  }

  // ----- a callback after stop has begun -----

  /** stop is called by a task, or by the callback, on one of the pool's threads. */
  ghost predicate CalledOnPool(e: Engine) {
    1 <= e.others || exists i :: 0 <= i < |e.threads| && e.threads[i].at.InCallback?
  }

  ghost predicate NeverLate(workers: nat, onPool: bool) {
    forall e, run ::
      Reachable(e) && e.workers == workers && (onPool ==> CalledOnPool(e))
      && run != [] && run[0] == StopFlag && Legal(e, run) && NoStart(run)
      ==> CallbacksBegun(run) == 0
  }

  lemma NobodyAboutToCallBack(e: Engine)
    requires Inv(e) && (e.workers == 0 || (e.workers == 1 && CalledOnPool(e)))
    ensures WeighAll(MayCallBack, e.threads) == 0
  {
    if 1 <= WeighAll(MayCallBack, e.threads) {
      var i := FindOne(MayCallBack, e.threads);
      WeighUpdate(Holding, e.threads, i, Thread(false, Over));
      if j: nat :| j < |e.threads| && e.threads[j].at.InCallback? {
        if i < j { TwoWeigh(Holding, e.threads, i, j); } else { TwoWeigh(Holding, e.threads, j, i); }
      }
    }
  }

  /** No callback begins once stop has cleared m_running, until the next start, exactly for pools without
      threads and for pools of one thread when stop is called on that thread. */
  lemma NeverLateIff(workers: nat, onPool: bool)
    ensures NeverLate(workers, onPool) <==> workers == 0 || (workers == 1 && onPool)
  {
    if workers == 0 || (workers == 1 && onPool) {
      forall e, run |
        Reachable(e) && e.workers == workers && (onPool ==> CalledOnPool(e))
        && run != [] && run[0] == StopFlag && Legal(e, run) && NoStart(run)
        ensures CallbacksBegun(run) == 0
      {
        ReachableInv(e);
        NobodyAboutToCallBack(e);
        assert NoStart(run[1..]);
        StoppedRun(Do(e, StopFlag), run[1..]);
      }
    } else {
      var e := AboutToCallBack(workers, if onPool then 1 else 0);
      var rest := OneCallback(Do(e, StopFlag), 1);
      var run := [StopFlag] + rest;
      assert run[1..] == rest;
      assert Legal(e, run) && NoStart(run) && CallbacksBegun(run) == 1;
    }
  }
}
