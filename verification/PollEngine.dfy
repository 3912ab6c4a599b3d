/** PollEngineImpl as a transition system: start, stop and poll_impl interleave at every access
    to the engine's atomic fields. The pool below is used through what it guarantees: it runs
    a task only when the task is ready, each on one of its threads, which is then taken until
    the task ends, and it cancels by request id what it has not handed out. */
module PollEngine {
  import opened TaskTime
  import opened TaskQueues

  /** Where a thread stands in poll_impl or in the run_impl at its end (or at the end of start). */
  datatype Point =
    | Entered                            // poll_impl, before m_running is read
    | Cleared                            // m_running was true
    | InCallback
    | Scheduling                         // run_impl
    | IntervalRead(ms: int)
    | Stamped(due: int)                  // set_due_time done
    | IdDrawn(due: int, id: nat)
    | IdStored(due: int)                 // m_poll_request_id written
    | IdLoaded(due: int, id: nat)        // ... and read again for dispatch
    | Over

  /** A pool thread running poll_impl, or a caller of start. */
  datatype Thread = Thread(onPool: bool, at: Point)

  /** Where a thread stands in stop_impl. */
  datatype StopPoint = FlagCleared | LoadedId(id: nat) | Returned

  datatype Engine = Engine(
    workers: nat,                        // threads of the pool
    others: nat,                         // how many of them run tasks that are not polls
    hasCallback: bool,
    now: int,
    running: bool,
    interval: int,
    requestId: nat,
    lastId: nat,
    tasks: seq<Task>,                    // pending poll tasks; their sequence ids play no part
    threads: seq<Thread>,
    stops: seq<StopPoint>,
    starts: nat,                         // how often start was called
    startedAt: int,                      // when it was last called
    callbacks: seq<int>)                 // when the callbacks began

  function Fresh(workers: nat, hasCallback: bool, now: int, interval: int): Engine {
    Engine(workers, 0, hasCallback, now, false, interval, 0, 0, [], [], [], 0, 0, [])
  }

  datatype Step =
    | Tick(to: int)
    | SetInterval(ms: int)
    | OtherIds(last: nat)                // other users of create_request_id
    | OtherBegins                        // a pool thread takes up another task
    | OtherEnds
    | Start
    | StopFlag
    | StopLoad(stop: nat)
    | StopCancel(stop: nat)
    | PickUp(task: nat)                  // a pool thread extracts a poll task
    | CheckRunning(thread: nat)
    | BeginCallback(thread: nat)
    | SkipCallback(thread: nat)          // no callback is set
    | EndCallback(thread: nat, threw: bool)
    | ReadInterval(thread: nat)
    | Stamp(thread: nat)
    | DrawId(thread: nat)
    | StoreId(thread: nat)
    | LoadId(thread: nat)
    | Dispatch(thread: nat, refused: bool)

  // ----- weighing the poll tasks that are alive -----

  datatype Weight =
    | Live                               // pending, running or about to be dispatched
    | Holding                            // taking up a pool thread
    | MayCallBack                        // past the check, before the callback
    | StepsLeft                          // once m_running is false

  function Weigh(w: Weight, t: Thread): nat {
    match w
    case Live => if t.at.Over? then 0 else 1
    case Holding => if t.at.Over? || !t.onPool then 0 else 1
    case MayCallBack => if t.at.Cleared? then 1 else 0
    case StepsLeft =>
      match t.at
      case Over => 0
      case Entered => 1
      case IdLoaded(_, _) => 3
      case IdStored(_) => 4
      case IdDrawn(_, _) => 5
      case Stamped(_) => 6
      case IntervalRead(_) => 7
      case Scheduling => 8
      case InCallback => 9
      case Cleared => 10
  }

  function WeighTask(w: Weight): nat {
    match w
    case Live => 1
    case Holding => 0
    case MayCallBack => 0
    case StepsLeft => 2
  }

  function WeighAll(w: Weight, threads: seq<Thread>): nat {
    if threads == [] then 0 else Weigh(w, threads[0]) + WeighAll(w, threads[1..])
  }

  function Total(w: Weight, e: Engine): nat {
    WeighAll(w, e.threads) + WeighTask(w) * |e.tasks|
  }

  // ----- steps -----

  predicate FreeWorker(e: Engine) {
    WeighAll(Holding, e.threads) + e.others < e.workers
  }

  predicate At(e: Engine, i: nat, p: Point) {
    i < |e.threads| && e.threads[i].at == p
  }

  predicate Can(e: Engine, x: Step) {
    match x
    case Tick(to) => e.now <= to
    case SetInterval(_) => true
    case OtherIds(last) => e.lastId <= last
    case OtherBegins => FreeWorker(e)
    case OtherEnds => 1 <= e.others
    case Start => true
    case StopFlag => true
    case StopLoad(j) => j < |e.stops| && e.stops[j] == FlagCleared
    case StopCancel(j) => j < |e.stops| && e.stops[j].LoadedId?
    case PickUp(k) => k < |e.tasks| && e.tasks[k].Ready(e.now) && FreeWorker(e)
    case CheckRunning(i) => At(e, i, Entered)
    case BeginCallback(i) => At(e, i, Cleared) && e.hasCallback
    case SkipCallback(i) => At(e, i, Cleared) && !e.hasCallback
    case EndCallback(i, _) => At(e, i, InCallback)
    case ReadInterval(i) => At(e, i, Scheduling)
    case Stamp(i) => i < |e.threads| && e.threads[i].at.IntervalRead?
    case DrawId(i) => i < |e.threads| && e.threads[i].at.Stamped?
    case StoreId(i) => i < |e.threads| && e.threads[i].at.IdDrawn?
    case LoadId(i) => i < |e.threads| && e.threads[i].at.IdStored?
    case Dispatch(i, _) => i < |e.threads| && e.threads[i].at.IdLoaded?
  }

  /** Thread i moves on to p. */
  function Moved(threads: seq<Thread>, i: nat, p: Point): seq<Thread>
    requires i < |threads|
  {
    threads[i := threads[i].(at := p)]
  }

  /** Where a step leads the thread that takes it. */
  function Destination(e: Engine, x: Step): Point
    requires Can(e, x) && ThreadStep(x)
  {
    var p := e.threads[x.thread].at;
    match x
    case CheckRunning(_) => if e.running then Cleared else Over
    case BeginCallback(_) => InCallback
    case SkipCallback(_) => Scheduling
    case EndCallback(_, threw) => if threw then Over else Scheduling
    case ReadInterval(_) => IntervalRead(e.interval)
    case Stamp(_) => Stamped(e.now + FromMs(p.ms))
    case DrawId(_) => IdDrawn(p.due, e.lastId + 1)
    case StoreId(_) => IdStored(p.due)
    case LoadId(_) => IdLoaded(p.due, e.requestId)
    case Dispatch(_, _) => Over
  }

  predicate ThreadStep(x: Step) {
    x.CheckRunning? || x.BeginCallback? || x.SkipCallback? || x.EndCallback? || x.ReadInterval?
    || x.Stamp? || x.DrawId? || x.StoreId? || x.LoadId? || x.Dispatch?
  }

  function DoThread(e: Engine, x: Step): Engine
    requires Can(e, x) && ThreadStep(x)
  {
    var p := e.threads[x.thread].at;
    var e' := e.(threads := Moved(e.threads, x.thread, Destination(e, x)));
    match x
    case BeginCallback(_) => e'.(callbacks := e.callbacks + [e.now])
    case DrawId(_) => e'.(lastId := e.lastId + 1)
    case StoreId(_) => e'.(requestId := p.id)
    case Dispatch(_, refused) => if refused then e' else e'.(tasks := e.tasks + [Task(0, p.id, p.due)])
    case _ => e'
  }

  function Do(e: Engine, x: Step): Engine
    requires Can(e, x)
  {
    match x
    case Tick(to) => e.(now := to)
    case SetInterval(ms) => e.(interval := ms)
    case OtherIds(last) => e.(lastId := last)
    case OtherBegins => e.(others := e.others + 1)
    case OtherEnds => e.(others := e.others - 1)
    case Start =>
      e.(running := true, starts := e.starts + 1, startedAt := e.now,
         threads := e.threads + [Thread(false, Scheduling)])
    case StopFlag => e.(running := false, stops := e.stops + [FlagCleared])
    case StopLoad(j) => e.(stops := e.stops[j := LoadedId(e.requestId)])
    case StopCancel(j) =>
      e.(tasks := Without(e.tasks, e.stops[j].id), stops := e.stops[j := Returned])
    case PickUp(k) =>
      e.(tasks := e.tasks[..k] + e.tasks[k + 1..], threads := e.threads + [Thread(true, Entered)])
    case _ => DoThread(e, x)
  }

  // ----- runs -----

  predicate Legal(e: Engine, run: seq<Step>)
    decreases |run|
  {
    run == [] || (Can(e, run[0]) && Legal(Do(e, run[0]), run[1..]))
  }

  function After(e: Engine, run: seq<Step>): Engine
    requires Legal(e, run)
    decreases |run|
  {
    if run == [] then e else After(Do(e, run[0]), run[1..])
  }

  predicate NoStart(run: seq<Step>) {
    forall x :: x in run ==> !x.Start?
  }

  /** The states some engine on some pool can be in. */
  ghost predicate Reachable(e: Engine) {
    exists now, interval, run ::
      && Legal(Fresh(e.workers, e.hasCallback, now, interval), run)
      && After(Fresh(e.workers, e.hasCallback, now, interval), run) == e
  }

  /** The states that can follow without another call of start. */
  ghost predicate Reaches(e: Engine, e': Engine) {
    exists run :: Legal(e, run) && NoStart(run) && After(e, run) == e'
  }

  lemma {:induction false} RunOneMore(e: Engine, run: seq<Step>, x: Step)
    requires Legal(e, run) && Can(After(e, run), x)
    ensures Legal(e, run + [x]) && After(e, run + [x]) == Do(After(e, run), x)
    decreases |run|
  {
    if run == [] {
      assert run + [x] == [x];
      assert [x][1..] == [];
    } else {
      assert (run + [x])[1..] == run[1..] + [x];
      RunOneMore(Do(e, run[0]), run[1..], x);
    }
  }

  lemma ReachesSelf(e: Engine)
    ensures Reaches(e, e)
  {
    var run: seq<Step> := [];
    assert Legal(e, run) && NoStart(run) && After(e, run) == e;
  }

  lemma Further(e0: Engine, e: Engine, x: Step) returns (e': Engine)
    requires Reaches(e0, e) && Can(e, x) && !x.Start?
    ensures e' == Do(e, x) && Reaches(e0, e')
  {
    var run :| Legal(e0, run) && NoStart(run) && After(e0, run) == e;
    RunOneMore(e0, run, x);
    assert NoStart(run + [x]);
    e' := Do(e, x);
  }

  lemma {:induction false} ReachesAlong(a: Engine, b: Engine, run: seq<Step>)
    requires Reaches(a, b) && Legal(b, run) && NoStart(run)
    ensures Reaches(a, After(b, run))
    decreases |run|
  {
    if run == [] {
    } else {
      assert run[0] in run;
      var b' := Further(a, b, run[0]);
      ReachesAlong(a, b', run[1..]);
    }
  }

  lemma ReachesTwice(a: Engine, b: Engine, c: Engine)
    requires Reaches(a, b) && Reaches(b, c)
    ensures Reaches(a, c)
  {
    var run :| Legal(b, run) && NoStart(run) && After(b, run) == c;
    ReachesAlong(a, b, run);
  }

  lemma ReachableFresh(workers: nat, hasCallback: bool, now: int, interval: int)
    ensures Reachable(Fresh(workers, hasCallback, now, interval))
  {
    assert Legal(Fresh(workers, hasCallback, now, interval), []);
    assert After(Fresh(workers, hasCallback, now, interval), []) == Fresh(workers, hasCallback, now, interval);
  }

  lemma Extend(e: Engine, x: Step) returns (e': Engine)
    requires Reachable(e) && Can(e, x)
    ensures e' == Do(e, x) && Reachable(e')
  {
    var now, interval, run :|
      && Legal(Fresh(e.workers, e.hasCallback, now, interval), run)
      && After(Fresh(e.workers, e.hasCallback, now, interval), run) == e;
    RunOneMore(Fresh(e.workers, e.hasCallback, now, interval), run, x);
    e' := Do(e, x);
  }

  lemma {:induction false} StaysReachable(e: Engine, run: seq<Step>)
    requires Reachable(e) && Legal(e, run)
    ensures Reachable(After(e, run))
    decreases |run|
  {
    if run == [] {
    } else {
      var e' := Extend(e, run[0]);
      StaysReachable(e', run[1..]);
    }
  }

  // ----- how weights change -----

  lemma {:induction false} WeighUpdate(w: Weight, threads: seq<Thread>, i: nat, t: Thread)
    requires i < |threads|
    ensures WeighAll(w, threads[i := t]) == WeighAll(w, threads) - Weigh(w, threads[i]) + Weigh(w, t)
  {
    if i == 0 {
      assert threads[i := t][1..] == threads[1..];
    } else {
      assert threads[i := t][1..] == threads[1..][i - 1 := t];
      WeighUpdate(w, threads[1..], i - 1, t);
    }
  }

  lemma {:induction false} WeighAppend(w: Weight, threads: seq<Thread>, t: Thread)
    ensures WeighAll(w, threads + [t]) == WeighAll(w, threads) + Weigh(w, t)
  {
    if threads == [] {
      assert threads + [t] == [t];
      assert [t][1..] == [];
    } else {
      assert (threads + [t])[1..] == threads[1..] + [t];
      WeighAppend(w, threads[1..], t);
    }
  }

  lemma TwoWeigh(w: Weight, threads: seq<Thread>, i: nat, j: nat)
    requires i < j < |threads| && 1 <= Weigh(w, threads[i]) && 1 <= Weigh(w, threads[j])
    ensures 2 <= WeighAll(w, threads)
  {
    var none := Thread(false, Over);
    WeighUpdate(w, threads, i, none);
    WeighUpdate(w, threads[i := none], j, none);
  }

  lemma {:induction false} WeightsCompare(threads: seq<Thread>)
    ensures WeighAll(MayCallBack, threads) <= WeighAll(Live, threads)
    ensures WeighAll(StepsLeft, threads) <= 10 * WeighAll(Live, threads)
  {
    if threads == [] {
    } else {
      WeightsCompare(threads[1..]);
    }
  }

  lemma ThreadWeight(w: Weight, e: Engine, x: Step)
    requires Can(e, x) && ThreadStep(x)
    ensures WeighAll(w, Do(e, x).threads) ==
      WeighAll(w, e.threads) - Weigh(w, e.threads[x.thread])
        + Weigh(w, e.threads[x.thread].(at := Destination(e, x)))
  {
    WeighUpdate(w, e.threads, x.thread, e.threads[x.thread].(at := Destination(e, x)));
  }

  lemma LiveStep(e: Engine, x: Step)
    requires Can(e, x)
    ensures Total(Live, Do(e, x)) <= Total(Live, e) + (if x.Start? then 1 else 0)
    ensures x.CheckRunning? && !e.running ==> Total(Live, Do(e, x)) + 1 <= Total(Live, e)
  {
    if ThreadStep(x) {
      ThreadWeight(Live, e, x);
    } else if x.Start? {
      WeighAppend(Live, e.threads, Thread(false, Scheduling));
    } else if x.PickUp? {
      WeighAppend(Live, e.threads, Thread(true, Entered));
    }
  }

  // ----- how pending poll tasks come and go -----

  /** Dispatch hands the pool one task, with exactly the due time and the id the thread carries,
      unless the pool refuses it; no other step adds one. */
  lemma DispatchAdds(e: Engine, x: Step)
    requires Can(e, x) && !x.StopCancel? && !x.PickUp?
    ensures multiset(Do(e, x).tasks) == multiset(e.tasks) +
      if x.Dispatch? && !x.refused
      then multiset{Task(0, e.threads[x.thread].at.id, e.threads[x.thread].at.due)} else multiset{}
  {
  }

  /** PickUp hands exactly the task it names, which is ready, to a pool thread that was free. */
  lemma PickUpTakes(e: Engine, k: nat)
    requires Can(e, PickUp(k))
    ensures multiset(e.tasks) == multiset(Do(e, PickUp(k)).tasks) + multiset{e.tasks[k]}
    ensures e.tasks[k].due < e.now + 1_000_000
    ensures Do(e, PickUp(k)).threads == e.threads + [Thread(true, Entered)]
  {
    assert e.tasks == e.tasks[..k] + [e.tasks[k]] + e.tasks[k + 1..];
    ReadyIff(e.tasks[k], e.now);
  }

  /** stop takes exactly the poll tasks under the id it has loaded, and touches nothing else. */
  lemma StopTakes(e: Engine, j: nat)
    requires Can(e, StopCancel(j))
    ensures var e', id := Do(e, StopCancel(j)), e.stops[j].id;
      && (forall t :: multiset(e'.tasks)[t] == if t.requestId == id then 0 else multiset(e.tasks)[t])
      && e' == e.(tasks := e'.tasks, stops := e'.stops)
      && e'.stops == e.stops[j := Returned]
  {
    WithoutCounts(e.tasks, e.stops[j].id);
  }

  // ----- what every step keeps -----

  predicate Polling(p: Point) {
    p.Entered? || p.Cleared? || p.InCallback?
  }

  ghost predicate ThreadsFit(e: Engine) {
    forall i :: 0 <= i < |e.threads| ==>
      && (Polling(e.threads[i].at) ==> e.threads[i].onPool)
      && (e.threads[i].at.InCallback? ==> e.hasCallback)
  }

  /** Poll tasks are at most as many as starts, poll_impl runs on pool threads only, and the
      pool has enough of them. */
  ghost predicate Inv(e: Engine) {
    && Total(Live, e) <= e.starts
    && WeighAll(Holding, e.threads) + e.others <= e.workers
    && ThreadsFit(e)
    && (!e.hasCallback ==> e.callbacks == [])
  }

  lemma HoldingStep(e: Engine, x: Step)
    requires WeighAll(Holding, e.threads) + e.others <= e.workers && Can(e, x)
    ensures WeighAll(Holding, Do(e, x).threads) + Do(e, x).others <= e.workers
  {
    if ThreadStep(x) {
      ThreadWeight(Holding, e, x);
    } else if x.Start? {
      WeighAppend(Holding, e.threads, Thread(false, Scheduling));
    } else if x.PickUp? {
      WeighAppend(Holding, e.threads, Thread(true, Entered));
    }
  }

  lemma ThreadsStep(e: Engine, x: Step)
    requires ThreadsFit(e) && Can(e, x)
    ensures ThreadsFit(Do(e, x))
  {
    if ThreadStep(x) {
      var t := e.threads[x.thread];
      assert Polling(Destination(e, x)) ==> Polling(t.at);
      assert Do(e, x).threads == Moved(e.threads, x.thread, Destination(e, x));
    }
  }

  lemma StepKeeps(e: Engine, x: Step)
    requires Inv(e) && Can(e, x)
    ensures Inv(Do(e, x))
  {
    LiveStep(e, x);
    HoldingStep(e, x);
    ThreadsStep(e, x);
  }

  lemma {:induction false} RunKeeps(e: Engine, run: seq<Step>)
    requires Inv(e) && Legal(e, run)
    ensures Inv(After(e, run))
    decreases |run|
  {
    if run == [] {
    } else {
      StepKeeps(e, run[0]);
      RunKeeps(Do(e, run[0]), run[1..]);
    }
  }

  lemma ReachableInv(e: Engine)
    requires Reachable(e)
    ensures Inv(e)
  {
    var now, interval, run :|
      && Legal(Fresh(e.workers, e.hasCallback, now, interval), run)
      && After(Fresh(e.workers, e.hasCallback, now, interval), run) == e;
    RunKeeps(Fresh(e.workers, e.hasCallback, now, interval), run);
  }

  /** At any moment the poll tasks that are pending, running or about to be dispatched are at
      most as many as start has been called. */
  lemma LiveAtMostStarts(e: Engine)
    requires Reachable(e)
    ensures Total(Live, e) <= e.starts
  {
    ReachableInv(e);
  }

  // ----- run_impl, undisturbed -----

  /** A task due one interval from now, under a fresh id that is also remembered, unless the
      pool refuses it. */
  function Scheduled(e: Engine, i: nat, refused: bool): Engine
    requires i < |e.threads|
  {
    e.(threads := Moved(e.threads, i, Over),
       tasks := if refused then e.tasks
                else e.tasks + [Task(0, e.lastId + 1, e.now + FromMs(e.interval))],
       requestId := e.lastId + 1,
       lastId := e.lastId + 1)
  }

  lemma StampTask(e0: Engine, e: Engine, i: nat) returns (e': Engine)
    requires Reaches(e0, e) && At(e, i, Scheduling)
    ensures Reaches(e0, e')
    ensures e' == e.(threads := Moved(e.threads, i, Stamped(e.now + FromMs(e.interval))))
  {
    var e1 := Further(e0, e, ReadInterval(i));
    assert e1 == e.(threads := Moved(e.threads, i, IntervalRead(e.interval)));
    e' := Further(e0, e1, Stamp(i));
  }

  lemma IdentifyTask(e0: Engine, e: Engine, i: nat, due: int) returns (e': Engine)
    requires Reaches(e0, e) && At(e, i, Stamped(due))
    ensures Reaches(e0, e')
    ensures e' == e.(threads := Moved(e.threads, i, IdStored(due)),
                     requestId := e.lastId + 1, lastId := e.lastId + 1)
  {
    var e1 := Further(e0, e, DrawId(i));
    assert e1 == e.(threads := Moved(e.threads, i, IdDrawn(due, e.lastId + 1)), lastId := e.lastId + 1);
    e' := Further(e0, e1, StoreId(i));
  }

  lemma ScheduleReaches(e0: Engine, e: Engine, i: nat, refused: bool)
    requires Reaches(e0, e) && At(e, i, Scheduling)
    ensures Reaches(e0, Scheduled(e, i, refused))
  {
    var due := e.now + FromMs(e.interval);
    var e1 := StampTask(e0, e, i);
    var e2 := IdentifyTask(e0, e1, i, due);
    var e3 := Further(e0, e2, LoadId(i));
    assert e3.threads == Moved(e.threads, i, IdLoaded(due, e.lastId + 1));
    var e4 := Further(e0, e3, Dispatch(i, refused));
    assert e4 == Scheduled(e, i, refused);
  }

  lemma ReachedIsReachable(e: Engine, e': Engine)
    requires Reachable(e) && Reaches(e, e')
    ensures Reachable(e')
  {
    var run :| Legal(e, run) && NoStart(run) && After(e, run) == e';
    StaysReachable(e, run);
  }

  lemma Schedule(e: Engine, i: nat) returns (e': Engine)
    requires Reachable(e) && At(e, i, Scheduling)
    ensures Reachable(e') && e' == Scheduled(e, i, false)
  {
    ReachesSelf(e);
    ScheduleReaches(e, e, i, false);
    e' := Scheduled(e, i, false);
    ReachedIsReachable(e, e');
  }
}
