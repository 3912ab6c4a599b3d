/** What users of the poll engine may rely on, over every interleaving of start, stop and
    poll_impl: when polling ends, and how far apart the callbacks are. */
module PollTheorems {
  import opened TaskTime
  import opened TaskQueues
  import opened PollEngine

  // ----- a single live poll task -----

  lemma {:induction false} NobodyLive(threads: seq<Thread>)
    requires WeighAll(Live, threads) == 0
    ensures forall i :: 0 <= i < |threads| ==> threads[i].at.Over?
  {
    if threads == [] {
    } else {
      NobodyLive(threads[1..]);
    }
  }

  /** If this thread carries the only live poll task, nothing else is alive. */
  lemma OnlyThisOne(e: Engine, i: nat)
    requires Total(Live, e) <= 1 && i < |e.threads| && !e.threads[i].at.Over?
    ensures e.tasks == []
    ensures forall j :: 0 <= j < |e.threads| && j != i ==> e.threads[j].at.Over?
  {
    var none := Thread(false, Over);
    WeighUpdate(Live, e.threads, i, none);
    NobodyLive(e.threads[i := none]);
    forall j | 0 <= j < |e.threads| && j != i ensures e.threads[j].at.Over? {
      assert e.threads[i := none][j].at.Over?;
    }
  }

  // ----- as long as nothing ends it -----

  /** What ends the life of a poll task. */
  predicate Ends(e: Engine, x: Step) {
    || x.StopCancel?
    || (x.CheckRunning? && !e.running)
    || (x.EndCallback? && x.threw)
    || (x.Dispatch? && x.refused)
  }

  lemma LiveExactly(e: Engine, x: Step)
    requires Can(e, x) && !Ends(e, x)
    ensures Total(Live, Do(e, x)) == Total(Live, e) + (if x.Start? then 1 else 0)
  {
    if ThreadStep(x) {
      ThreadWeight(Live, e, x);
    } else if x.Start? {
      WeighAppend(Live, e.threads, Thread(false, Scheduling));
    } else if x.PickUp? {
      WeighAppend(Live, e.threads, Thread(true, Entered));
    }
  }

  /** Nobody calls stop, no callback throws and no dispatch is refused. */
  predicate Undisturbed(run: seq<Step>) {
    forall x :: x in run ==>
      !x.StopFlag? && !x.StopCancel? && !(x.EndCallback? && x.threw) && !(x.Dispatch? && x.refused)
  }

  function Starts(run: seq<Step>): nat {
    if run == [] then 0 else (if run[0].Start? then 1 else 0) + Starts(run[1..])
  }

  lemma NothingToCheck(e: Engine, x: Step)
    requires Total(Live, e) == 0 && Can(e, x)
    ensures !x.CheckRunning?
  {
    NobodyLive(e.threads);
  }

  lemma RunningStays(e: Engine, x: Step)
    requires Can(e, x) && !x.StopFlag?
    ensures Do(e, x).running == (e.running || x.Start?)
  {
  }

  lemma {:induction false} LiveRun(e: Engine, run: seq<Step>)
    requires Legal(e, run) && Undisturbed(run) && (e.running || Total(Live, e) == 0)
    ensures Total(Live, After(e, run)) == Total(Live, e) + Starts(run)
    ensures After(e, run).running == (e.running || 1 <= Starts(run))
    decreases |run|
  {
    if run == [] {
    } else {
      assert run[0] in run;
      if !e.running { NothingToCheck(e, run[0]); }
      LiveExactly(e, run[0]);
      RunningStays(e, run[0]);
      LiveRun(Do(e, run[0]), run[1..]);
    }
  }

  /** As long as nobody calls stop, no callback throws and no dispatch is refused, there is
      exactly one poll task for every call of start: pending, running or about to be dispatched,
      however the threads interleave. */
  lemma PollingGoesOn(workers: nat, hasCallback: bool, now: int, interval: int, run: seq<Step>)
    requires Legal(Fresh(workers, hasCallback, now, interval), run) && Undisturbed(run)
    ensures Total(Live, After(Fresh(workers, hasCallback, now, interval), run)) == Starts(run)
  {
    LiveRun(Fresh(workers, hasCallback, now, interval), run);
  }

  // ----- after stop -----

  function CallbacksBegun(run: seq<Step>): nat {
    if run == [] then 0 else (if run[0].BeginCallback? then 1 else 0) + CallbacksBegun(run[1..])
  }

  function Checks(run: seq<Step>): nat {
    if run == [] then 0 else (if run[0].CheckRunning? then 1 else 0) + Checks(run[1..])
  }

  function EngineSteps(run: seq<Step>): nat {
    if run == [] then 0
    else (if ThreadStep(run[0]) || run[0].PickUp? then 1 else 0) + EngineSteps(run[1..])
  }

  lemma StoppedCallBacks(e: Engine, x: Step)
    requires Can(e, x) && !e.running && !x.Start?
    ensures Total(MayCallBack, Do(e, x)) + (if x.BeginCallback? then 1 else 0) <= Total(MayCallBack, e)
  {
    if ThreadStep(x) {
      ThreadWeight(MayCallBack, e, x);
    } else if x.PickUp? {
      WeighAppend(MayCallBack, e.threads, Thread(true, Entered));
    }
  }

  /** With m_running false every step of a thread brings it closer to its end. */
  lemma ThreadPays(e: Engine, x: Step)
    requires Can(e, x) && !e.running && ThreadStep(x)
    ensures Weigh(StepsLeft, e.threads[x.thread].(at := Destination(e, x))) + 1
         + (if x.Dispatch? then 2 else 0) <= Weigh(StepsLeft, e.threads[x.thread])
    ensures |Do(e, x).tasks| <= |e.tasks| + (if x.Dispatch? then 1 else 0)
  {
  }

  lemma StoppedSteps(e: Engine, x: Step)
    requires Can(e, x) && !e.running && !x.Start?
    ensures !Do(e, x).running
    ensures Total(StepsLeft, Do(e, x)) + (if ThreadStep(x) || x.PickUp? then 1 else 0)
         <= Total(StepsLeft, e)
  {
    if ThreadStep(x) {
      ThreadPays(e, x);
      ThreadWeight(StepsLeft, e, x);
    } else if x.PickUp? {
      WeighAppend(StepsLeft, e.threads, Thread(true, Entered));
    }
  }

  lemma {:induction false} StoppedRun(e: Engine, run: seq<Step>)
    requires Legal(e, run) && !e.running && NoStart(run)
    ensures CallbacksBegun(run) <= Total(MayCallBack, e)
    ensures Checks(run) <= Total(Live, e)
    ensures EngineSteps(run) <= Total(StepsLeft, e)
    decreases |run|
  {
    if run == [] {
    } else {
      assert run[0] in run;
      StoppedCallBacks(e, run[0]);
      StoppedSteps(e, run[0]);
      LiveStep(e, run[0]);
      StoppedRun(Do(e, run[0]), run[1..]);
    }
  }

  /** Once stop has cleared m_running, and until the next start, at most one more callback
      begins for each start there has been, at most as many further poll tasks look at the
      flag and do nothing, and after at most ten steps for each nothing is left that could
      take one; however stop and poll_impl interleave. */
  lemma StopEndsPolling(e: Engine, run: seq<Step>)
    requires Reachable(e) && !e.running && Legal(e, run) && NoStart(run)
    ensures CallbacksBegun(run) <= e.starts
    ensures Checks(run) <= e.starts
    ensures EngineSteps(run) <= 10 * e.starts
  {
    LiveAtMostStarts(e);
    WeightsCompare(e.threads);
    StoppedRun(e, run);
  }

  /** A callback can still begin after m_running was cleared exactly when a callback is set and
      some thread had already read the flag as true. */
  lemma LateCallbackIff(e: Engine)
    requires !e.running
    ensures (exists run :: Legal(e, run) && NoStart(run) && 0 < CallbacksBegun(run))
       <==> e.hasCallback && exists i :: 0 <= i < |e.threads| && e.threads[i].at.Cleared?
  {
    if run :| Legal(e, run) && NoStart(run) && 0 < CallbacksBegun(run) {
      StoppedRun(e, run);
      SomeoneMayCallBack(e.threads);
      if !e.hasCallback { NothingToCall(e, run); }
    }
    if e.hasCallback {
      if i: nat :| i < |e.threads| && e.threads[i].at.Cleared? {
        var run := OneCallback(e, i);
      }
    }
  }

  lemma OneCallback(e: Engine, i: nat) returns (run: seq<Step>)
    requires At(e, i, Cleared) && e.hasCallback
    ensures Legal(e, run) && NoStart(run) && CallbacksBegun(run) == 1
  {
    run := [BeginCallback(i)];
    assert run[1..] == [];
    assert Legal(Do(e, BeginCallback(i)), []);
    assert CallbacksBegun([]) == 0;
  }

  lemma {:induction false} NothingToCall(e: Engine, run: seq<Step>)
    requires Legal(e, run) && !e.hasCallback
    ensures CallbacksBegun(run) == 0
    decreases |run|
  {
    if run == [] {
    } else {
      NothingToCall(Do(e, run[0]), run[1..]);
    }
  }

  lemma {:induction false} SomeoneMayCallBack(threads: seq<Thread>)
    requires 0 < WeighAll(MayCallBack, threads)
    ensures exists i :: 0 <= i < |threads| && threads[i].at.Cleared?
  {
    if threads[0].at.Cleared? {
    } else {
      SomeoneMayCallBack(threads[1..]);
      var i :| 0 <= i < |threads[1..]| && threads[1..][i].at.Cleared?;
      assert threads[i + 1].at.Cleared?;
    }
  }

  // ----- stop between two polls -----

  predicate UnderId(tasks: seq<Task>, id: nat) {
    forall t :: t in tasks ==> t.requestId == id
  }

  /** Of a single chain, the task about to be dispatched or already pending carries the id that
      stop will cancel. */
  ghost predicate Remembered(e: Engine) {
    && UnderId(e.tasks, e.requestId)
    && (forall i :: 0 <= i < |e.threads| && e.threads[i].at.IdLoaded? ==> e.threads[i].at.id == e.requestId)
  }

  ghost predicate RememberInv(e: Engine) {
    Total(Live, e) <= e.starts && (e.starts <= 1 ==> Remembered(e))
  }

  lemma RememberThread(e: Engine, x: Step)
    requires Remembered(e) && Total(Live, e) <= 1 && Can(e, x) && ThreadStep(x)
    ensures Remembered(Do(e, x))
  {
    OnlyThisOne(e, x.thread);
    assert Do(e, x).threads == Moved(e.threads, x.thread, Destination(e, x));
  }

  lemma RememberStep(e: Engine, x: Step)
    requires RememberInv(e) && Can(e, x)
    ensures RememberInv(Do(e, x))
  {
    LiveStep(e, x);
    if e.starts <= 1 {
      if ThreadStep(x) {
        RememberThread(e, x);
      } else if x.StopCancel? {
        WithoutIsSubset(e.tasks, e.stops[x.stop].id);
      }
    }
  }

  lemma {:induction false} RememberRun(e: Engine, run: seq<Step>)
    requires RememberInv(e) && Legal(e, run)
    ensures RememberInv(After(e, run))
    decreases |run|
  {
    if run == [] {
    } else {
      RememberStep(e, run[0]);
      RememberRun(Do(e, run[0]), run[1..]);
    }
  }

  lemma ReachableRemembers(e: Engine)
    requires Reachable(e) && e.starts <= 1
    ensures Remembered(e)
  {
    var now, interval, run :|
      && Legal(Fresh(e.workers, e.hasCallback, now, interval), run)
      && After(Fresh(e.workers, e.hasCallback, now, interval), run) == e;
    RememberRun(Fresh(e.workers, e.hasCallback, now, interval), run);
  }

  lemma {:induction false} WithoutAll(tasks: seq<Task>, id: nat)
    requires UnderId(tasks, id)
    ensures Without(tasks, id) == []
  {
    if tasks == [] {
    } else {
      assert tasks[0] in tasks;
      assert forall t :: t in tasks[1..] ==> t in tasks;
      WithoutAll(tasks[1..], id);
    }
  }

  /** No thread is inside poll_impl past its first line, or in run_impl. */
  ghost predicate Quiet(e: Engine) {
    forall i :: 0 <= i < |e.threads| ==> e.threads[i].at.Over? || e.threads[i].at.Entered?
  }

  /** The stop with this number, of an engine that it found quiet. */
  ghost predicate StoppingQuietly(e: Engine, stop: nat) {
    && !e.running && Quiet(e) && UnderId(e.tasks, e.requestId)
    && stop < |e.stops|
    && (e.stops[stop].LoadedId? ==> e.stops[stop].id == e.requestId)
    && (e.stops[stop].Returned? ==> e.tasks == [])
  }

  lemma QuietStep(e: Engine, stop: nat, x: Step)
    requires StoppingQuietly(e, stop) && Can(e, x) && !x.Start?
    ensures StoppingQuietly(Do(e, x), stop) && !x.BeginCallback?
  {
    if ThreadStep(x) {
      assert Do(e, x).threads == Moved(e.threads, x.thread, Destination(e, x));
    } else if x.StopCancel? {
      WithoutIsSubset(e.tasks, e.stops[x.stop].id);
      if x.stop == stop { WithoutAll(e.tasks, e.requestId); }
    }
  }

  lemma {:induction false} QuietRun(e: Engine, stop: nat, run: seq<Step>)
    requires StoppingQuietly(e, stop) && Legal(e, run) && NoStart(run)
    ensures StoppingQuietly(After(e, run), stop) && CallbacksBegun(run) == 0
    decreases |run|
  {
    if run == [] {
    } else {
      assert run[0] in run;
      QuietStep(e, stop, run[0]);
      QuietRun(Do(e, run[0]), stop, run[1..]);
    }
  }

  /** With a single start, a stop that finds no thread past the first line of poll_impl ends the
      polling for good, whatever comes between its own steps: no callback begins any more, the
      only poll task a thread may still have is one it took before the cancellation and which
      does nothing, and once stop has returned none is pending. */
  lemma QuietStopKills(e: Engine, run: seq<Step>)
    requires Reachable(e) && e.starts <= 1 && Quiet(e)
    requires run != [] && run[0] == StopFlag && Legal(e, run) && NoStart(run)
    ensures CallbacksBegun(run) == 0
    ensures var e' := After(e, run);
      && Quiet(e')
      && |e.stops| < |e'.stops|
      && (e'.stops[|e.stops|].Returned? ==> e'.tasks == [])
  {
    ReachableRemembers(e);
    assert NoStart(run[1..]);
    QuietRun(Do(e, StopFlag), |e.stops|, run[1..]);
  }

  // ----- the period -----

  /** The instant before which the callback with this number (from 0) does not begin. */
  function Earliest(startedAt: int, n: nat, ms: int): int {
    startedAt + FromMs((n + 1) * (ms - 1))
  }

  /** The same for the call of run_impl that leads to it: start for the first one, the callback
      before it for the others. */
  function ScheduledFrom(startedAt: int, n: nat, ms: int): int {
    startedAt + FromMs(n * (ms - 1))
  }

  lemma OnePeriodLater(startedAt: int, n: nat, ms: int)
    ensures Earliest(startedAt, n, ms) == ScheduledFrom(startedAt, n, ms) + FromMs(ms) - 1_000_000
    ensures Earliest(startedAt, n, ms) == ScheduledFrom(startedAt, n + 1, ms)
  {
    assert (n + 1) * (ms - 1) == n * (ms - 1) + (ms - 1);
  }

  /** What a live poll task may claim about time when n callbacks have begun. */
  predicate OnTime(e: Engine, ms: int, p: Point) {
    var n := |e.callbacks|;
    var from := ScheduledFrom(e.startedAt, n, ms);
    match p
    case Over => true
    case Entered => Earliest(e.startedAt, n, ms) < e.now
    case Cleared => Earliest(e.startedAt, n, ms) < e.now
    case InCallback => from <= e.now
    case Scheduling => from <= e.now
    case IntervalRead(v) => ms <= v && from <= e.now
    case Stamped(due) => from + FromMs(ms) <= due
    case IdDrawn(due, _) => from + FromMs(ms) <= due
    case IdStored(due) => from + FromMs(ms) <= due
    case IdLoaded(due, _) => from + FromMs(ms) <= due
  }

  predicate NoneDueBefore(tasks: seq<Task>, earliest: int) {
    forall t :: t in tasks ==> earliest <= t.due
  }

  /** The invariant of a single chain whose interval never falls below ms. */
  ghost predicate Periodic(e: Engine, ms: int) {
    && (forall i :: 0 <= i < |e.threads| ==> OnTime(e, ms, e.threads[i].at))
    && NoneDueBefore(e.tasks, ScheduledFrom(e.startedAt, |e.callbacks|, ms) + FromMs(ms))
    && (forall k :: 0 <= k < |e.callbacks| ==> Earliest(e.startedAt, k, ms) < e.callbacks[k])
  }

  ghost predicate PeriodInv(e: Engine, ms: int) {
    && ms <= e.interval
    && Total(Live, e) <= e.starts
    && (e.starts == 0 ==> e.callbacks == [])
    && (e.starts == 1 && e.hasCallback ==> Periodic(e, ms))
  }

  /** The thread that moves keeps its claim, or passes it on with the task it dispatches. */
  lemma ClaimMoves(e: Engine, ms: int, x: Step)
    requires Can(e, x) && ThreadStep(x) && ms <= e.interval && e.hasCallback
    requires OnTime(e, ms, e.threads[x.thread].at)
    ensures OnTime(Do(e, x), ms, Destination(e, x))
    ensures x.BeginCallback? ==> Earliest(e.startedAt, |e.callbacks|, ms) < e.now
    ensures x.Dispatch? ==>
      ScheduledFrom(e.startedAt, |e.callbacks|, ms) + FromMs(ms) <= e.threads[x.thread].at.due
  {
    OnePeriodLater(e.startedAt, |e.callbacks|, ms);
  }

  lemma ThreadPeriod(e: Engine, ms: int, x: Step)
    requires Periodic(e, ms) && ms <= e.interval && e.hasCallback
    requires Total(Live, e) <= 1 && Can(e, x) && ThreadStep(x)
    ensures Periodic(Do(e, x), ms)
  {
    var e' := Do(e, x);
    OnlyThisOne(e, x.thread);
    ClaimMoves(e, ms, x);
    assert e'.threads == Moved(e.threads, x.thread, Destination(e, x));
    forall i | 0 <= i < |e'.threads| ensures OnTime(e', ms, e'.threads[i].at) {
      if i != x.thread { assert e'.threads[i] == e.threads[i]; }
    }
  }

  lemma PickUpPeriod(e: Engine, ms: int, x: Step)
    requires Periodic(e, ms) && Can(e, x) && x.PickUp?
    ensures Periodic(Do(e, x), ms)
  {
    assert e.tasks[x.task] in e.tasks;
    OnePeriodLater(e.startedAt, |e.callbacks|, ms);
    ReadyIff(e.tasks[x.task], e.now);
  }

  lemma StartPeriod(e: Engine, ms: int)
    requires PeriodInv(e, ms) && e.starts == 0
    ensures Periodic(Do(e, Start), ms)
  {
    NobodyLive(e.threads);
  }

  lemma CancelPeriod(e: Engine, ms: int, j: nat)
    requires Periodic(e, ms) && Can(e, StopCancel(j))
    ensures Periodic(Do(e, StopCancel(j)), ms)
  {
    WithoutIsSubset(e.tasks, e.stops[j].id);
  }

  /** Steps that leave the chain alone. */
  lemma OtherPeriod(e: Engine, ms: int, x: Step)
    requires Periodic(e, ms) && Can(e, x)
    requires !ThreadStep(x) && !x.PickUp? && !x.StopCancel? && !x.Start?
    ensures Periodic(Do(e, x), ms)
  {
  }

  lemma ChainPeriod(e: Engine, ms: int, x: Step)
    requires Periodic(e, ms) && ms <= e.interval && e.hasCallback
    requires Total(Live, e) <= 1 && Can(e, x) && !x.Start?
    ensures Periodic(Do(e, x), ms)
  {
    if ThreadStep(x) { ThreadPeriod(e, ms, x); }
    else if x.PickUp? { PickUpPeriod(e, ms, x); }
    else if x.StopCancel? { CancelPeriod(e, ms, x.stop); }
    else { OtherPeriod(e, ms, x); }
  }

  lemma FirstPeriod(e: Engine, ms: int, x: Step)
    requires PeriodInv(e, ms) && e.starts == 0 && Can(e, x)
    ensures Do(e, x).starts == 0 ==> Do(e, x).callbacks == []
    ensures Do(e, x).starts == 1 ==> Periodic(Do(e, x), ms)
  {
    NobodyLive(e.threads);
    if x.Start? { StartPeriod(e, ms); }
  }

  lemma PeriodStep(e: Engine, ms: int, x: Step)
    requires PeriodInv(e, ms) && Can(e, x) && (x.SetInterval? ==> ms <= x.ms)
    ensures PeriodInv(Do(e, x), ms)
  {
    LiveStep(e, x);
    if e.starts == 0 { FirstPeriod(e, ms, x); }
    else if e.starts == 1 && e.hasCallback && !x.Start? { ChainPeriod(e, ms, x); }
  }

  predicate Paced(run: seq<Step>, ms: int) {
    forall x :: x in run && x.SetInterval? ==> ms <= x.ms
  }

  lemma {:induction false} PeriodRun(e: Engine, ms: int, run: seq<Step>)
    requires PeriodInv(e, ms) && Legal(e, run) && Paced(run, ms)
    ensures PeriodInv(After(e, run), ms)
    decreases |run|
  {
    if run == [] {
    } else {
      assert run[0] in run;
      PeriodStep(e, ms, run[0]);
      PeriodRun(Do(e, run[0]), ms, run[1..]);
    }
  }

  lemma {:induction false} SettingIsFixed(e: Engine, run: seq<Step>)
    requires Legal(e, run)
    ensures After(e, run).workers == e.workers && After(e, run).hasCallback == e.hasCallback
    decreases |run|
  {
    if run == [] {
    } else {
      SettingIsFixed(Do(e, run[0]), run[1..]);
    }
  }

  /** The history in the state is the run's: when start was called last, and how many callbacks
      have begun. */
  lemma {:induction false} HistoryIsTheRun(e: Engine, run: seq<Step>)
    requires Legal(e, run)
    ensures |After(e, run).callbacks| == |e.callbacks| + CallbacksBegun(run)
    ensures After(e, run).starts == e.starts + Starts(run)
    ensures NoStart(run) ==> After(e, run).startedAt == e.startedAt
    decreases |run|
  {
    if run == [] {
    } else {
      HistoryIsTheRun(Do(e, run[0]), run[1..]);
      if NoStart(run) {
        assert run[0] in run;
        assert NoStart(run[1..]);
      }
    }
  }

  lemma {:induction false} LegalParts(e: Engine, a: seq<Step>, b: seq<Step>)
    requires Legal(e, a + b)
    ensures Legal(e, a) && Legal(After(e, a), b) && After(e, a + b) == After(After(e, a), b)
    decreases |a|
  {
    if a == [] {
      assert a + b == b;
    } else {
      assert (a + b)[1..] == a[1..] + b;
      LegalParts(Do(e, a[0]), a[1..], b);
    }
  }

  /** While the interval is never below ms, the k-th callback after the only call of start (k
      from 1) begins strictly later than k * (ms - 1) milliseconds after it. */
  lemma PollPeriod(workers: nat, now: int, interval: int, ms: int,
                   before: seq<Step>, between: seq<Step>, thread: nat)
    requires Legal(Fresh(workers, true, now, interval), before + [Start] + between)
    requires Can(After(Fresh(workers, true, now, interval), before + [Start] + between), BeginCallback(thread))
    requires NoStart(before) && NoStart(between)
    requires ms <= interval && Paced(before + [Start] + between, ms)
    ensures Legal(Fresh(workers, true, now, interval), before)
    ensures var start, call := After(Fresh(workers, true, now, interval), before).now,
                               After(Fresh(workers, true, now, interval), before + [Start] + between).now;
      var k := CallbacksBegun(between) + 1;
      call > start + FromMs(k * (ms - 1))
  {
    var e0 := Fresh(workers, true, now, interval);
    var e := After(e0, before + [Start] + between);
    AroundStart(e0, before, between);
    PeriodRun(e0, ms, before + [Start] + between);
    SettingIsFixed(e0, before + [Start] + between);
    assert OnTime(e, ms, e.threads[thread].at);
  }

  lemma AroundStart(e0: Engine, before: seq<Step>, between: seq<Step>)
    requires Legal(e0, before + [Start] + between) && NoStart(before) && NoStart(between)
    requires e0.starts == 0 && Total(Live, e0) == 0 && e0.callbacks == []
    ensures Legal(e0, before)
    ensures var e := After(e0, before + [Start] + between);
      e.starts == 1 && e.startedAt == After(e0, before).now && |e.callbacks| == CallbacksBegun(between)
  {
    assert before + [Start] + between == before + ([Start] + between);
    LegalParts(e0, before, [Start] + between);
    assert ([Start] + between)[1..] == between;
    var e1 := After(e0, before);
    HistoryIsTheRun(e0, before);
    NoStarts(before);
    NothingBefore(e0, before);
    HistoryIsTheRun(Do(e1, Start), between);
    NoStarts(between);
  }

  lemma {:induction false} NoStarts(run: seq<Step>)
    requires NoStart(run)
    ensures Starts(run) == 0
  {
    if run == [] {
    } else {
      assert run[0] in run;
      assert NoStart(run[1..]);
      NoStarts(run[1..]);
    }
  }

  /** Without a start nothing lives and nothing is called back. */
  lemma {:induction false} NothingBefore(e: Engine, run: seq<Step>)
    requires Legal(e, run) && NoStart(run) && Total(Live, e) == 0
    ensures Total(Live, After(e, run)) == 0 && CallbacksBegun(run) == 0
    decreases |run|
  {
    if run == [] {
    } else {
      assert run[0] in run;
      NobodyLive(e.threads);
      LiveStep(e, run[0]);
      assert NoStart(run[1..]);
      NothingBefore(Do(e, run[0]), run[1..]);
    }
  }

  // ----- the other side of the period -----

  /** No claim on time that is further away than the interval. */
  predicate Near(p: Point, now: int, ms: int) {
    match p
    case IntervalRead(v) => v <= ms
    case Stamped(due) => due <= now + FromMs(ms)
    case IdDrawn(due, _) => due <= now + FromMs(ms)
    case IdStored(due) => due <= now + FromMs(ms)
    case IdLoaded(due, _) => due <= now + FromMs(ms)
    case _ => true
  }

  ghost predicate NothingFar(e: Engine, ms: int) {
    && e.interval <= ms
    && (forall i :: 0 <= i < |e.threads| ==> Near(e.threads[i].at, e.now, ms))
    && (forall t :: t in e.tasks ==> t.due <= e.now + FromMs(ms))
  }

  lemma NearDestination(e: Engine, ms: int, x: Step)
    requires Can(e, x) && ThreadStep(x) && e.interval <= ms && Near(e.threads[x.thread].at, e.now, ms)
    ensures Near(Destination(e, x), e.now, ms)
    ensures x.Dispatch? ==> e.threads[x.thread].at.due <= e.now + FromMs(ms)
  {
  }

  lemma NearStep(e: Engine, ms: int, x: Step)
    requires NothingFar(e, ms) && Can(e, x) && (x.SetInterval? ==> x.ms <= ms)
    ensures NothingFar(Do(e, x), ms)
  {
    if ThreadStep(x) {
      NearDestination(e, ms, x);
      assert Do(e, x).threads == Moved(e.threads, x.thread, Destination(e, x));
    } else if x.StopCancel? {
      WithoutIsSubset(e.tasks, e.stops[x.stop].id);
    }
  }

  predicate Hurried(run: seq<Step>, ms: int) {
    forall x :: x in run && x.SetInterval? ==> x.ms <= ms
  }

  lemma {:induction false} NearRun(e: Engine, ms: int, run: seq<Step>)
    requires NothingFar(e, ms) && Legal(e, run) && Hurried(run, ms)
    ensures NothingFar(After(e, run), ms)
    decreases |run|
  {
    if run == [] {
    } else {
      assert run[0] in run;
      NearStep(e, ms, run[0]);
      NearRun(Do(e, run[0]), ms, run[1..]);
    }
  }

  /** While the interval is never above ms, no pending poll task is ever further away than ms
      milliseconds: whatever was started is due to be polled again by then. */
  lemma NextPollIsNear(workers: nat, hasCallback: bool, now: int, interval: int, ms: int, run: seq<Step>)
    requires Legal(Fresh(workers, hasCallback, now, interval), run) && interval <= ms && Hurried(run, ms)
    ensures var e := After(Fresh(workers, hasCallback, now, interval), run);
      forall t :: t in e.tasks ==> t.due <= e.now + FromMs(ms)
  {
    NearRun(Fresh(workers, hasCallback, now, interval), ms, run);
  }
}
