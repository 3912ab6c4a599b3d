/** PollEngineImpl as an object. Each method, undisturbed, is one of the runs of the transition
    system in module PollEngine. */
module PollObject {
  import opened TaskTime
  import opened TaskQueues
  import opened PollEngine

  /** stop_impl, undisturbed. */
  function Stopped(e: Engine): Engine {
    e.(running := false, stops := e.stops + [Returned], tasks := Without(e.tasks, e.requestId))
  }

  lemma StopReaches(e: Engine)
    ensures Reaches(e, Stopped(e))
  {
    var j := |e.stops|;
    ReachesSelf(e);
    var e1 := Further(e, e, StopFlag);
    var e2 := Further(e, e1, StopLoad(j));
    var e3 := Further(e, e2, StopCancel(j));
    assert e3.stops == e.stops + [Returned];
  }

  datatype PollReply = WrongThread | NotRunning | CallbackThrew | Polled

  /** poll_impl on thread i up to run_impl, with the flag set and the callback not throwing. */
  function CalledBack(e: Engine, i: nat): Engine
    requires i < |e.threads|
  {
    e.(threads := Moved(e.threads, i, Scheduling),
       callbacks := e.callbacks + if e.hasCallback then [e.now] else [])
  }

  lemma CallBackReaches(e: Engine, i: nat)
    requires At(e, i, Entered) && e.running
    ensures Reaches(e, CalledBack(e, i))
  {
    ReachesSelf(e);
    var e1 := Further(e, e, CheckRunning(i));
    if e.hasCallback {
      var e2 := Further(e, e1, BeginCallback(i));
      var e3 := Further(e, e2, EndCallback(i, false));
      assert e3.threads == Moved(e.threads, i, Scheduling);
    } else {
      var e2 := Further(e, e1, SkipCallback(i));
      assert e2.threads == Moved(e.threads, i, Scheduling);
    }
  }

  lemma ThrowReaches(e: Engine, i: nat)
    requires At(e, i, Entered) && e.running && e.hasCallback
    ensures Reaches(e, e.(threads := Moved(e.threads, i, Over), callbacks := e.callbacks + [e.now]))
  {
    ReachesSelf(e);
    var e1 := Further(e, e, CheckRunning(i));
    var e2 := Further(e, e1, BeginCallback(i));
    var e3 := Further(e, e2, EndCallback(i, true));
    assert e3.threads == Moved(e.threads, i, Over);
  }

  lemma IgnoreReaches(e: Engine, i: nat)
    requires At(e, i, Entered) && !e.running
    ensures Reaches(e, e.(threads := Moved(e.threads, i, Over)))
  {
    ReachesSelf(e);
    var e1 := Further(e, e, CheckRunning(i));
  }

  /** PollEngineImpl with the clock, the id counter and the pool's poll tasks it works on; the
      ghost fields record where the threads stand. */
  class PollEngineImpl {
    const hasCallback: bool
    var running: bool
    var interval: int
    var requestId: nat
    var now: int
    var lastId: nat
    var tasks: seq<Task>
    ghost const workers: nat
    ghost var others: nat
    ghost var threads: seq<Thread>
    ghost var stops: seq<StopPoint>
    ghost var starts: nat
    ghost var startedAt: int
    ghost var callbacks: seq<int>

    ghost function View(): Engine
      reads this
    {
      Engine(workers, others, hasCallback, now, running, interval, requestId, lastId, tasks, threads,
             stops, starts, startedAt, callbacks)
    }

    constructor (ghost workers: nat, hasCallback: bool, now: int)
      ensures View() == Fresh(workers, hasCallback, now, 0)
    {
      this.workers, this.hasCallback, this.now := workers, hasCallback, now;
      running, interval, requestId, lastId, tasks := false, 0, 0, 0, [];
      others, threads, stops, starts, startedAt, callbacks := 0, [], [], 0, 0, [];
    }

    method SetPollInterval(ms: int)
      modifies this`interval
      ensures View() == Do(old(View()), SetInterval(ms)) && interval == ms
    {
      interval := ms;
    }

    /** run_impl on thread i */
    method RunImpl(ghost i: nat, refused: bool)
      requires At(View(), i, Scheduling)
      modifies this
      ensures View() == Scheduled(old(View()), i, refused) && Reaches(old(View()), View())
      ensures tasks == old(tasks) +
        if refused then [] else [Task(0, old(lastId) + 1, old(now) + FromMs(old(interval)))]
      ensures requestId == lastId == old(lastId) + 1
    {
      ReachesSelf(View());
      ScheduleReaches(View(), View(), i, refused);
      var due := now + FromMs(interval);
      lastId := lastId + 1;
      requestId := lastId;
      if !refused {
        tasks := tasks + [Task(0, requestId, due)];
      }
      threads := Moved(threads, i, Over);
    }

    /** start_impl */
    method StartImpl(refused: bool)
      modifies this
      ensures var e := Do(old(View()), Start);
        View() == Scheduled(e, |old(threads)|, refused) && Reaches(e, View())
      ensures running && tasks == old(tasks) +
        if refused then [] else [Task(0, old(lastId) + 1, old(now) + FromMs(old(interval)))]
      ensures requestId == lastId == old(lastId) + 1
      ensures starts == old(starts) + 1 && startedAt == old(now)
    {
      running := true;
      threads, starts, startedAt := threads + [Thread(false, Scheduling)], starts + 1, now;
      RunImpl(|threads| - 1, refused);
    }

    /** stop_impl: the flag first, then the pending poll task, if it is still the one under the
        remembered id. */
    method StopImpl()
      modifies this
      ensures View() == Stopped(old(View())) && Reaches(old(View()), View())
      ensures !running
      ensures forall t ::
        multiset(tasks)[t] == (if t.requestId == old(requestId) then 0 else multiset(old(tasks))[t])
    {
      StopReaches(View());
      WithoutCounts(tasks, requestId);
      running := false;
      tasks := Without(tasks, requestId);
      stops := stops + [Returned];
    }

    /** poll_impl on thread i, which has just been given a poll task; throws is how the callback
        ends, if it is called at all. The assertion comes first: on a thread of another pool
        nothing happens, not even a look at the flag. */
    method PollImpl(ghost i: nat, inContext: bool, throws: bool, refused: bool) returns (r: PollReply)
      requires At(View(), i, Entered)
      modifies this
      ensures r ==
        if !inContext then WrongThread
        else if !old(running) then NotRunning
        else if hasCallback && throws then CallbackThrew
        else Polled
      ensures r == WrongThread || r == NotRunning ==>
        View() == old(View()).(threads := Moved(old(threads), i, Over))
      ensures r == CallbackThrew ==>
        View() == old(View()).(threads := Moved(old(threads), i, Over), callbacks := old(callbacks) + [now])
      ensures r == Polled ==> View() == Scheduled(CalledBack(old(View()), i), i, refused)
      ensures r == Polled ==>
        && callbacks == old(callbacks) + (if hasCallback then [old(now)] else [])
        && tasks == old(tasks) +
             if refused then [] else [Task(0, old(lastId) + 1, old(now) + FromMs(old(interval)))]
      ensures inContext ==> Reaches(old(View()), View())
    {
      ghost var e0 := View();
      if !inContext {
        threads := Moved(threads, i, Over);
        return WrongThread;
      }
      if !running {
        IgnoreReaches(e0, i);
        threads := Moved(threads, i, Over);
        return NotRunning;
      }
      if hasCallback {
        callbacks := callbacks + [now];
        if throws {
          ThrowReaches(e0, i);
          threads := Moved(threads, i, Over);
          return CallbackThrew;
        }
      }
      CallBackReaches(e0, i);
      threads := Moved(threads, i, Scheduling);
      assert View() == CalledBack(e0, i);
      RunImpl(i, refused);
      ReachesTwice(e0, CalledBack(e0, i), View());
      r := Polled;
    }
  }
}
