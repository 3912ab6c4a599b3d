/** ThreadPoolImpl as an object, under the schedule in which the workers are served one at a
    time while stop joins them. Interleavings are the business of module Pool. */
module ThreadPools {
  import opened TaskTime
  import opened TaskQueues
  import opened TaskBases

  datatype CallResult = Ok | LogicError

  datatype AddResult = Added | PoolStopped | AddRejected

  datatype Execution = Execution(task: Task, outcome: Outcome)

  function OutcomeOf(t: Task, throwing: set<Task>): Outcome {
    if t in throwing then Threw else Returned
  }

  /** The executions of these tasks, in this order. */
  function Executions(tasks: seq<Task>, throwing: set<Task>): seq<Execution> {
    seq(|tasks|, i requires 0 <= i < |tasks| => Execution(tasks[i], OutcomeOf(tasks[i], throwing)))
  }

  class ThreadPool {
    const threadsCount: nat
    const queue: TaskQueue
    var started: bool
    var joinable: seq<bool>      // one entry per thread ever created
    var executed: seq<Execution> // what the workers have run so far

    ghost predicate Valid()
      reads this, queue
    {
      queue.Valid()
    }

    constructor (threads: nat)
      ensures Valid() && fresh(queue)
      ensures threadsCount == threads && !started && joinable == [] && executed == []
      ensures queue.State() == QueueState([], false)
    {
      threadsCount := threads;
      queue := new TaskQueue();
      started, joinable, executed := false, [], [];
    }

    method Start() returns (r: CallResult)
      modifies this`started, this`joinable
      ensures r == if old(started) then LogicError else Ok
      ensures started
      ensures joinable == old(joinable) + if old(started) then [] else seq(threadsCount, _ => true)
    {
      if started {
        return LogicError;
      }
      started := true;
      var i := 0;
      while i < threadsCount
        invariant i <= threadsCount
        invariant started && joinable == old(joinable) + seq(i, _ => true)
      {
        joinable := joinable + [true];
        i := i + 1;
      }
      r := Ok;
    }

    method AddTask(t: Task) returns (r: AddResult)
      requires Valid()
      modifies queue
      ensures Valid()
      ensures r == if !started then PoolStopped else if old(queue.closed) then AddRejected else Added
      ensures queue.State() == if started then ApplyOp(old(queue.State()), OpPush(t)) else old(queue.State())
    {
      if !started {
        return PoolStopped;
      }
      var p := queue.Push(t);
      r := if p == Accepted then Added else AddRejected;
    }

    method CancelPending(requestId: nat) returns (removed: bool)
      requires Valid()
      modifies queue
      ensures Valid()
      ensures queue.State() == ApplyOp(old(queue.State()), OpRemove(requestId))
      ensures removed <==> exists x :: x in old(queue.elements) && x.requestId == requestId
    {
      removed := queue.Remove(requestId);
    }

    /** worker_thread on a closed queue with nobody interfering; late[i] is how much the i-th
        timed wait oversleeps. It runs exactly the pending tasks, in comparator order, whether
        they throw or not, with at most one timed wait per task, and then leaves. */
    method WorkerThread(start: nat, late: seq<nat>, throwing: set<Task>) returns (now: nat, waits: nat)
      requires Valid() && queue.closed && |queue.elements| <= |late|
      modifies this`executed, queue
      ensures Valid() && queue.State() == QueueState([], true)
      ensures executed == old(executed) + Executions(old(queue.elements), throwing)
      ensures old(executed) <= executed && |executed| == |old(executed)| + |old(queue.elements)|
      ensures forall k :: 0 <= k < |old(queue.elements)| ==>
        && executed[|old(executed)| + k].task == old(queue.elements)[k]
        && (executed[|old(executed)| + k].outcome == Threw <==> old(queue.elements)[k] in throwing)
      ensures waits <= |old(queue.elements)| && start <= now
    {
      now, waits := start, 0;
      ghost var all := queue.elements;
      ghost var done := 0;
      while true
        invariant Valid() && queue.closed && start <= now
        invariant done <= |all| && queue.elements == all[done..]
        invariant executed == old(executed) + Executions(all[..done], throwing)
        invariant waits <= done
        decreases |all| - done, queue.elements != []
      {
        var env: seq<Interference> := [];
        if queue.elements != [] {
          SleepObtainsHead(queue.State(), now, late[|late| - |queue.elements|]);
          env := [Interference(FromMs(queue.elements[0].Delay(now)) + late[|late| - |queue.elements|], [])];
        }
        WaitPopAnswer(queue.State(), now, env);
        var r, later, slept := queue.WaitPop(now, env);
        now, waits := later, waits + slept;
        if r.Obtained? {
          executed := executed + [Execution(r.task, OutcomeOf(r.task, throwing))];
          assert all[..done + 1] == all[..done] + [all[done]];
          done := done + 1;
        } else {
          assert all[..done] == all;
          return;
        }
      }
    }

    /** stop: with a thread to join, everything pending has been run when it returns. */
    method Stop(start: nat, late: seq<nat>, throwing: set<Task>) returns (r: CallResult, now: nat)
      requires Valid() && |queue.elements| <= |late|
      modifies this, queue
      ensures Valid() && !started
      ensures r == if old(started) then Ok else LogicError
      ensures !old(started) ==>
        queue.State() == old(queue.State()) && executed == old(executed) && joinable == old(joinable)
      ensures old(started) ==>
        && queue.closed
        && (forall i :: 0 <= i < |joinable| ==> !joinable[i]) && |joinable| == |old(joinable)|
      ensures old(started) && true in old(joinable) ==>
        queue.elements == [] && executed == old(executed) + Executions(old(queue.elements), throwing)
      ensures old(started) && true in old(joinable) ==>
        && old(executed) <= executed && |executed| == |old(executed)| + |old(queue.elements)|
        && forall k :: 0 <= k < |old(queue.elements)| ==>
             && executed[|old(executed)| + k].task == old(queue.elements)[k]
             && (executed[|old(executed)| + k].outcome == Threw <==> old(queue.elements)[k] in throwing)
      ensures old(started) && true !in old(joinable) ==>
        queue.elements == old(queue.elements) && executed == old(executed)
    {
      now := start;
      if !started {
        return LogicError, now;
      }
      started := false;
      queue.Close();
      var i := 0;
      while i < |joinable|
        invariant 0 <= i <= |joinable| == |old(joinable)|
        invariant Valid() && queue.closed && !started && |queue.elements| <= |late|
        invariant forall k :: 0 <= k < i ==> !joinable[k]
        invariant forall k :: i <= k < |joinable| ==> joinable[k] == old(joinable)[k]
        invariant true in old(joinable)[..i] ==>
          queue.elements == [] && executed == old(executed) + Executions(old(queue.elements), throwing)
        invariant true !in old(joinable)[..i] ==>
          queue.elements == old(queue.elements) && executed == old(executed)
      {
        assert old(joinable)[..i + 1] == old(joinable)[..i] + [joinable[i]];
        if joinable[i] {
          var waits;
          now, waits := WorkerThread(now, late, throwing);
          joinable := joinable[i := false];
        }
        i := i + 1;
      }
      assert old(joinable)[..i] == old(joinable);
      r := Ok;
    }
  }
}
