/** One worker's visit to wait_pop inside a run of the pool is an execution of the method
    TaskQueue.WaitPop, with the other threads' actions as its interference. */
module PoolVisits {
  import opened TaskQueues
  import opened Pool

  /** The queue operation, if any, that an action of another thread amounts to. */
  function QueueOpsOf(s: State, a: Action): seq<QueueOp> {
    match a
    case Push(t, _) => [OpPush(t)]
    case Cancel(id) => [OpRemove(id)]
    case SetClosed => [OpClose]
    case TakeLock(_) => if Decide(s.queue, s.now).Extract? then [OpExtract] else []
    case _ => []
  }

  function OpsOfOthers(s: State, gap: seq<Action>): seq<QueueOp>
    requires Legal(s, gap)
    decreases |gap|
  {
    if gap == [] then [] else QueueOpsOf(s, gap[0]) + OpsOfOthers(Apply(s, gap[0]), gap[1..])
  }

  lemma {:induction false} ApplyOpsConcat(q: QueueState, a: seq<QueueOp>, b: seq<QueueOp>)
    ensures ApplyOps(q, a + b) == ApplyOps(ApplyOps(q, a), b)
    decreases |a|
  {
    if a == [] {
      assert a + b == b;
    } else {
      assert (a + b)[1..] == a[1..] + b;
      ApplyOpsConcat(ApplyOp(q, a[0]), a[1..], b);
    }
  }

  lemma StepOnQueue(s: State, a: Action)
    requires Enabled(s, a)
    ensures Apply(s, a).queue == ApplyOps(s.queue, QueueOpsOf(s, a))
    ensures s.now <= Apply(s, a).now
  {
    if |QueueOpsOf(s, a)| == 1 {
      var op := QueueOpsOf(s, a)[0];
      assert QueueOpsOf(s, a) == [op];
      assert ApplyOps(s.queue, [op]) == ApplyOps(ApplyOp(s.queue, op), []);
    }
  }

  /** To a waiter, a stretch of the run is the queue operations in it and the time it took. */
  lemma {:induction false} GapOnQueue(s: State, gap: seq<Action>)
    requires Legal(s, gap)
    ensures After(s, gap).queue == ApplyOps(s.queue, OpsOfOthers(s, gap))
    ensures s.now <= After(s, gap).now
    decreases |gap|
  {
    if gap == [] {
    } else {
      var s' := Apply(s, gap[0]);
      StepOnQueue(s, gap[0]);
      GapOnQueue(s', gap[1..]);
      ApplyOpsConcat(s.queue, QueueOpsOf(s, gap[0]), OpsOfOthers(s', gap[1..]));
    }
  }

  predicate Waits(s: State) {
    Decide(s.queue, s.now).WaitFor? || Decide(s.queue, s.now).WaitForChange?
  }

  /** Worker w takes the lock |gaps| + 1 times; all but the last time it goes back to waiting,
      and gaps[i] is what happens until it takes the lock again. */
  predicate Visit(s: State, w: nat, gaps: seq<seq<Action>>)
    decreases |gaps|
  {
    && Enabled(s, TakeLock(w))
    && (Waits(s) <==> gaps != [])
    && (gaps != [] ==>
          && Legal(Apply(s, TakeLock(w)), gaps[0])
          && TakeLock(w) !in gaps[0]
          && Visit(After(Apply(s, TakeLock(w)), gaps[0]), w, gaps[1..]))
  }

  function VisitEnd(s: State, w: nat, gaps: seq<seq<Action>>): State
    requires Visit(s, w, gaps)
    decreases |gaps|
  {
    var s' := Apply(s, TakeLock(w));
    if gaps == [] then s' else VisitEnd(After(s', gaps[0]), w, gaps[1..])
  }

  function Script(s: State, w: nat, gaps: seq<seq<Action>>): seq<Interference>
    requires Visit(s, w, gaps)
    decreases |gaps|
  {
    if gaps == [] then []
    else
      var s' := Apply(s, TakeLock(w));
      var next := After(s', gaps[0]);
      var elapsed := if s.now <= next.now then next.now - s.now else 0;
      [Interference(elapsed, OpsOfOthers(s', gaps[0]))] + Script(next, w, gaps[1..])
  }

  function ResultOf(w: Worker): PopResult {
    match w
    case Running(t) => Obtained(t)
    case Exited => Drained
    case _ => StillWaiting
  }

  /** The state in which w takes the lock again after a wait. */
  function NextLook(s: State, w: nat, gaps: seq<seq<Action>>): State
    requires Visit(s, w, gaps) && gaps != []
  {
    After(Apply(s, TakeLock(w)), gaps[0])
  }

  lemma VisitGoesOn(s: State, w: nat, gaps: seq<seq<Action>>)
    requires Visit(s, w, gaps) && gaps != []
    ensures Waits(s) && Visit(NextLook(s, w, gaps), w, gaps[1..])
    ensures VisitEnd(s, w, gaps) == VisitEnd(NextLook(s, w, gaps), w, gaps[1..])
    ensures var first := Script(s, w, gaps)[0];
      && Script(s, w, gaps) == [first] + Script(NextLook(s, w, gaps), w, gaps[1..])
      && NextLook(s, w, gaps).now == s.now + first.elapsed
      && NextLook(s, w, gaps).queue == ApplyOps(s.queue, first.ops)
  {
    WaitingLook(s, w);
    GapOnQueue(Apply(s, TakeLock(w)), gaps[0]);
  }

  lemma LastLook(s: State, w: nat)
    requires Enabled(s, TakeLock(w)) && !Waits(s)
    ensures var end := Apply(s, TakeLock(w));
      && IsWorker(end, w)
      && ResultOf(end.workers[w]) != StillWaiting
      && WaitPopRun(s.queue, s.now, []) == PopRun(ResultOf(end.workers[w]), end.queue, end.now, 0)
  {
  }

  lemma WaitingLook(s: State, w: nat)
    requires Enabled(s, TakeLock(w)) && Waits(s)
    ensures Apply(s, TakeLock(w)).queue == s.queue && Apply(s, TakeLock(w)).now == s.now
  {
  }

  lemma OneMoreWait(q: QueueState, now: int, first: Interference, rest: seq<Interference>)
    requires Decide(q, now).WaitFor? || Decide(q, now).WaitForChange?
    ensures var run := WaitPopRun(ApplyOps(q, first.ops), now + first.elapsed, rest);
      WaitPopRun(q, now, [first] + rest) == run.(waits := run.waits + 1)
  {
    assert ([first] + rest)[1..] == rest;
  }

  /** For every interleaving: what wait_pop hands the worker, the queue it leaves, the time and
      the number of waits are those of the method's run under the interference. */
  lemma {:induction false} VisitIsWaitPop(s: State, w: nat, gaps: seq<seq<Action>>)
    requires Visit(s, w, gaps)
    ensures var end := VisitEnd(s, w, gaps);
      && IsWorker(end, w)
      && ResultOf(end.workers[w]) != StillWaiting
      && WaitPopRun(s.queue, s.now, Script(s, w, gaps))
           == PopRun(ResultOf(end.workers[w]), end.queue, end.now, |gaps|)
    decreases |gaps|
  {
    if gaps == [] {
      LastLook(s, w);
    } else {
      var next := NextLook(s, w, gaps);
      VisitGoesOn(s, w, gaps);
      VisitIsWaitPop(next, w, gaps[1..]);
      OneMoreWait(s.queue, s.now, Script(s, w, gaps)[0], Script(next, w, gaps[1..]));
    }
  }
}
