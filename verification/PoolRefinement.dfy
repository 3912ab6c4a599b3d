/** The pool refines one atomic object: a set of tasks with submit, take the least task if it
    is due, remove by request id, and close. Waits, wake-ups and retries do nothing to it. */
module PoolRefinement {
  import opened TaskTime
  import opened TaskQueues
  import opened Pool
  import opened PoolInvariant

  datatype Atomic = Atomic(pending: set<Task>, closed: bool, now: int)

  datatype Op =
    | Nothing
    | Elapse
    | Submit(task: Task)
    | SubmitFails(task: Task)
    | TakeLeast(task: Task)
    | RemoveById(requestId: nat)
    | CloseForGood
    | ReportEmpty               // a worker is told that there will never be another task

  ghost predicate AtomicStep(a: Atomic, op: Op, b: Atomic) {
    match op
    case Nothing => b == a
    case Elapse => a.now <= b.now && b == a.(now := b.now)
    case Submit(t) => !a.closed && t !in a.pending && b == a.(pending := a.pending + {t})
    case SubmitFails(_) => a.closed && b == a
    case TakeLeast(t) =>
      && t in a.pending
      && (forall u :: u in a.pending && u != t ==> t.Before(u))
      && t.due < a.now + 1_000_000
      && b == a.(pending := a.pending - {t})
    case RemoveById(id) => b == a.(pending := set u | u in a.pending && u.requestId != id)
    case CloseForGood => b == a.(closed := true)
    case ReportEmpty => a.closed && a.pending == {} && b == a
  }

  ghost predicate AtomicRun(a: Atomic, ops: seq<Op>, b: Atomic)
    decreases |ops|
  {
    if ops == [] then a == b
    else exists mid :: AtomicStep(a, ops[0], mid) && AtomicRun(mid, ops[1..], b)
  }

  function Abstract(s: State): Atomic {
    Atomic((set t | t in s.queue.elements), s.queue.closed, s.now)
  }

  function OpOf(s: State, a: Action): Op {
    match a
    case Tick(_) => Elapse
    case Push(t, _) => if s.queue.closed then SubmitFails(t) else Submit(t)
    case Cancel(id) => RemoveById(id)
    case SetClosed => CloseForGood
    case TakeLock(_) =>
      (match Decide(s.queue, s.now)
       case Extract(t) => TakeLeast(t)
       case Leave => ReportEmpty
       case _ => Nothing)
    case _ => Nothing
  }

  function OpsOf(s: State, run: seq<Action>): seq<Op>
    requires Legal(s, run)
    decreases |run|
  {
    if run == [] then [] else [OpOf(s, run[0])] + OpsOf(Apply(s, run[0]), run[1..])
  }

  lemma PushRefines(s: State, a: Action)
    requires Inv(s) && Enabled(s, a) && a.Push?
    ensures AtomicStep(Abstract(s), OpOf(s, a), Abstract(Apply(s, a)))
  {
    if !s.queue.closed {
      MovedQueue(s, a);
      assert Tracked(s, a.task);
      assert Abstract(Apply(s, a)).pending == Abstract(s).pending + {a.task};
    }
  }

  lemma CancelRefines(s: State, a: Action)
    requires Inv(s) && Enabled(s, a) && a.Cancel?
    ensures AtomicStep(Abstract(s), OpOf(s, a), Abstract(Apply(s, a)))
  {
    WithoutExact(s.queue.elements, a.requestId);
    assert Abstract(Apply(s, a)).pending
        == set u | u in Abstract(s).pending && u.requestId != a.requestId;
  }

  lemma TakeLockRefines(s: State, a: Action)
    requires Sorted(s.queue.elements) && Enabled(s, a) && a.TakeLock?
    ensures AtomicStep(Abstract(s), OpOf(s, a), Abstract(Apply(s, a)))
  {
    if Decide(s.queue, s.now).Extract? {
      var q := s.queue.elements;
      ReadyIff(q[0], s.now);
      SortedTail(q);
      HeadIsMember(q);
      forall t ensures t in q[1..] <==> t in q && t != q[0] {
        TailMembership(q, t);
      }
      assert Abstract(Apply(s, a)).pending == Abstract(s).pending - {q[0]};
    }
  }

  lemma StepRefines(s: State, a: Action)
    requires Inv(s) && Enabled(s, a)
    ensures AtomicStep(Abstract(s), OpOf(s, a), Abstract(Apply(s, a)))
  {
    if a.Push? { PushRefines(s, a); }
    else if a.Cancel? { CancelRefines(s, a); }
    else if a.TakeLock? { TakeLockRefines(s, a); }
  }

  /** Every run of workers, producers, clock and condition variable is, step by step, a run of
      the atomic object. */
  lemma {:induction false} RunRefines(s: State, run: seq<Action>)
    requires Inv(s) && Legal(s, run)
    ensures |OpsOf(s, run)| == |run|
    ensures AtomicRun(Abstract(s), OpsOf(s, run), Abstract(After(s, run)))
    decreases |run|
  {
    if run == [] {
    } else {
      var s' := Apply(s, run[0]);
      StepRefines(s, run[0]);
      StepKeeps(s, run[0]);
      RunRefines(s', run[1..]);
      assert OpsOf(s, run)[0] == OpOf(s, run[0]) && OpsOf(s, run)[1..] == OpsOf(s', run[1..]);
      assert AtomicStep(Abstract(s), OpsOf(s, run)[0], Abstract(s'));
    }
  }

  lemma PoolRefinesAtomicQueue(size: nat, start: nat, run: seq<Action>)
    requires Legal(Init(size, start), run)
    ensures AtomicRun(Atomic({}, false, start), OpsOf(Init(size, start), run),
                      Abstract(After(Init(size, start), run)))
  {
    InitInv(size, start);
    RunRefines(Init(size, start), run);
  }
}
