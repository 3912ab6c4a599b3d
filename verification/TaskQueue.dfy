/** Queue<T, std::set<T, Cmp>>: its abstract operations on (elements, closed), and the class
    whose methods update those two fields in place. */
module TaskQueues {
  import opened TaskTime

  datatype QueueState = QueueState(elements: seq<Task>, closed: bool)

  // ----- the ordered set -----

  ghost predicate Sorted(s: seq<Task>) {
    forall i, j :: 0 <= i < j < |s| ==> s[i].Before(s[j])
  }

  /** std::set::insert: in key order, and no insertion next to an equivalent key. */
  function Insert(s: seq<Task>, t: Task): seq<Task> {
    if s == [] || t.Before(s[0]) then [t] + s
    else if s[0].Before(t) then [s[0]] + Insert(s[1..], t)
    else s
  }

  /** The elements that a removal of one request id leaves behind. */
  function Without(s: seq<Task>, requestId: nat): (r: seq<Task>)
    ensures |r| <= |s|
  {
    if s == [] then []
    else if s[0].requestId == requestId then Without(s[1..], requestId)
    else [s[0]] + Without(s[1..], requestId)
  }

  lemma SortedCons(x: Task, s: seq<Task>)
    requires Sorted(s)
    requires s != [] ==> x.Before(s[0])
    ensures Sorted([x] + s)
  {
    forall i, j | 0 <= i < j < |s| + 1 ensures ([x] + s)[i].Before(([x] + s)[j]) {
      if i == 0 {
        if j > 1 { BeforeIsStrictOrder(x, s[0], s[j - 1]); }
      }
    }
  }

  lemma SortedTail(s: seq<Task>)
    requires Sorted(s) && s != []
    ensures Sorted(s[1..])
    ensures forall x :: x in s[1..] ==> s[0].Before(x)
  {
  }

  /** Insertion keeps the order and adds the task unless its key is already taken. */
  lemma {:induction false} InsertSound(s: seq<Task>, t: Task)
    requires Sorted(s)
    ensures Sorted(Insert(s, t))
    ensures forall x :: x in Insert(s, t) ==> x in s || x == t
    ensures forall x :: x in s ==> x in Insert(s, t)
    ensures t in Insert(s, t) || exists x :: x in s && x.seqId == t.seqId
  {
    if s == [] {
    } else if t.Before(s[0]) {
      SortedCons(t, s);
    } else if s[0].Before(t) {
      InsertSound(s[1..], t);
      assert s == [s[0]] + s[1..];
      SortedCons(s[0], Insert(s[1..], t));
    } else {
      assert s[0] in s;
    }
  }

  /** A task whose sequence id is not in the set is never dropped: nothing is lost or doubled. */
  lemma {:induction false} InsertAddsExactlyOne(s: seq<Task>, t: Task)
    requires Sorted(s)
    requires forall x :: x in s ==> x.seqId != t.seqId
    ensures multiset(Insert(s, t)) == multiset(s) + multiset{t}
    ensures |Insert(s, t)| == |s| + 1
  {
    if s == [] || t.Before(s[0]) {
    } else {
      assert s[0] in s;
      BeforeIsStrictOrder(s[0], t, t);
      assert s == [s[0]] + s[1..];
      InsertAddsExactlyOne(s[1..], t);
    }
  }

  /** Removal keeps exactly the tasks with another request id, in order; something was
      removed iff the set shrank. */
  lemma {:induction false} WithoutExact(s: seq<Task>, requestId: nat)
    requires Sorted(s)
    ensures Sorted(Without(s, requestId))
    ensures forall x :: x in Without(s, requestId) <==> x in s && x.requestId != requestId
    ensures |Without(s, requestId)| < |s| <==> exists x :: x in s && x.requestId == requestId
  {
    if s == [] {
    } else {
      assert s == [s[0]] + s[1..];
      WithoutExact(s[1..], requestId);
      if s[0].requestId == requestId {
        assert s[0] in s;
      }
    }
  }

  lemma {:induction false} WithoutIsSubset(s: seq<Task>, requestId: nat)
    ensures forall x :: x in Without(s, requestId) ==> x in s
  {
    if s == [] {
    } else {
      WithoutIsSubset(s[1..], requestId);
    }
  }

  /** Removal takes every task with the id and nothing else. */
  lemma {:induction false} WithoutCounts(s: seq<Task>, requestId: nat)
    ensures forall x ::
      multiset(Without(s, requestId))[x] == (if x.requestId == requestId then 0 else multiset(s)[x])
  {
    if s == [] {
    } else {
      WithoutCounts(s[1..], requestId);
      assert s == [s[0]] + s[1..];
    }
  }

  lemma {:induction false} InsertAddsAtMostOne(s: seq<Task>, t: Task)
    ensures |Insert(s, t)| <= |s| + 1
    ensures forall x :: x in Insert(s, t) ==> x in s || x == t
  {
    if s == [] {
    } else {
      InsertAddsAtMostOne(s[1..], t);
    }
  }

  /** The loop's view of a removal: s[..it] is already clean. */
  function CleanedFrom(s: seq<Task>, it: nat, requestId: nat): seq<Task>
    requires it <= |s|
  {
    s[..it] + Without(s[it..], requestId)
  }

  lemma CleanedStep(s: seq<Task>, it: nat, requestId: nat)
    requires it < |s|
    ensures s[it].requestId == requestId ==>
      CleanedFrom(s[..it] + s[it + 1..], it, requestId) == CleanedFrom(s, it, requestId)
    ensures s[it].requestId != requestId ==>
      CleanedFrom(s, it + 1, requestId) == CleanedFrom(s, it, requestId)
  {
    assert s[it..][1..] == s[it + 1..];
    if s[it].requestId == requestId {
      var e := s[..it] + s[it + 1..];
      assert e[..it] == s[..it] && e[it..] == s[it + 1..];
    } else {
      assert s[..it + 1] == s[..it] + [s[it]];
    }
  }

  /** A sorted sequence is determined by its set of elements, so the representation is
      as good as the std::set it stands for. */
  lemma {:induction false} SortedIsCanonical(a: seq<Task>, b: seq<Task>)
    requires Sorted(a) && Sorted(b)
    requires forall x :: x in a <==> x in b
    ensures a == b
  {
    if a == [] {
      HeadIsMember(b);
    } else {
      assert a[0] in b;
      assert b[0] in a;
      assert a[0] == b[0];
      forall x ensures x in a[1..] <==> x in b[1..] {
        TailMembership(a, x);
        TailMembership(b, x);
      }
      SortedIsCanonical(a[1..], b[1..]);
    }
  }

  lemma HeadIsMember(s: seq<Task>)
    ensures s != [] ==> s[0] in s
  {
  }

  lemma TailMembership(s: seq<Task>, x: Task)
    requires Sorted(s) && s != []
    ensures x in s[1..] <==> x in s && x != s[0]
  {
    assert s == [s[0]] + s[1..];
  }

  // ----- one look at the queue under the lock -----

  datatype Decision =
    | Extract(task: Task)       // the head's delay has elapsed
    | WaitFor(delayMs: int)     // timed wait on the head
    | WaitForChange             // empty and open
    | Leave                     // empty and closed

  function Decide(q: QueueState, now: int): Decision {
    if q.elements == [] then
      if q.closed then Leave else WaitForChange
    else if q.elements[0].Ready(now) then Extract(q.elements[0])
    else WaitFor(q.elements[0].Delay(now))
  }

  // ----- what other threads may do while a waiter has released the lock -----

  datatype QueueOp = OpPush(task: Task) | OpRemove(requestId: nat) | OpClose | OpExtract

  datatype Interference = Interference(elapsed: nat, ops: seq<QueueOp>)

  function ApplyOp(q: QueueState, op: QueueOp): QueueState {
    match op
    case OpPush(t) => if q.closed then q else q.(elements := Insert(q.elements, t))
    case OpRemove(id) => q.(elements := Without(q.elements, id))
    case OpClose => q.(closed := true)
    case OpExtract => if q.elements == [] then q else q.(elements := q.elements[1..])
  }

  function ApplyOps(q: QueueState, ops: seq<QueueOp>): QueueState
    decreases |ops|
  {
    if ops == [] then q else ApplyOps(ApplyOp(q, ops[0]), ops[1..])
  }

  lemma ApplyOpKeeps(q: QueueState, op: QueueOp)
    requires Sorted(q.elements)
    ensures Sorted(ApplyOp(q, op).elements)
    ensures q.closed ==> ApplyOp(q, op).closed
  {
    match op
    case OpPush(t) => InsertSound(q.elements, t);
    case OpRemove(id) => WithoutExact(q.elements, id);
    case _ =>
  }

  lemma {:induction false} ApplyOpsKeeps(q: QueueState, ops: seq<QueueOp>)
    requires Sorted(q.elements)
    ensures Sorted(ApplyOps(q, ops).elements)
    ensures q.closed ==> ApplyOps(q, ops).closed
    decreases |ops|
  {
    if ops == [] {
    } else {
      ApplyOpKeeps(q, ops[0]);
      ApplyOpsKeeps(ApplyOp(q, ops[0]), ops[1..]);
    }
  }

  // ----- wait_pop as one loop: decide, then wait, then decide again -----

  datatype PopResult = Obtained(task: Task) | Drained | StillWaiting

  datatype PopRun = PopRun(result: PopResult, queue: QueueState, now: int, waits: nat)

  /** Every wake-up, whatever caused it, leads to a fresh decision on the queue found then. */
  function WaitPopRun(q: QueueState, now: int, env: seq<Interference>): PopRun
    decreases |env|
  {
    match Decide(q, now)
    case Extract(t) => PopRun(Obtained(t), q.(elements := q.elements[1..]), now, 0)
    case Leave => PopRun(Drained, q, now, 0)
    case _ =>
      if env == [] then PopRun(StillWaiting, q, now, 0)
      else
        var rest := WaitPopRun(ApplyOps(q, env[0].ops), now + env[0].elapsed, env[1..]);
        rest.(waits := rest.waits + 1)
  }

  /** The answer of wait_pop under any interference: a task is handed out only when it is
      less than a millisecond early and before everything it leaves behind; no task at all
      is handed out only by a queue that is closed and empty. */
  lemma {:induction false} WaitPopAnswer(q: QueueState, now: int, env: seq<Interference>)
    requires Sorted(q.elements)
    decreases |env|
    ensures var run := WaitPopRun(q, now, env);
      && Sorted(run.queue.elements)
      && now <= run.now && run.waits <= |env|
      && (q.closed ==> run.queue.closed)
      && (run.result.Obtained? ==>
            && run.result.task.due < run.now + 1_000_000
            && forall x :: x in run.queue.elements ==> run.result.task.Before(x))
      && (run.result.Drained? ==> run.queue == QueueState([], true))
      && (run.result.StillWaiting? ==>
            run.waits == |env| && (run.queue.elements == [] ==> !run.queue.closed))
  {
    match Decide(q, now)
    case Extract(t) => ReadyIff(t, now); SortedTail(q.elements);
    case Leave =>
    case _ =>
      if env != [] {
        ApplyOpsKeeps(q, env[0].ops);
        WaitPopAnswer(ApplyOps(q, env[0].ops), now + env[0].elapsed, env[1..]);
      }
  }

  /** A timed wait that sleeps its full time, alone, is enough to obtain the head. */
  lemma SleepObtainsHead(q: QueueState, now: int, late: nat)
    requires 0 <= now && Sorted(q.elements) && q.elements != []
    ensures var sleep := Interference(FromMs(q.elements[0].Delay(now)) + late, []);
      && WaitPopRun(q, now, [sleep]).result == Obtained(q.elements[0])
      && WaitPopRun(q, now, [sleep]).queue == q.(elements := q.elements[1..])
      && WaitPopRun(q, now, [sleep]).waits <= 1
  {
    var head := q.elements[0];
    if !head.Ready(now) {
      var woken := now + FromMs(head.Delay(now)) + late;
      HeadOfLine(head, head, now);
      ReadyIff(head, now + FromMs(head.Delay(now)));
      ReadyIff(head, woken);
      assert WaitPopRun(q, woken, []).result == Obtained(head);
    }
  }

  /** What remains of a wait_pop run after the first waits of the script are over. */
  ghost function GoalFrom(q: QueueState, now: int, env: seq<Interference>, waits: nat): PopRun
    requires waits <= |env|
  {
    var rest := WaitPopRun(q, now, env[waits..]);
    rest.(waits := rest.waits + waits)
  }

  lemma GoalAfterWait(q: QueueState, now: int, env: seq<Interference>, waits: nat)
    requires waits < |env| && (Decide(q, now).WaitFor? || Decide(q, now).WaitForChange?)
    ensures GoalFrom(ApplyOps(q, env[waits].ops), now + env[waits].elapsed, env, waits + 1)
         == GoalFrom(q, now, env, waits)
  {
    assert env[waits..][1..] == env[waits + 1..];
  }

  // ----- the class -----

  datatype PushResult = Accepted | QueueClosed

  /** notify_one and notify_all */
  datatype Signal = ToOne | ToAll

  class TaskQueue {
    var elements: seq<Task>
    var closed: bool
    var signals: seq<Signal>     // what has been sent on the condition variable

    ghost predicate Valid()
      reads this
    {
      Sorted(elements)
    }

    function State(): QueueState
      reads this
    {
      QueueState(elements, closed)
    }

    constructor ()
      ensures Valid() && State() == QueueState([], false) && signals == []
    {
      elements, closed, signals := [], false, [];
    }

    method Push(t: Task) returns (r: PushResult)
      requires Valid()
      modifies this
      ensures Valid()
      ensures r == if old(closed) then QueueClosed else Accepted
      ensures State() == ApplyOp(old(State()), OpPush(t))
      ensures signals == old(signals) + if r == Accepted then [ToOne] else []
    {
      if closed {
        return QueueClosed;
      }
      InsertSound(elements, t);
      elements := Insert(elements, t);
      signals := signals + [ToOne];
      r := Accepted;
    }

    method Close()
      modifies this
      ensures State() == ApplyOp(old(State()), OpClose)
      ensures signals == old(signals) + [ToAll]
    {
      closed := true;
      signals := signals + [ToAll];
    }

    /** The erasing iterator loop. */
    method Remove(requestId: nat) returns (removed: bool)
      requires Valid()
      modifies this`elements
      ensures Valid()
      ensures State() == ApplyOp(old(State()), OpRemove(requestId))
      ensures removed <==> exists x :: x in old(elements) && x.requestId == requestId
    {
      removed := false;
      var it := 0;
      ghost var goal := Without(elements, requestId);
      assert CleanedFrom(elements, 0, requestId) == goal;
      while it < |elements|
        invariant 0 <= it <= |elements| <= |old(elements)|
        invariant closed == old(closed)
        invariant CleanedFrom(elements, it, requestId) == goal
        invariant removed <==> |elements| < |old(elements)|
        decreases |elements| - it
      {
        CleanedStep(elements, it, requestId);
        if elements[it].requestId == requestId {
          elements := elements[..it] + elements[it + 1..];
          removed := true;
        } else {
          it := it + 1;
        }
      }
      assert elements[it..] == [] && elements[..it] == elements;
      assert elements == goal;
      WithoutExact(old(elements), requestId);
    }

    /** The lock is released: time passes and the other threads' operations take effect. */
    method Release(now: int, others: Interference) returns (later: int)
      requires Valid()
      modifies this
      ensures Valid()
      ensures State() == ApplyOps(old(State()), others.ops)
      ensures later == now + others.elapsed
    {
      var i := 0;
      while i < |others.ops|
        invariant 0 <= i <= |others.ops|
        invariant Valid()
        invariant ApplyOps(State(), others.ops[i..]) == ApplyOps(old(State()), others.ops)
      {
        var op := others.ops[i];
        ghost var before := State();
        ApplyOpKeeps(before, op);
        match op {
          case OpPush(t) => var _ := Push(t);
          case OpRemove(id) => var _ := Remove(id);
          case OpClose => Close();
          case OpExtract => if elements != [] { elements := elements[1..]; }
        }
        assert others.ops[i..][1..] == others.ops[i + 1..];
        i := i + 1;
      }
      later := now + others.elapsed;
    }

    method ExtractHead() returns (r: PopResult)
      requires Valid() && elements != []
      modifies this`elements
      ensures Valid() && elements == old(elements)[1..]
      ensures r == Obtained(old(elements)[0])
    {
      r := Obtained(elements[0]);
      elements := elements[1..];
    }

    /** One wait of wait_pop: the script says how long it lasts and what the others do. */
    method WaitOnce(start: int, env: seq<Interference>, done: nat) returns (now: int)
      requires Valid() && done < |env|
      requires Decide(State(), start).WaitFor? || Decide(State(), start).WaitForChange?
      modifies this
      ensures Valid() && (old(closed) ==> closed)
      ensures GoalFrom(State(), now, env, done + 1) == GoalFrom(old(State()), start, env, done)
    {
      ApplyOpsKeeps(State(), env[done].ops);
      GoalAfterWait(State(), start, env, done);
      now := Release(start, env[done]);
    }

    /** The wait with a predicate: until the queue is not empty or is closed. */
    method WaitForElements(start: int, env: seq<Interference>, done: nat)
      returns (changed: bool, now: int, waits: nat)
      requires Valid() && done <= |env| && elements == [] && !closed
      modifies this
      ensures Valid() && done <= waits <= |env|
      ensures GoalFrom(State(), now, env, waits) == GoalFrom(old(State()), start, env, done)
      ensures changed <==> elements != [] || closed
      ensures if changed then done < waits else waits == |env|
    {
      now, waits := start, done;
      while elements == [] && !closed
        invariant Valid() && done <= waits <= |env|
        invariant waits == done ==> elements == [] && !closed
        invariant GoalFrom(State(), now, env, waits) == GoalFrom(old(State()), start, env, done)
        decreases |env| - waits
      {
        if waits == |env| {
          return false, now, waits;
        }
        now := WaitOnce(now, env, waits);
        waits := waits + 1;
      }
      changed := true;
    }

    /** wait_pop, with its open loop and its drain loop. Each
        wait consumes one entry of env; a script that runs out leaves the caller waiting. */
    method WaitPop(start: int, env: seq<Interference>) returns (r: PopResult, now: int, waits: nat)
      requires Valid()
      modifies this
      ensures Valid()
      ensures PopRun(r, State(), now, waits) == WaitPopRun(old(State()), start, env)
    {
      now, waits := start, 0;
      ghost var goal := WaitPopRun(State(), start, env);
      while !closed
        invariant Valid() && waits <= |env|
        invariant GoalFrom(State(), now, env, waits) == goal
        decreases |env| - waits
      {
        if elements != [] {
          var delay := elements[0].Delay(now);
          if delay <= 0 {
            r := ExtractHead();
            return;
          }
          if waits == |env| {
            return StillWaiting, now, waits;
          }
          now := WaitOnce(now, env, waits);
          waits := waits + 1;
        } else {
          var changed;
          changed, now, waits := WaitForElements(now, env, waits);
          if !changed {
            return StillWaiting, now, waits;
          }
        }
      }
      while elements != []
        invariant Valid() && closed && waits <= |env|
        invariant GoalFrom(State(), now, env, waits) == goal
        decreases |env| - waits
      {
        var delay := elements[0].Delay(now);
        if delay <= 0 {
          r := ExtractHead();
          return;
        }
        if waits == |env| {
          return StillWaiting, now, waits;
        }
        now := WaitOnce(now, env, waits);
        waits := waits + 1;
      }
      r := Drained;
    }
  }
}
