/** TaskDispatcherImpl: named pools and request ids. The class updates its fields in place; the
    specification functions say what a call does, and the lemmas about runs of calls say which
    tasks a cancellation can reach. */
module Dispatcher {
  import opened TaskTime
  import opened TaskQueues
  import opened TaskBases
  import ThreadPools

  type Name = string

  /** What add_task and cancel_pending see of a pool. */
  datatype PoolState = PoolState(started: bool, queue: QueueState)

  datatype Reply = Dispatched | UnknownPool | PoolStopped | PoolClosed

  /** auto and manual record, for the lemmas, how each task got its request id. */
  datatype State = State(
    pools: map<Name, PoolState>,
    lastId: nat,
    issued: set<nat>,
    auto: set<Task>,
    manual: set<Task>)

  datatype Call =
    | CreateId                                       // create_request_id, by a user
    | DispatchAuto(pool: Name, task: Task)
    | DispatchAs(pool: Name, requestId: nat, task: Task)
    | AddDirectly(pool: Name, task: Task)            // ThreadPool.add_task, request id left 0
    | CancelPending(pool: Name, requestId: nat)
    | Cancel(pool: Name, requestId: nat, followUp: Task)
    | Extract(pool: Name)                            // a worker takes the head
    | SetStarted(pool: Name, started: bool)
    | CloseQueue(pool: Name)

  function ReplyTo(pools: map<Name, PoolState>, pool: Name): Reply {
    if pool !in pools then UnknownPool
    else if !pools[pool].started then PoolStopped
    else if pools[pool].queue.closed then PoolClosed
    else Dispatched
  }

  function OnQueue(pools: map<Name, PoolState>, pool: Name, op: QueueOp): map<Name, PoolState> {
    if pool !in pools then pools
    else pools[pool := pools[pool].(queue := ApplyOp(pools[pool].queue, op))]
  }

  /** find_thread_pool and add_task */
  function Added(pools: map<Name, PoolState>, pool: Name, t: Task): map<Name, PoolState> {
    if ReplyTo(pools, pool) == Dispatched then OnQueue(pools, pool, OpPush(t)) else pools
  }

  /** The id is drawn before the pool is looked up. */
  function AfterAuto(s: State, pool: Name, task: Task): State {
    var t := task.(requestId := s.lastId + 1);
    s.(pools := Added(s.pools, pool, t), lastId := s.lastId + 1, auto := s.auto + {t})
  }

  function After(s: State, c: Call): State {
    match c
    case CreateId => s.(lastId := s.lastId + 1, issued := s.issued + {s.lastId + 1})
    case DispatchAuto(pool, task) => AfterAuto(s, pool, task)
    case DispatchAs(pool, id, task) =>
      var t := task.(requestId := id);
      s.(pools := Added(s.pools, pool, t), manual := s.manual + {t})
    case AddDirectly(pool, task) =>
      s.(pools := Added(s.pools, pool, task.(requestId := 0)))
    case CancelPending(pool, id) => s.(pools := OnQueue(s.pools, pool, OpRemove(id)))
    case Cancel(pool, id, followUp) =>
      AfterAuto(s.(pools := OnQueue(s.pools, pool, OpRemove(id))), pool, followUp)
    case Extract(pool) => s.(pools := OnQueue(s.pools, pool, OpExtract))
    case SetStarted(pool, started) =>
      if pool !in s.pools then s
      else s.(pools := s.pools[pool := s.pools[pool].(started := started)])
    case CloseQueue(pool) => s.(pools := OnQueue(s.pools, pool, OpClose))
  }

  /** Users dispatch and cancel only under ids that create_request_id gave them. */
  predicate Honest(s: State, c: Call) {
    (c.DispatchAs? || c.CancelPending? || c.Cancel? ==> c.requestId in s.issued)
  }

  predicate HonestRun(s: State, calls: seq<Call>)
    decreases |calls|
  {
    calls == [] || (Honest(s, calls[0]) && HonestRun(After(s, calls[0]), calls[1..]))
  }

  function AfterAll(s: State, calls: seq<Call>): State
    decreases |calls|
  {
    if calls == [] then s else AfterAll(After(s, calls[0]), calls[1..])
  }

  function Initial(names: set<Name>): State {
    State(map n | n in names :: PoolState(false, QueueState([], false)), 0, {}, {}, {})
  }

  ghost predicate Inv(s: State) {
    && (forall n :: n in s.pools ==> Sorted(s.pools[n].queue.elements))
    && (forall id :: id in s.issued ==> 1 <= id <= s.lastId)
    && (forall t :: t in s.auto ==> 1 <= t.requestId <= s.lastId && t.requestId !in s.issued)
    && (forall t :: t in s.manual ==> t.requestId in s.issued)
    && (forall n, t :: n in s.pools && t in s.pools[n].queue.elements ==>
          t in s.auto || t in s.manual || t.requestId == 0)
  }

  /** Every element of the queues after an operation on one of them was there before, or is the
      one that was pushed. */
  lemma OnQueueElements(pools: map<Name, PoolState>, pool: Name, op: QueueOp)
    requires forall n :: n in pools ==> Sorted(pools[n].queue.elements)
    ensures OnQueue(pools, pool, op).Keys == pools.Keys
    ensures forall n :: n in pools ==> Sorted(OnQueue(pools, pool, op)[n].queue.elements)
    ensures forall n, t :: n in pools && t in OnQueue(pools, pool, op)[n].queue.elements ==>
      t in pools[n].queue.elements || (op.OpPush? && t == op.task)
  {
    if pool in pools {
      var q := pools[pool].queue;
      ApplyOpKeeps(q, op);
      match op
      case OpPush(t) => InsertSound(q.elements, t);
      case OpRemove(id) => WithoutExact(q.elements, id);
      case _ =>
    }
  }

  lemma AddedKeeps(s: State, pool: Name, t: Task, s': State)
    requires Inv(s) && s'.pools == Added(s.pools, pool, t)
    requires s.issued == s'.issued && s.lastId <= s'.lastId
    requires s.auto <= s'.auto <= s.auto + {t} && s.manual <= s'.manual <= s.manual + {t}
    requires t in s'.auto || t in s'.manual || t.requestId == 0
    requires t in s'.auto && t !in s.auto ==> 1 <= t.requestId <= s'.lastId && t.requestId !in s.issued
    requires t in s'.manual && t !in s.manual ==> t.requestId in s.issued
    ensures Inv(s')
  {
    OnQueueElements(s.pools, pool, OpPush(t));
  }

  lemma QueueOpKeeps(s: State, pool: Name, op: QueueOp)
    requires Inv(s) && !op.OpPush?
    ensures Inv(s.(pools := OnQueue(s.pools, pool, op)))
  {
    OnQueueElements(s.pools, pool, op);
  }

  lemma CallKeeps(s: State, c: Call)
    requires Inv(s) && Honest(s, c)
    ensures Inv(After(s, c))
  {
    match c
    case CreateId =>
    case DispatchAuto(pool, task) => AddedKeeps(s, pool, task.(requestId := s.lastId + 1), After(s, c));
    case DispatchAs(pool, id, task) => AddedKeeps(s, pool, task.(requestId := id), After(s, c));
    case AddDirectly(pool, task) => AddedKeeps(s, pool, task.(requestId := 0), After(s, c));
    case CancelPending(pool, id) => QueueOpKeeps(s, pool, OpRemove(id));
    case Cancel(pool, id, followUp) =>
      QueueOpKeeps(s, pool, OpRemove(id));
      var mid := s.(pools := OnQueue(s.pools, pool, OpRemove(id)));
      AddedKeeps(mid, pool, followUp.(requestId := s.lastId + 1), After(s, c));
    case Extract(pool) => QueueOpKeeps(s, pool, OpExtract);
    case SetStarted(pool, started) =>
    case CloseQueue(pool) => QueueOpKeeps(s, pool, OpClose);
  }

  lemma {:induction false} CallsKeep(s: State, calls: seq<Call>)
    requires Inv(s) && HonestRun(s, calls)
    ensures Inv(AfterAll(s, calls))
    decreases |calls|
  {
    if calls == [] {
    } else {
      CallKeeps(s, calls[0]);
      CallsKeep(After(s, calls[0]), calls[1..]);
    }
  }

  ghost predicate Reachable(s: State) {
    exists names, calls :: HonestRun(Initial(names), calls) && AfterAll(Initial(names), calls) == s
  }

  lemma ReachableInv(s: State)
    requires Reachable(s)
    ensures Inv(s)
  {
    var names, calls :| HonestRun(Initial(names), calls) && AfterAll(Initial(names), calls) == s;
    CallsKeep(Initial(names), calls);
  }

  /** A dispatch under a given id adds exactly that task, under that id, to the named pool and
      to no other; a dispatch that is refused changes no pool. */
  lemma DispatchAddsExactlyOne(s: State, pool: Name, id: nat, task: Task)
    requires Reachable(s)
    requires pool in s.pools ==> forall x :: x in s.pools[pool].queue.elements ==> x.seqId != task.seqId
    ensures var s' := After(s, DispatchAs(pool, id, task));
      if ReplyTo(s.pools, pool) != Dispatched then s'.pools == s.pools
      else
        && s'.pools.Keys == s.pools.Keys
        && (forall n :: n in s.pools && n != pool ==> s'.pools[n] == s.pools[n])
        && multiset(s'.pools[pool].queue.elements)
             == multiset(s.pools[pool].queue.elements) + multiset{task.(requestId := id)}
        && Sorted(s'.pools[pool].queue.elements)
  {
    ReachableInv(s);
    if ReplyTo(s.pools, pool) == Dispatched {
      var q := s.pools[pool].queue.elements;
      InsertSound(q, task.(requestId := id));
      InsertAddsExactlyOne(q, task.(requestId := id));
    }
  }

  /** The three refusals, in the order in which they are found out, and when there is none. */
  lemma RepliesTell(pools: map<Name, PoolState>, pool: Name)
    ensures ReplyTo(pools, pool) == UnknownPool <==> pool !in pools
    ensures ReplyTo(pools, pool) == PoolStopped <==> pool in pools && !pools[pool].started
    ensures ReplyTo(pools, pool) == PoolClosed <==>
      pool in pools && pools[pool].started && pools[pool].queue.closed
  {
  }

  /** What pools do on their own: a worker takes the least task and no other, a pool is started
      or stopped, a queue closed; none of it touches another pool, the ids or the records. */
  lemma PoolsOnTheirOwn(s: State, c: Call, pool: Name)
    requires Reachable(s) && pool in s.pools
    requires c == Call.Extract(pool) || c == CloseQueue(pool) || (c.SetStarted? && c.pool == pool)
    ensures var s', p, p' := After(s, c), s.pools[pool], After(s, c).pools[pool];
      && s' == s.(pools := s'.pools) && s'.pools == s.pools[pool := p']
      && p'.started == (if c.SetStarted? then c.started else p.started)
      && p'.queue.closed == (p.queue.closed || c.CloseQueue?)
      && (if c.Extract? && p.queue.elements != [] then
            exists t ::
              && multiset(p.queue.elements) == multiset(p'.queue.elements) + multiset{t}
              && forall x :: x in p'.queue.elements ==> t.Before(x)
          else p'.queue.elements == p.queue.elements)
  {
    ReachableInv(s);
    var q := s.pools[pool].queue.elements;
    if c.Extract? && q != [] {
      assert q == [q[0]] + q[1..];
      SortedTail(q);
      assert multiset(q) == multiset(q[1..]) + multiset{q[0]};
    }
  }

  /** A dispatch without an id draws one nobody was ever given and no task ever had, whatever
      becomes of the task, and adds exactly the task, under that id, to exactly the named pool
      when that pool accepts it. */
  lemma AutomaticAddsExactlyOne(s: State, pool: Name, task: Task)
    requires Reachable(s)
    requires pool in s.pools ==> forall x :: x in s.pools[pool].queue.elements ==> x.seqId != task.seqId
    ensures var s', t := After(s, DispatchAuto(pool, task)), task.(requestId := s.lastId + 1);
      && s'.lastId == t.requestId && s'.issued == s.issued
      && t.requestId !in s.issued
      && (forall x :: x in s.auto + s.manual ==> x.requestId != t.requestId)
      && s'.auto == s.auto + {t} && s'.manual == s.manual
      && s'.pools.Keys == s.pools.Keys
      && (forall n :: n in s.pools && n != pool ==> s'.pools[n] == s.pools[n])
      && (pool in s.pools ==>
            var p, p' := s.pools[pool], s'.pools[pool];
            && p'.started == p.started && p'.queue.closed == p.queue.closed
            && Sorted(p'.queue.elements)
            && multiset(p'.queue.elements) == multiset(p.queue.elements)
                 + if p.started && !p.queue.closed then multiset{t} else multiset{})
  {
    ReachableInv(s);
    if ReplyTo(s.pools, pool) == Dispatched {
      var q := s.pools[pool].queue.elements;
      InsertSound(q, task.(requestId := s.lastId + 1));
      InsertAddsExactlyOne(q, task.(requestId := s.lastId + 1));
    }
  }

  /** create_request_id gives out an id that was never given out and that no task has. */
  lemma IssuedIdIsNew(s: State)
    requires Reachable(s)
    ensures var s' := After(s, CreateId);
      && (exists id :: s'.issued == s.issued + {id} && id !in s.issued && 1 <= id
            && forall n, x :: n in s.pools && x in s.pools[n].queue.elements ==> x.requestId != id)
      && s'.pools == s.pools
  {
    ReachableInv(s);
    var id := s.lastId + 1;
    assert After(s, CreateId).issued == s.issued + {id} && id !in s.issued;
  }

  /** Cancellation is precise: in the named pool it leaves exactly the tasks with another
      request id, in order; every task with an automatic id and every task with id 0 is among
      them; and no other pool changes at all. */
  lemma CancelIsPrecise(s: State, pool: Name, id: nat, t: Task)
    requires Reachable(s) && id in s.issued && pool in s.pools
    requires t in s.pools[pool].queue.elements
    ensures var s' := After(s, CancelPending(pool, id));
      && s'.pools.Keys == s.pools.Keys
      && (forall n :: n in s.pools && n != pool ==> s'.pools[n] == s.pools[n])
      && Sorted(s'.pools[pool].queue.elements)
      && (t in s'.pools[pool].queue.elements <==> t.requestId != id)
      && (t in s.auto || t.requestId == 0 ==> t in s'.pools[pool].queue.elements)
      && (t !in s'.pools[pool].queue.elements ==> t in s.manual)
  {
    ReachableInv(s);
    WithoutExact(s.pools[pool].queue.elements, id);
  }

  /** In the pool exactly the tasks under the id are gone, and exactly the follow-up has come if
      the pool accepts tasks. */
  ghost predicate Replaced(before: PoolState, after: PoolState, id: nat, followUp: Task) {
    && after.started == before.started && after.queue.closed == before.queue.closed
    && Sorted(after.queue.elements)
    && forall x :: multiset(after.queue.elements)[x] ==
         (if x.requestId == id then 0 else multiset(before.queue.elements)[x])
         + (if x == followUp && before.started && !before.queue.closed then 1 else 0)
  }

  lemma CancelOnPools(pools: map<Name, PoolState>, pool: Name, id: nat, f: Task)
    requires forall n :: n in pools ==> Sorted(pools[n].queue.elements)
    requires pool in pools ==> forall x :: x in pools[pool].queue.elements ==> x.seqId != f.seqId
    ensures var pools' := Added(OnQueue(pools, pool, OpRemove(id)), pool, f);
      && pools'.Keys == pools.Keys
      && (forall n :: n in pools && n != pool ==> pools'[n] == pools[n])
      && (pool in pools ==> Replaced(pools[pool], pools'[pool], id, f))
  {
    if pool in pools {
      var q := pools[pool].queue.elements;
      WithoutExact(q, id);
      WithoutCounts(q, id);
      InsertSound(Without(q, id), f);
      InsertAddsExactlyOne(Without(q, id), f);
    }
  }

  /** cancel as one whole: afterwards the named pool holds, for every task,
      exactly as often as before those with another id, the follow-up under the id just drawn if
      the pool is started and open, and nothing else; no task under the cancelled id is left,
      and no other pool changes. */
  lemma CancelReplaces(s: State, pool: Name, id: nat, followUp: Task)
    requires Reachable(s) && id in s.issued
    requires pool in s.pools ==> forall x :: x in s.pools[pool].queue.elements ==> x.seqId != followUp.seqId
    ensures var s', f := After(s, Cancel(pool, id, followUp)), followUp.(requestId := s.lastId + 1);
      && s'.lastId == f.requestId && f.requestId !in s.issued && s'.issued == s.issued
      && s'.auto == s.auto + {f} && s'.manual == s.manual
      && s'.pools.Keys == s.pools.Keys
      && (forall n :: n in s.pools && n != pool ==> s'.pools[n] == s.pools[n])
      && (pool in s.pools ==>
            var q, q' := s.pools[pool].queue, s'.pools[pool].queue;
            && (forall x :: x in q'.elements ==> x.requestId != id)
            && q'.closed == q.closed && s'.pools[pool].started == s.pools[pool].started
            && forall x :: multiset(q'.elements)[x] ==
                 (if x.requestId == id then 0 else multiset(q.elements)[x])
                 + (if x == f && s.pools[pool].started && !q.closed then 1 else 0))
  {
    ReachableInv(s);
    var s', f := After(s, Cancel(pool, id, followUp)), followUp.(requestId := s.lastId + 1);
    CancelOnPools(s.pools, pool, id, f);
    if pool in s.pools {
      assert Replaced(s.pools[pool], s'.pools[pool], id, f);
      forall x | x in s'.pools[pool].queue.elements ensures x.requestId != id {
        assert multiset(s'.pools[pool].queue.elements)[x] > 0;
      }
    }
  }

  /** The follow-up of a cancel is enqueued after the removal, under an id nobody was ever
      given and no task ever had; so no cancellation by a user can reach it. */
  lemma FollowUpIsSafe(s: State, pool: Name, id: nat, followUp: Task)
    requires Reachable(s) && id in s.issued && ReplyTo(s.pools, pool) == Dispatched
    requires forall t :: t in s.pools[pool].queue.elements ==> t.seqId != followUp.seqId
    ensures var s' := After(s, Cancel(pool, id, followUp));
      var t := followUp.(requestId := s.lastId + 1);
      && s'.lastId == s.lastId + 1
      && t in s'.auto && t in s'.pools[pool].queue.elements
      && s'.lastId !in s'.issued
      && (forall x :: x in s.auto + s.manual ==> x.requestId != s'.lastId)
      && (forall x :: x in s.pools[pool].queue.elements && x.requestId != id ==>
            x in s'.pools[pool].queue.elements)
  {
    ReachableInv(s);
    var q := s.pools[pool].queue.elements;
    WithoutExact(q, id);
    InsertSound(Without(q, id), followUp.(requestId := s.lastId + 1));
  }

  // ----- the class -----

  datatype PoolConfiguration = PoolConfiguration(name: Name, threads: nat)

  /** Entry i is the first to name the pool. */
  predicate FirstNamed(configuration: seq<PoolConfiguration>, i: int, name: Name) {
    && 0 <= i < |configuration| && configuration[i].name == name
    && forall k :: 0 <= k < i ==> configuration[k].name != name
  }

  function Emplaced(counts: map<Name, nat>, c: PoolConfiguration): map<Name, nat> {
    if c.name in counts then counts else counts[c.name := c.threads]
  }

  /** The configured pools and their thread counts. */
  function Configured(configuration: seq<PoolConfiguration>): map<Name, nat> {
    if configuration == [] then map[]
    else Emplaced(Configured(configuration[..|configuration| - 1]), configuration[|configuration| - 1])
  }

  /** A configuration may name a pool twice; the first entry counts. */
  lemma {:induction false} FirstEntryCounts(configuration: seq<PoolConfiguration>)
    ensures forall n :: n in Configured(configuration) <==>
      exists i :: 0 <= i < |configuration| && configuration[i].name == n
    ensures forall n, i :: FirstNamed(configuration, i, n) ==>
      n in Configured(configuration) && Configured(configuration)[n] == configuration[i].threads
  {
    if configuration == [] {
    } else {
      var all, last := configuration[..|configuration| - 1], |configuration| - 1;
      FirstEntryCounts(all);
      assert forall k :: 0 <= k < last ==> all[k] == configuration[k];
      forall n, i | FirstNamed(configuration, i, n)
        ensures n in Configured(configuration) && Configured(configuration)[n] == configuration[i].threads
      {
        if i < last { assert FirstNamed(all, i, n); }
      }
    }
  }

  class TaskDispatcher {
    var pools: map<Name, ThreadPools.ThreadPool>
    const requestIds: IdSource
    ghost var queues: set<TaskQueue>     // the queues of all pools

    /** No two names share a pool or a queue. */
    ghost predicate Valid()
      reads this, pools.Values, queues
    {
      && (forall n :: n in pools ==> pools[n] in pools.Values && pools[n].queue in queues && pools[n].Valid())
      && (forall m, n :: m in pools && n in pools && m != n ==> pools[m].queue != pools[n].queue)
    }

    ghost function View(): map<Name, PoolState>
      requires Valid()
      reads this, pools.Values, queues
    {
      map n | n in pools :: PoolState(pools[n].started, pools[n].queue.State())
    }

    /** As long as nobody has used any of the pools. */
    ghost predicate Untouched()
      requires Valid()
      reads this, pools.Values, queues
    {
      forall n :: n in pools ==> !pools[n].started && pools[n].queue.State() == QueueState([], false)
    }

    function Counts(): map<Name, nat>
      reads this
    {
      map n | n in pools :: pools[n].threadsCount
    }

    method Attach(name: Name, pool: ThreadPools.ThreadPool)
      requires Valid() && Untouched() && name !in pools
      requires pool.Valid() && !pool.started && pool.queue.State() == QueueState([], false)
      requires forall n :: n in pools ==> pools[n].queue != pool.queue
      modifies this`pools, this`queues
      ensures pools == old(pools)[name := pool] && queues == old(queues) + {pool.queue}
      ensures Valid() && Untouched()
    {
      pools, queues := pools[name := pool], queues + {pool.queue};
    }

    /** map::emplace: a new pool, unless the name is taken. */
    method Emplace(c: PoolConfiguration)
      requires Valid() && Untouched()
      modifies this`pools, this`queues
      ensures fresh(queues - old(queues))
      ensures Valid() && Untouched() && Counts() == Emplaced(old(Counts()), c)
      ensures forall n :: n in pools ==>
        (n in old(pools) && pools[n] == old(pools)[n]) || (fresh(pools[n]) && fresh(pools[n].queue))
    {
      if c.name !in pools {
        var pool := new ThreadPools.ThreadPool(c.threads);
        Attach(c.name, pool);
      }
    }

    constructor (configuration: seq<PoolConfiguration>, ids: IdSource)
      ensures Valid() && requestIds == ids && fresh(pools.Values) && fresh(queues)
      ensures Counts() == Configured(configuration)
      ensures View() == Initial(Configured(configuration).Keys).pools
    {
      requestIds := ids;
      pools, queues := map[], {};
      new;
      var i := 0;
      while i < |configuration|
        invariant 0 <= i <= |configuration|
        invariant Valid() && Untouched() && Counts() == Configured(configuration[..i])
        invariant fresh(queues) && forall n :: n in pools ==> fresh(pools[n])
      {
        assert configuration[..i + 1][..i] == configuration[..i];
        Emplace(configuration[i]);
        i := i + 1;
      }
      assert configuration[..i] == configuration;
      assert pools.Keys == Counts().Keys;
    }

    method NextId() returns (id: nat)
      requires Valid()
      modifies requestIds
      ensures Valid() && View() == old(View())
      ensures id == requestIds.last == old(requestIds.last) + 1
    {
      id := requestIds.Next();
    }

    /** find_thread_pool, then the pool's add_task. */
    method AddTask(pool: Name, t: Task) returns (r: Reply)
      requires Valid()
      modifies queues
      ensures Valid()
      ensures r == ReplyTo(old(View()), pool) && View() == Added(old(View()), pool, t)
    {
      if pool !in pools {
        return UnknownPool;
      }
      ghost var before := View();
      var added := pools[pool].AddTask(t);
      assert Valid() && View().Keys == before.Keys;
      r := match added
        case Added => Dispatched
        case PoolStopped => PoolStopped
        case AddRejected => PoolClosed;
    }

    method DispatchAutomatic(pool: Name, task: Task) returns (r: Reply)
      requires Valid()
      modifies queues, requestIds
      ensures Valid()
      ensures r == ReplyTo(old(View()), pool)
      ensures var s := State(old(View()), old(requestIds.last), {}, {}, {});
        View() == After(s, DispatchAuto(pool, task)).pools
        && requestIds.last == After(s, DispatchAuto(pool, task)).lastId
    {
      var id := NextId();
      r := AddTask(pool, task.(requestId := id));
    }

    method DispatchWithId(pool: Name, id: nat, task: Task) returns (r: Reply)
      requires Valid()
      modifies queues
      ensures Valid()
      ensures r == ReplyTo(old(View()), pool)
      ensures var s := State(old(View()), requestIds.last, {}, {}, {});
        View() == After(s, DispatchAs(pool, id, task)).pools
    {
      r := AddTask(pool, task.(requestId := id));
    }

    /** An unknown pool is ignored. */
    method CancelPendingTasks(pool: Name, id: nat)
      requires Valid()
      modifies queues
      ensures Valid()
      ensures View() == OnQueue(old(View()), pool, OpRemove(id))
    {
      if pool in pools {
        var _ := pools[pool].CancelPending(id);
      }
    }

    /** cancel_impl: remove, then dispatch the follow-up under a fresh id. */
    method CancelAndDispatch(pool: Name, id: nat, followUp: Task) returns (r: Reply)
      requires Valid()
      modifies queues, requestIds
      ensures Valid()
      ensures r == ReplyTo(old(View()), pool)
      ensures var s := State(old(View()), old(requestIds.last), {}, {}, {});
        View() == After(s, Cancel(pool, id, followUp)).pools
        && requestIds.last == After(s, Cancel(pool, id, followUp)).lastId
    {
      CancelPendingTasks(pool, id);
      r := DispatchAutomatic(pool, followUp);
    }
  }
}
