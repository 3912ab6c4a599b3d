/** Where dispatched bodies run: dispatch, dispatch_or_execute and assert_execution_context,
    nested in any way and interleaved over any number of pools. Task bodies are programs of
    these three calls; the pools' threads all exist (start has finished). */
module ExecutionContext {
  import Dispatcher

  datatype Stmt =
    | Dispatch(pool: Dispatcher.Name, body: seq<Stmt>)
    | DispatchOrExecute(pool: Dispatcher.Name, body: seq<Stmt>)
    | AssertContext(pool: Dispatcher.Name)

  /** A task: the pool in whose queue it lies, and the pool its sender named. */
  datatype Work = Work(pool: Dispatcher.Name, sentTo: Dispatcher.Name, body: seq<Stmt>)

  /** Who a body was sent to; the code outside all pools was sent to nobody. */
  datatype Target = Outside | To(pool: Dispatcher.Name)

  datatype Frame = Frame(target: Target, rest: seq<Stmt>)

  datatype State = State(
    pools: map<Dispatcher.Name, seq<nat>>,  // the thread ids of each pool
    stacks: seq<seq<Frame>>,                // by thread id, innermost frame last
    queued: seq<Work>)

  datatype Step =
    | Begin(thread: nat, work: nat)   // a worker extracts a task from its pool's queue
    | Execute(thread: nat)
    | Return(thread: nat)
    | Throw(thread: nat)              // an exception unwinds the body up to the worker loop

  /** on_one_of_threads_impl */
  method OnOneOfThreads(threads: seq<nat>, self: nat) returns (found: bool)
    ensures found <==> self in threads
  {
    var i := 0;
    while i < |threads|
      invariant 0 <= i <= |threads| && self !in threads[..i]
    {
      if self == threads[i] {
        return true;
      }
      i := i + 1;
    }
    found := false;
  }

  predicate OnPool(s: State, thread: nat, pool: Dispatcher.Name) {
    pool in s.pools && thread in s.pools[pool]
  }

  predicate Busy(s: State, i: nat) {
    i < |s.stacks| && s.stacks[i] != []
  }

  function Top(s: State, i: nat): Frame
    requires Busy(s, i)
  {
    s.stacks[i][|s.stacks[i]| - 1]
  }

  predicate HasNext(s: State, i: nat) {
    Busy(s, i) && Top(s, i).rest != []
  }

  function Next(s: State, i: nat): Stmt
    requires HasNext(s, i)
  {
    Top(s, i).rest[0]
  }

  predicate Can(s: State, x: Step) {
    match x
    case Begin(i, k) =>
      i < |s.stacks| && s.stacks[i] == [] && k < |s.queued| && OnPool(s, i, s.queued[k].pool)
    case Execute(i) => HasNext(s, i)
    case Return(i) => Busy(s, i) && Top(s, i).rest == []
    case Throw(i) => Busy(s, i)
  }

  /** The statement is done; the rest of its frame remains. */
  function Advance(stack: seq<Frame>): seq<Frame>
    requires stack != [] && stack[|stack| - 1].rest != []
  {
    var top := stack[|stack| - 1];
    stack[|stack| - 1 := Frame(top.target, top.rest[1..])]
  }

  /** What the next statement of this thread does. An unknown pool or a failed assertion throws. */
  datatype Effect = RunsInline | Enqueues | Passes | Throws

  function EffectOf(s: State, i: nat): Effect
    requires HasNext(s, i)
  {
    var stmt := Next(s, i);
    if stmt.pool !in s.pools then Throws
    else match stmt
      case Dispatch(_, _) => Enqueues
      case DispatchOrExecute(p, _) => if OnPool(s, i, p) then RunsInline else Enqueues
      case AssertContext(p) => if OnPool(s, i, p) then Passes else Throws
  }

  function Do(s: State, x: Step): State
    requires Can(s, x)
  {
    match x
    case Begin(i, k) =>
      s.(stacks := s.stacks[i := [Frame(To(s.queued[k].sentTo), s.queued[k].body)]],
         queued := s.queued[..k] + s.queued[k + 1..])
    case Return(i) => s.(stacks := s.stacks[i := s.stacks[i][..|s.stacks[i]| - 1]])
    case Throw(i) => s.(stacks := s.stacks[i := []])
    case Execute(i) =>
      match EffectOf(s, i)
      case Throws => s.(stacks := s.stacks[i := []])
      case Passes => s.(stacks := s.stacks[i := Advance(s.stacks[i])])
      case Enqueues =>
        s.(stacks := s.stacks[i := Advance(s.stacks[i])],
           queued := s.queued + [Work(Next(s, i).pool, Next(s, i).pool, Next(s, i).body)])
      case RunsInline =>
        s.(stacks := s.stacks[i := Advance(s.stacks[i]) + [Frame(To(Next(s, i).pool), Next(s, i).body)]])
  }

  predicate Legal(s: State, run: seq<Step>)
    decreases |run|
  {
    run == [] || (Can(s, run[0]) && Legal(Do(s, run[0]), run[1..]))
  }

  function After(s: State, run: seq<Step>): State
    requires Legal(s, run)
    decreases |run|
  {
    if run == [] then s else After(Do(s, run[0]), run[1..])
  }

  /** A thread belongs to one pool at most; threads of pools start in their worker loop, the
      others in code of their own. */
  ghost predicate Initial(s: State) {
    && s.queued == []
    && (forall p, q, i :: OnPool(s, i, p) && OnPool(s, i, q) ==> p == q)
    && (forall p, i: nat :: OnPool(s, i, p) && i < |s.stacks| ==> s.stacks[i] == [])
    && (forall i :: 0 <= i < |s.stacks| ==> |s.stacks[i]| <= 1)
    && (forall i :: 0 <= i < |s.stacks| && s.stacks[i] != [] ==> s.stacks[i][0].target == Outside)
  }

  /** Every body runs where it was sent. */
  ghost predicate InPlace(s: State) {
    && (forall p, q, i :: OnPool(s, i, p) && OnPool(s, i, q) ==> p == q)
    && (forall i: nat, d :: i < |s.stacks| && 0 <= d < |s.stacks[i]| ==> FrameInPlace(s, i, s.stacks[i][d]))
    && (forall k :: 0 <= k < |s.queued| ==> s.queued[k].pool == s.queued[k].sentTo)
  }

  ghost predicate FrameInPlace(s: State, i: nat, f: Frame) {
    match f.target
    case To(p) => OnPool(s, i, p)
    case Outside => forall p :: !OnPool(s, i, p)
  }

  lemma InitialInPlace(s: State)
    requires Initial(s)
    ensures InPlace(s)
  {
    forall i: nat, d | i < |s.stacks| && 0 <= d < |s.stacks[i]| ensures FrameInPlace(s, i, s.stacks[i][d]) {
      assert s.stacks[i] != [];
    }
  }

  lemma StepInPlace(s: State, x: Step)
    requires InPlace(s) && Can(s, x)
    ensures InPlace(Do(s, x))
  {
    var s' := Do(s, x);
    assert s'.pools == s.pools;
    forall i: nat, p ensures OnPool(s', i, p) == OnPool(s, i, p) {
    }
    forall i: nat, d | i < |s'.stacks| && 0 <= d < |s'.stacks[i]|
      ensures FrameInPlace(s', i, s'.stacks[i][d])
    {
      if i != x.thread || d < |s.stacks[i]| {
        assert FrameInPlace(s, i, s.stacks[i][d]);
      }
    }
  }

  lemma {:induction false} RunInPlace(s: State, run: seq<Step>)
    requires InPlace(s) && Legal(s, run)
    ensures InPlace(After(s, run))
    decreases |run|
  {
    if run == [] {
    } else {
      StepInPlace(s, run[0]);
      RunInPlace(Do(s, run[0]), run[1..]);
    }
  }

  /** In every reachable state: a body sent to a pool runs on a thread of that pool; inside it
      assert_execution_context passes for that pool and throws for any other, and
      dispatch_or_execute runs inline for that pool and enqueues for any other; outside all pools
      nothing ever runs inline. dispatch always enqueues, and an unknown pool always throws. */
  lemma BodiesRunInContext(start: State, run: seq<Step>, i: nat)
    requires Initial(start) && Legal(start, run) && HasNext(After(start, run), i)
    ensures var s, target := After(start, run), Top(After(start, run), i).target;
      var stmt := Next(s, i);
      && (target.To? ==> OnPool(s, i, target.pool))
      && (EffectOf(s, i) == Passes <==>
            stmt.AssertContext? && stmt.pool in s.pools && target == To(stmt.pool))
      && (EffectOf(s, i) == RunsInline <==>
            stmt.DispatchOrExecute? && stmt.pool in s.pools && target == To(stmt.pool))
      && (EffectOf(s, i) == Throws <==>
            stmt.pool !in s.pools || (stmt.AssertContext? && target != To(stmt.pool)))
  {
    var s := After(start, run);
    InitialInPlace(start);
    RunInPlace(start, run);
    assert FrameInPlace(s, i, s.stacks[i][|s.stacks[i]| - 1]);
  }

  /** Nobody is stuck: a thread with a body can always go on, and one without can begin whatever
      was sent to its pool. */
  lemma NobodyIsStuck(start: State, run: seq<Step>, i: nat, k: nat)
    requires Initial(start) && Legal(start, run) && i < |After(start, run).stacks|
    ensures var s := After(start, run);
      && (Busy(s, i) ==> Can(s, Execute(i)) || Can(s, Return(i)))
      && (k < |s.queued| && OnPool(s, i, s.queued[k].sentTo) && !Busy(s, i) ==> Can(s, Begin(i, k)))
  {
    InitialInPlace(start);
    RunInPlace(start, run);
  }

  // ----- what was sent is run -----

  /** A body and the pool it was sent to. */
  datatype Errand = Errand(pool: Dispatcher.Name, body: seq<Stmt>)

  function Waiting(queued: seq<Work>): multiset<Errand> {
    if queued == [] then multiset{}
    else multiset{Errand(queued[0].sentTo, queued[0].body)} + Waiting(queued[1..])
  }

  /** What the step sends off: the body of a dispatch or dispatch_or_execute that does not throw. */
  function SentBy(s: State, x: Step): multiset<Errand>
    requires Can(s, x)
  {
    if x.Execute? && !Next(s, x.thread).AssertContext? && Next(s, x.thread).pool in s.pools then
      multiset{Errand(Next(s, x.thread).pool, Next(s, x.thread).body)}
    else
      multiset{}
  }

  /** What begins in a step, seen from outside: thread i has one frame more than before. */
  function BegunOn(s: State, s': State, i: nat): multiset<Errand> {
    if Busy(s', i) && i < |s.stacks| && |s.stacks[i]| < |s'.stacks[i]| && Top(s', i).target.To? then
      multiset{Errand(Top(s', i).target.pool, Top(s', i).rest)}
    else
      multiset{}
  }

  function Sent(s: State, run: seq<Step>): multiset<Errand>
    requires Legal(s, run)
    decreases |run|
  {
    if run == [] then multiset{} else SentBy(s, run[0]) + Sent(Do(s, run[0]), run[1..])
  }

  function Begun(s: State, run: seq<Step>): multiset<Errand>
    requires Legal(s, run)
    decreases |run|
  {
    if run == [] then multiset{}
    else BegunOn(s, Do(s, run[0]), run[0].thread) + Begun(Do(s, run[0]), run[1..])
  }

  lemma {:induction false} WaitingAppend(queued: seq<Work>, w: Work)
    ensures Waiting(queued + [w]) == Waiting(queued) + multiset{Errand(w.sentTo, w.body)}
  {
    if queued == [] {
      assert [w][1..] == [];
    } else {
      assert (queued + [w])[1..] == queued[1..] + [w];
      WaitingAppend(queued[1..], w);
    }
  }

  lemma {:induction false} WaitingRemove(queued: seq<Work>, k: nat)
    requires k < |queued|
    ensures Waiting(queued)
         == Waiting(queued[..k] + queued[k + 1..]) + multiset{Errand(queued[k].sentTo, queued[k].body)}
  {
    var rest := queued[..k] + queued[k + 1..];
    if k == 0 {
      assert rest == queued[1..];
    } else {
      assert rest[0] == queued[0];
      assert rest[1..] == queued[1..][..k - 1] + queued[1..][k..];
      WaitingRemove(queued[1..], k - 1);
    }
  }

  /** No step touches another thread's stack, and a worker begins a task with that task's body
      alone. */
  lemma OneStackMoves(s: State, x: Step)
    requires Can(s, x)
    ensures var s' := Do(s, x);
      && s'.pools == s.pools && |s'.stacks| == |s.stacks|
      && (forall j :: 0 <= j < |s.stacks| && j != x.thread ==> s'.stacks[j] == s.stacks[j])
      && (x.Begin? ==>
            s'.stacks[x.thread] == [Frame(To(s.queued[x.work].sentTo), s.queued[x.work].body)])
  {
  }

  /** A thread that sends a body goes on behind the statement, and the body either lies on top of
      its stack, for the same pool, or is one more in the queue. */
  lemma SendingStep(s: State, i: nat)
    requires Can(s, Execute(i)) && SentBy(s, Execute(i)) != multiset{}
    ensures var s', top, stmt := Do(s, Execute(i)), Top(s, i), Next(s, i);
      var caller := s.stacks[i][..|s.stacks[i]| - 1] + [Frame(top.target, top.rest[1..])];
      if stmt.DispatchOrExecute? && OnPool(s, i, stmt.pool) then
        && s'.stacks[i] == caller + [Frame(To(stmt.pool), stmt.body)]
        && s'.queued == s.queued
      else
        && s'.stacks[i] == caller
        && Waiting(s'.queued) == Waiting(s.queued) + multiset{Errand(stmt.pool, stmt.body)}
  {
    WaitingAppend(s.queued, Work(Next(s, i).pool, Next(s, i).pool, Next(s, i).body));
  }

  /** A step that sends nothing: an assertion that passes is done, one that fails and any other
      exception unwind the whole stack, a body that has returned goes away alone. */
  lemma OtherStep(s: State, x: Step)
    requires Can(s, x) && !x.Begin? && SentBy(s, x) == multiset{}
    ensures var s', stack := Do(s, x), s.stacks[x.thread];
      && s'.queued == s.queued
      && (x.Return? ==> s'.stacks[x.thread] == stack[..|stack| - 1])
      && (x.Throw? ==> s'.stacks[x.thread] == [])
      && (x.Execute? ==>
            var top, stmt := Top(s, x.thread), Next(s, x.thread);
            s'.stacks[x.thread] ==
              if stmt.pool in s.pools && OnPool(s, x.thread, stmt.pool)
              then stack[..|stack| - 1] + [Frame(top.target, top.rest[1..])] else [])
  {
  }

  ghost predicate Conserves(s: State, x: Step)
    requires Can(s, x)
  {
    Waiting(s.queued) + SentBy(s, x) == Waiting(Do(s, x).queued) + BegunOn(s, Do(s, x), x.thread)
  }

  lemma BeginConserves(s: State, i: nat, k: nat)
    requires Can(s, Begin(i, k))
    ensures Conserves(s, Begin(i, k))
  {
    WaitingRemove(s.queued, k);
    OneStackMoves(s, Begin(i, k));
  }

  lemma SendingConserves(s: State, i: nat)
    requires Can(s, Execute(i)) && SentBy(s, Execute(i)) != multiset{}
    ensures Conserves(s, Execute(i))
  {
    SendingStep(s, i);
  }

  lemma OtherConserves(s: State, x: Step)
    requires Can(s, x) && !x.Begin? && SentBy(s, x) == multiset{}
    ensures Conserves(s, x)
  {
    OtherStep(s, x);
  }

  lemma StepConserves(s: State, x: Step)
    requires Can(s, x)
    ensures Conserves(s, x)
  {
    if x.Begin? { BeginConserves(s, x.thread, x.work); }
    else if SentBy(s, x) == multiset{} { OtherConserves(s, x); }
    else { SendingConserves(s, x.thread); }
  }

  lemma Regroup(w: multiset<Errand>, sent: multiset<Errand>, w': multiset<Errand>, begun: multiset<Errand>,
                sentLater: multiset<Errand>, w'': multiset<Errand>, begunLater: multiset<Errand>)
    requires w + sent == w' + begun && w' + sentLater == w'' + begunLater
    ensures w + (sent + sentLater) == w'' + (begun + begunLater)
  {
    assert w + (sent + sentLater) == (w + sent) + sentLater;
    assert (w' + begun) + sentLater == (w' + sentLater) + begun;
  }

  lemma {:induction false} RunConserves(s: State, run: seq<Step>)
    requires Legal(s, run)
    ensures Waiting(s.queued) + Sent(s, run) == Waiting(After(s, run).queued) + Begun(s, run)
    decreases |run|
  {
    if run == [] {
    } else {
      var s' := Do(s, run[0]);
      StepConserves(s, run[0]);
      RunConserves(s', run[1..]);
      Regroup(Waiting(s.queued), SentBy(s, run[0]), Waiting(s'.queued), BegunOn(s, s', run[0].thread),
              Sent(s', run[1..]), Waiting(After(s, run).queued), Begun(s', run[1..]));
    }
  }

  /** Over every run each body that was sent has begun exactly once or is still queued, and
      nothing else has begun. */
  lemma EveryBodyRunsOnce(start: State, run: seq<Step>)
    requires start.queued == [] && Legal(start, run)
    ensures Sent(start, run) == Begun(start, run) + Waiting(After(start, run).queued)
  {
    RunConserves(start, run);
    assert multiset{} + Sent(start, run) == Sent(start, run);
  }
}
