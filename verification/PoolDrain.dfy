/** How many steps the workers can take: between two pushes boundedly many, so an overdue task
    is reached; and once stop has closed the queue and notified everybody, boundedly many until
    all of them have left. */
module PoolDrain {
  import opened TaskTime
  import opened TaskQueues
  import opened TaskBases
  import opened Pool
  import opened PoolInvariant
  import opened PoolTheorems
  import opened PoolLimits

  // ----- the measure -----

  predicate HeadReadyAt(q: seq<Task>, time: int) {
    q == [] || q[0].Ready(time)
  }

  /** How many steps a worker may take before it extracts a task, leaves or waits to be woken.
      A worker that looks too early goes back to a timed wait; one whose wait was for a head
      that is gone by now may have to look twice. */
  function Rank(q: seq<Task>, now: int, w: Worker): nat {
    match w
    case Exited => 0
    case Idle => 0
    case Awake => if HeadReadyAt(q, now) then 1 else 3
    case Timed(d) => if HeadReadyAt(q, d) then 2 else 4
    case Running(_) => 4
  }

  function RankSum(q: seq<Task>, now: int, ws: seq<Worker>): nat {
    if ws == [] then 0 else Rank(q, now, ws[0]) + RankSum(q, now, ws[1..])
  }

  function Measure(s: State): nat {
    |s.queue.elements| * (4 * |s.workers| + 1) + RankSum(s.queue.elements, s.now, s.workers)
  }

  lemma {:induction false} RankSumUpdate(q: seq<Task>, now: int, ws: seq<Worker>, w: nat, x: Worker)
    requires w < |ws|
    ensures RankSum(q, now, ws[w := x]) == RankSum(q, now, ws) - Rank(q, now, ws[w]) + Rank(q, now, x)
  {
    if w == 0 {
      assert ws[w := x][1..] == ws[1..];
    } else {
      RankSumUpdate(q, now, ws[1..], w - 1, x);
      assert ws[w := x][1..] == ws[1..][w - 1 := x];
    }
  }

  lemma {:induction false} RankSumBound(q: seq<Task>, now: int, ws: seq<Worker>)
    ensures RankSum(q, now, ws) <= 4 * |ws|
  {
    if ws == [] {
    } else {
      RankSumBound(q, now, ws[1..]);
    }
  }

  /** Time only brings workers closer. */
  lemma {:induction false} RankSumLater(q: seq<Task>, now: int, later: int, ws: seq<Worker>)
    requires now <= later
    ensures RankSum(q, later, ws) <= RankSum(q, now, ws)
  {
    if ws == [] {
    } else {
      RankSumLater(q, now, later, ws[1..]);
      if q != [] {
        ReadyIff(q[0], now);
        ReadyIff(q[0], later);
      }
    }
  }

  function StepBound(pending: nat, workers: nat): nat {
    pending * (4 * workers + 1) + 4 * workers
  }

  lemma MeasureBound(s: State)
    ensures Measure(s) <= StepBound(|s.queue.elements|, |s.workers|)
  {
    RankSumBound(s.queue.elements, s.now, s.workers);
  }

  lemma FewerTimes(k': nat, k: nat, n: nat)
    requires k' < k
    ensures k' * n + n <= k * n
  {
    assert k * n == (k' + 1) * n + (k - k' - 1) * n;
    assert 0 <= (k - k' - 1) * n;
  }

  /** A task gone from the queue pays for every rank anew. */
  lemma QueueShrank(s: State, s': State)
    requires |s'.queue.elements| < |s.queue.elements| && |s'.workers| == |s.workers|
    ensures Measure(s') < Measure(s)
  {
    RankSumBound(s'.queue.elements, s'.now, s'.workers);
    FewerTimes(|s'.queue.elements|, |s.queue.elements|, 4 * |s.workers| + 1);
  }

  lemma {:induction false} WithoutNothing(q: seq<Task>, requestId: nat)
    requires |Without(q, requestId)| == |q|
    ensures Without(q, requestId) == q
  {
    if q == [] {
    } else {
      WithoutNothing(q[1..], requestId);
    }
  }

  /** What one more task in the queue may cost. */
  function PushCost(workers: nat): nat {
    8 * workers + 1
  }

  lemma QueueGrewByOne(s: State, s': State)
    requires |s'.queue.elements| <= |s.queue.elements| + 1 && |s'.workers| == |s.workers|
    ensures Measure(s') <= Measure(s) + PushCost(|s.workers|)
  {
    RankSumBound(s'.queue.elements, s'.now, s'.workers);
    FewerTimes(|s'.queue.elements|, |s.queue.elements| + 2, 4 * |s.workers| + 1);
  }

  // ----- runs without calls of start and stop -----

  predicate WorkerStep(a: Action) {
    a.TakeLock? || a.TimeOut? || a.Finish?
  }

  predicate NewCall(a: Action) {
    a.CallStart? || a.CallStop? || a.CallDestructor?
  }

  predicate NoNewCall(run: seq<Action>) {
    forall a :: a in run ==> !NewCall(a)
  }

  function OneIf(b: bool): nat {
    if b then 1 else 0
  }

  function WorkerSteps(run: seq<Action>): nat {
    if run == [] then 0 else OneIf(WorkerStep(run[0])) + WorkerSteps(run[1..])
  }

  function SpuriousWakes(run: seq<Action>): nat {
    if run == [] then 0 else OneIf(run[0].WakeSpuriously?) + SpuriousWakes(run[1..])
  }

  /** How many tasks the queue accepts during the run. */
  function Accepted(s: State, run: seq<Action>): nat
    requires Legal(s, run)
    decreases |run|
  {
    if run == [] then 0
    else OneIf(run[0].Push? && !s.queue.closed) + Accepted(Apply(s, run[0]), run[1..])
  }

  /** Neither start nor the first half of stop is in progress. */
  ghost predicate Calm(s: State) {
    Inv(s) && (s.control.Joining? || s.control.Between?)
  }

  lemma SleepPays(s: State, w: nat)
    requires Calm(s) && Enabled(s, TakeLock(w)) && Decide(s.queue, s.now).WaitFor?
    ensures Measure(Apply(s, TakeLock(w))) < Measure(s)
  {
    var q := s.queue.elements;
    HeadOfLine(q[0], q[0], s.now);
    RankSumUpdate(q, s.now, s.workers, w, Apply(s, TakeLock(w)).workers[w]);
  }

  lemma TakeLockPays(s: State, w: nat)
    requires Calm(s) && Enabled(s, TakeLock(w))
    ensures Measure(Apply(s, TakeLock(w))) < Measure(s)
  {
    match Decide(s.queue, s.now)
    case Extract(_) => QueueShrank(s, Apply(s, TakeLock(w)));
    case WaitFor(_) => SleepPays(s, w);
    case WaitForChange => RankSumUpdate(s.queue.elements, s.now, s.workers, w, Idle);
    case Leave => RankSumUpdate(s.queue.elements, s.now, s.workers, w, Exited);
  }

  /** What a step may add: a spurious wake-up, above all of a worker nobody expected back, and
      a task that is accepted. */
  function AddedBy(workers: nat, s: State, a: Action): nat
    requires Enabled(s, a)
  {
    if a.WakeSpuriously? then (if s.workers[a.worker].Idle? then 3 else 1)
    else if a.Push? && !s.queue.closed then PushCost(workers)
    else 0
  }

  lemma WakePays(s: State, a: Action)
    requires Calm(s) && Enabled(s, a) && (a.TimeOut? || a.WakeSpuriously? || a.Finish?)
    ensures Measure(Apply(s, a)) + OneIf(WorkerStep(a)) <= Measure(s) + AddedBy(|s.workers|, s, a)
  {
    var q := s.queue.elements;
    RankSumUpdate(q, s.now, s.workers, a.worker, Awake);
    if a.TimeOut? && q != [] {
      ReadyIff(q[0], s.workers[a.worker].deadline);
      ReadyIff(q[0], s.now);
    }
  }

  lemma PushPays(s: State, a: Action)
    requires Calm(s) && Enabled(s, a) && a.Push?
    ensures Measure(Apply(s, a)) <= Measure(s) + AddedBy(|s.workers|, s, a)
  {
    if !s.queue.closed {
      InsertAddsAtMostOne(s.queue.elements, a.task);
      QueueGrewByOne(s, Apply(s, a));
    }
  }

  lemma OthersPayNothing(s: State, a: Action)
    requires Calm(s) && Enabled(s, a)
    requires !WorkerStep(a) && !a.WakeSpuriously? && !a.Push? && !NewCall(a)
    ensures Measure(Apply(s, a)) <= Measure(s)
  {
    var s' := Apply(s, a);
    match a
    case Tick(to) => RankSumLater(s.queue.elements, s.now, to, s.workers);
    case Cancel(id) =>
      if |s'.queue.elements| < |s.queue.elements| {
        QueueShrank(s, s');
      } else {
        WithoutNothing(s.queue.elements, id);
      }
    case _ =>
  }

  lemma StepPays(s: State, a: Action)
    requires Calm(s) && Enabled(s, a) && !NewCall(a)
    ensures Measure(Apply(s, a)) + OneIf(WorkerStep(a)) <= Measure(s) + AddedBy(|s.workers|, s, a)
  {
    if a.TakeLock? { TakeLockPays(s, a.worker); }
    else if a.TimeOut? || a.WakeSpuriously? || a.Finish? { WakePays(s, a); }
    else if a.Push? { PushPays(s, a); }
    else { OthersPayNothing(s, a); }
  }

  lemma CalmLasts(s: State, a: Action)
    requires (s.control.Joining? || s.control.Between?) && Enabled(s, a) && !NewCall(a)
    ensures Apply(s, a).control.Joining? || Apply(s, a).control.Between?
    ensures |Apply(s, a).workers| == |s.workers|
    ensures WorkerStep(a) ==> Apply(s, a).control == s.control && Apply(s, a).now == s.now
    ensures s.notified ==> Apply(s, a).notified
  {
  }

  lemma CalmStep(s: State, a: Action)
    requires Calm(s) && Enabled(s, a) && !NewCall(a)
    ensures Calm(Apply(s, a)) && |Apply(s, a).workers| == |s.workers|
    ensures Measure(Apply(s, a)) + OneIf(WorkerStep(a)) <= Measure(s) + AddedBy(|s.workers|, s, a)
  {
    StepKeeps(s, a);
    StepPays(s, a);
    CalmLasts(s, a);
  }

  /** What the steps of a run may add to the measure of a pool with this many threads. */
  function Added(workers: nat, s: State, run: seq<Action>): nat
    requires Legal(s, run)
    decreases |run|
  {
    if run == [] then 0
    else AddedBy(workers, s, run[0]) + Added(workers, Apply(s, run[0]), run[1..])
  }

  lemma {:induction false} CalmRun(s: State, run: seq<Action>)
    requires Calm(s) && Legal(s, run) && NoNewCall(run)
    ensures Calm(After(s, run)) && |After(s, run).workers| == |s.workers|
    ensures Measure(After(s, run)) + WorkerSteps(run) <= Measure(s) + Added(|s.workers|, s, run)
    decreases |run|
  {
    if run == [] {
    } else {
      assert run[0] in run;
      CalmStep(s, run[0]);
      CalmRun(Apply(s, run[0]), run[1..]);
    }
  }

  /** Three steps for each spurious wake-up and PushCost for each task accepted. */
  function Allowance(workers: nat, spurious: nat, accepted: nat): nat {
    if accepted == 0 then 3 * spurious
    else PushCost(workers) + Allowance(workers, spurious, accepted - 1)
  }

  lemma {:induction false} OneMoreWake(workers: nat, spurious: nat, accepted: nat)
    ensures Allowance(workers, spurious + 1, accepted) == 3 + Allowance(workers, spurious, accepted)
  {
    if accepted == 0 {
    } else {
      OneMoreWake(workers, spurious, accepted - 1);
    }
  }

  lemma {:induction false} AddedBound(workers: nat, s: State, run: seq<Action>)
    requires Legal(s, run)
    ensures Added(workers, s, run) <= Allowance(workers, SpuriousWakes(run), Accepted(s, run))
    decreases |run|
  {
    if run == [] {
    } else {
      AddedBound(workers, Apply(s, run[0]), run[1..]);
      OneMoreWake(workers, SpuriousWakes(run[1..]), Accepted(Apply(s, run[0]), run[1..]));
    }
  }

  /** Between two calls of start and stop the workers take at most this many steps for what was
      pending, plus so many for each task accepted meanwhile and three for each spurious
      wake-up: no worker ever spins. */
  lemma NobodySpins(size: nat, s: State, run: seq<Action>)
    requires Reachable(size, s) && s.control.Between?
    requires Legal(s, run) && NoNewCall(run)
    ensures WorkerSteps(run) <= StepBound(|s.queue.elements|, |s.workers|)
              + Allowance(|s.workers|, SpuriousWakes(run), Accepted(s, run))
  {
    ReachableInv(size, s);
    CalmRun(s, run);
    AddedBound(|s.workers|, s, run);
    MeasureBound(s);
  }

  // ----- an overdue task is reached -----

  /** The step of some worker that OverdueIsNeverStuck promises. */
  lemma WorkerCanStep(size: nat, s: State, t: Task) returns (a: Action)
    requires Reachable(size, s) && s.workers != []
    requires t in s.queue.elements && t.due + 1_000_000 <= s.now
    ensures WorkerStep(a) && Enabled(s, a)
  {
    OverdueIsNeverStuck(size, s, t);
    var w: nat :|
      && IsWorker(s, w)
      && (Enabled(s, TakeLock(w)) || Enabled(s, Finish(w, Returned)) || Enabled(s, TimeOut(w)));
    a := if Enabled(s, TakeLock(w)) then TakeLock(w)
         else if Enabled(s, TimeOut(w)) then TimeOut(w) else Finish(w, Returned);
  }

  /** A task that is a millisecond overdue after a run is still pending only if the workers have
      taken fewer steps than they can take; and then one of them can take another. */
  lemma OverdueIsReached(size: nat, s: State, run: seq<Action>, t: Task) returns (a: Action)
    requires Reachable(size, s) && s.control.Between? && s.workers != []
    requires Legal(s, run) && NoNewCall(run)
    requires t in After(s, run).queue.elements && t.due + 1_000_000 <= After(s, run).now
    ensures WorkerStep(a) && Enabled(After(s, run), a)
    ensures WorkerSteps(run) < StepBound(|s.queue.elements|, |s.workers|)
              + Allowance(|s.workers|, SpuriousWakes(run), Accepted(s, run))
  {
    ReachableInv(size, s);
    CalmRun(s, run);
    AddedBound(|s.workers|, s, run);
    MeasureBound(s);
    ReachableAfter(size, s, run);
    a := WorkerCanStep(size, After(s, run), t);
    CalmStep(After(s, run), a);
  }

  lemma ServingStep(size: nat, s: State, t: Task) returns (a: Action, s': State)
    requires Reachable(size, s) && (s.control.Between? || s.control.Joining?) && s.workers != []
    requires t in s.queue.elements && t.due + 1_000_000 <= s.now
    ensures WorkerStep(a) && Enabled(s, a) && s' == Apply(s, a)
    ensures Reachable(size, s') && s'.control == s.control && |s'.workers| == |s.workers| && s'.now == s.now
    ensures Measure(s') < Measure(s)
  {
    a := WorkerCanStep(size, s, t);
    ReachableInv(size, s);
    StepPays(s, a);
    CalmLasts(s, a);
    ReachableStep(size, s, a);
    s' := Apply(s, a);
  }

  /** From every such state worker steps alone lead to the extraction of the task. */
  lemma {:induction false} OverdueCanBeServed(size: nat, s: State, t: Task) returns (run: seq<Action>)
    requires Reachable(size, s) && (s.control.Between? || s.control.Joining?) && s.workers != []
    requires t in s.queue.elements && t.due + 1_000_000 <= s.now
    ensures Legal(s, run) && t !in After(s, run).queue.elements
    ensures forall a :: a in run ==> WorkerStep(a)
    decreases Measure(s)
  {
    var a, s' := ServingStep(size, s, t);
    var rest: seq<Action> := [];
    if t in s'.queue.elements {
      rest := OverdueCanBeServed(size, s', t);
    }
    run := [a] + rest;
    assert run[1..] == rest;
  }

  // ----- runs of the drain -----

  /** stop has notified everybody, and may have returned since. */
  ghost predicate Draining(s: State) {
    Calm(s) && s.notified
  }

  lemma DrainAdds(s: State, a: Action)
    requires Draining(s) && Enabled(s, a)
    ensures AddedBy(|s.workers|, s, a) == OneIf(a.WakeSpuriously?)
  {
  }

  lemma DrainStep(s: State, a: Action)
    requires Draining(s) && Enabled(s, a) && !NewCall(a)
    ensures Draining(Apply(s, a)) && |Apply(s, a).workers| == |s.workers|
    ensures Measure(Apply(s, a)) + OneIf(WorkerStep(a)) <= Measure(s) + OneIf(a.WakeSpuriously?)
  {
    StepKeeps(s, a);
    StepPays(s, a);
    CalmLasts(s, a);
    DrainAdds(s, a);
  }

  lemma {:induction false} DrainRun(s: State, run: seq<Action>)
    requires Draining(s) && Legal(s, run) && NoNewCall(run)
    ensures Draining(After(s, run))
    ensures Measure(After(s, run)) + WorkerSteps(run) <= Measure(s) + SpuriousWakes(run)
    decreases |run|
  {
    if run == [] {
    } else {
      assert run[0] in run;
      DrainStep(s, run[0]);
      DrainRun(Apply(s, run[0]), run[1..]);
    }
  }

  lemma JoiningIsDraining(size: nat, s: State)
    requires Reachable(size, s) && s.control.Joining?
    ensures Draining(s)
  {
    ReachableInv(size, s);
  }

  lemma JoiningRun(size: nat, s: State, run: seq<Action>)
    requires Reachable(size, s) && s.control.Joining?
    requires Legal(s, run) && NoNewCall(run)
    ensures WorkerSteps(run) <= Measure(s) + SpuriousWakes(run)
  {
    JoiningIsDraining(size, s);
    DrainRun(s, run);
  }

  /** However the threads interleave, and whatever running tasks and producers still try to
      submit or cancel, the workers take at most this many steps once everybody has been
      notified, plus one for each spurious wake-up. */
  lemma DrainIsBounded(size: nat, s: State, run: seq<Action>)
    requires Reachable(size, s) && s.control.Joining?
    requires Legal(s, run) && NoNewCall(run)
    ensures WorkerSteps(run) <= StepBound(|s.queue.elements|, |s.workers|) + SpuriousWakes(run)
  {
    JoiningRun(size, s, run);
    MeasureBound(s);
  }

  /** Nobody who has been notified ever sits in the untimed wait again. */
  lemma NoUntimedWaitInDrain(size: nat, s: State, w: nat)
    requires Reachable(size, s) && s.notified && IsWorker(s, w)
    ensures !s.workers[w].Idle?
  {
    ReachableInv(size, s);
  }

  /** notify_all leaves nobody in a wait, timed or not: whoever waited can take the lock at once,
      and the others go on with what they were doing. */
  lemma NotifyAllWakesEverybody(size: nat, s: State, w: nat)
    requires Reachable(size, s) && Enabled(s, NotifyAll) && IsWorker(s, w)
    ensures var s' := Apply(s, NotifyAll);
      && |s'.workers| == |s.workers|
      && !Waiting(s'.workers[w])
      && (Waiting(s.workers[w]) ==> Enabled(s', TakeLock(w)))
      && (!Waiting(s.workers[w]) ==> s'.workers[w] == s.workers[w])
  {
  }

  // ----- the drain can always be completed -----

  predicate AllLeft(s: State) {
    forall w :: 0 <= w < |s.workers| ==> s.workers[w].Exited?
  }

  /** A worker that has not left can move, if need be after waiting for its deadline. */
  lemma WorkerCanMove(s: State, w: nat) returns (steps: seq<Action>)
    requires IsWorker(s, w) && !s.workers[w].Exited? && !s.workers[w].Idle?
    ensures Legal(s, steps) && WorkerSteps(steps) == 1 && SpuriousWakes(steps) == 0
    ensures forall a :: a in steps ==> WorkerStep(a) || a.Tick?
    ensures After(s, steps).control == s.control
  {
    if s.workers[w].Timed? {
      var at := if s.workers[w].deadline <= s.now then s.now else s.workers[w].deadline;
      var mid := Apply(s, Tick(at));
      var rest := SingleStep(mid, TimeOut(w));
      steps := [Tick(at)] + rest;
      assert steps[1..] == rest;
    } else {
      var a := if s.workers[w].Awake? then TakeLock(w) else Finish(w, Returned);
      steps := SingleStep(s, a);
    }
  }

  lemma SingleStep(s: State, a: Action) returns (steps: seq<Action>)
    requires Enabled(s, a) && WorkerStep(a)
    ensures steps == [a] && Legal(s, steps) && After(s, steps) == Apply(s, a)
    ensures WorkerSteps(steps) == 1 && SpuriousWakes(steps) == 0
  {
    steps := [a];
    assert steps[1..] == [];
  }

  lemma SomeoneIsLeft(s: State) returns (w: nat)
    requires Draining(s) && !AllLeft(s)
    ensures IsWorker(s, w) && !s.workers[w].Exited? && !s.workers[w].Idle?
  {
    w :| w < |s.workers| && !s.workers[w].Exited?;
  }

  /** From every state of the drain some continuation, without any spurious wake-up, brings
      every worker home. */
  lemma {:induction false} DrainCanComplete(s: State) returns (run: seq<Action>)
    requires Draining(s)
    ensures Legal(s, run) && AllLeft(After(s, run)) && Draining(After(s, run))
    ensures forall a :: a in run ==> WorkerStep(a) || a.Tick?
    ensures s.control == After(s, run).control
    decreases Measure(s)
  {
    if AllLeft(s) {
      run := [];
    } else {
      var w := SomeoneIsLeft(s);
      var steps := WorkerCanMove(s, w);
      DrainRun(s, steps);
      var rest := DrainCanComplete(After(s, steps));
      RunConcat(s, steps, rest);
      run := steps + rest;
    }
  }

  lemma {:induction false} JoinCanComplete(s: State) returns (run: seq<Action>)
    requires s.control.Joining? && s.control.next <= |s.workers| && AllLeft(s)
    ensures Legal(s, run) && After(s, run).control == Between && After(s, run).joined
    ensures forall a :: a in run ==> a.Join?
    decreases |s.workers| - s.control.next
  {
    if s.control.next == |s.workers| {
      run := [Join];
      assert Legal(Apply(s, Join), []);
      assert After(s, run) == Apply(s, Join);
    } else {
      var rest := JoinCanComplete(Apply(s, Join));
      run := [Join] + rest;
      assert run[1..] == rest;
    }
  }

  lemma JoiningCanReturn(size: nat, s: State) returns (run: seq<Action>)
    requires Reachable(size, s) && s.control.Joining?
    ensures Legal(s, run) && After(s, run).joined && After(s, run).control == Between
    ensures forall a :: a in run ==> WorkerStep(a) || a.Tick? || a.Join?
  {
    JoiningIsDraining(size, s);
    var work := DrainCanComplete(s);
    var join := JoinCanComplete(After(s, work));
    RunConcat(s, work, join);
    run := work + join;
  }

  /** do_stop's own part: set the flag under the lock, then notify. */
  function CloseSteps(c: Control): seq<Action> {
    match c
    case Closing => [SetClosed, NotifyAll]
    case Notifying => [NotifyAll]
    case _ => []
  }

  lemma CloseStepsRun(size: nat, s: State)
    requires Reachable(size, s) && (s.control.Closing? || s.control.Notifying? || s.control.Joining?)
    ensures Legal(s, CloseSteps(s.control)) && After(s, CloseSteps(s.control)).control.Joining?
    ensures Reachable(size, After(s, CloseSteps(s.control)))
  {
    if s.control.Closing? {
      assert [SetClosed, NotifyAll][1..] == [NotifyAll];
      assert Legal(Apply(s, SetClosed), [NotifyAll]);
    }
    ReachableAfter(size, s, CloseSteps(s.control));
  }

  /** stop is never stuck: from every reachable state in which it closes the queue, notifies or
      waits for the workers, a continuation of its own steps, worker steps and passing time
      alone lets it return. */
  lemma StopCanReturn(size: nat, s: State) returns (run: seq<Action>)
    requires Reachable(size, s) && (s.control.Closing? || s.control.Notifying? || s.control.Joining?)
    ensures Legal(s, run) && After(s, run).joined && After(s, run).control == Between
    ensures forall a :: a in run ==>
      WorkerStep(a) || a.Tick? || a.SetClosed? || a.NotifyAll? || a.Join?
  {
    CloseStepsRun(size, s);
    var s' := After(s, CloseSteps(s.control));
    var rest := JoiningCanReturn(size, s');
    RunConcat(s, CloseSteps(s.control), rest);
    run := CloseSteps(s.control) + rest;
  }

  /** stop, called on a started pool, can return, and has closed the queue by then. */
  lemma StopCallCanReturn(size: nat, s: State) returns (run: seq<Action>)
    requires Reachable(size, s) && s.control.Between? && s.started
    ensures Legal(s, run) && run != [] && run[0] == CallStop
    ensures After(s, run).joined && After(s, run).control == Between && After(s, run).queue.closed
    ensures forall a :: a in run[1..] ==>
      WorkerStep(a) || a.Tick? || a.SetClosed? || a.NotifyAll? || a.Join?
  {
    ReachableStep(size, s, CallStop);
    var rest := StopCanReturn(size, Apply(s, CallStop));
    run := [CallStop] + rest;
    assert run[1..] == rest;
    ReachableAfter(size, s, run);
    JoinedIsClosed(size, After(s, run));
  }

  lemma JoinedIsClosed(size: nat, s: State)
    requires Reachable(size, s) && s.joined
    ensures s.queue.closed
  {
    ReachableInv(size, s);
  }

  /** The destructor, called at any time between other calls, can return as well. */
  lemma DestructorCanReturn(size: nat, s: State) returns (run: seq<Action>)
    requires Reachable(size, s) && s.control.Between?
    ensures Legal(s, run) && run != [] && run[0] == CallDestructor && After(s, run).joined
    ensures forall a :: a in run[1..] ==>
      WorkerStep(a) || a.Tick? || a.SetClosed? || a.NotifyAll? || a.Join?
  {
    ReachableStep(size, s, CallDestructor);
    var rest := StopCanReturn(size, Apply(s, CallDestructor));
    run := [CallDestructor] + rest;
    assert run[1..] == rest;
  }

  // ----- stop without waiting -----

  /** The steps of stop and of workers that need no time to pass. */
  predicate Prompt(a: Action) {
    a.SetClosed? || a.NotifyAll? || a.Join? || a.TakeLock? || a.Finish?
  }

  predicate AllReady(s: State) {
    forall t :: t in s.queue.elements ==> t.Ready(s.now)
  }

  predicate NobodyWaits(ws: seq<Worker>) {
    forall w :: 0 <= w < |ws| ==> !Waiting(ws[w])
  }

  lemma PromptLook(s: State, w: nat)
    requires s.queue.closed && AllReady(s) && NobodyWaits(s.workers) && Enabled(s, TakeLock(w))
    ensures var s' := Apply(s, TakeLock(w)); AllReady(s') && NobodyWaits(s'.workers)
  {
    HeadIsMember(s.queue.elements);
    assert forall t :: t in Apply(s, TakeLock(w)).queue.elements ==> t in s.queue.elements;
  }

  lemma PromptStep(s: State, w: nat) returns (a: Action)
    requires Draining(s) && AllReady(s) && NobodyWaits(s.workers)
    requires IsWorker(s, w) && !s.workers[w].Exited?
    ensures Enabled(s, a) && (a.TakeLock? || a.Finish?)
    ensures AllReady(Apply(s, a)) && NobodyWaits(Apply(s, a).workers)
  {
    if s.workers[w].Awake? {
      a := TakeLock(w);
      PromptLook(s, w);
    } else {
      a := Finish(w, Returned);
    }
  }

  /** While nothing pending lies in the future, the workers can go home without any wait. */
  lemma {:induction false} PromptDrain(s: State) returns (run: seq<Action>)
    requires Draining(s) && AllReady(s) && NobodyWaits(s.workers)
    ensures Legal(s, run) && AllLeft(After(s, run)) && Draining(After(s, run))
    ensures forall a :: a in run ==> Prompt(a)
    ensures After(s, run).control == s.control
    decreases Measure(s)
  {
    if AllLeft(s) {
      run := [];
    } else {
      var w := SomeoneIsLeft(s);
      var a := PromptStep(s, w);
      DrainStep(s, a);
      CalmLasts(s, a);
      var rest := PromptDrain(Apply(s, a));
      run := [a] + rest;
      assert run[1..] == rest;
    }
  }

  lemma CloseStepsEnd(s: State)
    requires s.control.Closing? || s.control.Notifying?
    ensures Legal(s, CloseSteps(s.control))
    ensures var s' := After(s, CloseSteps(s.control));
      NobodyWaits(s'.workers) && s'.queue.elements == s.queue.elements && s'.now == s.now
  {
    if s.control.Closing? {
      assert [SetClosed, NotifyAll][1..] == [NotifyAll];
      LastNotifyAll(Apply(s, SetClosed));
    } else {
      LastNotifyAll(s);
    }
  }

  lemma LastNotifyAll(s: State)
    requires Enabled(s, NotifyAll)
    ensures Legal(s, [NotifyAll]) && After(s, [NotifyAll]) == Apply(s, NotifyAll)
    ensures NobodyWaits(After(s, [NotifyAll]).workers)
    ensures After(s, [NotifyAll]).queue == s.queue && After(s, [NotifyAll]).now == s.now
  {
    OneAction(s, NotifyAll);
  }

  lemma NoThreads(s: State)
    requires Reachable(0, s)
    ensures s.workers == []
  {
    ReachableInv(0, s);
  }

  lemma PromptStop(size: nat, s: State) returns (run: seq<Action>)
    requires Reachable(size, s) && (s.control.Closing? || s.control.Notifying?)
    requires size == 0 || AllReady(s)
    ensures Legal(s, run) && After(s, run).joined && After(s, run).control == Between
    ensures forall a :: a in run ==> Prompt(a)
  {
    var close := CloseSteps(s.control);
    CloseStepsRun(size, s);
    CloseStepsEnd(s);
    var work: seq<Action> := [];
    if size == 0 {
      NoThreads(After(s, close));
    } else {
      JoiningIsDraining(size, After(s, close));
      work := PromptDrain(After(s, close));
    }
    RunConcat(s, close, work);
    ReachableAfter(size, s, close + work);
    JoiningFits(size, After(s, close + work));
    var join := JoinCanComplete(After(s, close + work));
    RunConcat(s, close + work, join);
    run := close + work + join;
  }

  lemma JoiningFits(size: nat, s: State)
    requires Reachable(size, s) && s.control.Joining?
    ensures s.control.next <= |s.workers|
  {
    ReachableInv(size, s);
  }

  /** A task that is not ready stays where it is as long as no time passes and nobody cancels. */
  lemma {:induction false} StaysPending(size: nat, s: State, run: seq<Action>, t: Task)
    requires Reachable(size, s) && Legal(s, run) && forall a :: a in run ==> Prompt(a)
    requires t in s.queue.elements && !t.Ready(s.now)
    ensures t in After(s, run).queue.elements
    decreases |run|
  {
    if run == [] {
    } else {
      assert run[0] in run;
      PromptKeeps(size, s, run[0], t);
      ReachableStep(size, s, run[0]);
      StaysPending(size, Apply(s, run[0]), run[1..], t);
    }
  }

  lemma PromptKeeps(size: nat, s: State, a: Action, t: Task)
    requires Reachable(size, s) && Enabled(s, a) && Prompt(a)
    requires t in s.queue.elements && !t.Ready(s.now)
    ensures t in Apply(s, a).queue.elements && Apply(s, a).now == s.now
  {
    ReachableInv(size, s);
    TailMembership(s.queue.elements, t);
  }

  lemma JoinedIsDrained(size: nat, s: State)
    requires 1 <= size && Reachable(size, s) && s.joined
    ensures s.queue.elements == []
  {
    ReachableInv(size, s);
  }

  /** stop can return without any time passing exactly when no pending task has still to become
      ready, or the pool has no threads: then no worker, in whichever wait it was, is left to
      sleep out a delay; a stop that finds the queue empty never waits. */
  lemma StopNeedsNoTimeIff(size: nat, s: State)
    requires Reachable(size, s) && (s.control.Closing? || s.control.Notifying?)
    ensures (exists run :: && Legal(s, run) && (forall a :: a in run ==> Prompt(a))
                           && After(s, run).joined && After(s, run).control == Between)
       <==> size == 0 || AllReady(s)
  {
    if size == 0 || AllReady(s) {
      var run := PromptStop(size, s);
    }
    if run :| Legal(s, run) && (forall a :: a in run ==> Prompt(a))
              && After(s, run).joined && After(s, run).control == Between {
      forall t | t in s.queue.elements ensures size == 0 || t.Ready(s.now) {
        if 1 <= size && !t.Ready(s.now) {
          StaysPending(size, s, run, t);
          ReachableAfter(size, s, run);
          JoinedIsDrained(size, After(s, run));
        }
      }
    }
  }

  /** So a stop that finds nothing pending can return at once, whatever its workers waited for. */
  lemma EmptyStopIsPrompt(size: nat, s: State) returns (run: seq<Action>)
    requires Reachable(size, s) && (s.control.Closing? || s.control.Notifying?)
    requires s.queue.elements == []
    ensures Legal(s, run) && After(s, run).joined && After(s, run).control == Between
    ensures forall a :: a in run ==> a.SetClosed? || a.NotifyAll? || a.Join? || a.TakeLock? || a.Finish?
  {
    run := PromptStop(size, s);
  }
}
