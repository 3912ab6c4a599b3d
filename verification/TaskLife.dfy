/** What the pool's history says about one task: its life only moves forward, and every
    change in it was caused by an event. */
module TaskLife {
  import opened TaskTime
  import opened TaskBases
  import opened Pool

  function Stage(st: Status): nat {
    match st
    case Unknown => 0
    case Held => 1
    case Cleared => 1
    case Pending => 2
    case Active(_) => 3
    case Impossible => 5
    case _ => 4
  }

  function StatusAt(log: seq<Event>, i: nat, t: Task): Status
    requires i <= |log|
  {
    StatusOf(log[..i], t)
  }

  predicate WasAccepted(st: Status) {
    st.Pending? || st.Active? || st.Done? || st.Cancelled?
  }

  /** No task ever took part in an event its status did not allow. */
  ghost predicate Possible(log: seq<Event>) {
    forall t :: StatusOf(log, t) != Impossible
  }

  lemma StatusStep(log: seq<Event>, i: nat, t: Task)
    requires i < |log|
    ensures StatusAt(log, i + 1, t) == NextStatus(t, StatusAt(log, i, t), log[i])
  {
    assert log[..i + 1][..i] == log[..i];
  }

  lemma StatusNow(log: seq<Event>, t: Task)
    ensures StatusAt(log, |log|, t) == StatusOf(log, t)
  {
    assert log[..|log|] == log;
  }

  /** Later in the history the task is at a later stage or has not moved; only a producer whose
      add_task is refused goes back and forth. */
  lemma {:induction false} LifeMovesForward(log: seq<Event>, i: nat, j: nat, t: Task)
    requires i <= j <= |log|
    ensures Stage(StatusAt(log, i, t)) <= Stage(StatusAt(log, j, t))
    ensures Stage(StatusAt(log, i, t)) == Stage(StatusAt(log, j, t)) != 1 ==>
      StatusAt(log, i, t) == StatusAt(log, j, t)
    decreases j - i
  {
    if i == j {
    } else {
      LifeMovesForward(log, i, j - 1, t);
      StatusStep(log, j - 1, t);
    }
  }

  /** A task that has left the status it had was moved out of it by some event between. */
  lemma {:induction false} SomethingMovedIt(log: seq<Event>, i: nat, j: nat, t: Task) returns (k: nat)
    requires i <= j <= |log|
    requires StatusAt(log, i, t) != StatusAt(log, j, t)
    ensures i <= k < j
    ensures StatusAt(log, k, t) == StatusAt(log, i, t) != StatusAt(log, k + 1, t)
    ensures StatusAt(log, k + 1, t) == NextStatus(t, StatusAt(log, k, t), log[k])
    decreases j - i
  {
    StatusStep(log, i, t);
    if StatusAt(log, i + 1, t) != StatusAt(log, i, t) {
      k := i;
    } else {
      k := SomethingMovedIt(log, i + 1, j, t);
    }
  }

  lemma PossibleThroughout(log: seq<Event>, i: nat, t: Task)
    requires Possible(log) && i <= |log|
    ensures StatusAt(log, i, t) != Impossible
  {
    StatusNow(log, t);
    LifeMovesForward(log, i, |log|, t);
  }

  /** The status before and after an event of the task the event names. */
  lemma NamedEvent(log: seq<Event>, i: nat)
    requires Possible(log) && i < |log|
    ensures log[i].Created? ==>
      StatusAt(log, i, log[i].task) == Unknown && StatusAt(log, i + 1, log[i].task) == Held
    ensures log[i].Pushed? ==>
      StatusAt(log, i, log[i].task) == Cleared && StatusAt(log, i + 1, log[i].task) == Pending
    ensures log[i].Popped? ==>
      && StatusAt(log, i, log[i].task) == Pending
      && StatusAt(log, i + 1, log[i].task) == Active(log[i].worker)
    ensures log[i].Finished? ==>
      && StatusAt(log, i, log[i].task) == Active(log[i].worker)
      && StatusAt(log, i + 1, log[i].task) == Done(log[i].outcome)
  {
    var e := log[i];
    if e.Created? || e.Pushed? || e.Popped? || e.Finished? {
      StatusStep(log, i, e.task);
      PossibleThroughout(log, i + 1, e.task);
    }
  }

  /** Once accepted, a task can only be pending, run, done or cancelled. */
  lemma {:induction false} StaysAccepted(log: seq<Event>, i: nat, j: nat, t: Task)
    requires Possible(log) && i <= j <= |log|
    requires WasAccepted(StatusAt(log, i, t))
    ensures WasAccepted(StatusAt(log, j, t))
    decreases j
  {
    if i == j {
    } else {
      StaysAccepted(log, i, j - 1, t);
      StatusStep(log, j - 1, t);
      PossibleThroughout(log, j, t);
    }
  }

  lemma {:induction false} NeverAccepted(log: seq<Event>, i: nat, t: Task)
    requires Possible(log) && i <= |log| && Pushed(t) !in log
    ensures !WasAccepted(StatusAt(log, i, t))
  {
    if i == 0 {
    } else {
      NeverAccepted(log, i - 1, t);
      StatusStep(log, i - 1, t);
      PossibleThroughout(log, i, t);
    }
  }

  /** The queue accepted exactly the tasks whose status lies past insertion. */
  lemma AcceptedStatus(log: seq<Event>, t: Task)
    requires Possible(log)
    ensures Pushed(t) in log <==> WasAccepted(StatusOf(log, t))
  {
    StatusNow(log, t);
    if Pushed(t) in log {
      var i :| 0 <= i < |log| && log[i] == Pushed(t);
      NamedEvent(log, i);
      StaysAccepted(log, i + 1, |log|, t);
    } else {
      NeverAccepted(log, |log|, t);
    }
  }

  /** What happened to a task's object, in order: a worker runs it and drops it, or a
      cancellation that finds it pending erases it. */
  function HandlingsOf(log: seq<Event>, t: Task): seq<Handling> {
    if log == [] then []
    else
      var past, e := log[..|log| - 1], log[|log| - 1];
      HandlingsOf(past, t) +
        if e.Finished? && e.task == t then [RunWith(e.outcome), Dropped]
        else if e.Removed? && e.requestId == t.requestId && StatusOf(past, t) == Pending then [Dropped]
        else []
  }

  lemma {:induction false} HandlingsMatchStatus(log: seq<Event>, i: nat, t: Task)
    requires Possible(log) && i <= |log|
    ensures HandlingsOf(log[..i], t) ==
      match StatusAt(log, i, t)
      case Done(o) => [RunWith(o), Dropped]
      case Cancelled => [Dropped]
      case _ => []
  {
    if i == 0 {
    } else {
      HandlingsMatchStatus(log, i - 1, t);
      StatusStep(log, i - 1, t);
      PossibleThroughout(log, i, t);
      assert log[..i][..i - 1] == log[..i - 1];
    }
  }
}
