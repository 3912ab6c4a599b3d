/** Task timing: the millisecond truncations of TaskBaseImpl, the order the task set
    is sorted by, and what the two truncations imply about each other.
    Time points are integer nanoseconds of the steady clock. */
module TaskTime {

  /** std::chrono::duration_cast to milliseconds: truncates toward zero. */
  function ToMs(ns: int): (ms: int)
    ensures 0 <= ns ==> ms * 1_000_000 <= ns < ms * 1_000_000 + 1_000_000
    ensures ns <= 0 ==> ms * 1_000_000 - 1_000_000 < ns <= ms * 1_000_000
  {
    if 0 <= ns then ns / 1_000_000 else -(-ns / 1_000_000)
  }

  function FromMs(ms: int): int {
    ms * 1_000_000
  }

  /** What the queue sees of a task: ids and the due time point. The body is abstract. */
  datatype Task = Task(seqId: nat, requestId: nat, due: int) {

    /** due_time_impl */
    function DueMs(): int {
      ToMs(due)
    }

    /** delay_impl, with the clock reading as a parameter */
    function Delay(now: int): int {
      if ToMs(due - now) < 0 then 0 else ToMs(due - now)
    }

    /** The test wait_pop makes before it extracts the head. */
    predicate Ready(now: int) {
      Delay(now) <= 0
    }

    /** TaskPtrCmp: truncated due time first, then sequence id. */
    predicate Before(other: Task) {
      if DueMs() != other.DueMs() then DueMs() < other.DueMs() else seqId < other.seqId
    }
  }

  /** TaskPtrCmp is a strict order, total on tasks whose keys differ, so a std::set may
      use it; two tasks are equivalent for the set iff both key parts agree. */
  lemma BeforeIsStrictOrder(a: Task, b: Task, c: Task)
    ensures !a.Before(a)
    ensures a.Before(b) && b.Before(c) ==> a.Before(c)
    ensures a.Before(b) ==> !b.Before(a)
    ensures !a.Before(b) && !b.Before(a) <==> a.DueMs() == b.DueMs() && a.seqId == b.seqId
    ensures a.seqId != b.seqId ==> a.Before(b) || b.Before(a)
  {
  }

  /** Readiness in terms of the real due time: a task counts as ready from one
      millisecond before it is due, and stays ready. */
  lemma ReadyIff(t: Task, now: int)
    ensures t.Ready(now) <==> t.due - now < 1_000_000
  {
    var d := t.due - now;
    assert d < 1_000_000 <==> ToMs(d) <= 0;
  }

  /** A due time that is not later has a truncated due time that is not later. */
  lemma DueMsMonotone(a: Task, b: Task)
    requires a.due <= b.due
    ensures a.DueMs() <= b.DueMs()
  {
  }

  /** The wait the queue starts on an unready head ends no later than the head is due,
      ends at an instant when that head is ready, and ends less than a millisecond after
      the due time of every task that sorts behind the head. No such task has reached its
      due time yet. */
  lemma HeadOfLine(head: Task, other: Task, now: int)
    requires 0 <= now
    requires other == head || head.Before(other)
    requires !head.Ready(now)
    ensures other.due > now
    ensures now < now + FromMs(head.Delay(now)) <= head.due
    ensures head.Ready(now + FromMs(head.Delay(now)))
    ensures now + FromMs(head.Delay(now)) < other.due + 1_000_000
  {
    ReadyIff(head, now);
    ReadyIff(head, now + FromMs(head.Delay(now)));
    assert head.DueMs() <= other.DueMs();
    assert 1 <= head.DueMs();
  }

  /** At instant now, no unready head hides a task that sorts behind it and is already due. */
  ghost predicate HeadHidesNothing(now: int) {
    forall head: Task, other: Task ::
      head.Before(other) && !head.Ready(now) ==> other.due > now
  }

  /** Exactly when the truncations agree: always, except in the millisecond before the
      clock's epoch, where the truncation of negative and positive due times share a bucket. */
  lemma HeadHidesNothingIff(now: int)
    ensures HeadHidesNothing(now) <==> 0 <= now || now <= -1_000_000
  {
    if 0 <= now {
      forall head: Task, other: Task | head.Before(other) && !head.Ready(now)
        ensures other.due > now
      {
        HeadOfLine(head, other, now);
      }
    } else if now <= -1_000_000 {
      forall head: Task, other: Task | head.Before(other) && !head.Ready(now)
        ensures other.due > now
      {
        HeadBeforeEpoch(head, other, now);
      }
    } else {
      var head, other := Task(0, 0, now + 1_000_000), Task(1, 0, now);
      ReadyIff(head, now);
      assert head.DueMs() == 0 == other.DueMs();
      assert head.Before(other) && !head.Ready(now) && other.due <= now;
    }
  }

  lemma HeadBeforeEpoch(head: Task, other: Task, now: int)
    requires now <= -1_000_000
    requires head.Before(other)
    requires !head.Ready(now)
    ensures other.due > now
  {
    ReadyIff(head, now);
    assert head.DueMs() <= other.DueMs();
  }
}
