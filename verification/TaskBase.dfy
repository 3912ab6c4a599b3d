/** TaskBaseImpl and the two id counters: the fields a task carries and how its promise
    is settled. */
module TaskBases {
  import opened TaskTime

  /** How a task body ends: it returns, or throws a std::exception. */
  datatype Outcome = Returned | Threw

  /** What the future shows: nothing yet, the result, or broken_promise. */
  datatype Promise = Unset | Value | Exception | Abandoned

  /** What happens to a task: its body is run, or whoever owns it lets go of it, and the
      destructor of its promise stores broken_promise if nothing is stored yet. */
  datatype Handling = RunWith(outcome: Outcome) | Dropped

  /** A settled promise refuses a second result. */
  function Settle(p: Promise, h: Handling): Promise {
    if p != Unset then p
    else
      match h
      case RunWith(o) => if o == Returned then Value else Exception
      case Dropped => Abandoned
  }

  function SettleAll(p: Promise, handlings: seq<Handling>): Promise
    decreases |handlings|
  {
    if handlings == [] then p else SettleAll(Settle(p, handlings[0]), handlings[1..])
  }

  /** How often the promise changed. */
  function Settlements(p: Promise, handlings: seq<Handling>): nat
    decreases |handlings|
  {
    if handlings == [] then 0
    else
      var p' := Settle(p, handlings[0]);
      (if p' == p then 0 else 1) + Settlements(p', handlings[1..])
  }

  /** Whatever happens to a task, its future shows what happened first, and changes once. */
  lemma {:induction false} FirstHandlingDecides(handlings: seq<Handling>)
    requires handlings != []
    ensures SettleAll(Unset, handlings) == Settle(Unset, handlings[0]) != Unset
    ensures Settlements(Unset, handlings) == 1
  {
    SettledForGood(Settle(Unset, handlings[0]), handlings[1..]);
  }

  lemma {:induction false} SettledForGood(p: Promise, handlings: seq<Handling>)
    requires p != Unset
    ensures SettleAll(p, handlings) == p && Settlements(p, handlings) == 0
    decreases |handlings|
  {
    if handlings == [] {
    } else {
      SettledForGood(p, handlings[1..]);
    }
  }

  /** create_request_id and create_sequence_id: a process-wide counter, pre-incremented. */
  class IdSource {
    var last: nat

    constructor ()
      ensures last == 0
    {
      last := 0;
    }

    method Next() returns (id: nat)
      modifies this
      ensures id == last == old(last) + 1
    {
      last := last + 1;
      id := last;
    }
  }

  class TaskBase {
    const seqId: nat
    var requestId: nat
    var due: int
    var promise: Promise
    var futureTaken: bool

    /** The due time starts as the construction time, the request id as 0. */
    constructor (sequenceIds: IdSource, now: int)
      modifies sequenceIds
      ensures View() == Task(old(sequenceIds.last) + 1, 0, now)
      ensures sequenceIds.last == old(sequenceIds.last) + 1
      ensures promise == Unset && !futureTaken
    {
      var id := sequenceIds.Next();
      seqId, requestId, due := id, 0, now;
      promise, futureTaken := Unset, false;
    }

    function View(): Task
      reads this
    {
      Task(seqId, requestId, due)
    }

    method SetRequestId(id: nat)
      modifies this`requestId
      ensures View() == old(View()).(requestId := id)
    {
      requestId := id;
    }

    method SetDueTime(now: int, delayMs: int)
      modifies this`due
      ensures View() == old(View()).(due := now + FromMs(delayMs))
      ensures 0 <= delayMs ==> View().Delay(now) == delayMs
    {
      due := now + FromMs(delayMs);
    }

    /** A second call throws future_already_retrieved. */
    method GetFuture() returns (ok: bool)
      modifies this`futureTaken
      ensures ok == !old(futureTaken) && futureTaken
    {
      ok := !futureTaken;
      futureTaken := true;
    }

    /** run_impl: whatever escapes is a std::exception, either the body's own or the
        promise's complaint that it was settled before. */
    method Run(body: Outcome) returns (escaped: bool)
      modifies this`promise
      ensures promise == Settle(old(promise), RunWith(body))
      ensures escaped <==> body == Threw || old(promise) != Unset
    {
      var caught := body == Threw;
      if !caught {
        if promise == Unset {
          promise := Value;
        } else {
          caught := true;
        }
      }
      if caught && promise == Unset {
        promise := Exception;
      }
      escaped := caught;
    }

    /** The destructor, reached when the task is erased from the queue or its worker is done
        with it. */
    method Drop()
      modifies this`promise
      ensures promise == Settle(old(promise), Dropped)
    {
      if promise == Unset {
        promise := Abandoned;
      }
    }
  }
}
