/** RequestImpl: start and cancel, each with a callback that may be used up, empty or throw.
    Calls are sequential. */
module Requests {

  datatype Future = NoFuture | FutureOf(id: nat)

  /** What a callback does when it is entered. */
  datatype StartBehaviour = Gives(future: Future) | StartThrows
  datatype CancelBehaviour = CancelReturns | CancelThrows

  datatype Reply = Ok | AlreadyStarted | AlreadyCancelled | EmptyCallback | CallbackThrew

  datatype Event =
    | StartAttempt                              // m_started went from false to true
    | StartRan(result: StartBehaviour)
    | CancelRan(future: Future, how: CancelBehaviour)

  datatype State = State(
    started: bool,
    startSet: bool,                             // m_start_callback is not empty
    cancelSet: bool,
    future: Future,
    log: seq<Event>)

  function AfterStart(s: State, b: StartBehaviour): State {
    if s.started then s
    else
      var t := s.(started := true, log := s.log + [StartAttempt]);
      if !t.startSet then t
      else match b
        case StartThrows => t.(log := t.log + [StartRan(b)])
        case Gives(f) => t.(startSet := false, future := f, log := t.log + [StartRan(b)])
  }

  function AfterCancel(s: State, b: CancelBehaviour): State {
    if !s.started then s
    else
      var t := s.(started := false, future := NoFuture);
      if !t.cancelSet then t
      else t.(cancelSet := b.CancelThrows?, log := t.log + [CancelRan(s.future, b)])
  }

  datatype Call = Start(s: StartBehaviour) | Cancel(c: CancelBehaviour)

  function After(s: State, c: Call): State {
    match c
    case Start(b) => AfterStart(s, b)
    case Cancel(b) => AfterCancel(s, b)
  }

  function AfterAll(s: State, calls: seq<Call>): State
    decreases |calls|
  {
    if calls == [] then s else AfterAll(After(s, calls[0]), calls[1..])
  }

  function Initial(startSet: bool, cancelSet: bool): State {
    State(false, startSet, cancelSet, NoFuture, [])
  }

  // ----- what holds of every history -----

  predicate Succeeded(e: Event) {
    e.StartRan? && e.result.Gives?
  }

  predicate Completed(e: Event) {
    e.CancelRan? && e.how.CancelReturns?
  }

  /** j is the first entry into the cancel callback after i. */
  ghost predicate FirstCancelAfter(log: seq<Event>, i: int, j: int) {
    && 0 <= i < j < |log| && log[j].CancelRan?
    && forall k :: i < k < j ==> !log[k].CancelRan?
  }

  ghost predicate NoCancelAfter(log: seq<Event>, i: nat) {
    forall k :: i < k < |log| ==> !log[k].CancelRan?
  }

  function Attempts(log: seq<Event>): nat {
    if log == [] then 0 else (if log[|log| - 1].StartAttempt? then 1 else 0) + Attempts(log[..|log| - 1])
  }

  function Cancels(log: seq<Event>): nat {
    if log == [] then 0 else (if log[|log| - 1].CancelRan? then 1 else 0) + Cancels(log[..|log| - 1])
  }

  lemma CountsAppend(log: seq<Event>, e: Event)
    ensures Attempts(log + [e]) == Attempts(log) + if e.StartAttempt? then 1 else 0
    ensures Cancels(log + [e]) == Cancels(log) + if e.CancelRan? then 1 else 0
  {
    assert (log + [e])[..|log|] == log;
  }

  ghost predicate Once(s: State) {
    && (forall i :: 0 <= i < |s.log| && Succeeded(s.log[i]) ==> !s.startSet)
    && (forall i :: 0 <= i < |s.log| && Completed(s.log[i]) ==> !s.cancelSet)
    && (forall i, j :: 0 <= i < j < |s.log| ==> !(Succeeded(s.log[i]) && Succeeded(s.log[j])))
    && (forall i, j :: 0 <= i < j < |s.log| ==> !(Completed(s.log[i]) && Completed(s.log[j])))
  }

  ghost predicate RightFuture(s: State) {
    && (forall i :: 0 <= i < |s.log| && Succeeded(s.log[i]) && NoCancelAfter(s.log, i) ==>
          (s.started && s.future == s.log[i].result.future) || !s.cancelSet)
    && (forall i, j :: FirstCancelAfter(s.log, i, j) && Succeeded(s.log[i]) ==>
          s.log[j].future == s.log[i].result.future)
  }

  ghost predicate Inv(s: State) {
    && Once(s)
    && RightFuture(s)
    && Cancels(s.log) + (if s.started then 1 else 0) <= Attempts(s.log)
  }

  /** An event that is not an entry into the cancel callback changes no first entry. */
  lemma AppendNoCancel(log: seq<Event>, e: Event)
    requires !e.CancelRan?
    ensures forall i :: 0 <= i < |log| ==> (NoCancelAfter(log + [e], i) <==> NoCancelAfter(log, i))
    ensures forall i, j :: FirstCancelAfter(log + [e], i, j) ==> FirstCancelAfter(log, i, j)
  {
    forall i | 0 <= i < |log| && NoCancelAfter(log + [e], i) ensures NoCancelAfter(log, i) {
      forall k | i < k < |log| ensures !log[k].CancelRan? {
        assert !(log + [e])[k].CancelRan?;
      }
    }
    forall i, j | FirstCancelAfter(log + [e], i, j) ensures FirstCancelAfter(log, i, j) {
      forall k | i < k < j ensures !log[k].CancelRan? {
        assert !(log + [e])[k].CancelRan?;
      }
    }
  }

  lemma AppendCancel(log: seq<Event>, e: Event)
    requires e.CancelRan?
    ensures forall i :: 0 <= i < |log| ==> !NoCancelAfter(log + [e], i)
    ensures forall i, j :: FirstCancelAfter(log + [e], i, j) ==>
      FirstCancelAfter(log, i, j) || (j == |log| && NoCancelAfter(log, i))
  {
    forall i | 0 <= i < |log| ensures !NoCancelAfter(log + [e], i) {
      assert (log + [e])[|log|].CancelRan?;
    }
    forall i, j | FirstCancelAfter(log + [e], i, j)
      ensures FirstCancelAfter(log, i, j) || (j == |log| && NoCancelAfter(log, i))
    {
      forall k | i < k < j ensures !log[k].CancelRan? {
        assert !(log + [e])[k].CancelRan?;
      }
    }
  }

  /** An event that is no callback's return. */
  lemma AppendOnce(s: State, s': State, e: Event)
    requires Once(s) && !Succeeded(e) && !Completed(e)
    requires s'.log == s.log + [e] && s'.startSet == s.startSet && s'.cancelSet == s.cancelSet
    ensures Once(s')
  {
  }

  lemma AttemptFuture(s: State)
    requires RightFuture(s) && !s.started
    ensures RightFuture(s.(started := true, log := s.log + [StartAttempt]))
  {
    AppendNoCancel(s.log, StartAttempt);
  }

  /** The two halves of start: raising the flag, and entering the callback. */
  lemma AttemptKeeps(s: State)
    requires Inv(s) && !s.started
    ensures Inv(s.(started := true, log := s.log + [StartAttempt]))
  {
    AppendOnce(s, s.(started := true, log := s.log + [StartAttempt]), StartAttempt);
    AttemptFuture(s);
    CountsAppend(s.log, StartAttempt);
  }

  lemma StartRanKeeps(t: State, b: StartBehaviour)
    requires Inv(t) && t.started && t.startSet
    ensures Inv(match b
                case StartThrows => t.(log := t.log + [StartRan(b)])
                case Gives(f) => t.(startSet := false, future := f, log := t.log + [StartRan(b)]))
  {
    AppendNoCancel(t.log, StartRan(b));
    CountsAppend(t.log, StartRan(b));
  }

  lemma CancelKeeps(s: State, b: CancelBehaviour)
    requires Inv(s)
    ensures Inv(AfterCancel(s, b))
  {
    if s.started && s.cancelSet {
      AppendCancel(s.log, CancelRan(s.future, b));
      CountsAppend(s.log, CancelRan(s.future, b));
    }
  }

  lemma CallKeeps(s: State, c: Call)
    requires Inv(s)
    ensures Inv(After(s, c))
  {
    match c
    case Start(b) =>
      if !s.started {
        AttemptKeeps(s);
        if s.startSet {
          StartRanKeeps(s.(started := true, log := s.log + [StartAttempt]), b);
        }
      }
    case Cancel(b) => CancelKeeps(s, b);
  }

  lemma {:induction false} CallsKeep(s: State, calls: seq<Call>)
    requires Inv(s)
    ensures Inv(AfterAll(s, calls))
    decreases |calls|
  {
    if calls == [] {
    } else {
      CallKeeps(s, calls[0]);
      CallsKeep(After(s, calls[0]), calls[1..]);
    }
  }

  /** One shot: over any sequence of calls each callback returns normally at most once. */
  lemma EachCallbackOnce(startSet: bool, cancelSet: bool, calls: seq<Call>, i: nat, j: nat)
    requires i < j < |AfterAll(Initial(startSet, cancelSet), calls).log|
    ensures var log := AfterAll(Initial(startSet, cancelSet), calls).log;
      !(Succeeded(log[i]) && Succeeded(log[j])) && !(Completed(log[i]) && Completed(log[j]))
  {
    CallsKeep(Initial(startSet, cancelSet), calls);
  }

  /** The first entry into the cancel callback after a successful start receives exactly the
      future that start produced. */
  lemma CancelGetsTheFuture(startSet: bool, cancelSet: bool, calls: seq<Call>, i: nat, j: nat)
    requires FirstCancelAfter(AfterAll(Initial(startSet, cancelSet), calls).log, i, j)
    requires Succeeded(AfterAll(Initial(startSet, cancelSet), calls).log[i])
    ensures var log := AfterAll(Initial(startSet, cancelSet), calls).log;
      log[j].future == log[i].result.future
  {
    CallsKeep(Initial(startSet, cancelSet), calls);
  }

  /** The cancel callback is entered at most once for every attempt to start. */
  lemma CancelNeedsStart(startSet: bool, cancelSet: bool, calls: seq<Call>)
    ensures var log := AfterAll(Initial(startSet, cancelSet), calls).log;
      Cancels(log) <= Attempts(log)
  {
    CallsKeep(Initial(startSet, cancelSet), calls);
  }

  // ----- when a callback is entered -----

  predicate StartedLast(calls: seq<Call>) {
    calls != [] && calls[|calls| - 1].Start?
  }

  /** Whatever the callbacks do, the started flag tells which call came last. */
  lemma {:induction false} FlagFollowsCalls(s: State, calls: seq<Call>)
    ensures AfterAll(s, calls).started == if calls == [] then s.started else StartedLast(calls)
    decreases |calls|
  {
    if calls == [] {
    } else {
      FlagFollowsCalls(After(s, calls[0]), calls[1..]);
      assert After(s, calls[0]).started == calls[0].Start?;
    }
  }

  ghost predicate UsedUp(s: State, startSet: bool, cancelSet: bool) {
    && (s.startSet <==> startSet && forall e :: e in s.log ==> !Succeeded(e))
    && (s.cancelSet <==> cancelSet && forall e :: e in s.log ==> !Completed(e))
  }

  lemma UsedUpStep(s: State, c: Call, startSet: bool, cancelSet: bool)
    requires UsedUp(s, startSet, cancelSet)
    ensures UsedUp(After(s, c), startSet, cancelSet)
  {
    match c
    case Start(b) =>
      if !s.started && s.startSet { assert StartRan(b) in AfterStart(s, b).log; }
    case Cancel(b) =>
      if s.started && s.cancelSet { assert CancelRan(s.future, b) in AfterCancel(s, b).log; }
  }

  /** A callback is set as long as it was given and has not returned normally. */
  lemma {:induction false} SetUntilUsed(s: State, calls: seq<Call>, startSet: bool, cancelSet: bool)
    requires UsedUp(s, startSet, cancelSet)
    ensures UsedUp(AfterAll(s, calls), startSet, cancelSet)
    decreases |calls|
  {
    if calls == [] {
    } else {
      UsedUpStep(s, calls[0], startSet, cancelSet);
      SetUntilUsed(After(s, calls[0]), calls[1..], startSet, cancelSet);
    }
  }

  /** After any calls, start enters its callback, once, exactly when the last call was not
      start, a callback was given and it has not succeeded yet; what it gives is then stored. */
  lemma StartEnters(startSet: bool, cancelSet: bool, calls: seq<Call>, b: StartBehaviour)
    ensures var s := AfterAll(Initial(startSet, cancelSet), calls);
      var s' := After(s, Start(b));
      var enters := !StartedLast(calls) && startSet && forall e :: e in s.log ==> !Succeeded(e);
      && s'.log == s.log + (if StartedLast(calls) then [] else [StartAttempt])
                         + (if enters then [StartRan(b)] else [])
      && s'.future == (if enters && b.Gives? then b.future else s.future)
      && s'.cancelSet == s.cancelSet
  {
    FlagFollowsCalls(Initial(startSet, cancelSet), calls);
    SetUntilUsed(Initial(startSet, cancelSet), calls, startSet, cancelSet);
  }

  /** After any calls, cancel enters its callback, once and with the future stored, exactly when
      the last call was start, a callback was given and it has not returned yet; the future is
      gone afterwards whenever the last call was start. */
  lemma CancelEnters(startSet: bool, cancelSet: bool, calls: seq<Call>, b: CancelBehaviour)
    ensures var s := AfterAll(Initial(startSet, cancelSet), calls);
      var s' := After(s, Cancel(b));
      var enters := StartedLast(calls) && cancelSet && forall e :: e in s.log ==> !Completed(e);
      && s'.log == s.log + (if enters then [CancelRan(s.future, b)] else [])
      && s'.future == (if StartedLast(calls) then NoFuture else s.future)
      && s'.startSet == s.startSet
  {
    FlagFollowsCalls(Initial(startSet, cancelSet), calls);
    SetUntilUsed(Initial(startSet, cancelSet), calls, startSet, cancelSet);
  }

  // ----- the class -----

  class Request {
    const id: nat
    var started: bool
    var startSet: bool
    var cancelSet: bool
    var future: Future
    ghost var log: seq<Event>

    ghost function View(): State
      reads this
    {
      State(started, startSet, cancelSet, future, log)
    }

    constructor (id: nat, startSet: bool, cancelSet: bool)
      ensures View() == Initial(startSet, cancelSet) && this.id == id
    {
      this.id := id;
      started, future, log := false, NoFuture, [];
      this.startSet, this.cancelSet := startSet, cancelSet;
    }

    /** start_impl; b is what the start callback does if it is entered. */
    method Start(b: StartBehaviour) returns (r: Reply)
      modifies this
      ensures View() == AfterStart(old(View()), b)
      ensures r ==
        if old(started) then AlreadyStarted else if !old(startSet) then EmptyCallback
        else if b.Gives? then Ok else CallbackThrew
    {
      if started {
        return AlreadyStarted;
      }
      started := true;
      log := log + [StartAttempt];
      if !startSet {
        return EmptyCallback;
      }
      log := log + [StartRan(b)];
      if b.StartThrows? {
        return CallbackThrew;
      }
      future := b.future;
      startSet := false;
      r := Ok;
    }

    /** cancel_impl; the future is moved out even when the callback turns out to be empty. */
    method Cancel(b: CancelBehaviour) returns (r: Reply)
      modifies this
      ensures View() == AfterCancel(old(View()), b)
      ensures r ==
        if !old(started) then AlreadyCancelled else if !old(cancelSet) then EmptyCallback
        else if b.CancelReturns? then Ok else CallbackThrew
    {
      if !started {
        return AlreadyCancelled;
      }
      started := false;
      var moved := future;
      future := NoFuture;
      if !cancelSet {
        return EmptyCallback;
      }
      log := log + [CancelRan(moved, b)];
      if b.CancelThrows? {
        return CallbackThrew;
      }
      cancelSet := false;
      r := Ok;
    }
  }
}
