/**
 Workbench commands on one session. Each call is admitted by a check-and-increment
 of the active-turn counter, publishes a block of five events and releases the
 counter. The fan-out goroutine moves published events to the log and releases the
 counter as well whenever it dispatches a turn's end, so one finished call is
 released from two sides.
*/
module CommandTurns {
  import opened Options

  type CallId = nat

  datatype Kind = TurnStart | UserMessage | ToolRequest | ToolResult | TurnEnd

  datatype Event = Event(call: CallId, kind: Kind)

  const EVENT_BUFFER := 1024

  datatype Outcome = Busy | ShellUnavailable | Completed

  /** The events of one call, in the order it publishes them. */
  function Block(call: CallId): (block: seq<Event>)
    ensures |block| == 5
  {
    [Event(call, TurnStart), Event(call, UserMessage), Event(call, ToolRequest),
     Event(call, ToolResult), Event(call, TurnEnd)]
  }

  function Blocks(calls: seq<CallId>): seq<Event> {
    if calls == [] then [] else Blocks(calls[..|calls| - 1]) + Block(calls[|calls| - 1])
  }

  /** Complete blocks followed by at most one open block. */
  ghost predicate WellBracketed(log: seq<Event>) {
    exists calls, call, n: nat :: n < 5 && log == Blocks(calls) + Block(call)[..n]
  }

  /** The event that comes right before another one, told by their kinds. */
  predicate Follows(before: Event, event: Event) {
    match event.kind
    case TurnStart => before.kind.TurnEnd?
    case UserMessage => before == Event(event.call, TurnStart)
    case ToolRequest => before == Event(event.call, UserMessage)
    case ToolResult => before == Event(event.call, ToolRequest)
    case TurnEnd => before == Event(event.call, ToolResult)
  }

  ghost predicate Ordered(events: seq<Event>) {
    && (events != [] ==> events[0].kind.TurnStart?)
    && forall i :: 0 < i < |events| ==> Follows(events[i - 1], events[i])
  }

  // ---- The atomic operations on the shared state ----

  /** A release never takes the counter below zero. */
  function Released(active: int): int {
    if active <= 0 then active else active - 1
  }

  /** Publishing never blocks: an event that finds the channel full is dropped. */
  function Enqueued(queue: seq<Event>, event: Event): seq<Event> {
    if |queue| < EVENT_BUFFER then queue + [event] else queue
  }

  /** How many events of a block still fit. */
  function Room(queue: seq<Event>): (n: nat)
    ensures n <= 5
  {
    if |queue| >= EVENT_BUFFER then 0 else if EVENT_BUFFER - |queue| >= 5 then 5 else EVENT_BUFFER - |queue|
  }

  class Session {
    var activeTurns: int
    var queue: seq<Event>
    var log: seq<Event>

    constructor ()
      ensures activeTurns == 0 && queue == [] && log == []
    {
      activeTurns, queue, log := 0, [], [];
    }

    method EndTurn()
      modifies this`activeTurns
      ensures activeTurns == Released(old(activeTurns))
    {
      var n := activeTurns;
      if n <= 0 {
        return;
      }
      activeTurns := n - 1;
    }

    method Publish(event: Event)
      modifies this`queue
      ensures queue == Enqueued(old(queue), event)
    {
      if |queue| < EVENT_BUFFER {
        queue := queue + [event];
      }
    }

    method Dispatch()
      requires queue != []
      modifies this
      ensures log == old(log) + [old(queue)[0]] && queue == old(queue)[1..]
      ensures activeTurns == if old(queue)[0].kind.TurnEnd? then Released(old(activeTurns)) else old(activeTurns)
    {
      var event := queue[0];
      queue := queue[1..];
      log := log + [event];
      if event.kind.TurnEnd? {
        EndTurn();
      }
    }

    /** One call with nothing else running meanwhile. Its events are published in
        order, whether or not the command itself fails, as far as the channel has
        room, and whichever way an admitted call ends, the counter is back where it
        was. */
    method RunWorkbenchCommand(call: CallId, shellConfigured: bool) returns (outcome: Outcome)
      modifies this
      ensures outcome.Busy? <==> old(activeTurns) > 0
      ensures outcome.ShellUnavailable? <==> old(activeTurns) <= 0 && !shellConfigured
      ensures log == old(log)
      ensures 0 <= old(activeTurns) ==> activeTurns == old(activeTurns)
      ensures !outcome.Completed? ==> queue == old(queue)
      ensures outcome.Completed? ==> queue == old(queue) + Block(call)[..Room(old(queue))]
      ensures outcome.Completed? ==>
                var published := queue[|old(queue)|..];
                Ordered(published) && forall event <- published :: event.call == call
    {
      if activeTurns > 0 {
        return Busy;
      }
      activeTurns := activeTurns + 1;
      if !shellConfigured {
        EndTurn();
        return ShellUnavailable;
      }
      Publish(Event(call, TurnStart));
      Publish(Event(call, UserMessage));
      Publish(Event(call, ToolRequest));
      Publish(Event(call, ToolResult));
      Publish(Event(call, TurnEnd));
      EndTurn();
      BlockIsOrdered(call, Room(old(queue)));
      assert queue[|old(queue)|..] == Block(call)[..Room(old(queue))];
      return Completed;
    }
  }

  // ---- Any number of calls, interleaved with the fan-out ----

  /** Where an admitted call stands: how much of its block it has published, or
      that it has released the counter. */
  datatype Stage = Running(published: nat) | Done

  /** The event the fan-out has received and not finished with: first it is to be
      written to the log, then a turn end releases the counter. */
  datatype Taken = Taken(event: Event, logged: bool)

  /** `calls` holds the admitted calls. `done` and `holder` record history: the
      calls that published their whole block and released, in that order, and the
      latest admitted call that has not released yet. */
  datatype State = State(active: int, queue: seq<Event>, taken: Option<Taken>, log: seq<Event>,
                         calls: map<CallId, Stage>, done: seq<CallId>, holder: Option<CallId>)

  datatype Step =
    | Enter(call: CallId)
    | FailEarly(call: CallId)
    | PublishNext(call: CallId)
    | Release(call: CallId)
    | Take
    | Record
    | Finish

  const Init := State(0, [], None, [], map[], [], None)

  predicate IsRunning(s: State, call: CallId) {
    call in s.calls && s.calls[call].Running?
  }

  predicate Enabled(s: State, step: Step) {
    match step
    case Enter(call) => call !in s.calls
    case FailEarly(call) => IsRunning(s, call) && s.calls[call].published == 0
    case PublishNext(call) => IsRunning(s, call) && s.calls[call].published < 5
    case Release(call) => IsRunning(s, call) && s.calls[call].published == 5
    case Take => s.queue != [] && s.taken.None?
    case Record => s.taken.Some? && !s.taken.value.logged
    case Finish => s.taken.Some? && s.taken.value.logged
  }

  /** The check made under the session lock. */
  predicate Admits(s: State) {
    s.active <= 0
  }

  function Apply(s: State, step: Step): State
    requires Enabled(s, step)
  {
    match step
    case Enter(call) =>
      if Admits(s)
      then s.(active := s.active + 1, calls := s.calls[call := Running(0)], holder := Some(call))
      else s
    case FailEarly(call) => Leave(s, call)
    case PublishNext(call) =>
      var n := s.calls[call].published;
      s.(queue := Enqueued(s.queue, Block(call)[n]), calls := s.calls[call := Running(n + 1)])
    case Release(call) => Leave(s, call).(done := s.done + [call])
    case Take => s.(queue := s.queue[1..], taken := Some(Taken(s.queue[0], false)))
    case Record =>
      s.(log := s.log + [s.taken.value.event], taken := Some(s.taken.value.(logged := true)))
    case Finish =>
      s.(taken := None, active := if s.taken.value.event.kind.TurnEnd? then Released(s.active) else s.active)
  }

  function Leave(s: State, call: CallId): State {
    s.(active := Released(s.active), calls := s.calls[call := Done],
       holder := if s.holder == Some(call) then None else s.holder)
  }

  function Exec(s: State, steps: seq<Step>): Option<State>
    decreases |steps|
  {
    if steps == [] then Some(s)
    else if Enabled(s, steps[0]) then Exec(Apply(s, steps[0]), steps[1..])
    else None
  }

  /** The events the fan-out is not finished with, the one in its hands first. */
  function Undispatched(s: State): seq<Event> {
    (if s.taken.Some? then [s.taken.value.event] else []) + s.queue
  }

  /** Everything published and not dropped, in order. */
  function Published(s: State): seq<Event> {
    s.log + (if s.taken.Some? && !s.taken.value.logged then [s.taken.value.event] else []) + s.queue
  }

  /** Nothing of an earlier call is left over: no call is running, and no turn end
      waits in the channel or is in the fan-out's hands. */
  predicate Quiescent(s: State) {
    && (forall call :: call in s.calls ==> s.calls[call].Done?)
    && (forall k :: 0 <= k < |Undispatched(s)| ==> !Undispatched(s)[k].kind.TurnEnd?)
  }

  /** Calls are only ever admitted when nothing is left over. */
  predicate Calm(s: State, steps: seq<Step>)
    decreases |steps|
  {
    steps == [] ||
    (Enabled(s, steps[0])
     && (steps[0].Enter? && Admits(s) ==> Quiescent(s))
     && Calm(Apply(s, steps[0]), steps[1..]))
  }

  // ---- The invariant of calm runs ----

  predicate Good(s: State) {
    && (forall call :: call in s.calls && Some(call) != s.holder ==> s.calls[call].Done?)
    && InHand(s)
    && match s.holder
       case None =>
         s.active == 0 && Published(s) == Blocks(s.done) && |Undispatched(s)| <= 5
       case Some(call) =>
         && IsRunning(s, call) && s.calls[call].published <= 5
         && Published(s) == Blocks(s.done) + Block(call)[..s.calls[call].published]
         && |Undispatched(s)| <= s.calls[call].published
         && s.active == if s.calls[call].published == 5 && Undispatched(s) == [] then 0 else 1
  }

  /** The event in the fan-out's hands is the last one logged, once it is. */
  predicate InHand(s: State) {
    s.taken.Some? && s.taken.value.logged ==> s.log != [] && s.log[|s.log| - 1] == s.taken.value.event
  }

  /** What is not dispatched is the end of what was published. */
  lemma UndispatchedLast(s: State)
    requires InHand(s)
    ensures |Undispatched(s)| <= |Published(s)|
    ensures Published(s)[|Published(s)| - |Undispatched(s)|..] == Undispatched(s)
  {
  }

  lemma QueueTail(s: State)
    requires Good(s) && Undispatched(s) != []
    ensures s.holder.None? ==>
              s.done != [] && Undispatched(s) == Block(s.done[|s.done| - 1])[5 - |Undispatched(s)|..]
    ensures s.holder.Some? ==>
              var n := s.calls[s.holder.value].published;
              Undispatched(s) == Block(s.holder.value)[n - |Undispatched(s)|..n]
  {
    var all, tail := Published(s), Undispatched(s);
    UndispatchedLast(s);
    match s.holder
    case None =>
      assert all != [];
      var last := s.done[|s.done| - 1];
      assert all == Blocks(s.done[..|s.done| - 1]) + Block(last);
      assert all[|all| - |tail|..] == Block(last)[5 - |tail|..];
    case Some(call) =>
      var n := s.calls[call].published;
      assert all[|all| - |tail|..] == Block(call)[..n][n - |tail|..];
  }

  /** In a good state, being quiescent is having nothing left to dispatch. */
  lemma QuiescentIsDrained(s: State)
    requires Good(s)
    ensures Quiescent(s) <==> s.holder.None? && Undispatched(s) == []
  {
    if Undispatched(s) != [] && s.holder.None? {
      QueueTail(s);
      assert Undispatched(s)[|Undispatched(s)| - 1].kind.TurnEnd?;
    }
  }

  lemma StepKeepsGood(s: State, step: Step)
    requires Good(s) && Enabled(s, step)
    requires step.Enter? && Admits(s) ==> Quiescent(s)
    ensures Good(Apply(s, step))
  {
    match step
    case Enter(call) =>
      QuiescentIsDrained(s);
      if Admits(s) {
        KeepsEnter(s, call);
      }
    case FailEarly(call) => KeepsFailEarly(s, call);
    case PublishNext(call) => KeepsPublish(s, call);
    case Release(call) => KeepsRelease(s, call);
    case Take => KeepsTake(s);
    case Record => KeepsRecord(s);
    case Finish => KeepsFinish(s);
  }

  lemma KeepsEnter(s: State, call: CallId)
    requires Good(s) && s.holder.None? && Undispatched(s) == [] && Enabled(s, Enter(call))
    ensures Good(Apply(s, Enter(call)))
  {
    assert Block(call)[..0] == [];
  }

  lemma KeepsFailEarly(s: State, call: CallId)
    requires Good(s) && Enabled(s, FailEarly(call))
    ensures Good(Apply(s, FailEarly(call)))
  {
    assert s.holder == Some(call);
    assert Block(call)[..0] == [];
  }

  lemma KeepsPublish(s: State, call: CallId)
    requires Good(s) && Enabled(s, PublishNext(call))
    ensures Good(Apply(s, PublishNext(call)))
  {
    assert s.holder == Some(call);
    var t := Apply(s, PublishNext(call));
    var n := s.calls[call].published;
    assert Published(t) == Published(s) + [Block(call)[n]];
    assert Undispatched(t) == Undispatched(s) + [Block(call)[n]];
    assert Block(call)[..n] + [Block(call)[n]] == Block(call)[..n + 1];
  }

  lemma KeepsRelease(s: State, call: CallId)
    requires Good(s) && Enabled(s, Release(call))
    ensures Good(Apply(s, Release(call)))
  {
    assert s.holder == Some(call);
    var t := Apply(s, Release(call));
    BlocksGrow(s.done, call);
    assert Undispatched(t) == Undispatched(s) && Published(t) == Published(s);
    assert Published(t) == Blocks(t.done);
  }

  lemma BlocksGrow(calls: seq<CallId>, call: CallId)
    ensures Blocks(calls + [call]) == Blocks(calls) + Block(call)[..5]
  {
    assert (calls + [call])[..|calls|] == calls;
    assert Block(call)[..5] == Block(call);
  }

  lemma KeepsTake(s: State)
    requires Good(s) && Enabled(s, Take)
    ensures Good(Apply(s, Take))
  {
    var t := Apply(s, Take);
    SameEvents(s.log, s.queue);
    assert Undispatched(s) == s.queue && Undispatched(t) == s.queue;
    assert Published(s) == s.log + s.queue && Published(t) == s.log + s.queue;
  }

  lemma SameEvents(log: seq<Event>, queue: seq<Event>)
    requires queue != []
    ensures [queue[0]] + queue[1..] == queue && [] + queue == queue
    ensures log + [queue[0]] + queue[1..] == log + queue && log + [] + queue == log + queue
  {
  }

  lemma KeepsRecord(s: State)
    requires Good(s) && Enabled(s, Record)
    ensures Good(Apply(s, Record))
  {
    var t := Apply(s, Record);
    assert Undispatched(t) == Undispatched(s);
    assert Published(t) == Published(s);
  }

  lemma KeepsFinish(s: State)
    requires Good(s) && Enabled(s, Finish)
    ensures Good(Apply(s, Finish))
  {
    var t := Apply(s, Finish);
    assert Undispatched(t) == Undispatched(s)[1..];
    assert Published(t) == Published(s);
    if s.holder.Some? {
      EndsWhenDrained(s);
    }
  }

  /** The event finished with next is the open block's end exactly when it is the last
      one left and the block is complete. */
  lemma EndsWhenDrained(s: State)
    requires Good(s) && Undispatched(s) != [] && s.holder.Some?
    ensures Undispatched(s)[0].kind.TurnEnd? <==>
            s.calls[s.holder.value].published == 5 && |Undispatched(s)| == 1
  {
    QueueTail(s);
    var n := s.calls[s.holder.value].published;
    assert Undispatched(s)[0] == Block(s.holder.value)[n - |Undispatched(s)|];
  }

  lemma {:induction false} CalmRunsAreGood(s: State, steps: seq<Step>)
    requires Good(s) && Calm(s, steps)
    ensures Exec(s, steps).Some? && Good(Exec(s, steps).value)
    decreases |steps|
  {
    if steps != [] {
      StepKeepsGood(s, steps[0]);
      CalmRunsAreGood(Apply(s, steps[0]), steps[1..]);
    }
  }

  // ---- What a good state promises ----

  /** At most one call runs at a time; the counter is 0 or 1, and it is 1 exactly
      while a call runs whose whole block has not been dispatched yet. */
  lemma CounterIsExact(s: State)
    requires Good(s)
    ensures forall a, b :: IsRunning(s, a) && IsRunning(s, b) ==> a == b
    ensures s.active == 0 || s.active == 1
    ensures s.active == 1 <==>
              exists call :: IsRunning(s, call) && !(s.calls[call].published == 5 && Undispatched(s) == [])
  {
    if s.active == 1 {
      assert s.holder.Some? && IsRunning(s, s.holder.value);
    }
  }

  lemma GoodLogIsBracketed(s: State)
    requires Good(s)
    ensures WellBracketed(s.log)
  {
    assert s.log == Published(s)[..|s.log|];
    match s.holder
    case None =>
      assert Block(0)[..0] == [];
      assert Published(s) == Blocks(s.done) + Block(0)[..0];
      PrefixIsBracketed(s.done, 0, 0, |s.log|);
    case Some(call) =>
      PrefixIsBracketed(s.done, call, s.calls[call].published, |s.log|);
  }

  lemma {:induction false} PrefixIsBracketed(calls: seq<CallId>, call: CallId, n: nat, m: nat)
    requires n <= 5 && m <= |Blocks(calls)| + n
    ensures WellBracketed((Blocks(calls) + Block(call)[..n])[..m])
    decreases |calls|, n
  {
    var log := Blocks(calls) + Block(call)[..n];
    if m < |Blocks(calls)| {
      var init, last := calls[..|calls| - 1], calls[|calls| - 1];
      assert Block(last)[..5] == Block(last);
      PrefixIsBracketed(init, last, 5, m);
      assert log[..m] == Blocks(calls)[..m];
    } else {
      var k := m - |Blocks(calls)|;
      assert log[..m] == Blocks(calls) + Block(call)[..k];
      if k == 5 {
        var more := calls + [call];
        assert more[..|more| - 1] == calls && Block(call)[..5] == Block(call);
        assert log[..m] == Blocks(more) + Block(call)[..0];
      }
    }
  }

  /** Every run that only admits calls when nothing is left over keeps one call
      at a time and a well-bracketed log, and never drops an event. */
  lemma CalmRunsAreExclusive(steps: seq<Step>)
    requires Calm(Init, steps)
    ensures Exec(Init, steps).Some?
    ensures var t := Exec(Init, steps).value;
            && WellBracketed(t.log)
            && (forall a, b :: IsRunning(t, a) && IsRunning(t, b) ==> a == b)
            && 0 <= t.active <= 1 && |t.queue| <= 5
  {
    CalmRunsAreGood(Init, steps);
    var t := Exec(Init, steps).value;
    CounterIsExact(t);
    GoodLogIsBracketed(t);
  }

  // ---- The order of events ----

  lemma BracketedIsOrdered(log: seq<Event>)
    requires WellBracketed(log)
    ensures Ordered(log)
  {
    var calls, call, n: nat :| n < 5 && log == Blocks(calls) + Block(call)[..n];
    BlocksAreOrdered(calls, call, n);
  }

  lemma BlockIsOrdered(call: CallId, n: nat)
    requires n <= 5
    ensures Ordered(Block(call)[..n])
    ensures forall event <- Block(call)[..n] :: event.call == call
  {
  }

  lemma {:induction false} BlocksAreOrdered(calls: seq<CallId>, call: CallId, n: nat)
    requires n <= 5
    ensures Ordered(Blocks(calls) + Block(call)[..n])
    decreases |calls|
  {
    BlockIsOrdered(call, n);
    if calls == [] {
      assert Blocks(calls) + Block(call)[..n] == Block(call)[..n];
    } else {
      var init, last := calls[..|calls| - 1], calls[|calls| - 1];
      assert Block(last)[..5] == Block(last);
      BlocksAreOrdered(init, last, 5);
      OrderedJoins(Blocks(calls), Block(call)[..n]);
    }
  }

  lemma OrderedJoins(a: seq<Event>, b: seq<Event>)
    requires Ordered(a) && Ordered(b)
    requires a != [] && a[|a| - 1].kind.TurnEnd?
    ensures Ordered(a + b)
  {
    var all := a + b;
    forall i | 0 < i < |all| ensures Follows(all[i - 1], all[i]) {
      if i > |a| {
        assert all[i - 1] == b[i - 1 - |a|] && all[i] == b[i - |a|];
      }
    }
  }

  /** Over every run with calm admissions, what is published and what is logged follows
      the order of a command: a tool's result comes right after its request, the request
      after the user's message, the message after the start of the turn. */
  lemma CalmRunsAreOrdered(steps: seq<Step>)
    requires Calm(Init, steps)
    ensures Exec(Init, steps).Some?
    ensures Ordered(Exec(Init, steps).value.log) && Ordered(Published(Exec(Init, steps).value))
  {
    CalmRunsAreGood(Init, steps);
    var t := Exec(Init, steps).value;
    GoodLogIsBracketed(t);
    BracketedIsOrdered(t.log);
    match t.holder
    case None =>
      assert Block(0)[..0] == [];
      assert Published(t) == Blocks(t.done) + Block(0)[..0];
      BlocksAreOrdered(t.done, 0, 0);
    case Some(call) =>
      BlocksAreOrdered(t.done, call, t.calls[call].published);
  }

  // ---- One admission at a time: when does the counter protect it? ----

  predicate StillPublishing(s: State, call: CallId) {
    IsRunning(s, call) && s.calls[call].published < 5
  }

  /** However the run goes on, nobody else is admitted while the call still has
      events to publish. */
  ghost predicate Protected(s: State, call: CallId)
    requires Enabled(s, Enter(call))
  {
    forall steps :: var r := Exec(Apply(s, Enter(call)), steps);
                    r.Some? && StillPublishing(r.value, call) ==> !Admits(r.value)
  }

  /** The counter protects an admitted call if and only if nothing of an earlier
      call was left over when it was admitted. */
  lemma ProtectedIffQuiescent(s: State, call: CallId)
    requires Good(s) && Enabled(s, Enter(call)) && Admits(s)
    ensures Protected(s, call) <==> Quiescent(s)
  {
    QuiescentIsDrained(s);
    var entered := Apply(s, Enter(call));
    if Quiescent(s) {
      KeepsEnter(s, call);
      forall steps | Exec(entered, steps).Some? && StillPublishing(Exec(entered, steps).value, call)
        ensures !Admits(Exec(entered, steps).value)
      {
        HolderStays(entered, call, steps);
      }
    } else {
      var steps := StealingRun(s, call);
      assert StillPublishing(Exec(entered, steps).value, call);
    }
  }

  lemma {:induction false} HolderStays(s: State, call: CallId, steps: seq<Step>)
    requires Good(s) && s.holder == Some(call) && Exec(s, steps).Some?
    requires StillPublishing(Exec(s, steps).value, call)
    ensures !Admits(Exec(s, steps).value)
    decreases |steps|
  {
    if steps != [] {
      var step := steps[0];
      var t := Apply(s, step);
      if StillPublishing(t, call) {
        assert StillPublishing(s, call) && !Admits(s);
        StepKeepsGood(s, step);
        HolderStays(t, call, steps[1..]);
      } else {
        NeverAgain(t, call, steps[1..]);
      }
    }
  }

  /** A call that has published its block, or left, does not publish again. */
  lemma {:induction false} NeverAgain(s: State, call: CallId, steps: seq<Step>)
    requires call in s.calls && !StillPublishing(s, call) && Exec(s, steps).Some?
    ensures !StillPublishing(Exec(s, steps).value, call)
    decreases |steps|
  {
    if steps != [] {
      NeverAgain(Apply(s, steps[0]), call, steps[1..]);
    }
  }

  /** Where the left-over release comes from: the earlier call itself, or its turn
      end, still in the channel or in the fan-out's hands. */
  lemma StealingRun(s: State, call: CallId) returns (steps: seq<Step>)
    requires Good(s) && Enabled(s, Enter(call)) && Admits(s) && !Quiescent(s)
    ensures var r := Exec(Apply(s, Enter(call)), steps);
            r.Some? && Admits(r.value) && call in r.value.calls && r.value.calls[call] == Running(0)
  {
    QuiescentIsDrained(s);
    if s.holder.Some? {
      steps := [Release(s.holder.value)];
      StealByRelease(s, call);
    } else {
      QueueTail(s);
      var t := Apply(s, Enter(call));
      OnlyLastEndsTurn(s);
      steps := DrainAll(t);
    }
  }

  lemma OnlyLastEndsTurn(s: State)
    requires exists last, n :: 0 <= n < 5 && Undispatched(s) == Block(last)[n..]
    ensures EndIsLast(Undispatched(s))
  {
    var last, n :| 0 <= n < 5 && Undispatched(s) == Block(last)[n..];
    TailEndsTurn(last, n);
  }

  lemma TailEndsTurn(call: CallId, n: nat)
    requires n < 5
    ensures EndIsLast(Block(call)[n..])
  {
    var tail := Block(call)[n..];
    assert forall k :: 0 <= k < 5 - n ==> tail[k] == Block(call)[n + k];
  }

  predicate EndIsLast(events: seq<Event>) {
    events != [] && forall k :: 0 <= k < |events| ==> (events[k].kind.TurnEnd? <==> k == |events| - 1)
  }

  lemma StealByRelease(s: State, call: CallId)
    requires Good(s) && Enabled(s, Enter(call)) && Admits(s) && s.holder.Some?
    ensures var r := Exec(Apply(s, Enter(call)), [Release(s.holder.value)]);
            r.Some? && Admits(r.value) && call in r.value.calls && r.value.calls[call] == Running(0)
  {
    var t := Apply(s, Enter(call));
    var u := Apply(t, Release(s.holder.value));
    assert u.active == 0 && u.calls[call] == Running(0);
    assert Exec(t, [Release(s.holder.value)]) == Exec(u, []);
  }

  /** Dispatching everything that is left, up to and including one turn end. */
  lemma {:induction false} DrainAll(s: State) returns (steps: seq<Step>)
    requires s.active == 1 && EndIsLast(Undispatched(s))
    ensures Exec(s, steps).Some? && Exec(s, steps).value.active == 0
    ensures Exec(s, steps).value.calls == s.calls
    decreases StepsLeft(s)
  {
    var step := if s.taken.None? then Take else if s.taken.value.logged then Finish else Record;
    var t := Apply(s, step);
    if step.Finish? && s.queue == [] {
      steps := [Finish];
      assert Undispatched(s)[0] == s.taken.value.event;
      ExecOne(s, Finish);
    } else {
      DispatchAdvances(s, step);
      var rest := DrainAll(t);
      steps := [step] + rest;
      assert steps[1..] == rest;
    }
  }

  /** How many steps the fan-out has left for what is published. */
  function StepsLeft(s: State): nat {
    3 * |s.queue| + if s.taken.None? then 0 else if s.taken.value.logged then 1 else 2
  }

  lemma DispatchAdvances(s: State, step: Step)
    requires s.active == 1 && EndIsLast(Undispatched(s)) && Enabled(s, step)
    requires step.Take? || step.Record? || (step.Finish? && s.queue != [])
    ensures var t := Apply(s, step); t.active == 1 && EndIsLast(Undispatched(t)) && t.calls == s.calls
    ensures StepsLeft(Apply(s, step)) < StepsLeft(s)
  {
    var t := Apply(s, step);
    if step.Finish? {
      assert Undispatched(s)[1..] == Undispatched(t);
      assert Undispatched(s)[0] == s.taken.value.event && !Undispatched(s)[0].kind.TurnEnd?;
    } else {
      assert Undispatched(t) == Undispatched(s);
    }
  }

  // ---- A run in which two calls overlap ----

  lemma {:induction false} ExecJoins(s: State, a: seq<Step>, b: seq<Step>)
    requires Exec(s, a).Some?
    ensures Exec(s, a + b) == Exec(Exec(s, a).value, b)
    decreases |a|
  {
    if a == [] {
      assert a + b == b;
    } else {
      ExecJoins(Apply(s, a[0]), a[1..], b);
      assert (a + b)[1..] == a[1..] + b;
    }
  }

  lemma ExecOne(s: State, step: Step)
    requires Enabled(s, step)
    ensures Exec(s, [step]) == Some(Apply(s, step))
  {
    assert Exec(s, [step]) == Exec(Apply(s, step), []);
  }

  /** A call that runs to its end before anything is dispatched. */
  lemma UndispatchedCall() returns (steps: seq<Step>)
    ensures Exec(Init, steps) == Some(State(0, Block(0), None, [], map[0 := Done], [0], None))
  {
    steps := [Enter(0)];
    ExecOne(Init, Enter(0));
    for n := 0 to 5
      invariant Exec(Init, steps) == Some(State(1, Block(0)[..n], None, [], map[0 := Running(n)], [], Some(0)))
    {
      var t := Exec(Init, steps).value;
      assert Block(0)[..n] + [Block(0)[n]] == Block(0)[..n + 1];
      assert map[0 := Running(n)][0 := Running(n + 1)] == map[0 := Running(n + 1)];
      ExecOne(t, PublishNext(0));
      ExecJoins(Init, steps, [PublishNext(0)]);
      steps := steps + [PublishNext(0)];
    }
    var t := Exec(Init, steps).value;
    assert Block(0)[..5] == Block(0);
    assert map[0 := Running(5)][0 := Done] == map[0 := Done] && t.done + [0] == [0];
    ExecOne(t, Release(0));
    ExecJoins(Init, steps, [Release(0)]);
    steps := steps + [Release(0)];
  }

  /** The first call is over, its block is logged, and its turn end is still in the
      fan-out's hands. */
  const Window := State(0, [], Some(Taken(Event(0, TurnEnd), true)), Block(0), map[0 := Done], [0], None)

  lemma WindowReached() returns (steps: seq<Step>)
    ensures Exec(Init, steps) == Some(Window)
  {
    steps := UndispatchedCall();
    var s := Exec(Init, steps).value;
    for n := 0 to 4
      invariant Exec(Init, steps) == Some(s.(queue := Block(0)[n..], log := Block(0)[..n]))
    {
      var t := Exec(Init, steps).value;
      var one := DispatchOne(t);
      ExecJoins(Init, steps, one);
      assert Block(0)[..n] + [Block(0)[n]] == Block(0)[..n + 1];
      steps := steps + one;
    }
    LastTaken(s.(queue := Block(0)[4..], log := Block(0)[..4]));
    ExecJoins(Init, steps, [Take, Record]);
    steps := steps + [Take, Record];
  }

  lemma LastTaken(t: State)
    requires t == State(0, Block(0)[4..], None, Block(0)[..4], map[0 := Done], [0], None)
    ensures Exec(t, [Take, Record]) == Some(Window)
  {
    TakeAndRecord(t);
    assert t.queue == [Event(0, TurnEnd)] && t.queue[1..] == [];
    assert t.log + [Event(0, TurnEnd)] == Block(0);
  }

  lemma TakeAndRecord(t: State)
    requires t.queue != [] && t.taken.None?
    ensures Exec(t, [Take, Record])
         == Some(t.(queue := t.queue[1..], taken := Some(Taken(t.queue[0], true)), log := t.log + [t.queue[0]]))
  {
    var u := Apply(t, Take);
    ExecOne(u, Record);
    assert [Take, Record][1..] == [Record];
  }

  /** An event that is no turn end, from the channel to the log. */
  lemma DispatchOne(t: State) returns (steps: seq<Step>)
    requires t.queue != [] && t.taken.None? && !t.queue[0].kind.TurnEnd?
    ensures Exec(t, steps) == Some(t.(queue := t.queue[1..], log := t.log + [t.queue[0]]))
  {
    TakeAndRecord(t);
    var u := Exec(t, [Take, Record]).value;
    ExecOne(u, Finish);
    ExecJoins(t, [Take, Record], [Finish]);
    steps := [Take, Record] + [Finish];
  }

  /** No call is running and the channel is empty when the second call is admitted, but
      the first call's turn end is still being dispatched. It releases the second call;
      the third gets in beside it and their events interleave in the log. */
  lemma OverlappingCalls() returns (before: seq<Step>, steps: seq<Step>)
    ensures Exec(Init, before) == Some(Window)
    ensures Exec(Init, before + steps).Some?
    ensures var t := Exec(Init, before + steps).value;
            && IsRunning(t, 1) && IsRunning(t, 2) && t.active == 1
            && !WellBracketed(t.log)
  {
    before := WindowReached();
    steps := OverlapFromWindow();
    ExecJoins(Init, before, steps);
  }

  /** The turn end releases the call admitted in the window, and another one enters. */
  lemma ThirdEnters() returns (t: State)
    ensures Exec(Window, [Enter(1), Finish, Enter(2)]) == Some(t)
    ensures t == State(1, [], None, Block(0), map[0 := Done, 1 := Running(0), 2 := Running(0)], [0], Some(2))
  {
    var s1 := Apply(Window, Enter(1));
    var s2 := Apply(s1, Finish);
    t := Apply(s2, Enter(2));
    ExecOne(Window, Enter(1));
    ExecOne(s1, Finish);
    ExecOne(s2, Enter(2));
    ExecJoins(Window, [Enter(1)], [Finish]);
    ExecJoins(Window, [Enter(1)] + [Finish], [Enter(2)]);
    assert [Enter(1)] + [Finish] + [Enter(2)] == [Enter(1), Finish, Enter(2)];
    assert t.calls == map[0 := Done, 1 := Running(0), 2 := Running(0)];
  }

  lemma OverlapFromWindow() returns (steps: seq<Step>)
    ensures Exec(Window, steps).Some?
    ensures var t := Exec(Window, steps).value;
            IsRunning(t, 1) && IsRunning(t, 2) && t.active == 1 && !WellBracketed(t.log)
  {
    var t := ThirdEnters();
    var t1 := Apply(t, PublishNext(1));
    var t2 := Apply(t1, PublishNext(2));
    ExecOne(t, PublishNext(1));
    ExecOne(t1, PublishNext(2));
    ExecJoins(t, [PublishNext(1)], [PublishNext(2)]);
    assert t2.queue == [Event(1, TurnStart), Event(2, TurnStart)];
    var first := DispatchOne(t2);
    var t3 := Exec(t2, first).value;
    var second := DispatchOne(t3);
    ExecJoins(t2, first, second);
    ExecJoins(t, [PublishNext(1)] + [PublishNext(2)], first + second);
    steps := [Enter(1), Finish, Enter(2)] + ([PublishNext(1)] + [PublishNext(2)] + (first + second));
    ExecJoins(Window, [Enter(1), Finish, Enter(2)], [PublishNext(1)] + [PublishNext(2)] + (first + second));
    var log := Exec(t3, second).value.log;
    assert log == Block(0) + [Event(1, TurnStart)] + [Event(2, TurnStart)];
    if WellBracketed(log) {
      BracketedNeighbours(log, 5);
    }
  }

  /** In a bracketed log only a turn end is followed by another call's event. */
  lemma BracketedNeighbours(log: seq<Event>, i: nat)
    requires WellBracketed(log) && i + 1 < |log| && !log[i].kind.TurnEnd?
    ensures log[i + 1].call == log[i].call
  {
    BracketedIsOrdered(log);
    assert Follows(log[i], log[i + 1]);
  }
}
