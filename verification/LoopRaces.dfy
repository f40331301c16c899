/**
 Loop requests taken apart. No lock is held over a request: an update is checked, then
 written, and the document, the event log and the state record are read and written one
 after the other. This module interleaves those steps and tells when the promises made
 for whole requests survive.
*/
module LoopRaces {
  import opened Options
  import opened LoopProtocol

  type CallId = nat

  /** What a request has read or done so far of its recording: the number it took from
      the event count, whether its event is in the log, and the state record it read. */
  datatype Progress = Progress(number: Option<nat>, logged: bool, loaded: Option<Option<State>>)

  const Unstarted := Progress(None, false, None)

  /** A request has been checked and is about to write its document, or has changed the
      document and is recording that. */
  datatype Stage =
    | Writing(doc: Doc, activates: bool)
    | Recording(kind: EventType, status: Option<StatusText>, progress: Progress)

  /** `stored` records history: how many requests have written the state record. */
  datatype Machine = Machine(world: World, calls: map<CallId, Stage>, stored: nat)

  datatype Step =
    | CheckUpdate(call: CallId, doc: Doc)
    | CheckActivation(call: CallId, doc: Doc)
    | Write(call: CallId)
    | Remove(call: CallId)
    | Ask(call: CallId)
    | Reply(call: CallId)
    | Number(call: CallId)
    | Log(call: CallId)
    | Load(call: CallId)
    | Store(call: CallId)

  /** Documents that fail the maintenance check go no further and are not considered. */
  predicate Enabled(m: Machine, step: Step) {
    match step
    case CheckUpdate(call, doc) =>
      call !in m.calls && doc != [] && (ProtocolStatus(doc) == Some(Running) ==> IsRunning(m.world))
    case CheckActivation(call, doc) =>
      call !in m.calls && ProtocolStatus(doc) == Some(Running) && Ready(m.world)
    case Write(call) => call in m.calls && m.calls[call].Writing?
    case Remove(call) => call !in m.calls && (m.world.doc.Some? || m.world.state.Some?)
    case Ask(call) => call !in m.calls
    case Reply(call) => call !in m.calls
    case Number(call) => IsRecording(m, call) && ProgressOf(m, call).number.None?
    case Log(call) => IsRecording(m, call) && ProgressOf(m, call).number.Some? && !ProgressOf(m, call).logged
    case Load(call) => IsRecording(m, call) && ProgressOf(m, call).loaded.None? && LoadsNow(m.calls[call])
    case Store(call) => IsRecording(m, call) && ProgressOf(m, call).logged && ProgressOf(m, call).loaded.Some?
  }

  predicate IsRecording(m: Machine, call: CallId) {
    call in m.calls && m.calls[call].Recording?
  }

  function ProgressOf(m: Machine, call: CallId): Progress
    requires IsRecording(m, call)
  {
    m.calls[call].progress
  }

  /** The server reads the state record after its event is logged, the other recorders
      before they take a number. */
  predicate LoadsNow(stage: Stage)
    requires stage.Recording?
  {
    if stage.kind.Update? || stage.kind.Delete? then stage.progress.logged else stage.progress.number.None?
  }

  /** The record a request writes: what it read, changed for its kind and stamped with
      its number. */
  function Stamped(kind: EventType, status: Option<StatusText>, loaded: Option<State>, number: nat): State {
    var w := World(None, loaded, []);
    var next := match kind
                case Question => QuestionRecorded(w)
                case Answer => AnswerRecorded(w)
                case Activate => ActivationRecorded(w)
                case _ => ServerRecorded(w, kind, status);
    next.state.value.(eventCount := number)
  }

  function Advanced(m: Machine, call: CallId, progress: Progress): Machine
    requires IsRecording(m, call)
  {
    m.(calls := m.calls[call := m.calls[call].(progress := progress)])
  }

  function Started(m: Machine, call: CallId, kind: EventType, status: Option<StatusText>): Machine {
    m.(calls := m.calls[call := Recording(kind, status, Unstarted)])
  }

  function Next(m: Machine, step: Step): Machine {
    if !Enabled(m, step) then m
    else match step
      case CheckUpdate(call, doc) => m.(calls := m.calls[call := Writing(doc, false)])
      case CheckActivation(call, doc) => m.(calls := m.calls[call := Writing(doc, true)])
      case Write(call) =>
        var stage := m.calls[call];
        Started(m.(world := m.world.(doc := Some(stage.doc))), call,
                if stage.activates then Activate else Update, SummaryStatus(stage.doc, m.world.state))
      case Remove(call) =>
        Started(m.(world := m.world.(doc := None)), call, Delete, Some(Exact(Disabled)))
      case Ask(call) => Started(m, call, Question, None)
      case Reply(call) => Started(m, call, Answer, None)
      case Number(call) => Advanced(m, call, ProgressOf(m, call).(number := Some(|m.world.events| + 1)))
      case Log(call) =>
        var event := Event(ProgressOf(m, call).number.value, m.calls[call].kind);
        Advanced(m.(world := m.world.(events := m.world.events + [event])), call,
                 ProgressOf(m, call).(logged := true))
      case Load(call) => Advanced(m, call, ProgressOf(m, call).(loaded := Some(m.world.state)))
      case Store(call) =>
        var stage := m.calls[call];
        if stage.progress.number.None? then m
        else
          Machine(m.world.(state := Some(Stamped(stage.kind, stage.status, stage.progress.loaded.value,
                                                 stage.progress.number.value))),
                  m.calls - {call}, m.stored + 1)
  }

  /** Steps that are not enabled do nothing. */
  function Run(m: Machine, steps: seq<Step>): Machine {
    if steps == [] then m else Next(Run(m, steps[..|steps| - 1]), steps[|steps| - 1])
  }

  lemma RunOneMore(m: Machine, steps: seq<Step>, i: nat)
    requires i < |steps|
    ensures Run(m, steps[..i + 1]) == Next(Run(m, steps[..i]), steps[i])
  {
    assert steps[..i + 1][..i] == steps[..i];
  }

  // ---- Who makes LOOP.md running ----

  /** Step i writes the document of an activation. */
  predicate ActivatesAt(m: Machine, steps: seq<Step>, i: nat) {
    i < |steps| && ActivatingWrite(Run(m, steps[..i]), steps[i])
  }

  predicate ActivatingWrite(m: Machine, step: Step) {
    step.Write? && Enabled(m, step) && m.calls[step.call].activates
  }

  /** The step writes an update that says running while LOOP.md no longer is: the guard
      that was checked earlier does not hold any more. */
  predicate StaleWrite(m: Machine, step: Step) {
    step.Write? && Enabled(m, step) && !m.calls[step.call].activates
    && ProtocolStatus(m.calls[step.call].doc) == Some(Running) && !IsRunning(m.world)
  }

  ghost predicate RunningSince(m: Machine, steps: seq<Step>, i: nat, k: nat) {
    i < k <= |steps| && ActivatesAt(m, steps, i)
    && forall j :: i < j <= k ==> IsRunning(Run(m, steps[..j]).world)
  }

  /** After k steps LOOP.md is not running, or has been since an activating write. */
  ghost predicate Accounted(m: Machine, steps: seq<Step>, k: nat)
    requires k <= |steps|
  {
    IsRunning(Run(m, steps[..k]).world) ==> exists i :: RunningSince(m, steps, i, k)
  }

  /** Activating documents say running. */
  predicate ActivationsRun(m: Machine) {
    forall call <- m.calls :: m.calls[call].Writing? && m.calls[call].activates ==>
                                ProtocolStatus(m.calls[call].doc) == Some(Running)
  }

  lemma {:induction false} ActivationsStayRunning(m: Machine, steps: seq<Step>)
    requires ActivationsRun(m)
    ensures ActivationsRun(Run(m, steps))
  {
    if steps != [] {
      ActivationsStayRunning(m, steps[..|steps| - 1]);
    }
  }

  /** Only a write that is activating or stale makes LOOP.md running. */
  lemma OnlyWritesStart(m: Machine, step: Step)
    requires ActivationsRun(m)
    ensures !IsRunning(m.world) && IsRunning(Next(m, step).world) ==> ActivatingWrite(m, step) || StaleWrite(m, step)
    ensures ActivatingWrite(m, step) || StaleWrite(m, step) ==> IsRunning(Next(m, step).world)
  {
  }

  /** From a stopped loop, every running LOOP.md in a run goes back to an activation since
      which it has been running, if and only if no update is written after its guard has
      lapsed. */
  lemma RunningIsAccountedIff(m: Machine, steps: seq<Step>)
    requires ActivationsRun(m) && !IsRunning(m.world)
    ensures (forall k :: 0 <= k <= |steps| ==> Accounted(m, steps, k)) <==>
            (forall i :: 0 <= i < |steps| ==> !StaleWrite(Run(m, steps[..i]), steps[i]))
  {
    if forall i :: 0 <= i < |steps| ==> !StaleWrite(Run(m, steps[..i]), steps[i]) {
      forall k | 0 <= k <= |steps| ensures Accounted(m, steps, k) {
        FreshIsAccounted(m, steps, k);
      }
    }
    if i :| 0 <= i < |steps| && StaleWrite(Run(m, steps[..i]), steps[i]) {
      StaleIsNot(m, steps, i);
    }
  }

  lemma {:induction false} FreshIsAccounted(m: Machine, steps: seq<Step>, k: nat)
    requires ActivationsRun(m) && !IsRunning(m.world) && k <= |steps|
    requires forall i :: 0 <= i < |steps| ==> !StaleWrite(Run(m, steps[..i]), steps[i])
    ensures Accounted(m, steps, k)
  {
    if k > 0 && IsRunning(Run(m, steps[..k]).world) {
      FreshIsAccounted(m, steps, k - 1);
      if IsRunning(Run(m, steps[..k - 1]).world) {
        var i: nat :| RunningSince(m, steps, i, k - 1);
        StillSince(m, steps, i, k);
      } else {
        StartsHere(m, steps, k);
      }
    }
  }

  lemma StillSince(m: Machine, steps: seq<Step>, i: nat, k: nat)
    requires 0 < k <= |steps| && RunningSince(m, steps, i, k - 1) && IsRunning(Run(m, steps[..k]).world)
    ensures RunningSince(m, steps, i, k)
  {
  }

  lemma StartsHere(m: Machine, steps: seq<Step>, k: nat)
    requires 0 < k <= |steps| && ActivationsRun(m) && !StaleWrite(Run(m, steps[..k - 1]), steps[k - 1])
    requires !IsRunning(Run(m, steps[..k - 1]).world) && IsRunning(Run(m, steps[..k]).world)
    ensures RunningSince(m, steps, k - 1, k)
  {
    RunOneMore(m, steps, k - 1);
    ActivationsStayRunning(m, steps[..k - 1]);
    OnlyWritesStart(Run(m, steps[..k - 1]), steps[k - 1]);
  }

  lemma StaleIsNot(m: Machine, steps: seq<Step>, i: nat)
    requires ActivationsRun(m) && i < |steps| && StaleWrite(Run(m, steps[..i]), steps[i])
    ensures !Accounted(m, steps, i + 1)
  {
    RunOneMore(m, steps, i);
    ActivationsStayRunning(m, steps[..i]);
    OnlyWritesStart(Run(m, steps[..i]), steps[i]);
    var k := i + 1;
    forall j: nat ensures !RunningSince(m, steps, j, k) {
      NotSince(m, steps, j, i);
    }
  }

  lemma NotSince(m: Machine, steps: seq<Step>, j: nat, i: nat)
    requires i < |steps| && StaleWrite(Run(m, steps[..i]), steps[i])
    ensures !RunningSince(m, steps, j, i + 1)
  {
    assert !IsRunning(Run(m, steps[..i]).world);
    assert !ActivatesAt(m, steps, i);
  }

  /** An activating write had its readiness check. */
  lemma {:induction false} ActivationWasReady(m: Machine, steps: seq<Step>, call: CallId)
    requires m.calls == map[]
    requires var t := Run(m, steps); call in t.calls && t.calls[call].Writing? && t.calls[call].activates
    ensures exists c :: 0 <= c < |steps| && steps[c].CheckActivation? && steps[c].call == call
                        && Ready(Run(m, steps[..c]).world)
  {
    var n := |steps| - 1;
    var before := Run(m, steps[..n]);
    if steps[n].CheckActivation? && steps[n].call == call && Enabled(before, steps[n]) {
    } else {
      assert call in before.calls && before.calls[call] == Run(m, steps).calls[call];
      ActivationWasReady(m, steps[..n], call);
      var c :| 0 <= c < n && steps[..n][c].CheckActivation? && steps[..n][c].call == call
               && Ready(Run(m, steps[..n][..c]).world);
      assert steps[..n][..c] == steps[..c];
    }
  }

  /** Every write follows its own check at once, as when requests are served one by one. */
  ghost predicate WritesAtOnce(m: Machine, steps: seq<Step>) {
    forall i :: 0 <= i < |steps| && steps[i].Write? ==>
                  i > 0 && (steps[i - 1].CheckUpdate? || steps[i - 1].CheckActivation?)
                  && steps[i - 1].call == steps[i].call && Enabled(Run(m, steps[..i - 1]), steps[i - 1])
  }

  lemma WritesAtOnceAreFresh(m: Machine, steps: seq<Step>)
    requires ActivationsRun(m) && !IsRunning(m.world) && WritesAtOnce(m, steps)
    ensures forall k :: 0 <= k <= |steps| ==> Accounted(m, steps, k)
  {
    forall i | 0 <= i < |steps| ensures !StaleWrite(Run(m, steps[..i]), steps[i]) {
      if steps[i].Write? {
        RunOneMore(m, steps, i - 1);
      }
    }
    RunningIsAccountedIff(m, steps);
  }

  /** A deletion between the check and the write of an update brings a running LOOP.md
      back without any activation. */
  lemma DeleteInBetween(m: Machine, doc: Doc, update: CallId, deletion: CallId)
    requires IsRunning(m.world) && ProtocolStatus(doc) == Some(Running) && doc != []
    requires update !in m.calls && deletion !in m.calls && update != deletion
    ensures var steps := [CheckUpdate(update, doc), Remove(deletion), Write(update)];
            && !IsRunning(Run(m, steps[..2]).world)
            && StaleWrite(Run(m, steps[..2]), steps[2])
            && IsRunning(Run(m, steps[..3]).world)
  {
    var steps := [CheckUpdate(update, doc), Remove(deletion), Write(update)];
    RunOneMore(m, steps, 0);
    RunOneMore(m, steps, 1);
    RunOneMore(m, steps, 2);
    assert steps[..0] == [];
  }

  // ---- The event log and the state record ----

  predicate Numbered(events: seq<Event>) {
    forall i :: 0 <= i < |events| ==> events[i].seqNo == i + 1
  }

  /** The record accounts for exactly these events. */
  predicate Accounts(state: Option<State>, events: seq<Event>) {
    match state
    case None => events == []
    case Some(s) =>
      && events != [] && s.eventCount == |events| && s.lastEvent == Some(events[|events| - 1].kind)
      && s.updates == CountKind(events, UpdateKinds)
      && s.questions == CountKind(events, {Question})
      && s.answers == CountKind(events, {Answer})
  }

  /** A request past logging finds its event under its number. */
  predicate HasItsEvent(m: Machine, call: CallId)
    requires call in m.calls
  {
    var stage := m.calls[call];
    && (stage.Recording? ==> Recorded(stage.kind))
    && (stage.Recording? && stage.progress.logged ==>
      stage.progress.number.Some? && 0 < stage.progress.number.value <= |m.world.events|
      && m.world.events[stage.progress.number.value - 1].kind == stage.kind)
  }

  /** The kinds of events these requests record. */
  predicate Recorded(kind: EventType) {
    kind.Question? || kind.Answer? || kind.Activate? || kind.Update? || kind.Delete?
  }

  /** Events are numbered from 1 without gaps, every request's event is under its number,
      and the record accounts for the events of the requests that stored it. */
  ghost predicate Sound(m: Machine) {
    && Numbered(m.world.events)
    && (forall call <- m.calls :: HasItsEvent(m, call))
    && m.stored <= |m.world.events| && Accounts(m.world.state, m.world.events[..m.stored])
  }

  function Tallies(state: Option<State>): (nat, nat, nat) {
    if state.None? then (0, 0, 0) else (state.value.updates, state.value.questions, state.value.answers)
  }

  /** A request logs while its number is still the next one, and stores in the order of
      the log, over a record whose counters are those it read. */
  predicate Fine(m: Machine, step: Step) {
    Enabled(m, step) ==>
      match step
      case Log(call) => ProgressOf(m, call).number.value == |m.world.events| + 1
      case Store(call) =>
        && ProgressOf(m, call).number == Some(m.stored + 1)
        && Tallies(ProgressOf(m, call).loaded.value) == Tallies(m.world.state)
      case _ => true
  }

  lemma StampedTallies(kind: EventType, status: Option<StatusText>, loaded: Option<State>, number: nat)
    requires Recorded(kind)
    ensures var s, t := Stamped(kind, status, loaded, number), Tallies(loaded);
            && s.eventCount == number && s.lastEvent == Some(kind)
            && s.updates == t.0 + (if kind in UpdateKinds then 1 else 0)
            && s.questions == t.1 + (if kind == Question then 1 else 0)
            && s.answers == t.2 + (if kind == Answer then 1 else 0)
  {
  }

  // ---- One step ----

  lemma OneMoreCounted(events: seq<Event>, n: nat, kinds: set<EventType>)
    requires n < |events|
    ensures CountKind(events[..n + 1], kinds)
         == CountKind(events[..n], kinds) + if events[n].kind in kinds then 1 else 0
  {
    assert events[..n + 1][..n] == events[..n];
  }

  /** Storing the next event's record accounts for one event more exactly when it was
      made from the counters of the record in place. */
  lemma StoredNext(state: Option<State>, loaded: Option<State>, events: seq<Event>, n: nat,
                   kind: EventType, status: Option<StatusText>)
    requires n < |events| && events[n].kind == kind && Recorded(kind)
    requires Accounts(state, events[..n])
    ensures Accounts(Some(Stamped(kind, status, loaded, n + 1)), events[..n + 1]) <==> Tallies(loaded) == Tallies(state)
  {
    StampedTallies(kind, status, loaded, n + 1);
    OneMoreCounted(events, n, UpdateKinds);
    OneMoreCounted(events, n, {Question});
    OneMoreCounted(events, n, {Answer});
    TalliesCount(state, events[..n]);
  }

  lemma TalliesCount(state: Option<State>, events: seq<Event>)
    requires Accounts(state, events)
    ensures Tallies(state)
         == (CountKind(events, UpdateKinds), CountKind(events, {Question}), CountKind(events, {Answer}))
  {
  }

  /** A step keeps soundness exactly when it is fine. */
  lemma StepIsSoundIff(m: Machine, step: Step)
    requires Sound(m)
    ensures Sound(Next(m, step)) <==> Fine(m, step)
  {
    if Enabled(m, step) {
      match step {
        case Log(call) => LogIsSoundIff(m, call);
        case Store(call) => StoreIsSoundIff(m, call);
        case _ => OthersAreSound(m, step);
      }
    }
  }

  lemma OthersAreSound(m: Machine, step: Step)
    requires Sound(m) && Enabled(m, step) && !step.Log? && !step.Store?
    ensures Sound(Next(m, step))
  {
    var t := Next(m, step);
    assert t.world.events == m.world.events && t.stored == m.stored && t.world.state == m.world.state;
    forall call <- t.calls ensures HasItsEvent(t, call) {
      if call in m.calls {
        assert HasItsEvent(m, call);
      }
    }
  }

  lemma LogIsSoundIff(m: Machine, call: CallId)
    requires Sound(m) && Enabled(m, Log(call))
    ensures Sound(Next(m, Log(call))) <==> ProgressOf(m, call).number.value == |m.world.events| + 1
  {
    var t, n := Next(m, Log(call)), |m.world.events|;
    assert t.stored == m.stored <= n;
    assert t.world.events[..n] == m.world.events;
    assert t.world.events[n] == Event(ProgressOf(m, call).number.value, m.calls[call].kind);
    assert t.world.events[..t.stored] == m.world.events[..m.stored];
    if ProgressOf(m, call).number.value == n + 1 {
      forall other <- t.calls ensures HasItsEvent(t, other) {
        assert HasItsEvent(m, other);
      }
    }
  }

  lemma StoreIsSoundIff(m: Machine, call: CallId)
    requires Sound(m) && Enabled(m, Store(call))
    ensures Sound(Next(m, Store(call))) <==> Fine(m, Store(call))
  {
    var t, stage := Next(m, Store(call)), m.calls[call];
    assert HasItsEvent(m, call);
    var n, events := stage.progress.number.value, m.world.events;
    assert t.world.events == events && t.stored == m.stored + 1;
    StampedTallies(stage.kind, stage.status, stage.progress.loaded.value, n);
    forall other <- t.calls ensures HasItsEvent(t, other) {
      assert HasItsEvent(m, other);
    }
    if n == m.stored + 1 {
      StoredNext(m.world.state, stage.progress.loaded.value, events, m.stored, stage.kind, stage.status);
    } else if t.stored <= |events| {
      assert |events[..t.stored]| == t.stored;
    }
  }

  // ---- Whole runs ----

  /** From a sound start, everything stays sound throughout a run if and only if every
      step is fine. */
  lemma RunIsSoundIff(m: Machine, steps: seq<Step>)
    requires Sound(m)
    ensures (forall k :: 0 <= k <= |steps| ==> Sound(Run(m, steps[..k]))) <==>
            (forall i :: 0 <= i < |steps| ==> Fine(Run(m, steps[..i]), steps[i]))
  {
    if forall i :: 0 <= i < |steps| ==> Fine(Run(m, steps[..i]), steps[i]) {
      forall k | 0 <= k <= |steps| ensures Sound(Run(m, steps[..k])) {
        FineIsSound(m, steps, k);
      }
    }
    if forall k :: 0 <= k <= |steps| ==> Sound(Run(m, steps[..k])) {
      forall i | 0 <= i < |steps| ensures Fine(Run(m, steps[..i]), steps[i]) {
        RunOneMore(m, steps, i);
        StepIsSoundIff(Run(m, steps[..i]), steps[i]);
      }
    }
  }

  lemma {:induction false} FineIsSound(m: Machine, steps: seq<Step>, k: nat)
    requires Sound(m) && k <= |steps|
    requires forall i :: 0 <= i < |steps| ==> Fine(Run(m, steps[..i]), steps[i])
    ensures Sound(Run(m, steps[..k]))
  {
    if k > 0 {
      FineIsSound(m, steps, k - 1);
      RunOneMore(m, steps, k - 1);
      StepIsSoundIff(Run(m, steps[..k - 1]), steps[k - 1]);
    }
  }

  /** Two requests that count before either logs put one number on two events. */
  lemma SharedNumber(m: Machine, a: CallId, b: CallId, steps: seq<Step>)
    requires steps == [Number(a), Number(b), Log(a), Log(b)]
    requires a != b && Enabled(m, Number(a)) && Enabled(m, Number(b))
    requires !ProgressOf(m, a).logged && !ProgressOf(m, b).logged
    ensures var n := |m.world.events|;
            var events := Run(m, steps).world.events;
            |events| == n + 2 && events[n].seqNo == events[n + 1].seqNo == n + 1
  {
    BothNumbered(m, a, b);
    assert steps[..2] == [Number(a), Number(b)];
    RunOneMore(m, steps, 2);
    RunOneMore(m, steps, 3);
    assert steps[..4] == steps;
  }

  lemma BothNumbered(m: Machine, a: CallId, b: CallId)
    requires a != b && Enabled(m, Number(a)) && Enabled(m, Number(b))
    requires !ProgressOf(m, a).logged && !ProgressOf(m, b).logged
    ensures var t := Run(m, [Number(a), Number(b)]);
            && t.world == m.world && IsRecording(t, a) && IsRecording(t, b)
            && ProgressOf(t, a).number == ProgressOf(t, b).number == Some(|m.world.events| + 1)
            && !ProgressOf(t, a).logged && !ProgressOf(t, b).logged
  {
    var steps := [Number(a), Number(b)];
    RunOneMore(m, steps, 0);
    RunOneMore(m, steps, 1);
    assert steps[..0] == [] && steps[..2] == steps;
  }

  // ---- A request served alone is the whole request ----

  lemma {:induction false} RunJoins(m: Machine, a: seq<Step>, b: seq<Step>)
    ensures Run(m, a + b) == Run(Run(m, a), b)
  {
    if b == [] {
      assert a + b == a;
    } else {
      RunJoins(m, a, b[..|b| - 1]);
      assert (a + b)[..|a + b| - 1] == a + b[..|b| - 1];
    }
  }

  lemma RunsOne(m: Machine, step: Step)
    ensures Run(m, [step]) == Next(m, step)
  {
    assert [step][..0] == [];
  }

  /** The steps of a request that records an event, in its recorder's order. */
  function RecordingSteps(kind: EventType, call: CallId): seq<Step> {
    if kind.Update? || kind.Delete? then [Number(call), Log(call)] + ([Load(call)] + [Store(call)])
    else [Load(call)] + ([Number(call), Log(call)] + [Store(call)])
  }

  /** What recording does as a whole. */
  function RecordedWorld(w: World, kind: EventType, status: Option<StatusText>): World {
    match kind
    case Question => QuestionRecorded(w)
    case Answer => AnswerRecorded(w)
    case Activate => ActivationRecorded(w)
    case _ => ServerRecorded(w, kind, status)
  }

  /** A request about to record, and no other. */
  predicate OnlyRecording(t: Machine, call: CallId) {
    t.calls.Keys == {call} && t.calls[call].Recording? && Recorded(t.calls[call].kind)
  }

  /** The request has read `loaded`, and taken its number and logged its event if
      `logged` is set. */
  function Halfway(t: Machine, call: CallId, logged: bool, loaded: Option<Option<State>>): Machine
    requires IsRecording(t, call)
  {
    var n := |t.world.events| + 1;
    var progress := if logged then Progress(Some(n), true, loaded) else Progress(None, false, loaded);
    var world := if logged then t.world.(events := Appended(t.world.events, t.calls[call].kind)) else t.world;
    t.(world := world, calls := t.calls[call := t.calls[call].(progress := progress)])
  }

  lemma NumberedAndLogged(t: Machine, call: CallId, loaded: Option<Option<State>>)
    requires OnlyRecording(t, call)
    ensures Run(Halfway(t, call, false, loaded), [Number(call), Log(call)]) == Halfway(t, call, true, loaded)
  {
    var h := Halfway(t, call, false, loaded);
    RunsOne(h, Number(call));
    var numbered := Next(h, Number(call));
    assert ProgressOf(numbered, call) == Progress(Some(|t.world.events| + 1), false, loaded);
    RunsOne(numbered, Log(call));
    RunJoins(h, [Number(call)], [Log(call)]);
    assert [Number(call)] + [Log(call)] == [Number(call), Log(call)];
    assert Next(numbered, Log(call)).calls == Halfway(t, call, true, loaded).calls;
  }

  lemma Loaded(t: Machine, call: CallId, logged: bool)
    requires OnlyRecording(t, call)
    requires logged == (t.calls[call].kind.Update? || t.calls[call].kind.Delete?)
    ensures Run(Halfway(t, call, logged, None), [Load(call)]) == Halfway(t, call, logged, Some(t.world.state))
  {
    var h := Halfway(t, call, logged, None);
    RunsOne(h, Load(call));
    assert Next(h, Load(call)).calls == Halfway(t, call, logged, Some(t.world.state)).calls;
  }

  lemma Stored(t: Machine, call: CallId)
    requires OnlyRecording(t, call)
    ensures var kind, status := t.calls[call].kind, t.calls[call].status;
            Run(Halfway(t, call, true, Some(t.world.state)), [Store(call)])
            == Machine(RecordedWorld(t.world, kind, status), map[], t.stored + 1)
  {
    var h := Halfway(t, call, true, Some(t.world.state));
    RunsOne(h, Store(call));
    assert h.calls - {call} == map[];
    StampedWorld(t.world, t.calls[call].kind, t.calls[call].status);
  }

  lemma StampedWorld(w: World, kind: EventType, status: Option<StatusText>)
    requires Recorded(kind)
    ensures RecordedWorld(w, kind, status)
         == w.(events := Appended(w.events, kind), state := Some(Stamped(kind, status, w.state, |w.events| + 1)))
  {
  }

  /** Recording without anything in between is recording as a whole. */
  lemma RecordedAlone(t: Machine, call: CallId, kind: EventType)
    requires OnlyRecording(t, call) && ProgressOf(t, call) == Unstarted && kind == t.calls[call].kind
    ensures Run(t, RecordingSteps(kind, call))
         == Machine(RecordedWorld(t.world, kind, t.calls[call].status), map[], t.stored + 1)
  {
    assert Halfway(t, call, false, None) == t;
    Stored(t, call);
    if kind.Update? || kind.Delete? {
      NumberedAndLogged(t, call, None);
      Loaded(t, call, true);
      RunJoins(Halfway(t, call, true, None), [Load(call)], [Store(call)]);
      RunJoins(t, [Number(call), Log(call)], [Load(call)] + [Store(call)]);
    } else {
      Loaded(t, call, false);
      NumberedAndLogged(t, call, Some(t.world.state));
      RunJoins(Halfway(t, call, false, Some(t.world.state)), [Number(call), Log(call)], [Store(call)]);
      RunJoins(t, [Load(call)], [Number(call), Log(call)] + [Store(call)]);
    }
  }

  /** A request's first steps, then its recording. */
  lemma ServedAlone(m: Machine, first: seq<Step>, call: CallId, kind: EventType, status: Option<StatusText>, w: World)
    requires Recorded(kind)
    requires Run(m, first) == Machine(w, map[call := Recording(kind, status, Unstarted)], m.stored)
    ensures Run(m, first + RecordingSteps(kind, call)) == Machine(RecordedWorld(w, kind, status), map[], m.stored + 1)
  {
    RunJoins(m, first, RecordingSteps(kind, call));
    RecordingStarted(Machine(w, map[call := Recording(kind, status, Unstarted)], m.stored), call, kind, status, w);
  }

  lemma RecordingStarted(t: Machine, call: CallId, kind: EventType, status: Option<StatusText>, w: World)
    requires Recorded(kind) && t == Machine(w, map[call := Recording(kind, status, Unstarted)], t.stored)
    ensures Run(t, RecordingSteps(kind, call)) == Machine(RecordedWorld(w, kind, status), map[], t.stored + 1)
  {
    assert t.calls[call] == Recording(kind, status, Unstarted);
    RecordedAlone(t, call, kind);
  }

  function Idle(w: World): Machine {
    Machine(w, map[], |w.events|)
  }

  /** A check that passes, and its write. */
  lemma CheckedAndWritten(w: World, check: Step, call: CallId, doc: Doc, activates: bool)
    requires check == if activates then CheckActivation(call, doc) else CheckUpdate(call, doc)
    requires Enabled(Idle(w), check)
    ensures var kind := if activates then Activate else Update;
            Run(Idle(w), [check] + [Write(call)])
            == Machine(w.(doc := Some(doc)), map[call := Recording(kind, SummaryStatus(doc, w.state), Unstarted)],
                       |w.events|)
  {
    RunJoins(Idle(w), [check], [Write(call)]);
    RunsOne(Idle(w), check);
    var checked := Next(Idle(w), check);
    assert checked == Machine(w, map[call := Writing(doc, activates)], |w.events|);
    RunsOne(checked, Write(call));
    assert Next(checked, Write(call)).calls.Keys == {call};
  }

  /** Without anything in between, an update's steps have the effect of the update. */
  lemma UpdateAlone(rules: Rules, w: World, doc: Doc, call: CallId)
    requires Updated(rules, w, doc).1.Done?
    ensures Run(Idle(w), [CheckUpdate(call, doc)] + [Write(call)] + RecordingSteps(Update, call))
         == Machine(Updated(rules, w, doc).0, map[], |w.events| + 1)
  {
    CheckedAndWritten(w, CheckUpdate(call, doc), call, doc, false);
    ServedAlone(Idle(w), [CheckUpdate(call, doc)] + [Write(call)], call, Update, SummaryStatus(doc, w.state),
                w.(doc := Some(doc)));
  }

  /** A client activation's steps have the effect of that activation. */
  lemma ActivationAlone(rules: Rules, w: World, doc: Doc, call: CallId)
    requires ActivatedIfReady(rules, w).1.Done? && Prepared(rules, w, []) == Some(doc)
    ensures Run(Idle(w), [CheckActivation(call, doc)] + [Write(call)] + RecordingSteps(Activate, call))
         == Machine(ActivatedIfReady(rules, w).0, map[], |w.events| + 1)
  {
    ReadyActivationAlone(w, doc, call);
  }

  /** A server activation's have it too, once the calibration record is repaired. */
  lemma ServerActivationAlone(rules: Rules, w: World, submitted: Doc, doc: Doc, call: CallId)
    requires !(submitted == [] && w.doc.None?)
    requires Activated(rules, w, submitted).1.Done? && Prepared(rules, w, submitted) == Some(doc)
    ensures var t := Repaired(rules, w, doc);
            Run(Idle(t), [CheckActivation(call, doc)] + [Write(call)] + RecordingSteps(Activate, call))
            == Machine(Activated(rules, w, submitted).0, map[], |t.events| + 1)
  {
    ReadyActivationAlone(Repaired(rules, w, doc), doc, call);
  }

  lemma ReadyActivationAlone(w: World, doc: Doc, call: CallId)
    requires Ready(w) && ProtocolStatus(doc) == Some(Running)
    ensures Run(Idle(w), [CheckActivation(call, doc)] + [Write(call)] + RecordingSteps(Activate, call))
         == Machine(ActivationRecorded(w.(doc := Some(doc))), map[], |w.events| + 1)
  {
    CheckedAndWritten(w, CheckActivation(call, doc), call, doc, true);
    ServedAlone(Idle(w), [CheckActivation(call, doc)] + [Write(call)], call, Activate, SummaryStatus(doc, w.state),
                w.(doc := Some(doc)));
  }

  /** A deletion's steps have the effect of the deletion. */
  lemma DeleteAlone(w: World, call: CallId)
    requires Cleared(w).1.Done?
    ensures Run(Idle(w), [Remove(call)] + RecordingSteps(Delete, call))
         == Machine(Cleared(w).0, map[], |w.events| + 1)
  {
    RunsOne(Idle(w), Remove(call));
    ServedAlone(Idle(w), [Remove(call)], call, Delete, Some(Exact(Disabled)), w.(doc := None));
  }

  /** A question's steps have the effect of the question, an answer's of the answer. */
  lemma QuestionAlone(w: World, call: CallId)
    ensures Run(Idle(w), [Ask(call)] + RecordingSteps(Question, call))
         == Machine(QuestionRecorded(w), map[], |w.events| + 1)
  {
    RunsOne(Idle(w), Ask(call));
    ServedAlone(Idle(w), [Ask(call)], call, Question, None, w);
  }

  lemma AnswerAlone(w: World, call: CallId)
    requires Answered(w).1.Done?
    ensures Run(Idle(w), [Reply(call)] + RecordingSteps(Answer, call))
         == Machine(Answered(w).0, map[], |w.events| + 1)
  {
    RunsOne(Idle(w), Reply(call));
    ServedAlone(Idle(w), [Reply(call)], call, Answer, None, w);
  }
}
