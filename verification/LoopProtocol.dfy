/**
 The LOOP.md protocol of a session: the document, its state record and its event
 log, and the operations that move it through draft, calibration, activation,
 update and deletion. A document is kept as its lines; only status lines are told
 apart. The checks on a document's sections, and what can be read out of its
 recorded calibration, are parameters.
*/
module LoopProtocol {
  import opened Options

  datatype Status = Draft | Running | Paused | Stopping | Completed | Blocked | Disabled

  /** A status value as written: in its canonical spelling, in another spelling
      that still names a status, or naming none. */
  datatype StatusText = Exact(status: Status) | Loose(named: Status, spelling: string) | Unknown(text: string)

  function Named(text: StatusText): Option<Status> {
    match text
    case Exact(status) => Some(status)
    case Loose(status, _) => Some(status)
    case Unknown(_) => None
  }

  datatype Line = StatusLine(value: StatusText) | Text(body: nat)

  type Doc = seq<Line>

  /** The document checks of the activation step. */
  datatype Rules = Rules(complete: Doc -> bool, maintainable: Doc -> bool, recordedPairs: Doc -> nat,
                         metadataAt: Doc -> nat, template: Doc)

  /** The draft template names its status first and passes the maintenance check. */
  ghost predicate RulesOk(rules: Rules) {
    ProtocolStatus(rules.template) == Some(Draft) && rules.maintainable(rules.template)
  }

  function FirstStatus(doc: Doc): Option<StatusText> {
    if doc == [] then None
    else if doc[0].StatusLine? then Some(doc[0].value)
    else FirstStatus(doc[1..])
  }

  function LastStatus(doc: Doc): Option<StatusText> {
    if doc == [] then None
    else if doc[|doc| - 1].StatusLine? then Some(doc[|doc| - 1].value)
    else LastStatus(doc[..|doc| - 1])
  }

  /** The status the document has: what its first status line names. */
  function ProtocolStatus(doc: Doc): Option<Status> {
    match FirstStatus(doc)
    case None => None
    case Some(text) => Named(text)
  }

  /** Rewrites the first status line, or adds one to the metadata. */
  function WithStatus(rules: Rules, doc: Doc, status: Status): (next: Doc)
    ensures ProtocolStatus(next) == Some(status)
  {
    if FirstStatus(doc).Some? then ReplaceStatus(doc, status)
    else
      var at := if rules.metadataAt(doc) <= |doc| then rules.metadataAt(doc) else |doc|;
      InsertedFirst(doc, at, Exact(status));
      doc[..at] + [StatusLine(Exact(status))] + doc[at..]
  }

  function ReplaceStatus(doc: Doc, status: Status): (next: Doc)
    requires FirstStatus(doc).Some?
    ensures FirstStatus(next) == Some(Exact(status)) && |next| == |doc|
  {
    if doc[0].StatusLine? then [StatusLine(Exact(status))] + doc[1..]
    else [doc[0]] + ReplaceStatus(doc[1..], status)
  }

  lemma {:induction false} InsertedFirst(doc: Doc, at: nat, text: StatusText)
    requires at <= |doc| && FirstStatus(doc).None?
    ensures FirstStatus(doc[..at] + [StatusLine(text)] + doc[at..]) == Some(text)
  {
    var all := doc[..at] + [StatusLine(text)] + doc[at..];
    if at > 0 {
      InsertedFirst(doc[1..], at - 1, text);
      assert all[1..] == doc[1..][..at - 1] + [StatusLine(text)] + doc[1..][at - 1..];
    }
  }

  // ---- The stored protocol ----

  datatype EventType = Init | Update | Activate | StatusChange | Question | Answer | Delete

  datatype Event = Event(seqNo: nat, kind: EventType)

  datatype State = State(status: Option<StatusText>, updates: nat, questions: nat, answers: nat,
                         eventCount: nat, lastEvent: Option<EventType>, needsFullFeed: bool)

  const NewState := State(None, 0, 0, 0, 0, None, false)

  datatype World = World(doc: Option<Doc>, state: Option<State>, events: seq<Event>)

  const Empty := World(None, None, [])

  datatype Outcome = Done | Rejected | Unchanged

  function Appended(events: seq<Event>, kind: EventType): seq<Event> {
    events + [Event(|events| + 1, kind)]
  }

  /** A state record read back for an update: a missing one, and one without a
      status, count as running. */
  function Normalized(state: Option<State>): State {
    var s := if state.Some? then state.value else NewState;
    if s.status.None? then s.(status := Some(Exact(Running))) else s
  }

  /** Appending one event and stamping the state with it. */
  function Recorded(w: World, kind: EventType, state: State): World {
    w.(events := Appended(w.events, kind),
       state := Some(state.(eventCount := |w.events| + 1, lastEvent := Some(kind))))
  }

  function QuestionRecorded(w: World): World {
    var s := Normalized(w.state);
    Recorded(w, Question, s.(questions := s.questions + 1))
  }

  function AnswerRecorded(w: World): World {
    var s := Normalized(w.state);
    Recorded(w, Answer, s.(answers := s.answers + 1))
  }

  function ActivationRecorded(w: World): World {
    var s := Normalized(w.state);
    Recorded(w, Activate, s.(status := Some(Exact(Running)), needsFullFeed := true, updates := s.updates + 1))
  }

  /** The server's own recording of an update or a deletion: a status passed along
      replaces the stored one, and no status at all counts as running. */
  function ServerRecorded(w: World, kind: EventType, status: Option<StatusText>): World {
    var s := if w.state.Some? then w.state.value else NewState;
    var s1 := if status.Some? then s.(status := status) else s;
    var s2 := if s1.status.None? then s1.(status := Some(Exact(Running))) else s1;
    var s3 := if kind.Update?
              then s2.(updates := s2.updates + 1,
                       needsFullFeed := s2.needsFullFeed || s2.status == Some(Exact(Running)))
              else s2;
    Recorded(w, kind, s3)
  }

  /** The status a summary reports: the state's if it has one, else the document's
      last status line as written. */
  function SummaryStatus(doc: Doc, state: Option<State>): Option<StatusText> {
    if state.Some? && state.value.status.Some? then state.value.status else LastStatus(doc)
  }

  predicate IsRunning(w: World) {
    w.doc.Some? && ProtocolStatus(w.doc.value) == Some(Running)
  }

  /** The readiness check: questions were asked, and each has an answer. */
  predicate Ready(w: World) {
    w.state.Some? && 0 < w.state.value.questions && 0 < w.state.value.answers
    && w.state.value.questions <= w.state.value.answers
  }

  predicate IsDraft(w: World) {
    w.state.Some? && w.state.value.status == Some(Exact(Draft))
  }

  // ---- The operations ----

  function Updated(rules: Rules, w: World, doc: Doc): (World, Outcome) {
    if doc == [] then (w, Rejected)
    else if ProtocolStatus(doc) == Some(Running) && !IsRunning(w) then (w, Rejected)
    else if !rules.maintainable(doc) then (w, Rejected)
    else
      (ServerRecorded(w.(doc := Some(doc)), Update, SummaryStatus(doc, w.state)), Done)
  }

  /** The document an activation would store. */
  function Prepared(rules: Rules, w: World, submitted: Doc): Option<Doc> {
    var doc := if submitted == [] || ProtocolStatus(submitted).None? then w.doc else Some(submitted);
    if doc.None? then None
    else match ProtocolStatus(doc.value)
         case Some(Draft) => Some(WithStatus(rules, doc.value, Running))
         case Some(Running) => doc
         case _ => None
  }

  function PairsRecorded(w: World, n: nat): World {
    if n == 0 then w else AnswerRecorded(QuestionRecorded(PairsRecorded(w, n - 1)))
  }

  function AnswersRecorded(w: World, n: nat): World {
    if n == 0 then w else AnswerRecorded(AnswersRecorded(w, n - 1))
  }

  /** Calibration answers written into the document stand in for events the state
      record missed, as long as it is a draft without answers. */
  function Repaired(rules: Rules, w: World, doc: Doc): World {
    if !IsDraft(w) || w.state.value.answers > 0 then w
    else
      var n := rules.recordedPairs(doc);
      if w.state.value.questions == 0 then PairsRecorded(w, n)
      else AnswersRecorded(w, if n < w.state.value.questions then n else w.state.value.questions)
  }

  function Drafted(rules: Rules, w: World): World {
    var t := w.(doc := Some(rules.template));
    var s := Normalized(t.state);
    Recorded(t, Init, s.(status := Some(Exact(Draft)), updates := s.updates + 1))
  }

  function Activated(rules: Rules, w: World, submitted: Doc): (World, Outcome) {
    if submitted == [] && w.doc.None? then (Drafted(rules, w), Done)
    else match Prepared(rules, w, submitted)
         case None => (w, Rejected)
         case Some(doc) =>
           if !rules.complete(doc) || !rules.maintainable(doc) then (w, Rejected)
           else
             var t := Repaired(rules, w, doc);
             if !Ready(t) then (t, Rejected)
             else (ActivationRecorded(t.(doc := Some(doc))), Done)
  }

  function Cleared(w: World): (World, Outcome) {
    if w.doc.None? && w.state.None? then (w, Unchanged)
    else (ServerRecorded(w.(doc := None), Delete, Some(Exact(Disabled))), Done)
  }

  /** A user message counts as an answer while a draft still has an open question. */
  function Answered(w: World): (World, Outcome) {
    if IsDraft(w) && 0 < w.state.value.questions && w.state.value.answers < w.state.value.questions
    then (AnswerRecorded(w), Done)
    else (w, Unchanged)
  }

  /** The chat client's activation of a calibrated draft. */
  function ActivatedIfReady(rules: Rules, w: World): (World, Outcome) {
    if !Ready(w) then (w, Rejected)
    else match Prepared(rules, w, [])
         case None => (w, Rejected)
         case Some(doc) =>
           if !rules.complete(doc) || !rules.maintainable(doc) then (w, Rejected)
           else (ActivationRecorded(w.(doc := Some(doc))), Done)
  }

  /** Leaving the running state: pausing, stopping, completing, blocking, disabling. */
  function StatusSet(rules: Rules, w: World, status: Status): (World, Outcome) {
    if status.Draft? || status.Running? || w.doc.None? then (w, Rejected)
    else
      var doc := WithStatus(rules, w.doc.value, status);
      if !rules.maintainable(doc) then (w, Rejected)
      else
        var t := w.(doc := Some(doc));
        var s := Normalized(t.state);
        (Recorded(t, StatusChange, s.(status := Some(Exact(status)), needsFullFeed := false, updates := s.updates + 1)),
         Done)
  }

  datatype Op =
    | OpUpdate(doc: Doc)
    | OpActivate(submitted: Doc)
    | OpDelete
    | OpQuestion
    | OpAnswer
    | OpActivateIfReady
    | OpStatus(status: Status)

  function Step(rules: Rules, w: World, op: Op): (World, Outcome) {
    match op
    case OpUpdate(doc) => Updated(rules, w, doc)
    case OpActivate(submitted) => Activated(rules, w, submitted)
    case OpDelete => Cleared(w)
    case OpQuestion => (QuestionRecorded(w), Done)
    case OpAnswer => Answered(w)
    case OpActivateIfReady => ActivatedIfReady(rules, w)
    case OpStatus(status) => StatusSet(rules, w, status)
  }

  function Run(rules: Rules, w: World, ops: seq<Op>): World
    decreases |ops|
  {
    if ops == [] then w else Run(rules, Step(rules, w, ops[0]).0, ops[1..])
  }

  // ---- The store, changed in place ----

  class LoopStore {
    const rules: Rules
    var doc: Option<Doc>
    var state: Option<State>
    var events: seq<Event>

    constructor (rules: Rules)
      ensures this.rules == rules && Contents() == Empty
    {
      this.rules, doc, state, events := rules, None, None, [];
    }

    function Contents(): World
      reads this
    {
      World(doc, state, events)
    }

    method AppendEvent(kind: EventType) returns (written: Event)
      modifies this`events
      ensures events == Appended(old(events), kind) && written == Event(|old(events)| + 1, kind)
    {
      written := Event(|events| + 1, kind);
      events := events + [written];
    }

    /** Stamps the state with an event and stores it. */
    method Stamp(s: State, written: Event)
      modifies this`state
      ensures state == Some(s.(eventCount := written.seqNo, lastEvent := Some(written.kind)))
    {
      state := Some(s.(eventCount := written.seqNo, lastEvent := Some(written.kind)));
    }

    method RecordServerEvent(kind: EventType, summaryState: Option<StatusText>, summary: Option<StatusText>)
      modifies this
      ensures Contents() == ServerRecorded(old(Contents()), kind, if summary.Some? then summary else summaryState)
    {
      var written := AppendEvent(kind);
      var s := if state.Some? then state.value else NewState;
      if summaryState.Some? {
        s := s.(status := summaryState);
      }
      if summary.Some? {
        s := s.(status := summary);
      }
      if s.status.None? {
        s := s.(status := Some(Exact(Running)));
      }
      if written.kind.Update? {
        s := s.(updates := s.updates + 1);
        if s.status == Some(Exact(Running)) {
          s := s.(needsFullFeed := true);
        }
      }
      Stamp(s, written);
    }

    method RecordQuestion()
      modifies this
      ensures Contents() == QuestionRecorded(old(Contents()))
    {
      var s := Normalized(state);
      var written := AppendEvent(Question);
      Stamp(s.(questions := s.questions + 1), written);
    }

    method RecordAnswer()
      modifies this
      ensures Contents() == AnswerRecorded(old(Contents()))
    {
      var s := Normalized(state);
      var written := AppendEvent(Answer);
      Stamp(s.(answers := s.answers + 1), written);
    }

    method RecordActivation()
      modifies this
      ensures Contents() == ActivationRecorded(old(Contents()))
    {
      var s := Normalized(state);
      var written := AppendEvent(Activate);
      Stamp(s.(status := Some(Exact(Running)), needsFullFeed := true, updates := s.updates + 1), written);
    }

    method RepairCalibration(protocol: Doc)
      modifies this
      ensures Contents() == Repaired(rules, old(Contents()), protocol)
    {
      if state.None? || state.value.status != Some(Exact(Draft)) || state.value.answers > 0 {
        return;
      }
      var n := rules.recordedPairs(protocol);
      var questions := state.value.questions;
      if questions == 0 {
        for i := 0 to n
          invariant Contents() == PairsRecorded(old(Contents()), i)
        {
          RecordQuestion();
          RecordAnswer();
        }
        return;
      }
      var i := 0;
      while i < questions && i < n
        invariant i <= questions && i <= n
        invariant Contents() == AnswersRecorded(old(Contents()), i)
      {
        RecordAnswer();
        i := i + 1;
      }
    }

    method WriteProtocol(protocol: Doc, activate: bool) returns (outcome: Outcome)
      modifies this
      ensures (Contents(), outcome) ==
              if activate then Activated(rules, old(Contents()), protocol)
              else Updated(rules, old(Contents()), protocol)
    {
      if activate && protocol == [] && doc.None? {
        doc := Some(rules.template);
        var s := Normalized(state);
        var written := AppendEvent(Init);
        Stamp(s.(status := Some(Exact(Draft)), updates := s.updates + 1), written);
        return Done;
      }
      if activate {
        var prepared := Prepared(rules, Contents(), protocol);
        if prepared.None? || !rules.complete(prepared.value) || !rules.maintainable(prepared.value) {
          return Rejected;
        }
        RepairCalibration(prepared.value);
        if !Ready(Contents()) {
          return Rejected;
        }
        doc := prepared;
        RecordActivation();
        return Done;
      }
      if protocol == [] {
        return Rejected;
      }
      if ProtocolStatus(protocol) == Some(Running) && !IsRunning(Contents()) {
        return Rejected;
      }
      if !rules.maintainable(protocol) {
        return Rejected;
      }
      doc := Some(protocol);
      var stored := if state.Some? then state.value.status else None;
      RecordServerEvent(Update, stored, SummaryStatus(protocol, state));
      return Done;
    }

    method Clear() returns (outcome: Outcome)
      modifies this
      ensures (Contents(), outcome) == Cleared(old(Contents()))
    {
      var removed := doc.Some?;
      doc := None;
      if !removed && state.None? {
        return Unchanged;
      }
      RecordServerEvent(Delete, Some(Exact(Disabled)), None);
      return Done;
    }

    /** A blank message is no answer. */
    method AnswerIfReady(blank: bool) returns (outcome: Outcome)
      modifies this
      ensures (Contents(), outcome) == if blank then (old(Contents()), Unchanged) else Answered(old(Contents()))
    {
      if blank {
        return Unchanged;
      }
      if state.None? || state.value.status != Some(Exact(Draft)) {
        return Unchanged;
      }
      if state.value.questions > 0 {
        if state.value.answers >= state.value.questions {
          return Unchanged;
        }
      } else {
        return Unchanged;
      }
      RecordAnswer();
      return Done;
    }

    method ActivateIfReady() returns (outcome: Outcome)
      modifies this
      ensures (Contents(), outcome) == ActivatedIfReady(rules, old(Contents()))
    {
      if !Ready(Contents()) {
        return Rejected;
      }
      var prepared := Prepared(rules, Contents(), []);
      if prepared.None? || !rules.complete(prepared.value) || !rules.maintainable(prepared.value) {
        return Rejected;
      }
      doc := prepared;
      RecordActivation();
      return Done;
    }
  }

  // ---- The event log and the state record agree ----

  function CountKind(events: seq<Event>, kinds: set<EventType>): nat {
    if events == [] then 0
    else CountKind(events[..|events| - 1], kinds) + (if events[|events| - 1].kind in kinds then 1 else 0)
  }

  const UpdateKinds := {Init, Update, Activate, StatusChange}

  /** Events are numbered from 1 without gaps; the state's counters are the counts
      of the events that raise them, its last event is the log's last, and there
      are never more answers than questions. */
  predicate Consistent(w: World) {
    && (forall i :: 0 <= i < |w.events| ==> w.events[i].seqNo == i + 1)
    && match w.state
       case None => w.events == [] && w.doc.None?
       case Some(state) =>
         && w.events != []
         && state.eventCount == |w.events| == w.events[|w.events| - 1].seqNo
         && state.lastEvent == Some(w.events[|w.events| - 1].kind)
         && state.updates == CountKind(w.events, UpdateKinds)
         && state.questions == CountKind(w.events, {Question})
         && state.answers == CountKind(w.events, {Answer})
         && state.answers <= state.questions
         && state.status.Some?
  }

  /** Everything Consistent asks of a world but the bound on answers. */
  predicate Counted(w: World) {
    && (forall i :: 0 <= i < |w.events| ==> w.events[i].seqNo == i + 1)
    && match w.state
       case None => w.events == []
       case Some(state) =>
         && w.events != []
         && state.eventCount == |w.events| == w.events[|w.events| - 1].seqNo
         && state.lastEvent == Some(w.events[|w.events| - 1].kind)
         && state.updates == CountKind(w.events, UpdateKinds)
         && state.questions == CountKind(w.events, {Question})
         && state.answers == CountKind(w.events, {Answer})
         && state.status.Some?
  }

  lemma CountAppended(events: seq<Event>, kind: EventType, kinds: set<EventType>)
    ensures CountKind(Appended(events, kind), kinds) == CountKind(events, kinds) + if kind in kinds then 1 else 0
  {
    assert Appended(events, kind)[..|events|] == events;
  }

  /** One recorded event keeps the books, if the counter it raises is raised. */
  lemma RecordedCounts(w: World, kind: EventType, state: State)
    requires Counted(w) && state.status.Some?
    requires var old' := if w.state.Some? then w.state.value else NewState;
             && state.updates == old'.updates + (if kind in UpdateKinds then 1 else 0)
             && state.questions == old'.questions + (if kind.Question? then 1 else 0)
             && state.answers == old'.answers + (if kind.Answer? then 1 else 0)
    ensures Counted(Recorded(w, kind, state))
  {
    CountAppended(w.events, kind, UpdateKinds);
    CountAppended(w.events, kind, {Question});
    CountAppended(w.events, kind, {Answer});
    if w.state.None? {
      assert CountKind([], UpdateKinds) == CountKind([], {Question}) == CountKind([], {Answer}) == 0;
    }
  }

  lemma QuestionCounts(w: World)
    requires Counted(w)
    ensures var t := QuestionRecorded(w);
            && Counted(t) && t.state.Some? && t.doc == w.doc
            && t.state.value.questions == Normalized(w.state).questions + 1
            && t.state.value.answers == Normalized(w.state).answers
  {
    var s := Normalized(w.state);
    RecordedCounts(w, Question, s.(questions := s.questions + 1));
  }

  lemma AnswerCounts(w: World)
    requires Counted(w)
    ensures var t := AnswerRecorded(w);
            && Counted(t) && t.state.Some? && t.doc == w.doc
            && t.state.value.questions == Normalized(w.state).questions
            && t.state.value.answers == Normalized(w.state).answers + 1
  {
    var s := Normalized(w.state);
    RecordedCounts(w, Answer, s.(answers := s.answers + 1));
  }

  lemma {:induction false} PairsCount(w: World, n: nat)
    requires Counted(w) && w.state.Some?
    ensures var t := PairsRecorded(w, n);
            && Counted(t) && t.state.Some? && t.doc == w.doc
            && t.state.value.questions == w.state.value.questions + n
            && t.state.value.answers == w.state.value.answers + n
  {
    if n > 0 {
      PairsCount(w, n - 1);
      var t := PairsRecorded(w, n - 1);
      QuestionCounts(t);
      AnswerCounts(QuestionRecorded(t));
    }
  }

  lemma {:induction false} AnswersCount(w: World, n: nat)
    requires Counted(w) && w.state.Some?
    ensures var t := AnswersRecorded(w, n);
            && Counted(t) && t.state.Some? && t.doc == w.doc
            && t.state.value.questions == w.state.value.questions
            && t.state.value.answers == w.state.value.answers + n
  {
    if n > 0 {
      AnswersCount(w, n - 1);
      AnswerCounts(AnswersRecorded(w, n - 1));
    }
  }

  /** Repair never answers more than was asked, and leaves the document alone. */
  lemma RepairKeeps(rules: Rules, w: World, doc: Doc)
    requires Consistent(w)
    ensures Consistent(Repaired(rules, w, doc)) && Repaired(rules, w, doc).doc == w.doc
  {
    if IsDraft(w) && w.state.value.answers == 0 {
      var n := rules.recordedPairs(doc);
      if w.state.value.questions == 0 {
        PairsCount(w, n);
      } else {
        AnswersCount(w, if n < w.state.value.questions then n else w.state.value.questions);
      }
    }
  }

  lemma StepKeepsConsistent(rules: Rules, w: World, op: Op)
    requires RulesOk(rules) && Consistent(w)
    ensures Consistent(Step(rules, w, op).0)
  {
    match op
    case OpUpdate(doc) =>
      UpdateKeeps(rules, w, doc);
    case OpActivate(submitted) =>
      ActivateKeeps(rules, w, submitted);
    case OpDelete =>
      DeleteKeeps(w);
    case OpQuestion =>
      QuestionKeeps(rules, w);
    case OpAnswer =>
      AnswerKeeps(rules, w);
    case OpActivateIfReady =>
      ActivateIfReadyKeeps(rules, w);
    case OpStatus(status) =>
      StatusKeeps(rules, w, status);
  }

  lemma DeleteKeeps(w: World)
    requires Consistent(w)
    ensures Consistent(Cleared(w).0)
  {
    ServerRecordKeeps(w.(doc := None), Delete, Some(Exact(Disabled)));
  }

  lemma QuestionKeeps(rules: Rules, w: World)
    requires Consistent(w)
    ensures Consistent(Step(rules, w, OpQuestion).0)
  {
    QuestionCounts(w);
  }

  lemma AnswerKeeps(rules: Rules, w: World)
    requires Consistent(w)
    ensures Consistent(Answered(w).0)
  {
    AnswerCounts(w);
  }

  lemma ActivateIfReadyKeeps(rules: Rules, w: World)
    requires Consistent(w)
    ensures Consistent(ActivatedIfReady(rules, w).0)
  {
    ActivationKeeps(w);
  }

  lemma StatusKeeps(rules: Rules, w: World, status: Status)
    requires Consistent(w)
    ensures Consistent(StatusSet(rules, w, status).0)
  {
    var s := Normalized(w.state);
    RecordedCounts(w, StatusChange,
                   s.(status := Some(Exact(status)), needsFullFeed := false, updates := s.updates + 1));
  }

  lemma ActivationKeeps(w: World)
    requires Consistent(w)
    ensures Consistent(ActivationRecorded(w))
  {
    var s := Normalized(w.state);
    RecordedCounts(w, Activate, s.(status := Some(Exact(Running)), needsFullFeed := true, updates := s.updates + 1));
  }

  lemma ServerRecordKeeps(w: World, kind: EventType, status: Option<StatusText>)
    requires Counted(w) && (w.state.Some? ==> w.state.value.answers <= w.state.value.questions)
    requires kind.Update? || kind.Delete?
    ensures Consistent(ServerRecorded(w, kind, status))
  {
    var t := ServerRecorded(w, kind, status);
    RecordedCounts(w, kind, t.state.value);
  }

  lemma UpdateKeeps(rules: Rules, w: World, doc: Doc)
    requires Consistent(w)
    ensures Consistent(Updated(rules, w, doc).0)
  {
    ServerRecordKeeps(w.(doc := Some(doc)), Update, SummaryStatus(doc, w.state));
  }

  lemma DraftedKeeps(rules: Rules, w: World)
    requires Consistent(w)
    ensures Consistent(Drafted(rules, w))
  {
    var s := Normalized(w.state);
    RecordedCounts(w.(doc := Some(rules.template)), Init, s.(status := Some(Exact(Draft)), updates := s.updates + 1));
  }

  lemma ActivateKeeps(rules: Rules, w: World, submitted: Doc)
    requires Consistent(w)
    ensures Consistent(Activated(rules, w, submitted).0)
  {
    if submitted == [] && w.doc.None? {
      DraftedKeeps(rules, w);
    } else if Prepared(rules, w, submitted).Some? {
      var doc := Prepared(rules, w, submitted).value;
      RepairKeeps(rules, w, doc);
      ActivationKeeps(Repaired(rules, w, doc));
    }
  }

  lemma {:induction false} RunKeepsConsistent(rules: Rules, w: World, ops: seq<Op>)
    requires RulesOk(rules) && Consistent(w)
    ensures Consistent(Run(rules, w, ops))
    decreases |ops|
  {
    if ops != [] {
      StepKeepsConsistent(rules, w, ops[0]);
      RunKeepsConsistent(rules, Step(rules, w, ops[0]).0, ops[1..]);
    }
  }

  // ---- Only a ready activation makes LOOP.md running ----

  /** The operation is an activation that went through, and the readiness check it
      passed saw a question asked and every question answered. */
  predicate ReadyActivation(rules: Rules, w: World, op: Op) {
    && Step(rules, w, op).1.Done?
    && match op
       case OpActivate(submitted) =>
         Prepared(rules, w, submitted).Some? && Ready(Repaired(rules, w, Prepared(rules, w, submitted).value))
       case OpActivateIfReady => Ready(w)
       case _ => false
  }

  /** A step that makes LOOP.md running is a ready activation, and conversely a
      ready activation leaves it running. */
  lemma OnlyActivationStarts(rules: Rules, w: World, op: Op)
    requires RulesOk(rules)
    ensures IsRunning(Step(rules, w, op).0) && !IsRunning(w) ==> ReadyActivation(rules, w, op)
    ensures ReadyActivation(rules, w, op) ==> IsRunning(Step(rules, w, op).0)
  {
    match op
    case OpUpdate(doc) =>
    case OpActivate(submitted) =>
      if Prepared(rules, w, submitted).Some? {
        RepairLeavesDoc(rules, w, Prepared(rules, w, submitted).value);
      }
    case OpDelete =>
    case OpQuestion =>
    case OpAnswer =>
    case OpActivateIfReady =>
    case OpStatus(status) =>
  }

  lemma RepairLeavesDoc(rules: Rules, w: World, doc: Doc)
    ensures Repaired(rules, w, doc).doc == w.doc
  {
    PairsLeaveDoc(w, rules.recordedPairs(doc));
    if IsDraft(w) {
      var n := rules.recordedPairs(doc);
      PairsLeaveDoc(w, if n < w.state.value.questions then n else w.state.value.questions);
    }
  }

  lemma {:induction false} PairsLeaveDoc(w: World, n: nat)
    ensures PairsRecorded(w, n).doc == AnswersRecorded(w, n).doc == w.doc
  {
    if n > 0 {
      PairsLeaveDoc(w, n - 1);
    }
  }

  /** Over any run from a stopped loop: if LOOP.md is running at the end, some step
      was a ready activation and it has been running ever since that step. */
  lemma {:induction false} RunningWasActivated(rules: Rules, w: World, ops: seq<Op>)
    requires RulesOk(rules) && !IsRunning(w) && IsRunning(Run(rules, w, ops))
    ensures exists i :: StartedAt(rules, w, ops, i)
    decreases |ops|
  {
    var n := |ops| - 1;
    RunSnoc(rules, w, ops);
    if IsRunning(Run(rules, w, ops[..n])) {
      RunningWasActivated(rules, w, ops[..n]);
      var i :| StartedAt(rules, w, ops[..n], i);
      StillRunning(rules, w, ops, i);
    } else {
      OnlyActivationStarts(rules, Run(rules, w, ops[..n]), ops[n]);
      RunsSince(rules, w, ops, n);
    }
  }

  /** Step i was a ready activation, and LOOP.md has been running ever since. */
  ghost predicate StartedAt(rules: Rules, w: World, ops: seq<Op>, i: nat) {
    && i < |ops| && ReadyActivation(rules, Run(rules, w, ops[..i]), ops[i])
    && forall j :: i < j <= |ops| ==> IsRunning(Run(rules, w, ops[..j]))
  }

  lemma RunsSince(rules: Rules, w: World, ops: seq<Op>, n: nat)
    requires n == |ops| - 1 && IsRunning(Run(rules, w, ops))
    requires ReadyActivation(rules, Run(rules, w, ops[..n]), ops[n])
    ensures StartedAt(rules, w, ops, n)
  {
    assert ops[..|ops|] == ops;
  }

  lemma StillRunning(rules: Rules, w: World, ops: seq<Op>, i: nat)
    requires ops != [] && StartedAt(rules, w, ops[..|ops| - 1], i) && IsRunning(Run(rules, w, ops))
    ensures StartedAt(rules, w, ops, i)
  {
    var n := |ops| - 1;
    assert ops[..n][..i] == ops[..i];
    forall j | i < j <= |ops|
      ensures IsRunning(Run(rules, w, ops[..j]))
    {
      if j <= n {
        assert ops[..n][..j] == ops[..j];
      } else {
        assert ops[..j] == ops;
      }
    }
  }

  lemma {:induction false} RunSnoc(rules: Rules, w: World, ops: seq<Op>)
    ensures ops == [] ==> Run(rules, w, ops) == w
    ensures ops != [] ==>
              Run(rules, w, ops) == Step(rules, Run(rules, w, ops[..|ops| - 1]), ops[|ops| - 1]).0
    decreases |ops|
  {
    if |ops| > 1 {
      RunSnoc(rules, Step(rules, w, ops[0]).0, ops[1..]);
      assert ops[1..][..|ops| - 2] == ops[..|ops| - 1][1..];
    } else if |ops| == 1 {
      assert ops[..0] == [];
      assert Run(rules, w, ops) == Run(rules, Step(rules, w, ops[0]).0, []);
    }
  }

  /** Deleting a loop that exists in any form disables it; the calibration counts
      stay, so a loop that was once ready is ready again when it is drafted anew. */
  lemma DeleteDisables(rules: Rules, w: World)
    requires w.doc.Some? || w.state.Some?
    ensures var t := Step(rules, w, OpDelete).0;
            && t.doc.None? && t.state.Some? && t.state.value.status == Some(Exact(Disabled))
            && (Ready(w) ==> Ready(Step(rules, t, OpActivate([])).0))
  {
  }

  // ---- The state record's own status ----

  predicate StateRunning(w: World) {
    w.state.Some? && w.state.value.status == Some(Exact(Running))
  }

  /** The state record can say running without any activation: exactly when an
      accepted update, the first thing a session does, carries a document whose
      last status line says running or that has no status line at all. LOOP.md
      itself is not running then. */
  lemma FreshUpdateStatus(rules: Rules, doc: Doc)
    requires Updated(rules, Empty, doc).1.Done?
    ensures var t := Updated(rules, Empty, doc).0;
            && !IsRunning(t)
            && (StateRunning(t) <==> LastStatus(doc).None? || LastStatus(doc) == Some(Exact(Running)))
  {
  }

  lemma FreshUpdateCanSayRunning(rules: Rules)
    requires rules.maintainable([Text(0)])
    ensures Updated(rules, Empty, [Text(0)]).1.Done?
    ensures StateRunning(Updated(rules, Empty, [Text(0)]).0) && !IsRunning(Updated(rules, Empty, [Text(0)]).0)
  {
    assert LastStatus([Text(0)]).None? by {
      assert [Text(0)][..0] == [];
    }
    assert FirstStatus([Text(0)]).None? by {
      assert [Text(0)][1..] == [];
    }
    FreshUpdateStatus(rules, [Text(0)]);
  }

  /** In every other step the state record turns running only through a ready
      activation, or through a calibration question put before anything exists. */
  lemma StateTurnsRunning(rules: Rules, w: World, op: Op)
    requires RulesOk(rules) && Consistent(w) && !StateRunning(w) && StateRunning(Step(rules, w, op).0)
    ensures ReadyActivation(rules, w, op) || (w.state.None? && (op.OpUpdate? || op.OpQuestion?))
  {
    match op
    case OpActivate(submitted) =>
      if submitted != [] || w.doc.Some? {
        RepairLeavesStatus(rules, w, Prepared(rules, w, submitted).value);
      }
    case _ =>
  }

  lemma RepairLeavesStatus(rules: Rules, w: World, doc: Doc)
    requires Consistent(w) && !StateRunning(w)
    ensures !StateRunning(Repaired(rules, w, doc))
  {
    if IsDraft(w) {
      var n := rules.recordedPairs(doc);
      DraftStays(w, n);
      DraftStays(w, if n < w.state.value.questions then n else w.state.value.questions);
    }
  }

  lemma {:induction false} DraftStays(w: World, n: nat)
    requires IsDraft(w)
    ensures IsDraft(PairsRecorded(w, n)) && IsDraft(AnswersRecorded(w, n))
  {
    if n > 0 {
      DraftStays(w, n - 1);
    }
  }
}
