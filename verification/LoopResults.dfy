/**
 What a loop request does, told from the request and the documents before and after it:
 which requests are accepted, what document they leave, and what they record.
*/
module LoopResults {
  import opened Options
  import opened LoopProtocol

  // ---- Documents ----

  predicate FirstStatusAt(doc: Doc, i: nat) {
    i < |doc| && doc[i].StatusLine? && forall j :: 0 <= j < i ==> !doc[j].StatusLine?
  }

  predicate Names(text: StatusText, status: Status) {
    text == Exact(status) || (text.Loose? && text.named == status)
  }

  /** The first status line names this status. */
  ghost predicate Says(doc: Doc, status: Status) {
    exists i: nat :: FirstStatusAt(doc, i) && Names(doc[i].value, status)
  }

  ghost predicate SaysNothing(doc: Doc) {
    forall status :: !Says(doc, status)
  }

  /** Only the first status line differs, and it has this text now. */
  ghost predicate Restated(doc: Doc, next: Doc, status: Status) {
    exists i: nat :: FirstStatusAt(doc, i) && next == doc[i := StatusLine(Exact(status))]
  }

  /** What an activation makes of the document it takes. */
  ghost predicate Started(doc: Doc, next: Doc) {
    if Says(doc, Running) then next == doc else Says(doc, Draft) && Restated(doc, next, Running)
  }

  /** The document an activation takes: the submitted one, or the saved one where the
      submitted one names no status. */
  ghost function Taken(w: World, submitted: Doc): Option<Doc> {
    if SaysNothing(submitted) then w.doc else Some(submitted)
  }

  lemma {:induction false} FirstStatusIs(doc: Doc, i: nat)
    requires FirstStatusAt(doc, i)
    ensures FirstStatus(doc) == Some(doc[i].value)
  {
    if i > 0 {
      FirstStatusIs(doc[1..], i - 1);
    }
  }

  lemma {:induction false} FirstStatusFound(doc: Doc)
    requires FirstStatus(doc).Some?
    ensures exists i: nat :: FirstStatusAt(doc, i)
  {
    if doc[0].StatusLine? {
      assert FirstStatusAt(doc, 0);
    } else {
      FirstStatusFound(doc[1..]);
      var i: nat :| FirstStatusAt(doc[1..], i);
      assert FirstStatusAt(doc, i + 1);
    }
  }

  lemma SaysIff(doc: Doc, status: Status)
    ensures ProtocolStatus(doc) == Some(status) <==> Says(doc, status)
  {
    if FirstStatus(doc).Some? {
      FirstStatusFound(doc);
      var i: nat :| FirstStatusAt(doc, i);
      FirstStatusIs(doc, i);
    }
    if Says(doc, status) {
      var i: nat :| FirstStatusAt(doc, i) && Names(doc[i].value, status);
      FirstStatusIs(doc, i);
    }
  }

  lemma SaysNothingIff(doc: Doc)
    ensures ProtocolStatus(doc).None? <==> SaysNothing(doc)
  {
    forall status ensures ProtocolStatus(doc) == Some(status) <==> Says(doc, status) {
      SaysIff(doc, status);
    }
    if ProtocolStatus(doc).Some? {
      assert Says(doc, ProtocolStatus(doc).value);
    }
  }

  lemma {:induction false} ReplacedAt(doc: Doc, status: Status, i: nat)
    requires FirstStatusAt(doc, i) && FirstStatus(doc).Some?
    ensures ReplaceStatus(doc, status) == doc[i := StatusLine(Exact(status))]
  {
    if i > 0 {
      ReplacedAt(doc[1..], status, i - 1);
    }
  }

  lemma RestatedIff(rules: Rules, doc: Doc, next: Doc, status: Status)
    requires FirstStatus(doc).Some?
    ensures next == WithStatus(rules, doc, status) <==> Restated(doc, next, status)
  {
    FirstStatusFound(doc);
    var i: nat :| FirstStatusAt(doc, i);
    ReplacedAt(doc, status, i);
    forall j: nat | FirstStatusAt(doc, j) ensures j == i {
      assert !(j < i) && !(i < j);
    }
  }

  lemma PreparedIff(rules: Rules, w: World, submitted: Doc, next: Doc)
    ensures Prepared(rules, w, submitted) == Some(next) <==>
            Taken(w, submitted).Some? && Started(Taken(w, submitted).value, next)
  {
    SaysNothingIff(submitted);
    assert submitted == [] ==> ProtocolStatus(submitted).None?;
    var taken := Taken(w, submitted);
    if taken.Some? {
      var doc := taken.value;
      SaysIff(doc, Running);
      SaysIff(doc, Draft);
      if FirstStatus(doc).Some? {
        RestatedIff(rules, doc, next, Running);
      }
    }
  }

  // ---- Which requests are accepted ----

  /** Questions were asked and each has an answer, or the answers a draft lacks are all in
      its document. */
  predicate Calibrated(rules: Rules, w: World, doc: Doc) {
    w.state.Some?
    && var s := w.state.value;
       || 0 < s.questions <= s.answers
       || (s.status == Some(Exact(Draft)) && s.answers == 0
           && 0 < rules.recordedPairs(doc) && s.questions <= rules.recordedPairs(doc))
  }

  /** Repairing the calibration record makes a loop ready exactly then. */
  lemma RepairReadyIff(rules: Rules, w: World, doc: Doc)
    ensures Ready(Repaired(rules, w, doc)) <==> Calibrated(rules, w, doc)
  {
    if IsDraft(w) && w.state.value.answers == 0 {
      var n := rules.recordedPairs(doc);
      if w.state.value.questions == 0 {
        PairsGiven(w, n);
      } else {
        AnswersGiven(w, if n < w.state.value.questions then n else w.state.value.questions);
      }
    }
  }

  lemma {:induction false} PairsGiven(w: World, n: nat)
    requires w.state.Some?
    ensures var t := PairsRecorded(w, n);
            && t.state.Some? && t.state.value.questions == w.state.value.questions + n
            && t.state.value.answers == w.state.value.answers + n
  {
    if n > 0 {
      PairsGiven(w, n - 1);
    }
  }

  lemma {:induction false} AnswersGiven(w: World, n: nat)
    requires w.state.Some?
    ensures var t := AnswersRecorded(w, n);
            && t.state.Some? && t.state.value.questions == w.state.value.questions
            && t.state.value.answers == w.state.value.answers + n
  {
    if n > 0 {
      AnswersGiven(w, n - 1);
    }
  }

  /** A document the activation checks accept. */
  ghost predicate Passes(rules: Rules, doc: Doc) {
    rules.complete(doc) && rules.maintainable(doc)
  }

  /** The document a status change leaves: the first status line says so, or one is added
      to the metadata. */
  ghost predicate StatusStored(rules: Rules, doc: Doc, next: Doc, status: Status) {
    if exists i: nat :: FirstStatusAt(doc, i) then Restated(doc, next, status)
    else
      var at := if rules.metadataAt(doc) <= |doc| then rules.metadataAt(doc) else |doc|;
      next == doc[..at] + [StatusLine(Exact(status))] + doc[at..]
  }

  lemma StatusStoredIff(rules: Rules, doc: Doc, next: Doc, status: Status)
    ensures next == WithStatus(rules, doc, status) <==> StatusStored(rules, doc, next, status)
  {
    if FirstStatus(doc).Some? {
      FirstStatusFound(doc);
      RestatedIff(rules, doc, next, status);
    } else if i: nat :| FirstStatusAt(doc, i) {
      FirstStatusIs(doc, i);
    }
  }

  /** A request goes through under exactly these conditions on the world before it. */
  ghost predicate Acceptable(rules: Rules, w: World, op: Op) {
    match op
    case OpUpdate(doc) =>
      doc != [] && rules.maintainable(doc)
      && (Says(doc, Running) ==> w.doc.Some? && Says(w.doc.value, Running))
    case OpActivate(submitted) =>
      || (submitted == [] && w.doc.None?)
      || (Taken(w, submitted).Some?
          && exists next :: Started(Taken(w, submitted).value, next) && Passes(rules, next)
                            && Calibrated(rules, w, next))
    case OpDelete => w.doc.Some? || w.state.Some?
    case OpQuestion => true
    case OpAnswer =>
      w.state.Some? && w.state.value.status == Some(Exact(Draft)) && w.state.value.answers < w.state.value.questions
    case OpActivateIfReady =>
      w.state.Some? && 0 < w.state.value.questions <= w.state.value.answers
      && w.doc.Some? && exists next :: Started(w.doc.value, next) && Passes(rules, next)
    case OpStatus(status) =>
      status !in {Draft, Running} && w.doc.Some?
      && exists next :: StatusStored(rules, w.doc.value, next, status) && rules.maintainable(next)
  }

  lemma AcceptedIff(rules: Rules, w: World, op: Op)
    ensures Step(rules, w, op).1.Done? <==> Acceptable(rules, w, op)
  {
    match op
    case OpUpdate(doc) => UpdateAcceptedIff(rules, w, doc);
    case OpActivate(submitted) => ActivateAcceptedIff(rules, w, submitted);
    case OpDelete =>
    case OpQuestion =>
    case OpAnswer =>
    case OpActivateIfReady => ActivateIfReadyAcceptedIff(rules, w);
    case OpStatus(status) => StatusAcceptedIff(rules, w, status);
  }

  lemma UpdateAcceptedIff(rules: Rules, w: World, doc: Doc)
    ensures Step(rules, w, OpUpdate(doc)).1.Done? <==> Acceptable(rules, w, OpUpdate(doc))
  {
    SaysIff(doc, Running);
    if w.doc.Some? {
      SaysIff(w.doc.value, Running);
    }
  }

  lemma ActivateAcceptedIff(rules: Rules, w: World, submitted: Doc)
    ensures Step(rules, w, OpActivate(submitted)).1.Done? <==> Acceptable(rules, w, OpActivate(submitted))
  {
    forall next ensures Prepared(rules, w, submitted) == Some(next) <==>
                        Taken(w, submitted).Some? && Started(Taken(w, submitted).value, next) {
      PreparedIff(rules, w, submitted, next);
    }
    forall next ensures Ready(Repaired(rules, w, next)) <==> Calibrated(rules, w, next) {
      RepairReadyIff(rules, w, next);
    }
  }

  lemma ActivateIfReadyAcceptedIff(rules: Rules, w: World)
    ensures Step(rules, w, OpActivateIfReady).1.Done? <==> Acceptable(rules, w, OpActivateIfReady)
  {
    EmptySaysNothing();
    forall next ensures Prepared(rules, w, []) == Some(next) <==> w.doc.Some? && Started(w.doc.value, next) {
      PreparedIff(rules, w, [], next);
    }
  }

  lemma EmptySaysNothing()
    ensures SaysNothing([])
  {
  }

  lemma StatusAcceptedIff(rules: Rules, w: World, status: Status)
    ensures Step(rules, w, OpStatus(status)).1.Done? <==> Acceptable(rules, w, OpStatus(status))
  {
    if w.doc.Some? {
      forall next ensures next == WithStatus(rules, w.doc.value, status) <==>
                          StatusStored(rules, w.doc.value, next, status) {
        StatusStoredIff(rules, w.doc.value, next, status);
      }
    }
  }

  // ---- What document they leave ----

  /** An activation that goes through stores the submitted document, or the saved one where
      the submitted one names no status, with nothing changed but its first status line,
      which says running. Where there is no document at all it stores the template. */
  lemma ActivationStores(rules: Rules, w: World, submitted: Doc)
    requires Step(rules, w, OpActivate(submitted)).1.Done?
    ensures var t := Step(rules, w, OpActivate(submitted)).0;
            if submitted == [] && w.doc.None? then t.doc == Some(rules.template)
            else
              && Taken(w, submitted).Some? && t.doc.Some?
              && Started(Taken(w, submitted).value, t.doc.value)
  {
    if submitted != [] || w.doc.Some? {
      PreparedIff(rules, w, submitted, Prepared(rules, w, submitted).value);
    }
  }

  /** What every request leaves of the document; one that does not go through leaves it as
      it was. */
  lemma DocumentAfter(rules: Rules, w: World, op: Op)
    ensures var (t, r) := Step(rules, w, op);
            if !r.Done? then t.doc == w.doc
            else match op
                 case OpUpdate(doc) => t.doc == Some(doc)
                 case OpActivate(submitted) =>
                   t.doc.Some? && ((submitted == [] && w.doc.None?) || Says(t.doc.value, Running))
                 case OpDelete => t.doc.None?
                 case OpQuestion => t.doc == w.doc
                 case OpAnswer => t.doc == w.doc
                 case OpActivateIfReady => w.doc.Some? && t.doc.Some? && Started(w.doc.value, t.doc.value)
                 case OpStatus(status) =>
                   w.doc.Some? && t.doc.Some? && StatusStored(rules, w.doc.value, t.doc.value, status)
  {
    match op
    case OpActivate(submitted) =>
      if Prepared(rules, w, submitted).Some? {
        RepairLeavesDoc(rules, w, Prepared(rules, w, submitted).value);
        SaysIff(Prepared(rules, w, submitted).value, Running);
      }
    case OpActivateIfReady =>
      EmptySaysNothing();
      if Prepared(rules, w, []).Some? {
        PreparedIff(rules, w, [], Prepared(rules, w, []).value);
      }
    case OpStatus(status) =>
      if w.doc.Some? {
        StatusStoredIff(rules, w.doc.value, WithStatus(rules, w.doc.value, status), status);
      }
    case _ =>
  }

  // ---- What they record ----

  function KindOf(op: Op, drafts: bool): EventType {
    match op
    case OpUpdate(_) => Update
    case OpActivate(_) => if drafts then Init else Activate
    case OpDelete => Delete
    case OpQuestion => Question
    case OpAnswer => Answer
    case OpActivateIfReady => Activate
    case OpStatus(_) => StatusChange
  }

  predicate Drafts(w: World, op: Op) {
    op.OpActivate? && op.submitted == [] && w.doc.None?
  }

  /** Repaired calibration: questions and answers only. */
  predicate OnlyCalibration(before: seq<Event>, after: seq<Event>) {
    before <= after && forall i :: |before| <= i < |after| ==> after[i].kind in {Question, Answer}
  }

  /** A request that goes through logs one event of its own kind, under the next number and
      behind the calibration an activation may repair; one that does not logs nothing more. */
  lemma EventsAfter(rules: Rules, w: World, op: Op)
    ensures var (t, r) := Step(rules, w, op);
            if !r.Done? then OnlyCalibration(w.events, t.events) && (op.OpActivate? || t == w)
            else
              && t.events != [] && var n := |t.events| - 1;
              && t.events[n] == Event(n + 1, KindOf(op, Drafts(w, op)))
              && OnlyCalibration(w.events, t.events[..n])
              && (op.OpActivate? || |t.events| == |w.events| + 1)
  {
    match op
    case OpActivate(submitted) =>
      if !Drafts(w, op) && Prepared(rules, w, submitted).Some? {
        RepairLogs(rules, w, Prepared(rules, w, submitted).value);
      }
    case _ =>
  }

  lemma RepairLogs(rules: Rules, w: World, doc: Doc)
    ensures OnlyCalibration(w.events, Repaired(rules, w, doc).events)
  {
    if IsDraft(w) {
      var n := rules.recordedPairs(doc);
      CalibrationLogs(w, n);
      CalibrationLogs(w, if n < w.state.value.questions then n else w.state.value.questions);
    }
  }

  lemma {:induction false} CalibrationLogs(w: World, n: nat)
    ensures OnlyCalibration(w.events, PairsRecorded(w, n).events)
    ensures OnlyCalibration(w.events, AnswersRecorded(w, n).events)
  {
    if n > 0 {
      CalibrationLogs(w, n - 1);
    }
  }

  /** The status a state record has; one without counts as running. */
  function StoredStatus(w: World): StatusText {
    if w.state.Some? && w.state.value.status.Some? then w.state.value.status.value else Exact(Running)
  }

  function FullFeed(w: World): bool {
    w.state.Some? && w.state.value.needsFullFeed
  }

  predicate LastStatusAt(doc: Doc, i: nat) {
    i < |doc| && doc[i].StatusLine? && forall j :: i < j < |doc| ==> !doc[j].StatusLine?
  }

  /** An update leaves a status that is there; a missing one is what the document's last
      status line says, or running where it has none. */
  ghost predicate UpdatedStatus(w: World, doc: Doc, status: StatusText) {
    if w.state.Some? && w.state.value.status.Some? then Some(status) == w.state.value.status
    else if exists i: nat :: LastStatusAt(doc, i) then exists i: nat :: LastStatusAt(doc, i) && status == doc[i].value
    else status == Exact(Running)
  }

  lemma {:induction false} LastStatusIs(doc: Doc)
    ensures match LastStatus(doc)
            case None => forall i: nat :: !LastStatusAt(doc, i)
            case Some(text) => exists i: nat :: LastStatusAt(doc, i) && text == doc[i].value
  {
    if doc != [] {
      var n := |doc| - 1;
      if doc[n].StatusLine? {
        assert LastStatusAt(doc, n);
      } else {
        LastStatusIs(doc[..n]);
        forall i: nat ensures LastStatusAt(doc, i) <==> LastStatusAt(doc[..n], i) {
        }
      }
    }
  }

  /** The status and the feed flag the state record has after a request that went through. */
  lemma StateAfter(rules: Rules, w: World, op: Op)
    requires Step(rules, w, op).1.Done?
    ensures var t := Step(rules, w, op).0;
            && t.state.Some? && t.state.value.status.Some?
            && var status, feed := t.state.value.status.value, t.state.value.needsFullFeed;
            match op
            case OpUpdate(doc) =>
              UpdatedStatus(w, doc, status) && (feed <==> FullFeed(w) || status == Exact(Running))
            case OpActivate(_) =>
              if Drafts(w, op) then status == Exact(Draft) && feed == FullFeed(w) else status == Exact(Running) && feed
            case OpDelete => status == Exact(Disabled) && feed == FullFeed(w)
            case OpQuestion => status == StoredStatus(w) && feed == FullFeed(w)
            case OpAnswer => status == StoredStatus(w) && feed == FullFeed(w)
            case OpActivateIfReady => status == Exact(Running) && feed
            case OpStatus(next) => status == Exact(next) && !feed
  {
    match op
    case OpUpdate(doc) => LastStatusIs(doc);
    case _ =>
  }
}
