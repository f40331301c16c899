/**
 A client that reconnects with Last-Event-ID: the handler subscribes to the
 live stream, replays the durable log page by page, and then goes on with the
 live events its replay has not covered. The fan-out goroutine, which appends
 to the log and then offers the event to the subscriber, runs at the same time,
 so the whole is a state machine whose steps interleave freely.
*/
module ReplaySplice {
  import opened Options
  import opened EventHistory

  const SUBSCRIBER_BUFFER := 256

  /** An event under the id it is given on the wire. */
  datatype Item = Item(id: int, event: Line)

  datatype Phase = Waiting | Replaying | Live | Closed

  /** `log` is the file, `torn` whether its last line lacks the newline, `nextId`
      the id the next dispatched event gets. `pending` is the event that is in
      the log and not yet offered to the subscriber. `subscribedAt` and `dropped`
      record history: the first id offered to this subscriber, and the ids
      discarded because its buffer was full. */
  datatype State = State(
    log: seq<Line>, torn: bool, nextId: int, pending: Option<Item>,
    phase: Phase, after: int, cursor: int, chan: seq<Item>, sent: seq<Item>,
    subscribedAt: int, dropped: set<int>)

  datatype Step =
    | Append(event: Line)
    | FailAppend(event: Line, partial: bool)
    | FanOut
    | Subscribe
    | ReadPage(written: nat)
    | Receive(delivered: bool)
    | Disconnect

  /** Opening a session's log: an empty file gets its trace.meta line, otherwise
      the existing lines are counted, a torn one like any other. */
  function Open(lines: seq<Line>, torn: bool, after: int): State {
    var log := if lines == [] then [Event(0, Some(TRACE_SCHEMA_VERSION))] else lines;
    State(log, torn && lines != [], |log|, None, Waiting, after, after, [], [], 0, {})
  }

  /** Writing a line after a torn one completes the torn line into garbage. */
  function AppendLine(s: State, line: Line): State {
    if s.torn && s.log != [] then s.(log := s.log[|s.log| - 1 := Invalid], torn := false)
    else s.(log := s.log + [line], torn := false)
  }

  predicate Enabled(s: State, step: Step) {
    match step
    case Append(event) => s.pending.None? && !event.Invalid?
    case FailAppend(event, _) => s.pending.None? && !event.Invalid?
    case FanOut => s.pending.Some?
    case Subscribe => s.phase.Waiting? && -1 <= s.after && ReplayCursorValid(s.log, s.after)
    case ReadPage(_) => s.phase.Replaying?
    case Receive(_) => s.phase.Live? && s.chan != []
    case Disconnect => s.phase.Replaying? || s.phase.Live?
  }

  function Wire(records: seq<Record>): (items: seq<Item>)
    ensures |items| == |records|
    ensures forall k :: 0 <= k < |items| ==> items[k] == Item(records[k].cursor, records[k].event)
  {
    seq(|records|, k requires 0 <= k < |records| => Item(records[k].cursor, records[k].event))
  }

  function Apply(s: State, step: Step): State
    requires Enabled(s, step)
  {
    match step
    case Append(event) =>
      AppendLine(s, event).(nextId := s.nextId + 1, pending := Some(Item(s.nextId, event)))
    case FailAppend(event, partial) =>
      var t := if partial then AppendLine(s, Invalid).(torn := true) else s;
      t.(nextId := s.nextId + 1, pending := Some(Item(s.nextId, event)))
    case FanOut =>
      var offered := s.(pending := None);
      if s.phase.Waiting? || s.phase.Closed? then offered
      else if |s.chan| < SUBSCRIBER_BUFFER then offered.(chan := s.chan + [s.pending.value])
      else offered.(dropped := s.dropped + {s.pending.value.id})
    case Subscribe =>
      s.(phase := Replaying, subscribedAt := if s.pending.Some? then s.pending.value.id else s.nextId)
    case ReadPage(written) =>
      (match PageOf(s.log, s.cursor, MAX_HISTORY_LIMIT)
       case PageOk(page) =>
         if written < |page.records| then
           var some := page.records[..written];
           s.(sent := s.sent + Wire(some), cursor := LastCursor(some, s.cursor), phase := Closed)
         else
           s.(sent := s.sent + Wire(page.records), cursor := LastCursor(page.records, s.cursor),
              phase := if page.hasMore then Replaying else Live)
       case _ => s.(phase := Closed))
    case Receive(delivered) =>
      var item, rest := s.chan[0], s.(chan := s.chan[1..]);
      if item.id <= s.cursor then rest
      else if delivered then rest.(sent := s.sent + [item])
      else rest.(phase := Closed)
    case Disconnect => s.(phase := Closed)
  }

  function Exec(s: State, steps: seq<Step>): Option<State>
    decreases |steps|
  {
    if steps == [] then Some(s)
    else if Enabled(s, steps[0]) then Exec(Apply(s, steps[0]), steps[1..])
    else None
  }

  /** The id the next event to be offered has or will have. */
  function Offered(s: State): int {
    if s.pending.Some? then s.pending.value.id else s.nextId
  }

  function LastSent(s: State): int {
    if s.sent == [] then s.after else s.sent[|s.sent| - 1].id
  }

  predicate IsLine(log: seq<Line>, item: Item) {
    0 <= item.id < |log| && log[item.id] == item.event && !item.event.Invalid?
  }

  /** Every item is sent under the number of its own line, past the client's
      cursor, and ids only go up, so nothing is sent twice. */
  predicate SentInOrder(s: State) {
    && (forall k :: 0 <= k < |s.sent| ==> IsLine(s.log, s.sent[k]) && s.after < s.sent[k].id)
    && (forall k, l :: 0 <= k < l < |s.sent| ==> s.sent[k].id < s.sent[l].id)
  }

  predicate Has(items: seq<Item>, id: int) {
    exists k :: 0 <= k < |items| && items[k].id == id
  }

  /** Up to the last event sent, an event line is missing exactly when the
      subscriber's buffer was full and the replay had not covered it. Lines too
      long to replay can only have been sent live. */
  predicate NoGap(s: State) {
    && (forall i :: 0 <= i < |s.log| && s.after < i <= LastSent(s) && s.log[i].Event? ==>
          (Has(s.sent, i) <==> !(i in s.dropped && s.cursor < i)))
    && (forall k :: 0 <= k < |s.sent| && !s.sent[k].event.Event? ==> s.cursor < s.sent[k].id)
  }

  // ---- The invariant of runs whose writes succeed ----

  predicate Aligned(s: State) {
    && !s.torn && s.nextId == |s.log|
    && (s.pending.Some? ==> s.pending.value.id == |s.log| - 1 && IsLine(s.log, s.pending.value))
  }

  /** The buffer holds lines already offered, in order. */
  predicate BufferOk(s: State) {
    && (forall k :: 0 <= k < |s.chan| ==>
          IsLine(s.log, s.chan[k]) && s.subscribedAt <= s.chan[k].id < Offered(s) && s.chan[k].id !in s.dropped)
    && (forall k, l :: 0 <= k < l < |s.chan| ==> s.chan[k].id < s.chan[l].id)
    && (forall i :: i in s.dropped ==> s.subscribedAt <= i < Offered(s))
  }

  /** The events up to the replay cursor are the ones sent up to it. */
  predicate ReplayedExactly(s: State) {
    && s.after <= s.cursor < |s.log|
    && (forall i :: 0 <= i < |s.log| && s.after < i <= s.cursor && s.log[i].Event? ==> Has(s.sent, i))
    && (forall k :: 0 <= k < |s.sent| && s.sent[k].id <= s.cursor ==> s.sent[k].event.Event?)
  }

  /** Replay has covered what came before the subscription; everything offered
      since is buffered, dropped, covered by replay or sent. */
  predicate LiveOk(s: State) {
    && (forall i :: 0 <= i < |s.log| && s.after < i < s.subscribedAt && s.log[i].Event? ==> i <= s.cursor)
    && (forall i :: s.subscribedAt <= i < Offered(s) && 0 <= i < |s.log| && s.cursor < i ==>
          Has(s.chan, i) || i in s.dropped || Has(s.sent, i))
    && (forall k :: 0 <= k < |s.sent| && s.cursor < s.sent[k].id ==>
          s.sent[k].id !in s.dropped && s.sent[k].id < Offered(s)
          && forall l :: 0 <= l < |s.chan| ==> s.sent[k].id < s.chan[l].id)
  }

  predicate Inv(s: State) {
    && Aligned(s) && SentInOrder(s) && NoGap(s)
    && match s.phase
       case Waiting => s.sent == [] && s.chan == [] && s.dropped == {} && s.cursor == s.after
       case Replaying =>
         && -1 <= s.after && BufferOk(s) && ReplayedExactly(s) && s.subscribedAt <= Offered(s)
         && (forall k :: 0 <= k < |s.sent| ==> s.sent[k].id <= s.cursor)
         && (forall i :: s.subscribedAt <= i < Offered(s) ==> Has(s.chan, i) || i in s.dropped)
       case Live => -1 <= s.after && BufferOk(s) && ReplayedExactly(s) && s.subscribedAt <= Offered(s) && LiveOk(s)
       case Closed => forall i :: i in s.dropped ==> i < Offered(s)
  }

  // ---- Every step keeps it ----

  lemma KeepsAppend(s: State, event: Line)
    requires Inv(s) && Enabled(s, Append(event))
    ensures Inv(Apply(s, Append(event)))
  {
    var t := Apply(s, Append(event));
    assert t.log == s.log + [event] && Offered(t) == Offered(s);
    assert t.sent == s.sent && t.chan == s.chan;
    AppendKeepsSent(s, t, event);
    if s.phase.Replaying? || s.phase.Live? {
      AppendKeepsBuffer(s, t, event);
    }
  }

  lemma AppendKeepsBuffer(s: State, t: State, event: Line)
    requires BufferOk(s) && ReplayedExactly(s) && t.log == s.log + [event] && Offered(t) == Offered(s)
    requires t.sent == s.sent && t.chan == s.chan && t.dropped == s.dropped
    requires t.after == s.after && t.cursor == s.cursor && t.subscribedAt == s.subscribedAt
    ensures BufferOk(t) && ReplayedExactly(t)
  {
  }

  lemma AppendKeepsSent(s: State, t: State, event: Line)
    requires SentInOrder(s) && NoGap(s) && t.log == s.log + [event]
    requires t.sent == s.sent && t.after == s.after && t.cursor == s.cursor && t.dropped == s.dropped
    requires s.sent != [] ==> LastSent(s) < |s.log|
    ensures SentInOrder(t) && NoGap(t)
  {
  }

  lemma KeepsFanOut(s: State)
    requires Inv(s) && Enabled(s, FanOut)
    ensures Inv(Apply(s, FanOut))
  {
    if s.phase.Replaying? || s.phase.Live? {
      if |s.chan| < SUBSCRIBER_BUFFER {
        KeepsBuffering(s);
      } else {
        KeepsDropping(s);
      }
    } else {
      KeepsIgnoring(s);
    }
  }

  lemma KeepsIgnoring(s: State)
    requires Inv(s) && s.pending.Some? && (s.phase.Waiting? || s.phase.Closed?)
    ensures Inv(s.(pending := None))
  {
  }

  lemma KeepsBuffering(s: State)
    requires Inv(s) && s.pending.Some? && (s.phase.Replaying? || s.phase.Live?)
    ensures Inv(s.(pending := None, chan := s.chan + [s.pending.value]))
  {
    var t := s.(pending := None, chan := s.chan + [s.pending.value]);
    BufferGrows(s);
    HasGrows(s.chan, s.pending.value);
    assert t.sent == s.sent && NoGap(t) && ReplayedExactly(t);
    if s.phase.Live? {
      BufferingKeepsLive(s);
    }
  }

  lemma BufferingKeepsLive(s: State)
    requires Aligned(s) && BufferOk(s) && LiveOk(s) && s.pending.Some?
    ensures LiveOk(s.(pending := None, chan := s.chan + [s.pending.value]))
  {
    HasGrows(s.chan, s.pending.value);
  }

  lemma BufferGrows(s: State)
    requires Aligned(s) && BufferOk(s) && s.pending.Some? && s.subscribedAt <= Offered(s)
    ensures BufferOk(s.(pending := None, chan := s.chan + [s.pending.value]))
  {
  }

  lemma KeepsDropping(s: State)
    requires Inv(s) && s.pending.Some? && (s.phase.Replaying? || s.phase.Live?)
    ensures Inv(Dropped(s))
  {
    DroppingKeepsBuffer(s);
    DroppingKeepsNoGap(s);
    if s.phase.Live? {
      DroppingKeepsLive(s);
    }
  }

  /** The state after the offered event found the buffer full. */
  function Dropped(s: State): State
    requires s.pending.Some?
  {
    s.(pending := None, dropped := s.dropped + {s.pending.value.id})
  }

  lemma DroppingKeepsBuffer(s: State)
    requires Aligned(s) && BufferOk(s) && ReplayedExactly(s) && s.pending.Some? && s.subscribedAt <= Offered(s)
    ensures BufferOk(Dropped(s)) && ReplayedExactly(Dropped(s)) && Aligned(Dropped(s))
  {
  }

  lemma DroppingKeepsNoGap(s: State)
    requires Inv(s) && s.pending.Some? && (s.phase.Replaying? || s.phase.Live?)
    ensures NoGap(Dropped(s))
  {
    assert NoGap(s);
  }

  lemma DroppingKeepsLive(s: State)
    requires Aligned(s) && LiveOk(s) && s.pending.Some?
    ensures LiveOk(Dropped(s))
  {
  }

  lemma HasGrows(items: seq<Item>, item: Item)
    ensures forall i :: Has(items + [item], i) <==> Has(items, i) || i == item.id
  {
    var more := items + [item];
    assert more[|items|] == item;
    forall i | Has(items, i) ensures Has(more, i) {
      var k :| 0 <= k < |items| && items[k].id == i;
      assert more[k].id == i;
    }
  }

  lemma KeepsSubscribe(s: State)
    requires Inv(s) && Enabled(s, Subscribe)
    ensures Inv(Apply(s, Subscribe))
  {
  }

  /** Sending the first n events past the replay cursor. */
  function Replayed(s: State, n: nat): State
    requires |s.log| >= s.cursor + 1 >= 0 && n <= |EventsIn(s.log, s.cursor + 1, |s.log|)|
  {
    var some := EventsIn(s.log, s.cursor + 1, |s.log|)[..n];
    s.(sent := s.sent + Wire(some), cursor := LastCursor(some, s.cursor))
  }

  predicate OnlyReplayed(s: State) {
    -1 <= s.after && ReplayedExactly(s) && SentInOrder(s)
    && forall k :: 0 <= k < |s.sent| ==> s.sent[k].id <= s.cursor
  }

  lemma ReplaySends(s: State, n: nat)
    requires OnlyReplayed(s) && n <= |EventsIn(s.log, s.cursor + 1, |s.log|)|
    ensures OnlyReplayed(Replayed(s, n)) && s.cursor <= Replayed(s, n).cursor
  {
    var t := Replayed(s, n);
    var items := ReplayedItems(s, n);
    JoinInOrder(s, items);
    assert t.sent == s.sent + items;
    forall i | 0 <= i < |s.log| && s.after < i <= t.cursor && s.log[i].Event?
      ensures Has(t.sent, i)
    {
      ReplayCovers(s, n, i);
    }
  }

  lemma ReplayedItems(s: State, n: nat) returns (items: seq<Item>)
    requires -1 <= s.cursor < |s.log| && n <= |EventsIn(s.log, s.cursor + 1, |s.log|)|
    ensures Replayed(s, n).sent == s.sent + items && s.cursor <= Replayed(s, n).cursor < |s.log|
    ensures forall k :: 0 <= k < |items| ==>
              IsLine(s.log, items[k]) && items[k].event.Event? && s.cursor < items[k].id <= Replayed(s, n).cursor
    ensures forall k, l :: 0 <= k < l < |items| ==> items[k].id < items[l].id
  {
    var some := EventsIn(s.log, s.cursor + 1, |s.log|)[..n];
    items := Wire(some);
    PrefixIsRange(s.log, s.cursor + 1, n);
    EventsInOrdered(s.log, s.cursor + 1, Replayed(s, n).cursor + 1);
    assert forall k :: 0 <= k < |some| ==> items[k] == Item(some[k].cursor, some[k].event);
  }

  lemma JoinInOrder(s: State, items: seq<Item>)
    requires SentInOrder(s) && s.after <= s.cursor
    requires forall k :: 0 <= k < |s.sent| ==> s.sent[k].id <= s.cursor
    requires forall k :: 0 <= k < |items| ==> IsLine(s.log, items[k]) && s.cursor < items[k].id
    requires forall k, l :: 0 <= k < l < |items| ==> items[k].id < items[l].id
    ensures SentInOrder(s.(sent := s.sent + items))
  {
  }

  lemma ReplayCovers(s: State, n: nat, i: nat)
    requires OnlyReplayed(s) && n <= |EventsIn(s.log, s.cursor + 1, |s.log|)|
    requires i < |s.log| && s.after < i <= Replayed(s, n).cursor && s.log[i].Event?
    ensures Has(Replayed(s, n).sent, i)
  {
    var some := EventsIn(s.log, s.cursor + 1, |s.log|)[..n];
    HasJoined(s.sent, Wire(some), i);
    if s.cursor < i {
      PrefixCovers(s.log, s.cursor + 1, n, i, some);
    }
  }

  lemma PrefixCovers(log: seq<Line>, lo: nat, n: nat, i: nat, some: seq<Record>)
    requires lo <= |log| && n <= |EventsIn(log, lo, |log|)| && some == EventsIn(log, lo, |log|)[..n]
    requires lo <= i < |log| && i <= LastCursor(some, lo - 1) && log[i].Event?
    ensures Has(Wire(some), i)
  {
    PrefixIsRange(log, lo, n);
    EventsInComplete(log, lo, LastCursor(some, lo - 1) + 1, i);
    var k :| 0 <= k < |some| && some[k] == Record(i, log[i]);
    assert Wire(some)[k].id == i;
  }

  lemma HasJoined(a: seq<Item>, b: seq<Item>, i: int)
    ensures Has(a + b, i) <==> Has(a, i) || Has(b, i)
  {
    if Has(a, i) {
      var k :| 0 <= k < |a| && a[k].id == i;
      assert (a + b)[k].id == i;
    }
    if Has(b, i) {
      var k :| 0 <= k < |b| && b[k].id == i;
      assert (a + b)[|a| + k].id == i;
    }
  }

  lemma KeepsReadPage(s: State, written: nat)
    requires Inv(s) && Enabled(s, ReadPage(written))
    ensures Inv(Apply(s, ReadPage(written)))
  {
    if PageOf(s.log, s.cursor, MAX_HISTORY_LIMIT).PageOk? {
      var n, phase := ReadPageReplays(s, written);
      ReplaySends(s, n);
      KeepsReplayed(s, n, phase);
    }
  }

  lemma ReadPageReplays(s: State, written: nat) returns (n: nat, phase: Phase)
    requires -1 <= s.cursor && s.phase.Replaying? && PageOf(s.log, s.cursor, MAX_HISTORY_LIMIT).PageOk?
    ensures s.cursor < |s.log| && n <= |EventsIn(s.log, s.cursor + 1, |s.log|)| && !phase.Waiting?
    ensures Apply(s, ReadPage(written)) == Replayed(s, n).(phase := phase)
    ensures phase.Live? ==>
              forall i :: 0 <= i < |s.log| && Replayed(s, n).cursor < i ==> !s.log[i].Event?
  {
    var page := PageOf(s.log, s.cursor, MAX_HISTORY_LIMIT).page;
    PageHeads(s.log, s.cursor);
    if written < |page.records| {
      n, phase := written, Closed;
    } else {
      n, phase := |page.records|, if page.hasMore then Replaying else Live;
      assert page.records[..n] == page.records;
      if !page.hasMore {
        NothingLeft(s, page);
      }
    }
  }

  lemma PageHeads(log: seq<Line>, cursor: int)
    requires -1 <= cursor && PageOf(log, cursor, MAX_HISTORY_LIMIT).PageOk?
    ensures var page := PageOf(log, cursor, MAX_HISTORY_LIMIT).page;
            var all := EventsIn(log, cursor + 1, |log|);
            && cursor < |log| && |page.records| <= |all|
            && page.nextAfter == LastCursor(page.records, cursor)
            && forall n :: 0 <= n <= |page.records| ==> page.records[..n] == all[..n]
  {
    PageIsPrefix(log, cursor, MAX_HISTORY_LIMIT);
  }

  lemma KeepsReplayed(s: State, n: nat, phase: Phase)
    requires Inv(s) && s.phase.Replaying? && n <= |EventsIn(s.log, s.cursor + 1, |s.log|)|
    requires OnlyReplayed(Replayed(s, n)) && s.cursor <= Replayed(s, n).cursor && !phase.Waiting?
    requires phase.Live? ==>
               forall i :: 0 <= i < |s.log| && Replayed(s, n).cursor < i ==> !s.log[i].Event?
    ensures Inv(Replayed(s, n).(phase := phase))
  {
    var t := Replayed(s, n).(phase := phase);
    SameBuffer(s, t);
    assert ReplayedExactly(t);
    NoGapBelowCursor(t);
    if phase.Live? {
      NothingSentLive(t);
    }
  }

  lemma SameBuffer(s: State, t: State)
    requires BufferOk(s) && Aligned(s)
    requires t.log == s.log && t.chan == s.chan && t.dropped == s.dropped && t.subscribedAt == s.subscribedAt
    requires t.pending == s.pending && t.nextId == s.nextId && t.torn == s.torn
    ensures BufferOk(t) && Aligned(t)
  {
  }

  lemma NothingSentLive(t: State)
    requires forall i :: 0 <= i < |t.log| && t.cursor < i ==> !t.log[i].Event?
    requires forall k :: 0 <= k < |t.sent| ==> t.sent[k].id <= t.cursor
    requires forall i :: t.subscribedAt <= i < Offered(t) ==> Has(t.chan, i) || i in t.dropped
    ensures LiveOk(t)
  {
  }

  lemma NoGapBelowCursor(t: State)
    requires ReplayedExactly(t) && forall k :: 0 <= k < |t.sent| ==> t.sent[k].id <= t.cursor
    ensures NoGap(t)
  {
  }

  lemma NothingLeft(s: State, page: Page)
    requires -1 <= s.cursor && PageOf(s.log, s.cursor, MAX_HISTORY_LIMIT) == PageOk(page) && !page.hasMore
    ensures forall i :: 0 <= i < |s.log| && page.nextAfter < i ==> !s.log[i].Event?
  {
    LastPageEndsLog(s.log, s.cursor, MAX_HISTORY_LIMIT, page);
    NoEventsFrom(s.log, page.nextAfter + 1);
  }

  lemma NoEventsFrom(log: seq<Line>, lo: nat)
    requires EventsIn(log, lo, |log|) == []
    ensures forall i :: lo <= i < |log| ==> !log[i].Event?
  {
    forall i | lo <= i < |log| ensures !log[i].Event? {
      if log[i].Event? {
        EventsInComplete(log, lo, |log|, i);
      }
    }
  }

  lemma KeepsReceive(s: State, delivered: bool)
    requires Inv(s) && Enabled(s, Receive(delivered))
    ensures Inv(Apply(s, Receive(delivered)))
  {
    HasSplit(s.chan);
    if s.chan[0].id <= s.cursor {
      KeepsSkip(s);
    } else if delivered {
      KeepsDelivery(s);
    }
  }

  lemma HasSplit(items: seq<Item>)
    requires items != []
    ensures forall i :: Has(items, i) <==> i == items[0].id || Has(items[1..], i)
  {
    assert [items[0]] + items[1..] == items;
    forall i
      ensures Has(items, i) <==> i == items[0].id || Has(items[1..], i)
    {
      HasJoined([items[0]], items[1..], i);
      assert [items[0]][0].id == items[0].id;
    }
  }

  lemma KeepsSkip(s: State)
    requires Inv(s) && s.phase.Live? && s.chan != [] && s.chan[0].id <= s.cursor
    ensures Inv(s.(chan := s.chan[1..]))
  {
    var t := s.(chan := s.chan[1..]);
    SkipKeepsBuffer(s);
    assert SentInOrder(t) && NoGap(t) && ReplayedExactly(t);
    SkipKeepsLive(s);
  }

  lemma SkipKeepsBuffer(s: State)
    requires BufferOk(s) && s.chan != []
    ensures BufferOk(s.(chan := s.chan[1..]))
  {
  }

  lemma SkipKeepsLive(s: State)
    requires LiveOk(s) && s.chan != [] && s.chan[0].id <= s.cursor
    ensures LiveOk(s.(chan := s.chan[1..]))
  {
    HasSplit(s.chan);
  }

  /** The state after the first buffered item is sent. */
  function Delivered(s: State): State
    requires s.chan != []
  {
    s.(chan := s.chan[1..], sent := s.sent + [s.chan[0]])
  }

  lemma KeepsDelivery(s: State)
    requires Inv(s) && s.phase.Live? && s.chan != [] && s.cursor < s.chan[0].id
    ensures Inv(Delivered(s))
  {
    var t := Delivered(s);
    DeliveryInOrder(s);
    DeliveryLeavesNoGap(s);
    DeliveryKeepsLive(s);
    HasGrows(s.sent, s.chan[0]);
    assert BufferOk(t);
    assert ReplayedExactly(t);
  }

  lemma DeliveryInOrder(s: State)
    requires SentInOrder(s) && BufferOk(s) && LiveOk(s) && s.chan != []
    requires s.after <= s.cursor < s.chan[0].id
    ensures SentInOrder(Delivered(s))
    ensures forall k :: 0 <= k < |s.sent| ==> s.sent[k].id < s.chan[0].id
  {
  }

  lemma DeliveryLeavesNoGap(s: State)
    requires Inv(s) && s.phase.Live? && s.chan != [] && s.cursor < s.chan[0].id
    ensures NoGap(Delivered(s))
  {
    var t := Delivered(s);
    var item := s.chan[0];
    DeliveryInOrder(s);
    HasGrows(s.sent, item);
    forall i | 0 <= i < |s.log| && s.after < i <= item.id && s.log[i].Event?
      ensures Has(t.sent, i) <==> !(i in s.dropped && s.cursor < i)
    {
      DeliveryDecides(s, i);
    }
  }

  lemma DeliveryDecides(s: State, i: int)
    requires Inv(s) && s.phase.Live? && s.chan != [] && s.cursor < s.chan[0].id
    requires 0 <= i < |s.log| && s.after < i <= s.chan[0].id && s.log[i].Event?
    ensures Has(s.sent, i) || i == s.chan[0].id <==> !(i in s.dropped && s.cursor < i)
  {
    if s.cursor < i < s.chan[0].id {
      assert !Has(s.chan, i);
      assert s.subscribedAt <= i < Offered(s);
    }
  }

  lemma DeliveryKeepsLive(s: State)
    requires BufferOk(s) && LiveOk(s) && s.chan != [] && s.cursor < s.chan[0].id
    ensures LiveOk(Delivered(s))
  {
    HasSplit(s.chan);
    HasGrows(s.sent, s.chan[0]);
  }

  // ---- Whole runs ----

  predicate NoFailures(steps: seq<Step>) {
    forall k :: 0 <= k < |steps| ==> !steps[k].FailAppend?
  }

  lemma StepKeeps(s: State, step: Step)
    requires Inv(s) && Enabled(s, step) && !step.FailAppend?
    ensures Inv(Apply(s, step))
  {
    match step
    case Append(event) => KeepsAppend(s, event);
    case FanOut => KeepsFanOut(s);
    case Subscribe => KeepsSubscribe(s);
    case ReadPage(written) => KeepsReadPage(s, written);
    case Receive(delivered) => KeepsReceive(s, delivered);
    case Disconnect => KeepsDisconnect(s);
  }

  lemma KeepsDisconnect(s: State)
    requires Inv(s) && Enabled(s, Disconnect)
    ensures Inv(Apply(s, Disconnect))
  {
  }

  lemma CursorOfClientFixed(s: State, step: Step)
    requires Enabled(s, step)
    ensures Apply(s, step).after == s.after
  {
  }

  lemma {:induction false} RunKeeps(s: State, steps: seq<Step>)
    requires Inv(s) && NoFailures(steps) && Exec(s, steps).Some?
    ensures Inv(Exec(s, steps).value) && Exec(s, steps).value.after == s.after
    decreases |steps|
  {
    if steps != [] {
      StepKeeps(s, steps[0]);
      CursorOfClientFixed(s, steps[0]);
      assert NoFailures(steps[1..]);
      RunKeeps(Apply(s, steps[0]), steps[1..]);
    }
  }

  /** Whatever the interleaving, the client is sent lines past its cursor in
      increasing order under their own numbers, and up to the last one sent an
      event is missing exactly when the buffer overflowed on it and the replay
      had stopped short of it. */
  lemma ReplayThenLive(lines: seq<Line>, after: int, steps: seq<Step>, t: State)
    requires NoFailures(steps) && Exec(Open(lines, false, after), steps) == Some(t)
    ensures SentInOrder(t) && NoGap(t)
  {
    RunKeeps(Open(lines, false, after), steps);
  }

  /** A live client with nothing buffered and nothing in flight has been sent
      every event past its cursor but the overflowed ones. */
  lemma IdleClientIsUpToDate(lines: seq<Line>, after: int, steps: seq<Step>, t: State)
    requires NoFailures(steps) && Exec(Open(lines, false, after), steps) == Some(t)
    requires t.phase.Live? && t.chan == [] && t.pending.None?
    ensures forall i :: 0 <= i < |t.log| && after < i && t.log[i].Event? ==>
              (Has(t.sent, i) <==> !(i in t.dropped && t.cursor < i))
  {
    RunKeeps(Open(lines, false, after), steps);
  }

  /** When nothing overflowed and every line is short enough to replay, what was
      sent is the log itself from the client's cursor to the last event sent. */
  lemma SentIsTheLog(lines: seq<Line>, after: int, steps: seq<Step>, t: State)
    requires NoFailures(steps) && Exec(Open(lines, false, after), steps) == Some(t)
    requires t.dropped == {} && Oversized !in t.log && t.sent != []
    ensures 0 <= LastSent(t) < |t.log|
    ensures t.sent == Wire(EventsIn(t.log, after + 1, LastSent(t) + 1))
  {
    ReplayThenLive(lines, after, steps, t);
    RunKeeps(Open(lines, false, after), steps);
    GaplessIsTheLog(t);
  }

  lemma GaplessIsTheLog(t: State)
    requires SentInOrder(t) && NoGap(t) && t.dropped == {} && Oversized !in t.log && t.sent != []
    ensures 0 <= LastSent(t) < |t.log|
    ensures t.sent == Wire(EventsIn(t.log, t.after + 1, LastSent(t) + 1))
  {
    var last := LastSent(t);
    assert IsLine(t.log, t.sent[|t.sent| - 1]);
    var wire := Wire(EventsIn(t.log, t.after + 1, last + 1));
    WireLists(t.log, t.after + 1, last + 1);
    forall i
      ensures Has(t.sent, i) <==> Has(wire, i)
    {
      SentLikeWire(t, wire, i);
    }
    assert Listing(t.log, t.sent);
    SameIdsSameItems(t.log, t.sent, wire);
  }

  lemma SentLikeWire(t: State, wire: seq<Item>, i: int)
    requires SentInOrder(t) && NoGap(t) && t.dropped == {} && Oversized !in t.log && t.sent != []
    requires 0 <= LastSent(t) < |t.log| && wire == Wire(EventsIn(t.log, t.after + 1, LastSent(t) + 1))
    ensures Has(t.sent, i) <==> Has(wire, i)
  {
    WireHas(t.log, t.after + 1, LastSent(t) + 1, i);
    SentIffEvent(t, i);
  }

  lemma SentIffEvent(t: State, i: int)
    requires SentInOrder(t) && NoGap(t) && t.dropped == {} && Oversized !in t.log && t.sent != []
    ensures Has(t.sent, i) <==> 0 <= i < |t.log| && t.after < i <= LastSent(t) && t.log[i].Event?
  {
    if Has(t.sent, i) {
      var k :| 0 <= k < |t.sent| && t.sent[k].id == i;
      assert IsLine(t.log, t.sent[k]);
      assert k < |t.sent| - 1 ==> t.sent[k].id < t.sent[|t.sent| - 1].id;
    }
  }

  lemma WireLists(log: seq<Line>, lo: int, hi: nat)
    requires hi <= |log|
    ensures Listing(log, Wire(EventsIn(log, lo, hi)))
  {
    var records := EventsIn(log, lo, hi);
    EventsInOrdered(log, lo, hi);
    forall k | 0 <= k < |records|
      ensures IsLine(log, Wire(records)[k])
    {
      assert records[k].event == log[records[k].cursor];
    }
  }

  lemma WireHas(log: seq<Line>, lo: int, hi: nat, i: int)
    requires hi <= |log|
    ensures Has(Wire(EventsIn(log, lo, hi)), i) <==> 0 <= i < hi && lo <= i && log[i].Event?
  {
    var records := EventsIn(log, lo, hi);
    EventsInOrdered(log, lo, hi);
    if 0 <= i < hi && lo <= i && log[i].Event? {
      EventsInComplete(log, lo, hi, i);
      var l :| 0 <= l < |records| && records[l] == Record(i, log[i]);
      assert Wire(records)[l].id == i;
    }
    if Has(Wire(records), i) {
      var k :| 0 <= k < |records| && Wire(records)[k].id == i;
      assert records[k].cursor == i;
    }
  }

  predicate Listing(log: seq<Line>, items: seq<Item>) {
    && (forall k :: 0 <= k < |items| ==> IsLine(log, items[k]))
    && (forall k, l :: 0 <= k < l < |items| ==> items[k].id < items[l].id)
  }

  lemma {:induction false} SameIdsSameItems(log: seq<Line>, a: seq<Item>, b: seq<Item>)
    requires Listing(log, a) && Listing(log, b)
    requires forall i :: Has(a, i) <==> Has(b, i)
    ensures a == b
  {
    if a == [] || b == [] {
      if a != [] {
        assert Has(a, a[0].id);
      }
      if b != [] {
        assert Has(b, b[0].id);
      }
    } else {
      assert Has(a, a[0].id) && Has(b, b[0].id);
      assert a[0].id == b[0].id;
      HasSplit(a);
      HasSplit(b);
      forall i
        ensures Has(a[1..], i) <==> Has(b[1..], i)
      {
        if i == a[0].id {
          assert !Has(a[1..], i) && !Has(b[1..], i);
        }
      }
      SameIdsSameItems(log, a[1..], b[1..]);
      assert a == [a[0]] + a[1..] && b == [b[0]] + b[1..];
    }
  }

  // ---- The client catches up ----

  /** Everything past the replay cursor is sent, and the connection is live. */
  function CaughtUp(s: State): State
    requires s.cursor < |s.log|
  {
    var all := EventsIn(s.log, s.cursor + 1, |s.log|);
    s.(sent := s.sent + Wire(all), cursor := LastCursor(all, s.cursor), phase := Live)
  }

  /** From any point of a replay some number of pages, each written in full, sends every
      event past the cursor and goes live. */
  lemma {:induction false} ReplayGoesLive(s: State) returns (steps: seq<Step>)
    requires s.phase.Replaying? && -1 <= s.cursor < |s.log| && !HasUnsupported(s.log)
    ensures forall step <- steps :: step == ReadPage(MAX_HISTORY_LIMIT)
    ensures Exec(s, steps) == Some(CaughtUp(s))
    decreases |s.log| - s.cursor
  {
    var more := FullPage(s);
    var t := Apply(s, ReadPage(MAX_HISTORY_LIMIT));
    var rest: seq<Step> := [];
    if more {
      rest := ReplayGoesLive(t);
    }
    steps := [ReadPage(MAX_HISTORY_LIMIT)] + rest;
    ExecStep(s, ReadPage(MAX_HISTORY_LIMIT), rest);
  }

  /** One page written in full: the rest is left for the next one, or there is none. */
  lemma FullPage(s: State) returns (more: bool)
    requires s.phase.Replaying? && -1 <= s.cursor < |s.log| && !HasUnsupported(s.log)
    ensures var t := Apply(s, ReadPage(MAX_HISTORY_LIMIT));
            if more then
              && t.phase.Replaying? && t.log == s.log && s.cursor < t.cursor < |t.log|
              && CaughtUp(t) == CaughtUp(s)
            else t == CaughtUp(s)
  {
    var page, rest := PageAndRest(s.log, s.cursor);
    more := page.hasMore;
    FullPageApplied(s, page);
    PageThenRest(s, page.records, rest, page.nextAfter, more);
  }

  /** The page a supported log gives, and the events left for the next one. */
  lemma PageAndRest(log: seq<Line>, cursor: int) returns (page: Page, rest: seq<Record>)
    requires -1 <= cursor < |log| && !HasUnsupported(log)
    ensures PageOf(log, cursor, MAX_HISTORY_LIMIT) == PageOk(page)
    ensures |page.records| <= MAX_HISTORY_LIMIT && page.nextAfter == LastCursor(page.records, cursor)
    ensures EventsIn(log, cursor + 1, |log|) == page.records + rest
    ensures cursor <= page.nextAfter < |log|
    ensures if page.hasMore then cursor < page.nextAfter && rest == EventsIn(log, page.nextAfter + 1, |log|)
            else rest == []
  {
    PageServed(log, cursor, MAX_HISTORY_LIMIT);
    page := PageOf(log, cursor, MAX_HISTORY_LIMIT).page;
    PageParts(log, cursor, MAX_HISTORY_LIMIT, page);
    PagePrefix(log, cursor, MAX_HISTORY_LIMIT, page, EventsIn(log, cursor + 1, |log|),
               EventsIn(log, page.nextAfter + 1, |log|));
    rest := EventsIn(log, page.nextAfter + 1, |log|);
  }

  /** Sending some events and then the others is sending them all. */
  lemma PageThenRest(s: State, records: seq<Record>, rest: seq<Record>, next: int, more: bool)
    requires s.cursor <= next < |s.log| && next == LastCursor(records, s.cursor)
    requires EventsIn(s.log, s.cursor + 1, |s.log|) == records + rest
    requires if more then rest == EventsIn(s.log, next + 1, |s.log|) else rest == []
    ensures var t := s.(sent := s.sent + Wire(records), cursor := next, phase := if more then Replaying else Live);
            if more then CaughtUp(t) == CaughtUp(s) else t == CaughtUp(s)
  {
    WireJoins(records, rest);
    JoinedAgain(s.sent, Wire(records), Wire(rest));
    assert records + [] == records;
  }

  lemma FullPageApplied(s: State, page: Page)
    requires s.phase.Replaying? && PageOf(s.log, s.cursor, MAX_HISTORY_LIMIT) == PageOk(page)
    requires |page.records| <= MAX_HISTORY_LIMIT
    ensures Apply(s, ReadPage(MAX_HISTORY_LIMIT))
         == s.(sent := s.sent + Wire(page.records), cursor := LastCursor(page.records, s.cursor),
               phase := if page.hasMore then Replaying else Live)
  {
  }

  lemma WireJoins(a: seq<Record>, b: seq<Record>)
    ensures Wire(a + b) == Wire(a) + Wire(b)
    ensures forall after :: LastCursor(a + b, after) == LastCursor(b, LastCursor(a, after))
  {
  }

  lemma JoinedAgain(a: seq<Item>, b: seq<Item>, c: seq<Item>)
    ensures a + b + c == a + (b + c)
  {
  }

  /** The buffered items that the replay has not covered. */
  function Uncovered(items: seq<Item>, cursor: int): seq<Item> {
    if items == [] then []
    else (if items[0].id <= cursor then [] else [items[0]]) + Uncovered(items[1..], cursor)
  }

  /** A live client that takes what it is sent gets the whole buffer. */
  lemma {:induction false} BufferDrains(s: State) returns (steps: seq<Step>)
    requires s.phase.Live?
    ensures forall step <- steps :: step == Receive(true)
    ensures Exec(s, steps) == Some(s.(chan := [], sent := s.sent + Uncovered(s.chan, s.cursor)))
    decreases |s.chan|
  {
    if s.chan == [] {
      steps := [];
      assert s.sent + [] == s.sent;
    } else {
      var t := Apply(s, Receive(true));
      ReceivedOne(s);
      var rest := BufferDrains(t);
      steps := [Receive(true)] + rest;
      ExecStep(s, Receive(true), rest);
    }
  }

  lemma ReceivedOne(s: State)
    requires s.phase.Live? && s.chan != []
    ensures var t := Apply(s, Receive(true));
            && t == s.(chan := s.chan[1..], sent := t.sent)
            && t.sent + Uncovered(t.chan, t.cursor) == s.sent + Uncovered(s.chan, s.cursor)
  {
    var t := Apply(s, Receive(true));
    if s.cursor < s.chan[0].id {
      JoinedAgain(s.sent, [s.chan[0]], Uncovered(s.chan[1..], s.cursor));
    } else {
      assert [] + Uncovered(s.chan[1..], s.cursor) == Uncovered(s.chan[1..], s.cursor);
    }
  }

  lemma {:induction false} ExecJoins(s: State, a: seq<Step>, b: seq<Step>)
    requires Exec(s, a).Some?
    ensures Exec(s, a + b) == Exec(Exec(s, a).value, b)
    decreases |a|
  {
    if a == [] {
      assert a + b == b;
    } else {
      ExecJoins(Apply(s, a[0]), a[1..], b);
      assert (a + b)[1..] == a[1..] + b;
    }
  }

  /** Whatever happened so far, a client that is still connected and takes what it is sent
      gets every event past its cursor but those that overflowed its buffer. */
  lemma ClientCatchesUp(lines: seq<Line>, after: int, steps: seq<Step>, t: State)
    returns (more: seq<Step>, u: State)
    requires NoFailures(steps) && Exec(Open(lines, false, after), steps) == Some(t)
    requires (t.phase.Replaying? || t.phase.Live?) && t.pending.None? && !HasUnsupported(t.log)
    ensures forall step <- more :: step == ReadPage(MAX_HISTORY_LIMIT) || step == Receive(true)
    ensures Exec(t, more) == Some(u) && u.log == t.log && u.dropped == t.dropped && t.sent <= u.sent
    ensures u.phase.Live? && u.chan == []
    ensures forall i :: 0 <= i < |u.log| && after < i && u.log[i].Event? ==>
              (Has(u.sent, i) <==> !(i in u.dropped && u.cursor < i))
  {
    RunKeeps(Open(lines, false, after), steps);
    more, u := RunsOut(t);
    assert forall k :: 0 <= k < |more| ==> more[k] in more;
    assert NoFailures(steps + more);
    ExecJoins(Open(lines, false, after), steps, more);
    IdleClientIsUpToDate(lines, after, steps + more, u);
  }

  /** The rest of the replay and the buffer. */
  lemma RunsOut(t: State) returns (more: seq<Step>, u: State)
    requires (t.phase.Replaying? && -1 <= t.cursor < |t.log| && !HasUnsupported(t.log)) || t.phase.Live?
    ensures forall step <- more :: step == ReadPage(MAX_HISTORY_LIMIT) || step == Receive(true)
    ensures Exec(t, more) == Some(u)
    ensures u == t.(phase := Live, chan := [], cursor := u.cursor, sent := u.sent) && t.sent <= u.sent
  {
    var live, pages := t, [];
    if t.phase.Replaying? {
      pages := ReplayGoesLive(t);
      live := CaughtUp(t);
    }
    var received := BufferDrains(live);
    more := pages + received;
    ExecJoins(t, pages, received);
    u := live.(chan := [], sent := live.sent + Uncovered(live.chan, live.cursor));
  }

  /** What ends a connection: the client leaves, a page is refused or not written in full,
      or an event the replay has not covered cannot be delivered. */
  lemma ClosedOnlyBy(s: State, step: Step)
    requires Enabled(s, step) && !s.phase.Closed?
    ensures Apply(s, step).phase.Closed? <==>
            || step.Disconnect?
            || (step.ReadPage? && Refuses(s))
            || (step.ReadPage? && step.written < MAX_HISTORY_LIMIT && step.written < |EventsLeft(s)|)
            || (step.Receive? && !step.delivered && s.cursor < s.chan[0].id)
  {
    if step.ReadPage? && !Refuses(s) {
      PageLength(s);
    }
  }

  lemma PageLength(s: State)
    requires !Refuses(s)
    ensures var n := |EventsLeft(s)|;
            |PageOf(s.log, s.cursor, MAX_HISTORY_LIMIT).page.records| == if n <= MAX_HISTORY_LIMIT then n
                                                                         else MAX_HISTORY_LIMIT
  {
    PageIsPrefix(s.log, s.cursor, MAX_HISTORY_LIMIT);
  }

  function EventsLeft(s: State): seq<Record> {
    EventsIn(s.log, s.cursor + 1, |s.log|)
  }

  predicate Refuses(s: State) {
    !PageOf(s.log, s.cursor, MAX_HISTORY_LIMIT).PageOk?
  }

  /** How many events are offered in a run. */
  function Offers(steps: seq<Step>): nat {
    if steps == [] then 0 else (if steps[0].FanOut? then 1 else 0) + Offers(steps[1..])
  }

  /** No event is dropped before the buffer has had to hold more than 256. */
  lemma {:induction false} FewEventsAreKept(s: State, steps: seq<Step>)
    requires Exec(s, steps).Some? && |s.chan| + Offers(steps) <= 256
    ensures Exec(s, steps).value.dropped == s.dropped
    decreases |steps|
  {
    if steps != [] {
      FewEventsAreKept(Apply(s, steps[0]), steps[1..]);
    }
  }

  /** An event whose write failed is offered all the same, under the next id. */
  lemma FailedWriteIsOffered(s: State, event: Line, partial: bool)
    requires Enabled(s, FailAppend(event, partial)) && (s.phase.Replaying? || s.phase.Live?)
    ensures var t := Apply(Apply(s, FailAppend(event, partial)), FanOut);
            && (|s.chan| < 256 ==> t.chan == s.chan + [Item(s.nextId, event)] && t.dropped == s.dropped)
            && (|s.chan| >= 256 ==> t.chan == s.chan && t.dropped == s.dropped + {s.nextId})
            && t.nextId == s.nextId + 1 && event !in t.log[|s.log|..]
  {
  }

  /** A new log announces the schema version: any page of it is that one line. */
  lemma NewLogAnnouncesSchema(torn: bool, after: int, limit: nat)
    requires limit >= 1
    ensures var log := Open([], torn, after).log;
            var r := PageOf(log, -1, limit);
            && |log| == 1 && r.PageOk? && !r.page.hasMore && r.page.schema == Some(1)
            && r.page.records == [Record(0, log[0])]
  {
    var log := Open([], torn, after).log;
    EventsInEmpty(log, 0, 0);
    assert EventsIn(log, 0, 1) == [Record(0, log[0])];
    assert !HasUnsupported(log);
    PageServed(log, -1, limit);
    PageIsPrefix(log, -1, limit);
    PageReport(log, -1, limit);
  }

  // ---- When ids and line numbers part ----

  const Probe := Event(0, None)

  /** Once the next id is ahead of the line count, a client that reconnects at
      the tip while an event is being dispatched is sent that event twice, under
      two ids. */
  lemma DriftDuplicates(s: State) returns (steps: seq<Step>)
    requires s.pending.None? && s.phase.Waiting? && s.sent == [] && s.chan == []
    requires !s.torn && |s.log| < s.nextId && s.log != [] && !HasUnsupported(s.log)
    requires s.cursor == s.after == |s.log| - 1
    ensures NoFailures(steps) && Exec(s, steps).Some?
    ensures Exec(s, steps).value.log == s.log + [Probe]
    ensures Exec(s, steps).value.sent == [Item(|s.log|, Probe), Item(s.nextId, Probe)]
  {
    var item := Item(s.nextId, Probe);
    var s3 := Tip(s);
    assert s3.log[..|s3.log| - 1] == s.log;
    var rest := DriftSends(s3, item);
    TipReached(s, rest);
    steps := [Append(Probe)] + ([Subscribe] + ([FanOut] + rest));
  }

  /** One more event logged and offered to a client that subscribed in between. */
  function Tip(s: State): State {
    s.(log := s.log + [Probe], nextId := s.nextId + 1, phase := Replaying, subscribedAt := s.nextId,
       chan := [Item(s.nextId, Probe)])
  }

  lemma TipReached(s: State, rest: seq<Step>)
    requires s.pending.None? && s.phase.Waiting? && s.chan == [] && !s.torn
    requires -1 <= s.after < |s.log|
    ensures Exec(s, [Append(Probe)] + ([Subscribe] + ([FanOut] + rest))) == Exec(Tip(s), rest)
  {
    var s1 := s.(log := s.log + [Probe], nextId := s.nextId + 1, pending := Some(Item(s.nextId, Probe)));
    var s2 := s1.(phase := Replaying, subscribedAt := s.nextId);
    ExecStep(s2, FanOut, rest);
    assert s2.chan + [s2.pending.value] == [Item(s.nextId, Probe)];
    assert Apply(s2, FanOut) == Tip(s);
    ExecStep(s1, Subscribe, [FanOut] + rest);
    assert Apply(s, Append(Probe)) == s1;
    ExecStep(s, Append(Probe), [Subscribe] + ([FanOut] + rest));
  }

  /** The replay sends the last line and the buffer sends it again. */
  lemma DriftSends(s: State, item: Item) returns (steps: seq<Step>)
    requires s.phase.Replaying? && |s.log| > 1 && s.log[|s.log| - 1] == Probe && s.sent == []
    requires s.cursor == |s.log| - 2 && !HasUnsupported(s.log[..|s.log| - 1])
    requires s.chan == [item] && |s.log| - 1 < item.id
    ensures NoFailures(steps) && Exec(s, steps).Some?
    ensures Exec(s, steps).value.log == s.log
    ensures Exec(s, steps).value.sent == [Item(|s.log| - 1, Probe), item]
  {
    var s1 := s.(sent := [Item(|s.log| - 1, Probe)], cursor := |s.log| - 1, phase := Live);
    var s2 := s1.(chan := [], sent := [Item(|s.log| - 1, Probe), item]);
    ExecStep(s1, Receive(true), []);
    assert Apply(s1, Receive(true)) == s2;
    assert [Receive(true)] + [] == [Receive(true)];
    DriftReplays(s);
    ExecStep(s, ReadPage(1), [Receive(true)]);
    steps := [ReadPage(1)] + [Receive(true)];
  }

  lemma DriftReplays(s: State)
    requires s.phase.Replaying? && s.log != [] && s.log[|s.log| - 1] == Probe && s.sent == []
    requires s.cursor == |s.log| - 2 && !HasUnsupported(s.log[..|s.log| - 1])
    ensures Apply(s, ReadPage(1))
            == s.(sent := [Item(|s.log| - 1, Probe)], cursor := |s.log| - 1, phase := Live)
  {
    var log := s.log[..|s.log| - 1];
    assert log + [Probe] == s.log;
    var page := TipPage(log);
    OneRecordApplied(s, page, |log|);
  }

  lemma OneRecordApplied(s: State, page: Page, cursor: nat)
    requires s.phase.Replaying? && s.sent == [] && page.records == [Record(cursor, Probe)] && !page.hasMore
    requires PageOf(s.log, s.cursor, MAX_HISTORY_LIMIT) == PageOk(page)
    ensures Apply(s, ReadPage(1)) == s.(sent := [Item(cursor, Probe)], cursor := cursor, phase := Live)
  {
    LastPageApplied(s, page);
    assert Wire([Record(cursor, Probe)]) == [Item(cursor, Probe)];
  }

  lemma LastPageApplied(s: State, page: Page)
    requires s.phase.Replaying? && s.sent == [] && |page.records| == 1 && !page.hasMore
    requires PageOf(s.log, s.cursor, MAX_HISTORY_LIMIT) == PageOk(page)
    ensures Apply(s, ReadPage(1))
            == s.(sent := Wire(page.records), cursor := LastCursor(page.records, s.cursor), phase := Live)
  {
  }

  /** One event past the tip is one page. */
  lemma TipPage(log: seq<Line>) returns (page: Page)
    requires !HasUnsupported(log)
    ensures PageOf(log + [Probe], |log| - 1, MAX_HISTORY_LIMIT) == PageOk(page)
    ensures page.records == [Record(|log|, Probe)] && !page.hasMore
  {
    var more := log + [Probe];
    TipEvents(log);
    assert !HasUnsupported(more);
    assert |more| == |log| + 1;
    assert EventsIn(more, |log| - 1 + 1, |more|) == [Record(|log|, Probe)];
    OneEventPage(more, |log| - 1);
    page := PageOf(more, |log| - 1, MAX_HISTORY_LIMIT).page;
  }

  lemma TipEvents(log: seq<Line>)
    ensures EventsIn(log + [Probe], |log|, |log| + 1) == [Record(|log|, Probe)]
  {
    EventsInEmpty(log + [Probe], |log|, |log|);
  }

  lemma OneEventPage(log: seq<Line>, after: int)
    requires |EventsIn(log, after + 1, |log|)| == 1 && after < |log| && !HasUnsupported(log)
    ensures var r := PageOf(log, after, MAX_HISTORY_LIMIT);
            r.PageOk? && r.page.records == EventsIn(log, after + 1, |log|) && !r.page.hasMore
  {
    PageServed(log, after, MAX_HISTORY_LIMIT);
    PageIsPrefix(log, after, MAX_HISTORY_LIMIT);
  }

  lemma ExecStep(s: State, step: Step, rest: seq<Step>)
    requires Enabled(s, step)
    ensures Exec(s, [step] + rest) == Exec(Apply(s, step), rest)
  {
    assert ([step] + rest)[1..] == rest;
  }

  // ---- When a reconnecting client can be let in ----

  /** Nothing in flight and a client yet to connect. */
  ghost predicate AtRest(s: State) {
    && s.pending.None? && s.phase.Waiting? && s.sent == [] && s.chan == [] && s.dropped == {}
    && s.log != [] && |s.log| <= s.nextId && !HasUnsupported(s.log)
  }

  /** The client connects with this cursor. */
  function From(s: State, after: int): State {
    s.(after := after, cursor := after)
  }

  /** Every failure-free continuation, for every cursor, keeps order and numbering. */
  ghost predicate KeepsOrder(s: State) {
    forall after, steps :: NoFailures(steps) && Exec(From(s, after), steps).Some? ==>
                             SentInOrder(Exec(From(s, after), steps).value)
  }

  ghost predicate Broken(s: State, steps: seq<Step>) {
    NoFailures(steps) && Exec(s, steps).Some? && !SentInOrder(Exec(s, steps).value)
  }

  lemma DriftBreaks(s: State) returns (steps: seq<Step>)
    requires AtRest(s) && !s.torn && |s.log| < s.nextId
    ensures Broken(From(s, |s.log| - 1), steps)
  {
    var t := From(s, |s.log| - 1);
    steps := DriftDuplicates(t);
    var sent := Exec(t, steps).value.sent;
    assert sent[1] == Item(s.nextId, Probe);
    assert !IsLine(s.log + [Probe], sent[1]);
  }

  /** After a torn last line ids and lines part at the next append. */
  lemma TornBreaks(s: State) returns (steps: seq<Step>)
    requires AtRest(s) && s.torn
    ensures Broken(From(s, |s.log| - 1), steps)
  {
    var t := From(s, |s.log| - 1);
    var t1 := Apply(t, Append(Probe));
    var t2 := Apply(t1, FanOut);
    assert t2.log == s.log[|s.log| - 1 := Invalid] && !t2.torn && |t2.log| < t2.nextId;
    assert !HasUnsupported(t2.log);
    var rest := DriftBreaks(t2);
    assert From(t2, |t2.log| - 1) == t2;
    steps := [Append(Probe)] + ([FanOut] + rest);
    ExecStep(t, Append(Probe), [FanOut] + rest);
    ExecStep(t1, FanOut, rest);
    assert NoFailures(steps);
  }

  /** At rest, all failure-free continuations keep order and numbering if and only if
      the next id is the line count and the last line is whole. */
  lemma RestDecides(s: State)
    requires AtRest(s)
    ensures KeepsOrder(s) <==> s.nextId == |s.log| && !s.torn
  {
    if s.nextId == |s.log| && !s.torn {
      forall after, steps | NoFailures(steps) && Exec(From(s, after), steps).Some?
        ensures SentInOrder(Exec(From(s, after), steps).value)
      {
        assert Inv(From(s, after));
        RunKeeps(From(s, after), steps);
      }
    } else {
      var steps: seq<Step>;
      if s.torn {
        steps := TornBreaks(s);
      } else {
        steps := DriftBreaks(s);
      }
      assert Broken(From(s, |s.log| - 1), steps);
    }
  }

  /** So, as long as writes succeed, every run from an opened log keeps its
      promise if and only if the log did not end in a torn line. */
  lemma OpenDecides(lines: seq<Line>, torn: bool, after: int)
    requires lines != [] && !HasUnsupported(lines)
    ensures KeepsOrder(Open(lines, torn, after)) <==> !torn
  {
    RestDecides(Open(lines, torn, after));
  }

  /** Over every run, failed writes included, the next id never falls behind the line
      count, so ids can part from line numbers in one direction only. */
  lemma IdsStayAhead(lines: seq<Line>, torn: bool, after: int, steps: seq<Step>)
    requires Exec(Open(lines, torn, after), steps).Some?
    ensures var t := Exec(Open(lines, torn, after), steps).value; |t.log| <= t.nextId
  {
    RunStaysAhead(Open(lines, torn, after), steps);
  }

  lemma {:induction false} RunStaysAhead(s: State, steps: seq<Step>)
    requires s.log != [] && |s.log| <= s.nextId && Exec(s, steps).Some?
    ensures var t := Exec(s, steps).value; t.log != [] && |t.log| <= t.nextId
    decreases |steps|
  {
    if steps != [] {
      RunStaysAhead(Apply(s, steps[0]), steps[1..]);
    }
  }

  /** One failed write at rest is enough: from then on some failure-free continuation
      breaks the promise. */
  lemma FailureDecides(s: State, event: Line, partial: bool)
    requires AtRest(s) && Enabled(s, FailAppend(event, partial))
    ensures var t := Apply(Apply(s, FailAppend(event, partial)), FanOut);
            AtRest(t) && !KeepsOrder(t)
  {
    var t1 := Apply(s, FailAppend(event, partial));
    var t := Apply(t1, FanOut);
    assert partial ==> t.torn || |t.log| < t.nextId;
    FailedLogSupported(s, event, partial);
    RestDecides(t);
  }

  lemma FailedLogSupported(s: State, event: Line, partial: bool)
    requires AtRest(s) && Enabled(s, FailAppend(event, partial))
    ensures !HasUnsupported(Apply(s, FailAppend(event, partial)).log)
  {
    var log := Apply(s, FailAppend(event, partial)).log;
    assert forall i :: 0 <= i < |log| ==> log[i] == Invalid || (i < |s.log| && log[i] == s.log[i]);
  }
}
