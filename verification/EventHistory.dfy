/**
 Durable event history: the paged reader over a session's append-only
 events.jsonl and the loop that chains its pages. A cursor is a zero-based
 line number; -1 stands before the first line.
*/
module EventHistory {
  import opened Options

  const MAX_HISTORY_LIMIT := 500
  const TRACE_SCHEMA_VERSION := 1

  /** One physical line, as the reader classifies it. `meta` is the schema
      version a trace.meta record announces; `body` stands for the rest of
      the decoded event. */
  datatype Line =
    | Event(body: nat, meta: Option<int>)
    | Oversized
    | Invalid

  datatype Record = Record(cursor: int, event: Line)

  datatype Page = Page(records: seq<Record>, nextAfter: int, hasMore: bool,
                       oversized: nat, invalid: nat, schema: Option<int>)

  datatype PageResult = PageOk(page: Page) | SchemaUnsupported | CursorAhead

  /** A schema version the server refuses; zero and below count as unversioned. */
  predicate Unsupported(line: Line) {
    line.Event? && line.meta.Some? && line.meta.value > TRACE_SCHEMA_VERSION
  }

  predicate HasUnsupported(log: seq<Line>) {
    exists i :: 0 <= i < |log| && Unsupported(log[i])
  }

  /** The decodable events on lines lo <= i < hi, each with its line number. */
  function EventsIn(log: seq<Line>, lo: int, hi: nat): seq<Record>
    requires hi <= |log|
  {
    if hi == 0 then []
    else
      EventsIn(log, lo, hi - 1)
      + (if log[hi - 1].Event? && lo <= hi - 1 then [Record(hi - 1, log[hi - 1])] else [])
  }

  function CountOf(log: seq<Line>, line: Line): nat {
    if log == [] then 0
    else CountOf(log[..|log| - 1], line) + (if log[|log| - 1] == line then 1 else 0)
  }

  /** The schema version announced last. */
  function LastSchema(log: seq<Line>): Option<int> {
    if log == [] then None
    else
      var last := log[|log| - 1];
      if last.Event? && last.meta.Some? then last.meta else LastSchema(log[..|log| - 1])
  }

  /** Line i is an event past the cursor that no longer fits in the page. */
  predicate StopsAt(log: seq<Line>, after: int, limit: int, i: nat)
    requires i < |log|
  {
    log[i].Event? && after < i && limit <= |EventsIn(log, after + 1, i)|
  }

  /** The first line from `i` on that no longer fits, or the end of the log. */
  function PageEnd(log: seq<Line>, after: int, limit: int, i: nat): (end: nat)
    requires i <= |log|
    ensures i <= end <= |log|
    ensures end < |log| ==> StopsAt(log, after, limit, end)
    ensures forall j :: i <= j < end ==> !StopsAt(log, after, limit, j)
    decreases |log| - i
  {
    if i == |log| || StopsAt(log, after, limit, i) then i else PageEnd(log, after, limit, i + 1)
  }

  function LastCursor(records: seq<Record>, after: int): int {
    if records == [] then after else records[|records| - 1].cursor
  }

  /** What one page read answers: it reads up to and including the first line
      that does not fit, and the line that stops it is still schema-checked. */
  function PageOf(log: seq<Line>, after: int, limit: int): PageResult {
    var end := PageEnd(log, after, limit, 0);
    var seen := if end < |log| then log[..end + 1] else log;
    var records := EventsIn(log, after + 1, end);
    if HasUnsupported(seen) then SchemaUnsupported
    else if after >= |seen| then CursorAhead
    else PageOk(Page(records, LastCursor(records, after), end < |log|,
                     CountOf(log[..end], Oversized), CountOf(log[..end], Invalid), LastSchema(seen)))
  }

  /** The reading loop. */
  method ReadHistoryPage(log: seq<Line>, after: int, limit: int) returns (r: PageResult)
    ensures r == PageOf(log, after, limit)
  {
    var records: seq<Record> := [];
    var nextAfter, hasMore := after, false;
    var oversized: nat, invalid: nat := 0, 0;
    var schema: Option<int> := None;
    ghost var end := PageEnd(log, after, limit, 0);
    var lineNo := -1;
    while lineNo + 1 < |log|
      invariant -1 <= lineNo < |log| && lineNo < end
      invariant records == EventsIn(log, after + 1, lineNo + 1)
      invariant nextAfter == LastCursor(records, after)
      invariant oversized == CountOf(log[..lineNo + 1], Oversized)
      invariant invalid == CountOf(log[..lineNo + 1], Invalid)
      invariant schema == LastSchema(log[..lineNo + 1])
      invariant !HasUnsupported(log[..lineNo + 1])
      invariant !hasMore
    {
      lineNo := lineNo + 1;
      var line := log[lineNo];
      assert log[..lineNo + 1][..lineNo] == log[..lineNo];
      if line.Oversized? {
        oversized := oversized + 1;
        continue;
      }
      if line.Invalid? {
        invalid := invalid + 1;
        continue;
      }
      if line.meta.Some? {
        if line.meta.value > TRACE_SCHEMA_VERSION {
          SeenByPage(log, after, limit, lineNo);
          return SchemaUnsupported;
        }
        schema := line.meta;
      }
      if lineNo <= after {
        continue;
      }
      if |records| >= limit {
        assert StopsAt(log, after, limit, lineNo);
        hasMore := true;
        break;
      }
      records := records + [Record(lineNo, line)];
      nextAfter := lineNo;
    }
    assert log[..|log|] == log;
    assert end == if hasMore then lineNo else |log|;
    assert !HasUnsupported(log[..lineNo + 1]);
    if after > lineNo {
      return CursorAhead;
    }
    return PageOk(Page(records, nextAfter, hasMore, oversized, invalid, schema));
  }

  lemma SeenByPage(log: seq<Line>, after: int, limit: int, i: nat)
    requires i < |log| && i <= PageEnd(log, after, limit, 0) && Unsupported(log[i])
    ensures PageOf(log, after, limit) == SchemaUnsupported
  {
    var end := PageEnd(log, after, limit, 0);
    var seen := if end < |log| then log[..end + 1] else log;
    assert seen[i] == log[i];
  }

  // ---- What a page is ----

  lemma {:induction false} EventsInOrdered(log: seq<Line>, lo: int, hi: nat)
    requires hi <= |log|
    ensures forall k :: 0 <= k < |EventsIn(log, lo, hi)| ==>
              var rec := EventsIn(log, lo, hi)[k];
              0 <= rec.cursor < hi && lo <= rec.cursor && log[rec.cursor] == rec.event && rec.event.Event?
    ensures forall k, l :: 0 <= k < l < |EventsIn(log, lo, hi)| ==>
              EventsIn(log, lo, hi)[k].cursor < EventsIn(log, lo, hi)[l].cursor
  {
    if hi > 0 {
      EventsInOrdered(log, lo, hi - 1);
    }
  }

  lemma {:induction false} EventsInComplete(log: seq<Line>, lo: int, hi: nat, i: nat)
    requires hi <= |log| && i < hi && lo <= i && log[i].Event?
    ensures Record(i, log[i]) in EventsIn(log, lo, hi)
  {
    if i < hi - 1 {
      EventsInComplete(log, lo, hi - 1, i);
    }
  }

  lemma {:induction false} EventsInSplit(log: seq<Line>, lo: int, mid: nat, hi: nat)
    requires lo <= mid <= hi <= |log|
    ensures EventsIn(log, lo, hi) == EventsIn(log, lo, mid) + EventsIn(log, mid, hi)
  {
    if mid < hi {
      EventsInSplit(log, lo, mid, hi - 1);
    } else {
      EventsInEmpty(log, mid, hi);
    }
  }

  lemma {:induction false} EventsInEmpty(log: seq<Line>, lo: int, hi: nat)
    requires hi <= |log| && hi <= lo
    ensures EventsIn(log, lo, hi) == []
  {
    if hi > 0 {
      EventsInEmpty(log, lo, hi - 1);
    }
  }

  /** A page is the longest run of events after the cursor that fits, `hasMore`
      tells exactly whether one is left over, and the next cursor lies just
      before the rest: what the page returns and what follows the next cursor
      are together what followed the old one. */
  lemma PageIsPrefix(log: seq<Line>, after: int, limit: nat)
    requires PageOf(log, after, limit).PageOk?
    ensures var page := PageOf(log, after, limit).page;
            var all := EventsIn(log, after + 1, |log|);
            && page.records == (if |all| <= limit then all else all[..limit])
            && (page.hasMore <==> |all| > limit)
            && after <= page.nextAfter < |log|
            && all == page.records + EventsIn(log, page.nextAfter + 1, |log|)
            && (page.nextAfter == after <==> page.records == [])
  {
    var page := PageOf(log, after, limit).page;
    PagePrefix(log, after, limit, page, EventsIn(log, after + 1, |log|), EventsIn(log, page.nextAfter + 1, |log|));
  }

  lemma PagePrefix(log: seq<Line>, after: int, limit: nat, page: Page, all: seq<Record>, rest: seq<Record>)
    requires PageOf(log, after, limit) == PageOk(page)
    requires all == EventsIn(log, after + 1, |log|) && rest == EventsIn(log, page.nextAfter + 1, |log|)
    ensures page.records == (if |all| <= limit then all else all[..limit])
    ensures page.hasMore <==> |all| > limit
    ensures after <= page.nextAfter < |log|
    ensures all == page.records + rest
    ensures page.nextAfter == after <==> page.records == []
  {
    PageParts(log, after, limit, page);
    ReadUntilFull(log, after, limit);
    PrefixCases(page.records, rest, limit, page.hasMore);
  }

  lemma PageParts(log: seq<Line>, after: int, limit: nat, page: Page)
    requires PageOf(log, after, limit) == PageOk(page)
    ensures var end := PageEnd(log, after, limit, 0);
            && page.records == EventsIn(log, after + 1, end)
            && page.nextAfter == LastCursor(page.records, after)
            && (page.hasMore <==> end < |log|)
    ensures after <= page.nextAfter < |log|
    ensures page.nextAfter == after <==> page.records == []
  {
    EventsInOrdered(log, after + 1, PageEnd(log, after, limit, 0));
  }

  lemma LastPageEndsLog(log: seq<Line>, after: int, limit: nat, page: Page)
    requires PageOf(log, after, limit) == PageOk(page) && !page.hasMore
    ensures after <= page.nextAfter && |EventsIn(log, page.nextAfter + 1, |log|)| == 0
  {
    PageParts(log, after, limit, page);
    ReadUntilFull(log, after, limit);
    var records := EventsIn(log, after + 1, PageEnd(log, after, limit, 0));
    assert page.records == records;
    assert EventsIn(log, LastCursor(records, after) + 1, |log|) == [];
  }

  lemma PrefixCases(records: seq<Record>, rest: seq<Record>, limit: nat, more: bool)
    requires if more then |records| == limit && rest != [] else |records| <= limit && rest == []
    ensures var all := records + rest;
            records == (if |all| <= limit then all else all[..limit]) && (more <==> |all| > limit)
  {
  }

  /** Reading stops with everything read, or with a full page and more to come. */
  lemma ReadUntilFull(log: seq<Line>, after: int, limit: nat)
    ensures var end := PageEnd(log, after, limit, 0);
            var records := EventsIn(log, after + 1, end);
            var rest := EventsIn(log, LastCursor(records, after) + 1, |log|);
            && EventsIn(log, after + 1, |log|) == records + rest
            && if end < |log| then |records| == limit && rest != [] else |records| <= limit && rest == []
  {
    var end := PageEnd(log, after, limit, 0);
    PageFits(log, after, limit, end);
    SplitAtLast(log, after + 1, end);
    if end < |log| {
      EventsInOrdered(log, after + 1, end);
      LeftOver(log, LastCursor(EventsIn(log, after + 1, end), after) + 1, end);
    } else {
      NothingAfterLast(log, after + 1, end);
    }
  }

  lemma SplitAtLast(log: seq<Line>, lo: int, hi: nat)
    requires hi <= |log|
    ensures var records := EventsIn(log, lo, hi);
            EventsIn(log, lo, |log|) == records + EventsIn(log, LastCursor(records, lo - 1) + 1, |log|)
  {
    var records := EventsIn(log, lo, hi);
    if records != [] {
      EventsInOrdered(log, lo, hi);
      SplitAfter(log, lo, hi, LastCursor(records, lo - 1) + 1);
    }
  }

  lemma SplitAfter(log: seq<Line>, lo: int, hi: nat, next: int)
    requires hi <= |log| && next == LastCursor(EventsIn(log, lo, hi), lo - 1) + 1 && lo <= next <= hi && 0 <= next
    ensures EventsIn(log, lo, |log|) == EventsIn(log, lo, hi) + EventsIn(log, next, |log|)
  {
    EventsInSplit(log, lo, next, |log|);
    EventsInSplit(log, lo, next, hi);
    NothingAfterLast(log, lo, hi);
  }

  lemma LeftOver(log: seq<Line>, lo: int, i: nat)
    requires i < |log| && log[i].Event? && lo <= i
    ensures EventsIn(log, lo, |log|) != []
  {
    EventsInComplete(log, lo, |log|, i);
  }

  /** No event lies between the last one listed and the end of the range. */
  lemma {:induction false} NothingAfterLast(log: seq<Line>, lo: int, hi: nat)
    requires hi <= |log|
    ensures EventsIn(log, LastCursor(EventsIn(log, lo, hi), lo - 1) + 1, hi) == []
  {
    if hi > 0 {
      if log[hi - 1].Event? && lo <= hi - 1 {
        EventsInEmpty(log, hi, hi);
      } else {
        NothingAfterLast(log, lo, hi - 1);
        var next := LastCursor(EventsIn(log, lo, hi - 1), lo - 1);
        EventsInOrdered(log, lo, hi - 1);
      }
    }
  }

  /** No more than `limit` events are read before the page ends. */
  lemma {:induction false} PageFits(log: seq<Line>, after: int, limit: nat, hi: nat)
    requires hi <= PageEnd(log, after, limit, 0)
    ensures |EventsIn(log, after + 1, hi)| <= limit
  {
    if hi > 0 {
      PageFits(log, after, limit, hi - 1);
      assert !StopsAt(log, after, limit, hi - 1);
    }
  }

  /** A prefix of the events past a cursor is the events up to its last one. */
  lemma PrefixIsRange(log: seq<Line>, lo: int, n: nat)
    requires n <= |EventsIn(log, lo, |log|)| && 0 <= lo <= |log|
    ensures var some := EventsIn(log, lo, |log|)[..n];
            var next := LastCursor(some, lo - 1) + 1;
            lo <= next <= |log| && some == EventsIn(log, lo, next)
  {
    var all := EventsIn(log, lo, |log|);
    var next := LastCursor(all[..n], lo - 1) + 1;
    EventsInOrdered(log, lo, |log|);
    if n == 0 {
      EventsInEmpty(log, lo, lo);
    } else {
      EventsInSplit(log, lo, next, |log|);
      EventsInOrdered(log, lo, next);
      EventsInOrdered(log, next, |log|);
      CutByCursor(EventsIn(log, lo, next), EventsIn(log, next, |log|), n);
    }
  }

  lemma CutByCursor(head: seq<Record>, tail: seq<Record>, n: nat)
    requires 0 < n <= |head| + |tail|
    requires var all := head + tail;
             forall k, l :: 0 <= k < l < |all| ==> all[k].cursor < all[l].cursor
    requires forall k :: 0 <= k < |head| ==> head[k].cursor <= (head + tail)[n - 1].cursor
    requires forall k :: 0 <= k < |tail| ==> (head + tail)[n - 1].cursor < tail[k].cursor
    ensures (head + tail)[..n] == head
  {
    var all := head + tail;
    var last := all[n - 1];
    assert forall k :: |head| <= k < |all| ==> all[k] == tail[k - |head|] && last.cursor < all[k].cursor;
    assert forall k :: 0 <= k < |head| ==> all[k] == head[k] && all[k].cursor <= last.cursor;
    assert n <= |head|;
    assert n < |all| ==> last.cursor < all[n].cursor;
    assert n >= |head|;
    assert all[..|head|] == head;
  }

  // ---- What a page reports ----

  /** How many lines a page read takes in before the first event that does not fit. */
  function LinesTaken(log: seq<Line>, after: int, limit: nat): (n: nat)
    ensures n <= |log|
  {
    var all := EventsIn(log, after + 1, |log|);
    if |all| > limit then
      EventsInOrdered(log, after + 1, |log|);
      all[limit].cursor
    else |log|
  }

  /** With the event that does not fit, which is decoded too. */
  function LinesSeen(log: seq<Line>, after: int, limit: nat): (n: nat)
    ensures n <= |log|
  {
    if LinesTaken(log, after, limit) < |log| then LinesTaken(log, after, limit) + 1 else |log|
  }

  predicate Announces(line: Line) {
    line.Event? && line.meta.Some?
  }

  /** The schema is the one announced last among the first n lines. */
  ghost predicate AnnouncedLast(log: seq<Line>, n: nat, schema: Option<int>)
    requires n <= |log|
  {
    if schema.None? then forall i :: 0 <= i < n ==> !Announces(log[i])
    else exists i :: 0 <= i < n && Announces(log[i]) && log[i].meta == schema
                     && forall j :: i < j < n ==> !Announces(log[j])
  }

  /** A page counts the oversized and the invalid lines it took in, reports the schema
      announced last among the lines it saw, and is refused for its schema exactly when one
      of those announces one the server does not support. */
  lemma PageReport(log: seq<Line>, after: int, limit: nat)
    ensures PageOf(log, after, limit).SchemaUnsupported? <==>
            exists i :: 0 <= i < LinesSeen(log, after, limit) && Unsupported(log[i])
    ensures PageOf(log, after, limit).PageOk? ==>
              var page, n := PageOf(log, after, limit).page, LinesTaken(log, after, limit);
              && page.oversized == |set i | 0 <= i < n && log[i] == Oversized|
              && page.invalid == |set i | 0 <= i < n && log[i] == Invalid|
              && AnnouncedLast(log, LinesSeen(log, after, limit), page.schema)
  {
    var n := LinesTaken(log, after, limit);
    TakenIsPageEnd(log, after, limit);
    var seen := if n < |log| then log[..n + 1] else log;
    assert seen == log[..LinesSeen(log, after, limit)];
    CountIs(log, n, Oversized);
    CountIs(log, n, Invalid);
    LastSchemaIs(log, LinesSeen(log, after, limit));
  }

  lemma TakenIsPageEnd(log: seq<Line>, after: int, limit: nat)
    ensures PageEnd(log, after, limit, 0) == LinesTaken(log, after, limit)
  {
    var end := PageEnd(log, after, limit, 0);
    PageFits(log, after, limit, end);
    if end < |log| {
      EventsInSplit(log, after + 1, end, |log|);
      EventsInSplit(log, end, end + 1, |log|);
      EventsInEmpty(log, end, end);
      assert EventsIn(log, end, end + 1) == [Record(end, log[end])];
    }
  }

  lemma {:induction false} CountIs(log: seq<Line>, n: nat, line: Line)
    requires n <= |log|
    ensures CountOf(log[..n], line) == |set i | 0 <= i < n && log[i] == line|
  {
    if n > 0 {
      CountIs(log, n - 1, line);
      assert log[..n][..n - 1] == log[..n - 1];
      OneMoreLine(log, n - 1, line);
    }
  }

  lemma OneMoreLine(log: seq<Line>, n: nat, line: Line)
    requires n < |log|
    ensures |set i | 0 <= i < n + 1 && log[i] == line|
         == |set i | 0 <= i < n && log[i] == line| + if log[n] == line then 1 else 0
  {
    var before, now := set i | 0 <= i < n && log[i] == line, set i | 0 <= i < n + 1 && log[i] == line;
    assert now == before + if log[n] == line then {n} else {};
  }

  lemma {:induction false} LastSchemaIs(log: seq<Line>, n: nat)
    requires n <= |log|
    ensures AnnouncedLast(log, n, LastSchema(log[..n]))
  {
    if n > 0 {
      LastSchemaIs(log, n - 1);
      assert log[..n][..n - 1] == log[..n - 1];
    }
  }

  // ---- Which cursors are refused ----

  /** The check made before a replay starts: a non-negative cursor must not be
      past the last line. */
  predicate ReplayCursorValid(log: seq<Line>, cursor: int) {
    cursor < 0 || cursor <= |log| - 1
  }

  /** A page read refuses exactly the cursors the up-front check refuses, unless
      it meets a schema version it does not support first. */
  lemma CursorAheadAgrees(log: seq<Line>, after: int, limit: int)
    requires -1 <= after
    ensures PageOf(log, after, limit).CursorAhead? <==>
            !ReplayCursorValid(log, after) && !HasUnsupported(log)
  {
    var end := PageEnd(log, after, limit, 0);
    if end < |log| {
      assert after < end;
    }
  }

  // ---- Following pages ----

  /** A client that asks for `after := nextAfter` until `hasMore` is false. The
      flag tells whether every page was served. */
  function FollowPages(log: seq<Line>, after: int, limit: nat): (r: (seq<Record>, bool))
    requires limit >= 1
    decreases |log| - after
  {
    match PageOf(log, after, limit)
    case SchemaUnsupported => ([], false)
    case CursorAhead => ([], false)
    case PageOk(page) =>
      if page.hasMore then
        PageIsPrefix(log, after, limit);
        var rest := FollowPages(log, page.nextAfter, limit);
        (page.records + rest.0, rest.1)
      else (page.records, true)
  }

  /** Following pages gives every event past the cursor once and in order,
      whatever the page size; it is served in full exactly when the cursor is
      valid and no line announces an unsupported schema, and a refusal leaves
      only a prefix behind. */
  lemma {:induction false} FollowPagesComplete(log: seq<Line>, after: int, limit: nat, served: (seq<Record>, bool))
    requires limit >= 1 && served == FollowPages(log, after, limit)
    ensures Complete(log, after, served)
    decreases |log| - after
  {
    var page, more, rest := PageStep(log, after, limit, served);
    if more {
      FollowPagesComplete(log, page.nextAfter, limit, rest);
      LaterPagesComplete(log, after, page, rest);
    }
  }

  lemma PageStep(log: seq<Line>, after: int, limit: nat, served: (seq<Record>, bool))
    returns (page: Page, more: bool, rest: (seq<Record>, bool))
    requires limit >= 1 && served == FollowPages(log, after, limit)
    ensures !more ==> Complete(log, after, served)
    ensures more ==>
              && after < page.nextAfter < |log|
              && EventsIn(log, after + 1, |log|) == page.records + EventsIn(log, page.nextAfter + 1, |log|)
              && rest == FollowPages(log, page.nextAfter, limit)
              && served == (page.records + rest.0, rest.1)
  {
    var r := PageOf(log, after, limit);
    page, more, rest := Page([], 0, false, 0, 0, None), r.PageOk? && r.page.hasMore, ([], false);
    if more {
      page := r.page;
      rest := FollowPages(log, page.nextAfter, limit);
      FirstOfPages(log, after, limit, page);
      assert (page.records + rest.0, rest.1) == served;
    } else {
      LastPageComplete(log, after, limit);
    }
  }

  lemma LastPageComplete(log: seq<Line>, after: int, limit: nat)
    requires limit >= 1
    requires var r := PageOf(log, after, limit); !(r.PageOk? && r.page.hasMore)
    ensures Complete(log, after, FollowPages(log, after, limit))
  {
    PageServed(log, after, limit);
    var r := PageOf(log, after, limit);
    if r.PageOk? {
      FirstOfPages(log, after, limit, r.page);
    } else {
      assert FollowPages(log, after, limit) == ([], false);
    }
  }

  /** The records served and whether they were served in full: all events past the
      cursor if so, and if and only if nothing had to be refused. */
  ghost predicate Complete(log: seq<Line>, after: int, served: (seq<Record>, bool)) {
    && (served.1 <==> after < |log| && !HasUnsupported(log))
    && served.0 <= EventsIn(log, after + 1, |log|)
    && (served.1 ==> served.0 == EventsIn(log, after + 1, |log|))
  }

  lemma LaterPagesComplete(log: seq<Line>, after: int, page: Page, rest: (seq<Record>, bool))
    requires after < page.nextAfter < |log| && Complete(log, page.nextAfter, rest)
    requires EventsIn(log, after + 1, |log|) == page.records + EventsIn(log, page.nextAfter + 1, |log|)
    ensures Complete(log, after, (page.records + rest.0, rest.1))
  {
    PrefixJoined(page.records, rest.0, EventsIn(log, page.nextAfter + 1, |log|));
  }

  lemma PrefixJoined(first: seq<Record>, some: seq<Record>, all: seq<Record>)
    requires some <= all
    ensures first + some <= first + all
  {
  }

  lemma FirstOfPages(log: seq<Line>, after: int, limit: nat, page: Page)
    requires limit >= 1 && PageOf(log, after, limit) == PageOk(page)
    ensures if page.hasMore then
              && after < page.nextAfter < |log|
              && EventsIn(log, after + 1, |log|) == page.records + EventsIn(log, page.nextAfter + 1, |log|)
              && FollowPages(log, after, limit)
                 == (page.records + FollowPages(log, page.nextAfter, limit).0,
                     FollowPages(log, page.nextAfter, limit).1)
            else FollowPages(log, after, limit) == (EventsIn(log, after + 1, |log|), true)
  {
    PageIsPrefix(log, after, limit);
  }

  /** A page is served when the cursor is valid and no line is unsupported; a last
      page is served only then. */
  lemma PageServed(log: seq<Line>, after: int, limit: nat)
    ensures after < |log| && !HasUnsupported(log) ==> PageOf(log, after, limit).PageOk?
    ensures PageOf(log, after, limit).PageOk? && !PageOf(log, after, limit).page.hasMore ==>
              after < |log| && !HasUnsupported(log)
    ensures PageOf(log, after, limit).PageOk? ==> after < |log|
  {
    var end := PageEnd(log, after, limit, 0);
    if end < |log| {
      var seen := log[..end + 1];
      assert HasUnsupported(seen) ==> HasUnsupported(log);
    }
  }

  /** The server's own replay loop: pages of the maximum size, each record sent
      as it is read, the cursor following the last record sent. */
  method ReplaySessionEvents(log: seq<Line>, after: int) returns (sent: seq<Record>, cursor: int, ok: bool)
    ensures ok <==> after < |log| && !HasUnsupported(log)
    ensures sent <= EventsIn(log, after + 1, |log|)
    ensures ok ==> sent == EventsIn(log, after + 1, |log|)
    ensures cursor == LastCursor(sent, after)
  {
    sent, cursor := [], after;
    ghost var all := FollowPages(log, after, MAX_HISTORY_LIMIT);
    FollowPagesComplete(log, after, MAX_HISTORY_LIMIT, all);
    while true
      invariant cursor == LastCursor(sent, after)
      invariant Continues(log, all, sent, cursor)
      decreases |log| - cursor
    {
      var r := ReadHistoryPage(log, cursor, MAX_HISTORY_LIMIT);
      NextPage(log, all, sent, cursor);
      if !r.PageOk? {
        return sent, cursor, false;
      }
      sent, cursor := SendAll(sent, cursor, after, r.page.records);
      if !r.page.hasMore {
        return sent, cursor, true;
      }
    }
  }

  /** What was sent so far and what following the pages from here would give
      make up the whole. */
  ghost predicate Continues(log: seq<Line>, all: (seq<Record>, bool), sent: seq<Record>, cursor: int) {
    var rest := FollowPages(log, cursor, MAX_HISTORY_LIMIT);
    all.0 == sent + rest.0 && all.1 == rest.1
  }

  lemma NextPage(log: seq<Line>, all: (seq<Record>, bool), sent: seq<Record>, cursor: int)
    requires Continues(log, all, sent, cursor)
    ensures var r := PageOf(log, cursor, MAX_HISTORY_LIMIT);
            if !r.PageOk? then all == (sent, false)
            else
              && r.page.nextAfter == LastCursor(r.page.records, cursor)
              && if r.page.hasMore then
                   && cursor < r.page.nextAfter < |log|
                   && Continues(log, all, sent + r.page.records, r.page.nextAfter)
                 else all == (sent + r.page.records, true)
  {
    var r := PageOf(log, cursor, MAX_HISTORY_LIMIT);
    if r.PageOk? {
      PageIsPrefix(log, cursor, MAX_HISTORY_LIMIT);
      if r.page.hasMore {
        FirstOfPages(log, cursor, MAX_HISTORY_LIMIT, r.page);
        JoinedLater(sent, r.page.records, FollowPages(log, r.page.nextAfter, MAX_HISTORY_LIMIT).0);
      }
    } else {
      assert sent + [] == sent;
    }
  }

  lemma JoinedLater(a: seq<Record>, b: seq<Record>, c: seq<Record>)
    ensures a + (b + c) == a + b + c
  {
  }

  /** Sends the records of one page in order. */
  method SendAll(already: seq<Record>, from: int, after: int, records: seq<Record>)
    returns (sent: seq<Record>, cursor: int)
    requires from == LastCursor(already, after)
    ensures sent == already + records
    ensures cursor == LastCursor(sent, after) == LastCursor(records, from)
  {
    sent, cursor := already, from;
    for k := 0 to |records|
      invariant sent == already + records[..k]
      invariant cursor == LastCursor(sent, after) == LastCursor(records[..k], from)
    {
      sent := sent + [records[k]];
      cursor := records[k].cursor;
    }
  }
}
