/**
 One chat turn seen twice: the buffered answer and the stream of chunks are two
 folds over the same session events. The buffered fold keeps the terminal answer,
 the streaming fold forwards every delta.
*/
module ChatFolds {
  import opened Options

  /** An event's payload as decoded; None where the payload does not decode. */
  datatype Payload =
    | MessageDelta(delta: Option<string>)
    | MessageDone(message: Option<Message>)
    | ThinkingDelta(thought: Option<string>)
    | Usage(tokens: Option<Tokens>)
    | Failure(error: Option<LoopError>)
    | TurnEnd(reason: Option<string>)
    | Other

  datatype Message = Message(text: string, finish: string)
  datatype Tokens = Tokens(input: int, output: int)
  datatype LoopError = LoopError(message: string, recoverable: bool)

  /** `turn` is None where the data does not even yield a turn id. */
  datatype Event = Event(turn: Option<string>, payload: Payload)

  datatype Buffered = Buffered(content: string, reasoning: string, finish: string,
                               tokens: Tokens, error: string)

  datatype Chunk =
    | RoleChunk
    | ContentChunk(text: string)
    | ReasoningChunk(text: string)
    | ErrorChunk(message: string)
    | FinishChunk(reason: string)
    | UsageChunk(tokens: Tokens)
    | DoneMark

  datatype Streamed = Streamed(chunks: seq<Chunk>, modelFinish: string, tokens: Tokens)

  const COMPLETED := "completed"
  const MAX_TURNS := "max_turns"
  const ERROR := "error"
  const TOOL_CALLS := "tool_calls"

  predicate EventForTurn(event: Event, turn: string) {
    event.turn == Some(turn)
  }

  function OpenAIFinishReason(reason: string): string {
    if reason == MAX_TURNS then "length" else "stop"
  }

  /** The payloads of one turn, up to and including its end. */
  function TurnPayloads(events: seq<Event>, turn: string): seq<Payload> {
    if events == [] then []
    else if !EventForTurn(events[0], turn) then TurnPayloads(events[1..], turn)
    else if events[0].payload.TurnEnd? then [events[0].payload]
    else [events[0].payload] + TurnPayloads(events[1..], turn)
  }

  predicate Ended(payloads: seq<Payload>) {
    payloads != [] && payloads[|payloads| - 1].TurnEnd?
  }

  // ---- The two folds ----

  function BufferNext(out: Buffered, payload: Payload): Buffered {
    match payload
    case MessageDelta(Some(delta)) => out.(content := out.content + delta)
    case MessageDone(Some(Message(text, finish))) =>
      if finish == TOOL_CALLS then out.(content := "")
      else out.(content := if text != "" then text else out.content,
                finish := if finish != "" then finish else out.finish)
    case ThinkingDelta(Some(delta)) => out.(reasoning := out.reasoning + delta)
    case Usage(Some(Tokens(input, output))) =>
      out.(tokens := Tokens(out.tokens.input + input, out.tokens.output + output))
    case Failure(Some(LoopError(message, recoverable))) =>
      if recoverable then out else out.(error := message)
    case TurnEnd(Some(reason)) =>
      out.(finish := if reason != COMPLETED then OpenAIFinishReason(reason) else out.finish,
           error := if reason == ERROR && out.error == "" then "turn ended with error" else out.error)
    case _ => out
  }

  function BufferOf(payloads: seq<Payload>): Buffered {
    if payloads == [] then Buffered("", "", "stop", Tokens(0, 0), "")
    else BufferNext(BufferOf(payloads[..|payloads| - 1]), payloads[|payloads| - 1])
  }

  function StreamNext(s: Streamed, payload: Payload, includeUsage: bool): Streamed {
    match payload
    case MessageDelta(Some(delta)) =>
      if delta == "" then s else s.(chunks := s.chunks + [ContentChunk(delta)])
    case MessageDone(Some(Message(_, finish))) =>
      if finish != "" && finish != TOOL_CALLS then s.(modelFinish := finish) else s
    case ThinkingDelta(Some(delta)) =>
      if delta == "" then s else s.(chunks := s.chunks + [ReasoningChunk(delta)])
    case Usage(Some(Tokens(input, output))) =>
      s.(tokens := Tokens(s.tokens.input + input, s.tokens.output + output))
    case Failure(Some(LoopError(message, recoverable))) =>
      if !recoverable && message != "" then s.(chunks := s.chunks + [ErrorChunk(message)]) else s
    case TurnEnd(reason) =>
      var r := if reason.Some? then reason.value else "";
      var finish := if r == COMPLETED && s.modelFinish != "" then s.modelFinish else OpenAIFinishReason(r);
      s.(chunks := s.chunks + [FinishChunk(finish)]
                   + (if includeUsage then [UsageChunk(s.tokens)] else []) + [DoneMark])
    case _ => s
  }

  function StreamOf(payloads: seq<Payload>, includeUsage: bool): Streamed {
    if payloads == [] then Streamed([RoleChunk], "", Tokens(0, 0))
    else StreamNext(StreamOf(payloads[..|payloads| - 1], includeUsage), payloads[|payloads| - 1], includeUsage)
  }

  /** Drains events until the turn ends; `ended` is false when the channel closes
      first. */
  method BufferChatCompletion(events: seq<Event>, turn: string) returns (out: Buffered, ended: bool)
    ensures out == BufferOf(TurnPayloads(events, turn))
    ensures ended <==> Ended(TurnPayloads(events, turn))
  {
    out := Buffered("", "", "stop", Tokens(0, 0), "");
    ghost var seen: seq<Payload> := [];
    for i := 0 to |events|
      invariant out == BufferOf(seen) && !Ended(seen)
      invariant TurnPayloads(events, turn) == seen + TurnPayloads(events[i..], turn)
    {
      var event := events[i];
      assert events[i..][1..] == events[i + 1..];
      if !EventForTurn(event, turn) {
        continue;
      }
      assert (seen + [event.payload])[..|seen|] == seen;
      ghost var next := BufferNext(out, event.payload);
      match event.payload {
        case MessageDelta(Some(delta)) =>
          out := out.(content := out.content + delta);
        case MessageDone(Some(message)) =>
          if message.finish == TOOL_CALLS {
            out := out.(content := "");
          } else {
            if message.text != "" {
              out := out.(content := message.text);
            }
            if message.finish != "" {
              out := out.(finish := message.finish);
            }
          }
        case ThinkingDelta(Some(delta)) =>
          out := out.(reasoning := out.reasoning + delta);
        case Usage(Some(tokens)) =>
          out := out.(tokens := Tokens(out.tokens.input + tokens.input, out.tokens.output + tokens.output));
        case Failure(Some(error)) =>
          if !error.recoverable {
            out := out.(error := error.message);
          }
        case TurnEnd(reason) =>
          if reason.Some? {
            if reason.value != COMPLETED {
              out := out.(finish := OpenAIFinishReason(reason.value));
            }
            if reason.value == ERROR && out.error == "" {
              out := out.(error := "turn ended with error");
            }
          }
          return out, true;
        case _ =>
      }
      assert out == next;
      seen := seen + [event.payload];
    }
    assert seen + [] == seen;
    return out, false;
  }

  method StreamChatCompletion(events: seq<Event>, turn: string, includeUsage: bool)
    returns (out: Streamed, ended: bool)
    ensures out == StreamOf(TurnPayloads(events, turn), includeUsage)
    ensures ended <==> Ended(TurnPayloads(events, turn))
  {
    out := Streamed([RoleChunk], "", Tokens(0, 0));
    ghost var seen: seq<Payload> := [];
    for i := 0 to |events|
      invariant out == StreamOf(seen, includeUsage) && !Ended(seen)
      invariant TurnPayloads(events, turn) == seen + TurnPayloads(events[i..], turn)
    {
      var event := events[i];
      assert events[i..][1..] == events[i + 1..];
      if !EventForTurn(event, turn) {
        continue;
      }
      assert (seen + [event.payload])[..|seen|] == seen;
      out := StreamEvent(out, event.payload, includeUsage);
      if event.payload.TurnEnd? {
        return out, true;
      }
      seen := seen + [event.payload];
    }
    assert seen + [] == seen;
    return out, false;
  }

  /** Translates one event of the turn into chunks. */
  method StreamEvent(s: Streamed, payload: Payload, includeUsage: bool) returns (t: Streamed)
    ensures t == StreamNext(s, payload, includeUsage)
  {
    t := s;
    match payload {
      case MessageDelta(Some(delta)) =>
        if delta != "" {
          t := t.(chunks := t.chunks + [ContentChunk(delta)]);
        }
      case MessageDone(Some(message)) =>
        if message.finish != "" && message.finish != TOOL_CALLS {
          t := t.(modelFinish := message.finish);
        }
      case ThinkingDelta(Some(delta)) =>
        if delta != "" {
          t := t.(chunks := t.chunks + [ReasoningChunk(delta)]);
        }
      case Usage(Some(tokens)) =>
        t := t.(tokens := Tokens(t.tokens.input + tokens.input, t.tokens.output + tokens.output));
      case Failure(Some(error)) =>
        if !error.recoverable && error.message != "" {
          t := t.(chunks := t.chunks + [ErrorChunk(error.message)]);
        }
      case TurnEnd(reason) =>
        var r := if reason.Some? then reason.value else "";
        var finish := OpenAIFinishReason(r);
        if r == COMPLETED && t.modelFinish != "" {
          finish := t.modelFinish;
        }
        t := t.(chunks := t.chunks + [FinishChunk(finish)]);
        if includeUsage {
          t := t.(chunks := t.chunks + [UsageChunk(t.tokens)]);
        }
        t := t.(chunks := t.chunks + [DoneMark]);
        assert t == StreamNext(s, payload, includeUsage);
      case _ =>
    }
  }

  // ---- Other turns do not matter ----

  lemma {:induction false} OtherTurnsChangeNothing(a: seq<Event>, event: Event, b: seq<Event>, turn: string)
    requires !EventForTurn(event, turn)
    ensures TurnPayloads(a + [event] + b, turn) == TurnPayloads(a + b, turn)
  {
    if a == [] {
      assert (a + [event] + b)[1..] == b == a + b;
    } else {
      OtherTurnsChangeNothing(a[1..], event, b, turn);
      assert (a + [event] + b)[1..] == a[1..] + [event] + b;
      assert (a + b)[1..] == a[1..] + b;
    }
  }

  /** An event of the turn stands where it came, and nothing after the turn's end counts. */
  lemma {:induction false} TurnKeepsItsEvents(a: seq<Event>, event: Event, b: seq<Event>, turn: string)
    requires EventForTurn(event, turn)
    requires forall i :: 0 <= i < |a| && EventForTurn(a[i], turn) ==> !a[i].payload.TurnEnd?
    ensures TurnPayloads(a + [event] + b, turn)
         == TurnPayloads(a, turn) + ([event.payload] + if event.payload.TurnEnd? then [] else TurnPayloads(b, turn))
  {
    var all := a + [event] + b;
    if a == [] {
      assert all[1..] == b;
      assert [event.payload] + [] == [event.payload];
    } else {
      TurnKeepsItsEvents(a[1..], event, b, turn);
      assert all[1..] == a[1..] + [event] + b;
    }
  }

  predicate NoEnd(payloads: seq<Payload>) {
    forall i :: 0 <= i < |payloads| ==> !payloads[i].TurnEnd?
  }

  lemma {:induction false} OnlyLastEnds(events: seq<Event>, turn: string)
    ensures var ps := TurnPayloads(events, turn);
            ps != [] ==> NoEnd(ps[..|ps| - 1])
  {
    if events != [] {
      OnlyLastEnds(events[1..], turn);
      var ps, rest := TurnPayloads(events, turn), TurnPayloads(events[1..], turn);
      if EventForTurn(events[0], turn) && !events[0].payload.TurnEnd? && rest != [] {
        assert ps[..|ps| - 1] == [events[0].payload] + rest[..|rest| - 1];
      }
    }
  }

  // ---- The answers agree ----

  function ContentOf(chunks: seq<Chunk>): string {
    if chunks == [] then ""
    else
      ContentOf(chunks[..|chunks| - 1])
      + match chunks[|chunks| - 1]
        case ContentChunk(text) => text
        case _ => ""
  }

  function ReasoningOf(chunks: seq<Chunk>): string {
    if chunks == [] then ""
    else
      ReasoningOf(chunks[..|chunks| - 1])
      + match chunks[|chunks| - 1]
        case ReasoningChunk(text) => text
        case _ => ""
  }

  function DeltaOf(payload: Payload): string {
    match payload
    case MessageDelta(Some(delta)) => delta
    case _ => ""
  }

  function ThoughtOf(payload: Payload): string {
    match payload
    case ThinkingDelta(Some(delta)) => delta
    case _ => ""
  }

  /** Everything the model said in the turn, as deltas. */
  function AllDeltas(payloads: seq<Payload>): string {
    if payloads == [] then ""
    else AllDeltas(payloads[..|payloads| - 1]) + DeltaOf(payloads[|payloads| - 1])
  }

  lemma ChunkAdds(chunks: seq<Chunk>, chunk: Chunk)
    ensures ContentOf(chunks + [chunk]) == ContentOf(chunks) + if chunk.ContentChunk? then chunk.text else ""
    ensures ReasoningOf(chunks + [chunk]) == ReasoningOf(chunks) + if chunk.ReasoningChunk? then chunk.text else ""
  {
    assert (chunks + [chunk])[..|chunks|] == chunks;
  }

  /** What one payload adds to the chunks. */
  lemma PayloadAdds(s: Streamed, payload: Payload, includeUsage: bool)
    ensures ContentOf(StreamNext(s, payload, includeUsage).chunks) == ContentOf(s.chunks) + DeltaOf(payload)
    ensures ReasoningOf(StreamNext(s, payload, includeUsage).chunks) == ReasoningOf(s.chunks) + ThoughtOf(payload)
  {
    match payload {
      case MessageDelta(Some(delta)) => ChunkAdds(s.chunks, ContentChunk(delta));
      case ThinkingDelta(Some(delta)) => ChunkAdds(s.chunks, ReasoningChunk(delta));
      case Failure(Some(error)) => ChunkAdds(s.chunks, ErrorChunk(error.message));
      case TurnEnd(_) => EndAdds(s, payload, includeUsage);
      case _ =>
    }
  }

  lemma EndAdds(s: Streamed, payload: Payload, includeUsage: bool)
    requires payload.TurnEnd?
    ensures ContentOf(StreamNext(s, payload, includeUsage).chunks) == ContentOf(s.chunks)
    ensures ReasoningOf(StreamNext(s, payload, includeUsage).chunks) == ReasoningOf(s.chunks)
  {
    var finish := StreamNext(s, payload, includeUsage).chunks[|s.chunks|];
    var finished := s.chunks + [finish];
    ChunkAdds(s.chunks, finish);
    var closing := if includeUsage then finished + [UsageChunk(s.tokens)] else finished;
    if includeUsage {
      ChunkAdds(finished, UsageChunk(s.tokens));
    }
    ChunkAdds(closing, DoneMark);
    assert StreamNext(s, payload, includeUsage).chunks == closing + [DoneMark];
  }

  /** The stream carries every delta, the same reasoning and the same token totals
      as the buffered answer, whatever the payloads. */
  lemma {:induction false} SameReasoningAndTokens(payloads: seq<Payload>, includeUsage: bool)
    ensures ContentOf(StreamOf(payloads, includeUsage).chunks) == AllDeltas(payloads)
    ensures ReasoningOf(StreamOf(payloads, includeUsage).chunks) == BufferOf(payloads).reasoning
    ensures StreamOf(payloads, includeUsage).tokens == BufferOf(payloads).tokens
  {
    if payloads == [] {
      assert [RoleChunk][..0] == [];
    } else {
      var init, last := payloads[..|payloads| - 1], payloads[|payloads| - 1];
      SameReasoningAndTokens(init, includeUsage);
      PayloadAdds(StreamOf(init, includeUsage), last, includeUsage);
      BufferAdds(BufferOf(init), last);
      SameTokensNext(StreamOf(init, includeUsage), BufferOf(init), last, includeUsage);
    }
  }

  lemma BufferAdds(out: Buffered, payload: Payload)
    ensures BufferNext(out, payload).reasoning == out.reasoning + ThoughtOf(payload)
  {
  }

  lemma SameTokensNext(s: Streamed, out: Buffered, payload: Payload, includeUsage: bool)
    requires s.tokens == out.tokens
    ensures StreamNext(s, payload, includeUsage).tokens == BufferNext(out, payload).tokens
  {
  }

  /** The model gives this payload as a finish reason: a done message that decodes and
      does not merely announce tool calls. */
  predicate Finishes(payload: Payload) {
    payload.MessageDone? && payload.message.Some?
    && payload.message.value.finish != "" && payload.message.value.finish != TOOL_CALLS
  }

  /** The last finish reason the model gave, or none. */
  function ModelReason(payloads: seq<Payload>): string {
    if payloads == [] then ""
    else
      var last := payloads[|payloads| - 1];
      if Finishes(last) then last.message.value.finish else ModelReason(payloads[..|payloads| - 1])
  }

  lemma {:induction false} SameModelFinish(payloads: seq<Payload>, includeUsage: bool)
    requires NoEnd(payloads)
    ensures var model := ModelReason(payloads);
            && StreamOf(payloads, includeUsage).modelFinish == model
            && BufferOf(payloads).finish == if model == "" then "stop" else model
  {
    if payloads != [] {
      SameModelFinish(payloads[..|payloads| - 1], includeUsage);
    }
  }

  /** The finish reason the stream sends. */
  function StreamFinish(payloads: seq<Payload>, includeUsage: bool): (finish: string)
    requires Ended(payloads)
  {
    var before := StreamOf(payloads[..|payloads| - 1], includeUsage).chunks;
    StreamOf(payloads, includeUsage).chunks[|before|].reason
  }

  /** Both paths report the same finish reason exactly when the turn end decodes or
      the model itself had nothing but "stop" to say: on an undecodable turn end
      the buffered path keeps the model's reason and the stream falls back to
      "stop". */
  lemma SameFinishIff(events: seq<Event>, turn: string, includeUsage: bool)
    requires Ended(TurnPayloads(events, turn))
    ensures var ps := TurnPayloads(events, turn);
            BufferOf(ps).finish == StreamFinish(ps, includeUsage)
            <==> ps[|ps| - 1].reason.Some? || ModelReason(ps) in {"", "stop"}
  {
    var ps := TurnPayloads(events, turn);
    OnlyLastEnds(events, turn);
    SameModelFinish(ps[..|ps| - 1], includeUsage);
  }

  /** The finish reason of a turn whose end decodes, on both paths: "length" when the turn
      ran out of steps, what the model said last when it completed, "stop" otherwise. */
  lemma FinishIs(events: seq<Event>, turn: string, includeUsage: bool)
    requires Ended(TurnPayloads(events, turn))
    ensures var ps := TurnPayloads(events, turn);
            var end, model := ps[|ps| - 1].reason, ModelReason(ps);
            && (end == Some("max_turns") ==> BufferOf(ps).finish == StreamFinish(ps, includeUsage) == "length")
            && (end == Some("completed") ==>
                  BufferOf(ps).finish == StreamFinish(ps, includeUsage) == if model != "" then model else "stop")
            && (end.Some? && end.value !in {"max_turns", "completed"} ==>
                  BufferOf(ps).finish == StreamFinish(ps, includeUsage) == "stop")
            && (end.None? ==> StreamFinish(ps, includeUsage) == "stop"
                              && BufferOf(ps).finish == if model != "" then model else "stop")
  {
    var ps := TurnPayloads(events, turn);
    OnlyLastEnds(events, turn);
    SameModelFinish(ps[..|ps| - 1], includeUsage);
    FinishOfEnd(ps, includeUsage, ModelReason(ps));
  }

  lemma FinishOfEnd(ps: seq<Payload>, includeUsage: bool, model: string)
    requires Ended(ps) && model == ModelReason(ps)
    requires StreamOf(ps[..|ps| - 1], includeUsage).modelFinish == model
    requires BufferOf(ps[..|ps| - 1]).finish == if model == "" then "stop" else model
    ensures var r := if ps[|ps| - 1].reason.Some? then ps[|ps| - 1].reason.value else "";
            var said := if model == "" then "stop" else model;
            && StreamFinish(ps, includeUsage)
               == (if r == "completed" then said else if r == "max_turns" then "length" else "stop")
            && BufferOf(ps).finish
               == (if ps[|ps| - 1].reason.None? || r == "completed" then said
                   else if r == "max_turns" then "length" else "stop")
  {
  }

  function UsageOf(payload: Payload): Tokens {
    if payload.Usage? && payload.tokens.Some? then payload.tokens.value else Tokens(0, 0)
  }

  function InputTokens(payloads: seq<Payload>): int {
    if payloads == [] then 0
    else InputTokens(payloads[..|payloads| - 1]) + UsageOf(payloads[|payloads| - 1]).input
  }

  function OutputTokens(payloads: seq<Payload>): int {
    if payloads == [] then 0
    else OutputTokens(payloads[..|payloads| - 1]) + UsageOf(payloads[|payloads| - 1]).output
  }

  function AllThoughts(payloads: seq<Payload>): string {
    if payloads == [] then ""
    else AllThoughts(payloads[..|payloads| - 1]) + ThoughtOf(payloads[|payloads| - 1])
  }

  /** What both paths report are the sums of all usage events, and everything the model
      thought. */
  lemma {:induction false} TotalsAreSums(payloads: seq<Payload>)
    ensures BufferOf(payloads).tokens == Tokens(InputTokens(payloads), OutputTokens(payloads))
    ensures BufferOf(payloads).reasoning == AllThoughts(payloads)
  {
    if payloads != [] {
      TotalsAreSums(payloads[..|payloads| - 1]);
      BufferAdds(BufferOf(payloads[..|payloads| - 1]), payloads[|payloads| - 1]);
    }
  }

  lemma FinishCanDiffer(turn: string)
    ensures var ps := TurnPayloads([Event(Some(turn), MessageDone(Some(Message("", "length")))),
                                    Event(Some(turn), TurnEnd(None))], turn);
            Ended(ps) && BufferOf(ps).finish == "length" && StreamFinish(ps, false) == "stop"
  {
    var done, end := MessageDone(Some(Message("", "length"))), TurnEnd(None);
    var events := [Event(Some(turn), done), Event(Some(turn), end)];
    assert events[1..] == [Event(Some(turn), end)];
    var ps := TurnPayloads(events, turn);
    assert TurnPayloads(events[1..], turn) == [end];
    assert ps == [done] + [end];
    assert ps[..1] == [done] && [done][..0] == [];
    assert BufferOf([done]).finish == "length";
  }

  /** The stream of a finished turn is a role chunk, deltas and errors, one finish
      chunk, the usage if asked for, and the end mark. */
  predicate MiddleChunk(chunk: Chunk) {
    chunk.ContentChunk? || chunk.ReasoningChunk? || chunk.ErrorChunk?
  }

  lemma {:induction false} MiddleOnly(payloads: seq<Payload>, includeUsage: bool)
    requires NoEnd(payloads)
    ensures var chunks := StreamOf(payloads, includeUsage).chunks;
            && chunks != [] && chunks[0] == RoleChunk
            && forall k :: 1 <= k < |chunks| ==> MiddleChunk(chunks[k])
  {
    if payloads != [] {
      MiddleOnly(payloads[..|payloads| - 1], includeUsage);
    }
  }

  lemma StreamShape(events: seq<Event>, turn: string, includeUsage: bool)
    requires Ended(TurnPayloads(events, turn))
    ensures var ps := TurnPayloads(events, turn);
            exists middle ::
              && (forall k :: 0 <= k < |middle| ==> MiddleChunk(middle[k]))
              && StreamOf(ps, includeUsage).chunks
                 == [RoleChunk] + middle + [FinishChunk(StreamFinish(ps, includeUsage))]
                    + (if includeUsage then [UsageChunk(BufferOf(ps).tokens)] else []) + [DoneMark]
  {
    var ps := TurnPayloads(events, turn);
    var init := ps[..|ps| - 1];
    OnlyLastEnds(events, turn);
    MiddleOnly(init, includeUsage);
    SameReasoningAndTokens(ps, includeUsage);
    var before := StreamOf(init, includeUsage).chunks;
    var middle := before[1..];
    assert before == [RoleChunk] + middle;
    EndShape(ps, includeUsage);
    AllMiddle(before, middle);
  }

  lemma AllMiddle(before: seq<Chunk>, middle: seq<Chunk>)
    requires before == [RoleChunk] + middle && forall k :: 1 <= k < |before| ==> MiddleChunk(before[k])
    ensures forall k :: 0 <= k < |middle| ==> MiddleChunk(middle[k])
  {
    assert forall k :: 0 <= k < |middle| ==> middle[k] == before[k + 1];
  }

  lemma EndShape(payloads: seq<Payload>, includeUsage: bool)
    requires Ended(payloads)
    ensures StreamOf(payloads, includeUsage).chunks
            == StreamOf(payloads[..|payloads| - 1], includeUsage).chunks
               + [FinishChunk(StreamFinish(payloads, includeUsage))]
               + (if includeUsage then [UsageChunk(StreamOf(payloads, includeUsage).tokens)] else []) + [DoneMark]
  {
  }

  // ---- The buffered content and the streamed content ----

  predicate IsSuffix(s: string, t: string) {
    |s| <= |t| && t[|t| - |s|..] == s
  }

  /** What the buffered content was last reset to, and the deltas streamed up to
      that reset. */
  function LastReset(payloads: seq<Payload>): (string, string) {
    if payloads == [] then ("", "")
    else
      var init := payloads[..|payloads| - 1];
      match payloads[|payloads| - 1]
      case MessageDone(Some(Message(text, finish))) =>
        if finish == TOOL_CALLS then ("", AllDeltas(init))
        else if text != "" then (text, AllDeltas(init))
        else LastReset(init)
      case _ => LastReset(init)
  }

  /** After the last reset both contents grow by the same deltas. */
  lemma {:induction false} ContentsSplit(payloads: seq<Payload>) returns (since: string)
    ensures BufferOf(payloads).content == LastReset(payloads).0 + since
    ensures AllDeltas(payloads) == LastReset(payloads).1 + since
  {
    if payloads == [] {
      since := "";
    } else {
      since := ContentsSplit(payloads[..|payloads| - 1]);
      match payloads[|payloads| - 1] {
        case MessageDelta(Some(delta)) => since := since + delta;
        case MessageDone(Some(message)) =>
          if message.finish == TOOL_CALLS || message.text != "" {
            since := "";
          }
        case _ =>
      }
    }
  }

  /** The buffered answer is a suffix of what was streamed exactly when the last
      message text that replaced it was a suffix of what had been streamed. */
  lemma SuffixIff(payloads: seq<Payload>, includeUsage: bool)
    ensures IsSuffix(BufferOf(payloads).content, ContentOf(StreamOf(payloads, includeUsage).chunks))
            <==> IsSuffix(LastReset(payloads).0, LastReset(payloads).1)
  {
    SameReasoningAndTokens(payloads, includeUsage);
    var since := ContentsSplit(payloads);
    SuffixCancels(LastReset(payloads).0, LastReset(payloads).1, since);
  }

  lemma SuffixCancels(s: string, t: string, tail: string)
    ensures IsSuffix(s + tail, t + tail) <==> IsSuffix(s, t)
  {
    if |s| <= |t| {
      var cut := (t + tail)[|t| - |s|..];
      assert cut == t[|t| - |s|..] + tail;
      assert (s + tail)[..|s|] == s && cut[..|s|] == t[|t| - |s|..];
    }
  }

  /** Deltas since the last finished message. */
  function SinceDone(payloads: seq<Payload>): string {
    if payloads == [] then ""
    else
      var init := payloads[..|payloads| - 1];
      match payloads[|payloads| - 1]
      case MessageDelta(Some(delta)) => SinceDone(init) + delta
      case MessageDone(Some(_)) => ""
      case _ => SinceDone(init)
  }

  /** Every finished message repeats its own deltas. */
  predicate DonesMatch(payloads: seq<Payload>) {
    forall i :: 0 <= i < |payloads| && payloads[i].MessageDone? && payloads[i].message.Some?
                && payloads[i].message.value.text != ""
      ==> payloads[i].message.value.text == SinceDone(payloads[..i])
  }

  lemma {:induction false} SinceDoneStreamed(payloads: seq<Payload>)
    ensures IsSuffix(SinceDone(payloads), AllDeltas(payloads))
  {
    if payloads != [] {
      SinceDoneStreamed(payloads[..|payloads| - 1]);
      match payloads[|payloads| - 1] {
        case MessageDelta(Some(delta)) =>
          SuffixCancels(SinceDone(payloads[..|payloads| - 1]), AllDeltas(payloads[..|payloads| - 1]), delta);
        case _ =>
      }
    }
  }

  lemma MatchingDonesGiveSuffix(payloads: seq<Payload>, includeUsage: bool)
    requires DonesMatch(payloads)
    ensures IsSuffix(BufferOf(payloads).content, ContentOf(StreamOf(payloads, includeUsage).chunks))
  {
    ResetsMatch(payloads);
    SuffixIff(payloads, includeUsage);
  }

  lemma {:induction false} ResetsMatch(payloads: seq<Payload>)
    requires DonesMatch(payloads)
    ensures IsSuffix(LastReset(payloads).0, LastReset(payloads).1)
  {
    if payloads != [] {
      var init := payloads[..|payloads| - 1];
      assert forall i :: 0 <= i < |init| ==> init[..i] == payloads[..i];
      ResetsMatch(init);
      SinceDoneStreamed(init);
    }
  }

  // ---- Errors ----

  function Errors(chunks: seq<Chunk>): seq<string> {
    if chunks == [] then []
    else
      Errors(chunks[..|chunks| - 1])
      + match chunks[|chunks| - 1]
        case ErrorChunk(message) => [message]
        case _ => []
  }

  lemma ErrorAdds(chunks: seq<Chunk>, chunk: Chunk)
    ensures Errors(chunks + [chunk]) == Errors(chunks) + if chunk.ErrorChunk? then [chunk.message] else []
  {
    assert (chunks + [chunk])[..|chunks|] == chunks;
  }

  /** A failure that ends the turn's work. */
  predicate Fatal(payload: Payload) {
    payload.Failure? && payload.error.Some? && !payload.error.value.recoverable
  }

  /** The messages of the fatal failures, blank ones too. */
  function FatalMessages(payloads: seq<Payload>): seq<string> {
    if payloads == [] then []
    else
      var messages, last := FatalMessages(payloads[..|payloads| - 1]), payloads[|payloads| - 1];
      if Fatal(last) then messages + [last.error.value.message] else messages
  }

  function LastOf(messages: seq<string>): string {
    if messages == [] then "" else messages[|messages| - 1]
  }

  /** The last message that is not blank. */
  function LastSpoken(messages: seq<string>): string {
    if messages == [] then ""
    else if messages[|messages| - 1] != "" then messages[|messages| - 1]
    else LastSpoken(messages[..|messages| - 1])
  }

  /** What a turn's end adds to the buffered answer when it reports no error so far. */
  function EndError(end: Payload): string
    requires end.TurnEnd?
  {
    if end.reason == Some(ERROR) then "turn ended with error" else ""
  }

  /** Of a finished turn, the buffered answer reports the error the stream reported last
      exactly when the last fatal failure has a message, or what the turn's end supplies
      is the last message there was. A later failure without a message wipes an earlier
      one from the buffered answer only, and a turn's end in error is told there only. */
  lemma SameErrorIff(events: seq<Event>, turn: string, includeUsage: bool)
    requires Ended(TurnPayloads(events, turn))
    ensures var ps := TurnPayloads(events, turn);
            var fatal := FatalMessages(ps);
            BufferOf(ps).error == LastOf(Errors(StreamOf(ps, includeUsage).chunks))
            <==> LastOf(fatal) != "" || LastSpoken(fatal) == EndError(ps[|ps| - 1])
  {
    var ps := TurnPayloads(events, turn);
    OnlyLastEnds(events, turn);
    FinishedErrors(ps, includeUsage, BufferOf(ps).error, LastOf(Errors(StreamOf(ps, includeUsage).chunks)));
  }

  /** What the two answers report in the end. */
  lemma FinishedErrors(ps: seq<Payload>, includeUsage: bool, buffered: string, streamed: string)
    requires Ended(ps) && NoEnd(ps[..|ps| - 1])
    requires buffered == BufferOf(ps).error && streamed == LastOf(Errors(StreamOf(ps, includeUsage).chunks))
    ensures var fatal := FatalMessages(ps);
            && buffered == (if LastOf(fatal) != "" then LastOf(fatal) else EndError(ps[|ps| - 1]))
            && streamed == LastSpoken(fatal)
            && (LastOf(fatal) != "" ==> LastSpoken(fatal) == LastOf(fatal))
  {
    var init := ps[..|ps| - 1];
    BufferedError(init);
    StreamedError(init, includeUsage, StreamOf(init, includeUsage));
    LastStreamed(ps, includeUsage);
    LastBuffered(ps, BufferOf(init), BufferOf(ps));
    LastNotFatal(ps);
  }

  lemma LastBuffered(ps: seq<Payload>, before: Buffered, after: Buffered)
    requires Ended(ps) && before == BufferOf(ps[..|ps| - 1]) && after == BufferOf(ps)
    ensures after.error == if before.error != "" then before.error else EndError(ps[|ps| - 1])
  {
    EndBuffers(before, ps[|ps| - 1]);
  }

  lemma EndBuffers(out: Buffered, end: Payload)
    requires end.TurnEnd?
    ensures BufferNext(out, end).error == if out.error != "" then out.error else EndError(end)
  {
  }

  lemma LastNotFatal(ps: seq<Payload>)
    requires Ended(ps)
    ensures FatalMessages(ps) == FatalMessages(ps[..|ps| - 1])
  {
  }

  lemma LastStreamed(ps: seq<Payload>, includeUsage: bool)
    requires Ended(ps)
    ensures Errors(StreamOf(ps, includeUsage).chunks) == Errors(StreamOf(ps[..|ps| - 1], includeUsage).chunks)
  {
    EndAddsNoError(StreamOf(ps[..|ps| - 1], includeUsage), ps[|ps| - 1], includeUsage);
  }

  /** A turn's end in error is reported by the buffered answer alone. */
  lemma EndErrorIsBufferedOnly(turn: string, includeUsage: bool)
    ensures var ps := TurnPayloads([Event(Some(turn), TurnEnd(Some(ERROR)))], turn);
            && BufferOf(ps).error == "turn ended with error"
            && Errors(StreamOf(ps, includeUsage).chunks) == [] && StreamFinish(ps, includeUsage) == "stop"
  {
    var ps := TurnPayloads([Event(Some(turn), TurnEnd(Some(ERROR)))], turn);
    assert ps == [TurnEnd(Some(ERROR))] && ps[..0] == [];
    EndAddsNoError(StreamOf([], includeUsage), ps[0], includeUsage);
    assert [RoleChunk][..0] == [];
  }

  lemma EndAddsNoError(s: Streamed, end: Payload, includeUsage: bool)
    requires end.TurnEnd?
    ensures Errors(StreamNext(s, end, includeUsage).chunks) == Errors(s.chunks)
  {
    var finish := StreamNext(s, end, includeUsage).chunks[|s.chunks|];
    var finished := s.chunks + [finish];
    ErrorAdds(s.chunks, finish);
    var closing := if includeUsage then finished + [UsageChunk(s.tokens)] else finished;
    if includeUsage {
      ErrorAdds(finished, UsageChunk(s.tokens));
    }
    ErrorAdds(closing, DoneMark);
    assert StreamNext(s, end, includeUsage).chunks == closing + [DoneMark];
  }

  /** Before the turn ends, the buffered answer reports the last fatal failure. */
  lemma {:induction false} BufferedError(payloads: seq<Payload>)
    requires NoEnd(payloads)
    ensures BufferOf(payloads).error == LastOf(FatalMessages(payloads))
  {
    if payloads != [] {
      BufferedError(payloads[..|payloads| - 1]);
    }
  }

  /** The stream has reported the last one with a message. */
  lemma {:induction false} StreamedError(payloads: seq<Payload>, includeUsage: bool, s: Streamed)
    requires NoEnd(payloads) && s == StreamOf(payloads, includeUsage)
    ensures LastOf(Errors(s.chunks)) == LastSpoken(FatalMessages(payloads))
  {
    if payloads == [] {
      assert [RoleChunk][..0] == [];
    } else {
      var init, last := payloads[..|payloads| - 1], payloads[|payloads| - 1];
      var before := StreamOf(init, includeUsage);
      StreamedError(init, includeUsage, before);
      ErrorsAdd(before, last, includeUsage);
      if Fatal(last) {
        SpokenAdds(FatalMessages(init), last.error.value.message);
      }
    }
  }

  lemma SpokenAdds(messages: seq<string>, message: string)
    ensures LastSpoken(messages + [message]) == if message != "" then message else LastSpoken(messages)
  {
    assert (messages + [message])[..|messages|] == messages;
  }

  lemma ErrorsAdd(s: Streamed, payload: Payload, includeUsage: bool)
    requires !payload.TurnEnd?
    ensures Errors(StreamNext(s, payload, includeUsage).chunks)
            == Errors(s.chunks)
               + match payload
                 case Failure(Some(LoopError(message, false))) => if message != "" then [message] else []
                 case _ => []
  {
    match payload {
      case MessageDelta(Some(delta)) => ErrorAdds(s.chunks, ContentChunk(delta));
      case ThinkingDelta(Some(delta)) => ErrorAdds(s.chunks, ReasoningChunk(delta));
      case Failure(Some(error)) => ErrorAdds(s.chunks, ErrorChunk(error.message));
      case _ =>
    }
  }
}
