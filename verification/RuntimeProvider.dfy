/**
 * The client-side runtime provider: the transcript of messages, the
 * client-visible projection of a message (`convertMessage`), the wire form of
 * the transcript sent with each turn, and `onNew`, which runs one turn and
 * applies each streamed chunk to the turn's assistant message.
 *
 * JSON.stringify is a parameter (`Stringify`); the streamed chunks and a
 * possible stream failure are inputs of `OnNew`; message ids are parameters.
 */
module RuntimeProvider {
  import opened Json
  import ChatStream

  datatype Role = User | Assistant

  /** A tool call recorded on a message; `result` stays absent until a tool_result arrives. */
  datatype ToolCallPart = ToolCallPart(toolCallId: string, toolName: string, args: Json, result: Option<Json>)

  datatype Message = Message(id: string, role: Role, content: string, toolCalls: Option<seq<ToolCallPart>>)

  /** `message.toolCalls || []` */
  function CallsOf(m: Message): seq<ToolCallPart> {
    if m.toolCalls.Some? then m.toolCalls.value else []
  }

  predicate DistinctCallIds(calls: seq<ToolCallPart>) {
    forall i, j :: 0 <= i < j < |calls| ==> calls[i].toolCallId != calls[j].toolCallId
  }

  // ---------------------------------------------------------------------
  // convertMessage: the client-visible parts of a message
  // ---------------------------------------------------------------------

  datatype ThreadPart =
    | TextPart(text: string)
    | ToolCallView(toolCallId: string, toolName: string, args: Json, result: Option<Json>)

  datatype ThreadMessage = ThreadMessage(id: string, role: Role, content: seq<ThreadPart>)

  function ViewOf(tc: ToolCallPart): ThreadPart {
    ToolCallView(tc.toolCallId, tc.toolName, tc.args, tc.result)
  }

  function Views(calls: seq<ToolCallPart>): (r: seq<ThreadPart>)
    ensures |r| == |calls| && forall k :: 0 <= k < |calls| ==> r[k] == ViewOf(calls[k])
  {
    if calls == [] then [] else [ViewOf(calls[0])] + Views(calls[1..])
  }

  /** A text part only for non-empty content, then one part per tool call, in order. */
  function ConvertMessage(m: Message): (r: ThreadMessage)
    ensures r.id == m.id && r.role == m.role
    ensures |r.content| == (if m.content != "" then 1 else 0) + |CallsOf(m)|
    ensures (|r.content| > 0 && r.content[0].TextPart?) <==> m.content != ""
    ensures m.content != "" ==> r.content[0] == TextPart(m.content)
    ensures forall k :: 0 <= k < |CallsOf(m)| ==>
      r.content[(if m.content != "" then 1 else 0) + k] == ViewOf(CallsOf(m)[k])
  {
    ThreadMessage(m.id, m.role, (if m.content != "" then [TextPart(m.content)] else []) + Views(CallsOf(m)))
  }

  /** The text a part list shows. */
  function TextOfParts(ps: seq<ThreadPart>): string {
    if ps == [] then "" else (if ps[0].TextPart? then ps[0].text else "") + TextOfParts(ps[1..])
  }

  /** The tool calls a part list shows. */
  function CallsOfParts(ps: seq<ThreadPart>): seq<ToolCallPart> {
    if ps == [] then []
    else
      (if ps[0].ToolCallView? then [ToolCallPart(ps[0].toolCallId, ps[0].toolName, ps[0].args, ps[0].result)] else [])
      + CallsOfParts(ps[1..])
  }

  lemma {:induction false} ViewsReadBack(calls: seq<ToolCallPart>)
    ensures TextOfParts(Views(calls)) == ""
    ensures CallsOfParts(Views(calls)) == calls
    decreases |calls|
  {
    if calls != [] {
      ViewsReadBack(calls[1..]);
      assert Views(calls)[1..] == Views(calls[1..]);
    }
  }

  /** convertMessage loses nothing: the parts show exactly the content and the tool calls, ids, args and results included. */
  lemma ConvertMessageLossless(m: Message)
    ensures TextOfParts(ConvertMessage(m).content) == m.content
    ensures CallsOfParts(ConvertMessage(m).content) == CallsOf(m)
  {
    var ps := ConvertMessage(m).content;
    ViewsReadBack(CallsOf(m));
    if m.content != "" {
      assert ps[1..] == Views(CallsOf(m));
    } else {
      assert ps == Views(CallsOf(m));
    }
  }

  // ---------------------------------------------------------------------
  // The wire form of the transcript
  // ---------------------------------------------------------------------

  /** A call descriptor in an assistant entry; `kind` is the literal "function". */
  datatype WireCall = WireCall(id: string, kind: string, name: string, arguments: string)

  datatype WireMessage =
    | UserEntry(content: string)
    | AssistantEntry(content: string, toolCalls: Option<seq<WireCall>>)
    | ToolEntry(toolCallId: string, content: string)

  /** JSON.stringify */
  type Stringify = Json -> string

  function WireCallOf(tc: ToolCallPart, stringify: Stringify): WireCall {
    WireCall(tc.toolCallId, "function", tc.toolName, stringify(tc.args))
  }

  function WireCalls(calls: seq<ToolCallPart>, stringify: Stringify): (r: seq<WireCall>)
    ensures |r| == |calls| && forall k :: 0 <= k < |calls| ==> r[k] == WireCallOf(calls[k], stringify)
  {
    if calls == [] then [] else [WireCallOf(calls[0], stringify)] + WireCalls(calls[1..], stringify)
  }

  /** The calls whose result is truthy, in call order. */
  function AnsweredCalls(calls: seq<ToolCallPart>): (r: seq<ToolCallPart>)
    ensures |r| <= |calls|
    ensures forall j :: 0 <= j < |r| ==> r[j] in calls && Present(r[j].result)
    ensures forall k :: 0 <= k < |calls| && Present(calls[k].result) ==> calls[k] in r
  {
    if calls == [] then []
    else (if Present(calls[0].result) then [calls[0]] else []) + AnsweredCalls(calls[1..])
  }

  /** Selecting answered calls keeps their order: it distributes over concatenation. */
  lemma {:induction false} AnsweredCallsAppend(a: seq<ToolCallPart>, b: seq<ToolCallPart>)
    ensures AnsweredCalls(a + b) == AnsweredCalls(a) + AnsweredCalls(b)
    decreases |a|
  {
    if a == [] {
      assert a + b == b;
    } else {
      assert (a + b)[0] == a[0] && (a + b)[1..] == a[1..] + b;
      AnsweredCallsAppend(a[1..], b);
    }
  }

  /** Exactly one tool entry per answered call, in call order, carrying its id and stringified result. */
  function ToolEntries(calls: seq<ToolCallPart>, stringify: Stringify): (r: seq<WireMessage>)
    ensures |r| == |AnsweredCalls(calls)|
    ensures forall j :: 0 <= j < |r| ==>
      r[j] == ToolEntry(AnsweredCalls(calls)[j].toolCallId, stringify(AnsweredCalls(calls)[j].result.value))
  {
    if calls == [] then []
    else
      (if Present(calls[0].result) then [ToolEntry(calls[0].toolCallId, stringify(calls[0].result.value))] else [])
      + ToolEntries(calls[1..], stringify)
  }

  /** The wire entries for one message. */
  function SerializeMessage(m: Message, stringify: Stringify): (r: seq<WireMessage>)
    ensures |r| >= 1
    ensures m.role == User ==> r == [UserEntry(m.content)]
    ensures m.role == Assistant && CallsOf(m) == [] ==> r == [AssistantEntry(m.content, None)]
    ensures m.role == Assistant && CallsOf(m) != [] ==>
      && r[0].AssistantEntry? && r[0].content == m.content && r[0].toolCalls.Some?
      && |r[0].toolCalls.value| == |CallsOf(m)|
      && (forall k :: 0 <= k < |CallsOf(m)| ==> r[0].toolCalls.value[k] == WireCallOf(CallsOf(m)[k], stringify))
      && r[1..] == ToolEntries(CallsOf(m), stringify)
  {
    if m.role == User then [UserEntry(m.content)]
    else if CallsOf(m) != [] then
      [AssistantEntry(m.content, Some(WireCalls(CallsOf(m), stringify)))] + ToolEntries(CallsOf(m), stringify)
    else [AssistantEntry(m.content, None)]
  }

  /** The transcript's wire form: each message's entries, in transcript order. */
  function Serialize(ms: seq<Message>, stringify: Stringify): seq<WireMessage> {
    if ms == [] then [] else SerializeMessage(ms[0], stringify) + Serialize(ms[1..], stringify)
  }

  /** Serialization is chronological: no reordering, merging or dropping across messages. */
  lemma {:induction false} SerializeAppend(a: seq<Message>, b: seq<Message>, stringify: Stringify)
    ensures Serialize(a + b, stringify) == Serialize(a, stringify) + Serialize(b, stringify)
    decreases |a|
  {
    if a == [] {
      assert a + b == b;
    } else {
      assert (a + b)[0] == a[0] && (a + b)[1..] == a[1..] + b;
      SerializeAppend(a[1..], b, stringify);
    }
  }

  /** Reading a wire form back: the content of the first tool entry for a call id. */
  function ResultFor(entries: seq<WireMessage>, id: string): Option<string> {
    if entries == [] then None
    else if entries[0].ToolEntry? && entries[0].toolCallId == id then Some(entries[0].content)
    else ResultFor(entries[1..], id)
  }

  lemma {:induction false} ResultForAppend(a: seq<WireMessage>, b: seq<WireMessage>, id: string)
    ensures ResultFor(a + b, id) == if ResultFor(a, id).Some? then ResultFor(a, id) else ResultFor(b, id)
    decreases |a|
  {
    if a == [] {
      assert a + b == b;
    } else {
      assert (a + b)[0] == a[0] && (a + b)[1..] == a[1..] + b;
      ResultForAppend(a[1..], b, id);
    }
  }

  /** A call id that no recorded call carries has no tool entry. */
  lemma {:induction false} ToolEntriesAbsent(calls: seq<ToolCallPart>, stringify: Stringify, id: string)
    requires forall j :: 0 <= j < |calls| ==> calls[j].toolCallId != id
    ensures ResultFor(ToolEntries(calls, stringify), id) == None
    decreases |calls|
  {
    if calls != [] {
      var head := if Present(calls[0].result) then [ToolEntry(calls[0].toolCallId, stringify(calls[0].result.value))] else [];
      ToolEntriesAbsent(calls[1..], stringify, id);
      ResultForAppend(head, ToolEntries(calls[1..], stringify), id);
      if head != [] {
        assert head[1..] == [];
      }
    }
  }

  /**
   * The wire form keeps every call-to-result association: reading back the
   * tool entry for a call's id gives its stringified result exactly when the
   * result is truthy, and nothing otherwise.
   */
  lemma {:induction false} ToolEntriesRoundTrip(calls: seq<ToolCallPart>, stringify: Stringify, k: nat)
    requires DistinctCallIds(calls) && k < |calls|
    ensures ResultFor(ToolEntries(calls, stringify), calls[k].toolCallId)
         == if Present(calls[k].result) then Some(stringify(calls[k].result.value)) else None
    decreases |calls|
  {
    var head := if Present(calls[0].result) then [ToolEntry(calls[0].toolCallId, stringify(calls[0].result.value))] else [];
    ResultForAppend(head, ToolEntries(calls[1..], stringify), calls[k].toolCallId);
    if head != [] {
      assert head[1..] == [];
    }
    if k == 0 {
      ToolEntriesAbsent(calls[1..], stringify, calls[0].toolCallId);
    } else {
      ToolEntriesRoundTrip(calls[1..], stringify, k - 1);
    }
  }

  /** The same law read off a message's whole wire form (the assistant entry is not a tool entry). */
  lemma SerializedResultRoundTrip(m: Message, stringify: Stringify, k: nat)
    requires m.role == Assistant && DistinctCallIds(CallsOf(m)) && k < |CallsOf(m)|
    ensures ResultFor(SerializeMessage(m, stringify), CallsOf(m)[k].toolCallId)
         == if Present(CallsOf(m)[k].result) then Some(stringify(CallsOf(m)[k].result.value)) else None
  {
    var head := [AssistantEntry(m.content, Some(WireCalls(CallsOf(m), stringify)))];
    ResultForAppend(head, ToolEntries(CallsOf(m), stringify), CallsOf(m)[k].toolCallId);
    assert head[1..] == [];
    ToolEntriesRoundTrip(CallsOf(m), stringify, k);
  }

  // ---------------------------------------------------------------------
  // Applying streamed chunks to the turn's assistant message
  // ---------------------------------------------------------------------

  /**
   * A streamed chunk as the provider sees it: a parsed event, text that
   * JSON.parse (or reading its type) rejected, or a chunk that parses as JSON
   * whose `type` is none the provider knows (`42`, `"hi"`, `{"type":"foo"}`).
   */
  datatype StreamChunk = Emitted(event: ChatStream.TurnEvent) | Plain(raw: string) | OtherJson(raw: string)

  /** The result of a tool_result event: set on every record with that id. */
  function SetResult(calls: seq<ToolCallPart>, id: string, result: Json): (r: seq<ToolCallPart>)
    ensures |r| == |calls|
    ensures forall k :: 0 <= k < |calls| ==>
      r[k] == if calls[k].toolCallId == id then calls[k].(result := Some(result)) else calls[k]
  {
    if calls == [] then []
    else [if calls[0].toolCallId == id then calls[0].(result := Some(result)) else calls[0]] + SetResult(calls[1..], id, result)
  }

  /** The update one chunk makes to the live assistant message. */
  function ApplyToMessage(m: Message, c: StreamChunk): (r: Message)
    ensures r.id == m.id && r.role == m.role
    ensures c.Plain? ==> r == m.(content := m.content + c.raw)
    ensures c.Emitted? && c.event.Text? ==> r == m.(content := m.content + c.event.content)
    ensures c.Emitted? && c.event.ToolCall? ==>
      r.content == m.content
      && CallsOf(r) == CallsOf(m) + [ToolCallPart(c.event.id, c.event.name, c.event.arguments, None)]
    ensures c.Emitted? && c.event.ToolResult? ==>
      r.content == m.content && |CallsOf(r)| == |CallsOf(m)|
      && forall k :: 0 <= k < |CallsOf(m)| ==>
        CallsOf(r)[k] == if CallsOf(m)[k].toolCallId == c.event.id
                         then CallsOf(m)[k].(result := Some(c.event.result)) else CallsOf(m)[k]
    ensures c.Emitted? && (c.event.ToolError? || c.event.CallsStart? || c.event.CallsEnd?) ==> r == m
    ensures c.OtherJson? ==> r == m
  {
    match c
    case Plain(raw) => m.(content := m.content + raw)
    case OtherJson(_) => m
    case Emitted(e) =>
      match e
      case Text(t) => m.(content := m.content + t)
      case ToolCall(id, name, args) => m.(toolCalls := Some(CallsOf(m) + [ToolCallPart(id, name, args, None)]))
      case ToolResult(id, result) => m.(toolCalls := Some(SetResult(CallsOf(m), id, result)))
      case _ => m
  }

  /** A second tool_result for the same id overwrites the first. */
  lemma LaterResultWins(m: Message, id: string, first: Json, second: Json)
    ensures ApplyToMessage(ApplyToMessage(m, Emitted(ChatStream.ToolResult(id, first))), Emitted(ChatStream.ToolResult(id, second)))
         == ApplyToMessage(m, Emitted(ChatStream.ToolResult(id, second)))
  {
    var once := ApplyToMessage(m, Emitted(ChatStream.ToolResult(id, first)));
    var twice := ApplyToMessage(once, Emitted(ChatStream.ToolResult(id, second)));
    var direct := ApplyToMessage(m, Emitted(ChatStream.ToolResult(id, second)));
    assert CallsOf(twice) == CallsOf(direct);
  }

  /** The live message after a sequence of chunks, applied in order. */
  function Project(m: Message, cs: seq<StreamChunk>): (r: Message)
    ensures r.id == m.id && r.role == m.role
    decreases |cs|
  {
    if cs == [] then m else ApplyToMessage(Project(m, cs[..|cs| - 1]), cs[|cs| - 1])
  }

  lemma {:induction false} ProjectAppend(m: Message, a: seq<StreamChunk>, b: seq<StreamChunk>)
    ensures Project(m, a + b) == Project(Project(m, a), b)
    decreases |b|
  {
    if b == [] {
      assert a + b == a;
    } else {
      var n := |b| - 1;
      assert (a + b)[..|a + b| - 1] == a + b[..n] && (a + b)[|a + b| - 1] == b[n];
      ProjectAppend(m, a, b[..n]);
    }
  }

  /** The text a chunk contributes: a text event's payload or a non-JSON chunk itself. */
  function PayloadOf(c: StreamChunk): string {
    if c.Plain? then c.raw else if c.Emitted? && c.event.Text? then c.event.content else ""
  }

  function Payload(cs: seq<StreamChunk>): string
    decreases |cs|
  {
    if cs == [] then "" else Payload(cs[..|cs| - 1]) + PayloadOf(cs[|cs| - 1])
  }

  /** The final content is the starting content followed by every text payload, in order. */
  lemma {:induction false} ProjectedContent(m: Message, cs: seq<StreamChunk>)
    ensures Project(m, cs).content == m.content + Payload(cs)
    decreases |cs|
  {
    if cs != [] {
      ProjectedContent(m, cs[..|cs| - 1]);
    }
  }

  /** The transcript after one chunk: only the message with the turn's id changes. */
  function ApplyChunk(ms: seq<Message>, assistantId: string, c: StreamChunk): (r: seq<Message>)
    ensures |r| == |ms|
    ensures forall i :: 0 <= i < |ms| && ms[i].id != assistantId ==> r[i] == ms[i]
  {
    seq(|ms|, i requires 0 <= i < |ms| => if ms[i].id == assistantId then ApplyToMessage(ms[i], c) else ms[i])
  }

  /** The transcript after a sequence of chunks. */
  function ApplyChunks(ms: seq<Message>, assistantId: string, cs: seq<StreamChunk>): (r: seq<Message>)
    ensures |r| == |ms|
    ensures forall i :: 0 <= i < |ms| && ms[i].id != assistantId ==> r[i] == ms[i]
  {
    seq(|ms|, i requires 0 <= i < |ms| => if ms[i].id == assistantId then Project(ms[i], cs) else ms[i])
  }

  lemma ApplyChunksStep(ms: seq<Message>, assistantId: string, cs: seq<StreamChunk>, c: StreamChunk)
    ensures ApplyChunk(ApplyChunks(ms, assistantId, cs), assistantId, c) == ApplyChunks(ms, assistantId, cs + [c])
  {
    assert (cs + [c])[..|cs|] == cs;
  }

  const FailureNotice: string := "Sorry, an error occurred. Please try again."

  /** The stream-failure fallback: the live message's content becomes the notice; its tool calls stay. */
  function FailTurn(ms: seq<Message>, assistantId: string): (r: seq<Message>)
    ensures |r| == |ms|
    ensures forall i :: 0 <= i < |ms| && ms[i].id != assistantId ==> r[i] == ms[i]
    ensures forall i :: 0 <= i < |ms| && ms[i].id == assistantId ==>
      r[i].id == ms[i].id && r[i].role == ms[i].role && r[i].content == FailureNotice && r[i].toolCalls == ms[i].toolCalls
  {
    seq(|ms|, i requires 0 <= i < |ms| => if ms[i].id == assistantId then ms[i].(content := FailureNotice) else ms[i])
  }

  // ---------------------------------------------------------------------
  // One turn (onNew)
  // ---------------------------------------------------------------------

  /** A part of the composer's message. */
  datatype AppendPart = TextInput(text: string) | OtherInput

  const OnlyTextError: string := "Only text messages are supported"

  function UserMessage(id: string, text: string): Message {
    Message(id, User, text, None)
  }

  function Placeholder(assistantId: string): Message {
    Message(assistantId, Assistant, "", Some([]))
  }

  /** The transcript at the end of a turn that was not rejected. */
  function TurnMessages(prev: seq<Message>, userId: string, text: string, assistantId: string,
                        chunks: seq<StreamChunk>, failed: bool): seq<Message>
  {
    var streamed := ApplyChunks(prev + [UserMessage(userId, text), Placeholder(assistantId)], assistantId, chunks);
    if failed then FailTurn(streamed, assistantId) else streamed
  }

  /**
   * A turn appends the user message and the assistant message and changes no
   * earlier message; the assistant message holds the streamed text, or the
   * notice after a stream failure, and the tool calls the stream recorded.
   */
  lemma TurnOutcome(prev: seq<Message>, userId: string, text: string, assistantId: string,
                    chunks: seq<StreamChunk>, failed: bool)
    requires forall i :: 0 <= i < |prev| ==> prev[i].id != assistantId
    requires userId != assistantId
    ensures var r := TurnMessages(prev, userId, text, assistantId, chunks, failed);
      && |r| == |prev| + 2
      && r[..|prev|] == prev
      && r[|prev|] == UserMessage(userId, text)
      && r[|prev| + 1].id == assistantId && r[|prev| + 1].role == Assistant
      && r[|prev| + 1].content == (if failed then FailureNotice else Payload(chunks))
      && r[|prev| + 1].toolCalls == Project(Placeholder(assistantId), chunks).toolCalls
  {
    var start := prev + [UserMessage(userId, text), Placeholder(assistantId)];
    var streamed := ApplyChunks(start, assistantId, chunks);
    assert start[|prev| + 1] == Placeholder(assistantId);
    assert streamed[|prev| + 1] == Project(Placeholder(assistantId), chunks);
    ProjectedContent(Placeholder(assistantId), chunks);
    assert "" + Payload(chunks) == Payload(chunks);
    var r := TurnMessages(prev, userId, text, assistantId, chunks, failed);
    assert forall i :: 0 <= i < |prev| ==> r[i] == prev[i];
  }

  /** The history sent with a turn is the earlier transcript's wire form plus the new user entry; the placeholder is not in it. */
  lemma SentHistory(prev: seq<Message>, userId: string, text: string, stringify: Stringify)
    ensures Serialize(prev + [UserMessage(userId, text)], stringify) == Serialize(prev, stringify) + [UserEntry(text)]
  {
    SerializeAppend(prev, [UserMessage(userId, text)], stringify);
    assert [UserMessage(userId, text)][1..] == [];
  }

  // ---------------------------------------------------------------------
  // Replaying an execution block of the orchestrator on the client
  // ---------------------------------------------------------------------

  /** The orchestrator's events as the provider receives them. */
  function Emit(es: seq<ChatStream.TurnEvent>): (r: seq<StreamChunk>)
    ensures |r| == |es| && forall k :: 0 <= k < |es| ==> r[k] == Emitted(es[k])
  {
    seq(|es|, k requires 0 <= k < |es| => Emitted(es[k]))
  }

  predicate DistinctPendingIds(calls: seq<ChatStream.PendingCall>) {
    forall i, j :: 0 <= i < j < |calls| ==> calls[i].id != calls[j].id
  }

  function IdSet(calls: seq<ChatStream.PendingCall>): set<string> {
    set i | 0 <= i < |calls| :: calls[i].id
  }

  /** What the client should hold for one executed call: nothing if its arguments did not parse, else the call with the tool's result if it returned one. */
  function RecordOf(c: ChatStream.PendingCall, parse: ChatStream.Parser, run: ChatStream.ToolRunner): seq<ToolCallPart> {
    match parse(c.arguments)
    case Err(_) => []
    case Ok(args) =>
      [ToolCallPart(c.id, c.name, args, if run(c.name, args).Ok? then Some(run(c.name, args).value) else None)]
  }

  /** The records for a list of executed calls, in execution order. */
  function Recorded(calls: seq<ChatStream.PendingCall>, parse: ChatStream.Parser, run: ChatStream.ToolRunner): seq<ToolCallPart>
    decreases |calls|
  {
    if calls == [] then []
    else Recorded(calls[..|calls| - 1], parse, run) + RecordOf(calls[|calls| - 1], parse, run)
  }

  /** Under distinct ids, the last call's id is not among the earlier ones. */
  lemma LastIdFresh(calls: seq<ChatStream.PendingCall>)
    requires DistinctPendingIds(calls) && |calls| > 0
    ensures calls[|calls| - 1].id !in IdSet(calls[..|calls| - 1])
  {
    var n := |calls| - 1;
    forall i | 0 <= i < n
      ensures calls[..n][i].id != calls[n].id
    {
      assert calls[..n][i] == calls[i];
    }
  }

  lemma {:induction false} RecordedWellFormed(calls: seq<ChatStream.PendingCall>, parse: ChatStream.Parser, run: ChatStream.ToolRunner)
    requires DistinctPendingIds(calls)
    ensures forall j :: 0 <= j < |Recorded(calls, parse, run)| ==> Recorded(calls, parse, run)[j].toolCallId in IdSet(calls)
    ensures DistinctCallIds(Recorded(calls, parse, run))
    decreases |calls|
  {
    if calls != [] {
      var n := |calls| - 1;
      var p := calls[..n];
      RecordedWellFormed(p, parse, run);
      assert IdSet(p) <= IdSet(calls);
      LastIdFresh(calls);
      assert calls[n].id in IdSet(calls);
    }
  }

  /** Where a call ends up among the records: present with its result iff its arguments parsed. */
  lemma {:induction false} RecordedAt(calls: seq<ChatStream.PendingCall>, parse: ChatStream.Parser, run: ChatStream.ToolRunner, k: nat)
    requires DistinctPendingIds(calls) && k < |calls|
    ensures parse(calls[k].arguments).Ok? ==>
      exists j :: 0 <= j < |Recorded(calls, parse, run)| && Recorded(calls, parse, run)[j] == RecordOf(calls[k], parse, run)[0]
    ensures parse(calls[k].arguments).Err? ==>
      forall j :: 0 <= j < |Recorded(calls, parse, run)| ==> Recorded(calls, parse, run)[j].toolCallId != calls[k].id
    decreases |calls|
  {
    var n := |calls| - 1;
    var p := calls[..n];
    var rp := Recorded(p, parse, run);
    var r := Recorded(calls, parse, run);
    assert r == rp + RecordOf(calls[n], parse, run);
    if k == n {
      RecordedWellFormed(p, parse, run);
      LastIdFresh(calls);
      if parse(calls[k].arguments).Ok? {
        assert r[|rp|] == RecordOf(calls[k], parse, run)[0];
      }
    } else {
      assert p[k] == calls[k];
      RecordedAt(p, parse, run, k);
      if parse(calls[k].arguments).Ok? {
        var j :| 0 <= j < |rp| && rp[j] == RecordOf(calls[k], parse, run)[0];
        assert r[j] == rp[j];
      }
    }
  }

  /** Replaying one executed call appends its record, provided no earlier record has its id. */
  lemma ProjectCall(m: Message, c: ChatStream.PendingCall, parse: ChatStream.Parser, run: ChatStream.ToolRunner)
    requires forall j :: 0 <= j < |CallsOf(m)| ==> CallsOf(m)[j].toolCallId != c.id
    ensures Project(m, Emit(ChatStream.ExecuteCall(c, parse, run))).content == m.content
    ensures CallsOf(Project(m, Emit(ChatStream.ExecuteCall(c, parse, run)))) == CallsOf(m) + RecordOf(c, parse, run)
  {
    var es := Emit(ChatStream.ExecuteCall(c, parse, run));
    if |es| == 1 {
      assert es[..0] == [];
      assert Project(m, es) == ApplyToMessage(m, es[0]);
    } else {
      assert es[..1][..0] == [] && es[..1] == [es[0]];
      var m2 := ApplyToMessage(m, es[0]);
      assert Project(m, es[..1]) == m2;
      assert Project(m, es) == ApplyToMessage(m2, es[1]);
      var args := parse(c.arguments).value;
      assert CallsOf(m2) == CallsOf(m) + [ToolCallPart(c.id, c.name, args, None)];
      var m3 := ApplyToMessage(m2, es[1]);
      if run(c.name, args).Ok? {
        var want := CallsOf(m) + RecordOf(c, parse, run);
        assert forall k :: 0 <= k < |CallsOf(m3)| ==> CallsOf(m3)[k] == want[k];
      }
    }
  }

  /** A call whose arguments do not parse leaves no trace: the next wire form neither lists it nor answers it. */
  lemma UnparsedCallNotResent(m: Message, c: ChatStream.PendingCall, parse: ChatStream.Parser,
                              run: ChatStream.ToolRunner, stringify: Stringify)
    requires m.role == Assistant && CallsOf(m) == [] && parse(c.arguments).Err?
    ensures SerializeMessage(Project(m, Emit(ChatStream.ExecuteCall(c, parse, run))), stringify)
         == [AssistantEntry(m.content, None)]
  {
    ProjectCall(m, c, parse, run);
  }

  /** Replaying executed calls on a message without tool calls records exactly `Recorded` and leaves the text alone. */
  lemma {:induction false} ProjectExecution(m: Message, calls: seq<ChatStream.PendingCall>, parse: ChatStream.Parser, run: ChatStream.ToolRunner)
    requires CallsOf(m) == [] && DistinctPendingIds(calls)
    ensures Project(m, Emit(ChatStream.ExecuteAll(calls, parse, run))).content == m.content
    ensures CallsOf(Project(m, Emit(ChatStream.ExecuteAll(calls, parse, run)))) == Recorded(calls, parse, run)
    decreases |calls|
  {
    if calls == [] {
      assert Emit([]) == [];
    } else {
      var n := |calls| - 1;
      var p := calls[..n];
      var before := ChatStream.ExecuteAll(p, parse, run);
      var step := ChatStream.ExecuteCall(calls[n], parse, run);
      assert Emit(before + step) == Emit(before) + Emit(step);
      ProjectAppend(m, Emit(before), Emit(step));
      ProjectExecution(m, p, parse, run);
      RecordedWellFormed(p, parse, run);
      LastIdFresh(calls);
      ProjectCall(Project(m, Emit(before)), calls[n], parse, run);
    }
  }

  /** The client-side effect of one tool block: markers change nothing, the calls are recorded as `Recorded`. */
  lemma ProjectToolBlock(m: Message, calls: seq<ChatStream.PendingCall>, parse: ChatStream.Parser, run: ChatStream.ToolRunner)
    requires CallsOf(m) == [] && DistinctPendingIds(calls)
    ensures var block := [ChatStream.CallsStart] + ChatStream.ExecuteAll(calls, parse, run) + [ChatStream.CallsEnd];
      Project(m, Emit(block)).content == m.content
      && Project(m, Emit(block)).role == m.role
      && CallsOf(Project(m, Emit(block))) == Recorded(calls, parse, run)
  {
    var body := ChatStream.ExecuteAll(calls, parse, run);
    var block := [ChatStream.CallsStart] + body + [ChatStream.CallsEnd];
    assert Emit(block) == Emit([ChatStream.CallsStart]) + Emit(body) + Emit([ChatStream.CallsEnd]);
    ProjectAppend(m, Emit([ChatStream.CallsStart]), Emit(body));
    ProjectAppend(m, Emit([ChatStream.CallsStart]) + Emit(body), Emit([ChatStream.CallsEnd]));
    assert Emit([ChatStream.CallsStart])[..0] == [];
    assert Emit([ChatStream.CallsEnd])[..0] == [];
    ProjectExecution(m, calls, parse, run);
  }

  /**
   * The tool entry the next turn should carry for an executed call: its
   * stringified result when the arguments parsed, the tool returned, and the
   * result is truthy; none otherwise.
   */
  function ExpectedEntry(c: ChatStream.PendingCall, parse: ChatStream.Parser, run: ChatStream.ToolRunner,
                         stringify: Stringify): Option<string>
  {
    match parse(c.arguments)
    case Err(_) => None
    case Ok(args) =>
      match run(c.name, args)
      case Err(_) => None
      case Ok(result) => if Truthy(result) then Some(stringify(result)) else None
  }

  /** A call whose arguments parsed: its record is read back through the wire form. */
  lemma {:induction false} RecordedResultParsed(m: Message, calls: seq<ChatStream.PendingCall>, parse: ChatStream.Parser, run: ChatStream.ToolRunner,
                             stringify: Stringify, k: nat)
    requires m.role == Assistant && CallsOf(m) == Recorded(calls, parse, run)
    requires DistinctPendingIds(calls) && k < |calls| && parse(calls[k].arguments).Ok?
    ensures ResultFor(SerializeMessage(m, stringify), calls[k].id) == ExpectedEntry(calls[k], parse, run, stringify)
  {
    var r := CallsOf(m);
    RecordedWellFormed(calls, parse, run);
    RecordedAt(calls, parse, run, k);
    var j :| 0 <= j < |r| && r[j] == RecordOf(calls[k], parse, run)[0];
    SerializedResultRoundTrip(m, stringify, j);
  }

  /** A call whose arguments did not parse has no record, so no tool entry. */
  lemma {:induction false} RecordedResultUnparsed(m: Message, calls: seq<ChatStream.PendingCall>, parse: ChatStream.Parser, run: ChatStream.ToolRunner,
                               stringify: Stringify, k: nat)
    requires m.role == Assistant && CallsOf(m) == Recorded(calls, parse, run)
    requires DistinctPendingIds(calls) && k < |calls| && parse(calls[k].arguments).Err?
    ensures ResultFor(SerializeMessage(m, stringify), calls[k].id) == None
  {
    var r := CallsOf(m);
    RecordedAt(calls, parse, run, k);
    if r == [] {
      assert SerializeMessage(m, stringify) == [AssistantEntry(m.content, None)];
    } else {
      var head := [AssistantEntry(m.content, Some(WireCalls(r, stringify)))];
      ResultForAppend(head, ToolEntries(r, stringify), calls[k].id);
      assert head[1..] == [];
      ToolEntriesAbsent(r, stringify, calls[k].id);
    }
  }

  /**
   * End to end: when the block's call ids are distinct, after the client
   * replays it the next turn's wire form carries a tool entry for a call
   * exactly when its arguments parsed,
   * the tool returned, and the result is truthy; the entry holds the
   * stringified result. A call whose tool failed is resent as a call without
   * a result; a call whose arguments did not parse is not resent at all.
   */
  lemma {:induction false} ReplayedResults(m: Message, a: ChatStream.Accumulator, chunk: ChatStream.Chunk,
                        parse: ChatStream.Parser, run: ChatStream.ToolRunner, stringify: Stringify, k: nat)
    requires m.role == Assistant && CallsOf(m) == []
    requires chunk.finishReason == Some("tool_calls")
    requires DistinctPendingIds(a.calls) && k < |a.calls|
    ensures ResultFor(SerializeMessage(Project(m, Emit(ChatStream.FinishEvents(a, chunk, parse, run))), stringify), a.calls[k].id)
         == ExpectedEntry(a.calls[k], parse, run, stringify)
  {
    var replayed := Project(m, Emit(ChatStream.FinishEvents(a, chunk, parse, run)));
    ProjectToolBlock(m, a.calls, parse, run);
    if parse(a.calls[k].arguments).Ok? {
      RecordedResultParsed(replayed, a.calls, parse, run, stringify, k);
    } else {
      RecordedResultUnparsed(replayed, a.calls, parse, run, stringify, k);
    }
  }

  /** The provider's state: the transcript and the running flag. */
  class Runtime {
    var messages: seq<Message>
    var isRunning: bool

    constructor ()
      ensures messages == [] && !isRunning
    {
      messages := [];
      isRunning := false;
    }

    /**
     * onNew: reject a message whose first part is not text; otherwise append
     * the user message and a placeholder, send the wire form of the
     * transcript without the placeholder, apply each chunk, fall back to the
     * notice if the stream fails, and clear the running flag.
     */
    method OnNew(content: seq<AppendPart>, userId: string, assistantId: string,
                 chunks: seq<StreamChunk>, streamFailed: bool, stringify: Stringify)
      returns (sent: Result<seq<WireMessage>, string>)
      modifies this
      ensures content == [] || !content[0].TextInput? ==>
        sent == Err(OnlyTextError) && messages == old(messages) && isRunning == old(isRunning)
      ensures content != [] && content[0].TextInput? ==>
        && sent == Ok(Serialize(old(messages) + [UserMessage(userId, content[0].text)], stringify))
        && messages == TurnMessages(old(messages), userId, content[0].text, assistantId, chunks, streamFailed)
        && !isRunning
    {
      if content == [] || !content[0].TextInput? {
        return Err(OnlyTextError);
      }
      var input := content[0].text;
      var userMessage := UserMessage(userId, input);
      var updatedMessages := messages + [userMessage];
      isRunning := true;
      var assistantMessage := Placeholder(assistantId);
      messages := updatedMessages + [assistantMessage];
      sent := Ok(Serialize(updatedMessages, stringify));
      ghost var start := messages;
      assert ApplyChunks(start, assistantId, []) == start;
      var i := 0;
      while i < |chunks|
        invariant 0 <= i <= |chunks|
        invariant isRunning
        invariant messages == ApplyChunks(start, assistantId, chunks[..i])
      {
        ApplyChunksStep(start, assistantId, chunks[..i], chunks[i]);
        assert chunks[..i + 1] == chunks[..i] + [chunks[i]];
        messages := ApplyChunk(messages, assistantId, chunks[i]);
        i := i + 1;
      }
      assert chunks[..i] == chunks;
      if streamFailed {
        messages := FailTurn(messages, assistantId);
      }
      isRunning := false;
    }
  }
}
