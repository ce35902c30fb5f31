/**
 * The server-side turn orchestrator (`chatStream`): it consumes the
 * completion stream's chunks, accumulates partial tool calls by stream index,
 * and on a `tool_calls` finish reason runs every accumulated call in order,
 * emitting a normalized event for each step.
 *
 * JSON.parse of an argument buffer and the tool registry's callTool are
 * parameters (`Parser`, `ToolRunner`); each event stands for the JSON string
 * the handler yields.
 */
module ChatStream {
  import opened Json
  import opened Mcp

  // ---------------------------------------------------------------------
  // Tool-spec conversion offered to the completion model
  // ---------------------------------------------------------------------

  datatype FunctionSpec = FunctionSpec(name: string, description: string, parameters: Json)

  /** An entry of the `tools` option; `kind` is the literal "function". */
  datatype OpenAITool = OpenAITool(kind: string, spec: FunctionSpec)

  /** `{ type: "object", properties: {} }` */
  const EmptyObjectSchema: Json := JObj(map["type" := JStr("object"), "properties" := JObj(map[])])

  /** One registry tool in function-calling form. */
  function ToOpenAITool(t: McpTool): (r: OpenAITool)
    ensures r.kind == "function" && r.spec.name == t.name
    ensures r.spec.description != ""
    ensures t.description.Some? && t.description.value != "" ==> r.spec.description == t.description.value
    ensures Present(t.inputSchema) ==> r.spec.parameters == t.inputSchema.value
    ensures !Present(t.inputSchema) ==> r.spec.parameters == EmptyObjectSchema
    ensures Truthy(r.spec.parameters)
  {
    OpenAITool("function", FunctionSpec(t.name, DescriptionOf(t),
      if Present(t.inputSchema) then t.inputSchema.value else EmptyObjectSchema))
  }

  /** The whole discovered tool list, converted tool by tool, order kept. */
  function ToOpenAITools(tools: seq<McpTool>): (r: seq<OpenAITool>)
    ensures |r| == |tools|
    ensures forall i :: 0 <= i < |tools| ==> r[i] == ToOpenAITool(tools[i])
  {
    if tools == [] then [] else [ToOpenAITool(tools[0])] + ToOpenAITools(tools[1..])
  }

  /** The `tools` option of the completion request: omitted when no tool was discovered. */
  function ToolsOption(tools: seq<OpenAITool>): (r: Option<seq<OpenAITool>>)
    ensures r.None? <==> |tools| == 0
    ensures r.Some? ==> r.value == tools
  {
    if |tools| > 0 then Some(tools) else None
  }

  // ---------------------------------------------------------------------
  // Stream chunks and the pending tool-call accumulator
  // ---------------------------------------------------------------------

  /** One element of `delta.tool_calls`. */
  datatype ToolCallDelta = ToolCallDelta(index: nat, id: Option<string>, name: Option<string>, arguments: Option<string>)

  /** A completion chunk: `choices[0].delta.content`, `.tool_calls` (absent is empty) and `finish_reason`. */
  datatype Chunk = Chunk(content: Option<string>, toolCalls: seq<ToolCallDelta>, finishReason: Option<string>)

  datatype PendingCall = PendingCall(id: string, name: string, arguments: string)

  /** The handler's `toolCalls` array and `currentToolCallIndex`. */
  datatype Accumulator = Accumulator(calls: seq<PendingCall>, cursor: int)

  const Initial: Accumulator := Accumulator([], -1)

  /** The cursor is -1 or names an existing slot. */
  predicate Valid(a: Accumulator) {
    -1 <= a.cursor < |a.calls|
  }

  /** The argument fragment a delta carries ("" when absent). */
  function Fragment(d: ToolCallDelta): string {
    if d.arguments.Some? then d.arguments.value else ""
  }

  /** Concatenation of the fragments of a delta sequence. */
  function Fragments(ds: seq<ToolCallDelta>): string {
    if ds == [] then "" else Fragment(ds[0]) + Fragments(ds[1..])
  }

  /** The slot a delta opens: id and name from the delta or "", arguments empty. */
  function OpenedSlot(d: ToolCallDelta): PendingCall {
    PendingCall(StringOr(d.id, ""), StringOr(d.name, ""), "")
  }

  /** Processing one tool-call delta. */
  function ApplyDelta(a: Accumulator, d: ToolCallDelta): (r: Accumulator)
    requires Valid(a) && d.index <= |a.calls|
    ensures Valid(r) && r.cursor == d.index
    ensures |r.calls| == if d.index < |a.calls| then |a.calls| else |a.calls| + 1
    ensures forall j :: 0 <= j < |a.calls| && j != d.index ==> r.calls[j] == a.calls[j]
    ensures d.index != a.cursor ==>
      r.calls[d.index] == PendingCall(StringOr(d.id, ""), StringOr(d.name, ""), Fragment(d))
    ensures d.index == a.cursor ==>
      r.calls[d.index] == a.calls[d.index].(arguments := a.calls[d.index].arguments + Fragment(d))
  {
    var b :=
      if d.index != a.cursor then
        Accumulator(if d.index < |a.calls| then a.calls[d.index := OpenedSlot(d)] else a.calls + [OpenedSlot(d)], d.index)
      else a;
    if d.arguments.Some? && d.arguments.value != "" then
      Accumulator(b.calls[d.index := b.calls[d.index].(arguments := b.calls[d.index].arguments + d.arguments.value)], b.cursor)
    else b
  }

  /** Every delta's index is at most the array's length when it arrives (no holes). */
  predicate DeltasFit(a: Accumulator, ds: seq<ToolCallDelta>)
    requires Valid(a)
    decreases |ds|
  {
    ds == [] || (ds[0].index <= |a.calls| && DeltasFit(ApplyDelta(a, ds[0]), ds[1..]))
  }

  function ApplyDeltas(a: Accumulator, ds: seq<ToolCallDelta>): (r: Accumulator)
    requires Valid(a) && DeltasFit(a, ds)
    ensures Valid(r) && |r.calls| >= |a.calls|
    decreases |ds|
  {
    if ds == [] then a else ApplyDeltas(ApplyDelta(a, ds[0]), ds[1..])
  }

  /** Continuing deltas on the cursor's index append their fragments to that slot and touch nothing else. */
  lemma {:induction false} ArgumentsConcatenate(a: Accumulator, ds: seq<ToolCallDelta>, i: nat)
    requires Valid(a) && i < |a.calls| && a.cursor == i
    requires forall k :: 0 <= k < |ds| ==> ds[k].index == i
    ensures DeltasFit(a, ds)
    ensures ApplyDeltas(a, ds).cursor == i && |ApplyDeltas(a, ds).calls| == |a.calls|
    ensures ApplyDeltas(a, ds).calls[i] == a.calls[i].(arguments := a.calls[i].arguments + Fragments(ds))
    ensures forall j :: 0 <= j < |a.calls| && j != i ==> ApplyDeltas(a, ds).calls[j] == a.calls[j]
    decreases |ds|
  {
    if ds != [] {
      var b := ApplyDelta(a, ds[0]);
      ArgumentsConcatenate(b, ds[1..], i);
      assert a.calls[i].arguments + Fragment(ds[0]) + Fragments(ds[1..])
          == a.calls[i].arguments + Fragments(ds);
    }
  }

  /**
   * A call opened by one delta and continued by others at the same index ends
   * with the opening delta's id and name and the concatenation of all fragments.
   */
  lemma {:induction false} CallAccumulates(a: Accumulator, d0: ToolCallDelta, ds: seq<ToolCallDelta>)
    requires Valid(a) && d0.index <= |a.calls| && d0.index != a.cursor
    requires forall k :: 0 <= k < |ds| ==> ds[k].index == d0.index
    ensures DeltasFit(a, [d0] + ds)
    ensures ApplyDeltas(a, [d0] + ds).cursor == d0.index
    ensures |ApplyDeltas(a, [d0] + ds).calls| == if d0.index < |a.calls| then |a.calls| else |a.calls| + 1
    ensures ApplyDeltas(a, [d0] + ds).calls[d0.index]
         == PendingCall(StringOr(d0.id, ""), StringOr(d0.name, ""), Fragments([d0] + ds))
    ensures forall j :: 0 <= j < |a.calls| && j != d0.index ==> ApplyDeltas(a, [d0] + ds).calls[j] == a.calls[j]
  {
    var b := ApplyDelta(a, d0);
    assert ([d0] + ds)[1..] == ds;
    ArgumentsConcatenate(b, ds, d0.index);
  }

  /** Applying `xs + ys` is applying `xs`, then `ys`; the no-holes condition splits the same way. */
  lemma {:induction false} ApplyDeltasAppend(a: Accumulator, xs: seq<ToolCallDelta>, ys: seq<ToolCallDelta>)
    requires Valid(a)
    ensures DeltasFit(a, xs + ys) <==> DeltasFit(a, xs) && DeltasFit(ApplyDeltas(a, xs), ys)
    ensures DeltasFit(a, xs + ys) ==> ApplyDeltas(a, xs + ys) == ApplyDeltas(ApplyDeltas(a, xs), ys)
    decreases |xs|
  {
    if xs == [] {
      assert xs + ys == ys;
    } else {
      assert (xs + ys)[0] == xs[0] && (xs + ys)[1..] == xs[1..] + ys;
      if xs[0].index <= |a.calls| {
        ApplyDeltasAppend(ApplyDelta(a, xs[0]), xs[1..], ys);
      }
    }
  }

  /** The deltas open one new call and then only continue it. */
  predicate OneCall(a: Accumulator, ds: seq<ToolCallDelta>) {
    && ds != [] && ds[0].index <= |a.calls| && ds[0].index != a.cursor
    && forall k :: 0 <= k < |ds| ==> ds[k].index == ds[0].index
  }

  /**
   * How a call's fragments are split, inside one chunk or across chunks, does
   * not matter: two chunk sequences that open the same call and carry the same
   * concatenated fragments leave the same accumulator.
   */
  lemma SplitIndependent(a: Accumulator, left: seq<Chunk>, right: seq<Chunk>)
    requires Valid(a) && OneCall(a, AllDeltas(left)) && OneCall(a, AllDeltas(right))
    requires AllDeltas(left)[0].index == AllDeltas(right)[0].index
    requires AllDeltas(left)[0].id == AllDeltas(right)[0].id && AllDeltas(left)[0].name == AllDeltas(right)[0].name
    requires Fragments(AllDeltas(left)) == Fragments(AllDeltas(right))
    ensures ChunksFit(a, left) && ChunksFit(a, right)
    ensures AccumulatorAfter(a, left) == AccumulatorAfter(a, right)
  {
    var l, r := AllDeltas(left), AllDeltas(right);
    assert [l[0]] + l[1..] == l && [r[0]] + r[1..] == r;
    CallAccumulates(a, l[0], l[1..]);
    CallAccumulates(a, r[0], r[1..]);
    ChunkedDeltas(a, left);
    ChunkedDeltas(a, right);
    var x, y := ApplyDeltas(a, l), ApplyDeltas(a, r);
    assert forall j :: 0 <= j < |x.calls| ==> x.calls[j] == y.calls[j];
  }

  // ---------------------------------------------------------------------
  // Execution of accumulated calls and the emitted events
  // ---------------------------------------------------------------------

  /** What a failed step threw: an Error object with its message, or something else. */
  datatype Thrown = ErrorObject(message: string) | NonError

  const UnknownError: string := "Unknown error"

  function ErrorMessage(t: Thrown): string {
    if t.ErrorObject? then t.message else UnknownError
  }

  /** The events the handler yields, each standing for `JSON.stringify({ type: ..., ... })`. */
  datatype TurnEvent =
    | Text(content: string)
    | CallsStart
    | ToolCall(id: string, name: string, arguments: Json)
    | ToolResult(id: string, result: Json)
    | ToolError(id: string, error: string)
    | CallsEnd

  /** JSON.parse: a value, or the SyntaxError's message. */
  type Parser = string -> Result<Json, string>

  /** Connecting to the registry, callTool and closing, as one step that returns a result or throws. */
  type ToolRunner = (string, Json) -> Result<Json, Thrown>

  predicate IsResolution(e: TurnEvent) {
    e.ToolResult? || e.ToolError?
  }

  /** The events for one accumulated call. */
  function ExecuteCall(c: PendingCall, parse: Parser, run: ToolRunner): (r: seq<TurnEvent>)
    ensures 1 <= |r| <= 2
    ensures |r| == 2 <==> parse(c.arguments).Ok?
    ensures |r| == 2 ==> r[0] == ToolCall(c.id, c.name, parse(c.arguments).value)
    ensures IsResolution(r[|r| - 1]) && r[|r| - 1].id == c.id
    ensures forall k :: 0 <= k < |r| - 1 ==> !IsResolution(r[k])
    ensures r[|r| - 1].ToolResult? <==> parse(c.arguments).Ok? && run(c.name, parse(c.arguments).value).Ok?
    ensures r[|r| - 1].ToolResult? ==> r[|r| - 1].result == run(c.name, parse(c.arguments).value).value
  {
    match parse(c.arguments)
    case Err(msg) => [ToolError(c.id, msg)]
    case Ok(args) =>
      match run(c.name, args)
      case Ok(result) => [ToolCall(c.id, c.name, args), ToolResult(c.id, result)]
      case Err(t) => [ToolCall(c.id, c.name, args), ToolError(c.id, ErrorMessage(t))]
  }

  /** The events for all accumulated calls, executed one after another in array order. */
  function ExecuteAll(calls: seq<PendingCall>, parse: Parser, run: ToolRunner): seq<TurnEvent>
    decreases |calls|
  {
    if calls == [] then []
    else ExecuteAll(calls[..|calls| - 1], parse, run) + ExecuteCall(calls[|calls| - 1], parse, run)
  }

  /** Ids of the resolution events (tool_result or tool_error), in order. */
  function Resolutions(es: seq<TurnEvent>): seq<string> {
    if es == [] then []
    else (if IsResolution(es[0]) then [es[0].id] else []) + Resolutions(es[1..])
  }

  function CallIds(calls: seq<PendingCall>): seq<string> {
    seq(|calls|, i requires 0 <= i < |calls| => calls[i].id)
  }

  lemma {:induction false} ResolutionsAppend(a: seq<TurnEvent>, b: seq<TurnEvent>)
    ensures Resolutions(a + b) == Resolutions(a) + Resolutions(b)
    decreases |a|
  {
    if a == [] {
      assert a + b == b;
    } else {
      assert (a + b)[0] == a[0] && (a + b)[1..] == a[1..] + b;
      ResolutionsAppend(a[1..], b);
    }
  }

  /**
   * Every accumulated call is resolved exactly once, in array order, whether
   * its parse or its execution failed: a failure never stops the later calls.
   */
  lemma {:induction false} EveryCallResolvedInOrder(calls: seq<PendingCall>, parse: Parser, run: ToolRunner)
    ensures Resolutions(ExecuteAll(calls, parse, run)) == CallIds(calls)
    decreases |calls|
  {
    if calls != [] {
      var n := |calls| - 1;
      EveryCallResolvedInOrder(calls[..n], parse, run);
      ResolutionsAppend(ExecuteAll(calls[..n], parse, run), ExecuteCall(calls[n], parse, run));
      var r := ExecuteCall(calls[n], parse, run);
      if |r| == 2 {
        assert Resolutions(r) == [calls[n].id] by {
          assert r[1..][1..] == [];
          assert Resolutions(r[1..]) == [r[1].id];
        }
      } else {
        assert Resolutions(r) == [calls[n].id] by {
          assert r[1..] == [];
        }
      }
      assert CallIds(calls) == CallIds(calls[..n]) + [calls[n].id];
    }
  }

  /** A text or block-marker event. */
  predicate IsFraming(e: TurnEvent) {
    e.Text? || e.CallsStart? || e.CallsEnd?
  }

  lemma {:induction false} ExecuteAllUnframed(calls: seq<PendingCall>, parse: Parser, run: ToolRunner)
    ensures forall k :: 0 <= k < |ExecuteAll(calls, parse, run)| ==> !IsFraming(ExecuteAll(calls, parse, run)[k])
    decreases |calls|
  {
    if calls != [] {
      ExecuteAllUnframed(calls[..|calls| - 1], parse, run);
    }
  }

  /** The events a chunk's finish reason triggers, given the calls accumulated so far. */
  function FinishEvents(a: Accumulator, c: Chunk, parse: Parser, run: ToolRunner): seq<TurnEvent> {
    if c.finishReason == Some("tool_calls") && |a.calls| > 0 then
      [CallsStart] + ExecuteAll(a.calls, parse, run) + [CallsEnd]
    else []
  }

  function Count(es: seq<TurnEvent>, e: TurnEvent): nat {
    if es == [] then 0 else (if es[0] == e then 1 else 0) + Count(es[1..], e)
  }

  lemma {:induction false} CountAppend(a: seq<TurnEvent>, b: seq<TurnEvent>, e: TurnEvent)
    ensures Count(a + b, e) == Count(a, e) + Count(b, e)
    decreases |a|
  {
    if a == [] {
      assert a + b == b;
    } else {
      assert (a + b)[0] == a[0] && (a + b)[1..] == a[1..] + b;
      CountAppend(a[1..], b, e);
    }
  }

  lemma {:induction false} CountAbsent(a: seq<TurnEvent>, e: TurnEvent)
    requires forall k :: 0 <= k < |a| ==> a[k] != e
    ensures Count(a, e) == 0
    decreases |a|
  {
    if a != [] {
      CountAbsent(a[1..], e);
    }
  }

  /**
   * A block is emitted exactly when the finish reason is "tool_calls" and at
   * least one call was accumulated; it opens with the only tool_calls_start and
   * closes with the only tool_calls_end.
   */
  lemma ToolBlockFraming(a: Accumulator, c: Chunk, parse: Parser, run: ToolRunner)
    ensures FinishEvents(a, c, parse, run) != [] <==> c.finishReason == Some("tool_calls") && |a.calls| > 0
    ensures FinishEvents(a, c, parse, run) != [] ==>
      var r := FinishEvents(a, c, parse, run);
      r[0] == CallsStart && r[|r| - 1] == CallsEnd
      && Count(r, CallsStart) == 1 && Count(r, CallsEnd) == 1
  {
    if c.finishReason == Some("tool_calls") && |a.calls| > 0 {
      var body := ExecuteAll(a.calls, parse, run);
      ExecuteAllUnframed(a.calls, parse, run);
      CountAbsent(body, CallsStart);
      CountAbsent(body, CallsEnd);
      CountAppend([CallsStart], body, CallsStart);
      CountAppend([CallsStart] + body, [CallsEnd], CallsStart);
      CountAppend([CallsStart], body, CallsEnd);
      CountAppend([CallsStart] + body, [CallsEnd], CallsEnd);
    }
  }

  // ---------------------------------------------------------------------
  // The whole stream
  // ---------------------------------------------------------------------

  /** The text event a chunk forwards: one per non-empty content delta. */
  function TextEvents(c: Chunk): seq<TurnEvent> {
    if c.content.Some? && c.content.value != "" then [Text(c.content.value)] else []
  }

  predicate ChunksFit(a: Accumulator, chunks: seq<Chunk>)
    requires Valid(a)
    decreases |chunks|
  {
    chunks == []
    || (DeltasFit(a, chunks[0].toolCalls) && ChunksFit(ApplyDeltas(a, chunks[0].toolCalls), chunks[1..]))
  }

  /** The events yielded for the remaining chunks, from accumulator state `a`. */
  function Events(a: Accumulator, chunks: seq<Chunk>, parse: Parser, run: ToolRunner): seq<TurnEvent>
    requires Valid(a) && ChunksFit(a, chunks)
    decreases |chunks|
  {
    if chunks == [] then []
    else
      var b := ApplyDeltas(a, chunks[0].toolCalls);
      TextEvents(chunks[0]) + FinishEvents(b, chunks[0], parse, run) + Events(b, chunks[1..], parse, run)
  }

  /** The tool-call deltas of a chunk sequence, concatenated in stream order. */
  function AllDeltas(chunks: seq<Chunk>): seq<ToolCallDelta>
    decreases |chunks|
  {
    if chunks == [] then [] else chunks[0].toolCalls + AllDeltas(chunks[1..])
  }

  /** The accumulator after a chunk sequence: one `ApplyDeltas` per chunk, as `Events` steps it. */
  function AccumulatorAfter(a: Accumulator, chunks: seq<Chunk>): (r: Accumulator)
    requires Valid(a) && ChunksFit(a, chunks)
    ensures Valid(r) && |r.calls| >= |a.calls|
    decreases |chunks|
  {
    if chunks == [] then a else AccumulatorAfter(ApplyDeltas(a, chunks[0].toolCalls), chunks[1..])
  }

  /** Chunk boundaries do not matter to the accumulator: it is every chunk's deltas applied as one list. */
  lemma {:induction false} ChunkedDeltas(a: Accumulator, chunks: seq<Chunk>)
    requires Valid(a)
    ensures ChunksFit(a, chunks) <==> DeltasFit(a, AllDeltas(chunks))
    ensures ChunksFit(a, chunks) ==> AccumulatorAfter(a, chunks) == ApplyDeltas(a, AllDeltas(chunks))
    decreases |chunks|
  {
    if chunks != [] {
      ApplyDeltasAppend(a, chunks[0].toolCalls, AllDeltas(chunks[1..]));
      if DeltasFit(a, chunks[0].toolCalls) {
        ChunkedDeltas(ApplyDeltas(a, chunks[0].toolCalls), chunks[1..]);
      }
    }
  }

  /** Adding a chunk at the end applies its deltas to the accumulator so far. */
  lemma {:induction false} AccumulatorAfterLast(a: Accumulator, chunks: seq<Chunk>, c: Chunk)
    requires Valid(a)
    ensures ChunksFit(a, chunks + [c]) <==>
      ChunksFit(a, chunks) && DeltasFit(AccumulatorAfter(a, chunks), c.toolCalls)
    ensures ChunksFit(a, chunks + [c]) ==>
      AccumulatorAfter(a, chunks + [c]) == ApplyDeltas(AccumulatorAfter(a, chunks), c.toolCalls)
    decreases |chunks|
  {
    var all := chunks + [c];
    if chunks == [] {
      assert all == [c] && [c][1..] == [];
    } else {
      assert all[0] == chunks[0] && all[1..] == chunks[1..] + [c];
      if DeltasFit(a, chunks[0].toolCalls) {
        AccumulatorAfterLast(ApplyDeltas(a, chunks[0].toolCalls), chunks[1..], c);
      }
    }
  }

  /** The events of a chunk followed by more chunks: one unfolding of `Events`. */
  lemma EventsCons(a: Accumulator, c: Chunk, cs: seq<Chunk>, parse: Parser, run: ToolRunner)
    requires Valid(a) && DeltasFit(a, c.toolCalls) && ChunksFit(ApplyDeltas(a, c.toolCalls), cs)
    ensures ChunksFit(a, [c] + cs)
    ensures AccumulatorAfter(a, [c] + cs) == AccumulatorAfter(ApplyDeltas(a, c.toolCalls), cs)
    ensures Events(a, [c] + cs, parse, run)
         == TextEvents(c) + FinishEvents(ApplyDeltas(a, c.toolCalls), c, parse, run)
            + Events(ApplyDeltas(a, c.toolCalls), cs, parse, run)
  {
    assert ([c] + cs)[0] == c && ([c] + cs)[1..] == cs;
  }

  /** The events of a chunk sequence that ends in chunk `c`. */
  predicate EndsWithChunk(a: Accumulator, chunks: seq<Chunk>, c: Chunk, parse: Parser, run: ToolRunner)
    requires Valid(a) && ChunksFit(a, chunks) && DeltasFit(AccumulatorAfter(a, chunks), c.toolCalls)
  {
    && ChunksFit(a, chunks + [c])
    && Events(a, chunks + [c], parse, run)
       == Events(a, chunks, parse, run) + TextEvents(c)
          + FinishEvents(ApplyDeltas(AccumulatorAfter(a, chunks), c.toolCalls), c, parse, run)
  }

  /** The inductive step of `EventsOfLastChunk`: prefixing a chunk `d` keeps the law. */
  lemma EventsOfLastChunkStep(a: Accumulator, d: Chunk, rest: seq<Chunk>, c: Chunk, parse: Parser, run: ToolRunner)
    requires Valid(a) && DeltasFit(a, d.toolCalls)
    requires ChunksFit(ApplyDeltas(a, d.toolCalls), rest)
    requires DeltasFit(AccumulatorAfter(ApplyDeltas(a, d.toolCalls), rest), c.toolCalls)
    requires EndsWithChunk(ApplyDeltas(a, d.toolCalls), rest, c, parse, run)
    ensures ChunksFit(a, [d] + rest) && DeltasFit(AccumulatorAfter(a, [d] + rest), c.toolCalls)
    ensures EndsWithChunk(a, [d] + rest, c, parse, run)
  {
    var b := ApplyDeltas(a, d.toolCalls);
    assert ([d] + rest) + [c] == [d] + (rest + [c]);
    EventsCons(a, d, rest, parse, run);
    EventsCons(a, d, rest + [c], parse, run);
    var head := TextEvents(d) + FinishEvents(b, d, parse, run);
    var text, block := TextEvents(c), FinishEvents(ApplyDeltas(AccumulatorAfter(b, rest), c.toolCalls), c, parse, run);
    var mid := Events(b, rest, parse, run);
    Regroup(head, mid, text, block);
  }

  /**
   * Whatever the chunk boundaries, a finishing chunk runs the calls that the
   * stream's tool-call deltas build when applied as one list from the empty
   * accumulator.
   */
  lemma FinishSeesAllDeltas(chunks: seq<Chunk>, c: Chunk, parse: Parser, run: ToolRunner)
    requires ChunksFit(Initial, chunks + [c])
    ensures ChunksFit(Initial, chunks) && DeltasFit(Initial, AllDeltas(chunks + [c]))
    ensures Events(Initial, chunks + [c], parse, run)
         == Events(Initial, chunks, parse, run) + TextEvents(c)
            + FinishEvents(ApplyDeltas(Initial, AllDeltas(chunks + [c])), c, parse, run)
  {
    AccumulatorAfterLast(Initial, chunks, c);
    EventsOfLastChunk(Initial, chunks, c, parse, run);
    ChunkedDeltas(Initial, chunks + [c]);
  }

  /** Regrouping a four-part concatenation, proved apart from the large events terms above. */
  lemma Regroup(w: seq<TurnEvent>, x: seq<TurnEvent>, y: seq<TurnEvent>, z: seq<TurnEvent>)
    ensures w + ((x + y) + z) == ((w + x) + y) + z
  {
  }

  /** The last chunk yields its text, then the block over every call accumulated up to and including it. */
  lemma {:induction false} EventsOfLastChunk(a: Accumulator, chunks: seq<Chunk>, c: Chunk, parse: Parser, run: ToolRunner)
    requires Valid(a) && ChunksFit(a, chunks) && DeltasFit(AccumulatorAfter(a, chunks), c.toolCalls)
    ensures ChunksFit(a, chunks + [c])
    ensures Events(a, chunks + [c], parse, run)
         == Events(a, chunks, parse, run) + TextEvents(c)
            + FinishEvents(ApplyDeltas(AccumulatorAfter(a, chunks), c.toolCalls), c, parse, run)
    decreases |chunks|
  {
    if chunks == [] {
      assert chunks + [c] == [c] + [];
      EventsCons(a, c, [], parse, run);
    } else {
      var d, rest := chunks[0], chunks[1..];
      assert chunks == [d] + rest;
      EventsOfLastChunk(ApplyDeltas(a, d.toolCalls), rest, c, parse, run);
      EventsOfLastChunkStep(a, d, rest, c, parse, run);
    }
  }

  /** The inner loop over a chunk's `delta.tool_calls`, updating the array and the cursor in place. */
  method AccumulateDeltas(calls0: seq<PendingCall>, cursor0: int, ds: seq<ToolCallDelta>)
    returns (toolCalls: seq<PendingCall>, cursor: int)
    requires Valid(Accumulator(calls0, cursor0)) && DeltasFit(Accumulator(calls0, cursor0), ds)
    ensures Accumulator(toolCalls, cursor) == ApplyDeltas(Accumulator(calls0, cursor0), ds)
  {
    toolCalls, cursor := calls0, cursor0;
    var j := 0;
    while j < |ds|
      invariant 0 <= j <= |ds|
      invariant Valid(Accumulator(toolCalls, cursor))
      invariant DeltasFit(Accumulator(toolCalls, cursor), ds[j..])
      invariant ApplyDeltas(Accumulator(toolCalls, cursor), ds[j..]) == ApplyDeltas(Accumulator(calls0, cursor0), ds)
    {
      var d := ds[j];
      assert ds[j..][1..] == ds[j + 1..];
      ghost var next := ApplyDelta(Accumulator(toolCalls, cursor), d);
      if d.index != cursor {
        cursor := d.index;
        var slot := PendingCall(StringOr(d.id, ""), StringOr(d.name, ""), "");
        if d.index < |toolCalls| {
          toolCalls := toolCalls[d.index := slot];
        } else {
          toolCalls := toolCalls + [slot];
        }
      }
      if d.arguments.Some? && d.arguments.value != "" {
        toolCalls := toolCalls[d.index := toolCalls[d.index].(arguments := toolCalls[d.index].arguments + d.arguments.value)];
      }
      assert Accumulator(toolCalls, cursor) == next;
      j := j + 1;
    }
    assert ds[j..] == [];
  }

  /** The sequential execution loop: each call in array order, a failure caught per call. */
  method ExecuteToolCalls(toolCalls: seq<PendingCall>, parse: Parser, run: ToolRunner) returns (events: seq<TurnEvent>)
    ensures events == ExecuteAll(toolCalls, parse, run)
  {
    events := [];
    var k := 0;
    while k < |toolCalls|
      invariant 0 <= k <= |toolCalls|
      invariant events == ExecuteAll(toolCalls[..k], parse, run)
    {
      var call := toolCalls[k];
      assert toolCalls[..k + 1][..k] == toolCalls[..k];
      match parse(call.arguments) {
        case Err(msg) =>
          events := events + [ToolError(call.id, msg)];
        case Ok(args) =>
          events := events + [ToolCall(call.id, call.name, args)];
          match run(call.name, args) {
            case Ok(result) =>
              events := events + [ToolResult(call.id, result)];
            case Err(t) =>
              events := events + [ToolError(call.id, ErrorMessage(t))];
          }
      }
      k := k + 1;
    }
    assert toolCalls[..k] == toolCalls;
  }

  /** One iteration of the handler's loop: forward text, take in the tool-call deltas, run the calls on a `tool_calls` finish. */
  method ProcessChunk(calls0: seq<PendingCall>, cursor0: int, chunk: Chunk, parse: Parser, run: ToolRunner)
    returns (toolCalls: seq<PendingCall>, cursor: int, yielded: seq<TurnEvent>)
    requires Valid(Accumulator(calls0, cursor0)) && DeltasFit(Accumulator(calls0, cursor0), chunk.toolCalls)
    ensures Accumulator(toolCalls, cursor) == ApplyDeltas(Accumulator(calls0, cursor0), chunk.toolCalls)
    ensures yielded == TextEvents(chunk) + FinishEvents(Accumulator(toolCalls, cursor), chunk, parse, run)
  {
    yielded := [];
    if chunk.content.Some? && chunk.content.value != "" {
      yielded := yielded + [Text(chunk.content.value)];
    }
    toolCalls, cursor := AccumulateDeltas(calls0, cursor0, chunk.toolCalls);
    if chunk.finishReason == Some("tool_calls") && |toolCalls| > 0 {
      var block := ExecuteToolCalls(toolCalls, parse, run);
      yielded := yielded + [CallsStart] + block + [CallsEnd];
    }
  }

  /** The `chatStream` handler's loop over the completion stream. */
  method RunStream(chunks: seq<Chunk>, parse: Parser, run: ToolRunner) returns (events: seq<TurnEvent>)
    requires ChunksFit(Initial, chunks)
    ensures events == Events(Initial, chunks, parse, run)
  {
    var toolCalls: seq<PendingCall> := [];
    var cursor: int := -1;
    events := [];
    var i := 0;
    while i < |chunks|
      invariant 0 <= i <= |chunks|
      invariant Valid(Accumulator(toolCalls, cursor))
      invariant ChunksFit(Accumulator(toolCalls, cursor), chunks[i..])
      invariant events + Events(Accumulator(toolCalls, cursor), chunks[i..], parse, run) == Events(Initial, chunks, parse, run)
    {
      ghost var a := Accumulator(toolCalls, cursor);
      assert chunks[i..][0] == chunks[i] && chunks[i..][1..] == chunks[i + 1..];
      var yielded;
      toolCalls, cursor, yielded := ProcessChunk(toolCalls, cursor, chunks[i], parse, run);
      ghost var rest := Events(Accumulator(toolCalls, cursor), chunks[i + 1..], parse, run);
      assert Events(a, chunks[i..], parse, run) == yielded + rest;
      assert (events + yielded) + rest == events + (yielded + rest);
      events := events + yielded;
      i := i + 1;
    }
  }

  // ---------------------------------------------------------------------
  // Properties of the whole stream
  // ---------------------------------------------------------------------

  /** The payloads of the text events, in order. */
  function Texts(es: seq<TurnEvent>): seq<string> {
    if es == [] then [] else (if es[0].Text? then [es[0].content] else []) + Texts(es[1..])
  }

  /** The non-empty content deltas of the chunks, in order. */
  function ContentDeltas(chunks: seq<Chunk>): seq<string> {
    if chunks == [] then []
    else
      (if chunks[0].content.Some? && chunks[0].content.value != "" then [chunks[0].content.value] else [])
      + ContentDeltas(chunks[1..])
  }

  lemma {:induction false} TextsAppend(a: seq<TurnEvent>, b: seq<TurnEvent>)
    ensures Texts(a + b) == Texts(a) + Texts(b)
    decreases |a|
  {
    if a == [] {
      assert a + b == b;
    } else {
      assert (a + b)[0] == a[0] && (a + b)[1..] == a[1..] + b;
      TextsAppend(a[1..], b);
    }
  }

  lemma {:induction false} TextsNone(a: seq<TurnEvent>)
    requires forall k :: 0 <= k < |a| ==> !a[k].Text?
    ensures Texts(a) == []
    decreases |a|
  {
    if a != [] {
      TextsNone(a[1..]);
    }
  }

  /**
   * Text events are exactly the non-empty content deltas, each forwarded once,
   * in stream order; tool execution adds no text.
   */
  lemma {:induction false} TextForwarded(a: Accumulator, chunks: seq<Chunk>, parse: Parser, run: ToolRunner)
    requires Valid(a) && ChunksFit(a, chunks)
    ensures Texts(Events(a, chunks, parse, run)) == ContentDeltas(chunks)
    decreases |chunks|
  {
    if chunks != [] {
      var b := ApplyDeltas(a, chunks[0].toolCalls);
      var step := TextEvents(chunks[0]) + FinishEvents(b, chunks[0], parse, run);
      var rest := Events(b, chunks[1..], parse, run);
      assert Events(a, chunks, parse, run) == step + rest;
      TextForwarded(b, chunks[1..], parse, run);
      TextsAppend(step, rest);
      StepTexts(b, chunks[0], parse, run);
    }
  }

  lemma {:induction false} StepTexts(b: Accumulator, c: Chunk, parse: Parser, run: ToolRunner)
    ensures Texts(TextEvents(c) + FinishEvents(b, c, parse, run))
         == if c.content.Some? && c.content.value != "" then [c.content.value] else []
  {
    var t := TextEvents(c);
    var f := FinishEvents(b, c, parse, run);
    TextsAppend(t, f);
    if f != [] {
      var body := ExecuteAll(b.calls, parse, run);
      ExecuteAllUnframed(b.calls, parse, run);
      assert f == [CallsStart] + body + [CallsEnd];
      assert forall k :: 0 <= k < |f| ==> !f[k].Text? by {
        forall k | 0 <= k < |f| ensures !f[k].Text? {
          if 0 < k < |f| - 1 {
            assert f[k] == body[k - 1];
          }
        }
      }
    }
    TextsNone(f);
    if t != [] {
      assert t[1..] == [];
    }
  }

  /**
   * The scenario of a search for running shoes: one call opened at index 0,
   * its arguments split over two chunks, then a `tool_calls` finish; the
   * handler yields exactly start, call, result, end.
   */
  lemma RunningShoesScenario(parse: Parser, run: ToolRunner, args: Json, result: Json)
    requires parse("{\"query\":\"running shoes\"}") == Ok(args)
    requires run("get_commerce_offers", args) == Ok(result)
    ensures
      var chunks := [
        Chunk(None, [ToolCallDelta(0, Some("call_1"), Some("get_commerce_offers"), Some("{\"query\":\"run"))], None),
        Chunk(None, [ToolCallDelta(0, None, None, Some("ning shoes\"}"))], None),
        Chunk(None, [], Some("tool_calls"))];
      ChunksFit(Initial, chunks)
      && Events(Initial, chunks, parse, run)
         == [CallsStart, ToolCall("call_1", "get_commerce_offers", args), ToolResult("call_1", result), CallsEnd]
  {
    var c0 := Chunk(None, [ToolCallDelta(0, Some("call_1"), Some("get_commerce_offers"), Some("{\"query\":\"run"))], None);
    var c1 := Chunk(None, [ToolCallDelta(0, None, None, Some("ning shoes\"}"))], None);
    var c2 := Chunk(None, [], Some("tool_calls"));
    var chunks := [c0, c1, c2];
    var a1, a2 := ScenarioAccumulates();
    assert chunks[1..] == [c1, c2] && [c1, c2][1..] == [c2] && [c2][1..] == [];
    assert ApplyDeltas(a2, []) == a2;
    assert ChunksFit(a2, [c2]);
    assert Events(a2, [c2], parse, run)
        == [CallsStart] + ExecuteAll(a2.calls, parse, run) + [CallsEnd];
    assert a2.calls[..0] == [];
    assert ExecuteAll(a2.calls, parse, run) == [ToolCall("call_1", "get_commerce_offers", args), ToolResult("call_1", result)];
    assert Events(a1, [c1, c2], parse, run) == Events(a2, [c2], parse, run);
    assert Events(Initial, chunks, parse, run) == Events(a1, [c1, c2], parse, run);
  }

  /** The accumulator after the scenario's two argument fragments. */
  lemma ScenarioAccumulates() returns (a1: Accumulator, a2: Accumulator)
    ensures Valid(a1) && Valid(a2)
    ensures DeltasFit(Initial, [ToolCallDelta(0, Some("call_1"), Some("get_commerce_offers"), Some("{\"query\":\"run"))])
    ensures a1 == ApplyDeltas(Initial, [ToolCallDelta(0, Some("call_1"), Some("get_commerce_offers"), Some("{\"query\":\"run"))])
    ensures DeltasFit(a1, [ToolCallDelta(0, None, None, Some("ning shoes\"}"))])
    ensures a2 == ApplyDeltas(a1, [ToolCallDelta(0, None, None, Some("ning shoes\"}"))])
    ensures a2 == Accumulator([PendingCall("call_1", "get_commerce_offers", "{\"query\":\"running shoes\"}")], 0)
  {
    var d0 := ToolCallDelta(0, Some("call_1"), Some("get_commerce_offers"), Some("{\"query\":\"run"));
    var d1 := ToolCallDelta(0, None, None, Some("ning shoes\"}"));
    a1 := ApplyDelta(Initial, d0);
    assert [d0][1..] == [] && [d1][1..] == [];
    assert a1.calls == [PendingCall("call_1", "get_commerce_offers", "{\"query\":\"run")];
    a2 := ApplyDelta(a1, d1);
    assert "{\"query\":\"run" + "ning shoes\"}" == "{\"query\":\"running shoes\"}";
    assert a2.calls == [PendingCall("call_1", "get_commerce_offers", "{\"query\":\"running shoes\"}")];
  }
}
