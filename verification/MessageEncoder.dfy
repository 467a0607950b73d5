/** The encoder of Anthropic Messages event streams (core/messages_protocol.py, class
    AnthropicStreamEncoder). Class `AnthropicStreamEncoder` is the object; the functions on
    `Emitted` say what its methods do to its state and to the list of emitted events. */
module MessageEncoder {
  import opened Basics

  datatype Id = Id(text: string)

  datatype ToolName = ToolName(text: string)

  datatype Header = Header(id: Id, model: ToolName)

  /** Finish reasons of the internal form, after trimming and lower-casing. */
  datatype FinishReason = Stop | Length | ToolCalls | FunctionCall | ContentFilter | OtherFinish

  datatype StopReason = EndTurn | StopSequence | MaxTokens | ToolUse | PauseTurn | Refusal | OtherStop

  datatype Kind = TextKind | ThinkingKind | ToolKind

  datatype Block = TextBlock | ThinkingBlock(thinking: string) | ToolBlock(id: Id, name: ToolName)

  datatype Delta =
    | TextDelta(text: string)
    | ThinkingDelta(text: string)
    | SignatureDelta(text: string)
    | JsonDelta(text: string)

  datatype Event =
    | MessageStart(header: Header, inputTokens: int)
    | BlockStart(index: int, block: Block)
    | BlockDelta(index: int, delta: Delta)
    | BlockStop(index: int)
    | MessageDelta(stop: StopReason, stopSequence: string, outputTokens: int)
    | MessageStop

  /** Zero counts stand for missing ones. */
  datatype Usage = Usage(prompt: int, completion: int)

  /** One fragment of a tool call. A call that comes without id carries the one drawn for it. */
  datatype Call = Call(id: Id, name: ToolName, arguments: string)

  /** One internal chunk; empty strings stand for missing fields. */
  datatype Chunk = Chunk(
    usage: Usage,
    text: string,
    thinking: string,
    signature: string,
    calls: seq<Call>,
    done: bool,
    reason: FinishReason,
    stopSequence: string)

  datatype Stored = Stored(name: ToolName, arguments: string)

  datatype Encoder = Encoder(
    header: Header,
    started: bool,
    stopped: bool,
    blockIndex: int,
    open: Option<Kind>,
    inputTokens: int,
    outputTokens: int,
    stop: StopReason,
    stopSequence: string,
    calls: map<Id, Stored>,
    openCall: Option<Id>,
    signature: string,
    signatureSent: bool)

  /** An encoder and the events it has emitted. */
  datatype Emitted = Emitted(enc: Encoder, events: seq<Event>)

  function Fresh(header: Header): Encoder {
    Encoder(header, false, false, -1, None, 0, 0, EndTurn, "", map[], None, "", false)
  }

  function Emit(r: Emitted, e: Event): Emitted { Emitted(r.enc, r.events + [e]) }

  function KindOf(b: Block): Kind {
    match b
    case TextBlock => TextKind
    case ThinkingBlock(_) => ThinkingKind
    case ToolBlock(_, _) => ToolKind
  }

  function ToStop(reason: FinishReason, stopSequence: string): StopReason {
    match reason
    case Stop => if stopSequence != "" then StopSequence else EndTurn
    case Length => MaxTokens
    case ToolCalls | FunctionCall => ToolUse
    case ContentFilter => Refusal
    case OtherFinish => EndTurn
  }

  // ---- the parts of one feed --------------------------------------------------------

  function PendingSignature(e: Encoder): bool {
    e.open == Some(ThinkingKind) && e.signature != "" && !e.signatureSent
  }

  function Close(r: Emitted): Emitted {
    if r.enc.open.None? then r
    else
      var late := PendingSignature(r.enc);
      var events := if late then r.events + [BlockDelta(r.enc.blockIndex, SignatureDelta(r.enc.signature))]
        else r.events;
      Emitted(r.enc.(open := None, openCall := None, signatureSent := r.enc.signatureSent || late),
        events + [BlockStop(r.enc.blockIndex)])
  }

  function Open(r: Emitted, block: Block): Emitted {
    var c := Close(r);
    var index := c.enc.blockIndex + 1;
    Emitted(c.enc.(blockIndex := index, open := Some(KindOf(block)), signature := "", signatureSent := false),
        c.events + [BlockStart(index, block)])
  }

  function Start(r: Emitted, usage: Usage): Emitted {
    var e := r.enc.(
      inputTokens := if usage.prompt != 0 then usage.prompt else r.enc.inputTokens,
      outputTokens := if usage.completion != 0 then usage.completion else r.enc.outputTokens);
    if e.started then Emitted(e, r.events)
    else Emitted(e.(started := true), r.events + [MessageStart(e.header, e.inputTokens)])
  }

  function Within(r: Emitted, block: Block): Emitted { if r.enc.open == Some(KindOf(block)) then r else Open(r, block) }

  function AddDelta(r: Emitted, d: Delta): Emitted { Emit(r, BlockDelta(r.enc.blockIndex, d)) }

  function AddSignature(r: Emitted, signature: string): Emitted {
    if r.enc.open == Some(ThinkingKind) && !r.enc.signatureSent then
      var sent := AddDelta(r, SignatureDelta(signature));
      sent.(enc := sent.enc.(signature := signature, signatureSent := true))
    else r
  }

  /** Cumulative and incremental arguments, told apart by their prefix. */
  function Merge(previous: string, arguments: string): string {
    if previous <= arguments then arguments else previous + arguments
  }

  function Added(previous: string, arguments: string): string {
    if previous <= arguments then arguments[|previous|..] else arguments
  }

  function CallOpened(r: Emitted, call: Call): Emitted {
    var c := if r.enc.open == Some(ToolKind) && r.enc.openCall != Some(call.id) then Close(r) else r;
    if call.id in c.enc.calls then c
    else
      var o := Open(c.(enc := c.enc.(calls := c.enc.calls[call.id := Stored(call.name, "")])),
        ToolBlock(call.id, call.name));
      o.(enc := o.enc.(openCall := Some(call.id)))
  }

  function ArgumentsAdded(r: Emitted, call: Call): Emitted
    requires call.id in r.enc.calls
  {
    var stored := r.enc.calls[call.id];
    if call.arguments == "" then r
    else
      var kept := r.(enc :=
        r.enc.(calls := r.enc.calls[call.id := stored.(arguments := Merge(stored.arguments, call.arguments))]));
      var delta := Added(stored.arguments, call.arguments);
      if delta == "" then kept else AddDelta(kept, JsonDelta(delta))
  }

  function AddCall(r: Emitted, call: Call): Emitted { ArgumentsAdded(CallOpened(r, call), call) }

  function Finished(r: Emitted, reason: FinishReason, stopSequence: string): Emitted {
    var c := Close(r.(enc := r.enc.(stop := ToStop(reason, stopSequence), stopSequence := stopSequence)));
    Emitted(c.enc.(stopped := true),
      c.events + [MessageDelta(c.enc.stop, stopSequence, c.enc.outputTokens)] + [MessageStop])
  }

  // ---- a chunk as a list of items ---------------------------------------------------

  datatype Item = Text(text: string) | Thinking(text: string) | Signature(text: string) | Fragment(call: Call)

  function Fragments(calls: seq<Call>): seq<Item> {
    if calls == [] then [] else [Fragment(calls[0])] + Fragments(calls[1..])
  }

  /** What a chunk contributes, in the order the encoder looks at it. */
  function Items(c: Chunk, includeThinking: bool): seq<Item> {
    (if c.text != "" then [Text(c.text)] else [])
    + ((if includeThinking && c.thinking != "" then [Thinking(c.thinking)] else [])
    + ((if c.signature != "" then [Signature(c.signature)] else []) + Fragments(c.calls)))
  }

  function AddItem(r: Emitted, item: Item): Emitted {
    match item
    case Text(t) => AddDelta(Within(r, TextBlock), TextDelta(t))
    case Thinking(t) => AddDelta(Within(r, ThinkingBlock("")), ThinkingDelta(t))
    case Signature(s) => AddSignature(r, s)
    case Fragment(call) => AddCall(r, call)
  }

  function AddItems(r: Emitted, items: seq<Item>): Emitted
    decreases |items|
  {
    if items == [] then r else AddItems(AddItem(r, items[0]), items[1..])
  }

  function Fed(r: Emitted, c: Chunk, includeThinking: bool): Emitted {
    if r.enc.stopped then r
    else
      var filled := AddItems(Start(r, c.usage), Items(c, includeThinking));
      if c.done then Finished(filled, c.reason, c.stopSequence) else filled
  }

  function DoneChunk(): Chunk { Chunk(Usage(0, 0), "", "", "", [], true, OtherFinish, "") }

  // ---- the encoder object -----------------------------------------------------------

  class AnthropicStreamEncoder {
    const header: Header
    const includeThinking: bool
    var started: bool
    var stopped: bool
    var blockIndex: int
    var openBlock: Option<Kind>
    var inputTokens: int
    var outputTokens: int
    var stopReason: StopReason
    var stopSequence: string
    var toolCalls: map<Id, Stored>
    var openToolCallId: Option<Id>
    var thinkingSignature: string
    var thinkingSignatureSent: bool

    function State(): Encoder
      reads this
    {
      Encoder(header, started, stopped, blockIndex, openBlock, inputTokens, outputTokens,
              stopReason, stopSequence, toolCalls, openToolCallId, thinkingSignature, thinkingSignatureSent)
    }

    constructor (header: Header, includeThinking: bool)
      ensures State() == Fresh(header) && this.includeThinking == includeThinking
    {
      this.header, this.includeThinking := header, includeThinking;
      started, stopped, blockIndex, openBlock := false, false, -1, None;
      inputTokens, outputTokens, stopReason, stopSequence := 0, 0, EndTurn, "";
      toolCalls, openToolCallId, thinkingSignature, thinkingSignatureSent := map[], None, "", false;
    }

    method CloseBlock(before: seq<Event>) returns (events: seq<Event>)
      modifies `openBlock, `openToolCallId, `thinkingSignatureSent
      ensures Emitted(State(), events) == Close(Emitted(old(State()), before))
    {
      events := before;
      if openBlock.None? { return; }
      if openBlock == Some(ThinkingKind) && thinkingSignature != "" && !thinkingSignatureSent {
        events := events + [BlockDelta(blockIndex, SignatureDelta(thinkingSignature))];
        thinkingSignatureSent := true;
      }
      events := events + [BlockStop(blockIndex)];
      openBlock, openToolCallId := None, None;
    }

    method StartBlock(before: seq<Event>, block: Block) returns (events: seq<Event>)
      modifies `openBlock, `openToolCallId, `thinkingSignatureSent, `thinkingSignature, `blockIndex
      ensures Emitted(State(), events) == Open(Emitted(old(State()), before), block)
    {
      events := CloseBlock(before);
      blockIndex := blockIndex + 1;
      openBlock := Some(KindOf(block));
      thinkingSignature, thinkingSignatureSent := "", false;
      events := events + [BlockStart(blockIndex, block)];
    }

    method Begin(usage: Usage) returns (events: seq<Event>)
      modifies `started, `inputTokens, `outputTokens
      ensures Emitted(State(), events) == Start(Emitted(old(State()), []), usage)
    {
      if usage.prompt != 0 { inputTokens := usage.prompt; }
      if usage.completion != 0 { outputTokens := usage.completion; }
      events := [];
      if !started {
        started := true;
        events := events + [MessageStart(header, inputTokens)];
      }
    }

    method FeedItem(before: seq<Event>, block: Block, delta: Delta) returns (events: seq<Event>)
      modifies `openBlock, `openToolCallId, `thinkingSignatureSent, `thinkingSignature, `blockIndex
      ensures Emitted(State(), events) == AddDelta(Within(Emitted(old(State()), before), block), delta)
    {
      events := before;
      if openBlock != Some(KindOf(block)) { events := StartBlock(events, block); }
      events := events + [BlockDelta(blockIndex, delta)];
    }

    method FeedSignature(before: seq<Event>, signature: string) returns (events: seq<Event>)
      modifies `thinkingSignatureSent, `thinkingSignature
      ensures Emitted(State(), events) == AddSignature(Emitted(old(State()), before), signature)
    {
      events := before;
      if openBlock == Some(ThinkingKind) && !thinkingSignatureSent {
        events := events + [BlockDelta(blockIndex, SignatureDelta(signature))];
        thinkingSignature, thinkingSignatureSent := signature, true;
      }
    }

    method OpenCall(before: seq<Event>, call: Call) returns (events: seq<Event>)
      modifies `openBlock, `openToolCallId, `thinkingSignatureSent, `thinkingSignature, `blockIndex, `toolCalls
      ensures Emitted(State(), events) == CallOpened(Emitted(old(State()), before), call)
      ensures call.id in toolCalls
    {
      events := before;
      if openBlock == Some(ToolKind) && openToolCallId != Some(call.id) { events := CloseBlock(events); }
      if call.id !in toolCalls {
        toolCalls := toolCalls[call.id := Stored(call.name, "")];
        events := StartBlock(events, ToolBlock(call.id, call.name));
        openToolCallId := Some(call.id);
      }
    }

    method FeedArguments(before: seq<Event>, call: Call) returns (events: seq<Event>)
      requires call.id in toolCalls
      modifies `toolCalls
      ensures Emitted(State(), events) == ArgumentsAdded(Emitted(old(State()), before), call)
    {
      events := before;
      var previous, arguments := toolCalls[call.id].arguments, call.arguments;
      if arguments != "" {
        var delta;
        if previous <= arguments {
          delta := arguments[|previous|..];
          toolCalls := toolCalls[call.id := toolCalls[call.id].(arguments := arguments)];
        } else {
          delta := arguments;
          toolCalls := toolCalls[call.id := toolCalls[call.id].(arguments := previous + arguments)];
        }
        if delta != "" { events := events + [BlockDelta(blockIndex, JsonDelta(delta))]; }
      }
    }

    method FeedCall(before: seq<Event>, call: Call) returns (events: seq<Event>)
      modifies `openBlock, `openToolCallId, `thinkingSignatureSent, `thinkingSignature, `blockIndex, `toolCalls
      ensures Emitted(State(), events) == AddCall(Emitted(old(State()), before), call)
    {
      events := OpenCall(before, call);
      events := FeedArguments(events, call);
    }

    method FeedCalls(before: seq<Event>, calls: seq<Call>) returns (events: seq<Event>)
      modifies `openBlock, `openToolCallId, `thinkingSignatureSent, `thinkingSignature, `blockIndex, `toolCalls
      ensures Emitted(State(), events) == AddItems(Emitted(old(State()), before), Fragments(calls))
    {
      events := before;
      var rest := calls;
      while rest != []
        invariant AddItems(Emitted(State(), events), Fragments(rest)) ==
          AddItems(Emitted(old(State()), before), Fragments(calls))
        decreases |rest|
      {
        ghost var r := Emitted(State(), events);
        events := FeedCall(events, rest[0]);
        assert Fragments(rest)[1..] == Fragments(rest[1..]);
        assert AddItem(r, Fragments(rest)[0]) == Emitted(State(), events);
        rest := rest[1..];
      }
    }

    method FeedContent(before: seq<Event>, c: Chunk) returns (events: seq<Event>)
      modifies `openBlock, `openToolCallId, `thinkingSignatureSent, `thinkingSignature, `blockIndex, `toolCalls
      ensures Emitted(State(), events) == AddItems(Emitted(old(State()), before), Items(c, includeThinking))
    {
      ghost var r0 := Emitted(State(), before);
      events := before;
      if c.text != "" { events := FeedItem(events, TextBlock, TextDelta(c.text)); }
      ghost var r1 := Emitted(State(), events);
      if includeThinking && c.thinking != "" {
        events := FeedItem(events, ThinkingBlock(""), ThinkingDelta(c.thinking));
      }
      ghost var r2 := Emitted(State(), events);
      if c.signature != "" { events := FeedSignature(events, c.signature); }
      ghost var r3 := Emitted(State(), events);
      events := FeedCalls(events, c.calls);
      FedByParts(c, includeThinking, r0, r1, r2, r3);
    }

    method Conclude(before: seq<Event>, reason: FinishReason, sequence: string) returns (events: seq<Event>)
      modifies `stopReason, `stopSequence, `openBlock, `openToolCallId, `thinkingSignatureSent, `stopped
      ensures Emitted(State(), events) == Finished(Emitted(old(State()), before), reason, sequence)
    {
      stopReason, stopSequence := ToStop(reason, sequence), sequence;
      events := CloseBlock(before);
      events := events + [MessageDelta(stopReason, stopSequence, outputTokens)] + [MessageStop];
      stopped := true;
    }

    method Feed(c: Chunk) returns (events: seq<Event>)
      modifies this
      ensures Emitted(State(), events) == Fed(Emitted(old(State()), []), c, includeThinking)
    {
      if stopped { return []; }
      events := Begin(c.usage);
      events := FeedContent(events, c);
      if c.done { events := Conclude(events, c.reason, c.stopSequence); }
    }

    method Finish() returns (events: seq<Event>)
      modifies this
      ensures Emitted(State(), events) == Fed(Emitted(old(State()), []), DoneChunk(), includeThinking)
    {
      if stopped { return []; }
      events := Feed(DoneChunk());
    }
  }

  lemma {:induction false} AddItemsTwice(r: Emitted, a: seq<Item>, b: seq<Item>)
    ensures AddItems(r, a + b) == AddItems(AddItems(r, a), b)
    decreases |a|
  {
    if a == [] {
      assert a + b == b;
    } else {
      assert (a + b)[1..] == a[1..] + b;
      AddItemsTwice(AddItem(r, a[0]), a[1..], b);
    }
  }

  lemma FedByParts(c: Chunk, includeThinking: bool, r0: Emitted, r1: Emitted, r2: Emitted, r3: Emitted)
    requires r1 == if c.text != "" then AddItem(r0, Text(c.text)) else r0
    requires r2 == if includeThinking && c.thinking != "" then AddItem(r1, Thinking(c.thinking)) else r1
    requires r3 == if c.signature != "" then AddItem(r2, Signature(c.signature)) else r2
    ensures AddItems(r0, Items(c, includeThinking)) == AddItems(r3, Fragments(c.calls))
  {
    var a := if c.text != "" then [Text(c.text)] else [];
    var b := if includeThinking && c.thinking != "" then [Thinking(c.thinking)] else [];
    var d := if c.signature != "" then [Signature(c.signature)] else [];
    AddItemsTwice(r0, a, b + (d + Fragments(c.calls)));
    AddItemsTwice(r1, b, d + Fragments(c.calls));
    AddItemsTwice(r2, d, Fragments(c.calls));
  }
}
