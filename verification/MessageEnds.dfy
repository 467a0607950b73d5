/** What frames a Messages stream, legal or not: its start, its end, and the counts they
    carry. With the round trip of the contents this gives the whole message back, in terms
    of the chunks alone (core/messages_protocol.py, both stream classes). */
module MessageEnds {
  import opened Basics
  import opened Sequences
  import opened MessageEncoder
  import opened MessageProtocol
  import opened MessageDecoder

  // ---- what the chunks say ----------------------------------------------------------

  /** A count of zero stands for no count: the last one that came remains. */
  function Latest(before: int, count: int): int { if count != 0 then count else before }

  /** The completion count at the end of the stream. */
  function LastCount(before: int, chunks: seq<Chunk>): int
    decreases |chunks|
  {
    if chunks == [] then before
    else
      var n := Latest(before, chunks[0].usage.completion);
      if chunks[0].done then n else LastCount(n, chunks[1..])
  }

  /** The chunks that count: up to the first one marked done. */
  function Heard(chunks: seq<Chunk>): seq<Chunk> {
    if chunks == [] then [] else if chunks[0].done then [chunks[0]] else [chunks[0]] + Heard(chunks[1..])
  }

  function AllText(chunks: seq<Chunk>): string {
    if chunks == [] then "" else chunks[0].text + AllText(chunks[1..])
  }

  function AllThinking(chunks: seq<Chunk>): string {
    if chunks == [] then "" else chunks[0].thinking + AllThinking(chunks[1..])
  }

  function AllCalls(chunks: seq<Chunk>): seq<Call> {
    if chunks == [] then [] else chunks[0].calls + AllCalls(chunks[1..])
  }

  // ---- start and end of the stream --------------------------------------------------

  predicate Inner(e: Event) { e.BlockStart? || e.BlockDelta? || e.BlockStop? }

  predicate AllInner(events: seq<Event>) { forall i | 0 <= i < |events| :: Inner(events[i]) }

  /** The last two events. */
  predicate Ends(events: seq<Event>, end: Chunk, outputTokens: int) {
    |events| >= 2 && Final(events) == MessageStop &&
    var last := Final(Front(events));
    && last.MessageDelta? && last.outputTokens == outputTokens && last.stopSequence == end.stopSequence
    && Names(last.stop, end.reason, end.stopSequence)
  }

  /** What one step adds: inner events, and nothing of the frame changes. */
  ghost predicate OnlyInside(r: Emitted, r': Emitted) {
    && r.events <= r'.events && AllInner(r'.events[|r.events|..])
    && r'.enc.started == r.enc.started && r'.enc.stopped == r.enc.stopped && r'.enc.outputTokens == r.enc.outputTokens
  }

  lemma InsideTwice(a: Emitted, b: Emitted, c: Emitted)
    requires OnlyInside(a, b) && OnlyInside(b, c)
    ensures OnlyInside(a, c)
  {
    assert c.events[|a.events|..] == b.events[|a.events|..] + c.events[|b.events|..];
  }

  lemma CloseInside(r: Emitted)
    ensures OnlyInside(r, Close(r))
  {
  }

  lemma OpenInside(r: Emitted, b: Block)
    ensures OnlyInside(r, Open(r, b))
  {
    CloseInside(r);
    InsideTwice(r, Close(r), Open(r, b));
  }

  lemma CallOpenedInside(r: Emitted, call: Call)
    ensures OnlyInside(r, CallOpened(r, call))
  {
    var c := if r.enc.open == Some(ToolKind) && r.enc.openCall != Some(call.id) then Close(r) else r;
    CloseInside(r);
    assert OnlyInside(r, c);
    if call.id !in c.enc.calls {
      OpenInside(c.(enc := c.enc.(calls := c.enc.calls[call.id := Stored(call.name, "")])),
                 ToolBlock(call.id, call.name));
      assert OnlyInside(c, CallOpened(r, call));
      InsideTwice(r, c, CallOpened(r, call));
    }
  }

  lemma CallInside(r: Emitted, call: Call)
    ensures OnlyInside(r, AddCall(r, call))
  {
    CallOpenedInside(r, call);
    assert OnlyInside(CallOpened(r, call), AddCall(r, call));
    InsideTwice(r, CallOpened(r, call), AddCall(r, call));
  }

  lemma ItemInside(r: Emitted, item: Item)
    ensures OnlyInside(r, AddItem(r, item))
  {
    match item
    case Text(t) =>
      OpenInside(r, TextBlock);
      InsideTwice(r, Within(r, TextBlock), AddItem(r, item));
    case Thinking(t) =>
      OpenInside(r, ThinkingBlock(""));
      InsideTwice(r, Within(r, ThinkingBlock("")), AddItem(r, item));
    case Signature(s) =>
    case Fragment(call) => CallInside(r, call);
  }

  lemma {:induction false} ItemsInside(r: Emitted, items: seq<Item>)
    ensures OnlyInside(r, AddItems(r, items))
    decreases |items|
  {
    if items != [] {
      ItemInside(r, items[0]);
      ItemsInside(AddItem(r, items[0]), items[1..]);
      InsideTwice(r, AddItem(r, items[0]), AddItems(r, items));
    }
  }

  /** The start event, unless it has been sent. */
  function Lead(e: Encoder, c: Chunk): seq<Event> {
    if e.started then [] else [MessageStart(e.header, Latest(e.inputTokens, c.usage.prompt))]
  }

  /** One chunk that is not the last: the lead, and inner events. */
  lemma FedShape(e: Encoder, includeThinking: bool, c: Chunk)
    requires !e.stopped && !c.done
    ensures var r := Fed(Emitted(e, []), c, includeThinking);
      && Lead(e, c) <= r.events && AllInner(r.events[|Lead(e, c)|..])
      && r.enc.started && !r.enc.stopped && r.enc.outputTokens == Latest(e.outputTokens, c.usage.completion)
  {
    ItemsInside(Start(Emitted(e, []), c.usage), Items(c, includeThinking));
  }

  /** The last chunk closes the stream. */
  lemma LastShape(e: Encoder, includeThinking: bool, c: Chunk)
    requires !e.stopped && c.done
    ensures var r := Fed(Emitted(e, []), c, includeThinking);
      && Lead(e, c) <= r.events && |r.events| >= |Lead(e, c)| + 2
      && AllInner(r.events[|Lead(e, c)|..|r.events| - 2])
      && Ends(r.events, c, Latest(e.outputTokens, c.usage.completion)) && r.enc.stopped
  {
    var s := Start(Emitted(e, []), c.usage);
    var filled := AddItems(s, Items(c, includeThinking));
    ItemsInside(s, Items(c, includeThinking));
    var told := filled.(enc := filled.enc.(stop := ToStop(c.reason, c.stopSequence), stopSequence := c.stopSequence));
    CloseInside(told);
    var k := Close(told);
    assert OnlyInside(s, told);
    InsideTwice(s, told, k);
    var last := MessageDelta(k.enc.stop, c.stopSequence, k.enc.outputTokens);
    var r := Fed(Emitted(e, []), c, includeThinking);
    assert r.events == k.events + [last] + [MessageStop];
    assert k.enc.stop == ToStop(c.reason, c.stopSequence);
    Snoc(k.events + [last], MessageStop);
    Snoc(k.events, last);
    assert r.events[|Lead(e, c)|..|r.events| - 2] == k.events[|Lead(e, c)|..];
  }

  function First(chunks: seq<Chunk>): Chunk { if chunks == [] then DoneChunk() else chunks[0] }

  /** A lead, inner events, and the two that end it. */
  ghost predicate Framed(events: seq<Event>, lead: seq<Event>, end: Chunk, outputTokens: int) {
    && lead <= events && |events| >= |lead| + 2 && AllInner(events[|lead|..|events| - 2])
    && Ends(events, end, outputTokens)
  }

  lemma FramedLonger(a: seq<Event>, b: seq<Event>, lead: seq<Event>, end: Chunk, outputTokens: int)
    requires lead <= a && AllInner(a[|lead|..]) && Framed(b, [], end, outputTokens)
    ensures Framed(a + b, lead, end, outputTokens)
  {
    var s := a + b;
    assert s[|lead|..|s| - 2] == a[|lead|..] + b[..|b| - 2];
    assert Final(s) == Final(b) && Final(Front(s)) == Final(Front(b));
  }

  /** Main result: every stream is one start event, block events, and at its end the stop
      reason that the last chunk's finish reason stands for, its stop sequence and the last
      completion count. */
  lemma {:induction false} StreamIsFramed(e: Encoder, includeThinking: bool, chunks: seq<Chunk>)
    requires !e.stopped
    ensures Framed(Stream(e, includeThinking, chunks), Lead(e, First(chunks)), Ending(chunks),
                   LastCount(e.outputTokens, chunks))
    decreases |chunks|
  {
    var c := First(chunks);
    var r := Fed(Emitted(e, []), c, includeThinking);
    if c.done {
      LastShape(e, includeThinking, c);
      if chunks != [] {
        StoppedIsSilent(r.enc, includeThinking, chunks[1..]);
        assert Stream(e, includeThinking, chunks) == r.events;
      }
    } else {
      FedShape(e, includeThinking, c);
      StreamIsFramed(r.enc, includeThinking, chunks[1..]);
      FramedLonger(r.events, Stream(r.enc, includeThinking, chunks[1..]), Lead(e, c), Ending(chunks),
                   LastCount(e.outputTokens, chunks));
    }
  }

  // ---- the frame comes back ---------------------------------------------------------

  lemma {:induction false} InnerKeepsFrame(d: Decoder, events: seq<Event>, normal: Normal)
    requires AllInner(events)
    ensures var n := DecodeAll(d, events, normal);
      && n.header == d.header && n.inputTokens == d.inputTokens && n.outputTokens == d.outputTokens
      && n.stop == d.stop && n.stopSequence == d.stopSequence
    decreases |events|
  {
    if events != [] {
      assert forall i | 0 <= i < |events| - 1 :: Front(events)[i] == events[i];
      InnerKeepsFrame(d, Front(events), normal);
      assert Inner(events[|events| - 1]);
    }
  }

  /** The decoder reads the header, the counts and the stop sequence from any framed stream. */
  lemma FrameReturns(header: Header, prompt: int, events: seq<Event>, end: Chunk, outputTokens: int, normal: Normal)
    requires Framed(events, [MessageStart(header, prompt)], end, outputTokens)
    ensures var d := DecodeAll(NewDecoder(), events, normal);
      && d.header == Some(header) && d.inputTokens == prompt && d.outputTokens == outputTokens
      && d.stopSequence == end.stopSequence
  {
    var start, body, last := [events[0]], events[1..|events| - 2], Final(Front(events));
    assert events == start + body + [last] + [MessageStop];
    var d0 := DecodeAll(NewDecoder(), start, normal);
    DecodeOne(NewDecoder(), [], events[0], normal);
    assert [] + [events[0]] == start;
    DecodeTwice(NewDecoder(), start, body, normal);
    InnerKeepsFrame(d0, body, normal);
    DecodeOne(NewDecoder(), start + body, last, normal);
    DecodeOne(NewDecoder(), start + body + [last], MessageStop, normal);
  }

  // ---- the items are the chunks -----------------------------------------------------

  function CallsIn(its: seq<Item>): seq<Call> {
    if its == [] then [] else if its[0].Fragment? then [its[0].call] + CallsIn(its[1..]) else CallsIn(its[1..])
  }

  /** The parts of the items, taken from the front. */
  function TextIn(its: seq<Item>): string {
    if its == [] then "" else if its[0].Text? then its[0].text + TextIn(its[1..]) else TextIn(its[1..])
  }

  function ThinkingIn(its: seq<Item>): string {
    if its == [] then "" else if its[0].Thinking? then its[0].text + ThinkingIn(its[1..]) else ThinkingIn(its[1..])
  }

  lemma {:induction false} TextConcat(a: seq<Item>, b: seq<Item>)
    ensures TextIn(a + b) == TextIn(a) + TextIn(b)
    decreases |a|
  {
    if a == [] {
      assert a + b == b;
    } else {
      assert (a + b)[1..] == a[1..] + b;
      TextConcat(a[1..], b);
    }
  }

  lemma {:induction false} ThinkingConcat(a: seq<Item>, b: seq<Item>)
    ensures ThinkingIn(a + b) == ThinkingIn(a) + ThinkingIn(b)
    decreases |a|
  {
    if a == [] {
      assert a + b == b;
    } else {
      assert (a + b)[1..] == a[1..] + b;
      ThinkingConcat(a[1..], b);
    }
  }

  lemma {:induction false} CallsConcat(a: seq<Item>, b: seq<Item>)
    ensures CallsIn(a + b) == CallsIn(a) + CallsIn(b)
    decreases |a|
  {
    if a == [] {
      assert a + b == b;
    } else {
      assert (a + b)[1..] == a[1..] + b;
      CallsConcat(a[1..], b);
    }
  }

  lemma PartsConcat(a: seq<Item>, b: seq<Item>)
    ensures TextIn(a + b) == TextIn(a) + TextIn(b) && ThinkingIn(a + b) == ThinkingIn(a) + ThinkingIn(b)
    ensures CallsIn(a + b) == CallsIn(a) + CallsIn(b)
  {
    TextConcat(a, b);
    ThinkingConcat(a, b);
    CallsConcat(a, b);
  }

  lemma {:induction false} PartsOfFragments(calls: seq<Call>)
    ensures TextIn(Fragments(calls)) == "" && ThinkingIn(Fragments(calls)) == "" && CallsIn(Fragments(calls)) == calls
    decreases |calls|
  {
    if calls != [] {
      PartsOfFragments(calls[1..]);
      assert Fragments(calls)[1..] == Fragments(calls[1..]);
    }
  }

  lemma {:induction false} SamePartsFromTheEnd(its: seq<Item>)
    ensures TextOf(its) == TextIn(its) && ThinkingOf(its) == ThinkingIn(its)
    decreases |its|
  {
    if its != [] {
      SamePartsFromTheEnd(Front(its));
      PartsConcat(Front(its), [Final(its)]);
      assert Front(its) + [Final(its)] == its;
    }
  }

  predicate HasParts(its: seq<Item>, text: string, thinking: string, calls: seq<Call>) {
    TextIn(its) == text && ThinkingIn(its) == thinking && CallsIn(its) == calls
  }

  lemma AddNothing(its: seq<Item>, more: seq<Item>, calls: seq<Call>)
    requires HasParts(its, "", "", []) && HasParts(more, "", "", calls)
    ensures HasParts(its + more, "", "", calls)
  {
    PartsConcat(its, more);
  }

  lemma PartsOfChunk(c: Chunk, includeThinking: bool)
    ensures HasParts(Items(c, includeThinking), c.text, if includeThinking then c.thinking else "", c.calls)
  {
    var text := if c.text != "" then [Text(c.text)] else [];
    var thinking := if includeThinking && c.thinking != "" then [Thinking(c.thinking)] else [];
    var signature := if c.signature != "" then [Signature(c.signature)] else [];
    var tail := signature + Fragments(c.calls);
    PartsOfFragments(c.calls);
    AddNothing(signature, Fragments(c.calls), c.calls);
    ThoughtPart(thinking, if includeThinking then c.thinking else "", tail, c.calls);
    TextPart(text, c.text, thinking + tail, if includeThinking then c.thinking else "", c.calls);
  }

  lemma ThoughtPart(its: seq<Item>, thinking: string, more: seq<Item>, calls: seq<Call>)
    requires its == if thinking != "" then [Thinking(thinking)] else []
    requires HasParts(more, "", "", calls)
    ensures HasParts(its + more, "", thinking, calls)
  {
    PartsConcat(its, more);
    assert its != [] ==> its[1..] == [];
  }

  lemma TextPart(its: seq<Item>, text: string, more: seq<Item>, thinking: string, calls: seq<Call>)
    requires its == if text != "" then [Text(text)] else []
    requires HasParts(more, "", thinking, calls)
    ensures HasParts(its + more, text, thinking, calls)
  {
    PartsConcat(its, more);
    assert its != [] ==> its[1..] == [];
  }

  /** Text, thinking and calls of the items are those of the chunks. */
  lemma {:induction false} PartsOfChunks(chunks: seq<Chunk>, includeThinking: bool)
    ensures var its, heard := AllItems(chunks, includeThinking), Heard(chunks);
      && TextIn(its) == AllText(heard) && CallsIn(its) == AllCalls(heard)
      && ThinkingIn(its) == if includeThinking then AllThinking(heard) else ""
    decreases |chunks|
  {
    if chunks != [] {
      var c, rest := chunks[0], chunks[1..];
      PartsOfChunk(c, includeThinking);
      if c.done {
        assert [c][1..] == [];
      } else {
        PartsOfChunks(rest, includeThinking);
        PartsConcat(Items(c, includeThinking), AllItems(rest, includeThinking));
        assert ([c] + Heard(rest))[1..] == Heard(rest);
      }
    }
  }

  /** What is gathered of the calls depends on their fragments alone. */
  lemma {:induction false} FragmentsAreEnough(its: seq<Item>, id: Id)
    ensures var only := Fragments(CallsIn(its));
      Seen(its) == Seen(only) && NameOf(its, id) == NameOf(only, id) && Gathered(its, id) == Gathered(only, id)
    decreases |its|
  {
    if its != [] {
      var before, item := Front(its), Final(its);
      FragmentsAreEnough(before, id);
      PartsConcat(before, [item]);
      assert before + [item] == its;
      if item.Fragment? {
        FragmentsConcat(CallsIn(before), [item.call]);
        assert CallsIn([item]) == [item.call] && Fragments([item.call]) == [item];
        Snoc(Fragments(CallsIn(before)), item);
      } else {
        assert CallsIn([item]) == [];
        assert CallsIn(its) == CallsIn(before);
      }
    }
  }

  lemma {:induction false} FragmentsConcat(a: seq<Call>, b: seq<Call>)
    ensures Fragments(a + b) == Fragments(a) + Fragments(b)
    decreases |a|
  {
    if a == [] {
      assert a + b == b;
    } else {
      assert (a + b)[1..] == a[1..] + b;
      FragmentsConcat(a[1..], b);
    }
  }

  lemma SameCalls(its: seq<Item>, normal: Normal)
    ensures CallsOf(its, normal) == CallsOf(Fragments(CallsIn(its)), normal)
  {
    var only := Fragments(CallsIn(its));
    FragmentsAreEnough(its, Id(""));
    forall i | 0 <= i < |Seen(its)| ensures CallsOf(its, normal)[i] == CallsOf(only, normal)[i] {
      FragmentsAreEnough(its, Seen(its)[i]);
    }
  }

  // ---- the whole message ------------------------------------------------------------

  /** Main result: for every run without a stray fragment the decoder's outcome says what
      the chunks said, field by field. */
  lemma WholeMessageReturns(header: Header, includeThinking: bool, chunks: seq<Chunk>, normal: Normal)
    requires Clean(AllItems(chunks, includeThinking))
    ensures var o := OutcomeOf(DecodeAll(NewDecoder(), Stream(Fresh(header), includeThinking, chunks), normal));
      var heard, end := Heard(chunks), Ending(chunks);
      && o.header == Some(header) && o.content == AllText(heard)
      && o.thinking == (if includeThinking then AllThinking(heard) else "")
      && o.calls == CallsOf(Fragments(AllCalls(heard)), normal)
      && o.signatures == SignaturesOf(AllItems(chunks, includeThinking))
      && o.stop.Some? && Names(o.stop.value, end.reason, end.stopSequence) && o.stopSequence == end.stopSequence
      && o.promptTokens == First(chunks).usage.prompt && o.completionTokens == LastCount(0, chunks)
  {
    var e, its := Fresh(header), AllItems(chunks, includeThinking);
    DecoderUndoesEncoder(header, includeThinking, chunks, normal);
    StreamIsFramed(e, includeThinking, chunks);
    FrameReturns(header, First(chunks).usage.prompt, Stream(e, includeThinking, chunks), Ending(chunks),
                 LastCount(0, chunks), normal);
    PartsOfChunks(chunks, includeThinking);
    SamePartsFromTheEnd(its);
    SameCalls(its, normal);
  }

  lemma AddFirst(r: Emitted, item: Item, items: seq<Item>)
    ensures AddItems(r, [item] + items) == AddItems(AddItem(r, item), items)
  {
    assert ([item] + items)[1..] == items;
  }

  lemma FourItems(r: Emitted, a: Item, b: Item, c: Item, d: Item)
    ensures AddItems(r, [a] + ([b] + ([c] + [d]))) == AddItem(AddItem(AddItem(AddItem(r, a), b), c), d)
  {
    AddFirst(r, a, [b] + ([c] + [d]));
    AddFirst(AddItem(r, a), b, [c] + [d]);
    AddFirst(AddItem(AddItem(r, a), b), c, [d]);
    assert [d][1..] == [];
  }

  lemma OneFragment(calls: seq<Call>)
    requires |calls| == 1
    ensures Fragments(calls) == [Fragment(calls[0])]
  {
    assert calls[1..] == [];
  }

  lemma TextStep(r: Emitted, text: string)
    requires r.enc.open.None?
    ensures var i, n := r.enc.blockIndex + 1, AddItem(r, Text(text));
      && n.events == r.events + [BlockStart(i, TextBlock), BlockDelta(i, TextDelta(text))]
      && n.enc == r.enc.(blockIndex := i, open := Some(TextKind), signature := "", signatureSent := false)
  {
  }

  lemma ThinkingStep(r: Emitted, thinking: string)
    requires r.enc.open == Some(TextKind)
    ensures var i, n := r.enc.blockIndex, AddItem(r, Thinking(thinking));
      && n.events == r.events +
           [BlockStop(i), BlockStart(i + 1, ThinkingBlock("")), BlockDelta(i + 1, ThinkingDelta(thinking))]
      && n.enc == r.enc.(blockIndex := i + 1, open := Some(ThinkingKind), openCall := None, signature := "",
                         signatureSent := false)
  {
  }

  lemma CallStep(r: Emitted, call: Call)
    requires r.enc.open == Some(ThinkingKind) && Quiet(r.enc) && r.enc.calls == map[] && call.arguments != ""
    ensures var i, n := r.enc.blockIndex, AddItem(r, Fragment(call));
      n.events == r.events +
        [BlockStop(i), BlockStart(i + 1, ToolBlock(call.id, call.name)), BlockDelta(i + 1, JsonDelta(call.arguments))]
  {
    assert call.arguments[|""|..] == call.arguments;
  }

  /** The order within one chunk: text, thinking, its signature, tool calls. */
  lemma OneChunkInOrder(header: Header, usage: Usage, text: string, thinking: string, signature: string, call: Call)
    requires text != "" && thinking != "" && signature != "" && call.arguments != ""
    ensures var c := Chunk(usage, text, thinking, signature, [call], false, OtherFinish, "");
      Fed(Emitted(Fresh(header), []), c, true).events ==
        [MessageStart(header, usage.prompt),
         BlockStart(0, TextBlock), BlockDelta(0, TextDelta(text)), BlockStop(0),
         BlockStart(1, ThinkingBlock("")), BlockDelta(1, ThinkingDelta(thinking)),
         BlockDelta(1, SignatureDelta(signature)), BlockStop(1),
         BlockStart(2, ToolBlock(call.id, call.name)), BlockDelta(2, JsonDelta(call.arguments))]
  {
    var calls := Fragments([call]);
    OneFragment([call]);
    var s := Start(Emitted(Fresh(header), []), usage);
    var a := AddItem(s, Text(text));
    var b := AddItem(a, Thinking(thinking));
    var d := AddItem(b, Signature(signature));
    FourItems(s, Text(text), Thinking(thinking), Signature(signature), Fragment(call));
    TextStep(s, text);
    ThinkingStep(a, thinking);
    CallStep(d, call);
  }
}
