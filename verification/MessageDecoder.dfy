/** The decoder of Anthropic Messages event streams (core/messages_protocol.py, class
    AnthropicStreamDecoder), and the proof that it undoes the encoder. */
module MessageDecoder {
  import opened Basics
  import opened Sequences
  import opened MessageEncoder
  import opened MessageProtocol

  datatype ToolCall = ToolCall(id: Id, name: ToolName, arguments: string)

  datatype OpenBlock = OpenBlock(block: Block, partial: string, signature: string)

  /** What one event hands to the caller at once. */
  datatype Piece = Content(text: string) | Thought(text: string) | Signed(text: string) | Called(call: ToolCall) | Done

  datatype Decoder = Decoder(
    header: Option<Header>,
    inputTokens: int,
    outputTokens: int,
    stop: Option<StopReason>,
    stopSequence: string,
    contentParts: seq<string>,
    thinkingParts: seq<string>,
    toolCalls: seq<ToolCall>,
    opaqueSignatures: seq<string>,
    open: map<int, OpenBlock>)

  /** Parsing and printing again; the JSON functions themselves are a parameter. */
  type Normal = string -> string

  function NewDecoder(): Decoder { Decoder(None, 0, 0, None, "", [], [], [], [], map[]) }

  function Arguments(partial: string, normal: Normal): string { if partial == "" then "{}" else normal(partial) }

  function FromStop(stop: Option<StopReason>): FinishReason {
    if stop.None? then Stop
    else
      match stop.value
      case EndTurn | StopSequence | PauseTurn | OtherStop => Stop
      case MaxTokens => Length
      case ToolUse => ToolCalls
      case Refusal => ContentFilter
  }

  function PieceOf(d: Decoder, e: Event, normal: Normal): Option<Piece> {
    match e
    case MessageStart(_, _) => None
    case BlockStart(_, b) => if b.ThinkingBlock? && b.thinking != "" then Some(Thought(b.thinking)) else None
    case BlockDelta(_, TextDelta(t)) => if t != "" then Some(Content(t)) else None
    case BlockDelta(_, ThinkingDelta(t)) => if t != "" then Some(Thought(t)) else None
    case BlockDelta(_, SignatureDelta(t)) => if t != "" then Some(Signed(t)) else None
    case BlockDelta(_, JsonDelta(_)) => None
    case BlockStop(i) =>
      if i in d.open && d.open[i].block.ToolBlock? then Some(Called(Completed(d.open[i], normal))) else None
    case MessageDelta(_, _, _) => None
    case MessageStop => Some(Done)
  }

  function Completed(b: OpenBlock, normal: Normal): ToolCall
    requires b.block.ToolBlock?
  {
    ToolCall(b.block.id, b.block.name, Arguments(b.partial, normal))
  }

  function Decode(d: Decoder, e: Event, normal: Normal): Decoder {
    match e
    case MessageStart(h, n) => d.(header := Some(h), inputTokens := n, outputTokens := 0, stop := None)
    case BlockStart(i, b) =>
      d.(open := d.open[i := OpenBlock(b, "", "")],
         thinkingParts := if b.ThinkingBlock? && b.thinking != "" then d.thinkingParts + [b.thinking]
           else d.thinkingParts)
    case BlockDelta(_, TextDelta(t)) => if t != "" then d.(contentParts := d.contentParts + [t]) else d
    case BlockDelta(_, ThinkingDelta(t)) => if t != "" then d.(thinkingParts := d.thinkingParts + [t]) else d
    case BlockDelta(i, SignatureDelta(t)) =>
      if i in d.open then d.(open := d.open[i := d.open[i].(signature := t)]) else d
    case BlockDelta(i, JsonDelta(t)) =>
      if i in d.open then d.(open := d.open[i := d.open[i].(partial := d.open[i].partial + t)]) else d
    case BlockStop(i) => if i in d.open then Stopped(d, i, normal) else d
    case MessageDelta(stop, sequence, n) =>
      d.(stop := Some(stop), stopSequence := if sequence != "" then sequence else d.stopSequence, outputTokens := n)
    case MessageStop => d
  }

  function Stopped(d: Decoder, i: int, normal: Normal): Decoder
    requires i in d.open
  {
    var b, rest := d.open[i], d.(open := d.open - {i});
    match b.block
    case TextBlock => rest
    case ThinkingBlock(_) => rest.(opaqueSignatures := d.opaqueSignatures + [b.signature])
    case ToolBlock(_, _) => rest.(toolCalls := d.toolCalls + [Completed(b, normal)])
  }

  function DecodeAll(d: Decoder, events: seq<Event>, normal: Normal): Decoder {
    if events == [] then d else Decode(DecodeAll(d, Front(events), normal), Final(events), normal)
  }

  function Concat(parts: seq<string>): string {
    if parts == [] then "" else Concat(Front(parts)) + Final(parts)
  }

  /** The final result; an opaque block is known by its signature. */
  datatype Outcome = Outcome(
    header: Option<Header>, content: string, thinking: string, calls: seq<ToolCall>, signatures: seq<string>,
    finish: FinishReason, stop: Option<StopReason>, stopSequence: string, promptTokens: int, completionTokens: int)

  function OutcomeOf(d: Decoder): Outcome {
    Outcome(d.header, Concat(d.contentParts), Concat(d.thinkingParts), d.toolCalls, d.opaqueSignatures,
            FromStop(d.stop), d.stop, d.stopSequence, d.inputTokens, d.outputTokens)
  }

  // ---- the decoder object -----------------------------------------------------------

  class AnthropicStreamDecoder {
    const normal: Normal
    var header: Option<Header>
    var inputTokens: int
    var outputTokens: int
    var stopReason: Option<StopReason>
    var stopSequence: string
    var contentParts: seq<string>
    var thinkingParts: seq<string>
    var toolCalls: seq<ToolCall>
    var opaqueSignatures: seq<string>
    var openBlocks: map<int, OpenBlock>

    function State(): Decoder
      reads this
    {
      Decoder(header, inputTokens, outputTokens, stopReason, stopSequence, contentParts, thinkingParts, toolCalls,
        opaqueSignatures, openBlocks)
    }

    constructor (normal: Normal)
      ensures State() == NewDecoder() && this.normal == normal
    {
      this.normal := normal;
      header, inputTokens, outputTokens, stopReason, stopSequence := None, 0, 0, None, "";
      contentParts, thinkingParts, toolCalls, opaqueSignatures, openBlocks := [], [], [], [], map[];
    }

    method FeedDelta(i: int, delta: Delta) returns (piece: Option<Piece>)
      modifies `contentParts, `thinkingParts, `openBlocks
      ensures State() == Decode(old(State()), BlockDelta(i, delta), normal)
      ensures piece == PieceOf(old(State()), BlockDelta(i, delta), normal)
    {
      piece := None;
      match delta {
        case TextDelta(t) =>
          if t != "" {
            contentParts := contentParts + [t];
            piece := Some(Content(t));
          }
        case ThinkingDelta(t) =>
          if t != "" {
            thinkingParts := thinkingParts + [t];
            piece := Some(Thought(t));
          }
        case SignatureDelta(t) =>
          if i in openBlocks { openBlocks := openBlocks[i := openBlocks[i].(signature := t)]; }
          if t != "" { piece := Some(Signed(t)); }
        case JsonDelta(t) =>
          if i in openBlocks { openBlocks := openBlocks[i := openBlocks[i].(partial := openBlocks[i].partial + t)]; }
      }
    }

    method FeedStop(i: int) returns (piece: Option<Piece>)
      modifies `toolCalls, `opaqueSignatures, `openBlocks
      ensures State() == Decode(old(State()), BlockStop(i), normal)
      ensures piece == PieceOf(old(State()), BlockStop(i), normal)
    {
      piece := None;
      if i in openBlocks {
        var b := openBlocks[i];
        openBlocks := openBlocks - {i};
        if b.block.ToolBlock? {
          var call := Completed(b, normal);
          toolCalls := toolCalls + [call];
          piece := Some(Called(call));
        } else if b.block.ThinkingBlock? {
          opaqueSignatures := opaqueSignatures + [b.signature];
        }
      }
    }

    method Feed(e: Event) returns (piece: Option<Piece>)
      modifies this
      ensures State() == Decode(old(State()), e, normal) && piece == PieceOf(old(State()), e, normal)
    {
      piece := None;
      match e {
        case MessageStart(h, n) =>
          header, inputTokens, outputTokens, stopReason := Some(h), n, 0, None;
        case BlockStart(i, b) =>
          openBlocks := openBlocks[i := OpenBlock(b, "", "")];
          if b.ThinkingBlock? && b.thinking != "" {
            thinkingParts := thinkingParts + [b.thinking];
            piece := Some(Thought(b.thinking));
          }
        case BlockDelta(i, delta) => piece := FeedDelta(i, delta);
        case BlockStop(i) => piece := FeedStop(i);
        case MessageDelta(stop, sequence, n) =>
          stopReason, outputTokens := Some(stop), n;
          if sequence != "" { stopSequence := sequence; }
        case MessageStop => piece := Some(Done);
      }
    }

    method Result() returns (r: Outcome)
      ensures r == OutcomeOf(State())
    {
      return Outcome(header, Concat(contentParts), Concat(thinkingParts), toolCalls, opaqueSignatures,
                     FromStop(stopReason), stopReason, stopSequence, inputTokens, outputTokens);
    }
  }

  // ---- pieces and result ------------------------------------------------------------

  /** The pieces handed out while these events are fed. */
  function Pieces(d: Decoder, events: seq<Event>, normal: Normal): seq<Piece> {
    if events == [] then []
    else
      var p := PieceOf(DecodeAll(d, Front(events), normal), Final(events), normal);
      if p.Some? then Pieces(d, Front(events), normal) + [p.value] else Pieces(d, Front(events), normal)
  }

  function Contents(ps: seq<Piece>): seq<string> {
    if ps == [] then [] else if Final(ps).Content? then Contents(Front(ps)) + [Final(ps).text] else Contents(Front(ps))
  }

  function Thoughts(ps: seq<Piece>): seq<string> {
    if ps == [] then [] else if Final(ps).Thought? then Thoughts(Front(ps)) + [Final(ps).text] else Thoughts(Front(ps))
  }

  function Calls(ps: seq<Piece>): seq<ToolCall> {
    if ps == [] then [] else if Final(ps).Called? then Calls(Front(ps)) + [Final(ps).call] else Calls(Front(ps))
  }

  /** One event adds to the result exactly the piece it hands out. */
  lemma PieceIsAdded(d: Decoder, e: Event, normal: Normal)
    ensures var p, n := PieceOf(d, e, normal), Decode(d, e, normal);
      && n.contentParts == (if p.Some? && p.value.Content? then d.contentParts + [p.value.text] else d.contentParts)
      && n.thinkingParts == (if p.Some? && p.value.Thought? then d.thinkingParts + [p.value.text] else d.thinkingParts)
      && n.toolCalls == (if p.Some? && p.value.Called? then d.toolCalls + [p.value.call] else d.toolCalls)
  {
  }

  /** For every event sequence, legal or not, the streamed pieces add up to the result. */
  lemma {:induction false} PiecesAreResult(events: seq<Event>, normal: Normal)
    ensures var d, ps := DecodeAll(NewDecoder(), events, normal), Pieces(NewDecoder(), events, normal);
      Contents(ps) == d.contentParts && Thoughts(ps) == d.thinkingParts && Calls(ps) == d.toolCalls
    decreases |events|
  {
    if events != [] {
      PiecesAreResult(Front(events), normal);
      PieceIsAdded(DecodeAll(NewDecoder(), Front(events), normal), Final(events), normal);
      var p := PieceOf(DecodeAll(NewDecoder(), Front(events), normal), Final(events), normal);
      if p.Some? { Snoc(Pieces(NewDecoder(), Front(events), normal), p.value); }
    }
  }

  // ---- what the chunks say ----------------------------------------------------------

  function TextOf(its: seq<Item>): string {
    if its == [] then "" else if Final(its).Text? then TextOf(Front(its)) + Final(its).text else TextOf(Front(its))
  }

  function ThinkingOf(its: seq<Item>): string {
    if its == [] then "" else if Final(its).Thinking? then ThinkingOf(Front(its)) + Final(its).text
      else ThinkingOf(Front(its))
  }

  function CallsOf(its: seq<Item>, normal: Normal): seq<ToolCall> {
    seq(|Seen(its)|, i requires 0 <= i < |Seen(its)| =>
      ToolCall(Seen(its)[i], NameOf(its, Seen(its)[i]), Arguments(Gathered(its, Seen(its)[i]), normal)))
  }

  /** One entry for each thinking block: its signature, the first one that comes while it is open. */
  function SignedOf(its: seq<Item>): seq<Option<string>> {
    if its == [] then []
    else
      var signed, item := SignedOf(Front(its)), Final(its);
      if item.Thinking? && !ThinkingGoesOn(Front(its)) then signed + [None]
      else if item.Signature? && ThinkingGoesOn(Front(its)) then FirstSigned(signed, item.text)
      else signed
  }

  function FirstSigned(signed: seq<Option<string>>, s: string): seq<Option<string>> {
    if signed != [] && Final(signed).None? then Front(signed) + [Some(s)] else signed
  }

  function Written(signed: Option<string>): string { if signed.Some? then signed.value else "" }

  function SignaturesOf(its: seq<Item>): seq<string> {
    seq(|SignedOf(its)|, i requires 0 <= i < |SignedOf(its)| => Written(SignedOf(its)[i]))
  }

  /** The chunk that ends the stream: the first one marked done, or the one `finish` feeds. */
  function Ending(chunks: seq<Chunk>): Chunk {
    if chunks == [] then DoneChunk() else if chunks[0].done then chunks[0] else Ending(chunks[1..])
  }

  // ---- the decoder mirrors the encoder ----------------------------------------------

  datatype Totals = Totals(text: string, thinking: string, order: seq<Id>, signed: seq<Option<string>>)

  function TotalsOf(its: seq<Item>): Totals { Totals(TextOf(its), ThinkingOf(its), Seen(its), SignedOf(its)) }

  function Told(calls: map<Id, Stored>, id: Id, normal: Normal): ToolCall
    requires id in calls
  {
    ToolCall(id, calls[id].name, Arguments(calls[id].arguments, normal))
  }

  predicate Linked(e: Encoder) {
    && (e.open == Some(ToolKind) <==> e.openCall.Some?)
    && (e.openCall.Some? ==> e.openCall.value in e.calls)
  }

  /** The block the decoder must have open. */
  function Shown(e: Encoder): map<int, OpenBlock>
    requires Linked(e)
  {
    match e.open
    case None => map[]
    case Some(TextKind) => map[e.blockIndex := OpenBlock(TextBlock, "", "")]
    case Some(ThinkingKind) => map[e.blockIndex := OpenBlock(ThinkingBlock(""), "", e.signature)]
    case Some(ToolKind) =>
      var s := e.calls[e.openCall.value];
      map[e.blockIndex := OpenBlock(ToolBlock(e.openCall.value, s.name), s.arguments, "")]
  }

  /** Finished calls come in order; the open one, if any, is the last that appeared. */
  predicate InOrder(order: seq<Id>, e: Encoder, calls: seq<ToolCall>, normal: Normal) {
    && Distinct(order) && (forall i | 0 <= i < |order| :: order[i] in e.calls)
    && |order| == |calls| + (if e.openCall.Some? then 1 else 0)
    && (e.openCall.Some? ==> e.openCall.value == order[|order| - 1])
    && forall i | 0 <= i < |calls| :: calls[i] == Told(e.calls, order[i], normal)
  }

  /** Signatures of finished blocks come in order; the open block, if any, is the last. */
  predicate SignedInOrder(signed: seq<Option<string>>, e: Encoder, done: seq<string>) {
    && |signed| == |done| + (if e.open == Some(ThinkingKind) then 1 else 0)
    && (forall i | 0 <= i < |done| :: done[i] == Written(signed[i]))
    && (e.open == Some(ThinkingKind) ==>
          && Final(signed) == (if e.signatureSent then Some(e.signature) else None)
          && (!e.signatureSent ==> e.signature == ""))
  }

  ghost predicate Mirrors(t: Totals, e: Encoder, d: Decoder, normal: Normal) {
    && Linked(e) && d.open == Shown(e)
    && Concat(d.contentParts) == t.text && Concat(d.thinkingParts) == t.thinking
    && InOrder(t.order, e, d.toolCalls, normal) && SignedInOrder(t.signed, e, d.opaqueSignatures)
  }

  ghost predicate MirrorsRun(t: Totals, d0: Decoder, r: Emitted, normal: Normal) {
    Mirrors(t, r.enc, DecodeAll(d0, r.events, normal), normal)
  }

  lemma DecodeOne(d: Decoder, events: seq<Event>, e: Event, normal: Normal)
    ensures DecodeAll(d, events + [e], normal) == Decode(DecodeAll(d, events, normal), e, normal)
  {
    Snoc(events, e);
  }

  lemma {:induction false} DecodeTwice(d: Decoder, a: seq<Event>, b: seq<Event>, normal: Normal)
    ensures DecodeAll(d, a + b, normal) == DecodeAll(DecodeAll(d, a, normal), b, normal)
    decreases |b|
  {
    if b == [] {
      assert a + b == a;
    } else {
      DecodeTwice(d, a, Front(b), normal);
      assert a + b == a + Front(b) + [Final(b)];
      DecodeOne(d, a + Front(b), Final(b), normal);
    }
  }

  function Shut(e: Encoder): Encoder { e.(open := None, openCall := None) }

  lemma StopSigns(signed: seq<Option<string>>, e: Encoder, d: Decoder, normal: Normal)
    requires Linked(e) && d.open == Shown(e) && SignedInOrder(signed, e, d.opaqueSignatures) && e.open.Some?
    ensures SignedInOrder(signed, Shut(e), Decode(d, BlockStop(e.blockIndex), normal).opaqueSignatures)
  {
  }

  lemma StopMirrors(t: Totals, e: Encoder, d: Decoder, normal: Normal)
    requires Mirrors(t, e, d, normal) && e.open.Some?
    ensures Mirrors(t, Shut(e), Decode(d, BlockStop(e.blockIndex), normal), normal)
  {
    StopSigns(t.signed, e, d, normal);
    assert Shown(e) - {e.blockIndex} == map[];
    if e.open == Some(ToolKind) {
      assert Completed(d.open[e.blockIndex], normal) == Told(e.calls, e.openCall.value, normal);
    }
  }

  lemma CloseMirrors(t: Totals, d0: Decoder, r: Emitted, normal: Normal)
    requires MirrorsRun(t, d0, r, normal) && Quiet(r.enc)
    ensures MirrorsRun(t, d0, Close(r), normal) && Close(r).enc == Shut(r.enc)
  {
    NothingLate(r.enc);
    if r.enc.open.Some? {
      StopMirrors(t, r.enc, DecodeAll(d0, r.events, normal), normal);
      DecodeOne(d0, r.events, BlockStop(r.enc.blockIndex), normal);
    }
  }

  lemma SnocSigned(signed: seq<Option<string>>, s: Option<string>)
    ensures Final(signed + [s]) == s && Front(signed + [s]) == signed
  {
    Snoc(signed, s);
  }

  lemma OpenMirrors(t: Totals, d0: Decoder, r: Emitted, b: Block, normal: Normal)
    requires MirrorsRun(t, d0, r, normal) && Quiet(r.enc) && (b == TextBlock || b == ThinkingBlock(""))
    ensures MirrorsRun(t.(signed := if b == TextBlock then t.signed else t.signed + [None]), d0, Open(r, b), normal)
  {
    CloseMirrors(t, d0, r, normal);
    var c := Close(r);
    if b != TextBlock { SnocSigned(t.signed, None); }
    DecodeOne(d0, c.events, BlockStart(c.enc.blockIndex + 1, b), normal);
  }

  lemma ConcatOne(parts: seq<string>, t: string)
    ensures Concat(parts + [t]) == Concat(parts) + t
  {
    Snoc(parts, t);
  }

  lemma TextMirrors(t: Totals, d0: Decoder, r: Emitted, text: string, normal: Normal)
    requires MirrorsRun(t, d0, r, normal) && Quiet(r.enc)
    ensures MirrorsRun(t.(text := t.text + text), d0, AddDelta(Within(r, TextBlock), TextDelta(text)), normal)
  {
    if r.enc.open != Some(TextKind) { OpenMirrors(t, d0, r, TextBlock, normal); }
    var w := Within(r, TextBlock);
    DecodeOne(d0, w.events, BlockDelta(w.enc.blockIndex, TextDelta(text)), normal);
    ConcatOne(DecodeAll(d0, w.events, normal).contentParts, text);
  }

  lemma ThinkingMirrors(t: Totals, d0: Decoder, r: Emitted, text: string, normal: Normal)
    requires MirrorsRun(t, d0, r, normal) && Quiet(r.enc)
    ensures MirrorsRun(t.(thinking := t.thinking + text,
                          signed := if r.enc.open == Some(ThinkingKind) then t.signed else t.signed + [None]), d0,
      AddDelta(Within(r, ThinkingBlock("")), ThinkingDelta(text)), normal)
  {
    var signed := if r.enc.open == Some(ThinkingKind) then t.signed else t.signed + [None];
    var w := Within(r, ThinkingBlock(""));
    assert MirrorsRun(t.(signed := signed), d0, w, normal) by {
      if r.enc.open != Some(ThinkingKind) { OpenMirrors(t, d0, r, ThinkingBlock(""), normal); }
    }
    ThoughtMirrors(t.(signed := signed), d0, w, text, normal);
  }

  lemma ThoughtMirrors(t: Totals, d0: Decoder, w: Emitted, text: string, normal: Normal)
    requires MirrorsRun(t, d0, w, normal)
    ensures MirrorsRun(t.(thinking := t.thinking + text), d0, AddDelta(w, ThinkingDelta(text)), normal)
  {
    DecodeOne(d0, w.events, BlockDelta(w.enc.blockIndex, ThinkingDelta(text)), normal);
    ConcatOne(DecodeAll(d0, w.events, normal).thinkingParts, text);
  }

  lemma NewSignature(signed: seq<Option<string>>, e: Encoder, done: seq<string>, s: string)
    requires SignedInOrder(signed, e, done) && e.open == Some(ThinkingKind)
    ensures SignedInOrder(FirstSigned(signed, s),
      if e.signatureSent then e else e.(signature := s, signatureSent := true), done)
  {
    if !e.signatureSent { SnocSigned(Front(signed), Some(s)); }
  }

  lemma SignatureMirrors(t: Totals, d0: Decoder, r: Emitted, s: string, normal: Normal)
    requires MirrorsRun(t, d0, r, normal)
    ensures var signed := if r.enc.open == Some(ThinkingKind) then FirstSigned(t.signed, s) else t.signed;
      MirrorsRun(t.(signed := signed), d0, AddSignature(r, s), normal)
  {
    if r.enc.open == Some(ThinkingKind) {
      NewSignature(t.signed, r.enc, DecodeAll(d0, r.events, normal).opaqueSignatures, s);
      DecodeOne(d0, r.events, BlockDelta(r.enc.blockIndex, SignatureDelta(s)), normal);
    }
  }

  lemma NotedMirrors(t: Totals, e: Encoder, d: Decoder, id: Id, stored: Stored, normal: Normal)
    requires Mirrors(t, e, d, normal) && id !in e.calls
    ensures Mirrors(t, e.(calls := e.calls[id := stored]), d, normal)
  {
  }

  /** A new tool call joins the order; its block opens with nothing in it. */
  lemma NewBlockMirrors(t: Totals, e: Encoder, d: Decoder, id: Id, name: ToolName, normal: Normal)
    requires Mirrors(t, e, d, normal) && e.open == None && id !in t.order
    requires id in e.calls && e.calls[id] == Stored(name, "")
    ensures var o := e.(blockIndex := e.blockIndex + 1, open := Some(ToolKind), openCall := Some(id),
                        signature := "", signatureSent := false);
      Mirrors(t.(order := t.order + [id]), o, Decode(d, BlockStart(e.blockIndex + 1, ToolBlock(id, name)), normal),
        normal)
  {
    DistinctMore(t.order, id);
  }

  lemma NewCallMirrors(t: Totals, d0: Decoder, c: Emitted, call: Call, normal: Normal)
    requires MirrorsRun(t, d0, c, normal) && Quiet(c.enc) && call.id !in c.enc.calls
    ensures var noted := c.(enc := c.enc.(calls := c.enc.calls[call.id := Stored(call.name, "")]));
      var o := Open(noted, ToolBlock(call.id, call.name));
      MirrorsRun(t.(order := t.order + [call.id]), d0, o.(enc := o.enc.(openCall := Some(call.id))), normal)
  {
    var noted := c.(enc := c.enc.(calls := c.enc.calls[call.id := Stored(call.name, "")]));
    NotedMirrors(t, c.enc, DecodeAll(d0, c.events, normal), call.id, Stored(call.name, ""), normal);
    CloseMirrors(t, d0, noted, normal);
    var k := Close(noted);
    NewBlockMirrors(t, k.enc, DecodeAll(d0, k.events, normal), call.id, call.name, normal);
    DecodeOne(d0, k.events, BlockStart(k.enc.blockIndex + 1, ToolBlock(call.id, call.name)), normal);
  }

  lemma CallOpenedMirrors(t: Totals, d0: Decoder, r: Emitted, call: Call, normal: Normal)
    requires MirrorsRun(t, d0, r, normal) && Quiet(r.enc)
    ensures var order := if call.id in r.enc.calls then t.order else t.order + [call.id];
      MirrorsRun(t.(order := order), d0, CallOpened(r, call), normal)
  {
    CloseMirrors(t, d0, r, normal);
    var c := Interrupted(r, call.id);
    if call.id !in c.enc.calls { NewCallMirrors(t, d0, c, call, normal); }
  }

  lemma MergedParts(previous: string, arguments: string)
    ensures previous + Added(previous, arguments) == Merge(previous, arguments)
  {
  }

  lemma JsonMirrors(t: Totals, e: Encoder, d: Decoder, id: Id, delta: string, normal: Normal)
    requires Mirrors(t, e, d, normal) && e.openCall == Some(id)
    ensures var longer := e.calls[id].(arguments := e.calls[id].arguments + delta);
      Mirrors(t, e.(calls := e.calls[id := longer]), Decode(d, BlockDelta(e.blockIndex, JsonDelta(delta)), normal),
        normal)
  {
    var n := |t.order| - 1;
    forall i: nat | i < n ensures t.order[i] != id { DistinctAt(t.order, i, n); }
  }

  /** Stored arguments always equal the concatenated partial JSON of the open block. */
  lemma ArgumentsMirror(t: Totals, d0: Decoder, c: Emitted, call: Call, normal: Normal)
    requires MirrorsRun(t, d0, c, normal) && call.id in c.enc.calls
    requires c.enc.openCall == Some(call.id) || call.arguments == "" ||
      Added(c.enc.calls[call.id].arguments, call.arguments) == ""
    ensures MirrorsRun(t, d0, ArgumentsAdded(c, call), normal)
  {
    var stored := c.enc.calls[call.id];
    if call.arguments != "" {
      var delta := Added(stored.arguments, call.arguments);
      if delta == "" {
        EmptyMerge(stored.arguments, call.arguments);
        assert c.enc.calls[call.id := stored] == c.enc.calls;
      } else {
        MergedParts(stored.arguments, call.arguments);
        JsonMirrors(t, c.enc, DecodeAll(d0, c.events, normal), call.id, delta, normal);
        DecodeOne(d0, c.events, BlockDelta(c.enc.blockIndex, JsonDelta(delta)), normal);
      }
    }
  }

  lemma ItemMirrors(p0: Phase, its: seq<Item>, d0: Decoder, r: Emitted, item: Item, normal: Normal)
    requires Sound(p0, its, r) && Clean(its + [item]) && MirrorsRun(TotalsOf(its), d0, r, normal)
    ensures MirrorsRun(TotalsOf(its + [item]), d0, AddItem(r, item), normal)
  {
    Snoc(its, item);
    var t := TotalsOf(its);
    match item
    case Text(s) => TextMirrors(t, d0, r, s, normal);
    case Thinking(s) => ThinkingMirrors(t, d0, r, s, normal);
    case Signature(s) => SignatureMirrors(t, d0, r, s, normal);
    case Fragment(call) =>
      CallOpenedMirrors(t, d0, r, call, normal);
      CallOpenedAt(p0, its, r, call);
      if call.id !in Seen(its) { UnseenIsEmpty(its, call.id); }
      ArgumentsMirror(TotalsOf(its + [item]), d0, CallOpened(r, call), call, normal);
  }

  lemma {:induction false} CleanPrefix(a: seq<Item>, b: seq<Item>)
    requires Clean(a + b)
    ensures Clean(a)
    decreases |b|
  {
    if b == [] {
      assert a + b == a;
    } else {
      assert a + b == a + Front(b) + [Final(b)];
      Snoc(a + Front(b), Final(b));
      CleanPrefix(a, Front(b));
    }
  }

  lemma {:induction false} ItemsMirror(p0: Phase, its: seq<Item>, d0: Decoder, r: Emitted, items: seq<Item>,
                                       normal: Normal)
    requires Sound(p0, its, r) && Clean(its + items) && MirrorsRun(TotalsOf(its), d0, r, normal)
    ensures MirrorsRun(TotalsOf(its + items), d0, AddItems(r, items), normal)
    decreases |items|
  {
    if items == [] {
      assert its + items == its;
    } else {
      var next := its + [items[0]];
      Regroup(its, [items[0]], items[1..]);
      assert [items[0]] + items[1..] == items;
      CleanPrefix(next, items[1..]);
      ItemKeeps(p0, its, r, items[0]);
      ItemMirrors(p0, its, d0, r, items[0], normal);
      ItemsMirror(p0, next, d0, AddItem(r, items[0]), items[1..], normal);
    }
  }

  // ---- the round trip ---------------------------------------------------------------

  lemma StartMirrors(t: Totals, e: Encoder, d: Decoder, usage: Usage, normal: Normal)
    requires Mirrors(t, e, d, normal)
    ensures MirrorsRun(t, d, Start(Emitted(e, []), usage), normal)
  {
    var r := Start(Emitted(e, []), usage);
    DecodeOne(d, [], MessageStart(e.header, r.enc.inputTokens), normal);
    assert [] + [MessageStart(e.header, r.enc.inputTokens)] == [MessageStart(e.header, r.enc.inputTokens)];
    assert Shown(r.enc) == Shown(e);
  }

  lemma FinishedMirrors(t: Totals, d0: Decoder, r: Emitted, reason: FinishReason, sequence: string, normal: Normal)
    requires MirrorsRun(t, d0, r, normal) && Quiet(r.enc)
    ensures var d := DecodeAll(d0, Finished(r, reason, sequence).events, normal);
      && Mirrors(t, Finished(r, reason, sequence).enc, d, normal)
      && Finished(r, reason, sequence).enc.openCall == None && Finished(r, reason, sequence).enc.open == None
      && Finished(r, reason, sequence).enc.calls == r.enc.calls
      && d.stop == Some(ToStop(reason, sequence)) && d.outputTokens == r.enc.outputTokens
  {
    var told := r.(enc := r.enc.(stop := ToStop(reason, sequence), stopSequence := sequence));
    assert Mirrors(t, told.enc, DecodeAll(d0, r.events, normal), normal);
    CloseMirrors(t, d0, told, normal);
    var c := Close(told);
    EndMirrors(t, c.enc, DecodeAll(d0, c.events, normal), normal);
    var last := MessageDelta(c.enc.stop, sequence, c.enc.outputTokens);
    DecodeOne(d0, c.events, last, normal);
    DecodeOne(d0, c.events + [last], MessageStop, normal);
  }

  lemma EndMirrors(t: Totals, e: Encoder, d: Decoder, normal: Normal)
    requires Mirrors(t, e, d, normal)
    ensures Mirrors(t, e.(stopped := true), Decode(d, MessageDelta(e.stop, e.stopSequence, e.outputTokens), normal),
      normal)
  {
  }

  /** The stop reason a finish reason stands for: the table of the wire format. */
  predicate Names(stop: StopReason, reason: FinishReason, sequence: string) {
    && (stop == StopSequence <==> reason == Stop && sequence != "")
    && (stop == MaxTokens <==> reason == Length)
    && (stop == ToolUse <==> reason in {ToolCalls, FunctionCall})
    && (stop == Refusal <==> reason == ContentFilter)
    && (stop == EndTurn <==> reason == OtherFinish || (reason == Stop && sequence == ""))
  }

  /** What the decoder must hold at the end. */
  ghost predicate Returned(its: seq<Item>, end: Chunk, d: Decoder, normal: Normal) {
    && Concat(d.contentParts) == TextOf(its) && Concat(d.thinkingParts) == ThinkingOf(its)
    && d.toolCalls == CallsOf(its, normal)
    && d.opaqueSignatures == SignaturesOf(its)
    && d.stop.Some? && Names(d.stop.value, end.reason, end.stopSequence)
  }

  lemma MirrorsMeansReturned(its: seq<Item>, e: Encoder, end: Chunk, d: Decoder, normal: Normal)
    requires Mirrors(TotalsOf(its), e, d, normal) && Books(its, e) && e.openCall == None && e.open == None
    requires d.stop == Some(ToStop(end.reason, end.stopSequence))
    ensures Returned(its, end, d, normal)
  {
    assert d.opaqueSignatures == SignaturesOf(its);
    assert |d.toolCalls| == |Seen(its)|;
    forall i | 0 <= i < |Seen(its)| ensures d.toolCalls[i] == CallsOf(its, normal)[i] {
      assert Seen(its)[i] in e.calls;
    }
  }

  lemma FedMirrors(its: seq<Item>, e: Encoder, d: Decoder, includeThinking: bool, c: Chunk, normal: Normal)
    requires Ready(its, e) && Mirrors(TotalsOf(its), e, d, normal) && Clean(its + Items(c, includeThinking))
    ensures var r, all := Fed(Emitted(e, []), c, includeThinking), its + Items(c, includeThinking);
      if c.done then Returned(all, c, DecodeAll(d, r.events, normal), normal)
      else MirrorsRun(TotalsOf(all), d, r, normal)
  {
    var items, s := Items(c, includeThinking), Start(Emitted(e, []), c.usage);
    var p0 := PhaseOf(e, Clean(its));
    StartAt(e, c.usage, Clean(its));
    StartMirrors(TotalsOf(its), e, d, c.usage, normal);
    assert Keeps(its, s.enc);
    ItemsKeep(p0, its, s, items);
    ItemsMirror(p0, its, d, s, items, normal);
    if c.done {
      var filled := AddItems(s, items);
      FinishedMirrors(TotalsOf(its + items), d, filled, c.reason, c.stopSequence, normal);
      MirrorsMeansReturned(its + items, Finished(filled, c.reason, c.stopSequence).enc, c,
                           DecodeAll(d, Finished(filled, c.reason, c.stopSequence).events, normal), normal);
    }
  }

  lemma {:induction false} StreamReturns(its: seq<Item>, e: Encoder, d: Decoder, includeThinking: bool,
                                         chunks: seq<Chunk>, normal: Normal)
    requires Ready(its, e) && Mirrors(TotalsOf(its), e, d, normal) && Clean(its + AllItems(chunks, includeThinking))
    ensures Returned(its + AllItems(chunks, includeThinking), Ending(chunks),
                     DecodeAll(d, Stream(e, includeThinking, chunks), normal), normal)
    decreases |chunks|
  {
    if chunks == [] {
      FinishAddsNothing(includeThinking);
      FedMirrors(its, e, d, includeThinking, DoneChunk(), normal);
    } else {
      var c, rest := chunks[0], chunks[1..];
      var r := Fed(Emitted(e, []), c, includeThinking);
      FedKeeps(its, e, includeThinking, c);
      DecodeTwice(d, r.events, Stream(r.enc, includeThinking, rest), normal);
      if c.done {
        FedMirrors(its, e, d, includeThinking, c, normal);
        StoppedIsSilent(r.enc, includeThinking, rest);
      } else {
        Regroup(its, Items(c, includeThinking), AllItems(rest, includeThinking));
        CleanPrefix(its + Items(c, includeThinking), AllItems(rest, includeThinking));
        FedMirrors(its, e, d, includeThinking, c, normal);
        StreamReturns(its + Items(c, includeThinking), r.enc, DecodeAll(d, r.events, normal), includeThinking, rest,
          normal);
      }
    }
  }

  /** Main result: for every run without a stray fragment, the decoder gives back the text,
      the thinking, the tool calls in order with their names and arguments, and the stop
      reason. */
  lemma DecoderUndoesEncoder(header: Header, includeThinking: bool, chunks: seq<Chunk>, normal: Normal)
    requires Clean(AllItems(chunks, includeThinking))
    ensures Returned(AllItems(chunks, includeThinking), Ending(chunks),
                     DecodeAll(NewDecoder(), Stream(Fresh(header), includeThinking, chunks), normal), normal)
  {
    var e := Fresh(header);
    assert Ready([], e) && Mirrors(TotalsOf([]), e, NewDecoder(), normal);
    assert [] + AllItems(chunks, includeThinking) == AllItems(chunks, includeThinking);
    StreamReturns([], e, NewDecoder(), includeThinking, chunks, normal);
  }

  /** The finish reason survives exactly for the four reasons both forms know. */
  lemma FinishReasonReturnsIff(stop: StopReason, reason: FinishReason, sequence: string)
    requires Names(stop, reason, sequence)
    ensures FromStop(Some(stop)) == reason <==> reason in {Stop, Length, ToolCalls, ContentFilter}
    ensures forall other :: FromStop(other) == Stop <==> other !in {Some(MaxTokens), Some(ToolUse), Some(Refusal)}
  {
  }

  // ---- tool arguments ---------------------------------------------------------------

  function ArgumentsOf(its: seq<Item>, id: Id): seq<string> {
    if its == [] then []
    else
      var item := Final(its);
      if item.Fragment? && item.call.id == id && item.call.arguments != "" then
        ArgumentsOf(Front(its), id) + [item.call.arguments]
      else ArgumentsOf(Front(its), id)
  }

  function Merged(args: seq<string>): string {
    if args == [] then "" else Merge(Merged(Front(args)), Final(args))
  }

  lemma {:induction false} GatheredIsMerged(its: seq<Item>, id: Id)
    ensures Gathered(its, id) == Merged(ArgumentsOf(its, id))
    decreases |its|
  {
    if its != [] {
      GatheredIsMerged(Front(its), id);
      var item := Final(its);
      if item.Fragment? && item.call.id == id && item.call.arguments != "" {
        Snoc(ArgumentsOf(Front(its), id), item.call.arguments);
      }
    }
  }

  /** Fragments that each repeat all the text before them. */
  predicate Cumulative(args: seq<string>) {
    |args| > 1 ==> Cumulative(Front(args)) && Final(Front(args)) <= Final(args)
  }

  lemma {:induction false} CumulativeKeepsLast(args: seq<string>)
    requires args != [] && Cumulative(args)
    ensures Merged(args) == Final(args)
    decreases |args|
  {
    if |args| > 1 {
      CumulativeKeepsLast(Front(args));
    } else {
      assert Merged(Front(args)) == "";
    }
  }

  /** A fragment that happens to start with everything before it looks cumulative. */
  predicate Mistaken(args: seq<string>) {
    args != [] && (Mistaken(Front(args)) ||
      (Concat(Front(args)) != "" && Final(args) != "" && Concat(Front(args)) <= Final(args)))
  }

  lemma {:induction false} IncrementalKeepsAllIff(args: seq<string>)
    ensures Merged(args) == Concat(args) <==> !Mistaken(args)
    ensures |Merged(args)| <= |Concat(args)|
    ensures Merged(args) == Concat(args) || |Merged(args)| < |Concat(args)|
    decreases |args|
  {
    if args != [] {
      IncrementalKeepsAllIff(Front(args));
      var before, last := Merged(Front(args)), Final(args);
      if before == Concat(Front(args)) {
        if before == "" { assert before + last == last; }
      }
    }
  }

  /** Such fragments: "a" and then "ab" are taken for cumulative ones, and an "a" is lost. */
  lemma IncrementalLosesText()
    ensures Merged(["a"] + ["ab"]) == "ab" && Concat(["a"] + ["ab"]) == "aab" && Mistaken(["a"] + ["ab"])
  {
    Snoc([], "a");
    Snoc(["a"], "ab");
    assert [] + ["a"] == ["a"] && Concat([]) == "" && Merged([]) == "";
    assert Concat(["a"]) == "" + "a" == "a" && Merged(["a"]) == "a";
    assert "a" <= "ab";
  }
}
