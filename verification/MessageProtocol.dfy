/** Which event sequences are legal Messages streams, and when the encoder emits one.

    The automaton below is written from the protocol, without the encoder's fields. A
    stream is legal when it is one message_start, content blocks numbered 0, 1, 2, ..., each
    start, deltas of its own kind, stop, and then message_delta and message_stop. */
module MessageProtocol {
  import opened Basics
  import opened Sequences
  import opened MessageEncoder

  datatype Phase = Before | Between(next: int) | Inside(index: int, kind: Kind) | Closing | Over | Bad

  predicate Fits(k: Kind, d: Delta) {
    match k
    case TextKind => d.TextDelta?
    case ThinkingKind => d.ThinkingDelta? || d.SignatureDelta?
    case ToolKind => d.JsonDelta?
  }

  function Accept(p: Phase, e: Event): Phase {
    match e
    case MessageStart(_, _) => if p == Before then Between(0) else Bad
    case BlockStart(i, b) => if p == Between(i) then Inside(i, KindOf(b)) else Bad
    case BlockDelta(i, d) => if p.Inside? && p.index == i && Fits(p.kind, d) then p else Bad
    case BlockStop(i) => if p.Inside? && p.index == i then Between(i + 1) else Bad
    case MessageDelta(_, _, _) => if p.Between? then Closing else Bad
    case MessageStop => if p == Closing then Over else Bad
  }

  function AcceptAll(p: Phase, events: seq<Event>): Phase {
    if events == [] then p else Accept(AcceptAll(p, Front(events)), Final(events))
  }

  predicate Legal(events: seq<Event>) { AcceptAll(Before, events) == Over }

  lemma AcceptOne(p: Phase, events: seq<Event>, e: Event)
    ensures AcceptAll(p, events + [e]) == Accept(AcceptAll(p, events), e)
  {
    Snoc(events, e);
  }

  lemma {:induction false} AcceptTwice(p: Phase, a: seq<Event>, b: seq<Event>)
    ensures AcceptAll(p, a + b) == AcceptAll(AcceptAll(p, a), b)
    decreases |b|
  {
    if b == [] {
      assert a + b == a;
    } else {
      AcceptTwice(p, a, Front(b));
      assert a + b == a + Front(b) + [Final(b)];
      AcceptOne(p, a + Front(b), Final(b));
    }
  }

  // ---- what the input says ----------------------------------------------------------

  /** The tool ids that have appeared, in order of their first fragment. */
  function Seen(its: seq<Item>): seq<Id> {
    if its == [] then []
    else
      var seen, item := Seen(Front(its)), Final(its);
      if item.Fragment? && item.call.id !in seen then seen + [item.call.id] else seen
  }

  /** The tool call whose fragments are still contiguous. */
  function Current(its: seq<Item>): Option<Id> {
    if its == [] then None
    else
      match Final(its)
      case Text(_) => None
      case Thinking(_) => None
      case Signature(_) => Current(Front(its))
      case Fragment(call) =>
        if call.id !in Seen(Front(its)) || Current(Front(its)) == Some(call.id) then Some(call.id) else None
  }

  /** A thinking block goes on until text or a new tool call comes. */
  predicate ThinkingGoesOn(its: seq<Item>) {
    its != [] &&
    match Final(its)
    case Text(_) => false
    case Thinking(_) => true
    case Signature(_) => ThinkingGoesOn(Front(its))
    case Fragment(call) => call.id in Seen(Front(its)) && ThinkingGoesOn(Front(its))
  }

  /** The arguments gathered for one tool call. */
  function Gathered(its: seq<Item>, id: Id): string {
    if its == [] then ""
    else
      var before, item := Gathered(Front(its), id), Final(its);
      if item.Fragment? && item.call.id == id && item.call.arguments != "" then Merge(before, item.call.arguments)
        else before
  }

  /** The name given by the first fragment of a tool call. */
  function NameOf(its: seq<Item>, id: Id): ToolName {
    if its == [] then ToolName("")
    else
      var item := Final(its);
      if item.Fragment? && item.call.id == id && id !in Seen(Front(its)) then item.call.name else NameOf(Front(its), id)
  }

  /** A fragment that adds arguments to a tool call that something else has interrupted. */
  predicate Stray(its: seq<Item>, item: Item) {
    && item.Fragment? && item.call.id in Seen(its) && Current(its) != Some(item.call.id)
    && item.call.arguments != "" && Added(Gathered(its, item.call.id), item.call.arguments) != ""
  }

  predicate Clean(its: seq<Item>) { its == [] || (Clean(Front(its)) && !Stray(Front(its), Final(its))) }

  /** The fragments of each tool call stand together. */
  predicate Contiguous(its: seq<Item>) {
    forall i, j, k | 0 <= i < j < k < |its| && its[i].Fragment? && its[k].Fragment? &&
      its[i].call.id == its[k].call.id ::
      its[j].Fragment? && its[j].call.id == its[i].call.id
  }

  lemma {:induction false} SeenMeans(its: seq<Item>, id: Id)
    ensures id in Seen(its) <==> exists i | 0 <= i < |its| :: its[i].Fragment? && its[i].call.id == id
    decreases |its|
  {
    if its != [] {
      SeenMeans(Front(its), id);
      assert forall i | 0 <= i < |its| - 1 :: Front(its)[i] == its[i];
    }
  }

  lemma ContiguousFront(its: seq<Item>)
    requires Contiguous(its) && its != []
    ensures Contiguous(Front(its))
  {
    assert forall i | 0 <= i < |Front(its)| :: Front(its)[i] == its[i];
  }

  lemma LastContinues(its: seq<Item>, id: Id)
    requires Contiguous(its) && its != [] && Final(its).Fragment? && Final(its).call.id == id && id in Seen(Front(its))
    ensures Front(its) != [] && Final(Front(its)).Fragment? && Final(Front(its)).call.id == id
  {
    SeenMeans(Front(its), id);
    var i :| 0 <= i < |Front(its)| && Front(its)[i].Fragment? && Front(its)[i].call.id == id;
    var j, k := |its| - 2, |its| - 1;
    assert its[i] == Front(its)[i] && its[k] == Final(its) && its[j] == Final(Front(its));
    assert i < j ==> its[j].Fragment? && its[j].call.id == its[i].call.id;
  }

  lemma {:induction false} ContiguousIsClean(its: seq<Item>)
    requires Contiguous(its)
    ensures Clean(its)
    ensures its != [] && Final(its).Fragment? ==> Current(its) == Some(Final(its).call.id)
    decreases |its|
  {
    if its != [] {
      var item := Final(its);
      ContiguousFront(its);
      ContiguousIsClean(Front(its));
      if item.Fragment? && item.call.id in Seen(Front(its)) { LastContinues(its, item.call.id); }
    }
  }

  // ---- what the encoder keeps -------------------------------------------------------

  ghost predicate Books(its: seq<Item>, e: Encoder) {
    && (forall id: Id :: id in e.calls <==> id in Seen(its))
    && (forall id: Id | id in e.calls :: e.calls[id] == Stored(NameOf(its, id), Gathered(its, id)))
  }

  predicate Cursor(its: seq<Item>, e: Encoder) {
    && e.openCall == Current(its)
    && (e.open == Some(ToolKind) <==> e.openCall.Some?)
    && (e.openCall.Some? ==> e.openCall.value in Seen(its))
    && (e.open == Some(ThinkingKind) <==> ThinkingGoesOn(its))
  }

  /** A signature is sent the moment it is known. */
  predicate Quiet(e: Encoder) { e.signature != "" ==> e.signatureSent }

  ghost predicate Keeps(its: seq<Item>, e: Encoder) { Books(its, e) && Cursor(its, e) && Quiet(e) && !e.stopped }

  function PhaseOf(e: Encoder, clean: bool): Phase {
    if !clean then Bad
    else if e.stopped then Over
    else if !e.started then Before
    else if e.open.None? then Between(e.blockIndex + 1)
    else Inside(e.blockIndex, e.open.value)
  }

  ghost predicate At(p0: Phase, r: Emitted, clean: bool) { AcceptAll(p0, r.events) == PhaseOf(r.enc, clean) }

  /** The encoder's state fits the items so far, and its events have moved the automaton
      from `p0` to the phase of that state (or to `Bad` if a fragment was stray). */
  ghost predicate Sound(p0: Phase, its: seq<Item>, r: Emitted) {
    Keeps(its, r.enc) && At(p0, r, Clean(its)) && r.enc.started
  }

  /** The signature that `_close_block` would still have to send never exists. */
  lemma NothingLate(e: Encoder)
    requires Quiet(e)
    ensures !PendingSignature(e)
  {
  }

  lemma CloseAt(p0: Phase, r: Emitted, clean: bool)
    requires At(p0, r, clean) && Quiet(r.enc) && r.enc.started && !r.enc.stopped
    ensures At(p0, Close(r), clean) && Quiet(Close(r).enc)
    ensures Close(r).enc == r.enc.(open := None, openCall := if r.enc.open.None? then r.enc.openCall else None)
  {
    NothingLate(r.enc);
    AcceptOne(p0, r.events, BlockStop(r.enc.blockIndex));
  }

  lemma OpenAt(p0: Phase, r: Emitted, b: Block, clean: bool)
    requires At(p0, r, clean) && Quiet(r.enc) && r.enc.started && !r.enc.stopped
    ensures At(p0, Open(r, b), clean) && Quiet(Open(r, b).enc)
    ensures var e := Open(r, b).enc; e.open == Some(KindOf(b)) && e.calls == r.enc.calls && e.started && !e.stopped
  {
    CloseAt(p0, r, clean);
    AcceptOne(p0, Close(r).events, BlockStart(Close(r).enc.blockIndex + 1, b));
  }

  lemma DeltaAt(p0: Phase, r: Emitted, d: Delta, clean: bool)
    requires At(p0, r, clean) && r.enc.started && !r.enc.stopped
    ensures clean && r.enc.open.Some? && Fits(r.enc.open.value, d) ==> At(p0, AddDelta(r, d), true)
    ensures !clean || !r.enc.open.Some? || !Fits(r.enc.open.value, d) ==> At(p0, AddDelta(r, d), false)
  {
    AcceptOne(p0, r.events, BlockDelta(r.enc.blockIndex, d));
  }

  // ---- one item ---------------------------------------------------------------------

  lemma OtherItem(its: seq<Item>, item: Item, e: Encoder)
    requires Books(its, e) && !item.Fragment?
    ensures Books(its + [item], e) && Seen(its + [item]) == Seen(its) && (Clean(its + [item]) <==> Clean(its))
  {
    Snoc(its, item);
  }

  lemma WithinAt(p0: Phase, r: Emitted, b: Block, clean: bool)
    requires At(p0, r, clean) && Quiet(r.enc) && r.enc.started && !r.enc.stopped
    requires !b.ToolBlock? && (r.enc.open == Some(ToolKind) <==> r.enc.openCall.Some?)
    ensures var w := Within(r, b);
      && At(p0, w, clean) && Quiet(w.enc) && w.enc.started && !w.enc.stopped
      && w.enc.open == Some(KindOf(b)) && w.enc.openCall == None && w.enc.calls == r.enc.calls
  {
    if r.enc.open != Some(KindOf(b)) {
      OpenAt(p0, r, b, clean);
      CloseAt(p0, r, clean);
    }
  }

  lemma ContentKeeps(p0: Phase, its: seq<Item>, r: Emitted, item: Item, b: Block, d: Delta)
    requires Sound(p0, its, r)
    requires (item.Text? && b == TextBlock && d == TextDelta(item.text)) ||
             (item.Thinking? && b == ThinkingBlock("") && d == ThinkingDelta(item.text))
    ensures Sound(p0, its + [item], AddDelta(Within(r, b), d))
  {
    var w := Within(r, b);
    WithinAt(p0, r, b, Clean(its));
    DeltaAt(p0, w, d, Clean(its));
    OtherItem(its, item, r.enc);
    Snoc(its, item);
  }

  lemma SignatureAt(p0: Phase, r: Emitted, s: string, clean: bool)
    requires At(p0, r, clean) && Quiet(r.enc) && r.enc.started && !r.enc.stopped
    ensures var n := AddSignature(r, s);
      At(p0, n, clean) && n.enc == r.enc.(signature := n.enc.signature, signatureSent := n.enc.signatureSent) &&
        Quiet(n.enc)
  {
    DeltaAt(p0, r, SignatureDelta(s), clean);
  }

  lemma SignatureKeeps(p0: Phase, its: seq<Item>, r: Emitted, s: string)
    requires Sound(p0, its, r)
    ensures Sound(p0, its + [Signature(s)], AddSignature(r, s))
  {
    SignatureAt(p0, r, s, Clean(its));
    OtherItem(its, Signature(s), r.enc);
    Snoc(its, Signature(s));
  }

  function Interrupted(r: Emitted, id: Id): Emitted {
    if r.enc.open == Some(ToolKind) && r.enc.openCall != Some(id) then Close(r) else r
  }

  lemma InterruptedAt(p0: Phase, its: seq<Item>, r: Emitted, id: Id)
    requires Cursor(its, r.enc) && Quiet(r.enc) && At(p0, r, Clean(its)) && r.enc.started && !r.enc.stopped
    ensures var c := Interrupted(r, id);
      && At(p0, c, Clean(its)) && Quiet(c.enc) && c.enc.started && !c.enc.stopped && c.enc.calls == r.enc.calls
      && c.enc.openCall == (if Current(its) == Some(id) then Some(id) else None)
      && (c.enc.open == Some(ToolKind) <==> c.enc.openCall.Some?)
      && (c.enc.open == Some(ThinkingKind) <==> r.enc.open == Some(ThinkingKind))
  {
    CloseAt(p0, r, Clean(its));
  }

  /** After the opening part the block of the call is open unless it was interrupted. */
  lemma CallOpenedAt(p0: Phase, its: seq<Item>, r: Emitted, call: Call)
    requires Sound(p0, its, r)
    ensures var c := CallOpened(r, call);
      && At(p0, c, Clean(its)) && Quiet(c.enc) && c.enc.started && !c.enc.stopped
      && c.enc.openCall == (if call.id !in Seen(its) || Current(its) == Some(call.id) then Some(call.id) else None)
      && (c.enc.open == Some(ToolKind) <==> c.enc.openCall.Some?)
      && (c.enc.open == Some(ThinkingKind) <==> call.id in r.enc.calls && r.enc.open == Some(ThinkingKind))
      && c.enc.calls == if call.id in r.enc.calls then r.enc.calls else r.enc.calls[call.id := Stored(call.name, "")]
  {
    InterruptedAt(p0, its, r, call.id);
    if call.id !in r.enc.calls { NewCallAt(p0, Interrupted(r, call.id), call, Clean(its)); }
  }

  lemma NewCallAt(p0: Phase, c: Emitted, call: Call, clean: bool)
    requires At(p0, c, clean) && Quiet(c.enc) && c.enc.started && !c.enc.stopped
    ensures var noted := c.(enc := c.enc.(calls := c.enc.calls[call.id := Stored(call.name, "")]));
      var o := Open(noted, ToolBlock(call.id, call.name));
      var n := o.(enc := o.enc.(openCall := Some(call.id)));
      && At(p0, n, clean) && Quiet(n.enc) && n.enc.started && !n.enc.stopped
      && n.enc.open == Some(ToolKind) && n.enc.calls == c.enc.calls[call.id := Stored(call.name, "")]
  {
    OpenAt(p0, c.(enc := c.enc.(calls := c.enc.calls[call.id := Stored(call.name, "")])),
      ToolBlock(call.id, call.name), clean);
  }

  lemma {:induction false} UnseenIsEmpty(its: seq<Item>, id: Id)
    requires id !in Seen(its)
    ensures Gathered(its, id) == ""
    decreases |its|
  {
    if its != [] {
      UnseenIsEmpty(Front(its), id);
    }
  }

  lemma EmptyMerge(previous: string, arguments: string)
    requires Added(previous, arguments) == ""
    ensures arguments != "" ==> Merge(previous, arguments) == previous
  {
    if previous <= arguments {
      assert |arguments| == |previous| && arguments[..|previous|] == previous;
    }
  }

  lemma BooksAfter(its: seq<Item>, e: Encoder, call: Call, after: Encoder)
    requires Books(its, e)
    requires call.id in after.calls &&
      after.calls[call.id].name == (if call.id in e.calls then e.calls[call.id].name else call.name)
    requires var previous := if call.id in e.calls then e.calls[call.id].arguments else "";
      after.calls[call.id].arguments == if call.arguments == "" then previous else Merge(previous, call.arguments)
    requires forall id: Id | id != call.id ::
      (id in after.calls <==> id in e.calls) && (id in e.calls ==> after.calls[id] == e.calls[id])
    ensures Books(its + [Fragment(call)], after)
  {
    Snoc(its, Fragment(call));
    if call.id !in Seen(its) { UnseenIsEmpty(its, call.id); }
  }

  lemma ArgumentsAt(p0: Phase, c: Emitted, call: Call, clean: bool)
    requires At(p0, c, clean) && c.enc.started && !c.enc.stopped && call.id in c.enc.calls
    requires c.enc.open == Some(ToolKind) <==> c.enc.openCall.Some?
    ensures var n := ArgumentsAdded(c, call);
      At(p0, n, clean && (c.enc.openCall.Some? || call.arguments == "" ||
        Added(c.enc.calls[call.id].arguments, call.arguments) == ""))
  {
    if call.arguments != "" {
      var stored := c.enc.calls[call.id];
      var kept := c.(enc :=
        c.enc.(calls := c.enc.calls[call.id := stored.(arguments := Merge(stored.arguments, call.arguments))]));
      assert At(p0, kept, clean);
      if Added(stored.arguments, call.arguments) != "" {
        DeltaAt(p0, kept, JsonDelta(Added(stored.arguments, call.arguments)), clean);
      }
    }
  }

  lemma ArgumentsOnly(c: Emitted, call: Call)
    requires call.id in c.enc.calls
    ensures var n, stored := ArgumentsAdded(c, call).enc, c.enc.calls[call.id];
      && n == c.enc.(calls := n.calls)
      && n.calls ==
        if call.arguments == "" then c.enc.calls
          else c.enc.calls[call.id := stored.(arguments := Merge(stored.arguments, call.arguments))]
  {
  }

  lemma CallAt(p0: Phase, its: seq<Item>, r: Emitted, call: Call)
    requires Sound(p0, its, r)
    ensures At(p0, AddCall(r, call), Clean(its + [Fragment(call)]))
  {
    CallOpenedAt(p0, its, r, call);
    ArgumentsAt(p0, CallOpened(r, call), call, Clean(its));
    Snoc(its, Fragment(call));
    if call.id !in Seen(its) { UnseenIsEmpty(its, call.id); }
  }

  lemma CallKeeps(p0: Phase, its: seq<Item>, r: Emitted, call: Call)
    requires Sound(p0, its, r)
    ensures Keeps(its + [Fragment(call)], AddCall(r, call).enc) && AddCall(r, call).enc.started
  {
    CallOpenedAt(p0, its, r, call);
    ArgumentsOnly(CallOpened(r, call), call);
    Snoc(its, Fragment(call));
    BooksAfter(its, r.enc, call, AddCall(r, call).enc);
  }

  lemma ItemKeeps(p0: Phase, its: seq<Item>, r: Emitted, item: Item)
    requires Sound(p0, its, r)
    ensures Sound(p0, its + [item], AddItem(r, item))
  {
    match item
    case Text(t) => ContentKeeps(p0, its, r, item, TextBlock, TextDelta(t));
    case Thinking(t) => ContentKeeps(p0, its, r, item, ThinkingBlock(""), ThinkingDelta(t));
    case Signature(s) => SignatureKeeps(p0, its, r, s);
    case Fragment(call) =>
      CallKeeps(p0, its, r, call);
      CallAt(p0, its, r, call);
  }

  lemma {:induction false} ItemsKeep(p0: Phase, its: seq<Item>, r: Emitted, items: seq<Item>)
    requires Sound(p0, its, r)
    ensures Sound(p0, its + items, AddItems(r, items))
    decreases |items|
  {
    if items == [] {
      assert its + items == its;
    } else {
      ItemKeeps(p0, its, r, items[0]);
      ItemsKeep(p0, its + [items[0]], AddItem(r, items[0]), items[1..]);
      Regroup(its, [items[0]], items[1..]);
      assert [items[0]] + items[1..] == items;
    }
  }

  // ---- whole streams ----------------------------------------------------------------

  /** All events of feeding these chunks one by one and finishing. */
  function Stream(e: Encoder, includeThinking: bool, chunks: seq<Chunk>): seq<Event>
    decreases |chunks|
  {
    if chunks == [] then Fed(Emitted(e, []), DoneChunk(), includeThinking).events
    else
      var r := Fed(Emitted(e, []), chunks[0], includeThinking);
      r.events + Stream(r.enc, includeThinking, chunks[1..])
  }

  /** What the chunks contribute up to the first one marked done. */
  function AllItems(chunks: seq<Chunk>, includeThinking: bool): seq<Item> {
    if chunks == [] then []
    else if chunks[0].done then Items(chunks[0], includeThinking)
    else Items(chunks[0], includeThinking) + AllItems(chunks[1..], includeThinking)
  }

  lemma StartAt(e: Encoder, usage: Usage, clean: bool)
    requires !e.stopped && (!e.started ==> e.open.None? && e.blockIndex == -1)
    ensures var r := Start(Emitted(e, []), usage);
      At(PhaseOf(e, clean), r, clean) && r.enc.started && !r.enc.stopped
  {
    AcceptOne(PhaseOf(e, clean), [], MessageStart(e.header, Start(Emitted(e, []), usage).enc.inputTokens));
    assert [] + [MessageStart(e.header, Start(Emitted(e, []), usage).enc.inputTokens)] ==
      [MessageStart(e.header, Start(Emitted(e, []), usage).enc.inputTokens)];
  }

  lemma FinishedAt(p0: Phase, r: Emitted, reason: FinishReason, sequence: string, clean: bool)
    requires At(p0, r, clean) && Quiet(r.enc) && r.enc.started && !r.enc.stopped
    ensures At(p0, Finished(r, reason, sequence), clean) && Finished(r, reason, sequence).enc.stopped
  {
    var told := r.(enc := r.enc.(stop := ToStop(reason, sequence), stopSequence := sequence));
    CloseAt(p0, told, clean);
    EndAt(p0, Close(told).events, MessageDelta(Close(told).enc.stop, sequence, Close(told).enc.outputTokens));
  }

  lemma EndAt(p0: Phase, events: seq<Event>, last: Event)
    requires last.MessageDelta?
    ensures AcceptAll(p0, events + [last] + [MessageStop]) == if AcceptAll(p0, events).Between? then Over else Bad
  {
    var p := AcceptAll(p0, events);
    AcceptOne(p0, events, last);
    assert Accept(p, last) == if p.Between? then Closing else Bad;
    AcceptOne(p0, events + [last], MessageStop);
  }

  ghost predicate Ready(its: seq<Item>, e: Encoder) {
    Keeps(its, e) && (!e.started ==> e.open.None? && e.blockIndex == -1)
  }

  /** One call of `feed` moves the automaton from the phase of the old state to the phase
      of the new one, unless a stray fragment has arrived. */
  lemma FedKeeps(its: seq<Item>, e: Encoder, includeThinking: bool, c: Chunk)
    requires Ready(its, e)
    ensures var r, all := Fed(Emitted(e, []), c, includeThinking), its + Items(c, includeThinking);
      && AcceptAll(PhaseOf(e, Clean(its)), r.events) == PhaseOf(r.enc, Clean(all))
      && (if c.done then r.enc.stopped else Ready(all, r.enc))
  {
    var p0, s := PhaseOf(e, Clean(its)), Start(Emitted(e, []), c.usage);
    StartAt(e, c.usage, Clean(its));
    assert Keeps(its, s.enc);
    ItemsKeep(p0, its, s, Items(c, includeThinking));
    if c.done {
      FinishedAt(p0, AddItems(s, Items(c, includeThinking)), c.reason, c.stopSequence,
        Clean(its + Items(c, includeThinking)));
    }
  }

  lemma {:induction false} StoppedIsSilent(e: Encoder, includeThinking: bool, chunks: seq<Chunk>)
    requires e.stopped
    ensures Stream(e, includeThinking, chunks) == []
    decreases |chunks|
  {
    if chunks != [] { StoppedIsSilent(e, includeThinking, chunks[1..]); }
  }

  lemma FinishAddsNothing(includeThinking: bool)
    ensures Items(DoneChunk(), includeThinking) == []
  {
  }

  lemma {:induction false} StreamPhase(its: seq<Item>, e: Encoder, includeThinking: bool, chunks: seq<Chunk>)
    requires Ready(its, e)
    ensures AcceptAll(PhaseOf(e, Clean(its)), Stream(e, includeThinking, chunks)) ==
      if Clean(its + AllItems(chunks, includeThinking)) then Over else Bad
    decreases |chunks|
  {
    if chunks == [] {
      FinishAddsNothing(includeThinking);
      FedKeeps(its, e, includeThinking, DoneChunk());
    } else {
      StreamStep(its, e, includeThinking, chunks[0], chunks[1..]);
      var c := chunks[0];
      if !c.done {
        FedKeeps(its, e, includeThinking, c);
        Regroup(its, Items(c, includeThinking), AllItems(chunks[1..], includeThinking));
        StreamPhase(its + Items(c, includeThinking), Fed(Emitted(e, []), c, includeThinking).enc, includeThinking,
          chunks[1..]);
      }
    }
  }

  lemma StreamStep(its: seq<Item>, e: Encoder, includeThinking: bool, c: Chunk, rest: seq<Chunk>)
    requires Ready(its, e)
    ensures var r, all := Fed(Emitted(e, []), c, includeThinking), Clean(its + Items(c, includeThinking));
      AcceptAll(PhaseOf(e, Clean(its)), r.events + Stream(r.enc, includeThinking, rest)) ==
        if c.done then (if all then Over else Bad)
          else AcceptAll(PhaseOf(r.enc, all), Stream(r.enc, includeThinking, rest))
  {
    var r := Fed(Emitted(e, []), c, includeThinking);
    FedKeeps(its, e, includeThinking, c);
    AcceptTwice(PhaseOf(e, Clean(its)), r.events, Stream(r.enc, includeThinking, rest));
    if c.done { StoppedIsSilent(r.enc, includeThinking, rest); }
  }

  /** Main result: the emitted events are one legal Messages stream exactly when no
      fragment adds arguments to an interrupted tool call. */
  lemma StreamIsLegalIff(header: Header, includeThinking: bool, chunks: seq<Chunk>)
    ensures Legal(Stream(Fresh(header), includeThinking, chunks)) <==> Clean(AllItems(chunks, includeThinking))
  {
    var e := Fresh(header);
    assert Ready([], e);
    StreamPhase([], e, includeThinking, chunks);
    assert [] + AllItems(chunks, includeThinking) == AllItems(chunks, includeThinking);
  }

  lemma ContiguousStreamIsLegal(header: Header, includeThinking: bool, chunks: seq<Chunk>)
    requires Contiguous(AllItems(chunks, includeThinking))
    ensures Legal(Stream(Fresh(header), includeThinking, chunks))
  {
    ContiguousIsClean(AllItems(chunks, includeThinking));
    StreamIsLegalIff(header, includeThinking, chunks);
  }

  lemma InterruptedFragmentIsStray(a: Call, b: Call, c: Call)
    requires a.id == c.id != b.id && c.arguments != "" && Added(a.arguments, c.arguments) != ""
    ensures !Clean([] + [Fragment(a)] + [Fragment(b)] + [Fragment(c)])
  {
    var none: seq<Item> := [];
    var one, two := none + [Fragment(a)], none + [Fragment(a)] + [Fragment(b)];
    Snoc(none, Fragment(a));
    Snoc(one, Fragment(b));
    Snoc(two, Fragment(c));
    assert Seen(one) == [] + [a.id] && Seen(two) == Seen(one) + [b.id] && a.id in Seen(two);
    assert Gathered(one, a.id) == a.arguments by { assert Merge("", a.arguments) == a.arguments; }
    assert Gathered(two, a.id) == a.arguments;
    assert Current(two) == Some(b.id);
    assert Stray(two, Fragment(c));
  }

  predicate IsFragmentOf(item: Item, id: Id) { item.Fragment? && item.call.id == id }

  /** Text, thinking or another tool call. */
  predicate Interrupts(item: Item, id: Id) { item.Text? || item.Thinking? || (item.Fragment? && item.call.id != id) }

  ghost predicate BrokenOff(its: seq<Item>, id: Id) {
    exists i, j | 0 <= i < j < |its| :: IsFragmentOf(its[i], id) && Interrupts(its[j], id)
  }

  /** A tool call that was interrupted comes back with arguments that add something. */
  ghost predicate ComesBack(before: seq<Item>, item: Item) {
    && item.Fragment? && BrokenOff(before, item.call.id)
    && item.call.arguments != "" && Added(Gathered(before, item.call.id), item.call.arguments) != ""
  }

  lemma InterruptedMore(its: seq<Item>, id: Id)
    requires its != []
    ensures BrokenOff(its, id) <==> BrokenOff(Front(its), id) || (id in Seen(Front(its)) && Interrupts(Final(its), id))
  {
    var before := Front(its);
    SeenMeans(before, id);
    assert forall i | 0 <= i < |before| :: before[i] == its[i];
    if BrokenOff(before, id) {
      var i, j :| 0 <= i < j < |before| && IsFragmentOf(before[i], id) && Interrupts(before[j], id);
      assert IsFragmentOf(its[i], id) && Interrupts(its[j], id);
    }
    if id in Seen(before) && Interrupts(Final(its), id) {
      var i :| 0 <= i < |before| && before[i].Fragment? && before[i].call.id == id;
      assert IsFragmentOf(its[i], id) && Interrupts(its[|before|], id);
    }
    if BrokenOff(its, id) {
      var i, j :| 0 <= i < j < |its| && IsFragmentOf(its[i], id) && Interrupts(its[j], id);
      assert IsFragmentOf(before[i], id);
      if j < |before| { assert Interrupts(before[j], id); }
    }
  }

  lemma {:induction false} CurrentIff(its: seq<Item>, id: Id)
    ensures Current(its) == Some(id) <==> id in Seen(its) && !BrokenOff(its, id)
    decreases |its|
  {
    if its != [] {
      CurrentIff(Front(its), id);
      InterruptedMore(its, id);
      if id !in Seen(Front(its)) { NotSeenNotBrokenOff(Front(its), id); }
    }
  }

  lemma NotSeenNotBrokenOff(its: seq<Item>, id: Id)
    requires id !in Seen(its)
    ensures !BrokenOff(its, id)
  {
    SeenMeans(its, id);
  }

  lemma StrayComesBack(its: seq<Item>, item: Item)
    ensures Stray(its, item) <==> ComesBack(its, item)
  {
    if item.Fragment? {
      CurrentIff(its, item.call.id);
      if item.call.id !in Seen(its) { NotSeenNotBrokenOff(its, item.call.id); }
    }
  }

  lemma {:induction false} CleanIff(its: seq<Item>)
    ensures Clean(its) <==> forall k | 0 <= k < |its| :: !ComesBack(its[..k], its[k])
    decreases |its|
  {
    if its != [] {
      var before, n := Front(its), |its| - 1;
      CleanIff(before);
      StrayComesBack(before, Final(its));
      assert its[..n] == before && its[n] == Final(its);
      forall k | 0 <= k < n ensures its[..k] == before[..k] && its[k] == before[k] { }
    }
  }

  /** In terms of the fragments alone, for any chunks: the stream is illegal exactly when some
      tool call comes back after text, thinking or another call, and adds arguments. */
  lemma AlternatingCallsAreIllegal(header: Header, includeThinking: bool, chunks: seq<Chunk>)
    ensures var its := AllItems(chunks, includeThinking);
      !Legal(Stream(Fresh(header), includeThinking, chunks)) <==>
        exists k | 0 <= k < |its| :: ComesBack(its[..k], its[k])
  {
    StreamIsLegalIff(header, includeThinking, chunks);
    CleanIff(AllItems(chunks, includeThinking));
  }

  /** Such a stream: three fragments of two calls in one chunk, whatever they say. */
  lemma ThreeFragmentsAreIllegal(header: Header, a: Call, b: Call, c: Call)
    requires a.id == c.id != b.id && c.arguments != "" && Added(a.arguments, c.arguments) != ""
    ensures !Legal(Stream(Fresh(header), false, [DoneChunk().(calls := [a, b, c])]))
  {
    var chunk := DoneChunk().(calls := [a, b, c]);
    StreamIsLegalIff(header, false, [chunk]);
    InterruptedFragmentIsStray(a, b, c);
    assert [c][1..] == [] && [b, c][1..] == [c] && [a, b, c][1..] == [b, c];
    assert Fragments([c]) == [Fragment(c)];
    assert Fragments([b, c]) == [Fragment(b)] + [Fragment(c)];
    assert Fragments([a, b, c]) == [Fragment(a)] + ([Fragment(b)] + [Fragment(c)]);
    assert AllItems([chunk], false) == [] + [Fragment(a)] + [Fragment(b)] + [Fragment(c)];
  }
}
