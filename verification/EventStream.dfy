/** Reassembly of server-sent events from network chunks (core/upstream_response.py) and
    the frames the other side prints (core/messages_protocol.py). The format is section
    9.2.6 of the WHATWG HTML Living Standard, "Interpreting an event stream". */
module EventStream {
  import opened Basics
  import opened Sequences

  newtype Byte = b: int | 0 <= b < 256

  type Bytes = seq<Byte>

  const LF: Byte := 10
  const CR: Byte := 13
  const SPACE: Byte := 32
  const EVENT_PREFIX: Bytes := [101, 118, 101, 110, 116, 58, 32] // "event: "
  const DATA_FIELD: Bytes := [100, 97, 116, 97] // "data"
  const DATA_PREFIX: Bytes := [100, 97, 116, 97, 58] // "data:"

  function Flatten(parts: seq<Bytes>): Bytes {
    if parts == [] then [] else parts[0] + Flatten(parts[1..])
  }

  function First(s: Bytes, stops: set<Byte>): (k: nat)
    ensures k <= |s| && (k < |s| ==> s[k] in stops)
    ensures forall j | 0 <= j < k :: s[j] !in stops
  {
    if s == [] || s[0] in stops then 0 else 1 + First(s[1..], stops)
  }

  predicate Free(s: Bytes, stops: set<Byte>) { forall j | 0 <= j < |s| :: s[j] !in stops }

  // ---- transport lines and events ---------------------------------------------------

  /** The pieces of `pending + s` that end in LF, delimiters kept, and what follows the
      last LF. `pending` holds no LF. */
  function LinesFrom(s: Bytes, pending: Bytes): seq<Bytes>
    decreases |s|
  {
    if s == [] then (if pending == [] then [] else [pending])
    else if s[0] == LF then [pending + [LF]] + LinesFrom(s[1..], [])
    else LinesFrom(s[1..], pending + [s[0]])
  }

  function Lines(s: Bytes): seq<Bytes> { LinesFrom(s, []) }

  predicate BlankLine(line: Bytes) { line == [LF] || line == [CR, LF] }

  /** Groups lines into events; `pending` is the event being collected. */
  function Grouped(lines: seq<Bytes>, pending: Bytes): seq<Bytes>
    decreases |lines|
  {
    if lines == [] then (if pending == [] then [] else [pending])
    else if BlankLine(lines[0]) then [pending + lines[0]] + Grouped(lines[1..], [])
    else Grouped(lines[1..], pending + lines[0])
  }

  function EventsOf(s: Bytes): seq<Bytes> { Grouped(Lines(s), []) }

  lemma {:induction false} Scan(part: Bytes, rest: Bytes, pending: Bytes)
    requires Free(part, {LF})
    ensures LinesFrom(part + rest, pending) == LinesFrom(rest, pending + part)
    decreases |part|
  {
    if part == [] {
      assert part + rest == rest && pending + part == pending;
    } else {
      Scan(part[1..], rest, pending + [part[0]]);
      assert (part + rest)[1..] == part[1..] + rest;
      assert pending + [part[0]] + part[1..] == pending + part;
    }
  }

  lemma LinesCons(line: Bytes, rest: Bytes)
    requires Free(line, {LF})
    ensures Lines(line + [LF] + rest) == [line + [LF]] + Lines(rest)
  {
    assert line + [LF] + rest == line + ([LF] + rest);
    Scan(line, [LF] + rest, []);
    assert [] + line == line && ([LF] + rest)[1..] == rest;
  }

  /** Splits on LF across the cuts between chunks, and mirrors every chunk to the spool. */
  method IterResponseLines(chunks: seq<Bytes>) returns (lines: seq<Bytes>, spool: Bytes)
    ensures lines == Lines(Flatten(chunks)) && spool == Flatten(chunks)
  {
    lines, spool := [], [];
    var buffer: Bytes, rest := [], chunks;
    while rest != []
      invariant Free(buffer, {LF})
      invariant lines + LinesFrom(Flatten(rest), buffer) == Lines(Flatten(chunks))
      invariant spool + Flatten(rest) == Flatten(chunks)
      decreases |rest|
    {
      spool := spool + rest[0];
      var complete;
      complete, buffer := CutLines(buffer, rest[0], Flatten(rest[1..]));
      lines := lines + complete;
      rest := rest[1..];
    }
    if buffer != [] { lines := lines + [buffer]; }
  }

  /** One chunk: takes every complete line off the front of the buffer. */
  method CutLines(before: Bytes, raw: Bytes, ghost later: Bytes) returns (lines: seq<Bytes>, buffer: Bytes)
    requires Free(before, {LF})
    ensures Free(buffer, {LF})
    ensures LinesFrom(raw + later, before) == lines + LinesFrom(later, buffer)
  {
    lines, buffer := [], before + raw;
    Buffered(before, raw + later);
    Regroup(before, raw, later);
    var k := First(buffer, {LF});
    while k < |buffer|
      invariant k == First(buffer, {LF})
      invariant lines + Lines(buffer + later) == LinesFrom(raw + later, before)
      decreases |buffer|
    {
      var line, rest := buffer[..k], buffer[k + 1..];
      assert buffer == line + [LF] + rest;
      CutLine(lines, line, rest, later);
      lines, buffer := lines + [line + [LF]], rest;
      k := First(buffer, {LF});
    }
    Buffered(buffer, later);
  }

  lemma Buffered(buffer: Bytes, later: Bytes)
    requires Free(buffer, {LF})
    ensures Lines(buffer + later) == LinesFrom(later, buffer)
  {
    Scan(buffer, later, []);
    assert [] + buffer == buffer;
  }

  lemma CutLine(lines: seq<Bytes>, line: Bytes, rest: Bytes, later: Bytes)
    requires Free(line, {LF})
    ensures lines + Lines(line + [LF] + rest + later) == lines + [line + [LF]] + Lines(rest + later)
  {
    Regroup(line + [LF], rest, later);
    LinesCons(line, rest + later);
    Regroup(lines, [line + [LF]], Lines(rest + later));
  }

  method IterSseEvents(chunks: seq<Bytes>) returns (events: seq<Bytes>, spool: Bytes)
    ensures events == EventsOf(Flatten(chunks)) && spool == Flatten(chunks)
  {
    var lines;
    lines, spool := IterResponseLines(chunks);
    events := [];
    var event: Bytes, rest := [], lines;
    while rest != []
      invariant events + Grouped(rest, event) == Grouped(lines, [])
      decreases |rest|
    {
      event := event + rest[0];
      if BlankLine(rest[0]) {
        events, event := events + [event], [];
      }
      rest := rest[1..];
    }
    if event != [] { events := events + [event]; }
  }

  // ---- for arbitrary bytes ----------------------------------------------------------

  lemma {:induction false} FlattenAppend(a: seq<Bytes>, b: seq<Bytes>)
    ensures Flatten(a + b) == Flatten(a) + Flatten(b)
    decreases |a|
  {
    if a == [] {
      assert a + b == b;
    } else {
      FlattenAppend(a[1..], b);
      assert (a + b)[1..] == a[1..] + b;
    }
  }

  lemma {:induction false} LinesConcat(s: Bytes, pending: Bytes)
    ensures Flatten(LinesFrom(s, pending)) == pending + s
    decreases |s|
  {
    if s == [] {
      assert pending != [] ==> [pending][1..] == [];
    } else if s[0] == LF {
      LinesConcat(s[1..], []);
      assert LinesFrom(s, pending)[1..] == LinesFrom(s[1..], []);
      assert pending + [LF] + s[1..] == pending + s;
    } else {
      LinesConcat(s[1..], pending + [s[0]]);
      assert pending + [s[0]] + s[1..] == pending + s;
    }
  }

  lemma {:induction false} GroupedConcat(lines: seq<Bytes>, pending: Bytes)
    ensures Flatten(Grouped(lines, pending)) == pending + Flatten(lines)
    decreases |lines|
  {
    if lines != [] {
      var rest := if BlankLine(lines[0]) then [] else pending + lines[0];
      GroupedConcat(lines[1..], rest);
      if BlankLine(lines[0]) {
        assert Grouped(lines, pending)[1..] == Grouped(lines[1..], []);
      }
    }
  }

  /** No byte is lost, added or moved: the events concatenate to the input. Chunk cuts
      cannot matter, since the two methods return functions of the concatenation. */
  lemma EventsConcat(s: Bytes)
    ensures Flatten(EventsOf(s)) == s
  {
    LinesConcat(s, []);
    GroupedConcat(Lines(s), []);
  }

  predicate Terminated(line: Bytes) { line != [] && line[|line| - 1] == LF }

  /** Lines as they come off the wire: LF at the end and nowhere else; only the last line
      may lack it. */
  predicate Transport(lines: seq<Bytes>) {
    lines == [] ||
    (lines[0] != [] && Free(lines[0][..|lines[0]| - 1], {LF}) &&
     (Terminated(lines[0]) || |lines| == 1) && Transport(lines[1..]))
  }

  lemma {:induction false} LinesAreTransport(s: Bytes, pending: Bytes)
    requires Free(pending, {LF})
    ensures Transport(LinesFrom(s, pending))
    decreases |s|
  {
    if s == [] {
    } else if s[0] == LF {
      LinesAreTransport(s[1..], []);
      assert (pending + [LF])[..|pending|] == pending;
      assert LinesFrom(s, pending)[1..] == LinesFrom(s[1..], []);
    } else {
      LinesAreTransport(s[1..], pending + [s[0]]);
    }
  }

  lemma {:induction false} LinesInvert(lines: seq<Bytes>)
    requires Transport(lines)
    ensures Lines(Flatten(lines)) == lines
    decreases |lines|
  {
    if lines != [] {
      var line, rest := lines[0], lines[1..];
      LinesInvert(rest);
      if Terminated(line) {
        LinesCons(line[..|line| - 1], Flatten(rest));
        assert line[..|line| - 1] + [LF] == line;
        assert [line] + rest == lines;
      } else {
        assert Free(line, {LF}) && line + [] == line && [] + line == line;
        Scan(line, [], []);
      }
    }
  }

  predicate NoBlank(lines: seq<Bytes>) { forall i | 0 <= i < |lines| :: !BlankLine(lines[i]) }

  /** An event has no blank line but its last one, and only the final event may lack that. */
  predicate WellCut(event: Bytes, final: bool) {
    var lines := Lines(event);
    lines != [] && NoBlank(lines[..|lines| - 1]) && (final || BlankLine(lines[|lines| - 1]))
  }

  predicate AllWellCut(events: seq<Bytes>) {
    events == [] || (WellCut(events[0], |events| == 1) && AllWellCut(events[1..]))
  }

  lemma CutHere(before: seq<Bytes>, line: Bytes, final: bool)
    requires NoBlank(before) && Transport(before + [line]) && (final || BlankLine(line))
    ensures WellCut(Flatten(before) + line, final)
  {
    LinesInvert(before + [line]);
    FlattenAppend(before, [line]);
    assert Flatten([line]) == line + Flatten([]) == line;
    assert (before + [line])[..|before|] == before;
  }

  lemma {:induction false} TransportSplit(a: seq<Bytes>, b: seq<Bytes>)
    requires Transport(a + b)
    ensures Transport(a) && Transport(b)
    decreases |a|
  {
    if a == [] {
      assert a + b == b;
    } else {
      assert (a + b)[1..] == a[1..] + b;
      TransportSplit(a[1..], b);
    }
  }

  lemma {:induction false} GroupedWellCut(before: seq<Bytes>, lines: seq<Bytes>)
    requires NoBlank(before) && Transport(before + lines)
    ensures AllWellCut(Grouped(lines, Flatten(before)))
    decreases |lines|
  {
    if lines == [] {
      if before != [] {
        var n := |before| - 1;
        assert before + lines == before == before[..n] + [before[n]];
        FlattenAppend(before[..n], [before[n]]);
        assert Flatten([before[n]]) == before[n] + Flatten([]) == before[n];
        CutHere(before[..n], before[n], true);
      }
    } else {
      var line, rest, upTo := lines[0], lines[1..], before + [lines[0]];
      assert before + lines == upTo + rest;
      FlattenAppend(before, [line]);
      assert Flatten([line]) == line + Flatten([]) == line;
      if BlankLine(line) {
        TransportSplit(upTo, rest);
        CutHere(before, line, false);
        assert [] + rest == rest;
        GroupedWellCut([], rest);
        assert Grouped(lines, Flatten(before))[1..] == Grouped(rest, []);
        if Grouped(rest, []) == [] { CutHere(before, line, true); }
      } else {
        GroupedWellCut(upTo, rest);
      }
    }
  }

  /** Events are cut exactly at blank lines, wherever the chunk boundaries fell. */
  lemma EventsWellCut(s: Bytes)
    ensures AllWellCut(EventsOf(s))
  {
    LinesAreTransport(s, []);
    assert [] + Lines(s) == Lines(s);
    GroupedWellCut([], Lines(s));
  }

  // ---- data fields ------------------------------------------------------------------

  /** Python's `bytes.splitlines`: LF, CR and CR LF end a line and are dropped. */
  function SplitFrom(s: Bytes, pending: Bytes): seq<Bytes>
    decreases |s|
  {
    if s == [] then (if pending == [] then [] else [pending])
    else if s[0] == CR && |s| > 1 && s[1] == LF then [pending] + SplitFrom(s[2..], [])
    else if s[0] == LF || s[0] == CR then [pending] + SplitFrom(s[1..], [])
    else SplitFrom(s[1..], pending + [s[0]])
  }

  function SplitLines(s: Bytes): seq<Bytes> { SplitFrom(s, []) }

  predicate IsData(line: Bytes) { line == DATA_FIELD || DATA_PREFIX <= line }

  function ValueOf(line: Bytes): Bytes {
    var value := if DATA_PREFIX <= line then line[5..] else [];
    if [SPACE] <= value then value[1..] else value
  }

  function Values(lines: seq<Bytes>): seq<Bytes> {
    if lines == [] then []
    else (if IsData(lines[0]) then [ValueOf(lines[0])] else []) + Values(lines[1..])
  }

  function DataOf(event: Bytes): Option<Bytes> {
    var values := Values(SplitLines(event));
    if values == [] then None else Some(Joined(values, [LF]))
  }

  method SseData(event: Bytes) returns (data: Option<Bytes>)
    ensures data == DataOf(event)
  {
    var rest, values: seq<Bytes> := SplitLines(event), [];
    while rest != []
      invariant values + Values(rest) == Values(SplitLines(event))
      decreases |rest|
    {
      var line := rest[0];
      Regroup(values, if IsData(line) then [ValueOf(line)] else [], Values(rest[1..]));
      if IsData(line) {
        var value := if DATA_PREFIX <= line then line[5..] else [];
        values := values + [if [SPACE] <= value then value[1..] else value];
      }
      rest := rest[1..];
    }
    assert values + Values(rest) == values;
    data := if values == [] then None else Some(Joined(values, [LF]));
  }

  lemma {:induction false} SplitScan(part: Bytes, rest: Bytes, pending: Bytes)
    requires Free(part, {LF, CR})
    ensures SplitFrom(part + rest, pending) == SplitFrom(rest, pending + part)
    decreases |part|
  {
    if part == [] {
      assert part + rest == rest && pending + part == pending;
    } else {
      SplitScan(part[1..], rest, pending + [part[0]]);
      assert (part + rest)[1..] == part[1..] + rest;
      assert pending + [part[0]] + part[1..] == pending + part;
    }
  }

  lemma SplitLinesCons(line: Bytes, rest: Bytes)
    requires Free(line, {LF, CR})
    ensures SplitLines(line + [LF] + rest) == [line] + SplitLines(rest)
  {
    assert line + [LF] + rest == line + ([LF] + rest);
    SplitScan(line, [LF] + rest, []);
    assert [] + line == line && ([LF] + rest)[1..] == rest;
  }

  // ---- print, chop, reassemble ------------------------------------------------------

  /** One printed event: its type and its payload, both on one line. */
  datatype Message = Message(kind: Bytes, payload: Bytes)

  predicate OneLine(m: Message) { Free(m.kind, {LF, CR}) && Free(m.payload, {LF, CR}) }

  function EventLine(m: Message): Bytes { EVENT_PREFIX + m.kind }

  function DataLine(m: Message): Bytes { DATA_PREFIX + [SPACE] + m.payload }

  /** What `sse_event_bytes` prints. */
  function Frame(m: Message): Bytes { Block(EventLine(m), DataLine(m), []) }

  /** Two lines and a blank one, then `rest`. */
  function Block(e: Bytes, d: Bytes, rest: Bytes): Bytes { e + [LF] + (d + [LF] + ([] + [LF] + rest)) }

  function Frames(ms: seq<Message>): seq<Bytes> {
    if ms == [] then [] else [Frame(ms[0])] + Frames(ms[1..])
  }

  function Payloads(ms: seq<Message>): seq<Option<Bytes>> {
    if ms == [] then [] else [Some(ms[0].payload)] + Payloads(ms[1..])
  }

  function DataOfAll(events: seq<Bytes>): seq<Option<Bytes>> {
    if events == [] then [] else [DataOf(events[0])] + DataOfAll(events[1..])
  }

  lemma GroupedCons(line: Bytes, rest: seq<Bytes>, pending: Bytes)
    ensures Grouped([line] + rest, pending) ==
      if BlankLine(line) then [pending + line] + Grouped(rest, []) else Grouped(rest, pending + line)
  {
    assert ([line] + rest)[1..] == rest;
  }

  lemma ValuesCons(line: Bytes, rest: seq<Bytes>)
    ensures Values([line] + rest) == (if IsData(line) then [ValueOf(line)] else []) + Values(rest)
  {
    assert ([line] + rest)[1..] == rest;
  }

  lemma ThreeLines(a: Bytes, b: Bytes, blank: Bytes, rest: seq<Bytes>)
    requires !BlankLine(a) && !BlankLine(b) && BlankLine(blank)
    ensures Grouped([a] + ([b] + ([blank] + rest)), []) == [a + (b + blank)] + Grouped(rest, [])
  {
    GroupedCons(a, [b] + ([blank] + rest), []);
    GroupedCons(b, [blank] + rest, [] + a);
    GroupedCons(blank, rest, [] + a + b);
    assert [] + a + b + blank == a + (b + blank);
  }

  lemma BlockLines(e: Bytes, d: Bytes, rest: Bytes)
    requires Free(e, {LF}) && Free(d, {LF})
    ensures Lines(Block(e, d, rest)) == [e + [LF]] + ([d + [LF]] + ([[] + [LF]] + Lines(rest)))
  {
    LinesCons(e, d + [LF] + ([] + [LF] + rest));
    LinesCons(d, [] + [LF] + rest);
    LinesCons([], rest);
  }

  lemma BlockEvents(e: Bytes, d: Bytes, rest: Bytes)
    requires Free(e, {LF}) && Free(d, {LF}) && |e| > 1 && |d| > 1
    ensures EventsOf(Block(e, d, rest)) == [Block(e, d, [])] + EventsOf(rest)
  {
    BlockLines(e, d, rest);
    ThreeLines(e + [LF], d + [LF], [] + [LF], Lines(rest));
    assert [] + [LF] + [] == [] + [LF];
  }

  lemma BlockData(e: Bytes, d: Bytes)
    requires Free(e, {LF, CR}) && Free(d, {LF, CR}) && !IsData(e) && IsData(d)
    ensures DataOf(Block(e, d, [])) == Some(ValueOf(d))
  {
    SplitLinesCons(e, d + [LF] + ([] + [LF] + []));
    SplitLinesCons(d, [] + [LF] + []);
    SplitLinesCons([], []);
    ValuesCons(e, [d] + ([[]] + []));
    ValuesCons(d, [[]] + []);
    ValuesCons([], []);
    assert Values(SplitLines(Block(e, d, []))) == [ValueOf(d)];
  }

  lemma FrameReturns(m: Message, rest: Bytes)
    requires OneLine(m)
    ensures EventsOf(Frame(m) + rest) == [Frame(m)] + EventsOf(rest)
    ensures DataOf(Frame(m)) == Some(m.payload)
  {
    var e, d := EventLine(m), DataLine(m);
    assert Frame(m) + rest == Block(e, d, rest);
    BlockEvents(e, d, rest);
    assert e[0] != DATA_FIELD[0] && d[..5] == DATA_PREFIX && d[5..] == [SPACE] + m.payload;
    BlockData(e, d);
  }

  /** Main result: however the printed frames are cut into chunks, the events found are
      the frames and their data are the payloads, in order. */
  lemma {:induction false} PrintedFramesReturn(ms: seq<Message>)
    requires forall i | 0 <= i < |ms| :: OneLine(ms[i])
    ensures EventsOf(Flatten(Frames(ms))) == Frames(ms)
    ensures DataOfAll(Frames(ms)) == Payloads(ms)
    decreases |ms|
  {
    if ms != [] {
      PrintedFramesReturn(ms[1..]);
      FrameReturns(ms[0], Flatten(Frames(ms[1..])));
      assert Frames(ms)[1..] == Frames(ms[1..]);
    }
  }

  /** The client's side in one call: any chunks that concatenate to the printed frames. */
  method ReadPrinted(ghost ms: seq<Message>, chunks: seq<Bytes>) returns (data: seq<Option<Bytes>>)
    requires forall i | 0 <= i < |ms| :: OneLine(ms[i])
    requires Flatten(chunks) == Flatten(Frames(ms))
    ensures data == Payloads(ms)
  {
    PrintedFramesReturn(ms);
    var events, _ := IterSseEvents(chunks);
    data := [];
    while events != []
      invariant data + DataOfAll(events) == Payloads(ms)
      decreases |events|
    {
      var payload := SseData(events[0]);
      data, events := data + [payload], events[1..];
    }
  }
}
