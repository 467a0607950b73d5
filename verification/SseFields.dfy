/** The data of a server-sent event in general: any number of fields, and any mixture of the
    three line ends (core/upstream_response.py, `sse_data`; section 9.2.6 of the WHATWG HTML
    Living Standard). */
module SseFields {
  import opened Basics
  import opened Sequences
  import opened EventStream

  /** A line of an event, as somebody wrote it. `Tight` values do not start with a space. */
  datatype Field = Bare | Spaced(value: Bytes) | Tight(value: Bytes) | Foreign(line: Bytes)

  /** `Missing` ends an event that was cut off within its last line. */
  datatype End = Lf | Cr | CrLf | Missing

  datatype Line = Line(field: Field, end: End)

  /** The bytes of "data", ':' and ' ' (US-ASCII). */
  function Printed(f: Field): Bytes {
    match f
    case Bare => [100, 97, 116, 97]
    case Spaced(v) => [100, 97, 116, 97, 58, 32] + v
    case Tight(v) => [100, 97, 116, 97, 58] + v
    case Foreign(line) => line
  }

  function Ended(e: End): Bytes {
    match e
    case Lf => [10]
    case Cr => [13]
    case CrLf => [13, 10]
    case Missing => []
  }

  predicate FieldOk(f: Field) {
    && Free(Printed(f), {LF, CR}) && (f.Tight? ==> !([32] <= f.value))
    && (f.Foreign? ==> f.line != [100, 97, 116, 97] && !([100, 97, 116, 97, 58] <= f.line))
  }

  /** A CR before an empty line that ends in LF would be read as one CR LF. Only a last line that
      is not empty can lack its end. */
  predicate LinesOk(lines: seq<Line>) {
    lines == [] ||
    (FieldOk(lines[0].field) && LinesOk(lines[1..]) &&
     (lines[0].end == Missing ==> |lines| == 1 && lines[0].field != Foreign([])) &&
     (lines[0].end == Cr && |lines| > 1 ==> lines[1].field != Foreign([]) || lines[1].end != Lf))
  }

  function Event(lines: seq<Line>): Bytes {
    if lines == [] then [] else Printed(lines[0].field) + (Ended(lines[0].end) + Event(lines[1..]))
  }

  /** The values of the data fields, in order. */
  function Data(lines: seq<Line>): seq<Bytes> {
    if lines == [] then []
    else (match lines[0].field
          case Bare => [[]]
          case Spaced(v) => [v]
          case Tight(v) => [v]
          case Foreign(_) => []) + Data(lines[1..])
  }

  function Texts(lines: seq<Line>): seq<Bytes> {
    if lines == [] then [] else [Printed(lines[0].field)] + Texts(lines[1..])
  }

  lemma EventStarts(lines: seq<Line>)
    requires LinesOk(lines) && lines != []
    ensures Event(lines) != []
    ensures Event(lines)[0] == 10 <==> lines[0].field == Foreign([]) && lines[0].end == Lf
  {
    var text := Printed(lines[0].field);
    if text != [] { assert Event(lines)[0] == text[0]; }
  }

  /** One line and its end come off the front. */
  lemma SplitOne(text: Bytes, end: End, rest: Bytes)
    requires Free(text, {LF, CR}) && (end == Cr ==> rest == [] || rest[0] != 10)
    requires end == Missing ==> text != [] && rest == []
    ensures SplitLines(text + (Ended(end) + rest)) == [text] + SplitLines(rest)
  {
    SplitScan(text, Ended(end) + rest, []);
    assert [] + text == text;
    var s := Ended(end) + rest;
    match end
    case Lf => assert s[1..] == rest;
    case Cr => assert s[1..] == rest;
    case CrLf => assert s[2..] == rest;
    case Missing => assert s == rest;
  }

  lemma {:induction false} LinesSplit(lines: seq<Line>)
    requires LinesOk(lines)
    ensures SplitLines(Event(lines)) == Texts(lines)
    decreases |lines|
  {
    if lines != [] {
      var rest := lines[1..];
      if rest != [] { EventStarts(rest); }
      SplitOne(Printed(lines[0].field), lines[0].end, Event(rest));
      LinesSplit(rest);
    }
  }

  lemma FieldMeans(f: Field)
    requires FieldOk(f)
    ensures IsData(Printed(f)) <==> !f.Foreign?
    ensures f.Bare? ==> ValueOf(Printed(f)) == []
    ensures f.Spaced? || f.Tight? ==> ValueOf(Printed(f)) == f.value
  {
    match f
    case Bare =>
    case Spaced(v) => assert Printed(f)[..5] == DATA_PREFIX && Printed(f)[5..] == [32] + v && ([32] + v)[1..] == v;
    case Tight(v) => assert Printed(f)[..5] == DATA_PREFIX && Printed(f)[5..] == v;
    case Foreign(_) =>
  }

  lemma {:induction false} ValuesAreData(lines: seq<Line>)
    requires LinesOk(lines)
    ensures Values(Texts(lines)) == Data(lines)
    decreases |lines|
  {
    if lines != [] {
      FieldMeans(lines[0].field);
      ValuesCons(Printed(lines[0].field), Texts(lines[1..]));
      ValuesAreData(lines[1..]);
    }
  }

  /** Main result: of every event, however its lines end, the data are the values of its data
      fields, joined by line feeds; without a data field there are none. One space after the
      colon belongs to the field name, all others to the value. */
  lemma DataMeans(lines: seq<Line>)
    requires LinesOk(lines)
    ensures DataOf(Event(lines)) == if Data(lines) == [] then None else Some(Joined(Data(lines), [10]))
  {
    LinesSplit(lines);
    ValuesAreData(lines);
  }
}
