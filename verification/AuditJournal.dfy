/** The append-only audit journal and its index of byte offsets (core/audit_log.py).

    JSON is a pair of functions: `encode` prints a record on one line, `parse` reads a line
    back. Daily journal files are byte sequences, the SQLite table `events` is a map. */
module AuditJournal {
  import opened Basics
  import opened EventStream

  datatype EventId = EventId(n: nat)

  /** A record: its id, and everything else it holds. */
  datatype Record = Record(id: EventId, rest: nat)

  /** `Undecodable` bytes raise UnicodeDecodeError, which the callers do not catch;
      `Foreign` is valid JSON without an event id. */
  datatype Parsed = Undecodable | Malformed | Foreign | Valid(record: Record)

  datatype Path = Path(stem: nat, day: nat)

  datatype Loc = Loc(path: Path, offset: nat, length: nat)

  datatype Json = Json(encode: Record -> Bytes, parse: Bytes -> Parsed)

  /** `hidden` holds the days whose partition state is "deleting". */
  datatype Journal = Journal(files: map<Path, Bytes>, events: map<EventId, Loc>, hidden: set<nat>)

  function Printed(j: Json, r: Record): Bytes { j.encode(r) + [LF] }

  ghost predicate RoundTrips(j: Json) {
    forall r: Record :: Free(j.encode(r), {LF}) && j.parse(Printed(j, r)) == Valid(r)
  }

  function FileOf(files: map<Path, Bytes>, p: Path): Bytes { if p in files then files[p] else [] }

  // ---- what a fresh line scan finds -------------------------------------------------

  predicate IsEvent(j: Json, line: Bytes, id: EventId) { j.parse(line).Valid? && j.parse(line).record.id == id }

  /** Some line that starts at `offset` is a record of event `id`; `at` is where `lines` start. */
  predicate HasRow(lines: seq<Bytes>, at: nat, j: Json, id: EventId, offset: nat, length: nat) {
    lines != [] &&
    ((offset == at && length == |lines[0]| && IsEvent(j, lines[0], id))
     || HasRow(lines[1..], at + |lines[0]|, j, id, offset, length))
  }

  predicate InScan(files: map<Path, Bytes>, j: Json, id: EventId, loc: Loc) {
    loc.path in files && HasRow(Lines(files[loc.path]), 0, j, id, loc.offset, loc.length)
  }

  predicate Row(events: map<EventId, Loc>, id: EventId, loc: Loc) { id in events && events[id] == loc }

  /** The index rows of visible days are exactly the lines of their journals. */
  ghost predicate Agrees(s: Journal, j: Json) {
    forall id: EventId, loc: Loc | loc.path.day !in s.hidden :: Row(s.events, id, loc) <==> InScan(s.files, j, id, loc)
  }

  /** No event id stands in two places. */
  ghost predicate Unique(files: map<Path, Bytes>, j: Json) {
    forall id: EventId, a: Loc, b: Loc | InScan(files, j, id, a) && InScan(files, j, id, b) :: a == b
  }

  ghost predicate Unused(s: Journal, j: Json, id: EventId) {
    id !in s.events && forall loc: Loc :: !InScan(s.files, j, id, loc)
  }

  predicate Whole(s: Bytes) { s == [] || s[|s| - 1] == LF }

  // ---- operations -------------------------------------------------------------------

  function Appended(s: Journal, j: Json, p: Path, r: Record): Journal {
    var before := FileOf(s.files, p);
    s.(files := s.files[p := before + Printed(j, r)],
       events := s.events[r.id := Loc(p, |before|, |Printed(j, r)|)])
  }

  /** A write that failed part-way: some bytes are in the file, the index is untouched. */
  function Torn(s: Journal, p: Path, part: Bytes): Journal { s.(files := s.files[p := FileOf(s.files, p) + part]) }

  function Hidden(s: Journal, day: nat): Journal { s.(hidden := s.hidden + {day}) }

  /** One unlink of an interrupted deletion. */
  function Unlinked(s: Journal, p: Path): Journal { s.(files := s.files - {p}) }

  function Deleted(s: Journal, day: nat): Journal {
    Journal(map p | p in s.files && p.day != day :: s.files[p],
            map id | id in s.events && s.events[id].path.day != day :: s.events[id],
            s.hidden - {day})
  }

  /** Indexes the lines of one file over an existing index; `None` when a line does not
      decode and the scan raises. */
  function Indexed(lines: seq<Bytes>, at: nat, p: Path, j: Json, events: map<EventId, Loc>): Option<map<EventId, Loc>>
    decreases |lines|
  {
    if lines == [] then Some(events)
    else
      match j.parse(lines[0])
      case Undecodable => None
      case Valid(r) => Indexed(lines[1..], at + |lines[0]|, p, j, events[r.id := Loc(p, at, |lines[0]|)])
      case Malformed => Indexed(lines[1..], at + |lines[0]|, p, j, events)
      case Foreign => Indexed(lines[1..], at + |lines[0]|, p, j, events)
  }

  function IndexedAll(paths: seq<Path>, files: map<Path, Bytes>, j: Json,
                      events: map<EventId, Loc>): Option<map<EventId, Loc>>
    requires forall i | 0 <= i < |paths| :: paths[i] in files
    decreases |paths|
  {
    if paths == [] then Some(events)
    else
      var one := Indexed(Lines(files[paths[0]]), 0, paths[0], j, events);
      if one.None? then None else IndexedAll(paths[1..], files, j, one.value)
  }

  /** A failed rebuild never commits, so the old index stays. */
  function Rebuilt(s: Journal, j: Json, paths: seq<Path>): Journal
    requires forall i | 0 <= i < |paths| :: paths[i] in s.files
  {
    var index := IndexedAll(paths, s.files, j, map[]);
    if index.None? then s else s.(events := index.value)
  }

  /** `find_event` and `read_event`: a slice that is not JSON reads as nothing, and slices past
      the end of the file come out short. */
  function Read(s: Journal, j: Json, id: EventId): Option<Parsed> {
    if id !in s.events || s.events[id].path.day in s.hidden || s.events[id].path !in s.files then None
    else
      var parsed := j.parse(Slice(s.files[s.events[id].path], s.events[id].offset, s.events[id].length));
      if parsed.Malformed? then None else Some(parsed)
  }

  function Slice(s: Bytes, offset: nat, length: nat): Bytes {
    var from := if offset <= |s| then offset else |s|;
    var end := if from + length <= |s| then from + length else |s|;
    s[from..end]
  }

  class AuditLog {
    const json: Json
    var files: map<Path, Bytes>
    var events: map<EventId, Loc>
    var hidden: set<nat>

    function State(): Journal
      reads this
    {
      Journal(files, events, hidden)
    }

    constructor (json: Json)
      ensures State() == Journal(map[], map[], {}) && this.json == json
    {
      this.json := json;
      files, events, hidden := map[], map[], {};
    }

    method AppendRecordSync(p: Path, r: Record)
      modifies `files, `events
      ensures State() == Appended(old(State()), json, p, r)
    {
      var encoded := json.encode(r) + [LF];
      var offset := if p in files then |files[p]| else 0;
      files := files[p := (if p in files then files[p] else []) + encoded];
      events := events[r.id := Loc(p, offset, |encoded|)];
    }

    method BeginDeletion(day: nat)
      modifies `hidden
      ensures State() == Hidden(old(State()), day)
    {
      hidden := hidden + {day};
    }

    /** All journals of the day, then its index rows, then the partition state. */
    method DeletePartition(day: nat)
      modifies this
      ensures State() == Deleted(old(State()), day)
    {
      var todo := set p | p in files && p.day == day;
      while todo != {}
        invariant forall p | p in todo :: p in old(files) && p.day == day
        invariant files == map p | p in old(files) && (p.day != day || p in todo) :: old(files)[p]
        invariant events == old(events) && hidden == old(hidden)
      {
        var p :| p in todo;
        files := files - {p};
        todo := todo - {p};
      }
      events := map id | id in events && events[id].path.day != day :: events[id];
      hidden := hidden - {day};
    }

    method IndexJournal(p: Path, start: map<EventId, Loc>) returns (index: Option<map<EventId, Loc>>)
      requires p in files
      ensures index == Indexed(Lines(files[p]), 0, p, json, start)
    {
      var rest, offset: nat, rows := Lines(files[p]), 0, start;
      while rest != []
        invariant Indexed(rest, offset, p, json, rows) == Indexed(Lines(files[p]), 0, p, json, start)
        decreases |rest|
      {
        var parsed := json.parse(rest[0]);
        if parsed.Undecodable? { return None; }
        if parsed.Valid? { rows := rows[parsed.record.id := Loc(p, offset, |rest[0]|)]; }
        offset := offset + |rest[0]|;
        rest := rest[1..];
      }
      return Some(rows);
    }

    method RebuildIndex(paths: seq<Path>) returns (ok: bool)
      requires forall i | 0 <= i < |paths| :: paths[i] in files
      modifies `events
      ensures State() == Rebuilt(old(State()), json, paths)
      ensures ok <==> IndexedAll(paths, files, json, map[]).Some?
    {
      var rest, rows: map<EventId, Loc> := paths, map[];
      while rest != []
        invariant forall i | 0 <= i < |rest| :: rest[i] in files
        invariant events == old(events)
        invariant IndexedAll(rest, files, json, rows) == IndexedAll(paths, files, json, map[])
        decreases |rest|
      {
        var one := IndexJournal(rest[0], rows);
        if one.None? { return false; }
        rows, rest := one.value, rest[1..];
      }
      events := rows;
      return true;
    }

    method ReadEvent(id: EventId) returns (read: Option<Parsed>)
      ensures read == Read(State(), json, id)
    {
      if id !in events { return None; }
      var loc := events[id];
      if loc.path.day in hidden || loc.path !in files { return None; }
      var parsed := json.parse(Slice(files[loc.path], loc.offset, loc.length));
      return if parsed.Malformed? then None else Some(parsed);
    }
  }

  // ---- rows and lines ---------------------------------------------------------------

  lemma {:induction false} LinesAppend(a: Bytes, b: Bytes, pending: Bytes)
    requires if a == [] then pending == [] else a[|a| - 1] == LF
    ensures LinesFrom(a + b, pending) == LinesFrom(a, pending) + LinesFrom(b, [])
    decreases |a|
  {
    if a == [] {
      assert a + b == b && LinesFrom(a, pending) == [];
    } else {
      assert (a + b)[1..] == a[1..] + b;
      if a[0] == LF {
        LinesAppend(a[1..], b, []);
      } else {
        LinesAppend(a[1..], b, pending + [a[0]]);
      }
    }
  }

  lemma OneLineMore(before: Bytes, j: Json, r: Record)
    requires RoundTrips(j) && Whole(before)
    ensures Lines(before + Printed(j, r)) == Lines(before) + [Printed(j, r)]
  {
    LinesAppend(before, Printed(j, r), []);
    LinesCons(j.encode(r), []);
    assert Printed(j, r) + [] == Printed(j, r);
  }

  lemma {:induction false} RowsAppend(a: seq<Bytes>, b: seq<Bytes>, at: nat, j: Json, id: EventId, offset: nat,
                                      length: nat)
    ensures HasRow(a + b, at, j, id, offset, length) <==>
      HasRow(a, at, j, id, offset, length) || HasRow(b, at + |Flatten(a)|, j, id, offset, length)
    decreases |a|
  {
    if a == [] {
      assert a + b == b;
    } else {
      assert (a + b)[1..] == a[1..] + b;
      RowsAppend(a[1..], b, at + |a[0]|, j, id, offset, length);
    }
  }

  /** A row starts at the start of the file or after a LF, and its bytes are the record's line. */
  lemma {:induction false} RowMeans(lines: seq<Bytes>, at: nat, j: Json, id: EventId, offset: nat, length: nat)
    requires HasRow(lines, at, j, id, offset, length) && Transport(lines)
    ensures var all := Flatten(lines);
      && at <= offset && offset - at + length <= |all|
      && (offset == at || all[offset - at - 1] == LF)
      && IsEvent(j, all[offset - at..offset - at + length], id)
    decreases |lines|
  {
    var all, tail := Flatten(lines), Flatten(lines[1..]);
    if offset == at && length == |lines[0]| && IsEvent(j, lines[0], id) {
      assert all[0..length] == lines[0];
    } else {
      RowMeans(lines[1..], at + |lines[0]|, j, id, offset, length);
      var k := offset - at - |lines[0]|;
      assert all[offset - at..offset - at + length] == tail[k..k + length];
      if k > 0 { assert all[offset - at - 1] == tail[k - 1]; }
    }
  }

  lemma RowOfWhole(all: Bytes, lines: seq<Bytes>, j: Json, id: EventId, offset: nat, length: nat)
    requires HasRow(lines, 0, j, id, offset, length) && Transport(lines) && Flatten(lines) == all
    ensures offset + length <= |all| && (offset == 0 || all[offset - 1] == LF)
    ensures IsEvent(j, Slice(all, offset, length), id)
  {
    RowMeans(lines, 0, j, id, offset, length);
  }

  lemma ScanMeans(files: map<Path, Bytes>, j: Json, id: EventId, loc: Loc)
    requires InScan(files, j, id, loc)
    ensures var all := files[loc.path];
      && loc.offset + loc.length <= |all| && (loc.offset == 0 || all[loc.offset - 1] == LF)
      && IsEvent(j, Slice(all, loc.offset, loc.length), id)
  {
    var all := files[loc.path];
    FlattenLines(all);
    RowOfWhole(all, Lines(all), j, id, loc.offset, loc.length);
  }

  lemma FlattenLines(all: Bytes)
    ensures Flatten(Lines(all)) == all && Transport(Lines(all))
  {
    LinesAreTransport(all, []);
    LinesConcat(all, []);
    assert [] + all == all;
  }

  // ---- appending --------------------------------------------------------------------

  lemma AppendScan(s: Journal, j: Json, p: Path, r: Record, id: EventId, loc: Loc)
    requires RoundTrips(j) && Whole(FileOf(s.files, p))
    ensures var n := Appended(s, j, p, r);
      InScan(n.files, j, id, loc) <==> InScan(s.files, j, id, loc) || (id == r.id && loc == n.events[r.id])
  {
    if loc.path == p {
      var before, line := FileOf(s.files, p), Printed(j, r);
      OneLineMore(before, j, r);
      RowsAppend(Lines(before), [line], 0, j, id, loc.offset, loc.length);
      LinesConcat(before, []);
      assert [line][1..] == [];
    }
  }

  /** The index still agrees after an append exactly when the journal was whole: empty, or
      ended by a line feed. After a torn write it was not, and the new row is wrong. */
  lemma AppendAgreesIff(s: Journal, j: Json, p: Path, r: Record)
    requires RoundTrips(j) && Agrees(s, j) && Unused(s, j, r.id) && p.day !in s.hidden
    ensures Agrees(Appended(s, j, p, r), j) <==> Whole(FileOf(s.files, p))
  {
    var n, before := Appended(s, j, p, r), FileOf(s.files, p);
    if Whole(before) {
      forall id: EventId, loc: Loc | loc.path.day !in n.hidden
        ensures Row(n.events, id, loc) <==> InScan(n.files, j, id, loc) {
        AppendScan(s, j, p, r, id, loc);
      }
    } else {
      var loc := n.events[r.id];
      assert Row(n.events, r.id, loc) && n.files[p][loc.offset - 1] == before[|before| - 1];
      if InScan(n.files, j, r.id, loc) { ScanMeans(n.files, j, r.id, loc); }
    }
  }

  lemma AppendUnique(s: Journal, j: Json, p: Path, r: Record)
    requires RoundTrips(j) && Unique(s.files, j) && Unused(s, j, r.id) && Whole(FileOf(s.files, p))
    ensures Unique(Appended(s, j, p, r).files, j)
  {
    var n := Appended(s, j, p, r);
    forall id: EventId, a: Loc, b: Loc | InScan(n.files, j, id, a) && InScan(n.files, j, id, b) ensures a == b {
      AppendScan(s, j, p, r, id, a);
      AppendScan(s, j, p, r, id, b);
    }
  }

  /** The appended record can be read back at once, torn tail or not. */
  lemma AppendedIsRead(s: Journal, j: Json, p: Path, r: Record)
    requires RoundTrips(j) && p.day !in s.hidden
    ensures Read(Appended(s, j, p, r), j, r.id) == Some(Valid(r))
  {
    var before, line := FileOf(s.files, p), Printed(j, r);
    assert Slice(before + line, |before|, |line|) == line;
  }

  /** A deletion, begun or finished, takes exactly the records of its day from the readers. */
  lemma DeletionMeans(s: Journal, j: Json, day: nat, id: EventId)
    ensures var left := if id in s.events && s.events[id].path.day == day then None else Read(s, j, id);
      Read(Hidden(s, day), j, id) == left && Read(Deleted(Hidden(s, day), day), j, id) == left
    ensures forall p | p in Deleted(s, day).files :: p.day != day
  {
  }

  /** After it the day can be written and read again. */
  lemma DeletedDayIsReusable(s: Journal, j: Json, p: Path, r: Record)
    requires RoundTrips(j)
    ensures var n := Appended(Deleted(s, p.day), j, p, r);
      Read(n, j, r.id) == Some(Valid(r)) && n.files[p] == Printed(j, r)
  {
    AppendedIsRead(Deleted(s, p.day), j, p, r);
    assert [] + Printed(j, r) == Printed(j, r);
  }

  // ---- reading ----------------------------------------------------------------------

  /** With an agreeing index, reading returns a record of that id exactly when some visible
      journal line holds one, and nothing otherwise. */
  lemma ReadFindsIff(s: Journal, j: Json, id: EventId)
    requires Agrees(s, j)
    ensures (exists loc: Loc :: loc.path.day !in s.hidden && InScan(s.files, j, id, loc)) <==> Read(s, j, id).Some?
    ensures Read(s, j, id).Some? ==> Read(s, j, id).value.Valid? && Read(s, j, id).value.record.id == id
  {
    if id in s.events && s.events[id].path.day !in s.hidden {
      var loc := s.events[id];
      assert Row(s.events, id, loc);
      assert InScan(s.files, j, id, loc);
      ScanMeans(s.files, j, id, loc);
    }
  }

  // ---- deleting ---------------------------------------------------------------------

  lemma DeleteAgrees(s: Journal, j: Json, day: nat)
    requires Agrees(s, j)
    ensures Agrees(Deleted(s, day), j)
  {
    var n := Deleted(s, day);
    forall id: EventId, loc: Loc | loc.path.day !in n.hidden
      ensures Row(n.events, id, loc) <==> InScan(n.files, j, id, loc) {
      if loc.path.day != day {
        assert Row(s.events, id, loc) <==> InScan(s.files, j, id, loc);
      }
    }
  }

  lemma HideAndUnlinkAgree(s: Journal, j: Json, day: nat, p: Path)
    requires Agrees(s, j)
    ensures Agrees(Hidden(s, day), j)
    ensures p.day in s.hidden ==> Agrees(Unlinked(s, p), j)
  {
    forall id: EventId, loc: Loc | loc.path.day !in s.hidden && p.day in s.hidden
      ensures Row(s.events, id, loc) <==> InScan(Unlinked(s, p).files, j, id, loc)
    {
      assert Row(s.events, id, loc) <==> InScan(s.files, j, id, loc);
    }
  }

  lemma FewerFilesUnique(more: map<Path, Bytes>, fewer: map<Path, Bytes>, j: Json)
    requires Unique(more, j) && forall p | p in fewer :: p in more && more[p] == fewer[p]
    ensures Unique(fewer, j)
  {
    forall id: EventId, a: Loc, b: Loc | InScan(fewer, j, id, a) && InScan(fewer, j, id, b) ensures a == b {
      assert InScan(more, j, id, a) && InScan(more, j, id, b);
    }
  }

  // ---- rebuilding -------------------------------------------------------------------

  /** Ids that the lines do not mention keep their rows. */
  lemma {:induction false} IndexedKeeps(lines: seq<Bytes>, at: nat, p: Path, j: Json, events: map<EventId, Loc>,
                                        id: EventId)
    requires Indexed(lines, at, p, j, events).Some?
    requires forall o: nat, n: nat :: !HasRow(lines, at, j, id, o, n)
    ensures var m := Indexed(lines, at, p, j, events).value;
      (id in m <==> id in events) && (id in m ==> m[id] == events[id])
    decreases |lines|
  {
    if lines != [] {
      var parsed, rest, next := j.parse(lines[0]), lines[1..], at + |lines[0]|;
      assert !HasRow(lines, at, j, id, at, |lines[0]|);
      forall o: nat, n: nat ensures !HasRow(rest, next, j, id, o, n) {
        assert !HasRow(lines, at, j, id, o, n);
      }
      IndexedKeeps(rest, next, p, j,
                   if parsed.Valid? then events[parsed.record.id := Loc(p, at, |lines[0]|)] else events, id);
    }
  }

  /** The only line of an id decides its row. */
  lemma {:induction false} IndexedFinds(lines: seq<Bytes>, at: nat, p: Path, j: Json, events: map<EventId, Loc>,
                                        id: EventId, offset: nat, length: nat)
    requires Indexed(lines, at, p, j, events).Some? && HasRow(lines, at, j, id, offset, length)
    requires forall i | 0 <= i < |lines| :: lines[i] != []
    requires forall o: nat, n: nat | HasRow(lines, at, j, id, o, n) :: o == offset && n == length
    ensures Row(Indexed(lines, at, p, j, events).value, id, Loc(p, offset, length))
    decreases |lines|
  {
    var parsed, rest, next := j.parse(lines[0]), lines[1..], at + |lines[0]|;
    var events' := if parsed.Valid? then events[parsed.record.id := Loc(p, at, |lines[0]|)] else events;
    forall o: nat, n: nat | HasRow(rest, next, j, id, o, n) ensures o == offset && n == length && o >= next {
      assert HasRow(lines, at, j, id, o, n);
      RowsAreLater(rest, next, j, id, o, n);
    }
    if HasRow(rest, next, j, id, offset, length) {
      IndexedFinds(rest, next, p, j, events', id, offset, length);
    } else {
      IndexedKeeps(rest, next, p, j, events', id);
    }
  }

  lemma {:induction false} RowsAreLater(lines: seq<Bytes>, at: nat, j: Json, id: EventId, offset: nat, length: nat)
    requires HasRow(lines, at, j, id, offset, length)
    ensures at <= offset
    decreases |lines|
  {
    if !(offset == at && length == |lines[0]| && IsEvent(j, lines[0], id)) {
      RowsAreLater(lines[1..], at + |lines[0]|, j, id, offset, length);
    }
  }

  lemma FileIndexed(p: Path, files: map<Path, Bytes>, j: Json, events: map<EventId, Loc>, id: EventId)
    requires p in files && Unique(files, j) && Indexed(Lines(files[p]), 0, p, j, events).Some?
    ensures var m := Indexed(Lines(files[p]), 0, p, j, events).value;
      forall loc: Loc :: Row(m, id, loc) <==>
        (loc.path == p && InScan(files, j, id, loc)) ||
        (Row(events, id, loc) && forall o: nat, n: nat :: !InScan(files, j, id, Loc(p, o, n)))
  {
    var lines := Lines(files[p]);
    LinesAreTransport(files[p], []);
    TransportNonEmpty(lines);
    if o: nat, n: nat :| InScan(files, j, id, Loc(p, o, n)) {
      forall o': nat, n': nat | HasRow(lines, 0, j, id, o', n') ensures o' == o && n' == n {
        assert InScan(files, j, id, Loc(p, o', n'));
      }
      IndexedFinds(lines, 0, p, j, events, id, o, n);
    } else {
      forall o: nat, n: nat ensures !HasRow(lines, 0, j, id, o, n) {
        assert !InScan(files, j, id, Loc(p, o, n));
      }
      IndexedKeeps(lines, 0, p, j, events, id);
    }
  }

  lemma {:induction false} TransportNonEmpty(lines: seq<Bytes>)
    requires Transport(lines)
    ensures forall i | 0 <= i < |lines| :: lines[i] != []
    decreases |lines|
  {
    if lines != [] {
      TransportNonEmpty(lines[1..]);
      forall i | 0 <= i < |lines| ensures lines[i] != [] {
        if i > 0 { assert lines[i] == lines[1..][i - 1]; }
      }
    }
  }

  lemma {:induction false} AllIndexed(paths: seq<Path>, files: map<Path, Bytes>, j: Json, events: map<EventId, Loc>,
                                      id: EventId, loc: Loc)
    requires forall i | 0 <= i < |paths| :: paths[i] in files
    requires Unique(files, j) && IndexedAll(paths, files, j, events).Some?
    requires id in events ==> InScan(files, j, id, events[id])
    ensures Row(IndexedAll(paths, files, j, events).value, id, loc) <==>
      Row(events, id, loc) || (loc.path in paths && InScan(files, j, id, loc))
    decreases |paths|
  {
    if paths != [] {
      var one := Indexed(Lines(files[paths[0]]), 0, paths[0], j, events).value;
      FileIndexed(paths[0], files, j, events, id);
      if id in one { assert Row(one, id, one[id]); }
      AllIndexed(paths[1..], files, j, one, id, loc);
    }
  }

  /** A rebuild makes the index agree, whatever was in it before, if every line decodes. */
  lemma RebuildAgrees(s: Journal, j: Json, paths: seq<Path>)
    requires Unique(s.files, j) && forall p :: p in paths <==> p in s.files
    requires IndexedAll(paths, s.files, j, map[]).Some?
    ensures Agrees(Rebuilt(s, j, paths), j)
  {
    forall id: EventId, loc: Loc ensures Row(Rebuilt(s, j, paths).events, id, loc) <==> InScan(s.files, j, id, loc) {
      AllIndexed(paths, s.files, j, map[], id, loc);
    }
  }

  /** A rebuild of an agreeing journal with nothing hidden changes nothing. */
  lemma RebuildIsIdentity(s: Journal, j: Json, paths: seq<Path>)
    requires Unique(s.files, j) && (forall p :: p in paths <==> p in s.files) && Agrees(s, j) && s.hidden == {}
    ensures Rebuilt(s, j, paths) == s
  {
    if IndexedAll(paths, s.files, j, map[]).Some? {
      var n := Rebuilt(s, j, paths);
      RebuildAgrees(s, j, paths);
      SameRows(n.events, s.events, s, j);
    }
  }

  lemma SameRows(a: map<EventId, Loc>, b: map<EventId, Loc>, s: Journal, j: Json)
    requires forall id: EventId, loc: Loc :: Row(a, id, loc) <==> InScan(s.files, j, id, loc)
    requires forall id: EventId, loc: Loc :: Row(b, id, loc) <==> InScan(s.files, j, id, loc)
    ensures a == b
  {
    forall id | id in a ensures Row(b, id, a[id]) { assert Row(a, id, a[id]); }
    forall id | id in b ensures Row(a, id, b[id]) { assert Row(b, id, b[id]); }
  }

  // ---- whole runs -------------------------------------------------------------------

  datatype Op =
    | Append(path: Path, record: Record)
    | Hide(day: nat)
    | Unlink(path: Path)
    | Delete(day: nat)
    | Rebuild(paths: seq<Path>)

  ghost predicate Allowed(s: Journal, j: Json, op: Op) {
    match op
    case Append(p, r) => Unused(s, j, r.id)
    case Hide(_) => true
    case Unlink(p) => p.day in s.hidden
    case Delete(_) => true
    case Rebuild(paths) => forall p :: p in paths <==> p in s.files
  }

  function Next(s: Journal, j: Json, op: Op): Journal
    requires op.Rebuild? ==> forall i | 0 <= i < |op.paths| :: op.paths[i] in s.files
  {
    match op
    case Append(p, r) => Appended(s, j, p, r)
    case Hide(d) => Hidden(s, d)
    case Unlink(p) => Unlinked(s, p)
    case Delete(d) => Deleted(s, d)
    case Rebuild(paths) => Rebuilt(s, j, paths)
  }

  ghost predicate Possible(s: Journal, j: Json, ops: seq<Op>)
    decreases |ops|
  {
    ops == [] || (Allowed(s, j, ops[0]) && Possible(Next(s, j, ops[0]), j, ops[1..]))
  }

  ghost function After(s: Journal, j: Json, ops: seq<Op>): Journal
    requires Possible(s, j, ops)
    decreases |ops|
  {
    if ops == [] then s else After(Next(s, j, ops[0]), j, ops[1..])
  }

  ghost predicate Inv(s: Journal, j: Json) {
    Agrees(s, j) && Unique(s.files, j) && forall p | p in s.files :: Whole(s.files[p])
  }

  lemma AppendKeepsInv(s: Journal, j: Json, p: Path, r: Record)
    requires RoundTrips(j) && Inv(s, j) && Unused(s, j, r.id)
    ensures Inv(Appended(s, j, p, r), j)
  {
    var n := Appended(s, j, p, r);
    AppendUnique(s, j, p, r);
    forall id: EventId, loc: Loc | loc.path.day !in n.hidden
      ensures Row(n.events, id, loc) <==> InScan(n.files, j, id, loc) {
      AppendScan(s, j, p, r, id, loc);
    }
  }

  lemma OpKeepsInv(s: Journal, j: Json, op: Op)
    requires RoundTrips(j) && Inv(s, j) && Allowed(s, j, op)
    ensures Inv(Next(s, j, op), j)
  {
    match op
    case Append(p, r) => AppendKeepsInv(s, j, p, r);
    case Hide(d) => HideAndUnlinkAgree(s, j, d, Path(0, d));
    case Unlink(p) =>
      HideAndUnlinkAgree(s, j, p.day, p);
      FewerFilesUnique(s.files, Unlinked(s, p).files, j);
    case Delete(d) =>
      DeleteAgrees(s, j, d);
      FewerFilesUnique(s.files, Deleted(s, d).files, j);
    case Rebuild(paths) =>
      if IndexedAll(paths, s.files, j, map[]).Some? { RebuildAgrees(s, j, paths); }
  }

  /** Main result: after any run of appends, partition deletions (also interrupted ones) and
      rebuilds, the visible index rows equal a fresh scan of the journals. */
  lemma {:induction false} EveryRunAgrees(s: Journal, j: Json, ops: seq<Op>)
    requires RoundTrips(j) && Inv(s, j) && Possible(s, j, ops)
    ensures Inv(After(s, j, ops), j)
    decreases |ops|
  {
    if ops != [] {
      OpKeepsInv(s, j, ops[0]);
      EveryRunAgrees(Next(s, j, ops[0]), j, ops[1..]);
    }
  }

  /** So a journal that began empty can always be rebuilt from its files. */
  lemma RunsFromEmptyAgree(j: Json, ops: seq<Op>)
    requires RoundTrips(j) && Possible(Journal(map[], map[], {}), j, ops)
    ensures Agrees(After(Journal(map[], map[], {}), j, ops), j)
  {
    assert Inv(Journal(map[], map[], {}), j);
    EveryRunAgrees(Journal(map[], map[], {}), j, ops);
  }

  // ---- torn writes ------------------------------------------------------------------

  lemma TornScan(s: Journal, j: Json, p: Path, part: Bytes, id: EventId, loc: Loc)
    requires Whole(FileOf(s.files, p)) && part != [] && Free(part, {LF}) && !j.parse(part).Valid?
    ensures InScan(Torn(s, p, part).files, j, id, loc) <==> InScan(s.files, j, id, loc)
  {
    if loc.path == p {
      var before := FileOf(s.files, p);
      LinesAppend(before, part, []);
      Scan(part, [], []);
      assert part + [] == part && [] + part == part && [part][1..] == [];
      RowsAppend(Lines(before), [part], 0, j, id, loc.offset, loc.length);
    }
  }

  /** A torn write alone does no harm: the next append to the same file does. Its record can
      still be read through the index, but no scan will find it at that place again. */
  lemma AppendAfterTornWrite(s: Journal, j: Json, p: Path, part: Bytes, r: Record)
    requires RoundTrips(j) && Agrees(s, j) && Unused(s, j, r.id) && p.day !in s.hidden
    requires Whole(FileOf(s.files, p)) && part != [] && Free(part, {LF}) && !j.parse(part).Valid?
    ensures Agrees(Torn(s, p, part), j)
    ensures !Agrees(Appended(Torn(s, p, part), j, p, r), j)
    ensures Read(Appended(Torn(s, p, part), j, p, r), j, r.id) == Some(Valid(r))
  {
    forall id: EventId, loc: Loc ensures InScan(Torn(s, p, part).files, j, id, loc) <==> InScan(s.files, j, id, loc) {
      TornScan(s, j, p, part, id, loc);
    }
    assert part[|part| - 1] != LF;
    AppendAgreesIff(Torn(s, p, part), j, p, r);
    AppendedIsRead(Torn(s, p, part), j, p, r);
  }

  /** A line that does not decode makes every later rebuild fail and keep the old index. */
  lemma {:induction false} IndexedFailsIff(lines: seq<Bytes>, at: nat, p: Path, j: Json, events: map<EventId, Loc>)
    ensures Indexed(lines, at, p, j, events).None? <==> exists i | 0 <= i < |lines| :: j.parse(lines[i]).Undecodable?
    decreases |lines|
  {
    if lines != [] {
      var parsed := j.parse(lines[0]);
      IndexedFailsIff(lines[1..], at + |lines[0]|, p, j,
                      if parsed.Valid? then events[parsed.record.id := Loc(p, at, |lines[0]|)] else events);
      assert forall i | 0 <= i < |lines[1..]| :: lines[1..][i] == lines[i + 1];
      if i :| 0 <= i < |lines| && j.parse(lines[i]).Undecodable? {
        if i > 0 { assert lines[1..][i - 1] == lines[i]; }
      }
    }
  }

  /** Every line of a file is valid UTF-8. */
  predicate Decodes(file: Bytes, j: Json) { forall i | 0 <= i < |Lines(file)| :: !j.parse(Lines(file)[i]).Undecodable? }

  lemma {:induction false} RebuildFailsIff(paths: seq<Path>, files: map<Path, Bytes>, j: Json,
                                           events: map<EventId, Loc>)
    requires forall i | 0 <= i < |paths| :: paths[i] in files
    ensures IndexedAll(paths, files, j, events).None? <==> exists k | 0 <= k < |paths| :: !Decodes(files[paths[k]], j)
    decreases |paths|
  {
    if paths != [] {
      var one := Indexed(Lines(files[paths[0]]), 0, paths[0], j, events);
      IndexedFailsIff(Lines(files[paths[0]]), 0, paths[0], j, events);
      assert one.Some? <==> Decodes(files[paths[0]], j);
      if one.Some? {
        RebuildFailsIff(paths[1..], files, j, one.value);
        assert forall k | 0 <= k < |paths[1..]| :: paths[1..][k] == paths[k + 1];
        if k :| 0 <= k < |paths| && !Decodes(files[paths[k]], j) {
          assert k > 0 && paths[1..][k - 1] == paths[k];
        }
      }
    }
  }

  /** One such byte is enough: written to a file of its own, it makes every rebuild of that
      journal fail, and the index stays as it was. */
  lemma OneByteFailsRebuild(j: Json, events: map<EventId, Loc>, p: Path, b: Byte)
    requires b != LF && j.parse([b]).Undecodable?
    ensures var s := Torn(Journal(map[], events, {}), p, [b]);
      s.files == map[p := [b]] && IndexedAll([p], s.files, j, map[]).None? && Rebuilt(s, j, [p]) == s
  {
    var s := Torn(Journal(map[], events, {}), p, [b]);
    Scan([b], [], []);
    assert [b] + [] == [b] && [] + [b] == [b];
    assert s.files == map[p := [b]] && Lines(s.files[p]) == [[b]];
    RebuildFailsIff([p], s.files, j, map[]);
  }
}
