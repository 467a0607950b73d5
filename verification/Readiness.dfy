/** History of model admission states (core/kv_affinity.py, class ModelReadinessTracker).

    The tracker stores a pruned, run-length-compressed list of transitions per model. The
    lemmas compare it with the plain list of all samples since the last gap. */
module Readiness {
  import opened Basics
  import opened Sequences

  /** `NoReason` is the empty text; `Other` numbers the texts the tracker does not know. */
  datatype Reason = Ready | SessionMemory | BaseMemory | WaitingUnload | NoReason | Other(id: nat)

  datatype Loaded = Unknown | Yes | No

  /** One admission report. `Blank` is the empty dictionary: it reads like a report
      without reason, but the deduplication treats it as "no previous report". */
  datatype Admission = Blank | Report(reason: Reason, loaded: Loaded)

  datatype State = BlockedState | ReadyState | OtherState

  datatype Transition = Transition(ts: real, state: State, reason: Reason, loaded: Loaded)

  datatype Entry = Entry(transitions: seq<Transition>, blockedSince: Option<real>, lastSampleAt: real, last: Admission)

  datatype Thresholds = Thresholds(warm: int, cold: int, ratio: real)

  function ReasonOf(a: Admission): Reason { if a.Blank? then NoReason else a.reason }

  function LoadedOf(a: Admission): Loaded { if a.Blank? then Unknown else a.loaded }

  function StateOf(r: Reason): State {
    match r
    case SessionMemory | BaseMemory | WaitingUnload => BlockedState
    case Ready => ReadyState
    case NoReason | Other(_) => OtherState
  }

  function MinR(x: real, y: real): real { if y < x then y else x }

  function MaxR(x: real, y: real): real { if x < y then y else x }

  // ---- one sample -------------------------------------------------------------------

  function Observation(now: real, a: Admission): Transition {
    Transition(now, StateOf(ReasonOf(a)), ReasonOf(a), LoadedOf(a))
  }

  predicate Repeats(previous: Admission, a: Admission) {
    previous.Report? && previous.reason == ReasonOf(a) && previous.loaded == LoadedOf(a)
  }

  function Opened(entry: Option<Entry>, window: real, now: real): Entry {
    if entry.None? || now - entry.value.lastSampleAt > window then Entry([], None, now, Blank) else entry.value
  }

  /** Drops the transitions before the last one that starts before the cutoff. */
  function Pruned(ts: seq<Transition>, cutoff: real): seq<Transition>
    decreases |ts|
  {
    if |ts| > 1 && ts[0].ts < cutoff && ts[1].ts < cutoff then Pruned(ts[1..], cutoff) else ts
  }

  function Recorded(entry: Option<Entry>, window: real, a: Admission, now: real): Entry {
    var held := Opened(entry, window, now);
    var blocked := StateOf(ReasonOf(a)) == BlockedState;
    var since := if !blocked then None else if held.blockedSince.None? then Some(now) else held.blockedSince;
    var longer := if Repeats(held.last, a) then held.transitions else held.transitions + [Observation(now, a)];
    Entry(Pruned(longer, now - window), since, now, a)
  }

  // ---- queries ----------------------------------------------------------------------

  /** The time a segment [from, to) has after `lo`. */
  function Overlap(from: real, to: real, lo: real): real {
    var start := MaxR(from, lo);
    if to > start then to - start else 0.0
  }

  /** Where the first segment ends. A zero timestamp reads as a missing one. */
  function SegmentEnd(ts: seq<Transition>, now: real): real
    requires ts != []
  {
    if |ts| == 1 || ts[1].ts == 0.0 then now else MinR(ts[1].ts, now)
  }

  /** Time after `lo` spent in the blocked state (`want`) or outside it. */
  function TimeIn(ts: seq<Transition>, lo: real, now: real, want: bool): real {
    if ts == [] then 0.0
    else
      (if (ts[0].state == BlockedState) == want then Overlap(ts[0].ts, SegmentEnd(ts, now), lo) else 0.0)
      + TimeIn(ts[1..], lo, now, want)
  }

  function Span(first: real, window: real, now: real): real { MaxR(0.0, MinR(window, now - first)) }

  function ObservedIn(e: Entry, window: real, now: real): real {
    Span(if e.transitions == [] then e.lastSampleAt else e.transitions[0].ts, window, now)
  }

  function RatioIn(e: Entry, window: real, now: real): real {
    var observed := ObservedIn(e, window, now);
    if observed <= 0.0 then 0.0 else MinR(1.0, MaxR(0.0, TimeIn(e.transitions, now - window, now, true) / observed))
  }

  function WaitLimit(loaded: Loaded, t: Thresholds): real { Max(0, if loaded != No then t.warm else t.cold) as real }

  predicate Divert(since: Option<real>, loaded: Loaded, observed: real, ratio: real, t: Thresholds, now: real) {
    since.Some? &&
    (MaxR(0.0, now - since.value) >= WaitLimit(loaded, t) ||
     (t.ratio > 0.0 && observed >= MaxR(1.0, WaitLimit(loaded, t)) && ratio >= t.ratio))
  }

  predicate DivertsIn(e: Entry, window: real, t: Thresholds, now: real) {
    Divert(e.blockedSince, LoadedOf(e.last), ObservedIn(e, window, now), RatioIn(e, window, now), t, now)
  }

  // ---- the tracker ------------------------------------------------------------------

  class ModelReadinessTracker {
    const window: real
    var states: map<ModelKey, Entry>

    constructor (historyWindowSeconds: int)
      ensures window == Max(1, historyWindowSeconds) as real && states == map[]
    {
      window := Max(1, historyWindowSeconds) as real;
      states := map[];
    }

    method Record(k: ModelKey, admission: Option<Admission>, now: real)
      modifies this
      ensures k.provider == Unnamed || k.model == Unnamed || admission.None? ==> states == old(states)
      ensures k.provider != Unnamed && k.model != Unnamed && admission.Some? ==>
        states == old(states)[k := Recorded(Entries(k, old(states)), window, admission.value, now)]
    {
      if k.provider == Unnamed || k.model == Unnamed || admission.None? { return; }
      var entry := Update(Entries(k, states), window, admission.value, now);
      states := states[k := entry];
    }

    static method Update(stored: Option<Entry>, window: real, a: Admission, now: real) returns (entry: Entry)
      ensures entry == Recorded(stored, window, a, now)
    {
      var held := if stored.None? || now - stored.value.lastSampleAt > window then Entry([], None, now, Blank)
        else stored.value;
      var since, kept := held.blockedSince, held.transitions;
      if StateOf(ReasonOf(a)) == BlockedState {
        if since.None? { since := Some(now); }
      } else {
        since := None;
      }
      if held.last.Blank? || held.last.reason != ReasonOf(a) || held.last.loaded != LoadedOf(a) {
        kept := kept + [Observation(now, a)];
      }
      kept := Prune(kept, now - window);
      entry := Entry(kept, since, now, a);
    }

    static function Entries(k: ModelKey, states: map<ModelKey, Entry>): Option<Entry> {
      if k in states then Some(states[k]) else None
    }

    static method Prune(ts: seq<Transition>, cutoff: real) returns (kept: seq<Transition>)
      ensures kept == Pruned(ts, cutoff)
    {
      var i := 0;
      while i < |ts| && ts[i].ts < cutoff
        invariant 0 <= i <= |ts|
        invariant i > 0 ==> ts[i - 1].ts < cutoff
        invariant Pruned(ts[Max(0, i - 1)..], cutoff) == Pruned(ts, cutoff)
      {
        assert i > 0 ==> ts[i - 1..][1..] == ts[i..];
        i := i + 1;
      }
      var from := Max(0, i - 1);
      kept := if from > 0 then ts[from..] else ts;
    }

    method ObservedSpan(k: ModelKey, now: real) returns (span: real)
      ensures span == if k in states then ObservedIn(states[k], window, now) else 0.0
    {
      if k !in states { return 0.0; }
      var ts := states[k].transitions;
      var first := if ts != [] then ts[0].ts else states[k].lastSampleAt;
      return MaxR(0.0, MinR(window, now - first));
    }

    method BlockedRatio(k: ModelKey, now: real) returns (ratio: real)
      ensures ratio == if k in states then RatioIn(states[k], window, now) else 0.0
    {
      if k !in states { return 0.0; }
      var observed := ObservedSpan(k, now);
      if observed <= 0.0 { return 0.0; }
      var ts, lo := states[k].transitions, now - window;
      var blocked, i := 0.0, 0;
      while i < |ts|
        invariant 0 <= i <= |ts|
        invariant blocked + TimeIn(ts[i..], lo, now, true) == TimeIn(ts, lo, now, true)
      {
        assert ts[i..][1..] == ts[i + 1..];
        if ts[i].state == BlockedState {
          var start := MaxR(ts[i].ts, lo);
          var end := if i + 1 < |ts| && ts[i + 1].ts != 0.0 then MinR(ts[i + 1].ts, now) else now;
          if end > start { blocked := blocked + (end - start); }
        }
        i := i + 1;
      }
      return MinR(1.0, MaxR(0.0, blocked / observed));
    }

    method ShouldDivert(k: ModelKey, t: Thresholds, now: real) returns (divert: bool)
      ensures divert <==> k in states && DivertsIn(states[k], window, t, now)
    {
      if k !in states || states[k].blockedSince.None? { return false; }
      var limit := WaitLimit(LoadedOf(states[k].last), t);
      if MaxR(0.0, now - states[k].blockedSince.value) >= limit { return true; }
      if t.ratio <= 0.0 { return false; }
      var observed := ObservedSpan(k, now);
      if observed < MaxR(1.0, limit) { return false; }
      var ratio := BlockedRatio(k, now);
      return ratio >= t.ratio;
    }

    method ClearCandidate(k: ModelKey)
      modifies this
      ensures states == old(states) - {k}
    {
      states := states - {k};
    }
  }

  // ---- the full history -------------------------------------------------------------

  datatype Sample = Sample(at: real, admission: Admission)

  predicate Monotone(samples: seq<Sample>) {
    && (forall i | 0 <= i < |samples| :: samples[i].at > 0.0)
    && (forall i, j | 0 <= i < j < |samples| :: samples[i].at <= samples[j].at)
  }

  /** The entry the tracker holds for one model after these samples. */
  function Tracked(samples: seq<Sample>, window: real): Option<Entry> {
    if samples == [] then None
    else Some(Recorded(Tracked(Front(samples), window), window, Final(samples).admission, Final(samples).at))
  }

  /** The samples after the last gap longer than the window. */
  function SinceGap(samples: seq<Sample>, window: real): seq<Sample> {
    if samples == [] then []
    else if |samples| > 1 && Final(samples).at - samples[|samples| - 2].at > window then [Final(samples)]
    else SinceGap(Front(samples), window) + [Final(samples)]
  }

  function Uncompressed(samples: seq<Sample>): seq<Transition> {
    if samples == [] then []
      else Uncompressed(Front(samples)) + [Observation(Final(samples).at, Final(samples).admission)]
  }

  /** The start of the unbroken run of blocked samples at the end, if there is one. */
  function BlockedRun(samples: seq<Sample>): Option<real> {
    if samples == [] then None else RunAfter(BlockedRun(Front(samples)), Final(samples))
  }

  function RunAfter(earlier: Option<real>, s: Sample): Option<real> {
    if StateOf(ReasonOf(s.admission)) != BlockedState then None
    else if earlier.Some? then earlier
    else Some(s.at)
  }

  // ---- what the samples say ---------------------------------------------------------

  /** The reports that count as blocked. */
  predicate Blocks(a: Admission) { a.Report? && a.reason in {SessionMemory, BaseMemory, WaitingUnload} }

  /** The time between `lo` and `now` that follows a blocked sample. */
  function BlockedTime(samples: seq<Sample>, lo: real, now: real): real {
    if samples == [] then 0.0
    else
      var from := if samples[0].at < lo then lo else samples[0].at;
      var to := if |samples| == 1 then now else samples[1].at;
      (if Blocks(samples[0].admission) && from < to then to - from else 0.0) + BlockedTime(samples[1..], lo, now)
  }

  /** The last samples, from the `k`-th on, are one blocked run. */
  ghost predicate BlockedFrom(samples: seq<Sample>, k: nat) {
    && k < |samples| && (forall i | k <= i < |samples| :: Blocks(samples[i].admission))
    && (k > 0 ==> !Blocks(samples[k - 1].admission))
  }

  /** How much of the window the samples cover. */
  function Covered(samples: seq<Sample>, window: real, now: real): real
    requires samples != []
  {
    if now - samples[0].at < window then now - samples[0].at else window
  }

  /** Blocked for too long at a stretch, or for too much of what the window covers. A report
      that says the model is not loaded has the cold limit, every other one the warm limit. */
  predicate TooLong(last: Admission, stretch: real, covered: real, blocked: real, t: Thresholds) {
    var limit := (if last.Report? && last.loaded == No then t.cold else t.warm) as real;
    stretch >= limit || (t.ratio > 0.0 && covered >= 1.0 && covered >= limit && blocked >= t.ratio * covered)
  }

  ghost predicate FullDivert(samples: seq<Sample>, window: real, t: Thresholds, now: real)
    requires samples != []
  {
    exists k: nat :: BlockedFrom(samples, k) &&
      TooLong(Final(samples).admission, now - samples[k].at, Covered(samples, window, now),
              BlockedTime(samples, now - window, now), t)
  }

  // ---- segment arithmetic -----------------------------------------------------------

  /** Positive timestamps in order, none after `end`. */
  predicate Ordered(ts: seq<Transition>, end: real) {
    ts == [] || (0.0 < ts[0].ts <= end && (|ts| > 1 ==> ts[0].ts <= ts[1].ts) && Ordered(ts[1..], end))
  }

  lemma {:induction false} OrderedLater(ts: seq<Transition>, end: real, later: real)
    requires Ordered(ts, end) && end <= later
    ensures Ordered(ts, later)
    decreases |ts|
  {
    if ts != [] {
      OrderedLater(ts[1..], end, later);
    }
  }

  lemma {:induction false} OrderedAppend(ts: seq<Transition>, t: Transition, end: real)
    requires Ordered(ts, end) && end <= t.ts && 0.0 < t.ts
    ensures Ordered(ts, t.ts) && Ordered(ts + [t], t.ts)
    decreases |ts|
  {
    if ts != [] {
      OrderedAppend(ts[1..], t, end);
      assert (ts + [t])[1..] == ts[1..] + [t];
    }
  }

  /** What the segment that is still open gains between two times. */
  function Tail(ts: seq<Transition>, from: real, now: real, lo: real, want: bool): real {
    if ts == [] || (ts[|ts| - 1].state == BlockedState) != want then 0.0 else Overlap(from, now, lo)
  }

  lemma {:induction false} LaterQuery(ts: seq<Transition>, lo: real, mid: real, now: real, want: bool)
    requires Ordered(ts, mid) && mid <= now
    ensures TimeIn(ts, lo, now, want) == TimeIn(ts, lo, mid, want) + Tail(ts, mid, now, lo, want)
    decreases |ts|
  {
    if |ts| > 1 {
      LaterQuery(ts[1..], lo, mid, now, want);
    }
  }

  lemma {:induction false} OneMore(ts: seq<Transition>, t: Transition, lo: real, now: real, want: bool)
    requires Ordered(ts, t.ts) && 0.0 < t.ts <= now
    ensures TimeIn(ts + [t], lo, now, want) == TimeIn(ts, lo, t.ts, want) + Tail([t], t.ts, now, lo, want)
    decreases |ts|
  {
    if ts != [] {
      OneMore(ts[1..], t, lo, now, want);
      assert (ts + [t])[1..] == ts[1..] + [t];
    }
  }

  /** The two kinds of time add up to everything observed after `lo`. */
  lemma {:induction false} TimeSplits(ts: seq<Transition>, lo: real, now: real)
    requires ts != [] && Ordered(ts, now)
    ensures TimeIn(ts, lo, now, true) + TimeIn(ts, lo, now, false) == Overlap(ts[0].ts, now, lo)
    decreases |ts|
  {
    if |ts| > 1 {
      TimeSplits(ts[1..], lo, now);
    }
  }

  lemma {:induction false} TimeSinks(ts: seq<Transition>, lo: real, later: real, now: real, want: bool)
    requires lo <= later
    ensures 0.0 <= TimeIn(ts, later, now, want) <= TimeIn(ts, lo, now, want)
    decreases |ts|
  {
    if ts != [] {
      TimeSinks(ts[1..], lo, later, now, want);
    }
  }

  // ---- compressed and pruned equals full --------------------------------------------

  /** Seen from `at`, the stored transitions and the full list tell the same about the
      time after `lo`, and any difference in where they start lies outside the window. */
  ghost predicate Agrees(ts: seq<Transition>, full: seq<Transition>, window: real, at: real, lo: real) {
    && ts != [] && full != [] && Ordered(ts, at) && Ordered(full, at)
    && ts[|ts| - 1].state == full[|full| - 1].state
    && (ts[0].ts == full[0].ts || (ts[0].ts < at - window && full[0].ts < at - window))
    && TimeIn(ts, lo, at, true) == TimeIn(full, lo, at, true)
  }

  /** What the stored state must say: the latest report `s`, the blocked run that ends
      with it, and every interval of the uncompressed list `full`. */
  ghost predicate Faithful(e: Entry, full: seq<Transition>, run: Option<real>, s: Sample, window: real, lo: real) {
    && e.last == s.admission && e.lastSampleAt == s.at
    && e.blockedSince == run
    && Agrees(e.transitions, full, window, s.at, lo)
    && full[|full| - 1].state == StateOf(ReasonOf(s.admission))
  }

  lemma AppendAgrees(ts: seq<Transition>, full: seq<Transition>, t: Transition, window: real, at: real, lo: real)
    requires Agrees(ts, full, window, at, lo) && at <= t.ts && window >= 0.0
    ensures Agrees(ts + [t], full + [t], window, t.ts, lo)
  {
    OrderedAppend(ts, t, at);
    OrderedAppend(full, t, at);
    OneMore(ts, t, lo, t.ts, true);
    OneMore(full, t, lo, t.ts, true);
    LaterQuery(ts, lo, at, t.ts, true);
    LaterQuery(full, lo, at, t.ts, true);
  }

  /** A repeated report is not stored, and nothing is lost by it. */
  lemma RepeatAgrees(ts: seq<Transition>, full: seq<Transition>, t: Transition, window: real, at: real, lo: real)
    requires Agrees(ts, full, window, at, lo) && at <= t.ts && window >= 0.0
    requires t.state == full[|full| - 1].state
    ensures Agrees(ts, full + [t], window, t.ts, lo)
  {
    OrderedAppend(ts, t, at);
    OrderedAppend(full, t, at);
    OneMore(full, t, lo, t.ts, true);
    LaterQuery(ts, lo, at, t.ts, true);
    LaterQuery(full, lo, at, t.ts, true);
  }

  /** A segment that ends before the window does not count, so dropping it loses nothing. */
  lemma {:induction false} PruneAgrees(ts: seq<Transition>, full: seq<Transition>, window: real, at: real, lo: real)
    requires Agrees(ts, full, window, at, lo) && lo >= at - window
    ensures Agrees(Pruned(ts, at - window), full, window, at, lo)
    decreases |ts|
  {
    if |ts| > 1 && ts[0].ts < at - window && ts[1].ts < at - window {
      PruneAgrees(ts[1..], full, window, at, lo);
    }
  }

  lemma FirstSample(s: Sample, window: real, lo: real)
    requires s.at > 0.0 && window >= 0.0 && lo >= s.at - window
    ensures Faithful(Recorded(None, window, s.admission, s.at), [Observation(s.at, s.admission)], RunAfter(None, s), s,
      window, lo)
  {
    var one := [Observation(s.at, s.admission)];
    assert [] + one == one;
    PruneAgrees(one, one, window, s.at, lo);
  }

  lemma RepeatStep(ts: seq<Transition>, full: seq<Transition>, t: Transition, window: real, at: real, lo: real)
    requires Agrees(ts, full, window, at, lo) && at <= t.ts && window >= 0.0 && lo >= t.ts - window
    requires t.state == full[|full| - 1].state
    ensures Agrees(Pruned(ts, t.ts - window), full + [t], window, t.ts, lo)
  {
    RepeatAgrees(ts, full, t, window, at, lo);
    PruneAgrees(ts, full + [t], window, t.ts, lo);
  }

  lemma ChangeStep(ts: seq<Transition>, full: seq<Transition>, t: Transition, window: real, at: real, lo: real)
    requires Agrees(ts, full, window, at, lo) && at <= t.ts && window >= 0.0 && lo >= t.ts - window
    ensures Agrees(Pruned(ts + [t], t.ts - window), full + [t], window, t.ts, lo)
  {
    AppendAgrees(ts, full, t, window, at, lo);
    PruneAgrees(ts + [t], full + [t], window, t.ts, lo);
  }

  lemma NextSample(e: Entry, full: seq<Transition>, run: Option<real>, before: Sample, s: Sample, window: real,
                   lo: real)
    requires Faithful(e, full, run, before, window, lo) && window >= 0.0 && lo >= s.at - window
    requires before.at <= s.at && s.at - before.at <= window
    ensures Faithful(Recorded(Some(e), window, s.admission, s.at), full + [Observation(s.at, s.admission)],
      RunAfter(run, s), s, window, lo)
  {
    if Repeats(e.last, s.admission) {
      RepeatStep(e.transitions, full, Observation(s.at, s.admission), window, before.at, lo);
    } else {
      ChangeStep(e.transitions, full, Observation(s.at, s.admission), window, before.at, lo);
    }
  }

  ghost predicate FaithfulTo(e: Entry, samples: seq<Sample>, window: real, lo: real) {
    samples != [] && Faithful(e, Uncompressed(samples), BlockedRun(samples), Final(samples), window, lo)
  }

  lemma {:induction false} TrackedIsFaithful(samples: seq<Sample>, window: real, lo: real)
    requires samples != [] && Monotone(samples) && window >= 0.0 && lo >= Final(samples).at - window
    ensures Tracked(samples, window).Some?
    ensures FaithfulTo(Tracked(samples, window).value, SinceGap(samples, window), window, lo)
    ensures Final(SinceGap(samples, window)) == Final(samples)
    decreases |samples|
  {
    var s, before := Final(samples), Front(samples);
    if before == [] {
      assert SinceGap(samples, window) == [s];
      Fresh(s, window, lo);
    } else {
      TrackedIsFaithful(before, window, lo);
      var e, recent := Tracked(before, window).value, SinceGap(before, window);
      if s.at - e.lastSampleAt > window {
        assert Recorded(Some(e), window, s.admission, s.at) == Recorded(None, window, s.admission, s.at);
        Fresh(s, window, lo);
      } else {
        NextSample(e, Uncompressed(recent), BlockedRun(recent), Final(recent), s, window, lo);
        assert Front(recent + [s]) == recent;
      }
    }
  }

  lemma Fresh(s: Sample, window: real, lo: real)
    requires s.at > 0.0 && window >= 0.0 && lo >= s.at - window
    ensures FaithfulTo(Recorded(None, window, s.admission, s.at), [s], window, lo)
  {
    FirstSample(s, window, lo);
    assert Front([s]) == [];
  }

  lemma {:induction false} UncompressedAt(samples: seq<Sample>)
    ensures |Uncompressed(samples)| == |samples|
    ensures forall i | 0 <= i < |samples| ::
              Uncompressed(samples)[i] == Observation(samples[i].at, samples[i].admission)
    decreases |samples|
  {
    if samples != [] {
      UncompressedAt(Front(samples));
      assert forall i | 0 <= i < |samples| - 1 :: Front(samples)[i] == samples[i];
    }
  }

  /** The blocked time of the list of transitions is that of the samples. */
  lemma {:induction false} TimeIsBlockedTime(samples: seq<Sample>, lo: real, now: real)
    requires Monotone(samples) && (samples != [] ==> Final(samples).at <= now)
    ensures TimeIn(Uncompressed(samples), lo, now, true) == BlockedTime(samples, lo, now)
    decreases |samples|
  {
    UncompressedAt(samples);
    if samples != [] {
      var rest := samples[1..];
      UncompressedAt(rest);
      assert Uncompressed(samples)[1..] == Uncompressed(rest);
      assert forall i | 0 <= i < |rest| :: rest[i] == samples[i + 1];
      TimeIsBlockedTime(rest, lo, now);
    }
  }

  /** The tracked start of the run is that of the blocked samples at the end. */
  lemma {:induction false} RunIsBlockedFrom(samples: seq<Sample>)
    ensures BlockedRun(samples).Some? ==>
      exists k: nat :: BlockedFrom(samples, k) && samples[k].at == BlockedRun(samples).value
    ensures BlockedRun(samples).None? ==> samples == [] || !Blocks(Final(samples).admission)
    decreases |samples|
  {
    if samples != [] {
      var before := Front(samples);
      RunIsBlockedFrom(before);
      assert forall i | 0 <= i < |before| :: before[i] == samples[i];
      if BlockedRun(before).Some? {
        var k: nat :| BlockedFrom(before, k) && before[k].at == BlockedRun(before).value;
        if Blocks(Final(samples).admission) { assert BlockedFrom(samples, k); }
      } else if Blocks(Final(samples).admission) {
        assert BlockedFrom(samples, |before|);
      }
    }
  }

  lemma OneStart(samples: seq<Sample>, j: nat, k: nat)
    requires BlockedFrom(samples, j) && BlockedFrom(samples, k)
    ensures j == k
  {
    assert k > 0 ==> !Blocks(samples[k - 1].admission);
    assert j > 0 ==> !Blocks(samples[j - 1].admission);
  }

  lemma {:induction false} SinceGapIsMonotone(samples: seq<Sample>, window: real)
    requires samples != [] && Monotone(samples)
    ensures var g := SinceGap(samples, window); g != [] && Monotone(g) && Final(g) == Final(samples)
    decreases |samples|
  {
    var before := Front(samples);
    if before != [] {
      assert forall i | 0 <= i < |before| :: before[i] == samples[i];
      assert Final(before) == samples[|samples| - 2];
      SinceGapIsMonotone(before, window);
      Snoc(SinceGap(before, window), Final(samples));
    } else {
      assert SinceGap(before, window) == [] && SinceGap(samples, window) == [Final(samples)];
    }
  }

  /** The three queries, answered from the entry and from the samples themselves. The
      ratio needs no clamp: it never exceeds one. */
  ghost predicate AnswersAs(e: Entry, full: seq<Sample>, window: real, t: Thresholds, now: real)
    requires full != []
  {
    var covered := Covered(full, window, now);
    && ObservedIn(e, window, now) == covered
    && (covered > 0.0 ==>
          RatioIn(e, window, now) == BlockedTime(full, now - window, now) / covered &&
            0.0 <= RatioIn(e, window, now) <= 1.0)
    && (DivertsIn(e, window, t, now) <==> FullDivert(full, window, t, now))
  }

  /** Main result. For every run of samples and every query time from the last sample on,
      the stored history answers as the full list of samples since the last gap. */
  lemma CompressedHistoryIsFull(samples: seq<Sample>, window: real, t: Thresholds, now: real)
    requires samples != [] && Monotone(samples) && window >= 1.0 && Final(samples).at <= now
    ensures Tracked(samples, window).Some?
    ensures SinceGap(samples, window) != []
    ensures AnswersAs(Tracked(samples, window).value, SinceGap(samples, window), window, t, now)
  {
    TrackedIsFaithful(samples, window, now - window);
    SinceGapIsMonotone(samples, window);
    FaithfulAnswers(Tracked(samples, window).value, SinceGap(samples, window), window, t, now);
  }

  lemma FaithfulAnswers(e: Entry, full: seq<Sample>, window: real, t: Thresholds, now: real)
    requires FaithfulTo(e, full, window, now - window) && Monotone(full) && window >= 1.0 && Final(full).at <= now
    ensures AnswersAs(e, full, window, t, now)
  {
    SpanAnswers(e, full, window, now);
    RatioAnswers(e, full, window, now);
    DivertAnswers(e, full, window, t, now);
  }

  lemma SpanAnswers(e: Entry, full: seq<Sample>, window: real, now: real)
    requires FaithfulTo(e, full, window, now - window) && Monotone(full) && window >= 1.0 && Final(full).at <= now
    ensures ObservedIn(e, window, now) == Covered(full, window, now) >= 0.0
  {
    UncompressedAt(full);
    SpanAgrees(e.transitions, Uncompressed(full), window, Final(full).at, now);
  }

  lemma RatioAnswers(e: Entry, full: seq<Sample>, window: real, now: real)
    requires FaithfulTo(e, full, window, now - window) && Monotone(full) && window >= 1.0 && Final(full).at <= now
    ensures var covered := Covered(full, window, now); covered > 0.0 ==>
      RatioIn(e, window, now) == BlockedTime(full, now - window, now) / covered && 0.0 <= RatioIn(e, window, now) <= 1.0
  {
    SpanAnswers(e, full, window, now);
    if Covered(full, window, now) > 0.0 {
      RatioAgrees(e.transitions, Uncompressed(full), window, Final(full).at, now);
      TimeIsBlockedTime(full, now - window, now);
    }
  }

  lemma DivertIsTooLong(last: Admission, since: real, covered: real, blocked: real, ratio: real, t: Thresholds,
                        now: real)
    requires since <= now && covered >= 0.0 && (covered > 0.0 ==> ratio == blocked / covered)
    ensures Divert(Some(since), LoadedOf(last), covered, ratio, t, now) <==>
      TooLong(last, now - since, covered, blocked, t)
  {
    if covered > 0.0 { FractionAtLeast(blocked, covered, t.ratio); }
  }

  /** The decision: by the length of the run, or by the blocked part of the window. */
  lemma DivertAnswers(e: Entry, full: seq<Sample>, window: real, t: Thresholds, now: real)
    requires FaithfulTo(e, full, window, now - window) && Monotone(full) && window >= 1.0 && Final(full).at <= now
    ensures DivertsIn(e, window, t, now) <==> FullDivert(full, window, t, now)
  {
    RunIsBlockedFrom(full);
    if BlockedRun(full).Some? {
      var k: nat :| BlockedFrom(full, k) && full[k].at == BlockedRun(full).value;
      forall j: nat | BlockedFrom(full, j) ensures j == k { OneStart(full, j, k); }
      SpanAnswers(e, full, window, now);
      RatioAnswers(e, full, window, now);
      DivertIsTooLong(Final(full).admission, full[k].at, Covered(full, window, now),
                      BlockedTime(full, now - window, now), RatioIn(e, window, now), t, now);
    } else {
      assert !Blocks(full[|full| - 1].admission);
    }
  }

  lemma FractionAtLeast(part: real, whole: real, q: real)
    requires whole > 0.0
    ensures part / whole >= q <==> part >= q * whole
  {
    var r := part / whole;
    assert r * whole == part;
    if r >= q { assert (r - q) * whole >= 0.0; } else { assert (q - r) * whole > 0.0; }
  }

  lemma SpanAgrees(ts: seq<Transition>, full: seq<Transition>, window: real, at: real, now: real)
    requires Agrees(ts, full, window, at, now - window) && at <= now && window >= 1.0
    ensures Span(ts[0].ts, window, now) == Span(full[0].ts, window, now)
  {
  }

  /** The clamps of `blocked_ratio` never act: the fraction is between zero and one. */
  lemma RatioAgrees(ts: seq<Transition>, full: seq<Transition>, window: real, at: real, now: real)
    requires Agrees(ts, full, window, at, now - window) && at <= now && window >= 1.0 &&
      Span(ts[0].ts, window, now) > 0.0
    ensures TimeIn(ts, now - window, now, true) == TimeIn(full, now - window, now, true)
    ensures 0.0 <= TimeIn(ts, now - window, now, true) / Span(ts[0].ts, window, now) <= 1.0
  {
    LaterQuery(ts, now - window, at, now, true);
    LaterQuery(full, now - window, at, now, true);
    OrderedLater(ts, at, now);
    TimeSplits(ts, now - window, now);
    TimeSinks(ts, now - window, now - window, now, true);
    TimeSinks(ts, now - window, now - window, now, false);
    AtMostOne(TimeIn(ts, now - window, now, true), Span(ts[0].ts, window, now));
  }

  lemma AtMostOne(part: real, whole: real)
    requires 0.0 <= part <= whole && whole > 0.0
    ensures 0.0 <= part / whole <= 1.0
  {
  }

  // ---- the stored history is small --------------------------------------------------

  /** A transition repeats the one before it only after an empty report. */
  predicate NoRepeats(ts: seq<Transition>) {
    forall i | 0 < i < |ts| && ts[i].reason == ts[i - 1].reason && ts[i].loaded == ts[i - 1].loaded ::
      ts[i].reason == NoReason && ts[i].loaded == Unknown
  }

  /** All but the first stored transition lie in the window. */
  predicate Small(ts: seq<Transition>, cutoff: real) {
    (forall i | 0 < i < |ts| :: ts[i].ts >= cutoff) && NoRepeats(ts)
  }

  lemma {:induction false} PrunedIsSmall(ts: seq<Transition>, end: real, cutoff: real)
    requires Ordered(ts, end) && NoRepeats(ts)
    ensures Small(Pruned(ts, cutoff), cutoff)
    ensures ts != [] ==> Pruned(ts, cutoff) != [] && Final(Pruned(ts, cutoff)) == Final(ts)
    decreases |ts|
  {
    if |ts| > 1 && ts[0].ts < cutoff && ts[1].ts < cutoff {
      assert forall i | 0 <= i < |ts[1..]| :: ts[1..][i] == ts[i + 1];
      PrunedIsSmall(ts[1..], end, cutoff);
    } else {
      LaterInOrder(ts, end);
    }
  }

  lemma {:induction false} LaterInOrder(ts: seq<Transition>, end: real)
    requires Ordered(ts, end)
    ensures forall i, j | 0 <= i <= j < |ts| :: ts[i].ts <= ts[j].ts
    decreases |ts|
  {
    if ts != [] {
      LaterInOrder(ts[1..], end);
      assert forall i | 0 <= i < |ts[1..]| :: ts[1..][i] == ts[i + 1];
    }
  }

  /** Compressed to its changes, pruned to the window before the last sample, and up to date. */
  ghost predicate SmallAfter(e: Entry, s: Sample, window: real) {
    && e.transitions != [] && Small(e.transitions, s.at - window)
    && Final(e.transitions).reason == ReasonOf(s.admission) && Final(e.transitions).loaded == LoadedOf(s.admission)
  }

  lemma LongerIsSmall(ts: seq<Transition>, previous: Admission, at: real, a: Admission, now: real, window: real)
    requires Ordered(ts, at) && NoRepeats(ts) && at <= now && 0.0 < now
    requires ts != [] ==> Final(ts).reason == ReasonOf(previous) && Final(ts).loaded == LoadedOf(previous)
    requires ts == [] ==> previous.Blank?
    ensures var longer := if Repeats(previous, a) then ts else ts + [Observation(now, a)];
      var kept := Pruned(longer, now - window);
      kept != [] && Small(kept, now - window) && Final(kept).reason == ReasonOf(a) && Final(kept).loaded == LoadedOf(a)
  {
    var o := Observation(now, a);
    OrderedLater(ts, at, now);
    OrderedAppend(ts, o, at);
    Snoc(ts, o);
    var longer := if Repeats(previous, a) then ts else ts + [o];
    PrunedIsSmall(longer, now, now - window);
  }

  lemma TrackedIsOrdered(samples: seq<Sample>, window: real)
    requires samples != [] && Monotone(samples) && window >= 0.0
    ensures Tracked(samples, window).Some?
    ensures var e, s := Tracked(samples, window).value, Final(samples);
      e.last == s.admission && Ordered(e.transitions, s.at)
  {
    TrackedIsFaithful(samples, window, Final(samples).at - window);
  }

  /** However many samples came, the stored history is compressed to its changes and pruned
      to the window before the last sample. */
  lemma {:induction false} HistoryIsSmall(samples: seq<Sample>, window: real)
    requires samples != [] && Monotone(samples) && window >= 0.0
    ensures Tracked(samples, window).Some? && SmallAfter(Tracked(samples, window).value, Final(samples), window)
    decreases |samples|
  {
    var before, s := Front(samples), Final(samples);
    assert samples[|samples| - 1] == s && s.at > 0.0;
    if before == [] {
      LongerIsSmall([], Blank, s.at, s.admission, s.at, window);
    } else {
      HistoryIsSmall(before, window);
      TrackedIsOrdered(before, window);
      var e, last := Tracked(before, window).value, Final(before);
      assert last == samples[|samples| - 2];
      var held := Opened(Some(e), window, s.at);
      if held == e {
        LongerIsSmall(e.transitions, e.last, last.at, s.admission, s.at, window);
      } else {
        LongerIsSmall([], Blank, s.at, s.admission, s.at, window);
      }
    }
  }

  // ---- diverting is monotone in time ------------------------------------------------

  lemma FractionGrows(b1: real, o1: real, b2: real, o2: real)
    requires 0.0 <= b1 <= o1 && 0.0 < o1 <= o2 && b2 <= o2 && o2 - b2 <= o1 - b1
    ensures b1 / o1 <= b2 / o2
  {
    var q := b1 / o1;
    assert q * o1 == b1 && q <= 1.0;
    assert (1.0 - q) * (o2 - o1) >= 0.0;
    assert b2 >= q * o2;
    QuotientAtLeast(b2, o2, q);
  }

  lemma QuotientAtLeast(part: real, whole: real, q: real)
    requires whole > 0.0 && part >= q * whole
    ensures part / whole >= q
  {
  }

  /** While the last report is blocked, the window only loses unblocked time. */
  lemma BlockedFractionGrows(ts: seq<Transition>, window: real, at: real, t1: real, t2: real)
    requires ts != [] && Ordered(ts, at) && at <= t1 <= t2 && window >= 1.0
    requires ts[|ts| - 1].state == BlockedState && Span(ts[0].ts, window, t1) > 0.0
    ensures TimeIn(ts, t1 - window, t1, true) / Span(ts[0].ts, window, t1)
         <= TimeIn(ts, t2 - window, t2, true) / Span(ts[0].ts, window, t2)
  {
    OrderedLater(ts, at, t1);
    OrderedLater(ts, at, t2);
    TimeSplits(ts, t1 - window, t1);
    TimeSplits(ts, t2 - window, t2);
    LaterQuery(ts, t2 - window, t1, t2, false);
    TimeSinks(ts, t1 - window, t2 - window, t1, false);
    TimeSinks(ts, t1 - window, t1 - window, t1, true);
    FractionGrows(TimeIn(ts, t1 - window, t1, true), Span(ts[0].ts, window, t1),
                  TimeIn(ts, t2 - window, t2, true), Span(ts[0].ts, window, t2));
  }

  lemma DivertGrows(e: Entry, window: real, at: real, t: Thresholds, t1: real, t2: real)
    requires e.transitions != [] && Ordered(e.transitions, at) && at <= t1 <= t2 && window >= 1.0
    requires e.blockedSince.Some? ==> e.transitions[|e.transitions| - 1].state == BlockedState
    requires DivertsIn(e, window, t, t1)
    ensures DivertsIn(e, window, t, t2)
  {
    if ObservedIn(e, window, t1) > 0.0 {
      BlockedFractionGrows(e.transitions, window, at, t1, t2);
      assert RatioIn(e, window, t1) <= RatioIn(e, window, t2);
    }
  }

  /** Once the tracker says divert, it says so at every later time until the next sample. */
  lemma DivertStays(samples: seq<Sample>, window: real, t: Thresholds, t1: real, t2: real)
    requires samples != [] && Monotone(samples) && window >= 1.0
    requires Final(samples).at <= t1 <= t2
    requires Tracked(samples, window).Some? && DivertsIn(Tracked(samples, window).value, window, t, t1)
    ensures DivertsIn(Tracked(samples, window).value, window, t, t2)
  {
    TrackedIsFaithful(samples, window, t1 - window);
    DivertGrows(Tracked(samples, window).value, window, Final(samples).at, t, t1, t2);
  }
}
