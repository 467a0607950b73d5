/** The in-process prefix-affinity cache (core/kv_affinity.py, class KvAffinityStore).

    An ordered dictionary is a sequence of records, least recently used first, with distinct
    keys. The key is a prefix length and a digest; the keyed hash is modelled as injective,
    so a digest is the request kind and the prefix itself. */
module AffinityStore {
  import opened Basics
  import opened PrefixContext

  datatype Digest = Digest(kind: string, prefix: string)

  datatype Key = Key(length: int, digest: Digest)

  datatype Executor = Executor(provider: Name, model: Name)

  datatype Record = Record(key: Key, executor: Executor, lastUsed: real, expires: real, hits: nat)

  datatype Fingerprint = Fingerprint(kind: string, anchor: int, text: string)

  /** What `fingerprint` builds: a proper prefix length of the text. */
  predicate Proper(fp: Fingerprint) { 0 < fp.anchor <= |fp.text| }

  function KeyAt(fp: Fingerprint, length: int): Key
    requires 0 <= length <= |fp.text|
  {
    Key(length, Digest(fp.kind, fp.text[..length]))
  }

  function MakeFingerprint(p: AnchorPolicy, fields: seq<Field>, kind: string): Fingerprint {
    var text := Canonical(fields, kind);
    Fingerprint(Kind(kind), Anchor(p, |text|), text)
  }

  lemma FingerprintIsProper(p: AnchorPolicy, fields: seq<Field>, kind: string)
    requires Sane(p)
    ensures Proper(MakeFingerprint(p, fields, kind))
  {
    assert |Canonical(fields, kind)| >= |"kv1"| == 3;
    AnchorBounds(p, |Canonical(fields, kind)|);
  }

  // ---- lists of records -------------------------------------------------------------

  function Live(rs: seq<Record>, now: real): seq<Record> {
    if rs == [] then [] else if rs[0].expires <= now then Live(rs[1..], now) else [rs[0]] + Live(rs[1..], now)
  }

  function Removed(rs: seq<Record>, k: Key): seq<Record> {
    if rs == [] then [] else if rs[0].key == k then Removed(rs[1..], k) else [rs[0]] + Removed(rs[1..], k)
  }

  function WithoutExecutor(rs: seq<Record>, e: Executor): seq<Record> {
    if rs == [] then []
    else if rs[0].executor == e then WithoutExecutor(rs[1..], e)
    else [rs[0]] + WithoutExecutor(rs[1..], e)
  }

  function Lookup(rs: seq<Record>, k: Key): (r: Option<Record>)
    ensures r.Some? ==> r.value.key == k && r.value in rs
  {
    if rs == [] then None else if rs[0].key == k then Some(rs[0]) else Lookup(rs[1..], k)
  }

  /** The digest comparison of one record. */
  predicate Prefixes(r: Record, fp: Fingerprint) {
    0 <= r.key.length <= fp.anchor && r.key.length <= |fp.text| && r.key == KeyAt(fp, r.key.length)
  }

  /** The scan of `lookup`: the longest match wins, the more recent one on a tie. */
  function BestFrom(rs: seq<Record>, fp: Fingerprint, best: Option<Record>): Option<Record>
    decreases |rs|
  {
    if rs == [] then best
    else
      var r := rs[0];
      BestFrom(rs[1..], fp,
               if Prefixes(r, fp) && (best.None? || r.key.length > best.value.key.length
                                     || (r.key.length == best.value.key.length && r.lastUsed > best.value.lastUsed))
               then Some(r) else best)
  }

  function Best(rs: seq<Record>, fp: Fingerprint): Option<Record> { BestFrom(rs, fp, None) }

  function Used(r: Record, now: real): Record { r.(lastUsed := now, hits := r.hits + 1) }

  /** Move to the end, as `move_to_end` does. */
  function Moved(rs: seq<Record>, r: Record): seq<Record> { Removed(rs, r.key) + [r] }

  function AfterLookup(rs: seq<Record>, fp: Fingerprint, now: real): seq<Record> {
    var live := Live(rs, now);
    var best := Best(live, fp);
    if best.None? then live else Moved(live, Used(best.value, now))
  }

  /** Drops the oldest records beyond the limit. */
  function Bounded(rs: seq<Record>, limit: int): seq<Record>
    requires limit >= 0
    decreases |rs|
  {
    if |rs| > limit then Bounded(rs[1..], limit) else rs
  }

  function Remembered(rs: seq<Record>, fp: Fingerprint, e: Executor, ttl: int, limit: int, now: real): seq<Record>
    requires Proper(fp) && limit >= 0
  {
    var live, k := Live(rs, now), KeyAt(fp, fp.anchor);
    var known := Lookup(live, k);
    Bounded(Moved(live, Record(k, e, now, now + ttl as real, if known.Some? then known.value.hits else 0)), limit)
  }

  predicate Complete(e: Executor) { e.provider != Unnamed && e.model != Unnamed }

  class KvAffinityStore {
    const enabled: bool
    const ttlSeconds: int
    const maxEntries: int
    var records: seq<Record>

    ghost predicate Valid()
      reads this
    {
      ttlSeconds >= 1 && maxEntries >= 1
    }

    constructor (enabled: bool, ttl: int, limit: int)
      ensures Valid() && records == [] && this.enabled == enabled && ttlSeconds == Max(1, ttl) &&
        maxEntries == Max(1, limit)
    {
      this.enabled, ttlSeconds, maxEntries, records := enabled, Max(1, ttl), Max(1, limit), [];
    }

    method Prune(now: real)
      modifies `records
      ensures records == Live(old(records), now)
    {
      var rest, kept: seq<Record> := records, [];
      while rest != []
        invariant kept + Live(rest, now) == Live(old(records), now)
        decreases |rest|
      {
        if rest[0].expires > now { kept := kept + [rest[0]]; }
        rest := rest[1..];
      }
      assert kept + Live(rest, now) == kept;
      records := kept;
    }

    method Find(fp: Fingerprint, now: real) returns (found: Option<Record>)
      modifies `records
      ensures !enabled ==> found == None && records == old(records)
      ensures enabled ==> records == AfterLookup(old(records), fp, now)
      ensures enabled ==>
        var best := Best(Live(old(records), now), fp); found == if best.Some? then Some(Used(best.value, now)) else None
    {
      if !enabled { return None; }
      Prune(now);
      var best: Option<Record>, rest := None, records;
      while rest != []
        invariant BestFrom(rest, fp, best) == Best(records, fp)
        decreases |rest|
      {
        var r := rest[0];
        if Prefixes(r, fp) {
          if best.None? || r.key.length > best.value.key.length {
            best := Some(r);
          } else if r.key.length == best.value.key.length && r.lastUsed > best.value.lastUsed {
            best := Some(r);
          }
        }
        rest := rest[1..];
      }
      if best.None? { return None; }
      var used := Used(best.value, now);
      records := Removed(records, used.key) + [used];
      return Some(used);
    }

    method EnforceBounds()
      requires Valid()
      modifies `records
      ensures records == Bounded(old(records), maxEntries)
    {
      while |records| > maxEntries
        invariant Bounded(records, maxEntries) == Bounded(old(records), maxEntries)
        decreases |records|
      {
        records := records[1..];
      }
    }

    method Remember(fp: Fingerprint, e: Executor, now: real)
      requires Valid() && Proper(fp)
      modifies `records
      ensures records ==
        if enabled && Complete(e) then Remembered(old(records), fp, e, ttlSeconds, maxEntries, now) else old(records)
    {
      if !enabled || !Complete(e) { return; }
      Prune(now);
      var k := KeyAt(fp, fp.anchor);
      var known := Lookup(records, k);
      var hits := if known.Some? then known.value.hits else 0;
      records := Removed(records, k) + [Record(k, e, now, now + ttlSeconds as real, hits)];
      EnforceBounds();
    }

    method ForgetPrefix(fp: Fingerprint)
      requires Proper(fp)
      modifies `records
      ensures records == Removed(old(records), KeyAt(fp, fp.anchor))
    {
      records := Removed(records, KeyAt(fp, fp.anchor));
    }

    method ForgetCandidate(e: Executor)
      modifies `records
      ensures records == if Complete(e) then WithoutExecutor(old(records), e) else old(records)
    {
      if !Complete(e) { return; }
      var rest, kept: seq<Record> := records, [];
      while rest != []
        invariant kept + WithoutExecutor(rest, e) == WithoutExecutor(old(records), e)
        decreases |rest|
      {
        if rest[0].executor != e { kept := kept + [rest[0]]; }
        rest := rest[1..];
      }
      assert kept + WithoutExecutor(rest, e) == kept;
      records := kept;
    }
  }

  // ---- what every operation keeps ---------------------------------------------------

  predicate Has(rs: seq<Record>, k: Key) { Lookup(rs, k).Some? }

  /** Distinct keys, least recently used first, nothing used after `now`. */
  predicate Sorted(rs: seq<Record>, now: real) {
    rs == [] || (!Has(rs[1..], rs[0].key) && rs[0].lastUsed <= now
                 && (|rs| > 1 ==> rs[0].lastUsed <= rs[1].lastUsed) && Sorted(rs[1..], now))
  }

  lemma {:induction false} HasWithout(rs: seq<Record>, k: Key, other: Key)
    ensures Lookup(Removed(rs, k), other) == if other == k then None else Lookup(rs, other)
    decreases |rs|
  {
    if rs != [] { HasWithout(rs[1..], k, other); }
  }

  lemma {:induction false} HasLive(rs: seq<Record>, now: real, k: Key, at: real)
    requires Sorted(rs, at)
    ensures Lookup(Live(rs, now), k) == var r := Lookup(rs, k); if r.Some? && r.value.expires > now then r else None
    decreases |rs|
  {
    if rs != [] {
      HasLive(rs[1..], now, k, at);
    }
  }

  /** `low` bounds the uses of all records from below. */
  predicate From(rs: seq<Record>, low: real) { rs == [] || rs[0].lastUsed >= low }

  lemma {:induction false} LiveSorted(rs: seq<Record>, now: real, at: real, low: real)
    requires Sorted(rs, at) && From(rs, low)
    ensures Sorted(Live(rs, now), at) && From(Live(rs, now), low) && |Live(rs, now)| <= |rs|
    decreases |rs|
  {
    if rs != [] {
      LiveSorted(rs[1..], now, at, rs[0].lastUsed);
      HasLive(rs[1..], now, rs[0].key, at);
      if rs[0].expires <= now { LiveSorted(rs[1..], now, at, low); }
    }
  }

  lemma {:induction false} WithoutSorted(rs: seq<Record>, k: Key, at: real, low: real)
    requires Sorted(rs, at) && From(rs, low)
    ensures Sorted(Removed(rs, k), at) && From(Removed(rs, k), low)
    ensures |Removed(rs, k)| == if Has(rs, k) then |rs| - 1 else |rs|
    decreases |rs|
  {
    if rs != [] {
      WithoutSorted(rs[1..], k, at, rs[0].lastUsed);
      HasWithout(rs[1..], k, rs[0].key);
      if rs[0].key == k { WithoutSorted(rs[1..], k, at, low); }
    }
  }

  lemma {:induction false} HasWithoutExecutor(rs: seq<Record>, e: Executor, k: Key, at: real)
    requires Sorted(rs, at)
    ensures Lookup(WithoutExecutor(rs, e), k) == var r := Lookup(rs, k); if r.Some? && r.value.executor != e then r
      else None
    decreases |rs|
  {
    if rs != [] { HasWithoutExecutor(rs[1..], e, k, at); }
  }

  lemma {:induction false} WithoutExecutorSorted(rs: seq<Record>, e: Executor, at: real, low: real)
    requires Sorted(rs, at) && From(rs, low)
    ensures Sorted(WithoutExecutor(rs, e), at) && From(WithoutExecutor(rs, e), low) && |WithoutExecutor(rs, e)| <= |rs|
    decreases |rs|
  {
    if rs != [] {
      WithoutExecutorSorted(rs[1..], e, at, rs[0].lastUsed);
      HasWithoutExecutor(rs[1..], e, rs[0].key, at);
      if rs[0].executor == e { WithoutExecutorSorted(rs[1..], e, at, low); }
    }
  }

  lemma {:induction false} HasAppend(rs: seq<Record>, r: Record, k: Key)
    ensures Lookup(rs + [r], k) == if Has(rs, k) then Lookup(rs, k) else if r.key == k then Some(r) else None
    decreases |rs|
  {
    if rs == [] {
      assert rs + [r] == [r];
    } else {
      assert (rs + [r])[1..] == rs[1..] + [r];
      HasAppend(rs[1..], r, k);
    }
  }

  lemma {:induction false} AppendSorted(rs: seq<Record>, r: Record, at: real)
    requires Sorted(rs, at) && !Has(rs, r.key) && at <= r.lastUsed
    ensures Sorted(rs + [r], r.lastUsed)
    decreases |rs|
  {
    if rs == [] {
      assert rs + [r] == [r];
    } else {
      assert (rs + [r])[1..] == rs[1..] + [r];
      AppendSorted(rs[1..], r, at);
      HasAppend(rs[1..], r, rs[0].key);
    }
  }

  lemma {:induction false} SortedLater(rs: seq<Record>, at: real, later: real)
    requires Sorted(rs, at) && at <= later
    ensures Sorted(rs, later)
    decreases |rs|
  {
    if rs != [] { SortedLater(rs[1..], at, later); }
  }

  lemma MovedSorted(rs: seq<Record>, r: Record, at: real)
    requires Sorted(rs, at) && at <= r.lastUsed
    ensures Sorted(Moved(rs, r), r.lastUsed) && Lookup(Moved(rs, r), r.key) == Some(r)
    ensures |Moved(rs, r)| == if Has(rs, r.key) then |rs| else |rs| + 1
  {
    WithoutSorted(rs, r.key, at, if rs == [] then at else rs[0].lastUsed);
    HasWithout(rs, r.key, r.key);
    AppendSorted(Removed(rs, r.key), r, at);
    HasAppend(Removed(rs, r.key), r, r.key);
  }

  lemma LiveKept(rs: seq<Record>, now: real, at: real)
    requires Sorted(rs, at)
    ensures Sorted(Live(rs, now), at) && |Live(rs, now)| <= |rs|
  {
    LiveSorted(rs, now, at, if rs == [] then at else rs[0].lastUsed);
  }

  // ---- lookup is the longest live prefix --------------------------------------------

  predicate LiveMatch(rs: seq<Record>, fp: Fingerprint, length: int, now: real) {
    0 <= length <= fp.anchor && length <= |fp.text| &&
    Has(rs, KeyAt(fp, length)) && Lookup(rs, KeyAt(fp, length)).value.expires > now
  }

  lemma {:induction false} BestIsLongest(rs: seq<Record>, fp: Fingerprint, best: Option<Record>, at: real)
    requires Sorted(rs, at) && (best.Some? ==> Prefixes(best.value, fp) && !Has(rs, best.value.key))
    ensures var b := BestFrom(rs, fp, best);
      && (b.None? ==> best.None?)
      && (b.Some? ==> Prefixes(b.value, fp) && (b == best || Lookup(rs, b.value.key) == b))
      && (best.Some? ==> b.value.key.length >= best.value.key.length)
      && forall n: int | 0 <= n <= fp.anchor && n <= |fp.text| && Has(rs, KeyAt(fp, n)) ::
        b.Some? && b.value.key.length >= n
    decreases |rs|
  {
    if rs != [] {
      var r := rs[0];
      var next := if Prefixes(r, fp) && (best.None? || r.key.length > best.value.key.length
                     || (r.key.length == best.value.key.length && r.lastUsed > best.value.lastUsed)) then Some(r)
                       else best;
      BestIsLongest(rs[1..], fp, next, at);
    }
  }

  /** In a sorted store `lookup` answers with the live record whose stored prefix is the
      longest prefix of the text within the anchor, and with nothing if there is none. Two
      matches never have the same length, so the tie-break never decides. */
  lemma LookupIsLongestPrefix(rs: seq<Record>, fp: Fingerprint, now: real, at: real)
    requires Sorted(rs, at)
    ensures var b := Best(Live(rs, now), fp);
      && (b.Some? ==> LiveMatch(rs, fp, b.value.key.length, now) && Lookup(rs, KeyAt(fp, b.value.key.length)) == b)
      && forall n: int | LiveMatch(rs, fp, n, now) :: b.Some? && b.value.key.length >= n
  {
    LiveKept(rs, now, at);
    BestIsLongest(Live(rs, now), fp, None, at);
    var b := Best(Live(rs, now), fp);
    if b.Some? { HasLive(rs, now, b.value.key, at); }
    forall n: int | LiveMatch(rs, fp, n, now) ensures b.Some? && b.value.key.length >= n {
      HasLive(rs, now, KeyAt(fp, n), at);
    }
  }

  // ---- whole runs -------------------------------------------------------------------

  datatype Op =
    | Remembering(fp: Fingerprint, executor: Executor)
    | Looking(fp: Fingerprint)
    | ForgettingPrefix(fp: Fingerprint)
    | ForgettingCandidate(executor: Executor)
    | Clearing

  datatype Timed = Timed(op: Op, now: real)

  function Next(rs: seq<Record>, t: Timed, ttl: int, limit: int): seq<Record>
    requires limit >= 1 && (t.op.Remembering? || t.op.ForgettingPrefix? ==> Proper(t.op.fp))
  {
    match t.op
    case Remembering(fp, e) => if Complete(e) then Remembered(rs, fp, e, ttl, limit, t.now) else rs
    case Looking(fp) => AfterLookup(rs, fp, t.now)
    case ForgettingPrefix(fp) => Removed(rs, KeyAt(fp, fp.anchor))
    case ForgettingCandidate(e) => if Complete(e) then WithoutExecutor(rs, e) else rs
    case Clearing => []
  }

  ghost predicate Monotone(ts: seq<Timed>, at: real) {
    ts == [] || (at <= ts[0].now && (ts[0].op.Remembering? || ts[0].op.ForgettingPrefix? ==> Proper(ts[0].op.fp)) &&
      Monotone(ts[1..], ts[0].now))
  }

  ghost function After(rs: seq<Record>, ts: seq<Timed>, ttl: int, limit: int, at: real): seq<Record>
    requires limit >= 1 && Monotone(ts, at)
    decreases |ts|
  {
    if ts == [] then rs else After(Next(rs, ts[0], ttl, limit), ts[1..], ttl, limit, ts[0].now)
  }

  function LastTime(ts: seq<Timed>, at: real): real
    decreases |ts|
  {
    if ts == [] then at else LastTime(ts[1..], ts[0].now)
  }

  /** The invariant: sorted by use with distinct keys, and never over the limit. */
  predicate Inv(rs: seq<Record>, limit: int, at: real) { Sorted(rs, at) && |rs| <= limit }

  lemma RememberKeeps(rs: seq<Record>, fp: Fingerprint, e: Executor, ttl: int, limit: int, now: real, at: real)
    requires Inv(rs, limit, at) && at <= now && Proper(fp) && limit >= 1
    ensures Inv(Remembered(rs, fp, e, ttl, limit, now), limit, now)
    ensures var r := Lookup(Remembered(rs, fp, e, ttl, limit, now), KeyAt(fp, fp.anchor));
      r.Some? && r.value.executor == e && r.value.expires == now + ttl as real
  {
    var live, k := Live(rs, now), KeyAt(fp, fp.anchor);
    var known := Lookup(live, k);
    var r := Record(k, e, now, now + ttl as real, if known.Some? then known.value.hits else 0);
    LiveKept(rs, now, at);
    MovedSorted(live, r, at);
    var moved := Moved(live, r);
    if |moved| > limit {
      assert Bounded(moved, limit) == moved[1..];
      assert moved[0] != r by { assert moved[0] == Removed(live, k)[0]; HasWithout(live, k, k); }
    }
  }

  lemma OpKeepsInv(rs: seq<Record>, t: Timed, ttl: int, limit: int, at: real)
    requires Inv(rs, limit, at) && at <= t.now && limit >= 1
    requires t.op.Remembering? || t.op.ForgettingPrefix? ==> Proper(t.op.fp)
    ensures Inv(Next(rs, t, ttl, limit), limit, t.now)
  {
    SortedLater(rs, at, t.now);
    var low := if rs == [] then at else rs[0].lastUsed;
    match t.op
    case Remembering(fp, e) => RememberKeeps(rs, fp, e, ttl, limit, t.now, at);
    case Looking(fp) =>
      LiveKept(rs, t.now, at);
      LiveKept(rs, t.now, t.now);
      var live := Live(rs, t.now);
      var best := Best(live, fp);
      if best.Some? {
        BestIsLongest(live, fp, None, at);
        MovedSorted(live, Used(best.value, t.now), at);
      }
    case ForgettingPrefix(fp) => WithoutSorted(rs, KeyAt(fp, fp.anchor), t.now, low);
    case ForgettingCandidate(e) => WithoutExecutorSorted(rs, e, t.now, low);
    case Clearing =>
  }

  /** Main result: under a monotone clock every reachable store has distinct keys, is sorted
      by last use, and holds at most `limit` records. */
  lemma {:induction false} EveryRunKeepsInv(rs: seq<Record>, ts: seq<Timed>, ttl: int, limit: int, at: real)
    requires Inv(rs, limit, at) && limit >= 1 && Monotone(ts, at)
    ensures Inv(After(rs, ts, ttl, limit, at), limit, LastTime(ts, at))
    decreases |ts|
  {
    if ts != [] {
      OpKeepsInv(rs, ts[0], ttl, limit, at);
      EveryRunKeepsInv(Next(rs, ts[0], ttl, limit), ts[1..], ttl, limit, ts[0].now);
    }
  }

  /** A remembered executor is what the same request finds until its record expires. */
  lemma RememberThenLookup(rs: seq<Record>, fp: Fingerprint, e: Executor, ttl: int, limit: int, now: real, later: real,
                           at: real)
    requires Inv(rs, limit, at) && at <= now <= later < now + ttl as real && Proper(fp) && limit >= 1
    ensures var b := Best(Live(Remembered(rs, fp, e, ttl, limit, now), later), fp);
      b.Some? && b.value.executor == e && b.value.key == KeyAt(fp, fp.anchor)
  {
    var after := Remembered(rs, fp, e, ttl, limit, now);
    RememberKeeps(rs, fp, e, ttl, limit, now, at);
    LookupIsLongestPrefix(after, fp, later, now);
    assert LiveMatch(after, fp, fp.anchor, later);
  }

  /** A forgotten executor is never the answer again. */
  lemma ForgottenIsGone(rs: seq<Record>, e: Executor, fp: Fingerprint, now: real, at: real)
    requires Sorted(rs, at)
    ensures var b := Best(Live(WithoutExecutor(rs, e), now), fp); b.Some? ==> b.value.executor != e
  {
    var after := WithoutExecutor(rs, e);
    WithoutExecutorSorted(rs, e, at, if rs == [] then at else rs[0].lastUsed);
    LookupIsLongestPrefix(after, fp, now, at);
    var b := Best(Live(after, now), fp);
    if b.Some? { HasWithoutExecutor(rs, e, b.value.key, at); }
  }

  /** Remembering and forgetting act exactly for executors whose provider and model are named. */
  lemma NamedExecutorsCount(rs: seq<Record>, fp: Fingerprint, e: Executor, ttl: int, limit: int, now: real, later: real,
                            at: real)
    requires Inv(rs, limit, at) && at <= now <= later < now + ttl as real && Proper(fp) && limit >= 1
    ensures var named := e.provider != Unnamed && e.model != Unnamed;
      var known := Next(rs, Timed(Remembering(fp, e), now), ttl, limit);
      var gone := Next(rs, Timed(ForgettingCandidate(e), now), ttl, limit);
      && (if named then var b := Best(Live(known, later), fp); b.Some? && b.value.executor == e else known == rs)
      && (if named then var b := Best(Live(gone, later), fp); b.Some? ==> b.value.executor != e else gone == rs)
  {
    RememberThenLookup(rs, fp, e, ttl, limit, now, later, at);
    ForgottenIsGone(rs, e, fp, later, at);
  }

  lemma {:induction false} FirstIsOldest(rs: seq<Record>, at: real, i: nat)
    requires Sorted(rs, at) && i < |rs|
    ensures rs[0].lastUsed <= rs[i].lastUsed
    decreases i
  {
    if i > 0 { FirstIsOldest(rs[1..], at, i - 1); }
  }

  /** When `remember` overflows the limit it evicts one record, and no record was used
      longer ago. */
  lemma EvictsLeastRecent(rs: seq<Record>, fp: Fingerprint, e: Executor, ttl: int, limit: int, now: real, at: real)
    requires Inv(rs, limit, at) && at <= now && Proper(fp) && limit >= 1
    requires |Live(rs, now)| == limit && !Has(Live(rs, now), KeyAt(fp, fp.anchor))
    ensures var live, after := Live(rs, now), Remembered(rs, fp, e, ttl, limit, now);
      && |after| == limit && after[..limit - 1] == live[1..] && after[limit - 1].key == KeyAt(fp, fp.anchor)
      && forall i | 0 <= i < |live| :: live[0].lastUsed <= live[i].lastUsed
  {
    var live, k := Live(rs, now), KeyAt(fp, fp.anchor);
    LiveKept(rs, now, at);
    NothingToRemove(live, k);
    var r := Record(k, e, now, now + ttl as real, 0);
    assert Bounded(live + [r], limit) == (live + [r])[1..] == live[1..] + [r];
    forall i | 0 <= i < |live| ensures live[0].lastUsed <= live[i].lastUsed { FirstIsOldest(live, at, i); }
  }

  lemma {:induction false} NothingToRemove(rs: seq<Record>, k: Key)
    requires !Has(rs, k)
    ensures Removed(rs, k) == rs
    decreases |rs|
  {
    if rs != [] { NothingToRemove(rs[1..], k); }
  }

  // ---- growing conversations --------------------------------------------------------

  /** A later turn of a conversation finds at least the record of an earlier turn, as long
      as that record is live and the earlier anchor is not above the later one. */
  lemma GrowthFindsAffinity(rs: seq<Record>, earlier: Fingerprint, later: Fingerprint, now: real, at: real)
    requires Sorted(rs, at) && Proper(earlier) && Proper(later)
    requires earlier.kind == later.kind && earlier.text <= later.text && earlier.anchor <= later.anchor
    requires Has(rs, KeyAt(earlier, earlier.anchor)) && Lookup(rs, KeyAt(earlier, earlier.anchor)).value.expires > now
    ensures var b := Best(Live(rs, now), later); b.Some? && b.value.key.length >= earlier.anchor
  {
    assert later.text[..earlier.anchor] == earlier.text[..earlier.anchor];
    assert KeyAt(later, earlier.anchor) == KeyAt(earlier, earlier.anchor);
    LookupIsLongestPrefix(rs, later, now, at);
    assert LiveMatch(rs, later, earlier.anchor, now);
  }

  /** From requests to answers: a request without tail fields that gains messages still finds
      the executor's record, unless the anchor fell. */
  lemma ConversationKeepsAffinity(p: AnchorPolicy, fields: seq<Field>, kind: string, more: seq<string>, json: string,
                                  rs: seq<Record>, e: Executor, ttl: int, limit: int, now: real, later: real, at: real)
    requires Sane(p) && HasMessages(fields) && Tail(fields) == []
    requires Inv(rs, limit, at) && limit >= 1 && at <= now <= later < now + ttl as real
    requires Anchor(p, |Canonical(fields, kind)|) <= Anchor(p, |Canonical(Grown(fields, more, json), kind)|)
    ensures Proper(MakeFingerprint(p, fields, kind))
    ensures var turn, next := MakeFingerprint(p, fields, kind), MakeFingerprint(p, Grown(fields, more, json), kind);
      var b := Best(Live(Remembered(rs, turn, e, ttl, limit, now), later), next);
      b.Some? && b.value.key.length >= turn.anchor
  {
    var turn, next := MakeFingerprint(p, fields, kind), MakeFingerprint(p, Grown(fields, more, json), kind);
    FingerprintIsProper(p, fields, kind);
    FingerprintIsProper(p, Grown(fields, more, json), kind);
    GrowthAppends(fields, kind, more, json);
    RememberKeeps(rs, turn, e, ttl, limit, now, at);
    GrowthFindsAffinity(Remembered(rs, turn, e, ttl, limit, now), turn, next, later, now);
  }

  /** The condition on the anchor is exact in every store: the answer reaches as far as the
      earlier turn exactly when its anchor is not above the later one, and it is the record of
      the earlier turn exactly when, besides, no longer live record matches. */
  lemma GrowthFindsAffinityIff(rs: seq<Record>, earlier: Fingerprint, later: Fingerprint, now: real, at: real)
    requires Sorted(rs, at) && Proper(earlier) && Proper(later)
    requires earlier.kind == later.kind && earlier.text <= later.text
    requires LiveMatch(rs, earlier, earlier.anchor, now)
    ensures var b := Best(Live(rs, now), later);
      && (b.Some? && b.value.key.length >= earlier.anchor <==> earlier.anchor <= later.anchor)
      && (b == Lookup(rs, KeyAt(earlier, earlier.anchor)) <==>
          earlier.anchor <= later.anchor && forall n: int | LiveMatch(rs, later, n, now) :: n <= earlier.anchor)
  {
    var b, turn := Best(Live(rs, now), later), KeyAt(earlier, earlier.anchor);
    LookupIsLongestPrefix(rs, later, now, at);
    if earlier.anchor <= later.anchor {
      GrowthFindsAffinity(rs, earlier, later, now, at);
      assert later.text[..earlier.anchor] == earlier.text[..earlier.anchor];
      assert KeyAt(later, earlier.anchor) == turn;
    }
    if b == Lookup(rs, turn) { assert b.value.key == turn; }
  }

  /** The length in the text of a request that its anchor is rounded from. */
  function WantedOf(p: AnchorPolicy, fields: seq<Field>, kind: string): int { Wanted(p, |Canonical(fields, kind)|) }

  /** In terms of the requests: a conversation loses the record of its earlier turn exactly
      when it wants less than that turn did and a rung of the ladder lies between. */
  lemma ConversationKeepsAffinityIff(p: AnchorPolicy, fields: seq<Field>, kind: string, more: seq<string>, json: string,
                                     rs: seq<Record>, now: real, at: real)
    requires Sane(p) && HasMessages(fields) && Tail(fields) == [] && Sorted(rs, at)
    requires var turn := MakeFingerprint(p, fields, kind); LiveMatch(rs, turn, turn.anchor, now)
    ensures var turn, next := MakeFingerprint(p, fields, kind), MakeFingerprint(p, Grown(fields, more, json), kind);
      var b, x, y := Best(Live(rs, now), next), WantedOf(p, Grown(fields, more, json), kind), WantedOf(p, fields, kind);
      b.Some? && b.value.key.length >= turn.anchor <==>
        !(x < y && (Separates(p.ladder, x, y) || BelowLadder(p.ladder, y)))
  {
    FingerprintIsProper(p, fields, kind);
    FingerprintIsProper(p, Grown(fields, more, json), kind);
    GrowthAppends(fields, kind, more, json);
    var turn, next := MakeFingerprint(p, fields, kind), MakeFingerprint(p, Grown(fields, more, json), kind);
    GrowthFindsAffinityIff(rs, turn, next, now, at);
    AnchorFallsIff(p, |turn.text|, |next.text|);
  }

  /** Where the earlier turn is all the store knows, a fallen anchor finds nothing. */
  lemma LoneTurnIsFoundIff(earlier: Fingerprint, later: Fingerprint, e: Executor, ttl: int, limit: int, now: real,
                           at: real)
    requires Proper(earlier) && Proper(later) && limit >= 1 && now <= at < now + ttl as real
    requires earlier.kind == later.kind && earlier.text <= later.text
    ensures Best(Live(Remembered([], earlier, e, ttl, limit, now), at), later).Some? <==> earlier.anchor <= later.anchor
  {
    var r := Record(KeyAt(earlier, earlier.anchor), e, now, now + ttl as real, 0);
    var rs := Remembered([], earlier, e, ttl, limit, now);
    assert [] + [r] == [r] && [r][1..] == [];
    assert rs == [r] && Live(rs, at) == [r] + [];
    if earlier.anchor <= later.anchor {
      assert later.text[..earlier.anchor] == earlier.text[..earlier.anchor];
      assert Prefixes(r, later);
    }
    assert Live(rs, at) == [r];
    assert BestFrom([r], later, None) == if Prefixes(r, later) then Some(r) else None;
  }
}
