/** Whole runs of the admission system: dispatched runs come and go, models are unloaded,
    time passes. The books always say exactly what the live runs hold, no model exceeds its
    concurrency limit, and no resource exceeds its limits. */
module AdmissionRuns {
  import opened Basics
  import opened ResourceLedger
  import opened CapacitySafety
  import opened Conservation
  import opened ModelAdmission

  /** A single-request run holds its slot from admission until release, and counts as
      active from its start until the very end: the two overlap without a gap. */
  datatype Phase = Admitted | Running | Released

  datatype Live = Plain(key: ModelKey, reqs: Requirements, phase: Phase) | SessionOf(key: ModelKey)

  /** `bases` is the configured base footprint of each parallel model. */
  datatype Setup = Setup(cfg: Config, bases: map<ModelKey, Requirements>)

  datatype World = World(reg: Registry, runs: map<RunId, Live>, now: real)

  datatype Event =
    | AdmitPlain(id: RunId, reqs: Requirements, key: ModelKey)
    | Start(id: RunId)
    | ReleasePlain(id: RunId, retain: bool, persistent: bool)
    | Finish(id: RunId)
    | AdmitSession(id: RunId, key: ModelKey)
    | ReleaseSession(id: RunId, retain: bool, persistent: bool)
    | Evict(resource: ResourceId, model: Name, provider: Name)
    | Wait(until: real)

  function BaseOf(s: Setup, k: ModelKey): Requirements { if k in s.bases then Normalize(s.bases[k]) else map[] }

  /** A run counts in the active map only when its model and its provider are known. */
  predicate Counted(k: ModelKey) { k.model != Unnamed && k.provider != Unnamed }

  /** The dispatcher's side of each event: ids of live runs are not reused, a model with
      parallel sessions is only admitted through its sessions, and it has a base footprint. */
  predicate Enabled(s: Setup, w: World, e: Event) {
    match e
    case AdmitPlain(id, _, k) => id !in w.runs && (k.model != Unnamed ==> Maximum(s.cfg, k) <= 1)
    case Start(id) => id in w.runs && w.runs[id].Plain? && w.runs[id].phase == Admitted
    case ReleasePlain(id, _, _) => id in w.runs && w.runs[id].Plain? && w.runs[id].phase == Running
    case Finish(id) => id in w.runs && w.runs[id].Plain? && w.runs[id].phase == Released
    case AdmitSession(id, k) => id !in w.runs && Counted(k) && Maximum(s.cfg, k) > 1 && BaseOf(s, k) != map[]
    case ReleaseSession(id, _, _) => id in w.runs && w.runs[id].SessionOf?
    case Evict(_, _, _) => true
    case Wait(until) => w.now <= until
  }

  function AfterAdmit(s: Setup, w: World, id: RunId, reqs: Requirements, k: ModelKey): World {
    World(TryReserve(w.reg, s.cfg, reqs, Consumer.Run(id), k, w.now),
          if Admits(w.reg, s.cfg, reqs, k, w.now) then w.runs[id := Plain(k, reqs, Admitted)] else w.runs,
          w.now)
  }

  function AfterStart(w: World, id: RunId, run: Live): World
    requires run.Plain?
  {
    World(if Counted(run.key) then w.reg.(active := Increment(w.reg.active, run.key)) else w.reg,
          w.runs[id := run.(phase := Running)],
          w.now)
  }

  function Tracked(k: ModelKey, retain: bool): ModelKey { if retain then k else k.(model := Unnamed) }

  function AfterRelease(w: World, id: RunId, run: Live, retain: bool, persistent: bool): World
    requires run.Plain?
  {
    World(ReleaseFor(w.reg, run.reqs, Consumer.Run(id), Tracked(run.key, retain), persistent && retain, w.now),
          if Counted(run.key) then w.runs[id := run.(phase := Released)] else w.runs - {id},
          w.now)
  }

  function AfterFinish(w: World, id: RunId, k: ModelKey): World {
    World(w.reg.(active := Decrement(w.reg.active, k)), w.runs - {id}, w.now)
  }

  function AfterAdmitSession(s: Setup, w: World, id: RunId, k: ModelKey): World {
    World(StartSession(w.reg, s.cfg, BaseOf(s, k), k, Consumer.Run(id), w.now),
          if Evaluate(w.reg, s.cfg, BaseOf(s, k), k, w.now).now then w.runs[id := SessionOf(k)] else w.runs,
          w.now)
  }

  function AfterReleaseSession(s: Setup, w: World, id: RunId, k: ModelKey, retain: bool, persistent: bool): World {
    World(EndSession(w.reg, Session(s.cfg, k), BaseOf(s, k), k, Consumer.Run(id), retain, persistent, w.now),
          w.runs - {id},
          w.now)
  }

  function AfterEvict(w: World, r: ResourceId, model: Name, provider: Name): World {
    if r in w.reg.ledgers then
      w.(reg := w.reg.(ledgers := w.reg.ledgers[r := ClearSoft(w.reg.ledgers[r], model, provider)]))
    else w
  }

  function Next(s: Setup, w: World, e: Event): World
    requires Enabled(s, w, e)
  {
    match e
    case AdmitPlain(id, reqs, k) => AfterAdmit(s, w, id, reqs, k)
    case Start(id) => AfterStart(w, id, w.runs[id])
    case ReleasePlain(id, retain, persistent) => AfterRelease(w, id, w.runs[id], retain, persistent)
    case Finish(id) => AfterFinish(w, id, w.runs[id].key)
    case AdmitSession(id, k) => AfterAdmitSession(s, w, id, k)
    case ReleaseSession(id, retain, persistent) => AfterReleaseSession(s, w, id, w.runs[id].key, retain, persistent)
    case Evict(r, model, provider) => AfterEvict(w, r, model, provider)
    case Wait(until) => w.(now := until)
  }

  // ----- who holds what

  function SlotOf(k: ModelKey): Live -> bool { (run: Live) => run.Plain? && run.key == k && run.phase != Released }

  function ActiveOf(k: ModelKey): Live -> bool {
    (run: Live) => run.key == k && Counted(k) && (run.SessionOf? || run.phase != Admitted)
  }

  /** Every admitted run of a model that is not finished. */
  function InFlightOf(k: ModelKey): Live -> bool { (run: Live) => run.key == k }

  function Ids(runs: map<RunId, Live>, p: Live -> bool): set<RunId> { set id | id in runs && p(runs[id]) }

  function Number(runs: map<RunId, Live>, p: Live -> bool): nat { |Ids(runs, p)| }

  function HoldsOf(s: Setup, run: Live, r: ResourceId): Amounts {
    match run
    case Plain(_, reqs, phase) => if phase == Released then map[] else Positive(Of(reqs, r))
    case SessionOf(k) => Of(Session(s.cfg, k), r)
  }

  /** The share one consumer must have on one resource. */
  function Share(s: Setup, w: World, r: ResourceId, c: Consumer): Amounts {
    match c
    case Anonymous => map[]
    case Run(id) => if id in w.runs then HoldsOf(s, w.runs[id], r) else map[]
    case Base(k) => if exists id :: id in w.runs && w.runs[id] == SessionOf(k) then Of(BaseOf(s, k), r) else map[]
  }

  ghost predicate BookIsExact(s: Setup, w: World, r: ResourceId, l: Ledger) {
    Balanced(l) && forall c :: HeldBy(l.consumers, c) == Share(s, w, r, c)
  }

  ghost predicate BooksAreExact(s: Setup, w: World) {
    forall r | r in w.reg.ledgers :: BookIsExact(s, w, r, w.reg.ledgers[r])
  }

  ghost predicate ActiveIsExact(active: map<ModelKey, nat>, runs: map<RunId, Live>) {
    forall k :: Count(active, k) == Number(runs, ActiveOf(k))
  }

  ghost predicate SlotsAreExact(slots: map<ModelKey, nat>, runs: map<RunId, Live>) {
    && (forall k: ModelKey :: k.model != Unnamed ==> Count(slots, k) == Number(runs, SlotOf(k)))
    && (forall k | k in slots :: slots[k] > 0 && k.model != Unnamed)
  }

  predicate OwnsSlot(runs: map<RunId, Live>, c: Consumer) {
    c.Run? && c.id in runs && runs[c.id].Plain? && runs[c.id].phase != Released && runs[c.id].key.model != Unnamed
  }

  ghost predicate OwnersAreExact(owners: map<Consumer, ModelKey>, runs: map<RunId, Live>) {
    forall c :: (c in owners <==> OwnsSlot(runs, c)) && (c in owners ==> owners[c] == runs[c.id].key)
  }

  ghost predicate CountsAreExact(w: World) {
    ActiveIsExact(w.reg.active, w.runs) && SlotsAreExact(w.reg.slots, w.runs) &&
      OwnersAreExact(w.reg.slotOwners, w.runs)
  }

  ghost predicate RunsAreWellFormed(s: Setup, w: World) {
    forall id | id in w.runs ::
      match w.runs[id]
      case Plain(k, _, phase) => (k.model != Unnamed ==> Maximum(s.cfg, k) <= 1) && (phase == Released ==> Counted(k))
      case SessionOf(k) => Counted(k) && Maximum(s.cfg, k) > 1 && BaseOf(s, k) != map[]
  }

  ghost predicate ConcurrencyHolds(s: Setup, runs: map<RunId, Live>) {
    forall k: ModelKey :: k.model != Unnamed ==> Number(runs, InFlightOf(k)) <= Maximum(s.cfg, k)
  }

  function Ceiling(limits: Amounts): Metric -> int { m => At(limits, m) }

  ghost predicate StaysInLimits(l: Ledger, now: real) { Sound(l) && Within(l, Ceiling(l.limits), now) }

  ghost predicate CapacityIsKept(w: World) {
    forall r | r in w.reg.ledgers :: StaysInLimits(w.reg.ledgers[r], w.now)
  }

  ghost predicate Inv(s: Setup, w: World) {
    BooksAreExact(s, w) && CountsAreExact(w) && RunsAreWellFormed(s, w) && ConcurrencyHolds(s, w.runs) &&
      CapacityIsKept(w)
  }

  // ----- books

  /** The world changed for one consumer only, and so did the book. */
  lemma BookFollows(s: Setup, w: World, w': World, r: ResourceId, l: Ledger, l': Ledger, c: Consumer)
    requires BookIsExact(s, w, r, l) && Balanced(l')
    requires HeldBy(l'.consumers, c) == Share(s, w', r, c)
    requires forall d | d != c ::
      HeldBy(l'.consumers, d) == HeldBy(l.consumers, d) && Share(s, w', r, d) == Share(s, w, r, d)
    ensures BookIsExact(s, w', r, l')
  {
    forall d ensures HeldBy(l'.consumers, d) == Share(s, w', r, d) {
      assert HeldBy(l.consumers, d) == Share(s, w, r, d);
    }
  }

  /** Only this id differs between two sets of runs, and it is not a session in either. */
  predicate DifferAtPlain(runs: map<RunId, Live>, runs': map<RunId, Live>, id: RunId) {
    && runs - {id} == runs' - {id}
    && (id in runs ==> runs[id].Plain?)
    && (id in runs' ==> runs'[id].Plain?)
  }

  /** A plain run's events leave every other consumer's share alone. */
  lemma OthersKeepTheirShare(s: Setup, w: World, w': World, r: ResourceId, id: RunId)
    requires DifferAtPlain(w.runs, w'.runs, id)
    ensures forall d | d != Consumer.Run(id) :: Share(s, w', r, d) == Share(s, w, r, d)
  {
    forall i | i != id ensures (i in w.runs <==> i in w'.runs) && (i in w.runs ==> w.runs[i] == w'.runs[i]) {
      assert i in w.runs <==> i in w.runs - {id};
      assert i in w'.runs <==> i in w'.runs - {id};
      if i in w.runs { assert (w.runs - {id})[i] == w.runs[i]; assert (w'.runs - {id})[i] == w'.runs[i]; }
    }
    forall d | d != Consumer.Run(id) ensures Share(s, w', r, d) == Share(s, w, r, d) {
      if d.Base? {
        if i :| i in w.runs && w.runs[i] == SessionOf(d.key) { assert i in w'.runs && w'.runs[i] == SessionOf(d.key); }
        if i :| i in w'.runs && w'.runs[i] == SessionOf(d.key) { assert i in w.runs && w.runs[i] == SessionOf(d.key); }
      }
    }
  }

  /** Same runs, same books: nothing to show again. */
  lemma BooksKept(s: Setup, w: World, w': World)
    requires BooksAreExact(s, w) && w'.runs == w.runs && w'.reg.ledgers.Keys == w.reg.ledgers.Keys
    requires forall r | r in w.reg.ledgers ::
               w'.reg.ledgers[r].used == w.reg.ledgers[r].used &&
                 w'.reg.ledgers[r].consumers == w.reg.ledgers[r].consumers
    ensures BooksAreExact(s, w')
  {
    forall r | r in w'.reg.ledgers ensures BookIsExact(s, w', r, w'.reg.ledgers[r]) {
      var l, l' := w.reg.ledgers[r], w'.reg.ledgers[r];
      forall m ensures At(l'.used, m) == HeldInAll(l'.consumers, m) {
        assert At(l.used, m) == HeldInAll(l.consumers, m);
      }
      forall d ensures HeldBy(l'.consumers, d) == Share(s, w', r, d) {
        assert HeldBy(l.consumers, d) == Share(s, w, r, d);
      }
    }
  }

  /** A plain run changed phase without changing what it holds. */
  lemma BooksAfterPhase(s: Setup, w: World, w': World, id: RunId)
    requires BooksAreExact(s, w) && w'.reg.ledgers == w.reg.ledgers
    requires DifferAtPlain(w.runs, w'.runs, id)
    requires forall r :: Share(s, w', r, Consumer.Run(id)) == Share(s, w, r, Consumer.Run(id))
    ensures BooksAreExact(s, w')
  {
    forall r | r in w'.reg.ledgers ensures BookIsExact(s, w', r, w'.reg.ledgers[r]) {
      OthersKeepTheirShare(s, w, w', r, id);
      assert HeldBy(w.reg.ledgers[r].consumers, Consumer.Run(id)) == Share(s, w, r, Consumer.Run(id));
      BookFollows(s, w, w', r, w.reg.ledgers[r], w'.reg.ledgers[r], Consumer.Run(id));
    }
  }

  lemma ReserveBlindBalances(l: Ledger, req: Amounts, c: Consumer, model: Name, provider: Name, now: real)
    requires Balanced(l) && c != Anonymous && c !in l.consumers
    ensures var l' := ReserveBlind(l, req, c, model, provider, now);
            && Balanced(l')
            && l'.consumers == if Positive(req) == map[] then l.consumers else l.consumers[c := Positive(req)]
  {
    var cleared := if Matching(l, model, req, provider, now).Some? then ClearSoft(l, model, provider) else l;
    assert Balanced(cleared);
    ReserveBalances(cleared, req, c);
  }

  lemma BookAfterAdmit(s: Setup, w: World, w': World, r: ResourceId, l: Ledger, id: RunId, reqs: Requirements,
                       k: ModelKey)
    requires BookIsExact(s, w, r, l) && id !in w.runs && w'.runs == w.runs[id := Plain(k, reqs, Admitted)]
    ensures BookIsExact(s, w', r, ReserveHere(l, reqs, r, Consumer.Run(id), k, w.now))
  {
    var c := Consumer.Run(id);
    var l' := ReserveHere(l, reqs, r, c, k, w.now);
    assert HeldBy(l.consumers, c) == Share(s, w, r, c);
    assert w'.runs - {id} == w.runs - {id};
    OthersKeepTheirShare(s, w, w', r, id);
    if r in reqs { ReserveBlindBalances(l, reqs[r], c, k.model, k.provider, w.now); }
    assert HeldBy(l'.consumers, c) == Positive(Of(reqs, r));
    BookFollows(s, w, w', r, l, l', c);
  }

  lemma BooksAfterAdmit(s: Setup, w: World, id: RunId, reqs: Requirements, k: ModelKey)
    requires BooksAreExact(s, w) && id !in w.runs && Admits(w.reg, s.cfg, reqs, k, w.now)
    ensures BooksAreExact(s, AfterAdmit(s, w, id, reqs, k))
  {
    var w' := AfterAdmit(s, w, id, reqs, k);
    forall r | r in w'.reg.ledgers ensures BookIsExact(s, w', r, w'.reg.ledgers[r]) {
      BookAfterAdmit(s, w, w', r, w.reg.ledgers[r], id, reqs, k);
    }
  }

  lemma BookAfterRelease(s: Setup, w: World, w': World, r: ResourceId, l: Ledger, id: RunId, run: Live, model: Name,
                         provider: Name, persistent: bool)
    requires BookIsExact(s, w, r, l) && id in w.runs && w.runs[id] == run && run.Plain? && run.phase != Released
    requires DifferAtPlain(w.runs, w'.runs, id) && Share(s, w', r, Consumer.Run(id)) == map[]
    ensures BookIsExact(s, w', r,
      if r in run.reqs then Release(l, run.reqs[r], Consumer.Run(id), model, provider, persistent, w.now) else l)
    ensures r in run.reqs ==> Covered(l, run.reqs[r])
  {
    var c := Consumer.Run(id);
    assert HeldBy(l.consumers, c) == Share(s, w, r, c);
    if r in run.reqs { ReleaseBalances(l, run.reqs[r], c, model, provider, persistent, w.now); }
    OthersKeepTheirShare(s, w, w', r, id);
    var l' := if r in run.reqs then Release(l, run.reqs[r], c, model, provider, persistent, w.now) else l;
    BookFollows(s, w, w', r, l, l', c);
  }

  lemma BooksAfterRelease(s: Setup, w: World, id: RunId, run: Live, retain: bool, persistent: bool)
    requires BooksAreExact(s, w) && id in w.runs && w.runs[id] == run && run.Plain? && run.phase != Released
    ensures BooksAreExact(s, AfterRelease(w, id, run, retain, persistent))
    ensures forall r | r in w.reg.ledgers && r in run.reqs :: Covered(w.reg.ledgers[r], run.reqs[r])
  {
    var w' := AfterRelease(w, id, run, retain, persistent);
    var k := Tracked(run.key, retain);
    assert w'.runs - {id} == w.runs - {id};
    forall r | r in w'.reg.ledgers
      ensures BookIsExact(s, w', r, w'.reg.ledgers[r]) && (r in run.reqs ==> Covered(w.reg.ledgers[r], run.reqs[r]))
    {
      BookAfterRelease(s, w, w', r, w.reg.ledgers[r], id, run, k.model, k.provider, persistent && retain);
    }
  }

  lemma NormalizedIsPositive(reqs: Requirements, r: ResourceId)
    requires r in Normalize(reqs)
    ensures Positive(Normalize(reqs)[r]) == Normalize(reqs)[r] != map[]
  {}

  lemma BaseJoinsBook(l: Ledger, base: Requirements, r: ResourceId, k: ModelKey, now: real)
    requires Balanced(l) && (r in base ==> Positive(base[r]) == base[r] != map[])
    requires Base(k) in l.consumers ==> l.consumers[Base(k)] == Of(base, r)
    ensures var b := ReserveBase(l, base, r, k, now);
            Balanced(b) && b.consumers == if r in base then l.consumers[Base(k) := base[r]] else l.consumers
  {
    if r in base && Base(k) !in l.consumers { ReserveBlindBalances(l, base[r], Base(k), k.model, k.provider, now); }
  }

  lemma SessionJoinsBook(l: Ledger, session: Requirements, r: ResourceId, c: Consumer)
    requires Balanced(l) && c != Anonymous && c !in l.consumers &&
      (r in session ==> Positive(session[r]) == session[r] != map[])
    ensures var l' := ReserveSession(l, session, r, c);
            Balanced(l') && l'.consumers == if r in session then l.consumers[c := session[r]] else l.consumers
  {
    if r in session { ReserveBalances(l, session[r], c); }
  }

  /** One resource when a session starts: the base joins if it was absent, then the session. */
  lemma SessionStartsBook(l: Ledger, base: Requirements, session: Requirements, r: ResourceId, k: ModelKey, id: RunId,
                          now: real)
    requires Balanced(l) && Consumer.Run(id) !in l.consumers
    requires r in base ==> Positive(base[r]) == base[r] != map[]
    requires r in session ==> Positive(session[r]) == session[r] != map[]
    requires Base(k) in l.consumers ==> l.consumers[Base(k)] == Of(base, r)
    ensures var b := ReserveBase(l, base, r, k, now);
            var l' := ReserveSession(b, session, r, Consumer.Run(id));
            && Balanced(l')
            && HeldBy(l'.consumers, Consumer.Run(id)) == Of(session, r)
            && HeldBy(l'.consumers, Base(k)) == Of(base, r)
            && forall d | d != Consumer.Run(id) && d != Base(k) :: HeldBy(l'.consumers, d) == HeldBy(l.consumers, d)
  {
    BaseJoinsBook(l, base, r, k, now);
    SessionJoinsBook(ReserveBase(l, base, r, k, now), session, r, Consumer.Run(id));
  }

  /** Giving back everything one consumer holds here, if it holds anything. */
  lemma GiveUpShare(l: Ledger, reqs: Requirements, r: ResourceId, c: Consumer, model: Name, provider: Name,
                    persistent: bool, now: real)
    requires Balanced(l) && c != Anonymous && HeldBy(l.consumers, c) == Of(reqs, r)
    requires r in reqs ==> Positive(reqs[r]) == reqs[r] != map[]
    ensures var l' := if r in reqs then Release(l, reqs[r], c, model, provider, persistent, now) else l;
            && Balanced(l') && (r in reqs ==> Covered(l, reqs[r])) && HeldBy(l'.consumers, c) == map[]
            && forall d | d != c :: HeldBy(l'.consumers, d) == HeldBy(l.consumers, d)
  {
    if r in reqs { ReleaseBalances(l, reqs[r], c, model, provider, persistent, now); }
  }

  /** One resource after a session ended; the last session also gives the base back. */
  function BookWithoutSession(l: Ledger, base: Requirements, session: Requirements, r: ResourceId, k: ModelKey,
                              id: RunId, last: bool, model: Name, persistent: bool, now: real): Ledger {
    var b := if r in session then Release(l, session[r], Consumer.Run(id), Unnamed, Unnamed, false, now) else l;
    if last then ReleaseBase(b, base, r, k, model, persistent, now) else b
  }

  lemma SessionEndsBook(l: Ledger, base: Requirements, session: Requirements, r: ResourceId, k: ModelKey, id: RunId,
                        last: bool, model: Name, persistent: bool, now: real)
    requires Balanced(l) && HeldBy(l.consumers, Consumer.Run(id)) == Of(session, r)
    requires HeldBy(l.consumers, Base(k)) == Of(base, r)
    requires r in base ==> Positive(base[r]) == base[r] != map[]
    requires r in session ==> Positive(session[r]) == session[r] != map[]
    ensures var b := if r in session then Release(l, session[r], Consumer.Run(id), Unnamed, Unnamed, false, now) else l;
            (r in session ==> Covered(l, session[r])) && (r in base ==> Covered(b, base[r]))
    ensures var l' := BookWithoutSession(l, base, session, r, k, id, last, model, persistent, now);
            && Balanced(l')
            && HeldBy(l'.consumers, Consumer.Run(id)) == map[]
            && HeldBy(l'.consumers, Base(k)) == (if last then map[] else Of(base, r))
            && forall d | d != Consumer.Run(id) && d != Base(k) :: HeldBy(l'.consumers, d) == HeldBy(l.consumers, d)
  {
    GiveUpShare(l, session, r, Consumer.Run(id), Unnamed, Unnamed, false, now);
    var b := if r in session then Release(l, session[r], Consumer.Run(id), Unnamed, Unnamed, false, now) else l;
    assert HeldBy(b.consumers, Base(k)) == Of(base, r);
    GiveUpShare(b, base, r, Base(k), model, k.provider, persistent, now);
  }

  /** Shares other than this session's and its base are untouched by a session's events. */
  lemma OthersKeepTheirShareBesideSession(s: Setup, w: World, w': World, r: ResourceId, id: RunId, k: ModelKey)
    requires w.runs - {id} == w'.runs - {id}
    requires (id in w.runs ==> w.runs[id] == SessionOf(k)) && (id in w'.runs ==> w'.runs[id] == SessionOf(k))
    ensures forall d | d != Consumer.Run(id) && d != Base(k) :: Share(s, w', r, d) == Share(s, w, r, d)
  {
    forall i | i != id ensures (i in w.runs <==> i in w'.runs) && (i in w.runs ==> w.runs[i] == w'.runs[i]) {
      assert i in w.runs <==> i in w.runs - {id};
      assert i in w'.runs <==> i in w'.runs - {id};
      if i in w.runs { assert (w.runs - {id})[i] == w.runs[i]; assert (w'.runs - {id})[i] == w'.runs[i]; }
    }
    forall d | d != Consumer.Run(id) && d != Base(k) ensures Share(s, w', r, d) == Share(s, w, r, d) {
      if d.Base? {
        if i :| i in w.runs && w.runs[i] == SessionOf(d.key) { assert i in w'.runs && w'.runs[i] == SessionOf(d.key); }
        if i :| i in w'.runs && w'.runs[i] == SessionOf(d.key) { assert i in w.runs && w.runs[i] == SessionOf(d.key); }
      }
    }
  }

  /** As `BookFollows`, for a session and its base. */
  lemma BookFollowsSession(s: Setup, w: World, w': World, r: ResourceId, l: Ledger, l': Ledger, id: RunId, k: ModelKey)
    requires BookIsExact(s, w, r, l) && Balanced(l')
    requires HeldBy(l'.consumers, Consumer.Run(id)) == Share(s, w', r, Consumer.Run(id))
    requires HeldBy(l'.consumers, Base(k)) == Share(s, w', r, Base(k))
    requires forall d | d != Consumer.Run(id) && d != Base(k) :: HeldBy(l'.consumers, d) == HeldBy(l.consumers, d)
    requires w.runs - {id} == w'.runs - {id}
    requires (id in w.runs ==> w.runs[id] == SessionOf(k)) && (id in w'.runs ==> w'.runs[id] == SessionOf(k))
    ensures BookIsExact(s, w', r, l')
  {
    OthersKeepTheirShareBesideSession(s, w, w', r, id, k);
    forall d ensures HeldBy(l'.consumers, d) == Share(s, w', r, d) {
      assert HeldBy(l.consumers, d) == Share(s, w, r, d);
    }
  }

  lemma BookAfterAdmitSession(s: Setup, w: World, w': World, r: ResourceId, l: Ledger, id: RunId, k: ModelKey)
    requires BookIsExact(s, w, r, l) && id !in w.runs && w'.runs == w.runs[id := SessionOf(k)]
    ensures var b := ReserveBase(l, BaseOf(s, k), r, k, w.now);
            var session := Session(s.cfg, k);
            BookIsExact(s, w', r, ReserveSession(b, session, r, Consumer.Run(id)))
  {
    var base, session := BaseOf(s, k), Session(s.cfg, k);
    assert HeldBy(l.consumers, Consumer.Run(id)) == Share(s, w, r, Consumer.Run(id));
    assert HeldBy(l.consumers, Base(k)) == Share(s, w, r, Base(k));
    SessionStartsBook(l, base, session, r, k, id, w.now);
    var b := ReserveBase(l, base, r, k, w.now);
    assert w'.runs[id] == SessionOf(k);
    assert w'.runs - {id} == w.runs - {id};
    BookFollowsSession(s, w, w', r, l, ReserveSession(b, session, r, Consumer.Run(id)), id, k);
  }

  lemma BooksAfterAdmitSession(s: Setup, w: World, id: RunId, k: ModelKey)
    requires BooksAreExact(s, w) && id !in w.runs && Maximum(s.cfg, k) > 1
    requires Evaluate(w.reg, s.cfg, BaseOf(s, k), k, w.now).now
    ensures BooksAreExact(s, AfterAdmitSession(s, w, id, k))
  {
    var w' := AfterAdmitSession(s, w, id, k);
    BaseIsNormalized(s, k);
    forall r | r in w'.reg.ledgers ensures BookIsExact(s, w', r, w'.reg.ledgers[r]) {
      BookAfterAdmitSession(s, w, w', r, w.reg.ledgers[r], id, k);
    }
  }

  lemma NormalizeTwice(reqs: Requirements)
    ensures Normalize(Normalize(reqs)) == Normalize(reqs)
  {
    forall r | r in reqs ensures Positive(Positive(reqs[r])) == Positive(reqs[r]) {}
  }

  lemma BaseIsNormalized(s: Setup, k: ModelKey)
    ensures Normalize(BaseOf(s, k)) == BaseOf(s, k)
    ensures Normalize(Session(s.cfg, k)) == Session(s.cfg, k)
  {
    if k in s.bases { NormalizeTwice(s.bases[k]); }
    if k in s.cfg { NormalizeTwice(s.cfg[k].session); }
  }

  /** The count says "last" exactly when no other session of the model lives. */
  lemma LastSession(s: Setup, w: World, id: RunId, k: ModelKey)
    requires CountsAreExact(w) && RunsAreWellFormed(s, w) && id in w.runs && w.runs[id] == SessionOf(k)
    ensures Count(w.reg.active, k) <= 1 <==> !exists i :: i in w.runs && i != id && w.runs[i] == SessionOf(k)
  {
    var ids := Ids(w.runs, ActiveOf(k));
    assert Count(w.reg.active, k) == Number(w.runs, ActiveOf(k)) == |ids|;
    assert id in ids && |ids| == 1 + |ids - {id}|;
    if i :| i in w.runs && i != id && w.runs[i] == SessionOf(k) {
      assert i in ids - {id};
    } else {
      assert ids - {id} == {};
    }
  }

  lemma BaseShareAfterEnd(s: Setup, w: World, w': World, r: ResourceId, id: RunId, k: ModelKey)
    requires id in w.runs && w.runs[id] == SessionOf(k) && w'.runs == w.runs - {id}
    ensures Share(s, w, r, Base(k)) == Of(BaseOf(s, k), r)
    ensures Share(s, w', r, Base(k))
            == if exists i :: i in w.runs && i != id && w.runs[i] == SessionOf(k) then Of(BaseOf(s, k), r) else map[]
  {
    if i :| i in w.runs && i != id && w.runs[i] == SessionOf(k) {
      assert i in w'.runs && w'.runs[i] == SessionOf(k);
    }
  }

  lemma BookAfterReleaseSession(s: Setup, w: World, w': World, r: ResourceId, l: Ledger, id: RunId, k: ModelKey,
                                last: bool, model: Name, persistent: bool)
    requires BookIsExact(s, w, r, l) && id in w.runs && w.runs[id] == SessionOf(k) && w'.runs == w.runs - {id}
    requires last <==> !exists i :: i in w.runs && i != id && w.runs[i] == SessionOf(k)
    ensures BookIsExact(s, w', r,
      BookWithoutSession(l, BaseOf(s, k), Session(s.cfg, k), r, k, id, last, model, persistent, w.now))
  {
    var base, session := BaseOf(s, k), Session(s.cfg, k);
    assert HeldBy(l.consumers, Consumer.Run(id)) == Share(s, w, r, Consumer.Run(id));
    assert HeldBy(l.consumers, Base(k)) == Share(s, w, r, Base(k));
    BaseShareAfterEnd(s, w, w', r, id, k);
    var l' := BookWithoutSession(l, base, session, r, k, id, last, model, persistent, w.now);
    assert && Balanced(l') && HeldBy(l'.consumers, Consumer.Run(id)) == map[]
           && HeldBy(l'.consumers, Base(k)) == (if last then map[] else Of(base, r))
           && forall d | d != Consumer.Run(id) && d != Base(k) :: HeldBy(l'.consumers, d) == HeldBy(l.consumers, d) by {
      SessionEndsBook(l, base, session, r, k, id, last, model, persistent, w.now);
    }
    assert w'.runs - {id} == w.runs - {id};
    BookFollowsSession(s, w, w', r, l, l', id, k);
  }

  lemma BooksAfterReleaseSession(s: Setup, w: World, id: RunId, k: ModelKey, retain: bool, persistent: bool)
    requires BooksAreExact(s, w) && CountsAreExact(w) && RunsAreWellFormed(s, w)
    requires id in w.runs && w.runs[id] == SessionOf(k)
    ensures BooksAreExact(s, AfterReleaseSession(s, w, id, k, retain, persistent))
  {
    var w' := AfterReleaseSession(s, w, id, k, retain, persistent);
    BaseIsNormalized(s, k);
    LastSession(s, w, id, k);
    forall r | r in w'.reg.ledgers ensures BookIsExact(s, w', r, w'.reg.ledgers[r]) {
      BookAfterReleaseSession(s, w, w', r, w.reg.ledgers[r], id, k, Count(w.reg.active, k) <= 1,
                              if retain then k.model else Unnamed, persistent && retain);
    }
  }

  // ----- counts

  lemma NumberAfterRemoval(runs: map<RunId, Live>, id: RunId, p: Live -> bool)
    requires id in runs
    ensures Number(runs - {id}, p) == Number(runs, p) - if p(runs[id]) then 1 else 0
  {
    assert Ids(runs - {id}, p) == Ids(runs, p) - {id};
  }

  lemma NumberAfterUpdate(runs: map<RunId, Live>, id: RunId, run: Live, p: Live -> bool)
    ensures Number(runs[id := run], p)
            == Number(runs, p) + (if p(run) then 1 else 0) - if id in runs && p(runs[id]) then 1 else 0
  {
    var rest := Ids(runs, p) - {id};
    assert Ids(runs[id := run], p) == if p(run) then rest + {id} else rest;
  }

  lemma NumberIsZero(runs: map<RunId, Live>, p: Live -> bool)
    ensures Number(runs, p) == 0 <==> forall id | id in runs :: !p(runs[id])
  {
    if Ids(runs, p) != {} {
      var id :| id in Ids(runs, p);
      assert id in runs && p(runs[id]);
    } else {
      forall id | id in runs ensures !p(runs[id]) { assert id !in Ids(runs, p); }
    }
  }

  /** A refused admission leaves the registry exactly as it was: a deferred task holds nothing. */
  lemma RefusalHoldsNothing(s: Setup, w: World, id: RunId, reqs: Requirements, k: ModelKey)
    requires CountsAreExact(w) && Enabled(s, w, AdmitPlain(id, reqs, k)) && !Admits(w.reg, s.cfg, reqs, k, w.now)
    ensures AfterAdmit(s, w, id, reqs, k) == w
  {
    var c := Consumer.Run(id);
    if k.model != Unnamed && SlotAvailable(w.reg, s.cfg, k) {
      assert c !in w.reg.slotOwners;
      assert k !in w.reg.slots;
      assert w.reg.slots[k := 1] - {k} == w.reg.slots;
      assert w.reg.slotOwners[c := k] - {c} == w.reg.slotOwners;
    }
  }

  /** The slot is only free when the single-request model has no run in any phase. */
  lemma FreeSlotMeansIdle(s: Setup, w: World, k: ModelKey)
    requires CountsAreExact(w) && RunsAreWellFormed(s, w) && k.model != Unnamed && Maximum(s.cfg, k) <= 1 &&
      SlotAvailable(w.reg, s.cfg, k)
    ensures Number(w.runs, InFlightOf(k)) == 0
  {
    NumberIsZero(w.runs, SlotOf(k));
    NumberIsZero(w.runs, ActiveOf(k));
    forall id | id in w.runs ensures !InFlightOf(k)(w.runs[id]) {
      assert !SlotOf(k)(w.runs[id]) && !ActiveOf(k)(w.runs[id]);
    }
    NumberIsZero(w.runs, InFlightOf(k));
  }

  function Bit(b: bool): int { if b then 1 else 0 }

  /** One run enters, leaves or changes phase: `before` and `after` say whether each predicate held of it. */
  ghost predicate Moves(runs: map<RunId, Live>, runs': map<RunId, Live>, id: RunId) {
    runs' == runs - {id} || (id in runs' && runs' == runs[id := runs'[id]])
  }

  function Change(runs: map<RunId, Live>, runs': map<RunId, Live>, id: RunId, p: Live -> bool): int {
    Bit(id in runs' && p(runs'[id])) - Bit(id in runs && p(runs[id]))
  }

  lemma NumberAfterMove(runs: map<RunId, Live>, runs': map<RunId, Live>, id: RunId, p: Live -> bool)
    requires Moves(runs, runs', id)
    ensures Number(runs', p) == Number(runs, p) + Change(runs, runs', id, p)
  {
    if id in runs' {
      NumberAfterUpdate(runs, id, runs'[id], p);
    } else if id in runs {
      NumberAfterRemoval(runs, id, p);
    } else {
      assert runs - {id} == runs;
    }
  }

  lemma ActiveAfterMove(active: map<ModelKey, nat>, active': map<ModelKey, nat>, runs: map<RunId, Live>,
                        runs': map<RunId, Live>, id: RunId)
    requires ActiveIsExact(active, runs) && Moves(runs, runs', id)
    requires forall j :: Count(active', j) == Count(active, j) + Change(runs, runs', id, ActiveOf(j))
    ensures ActiveIsExact(active', runs')
  {
    forall j ensures Count(active', j) == Number(runs', ActiveOf(j)) {
      NumberAfterMove(runs, runs', id, ActiveOf(j));
      assert Count(active, j) == Number(runs, ActiveOf(j));
    }
  }

  lemma SlotsAfterMove(slots: map<ModelKey, nat>, slots': map<ModelKey, nat>, runs: map<RunId, Live>,
                       runs': map<RunId, Live>, id: RunId)
    requires SlotsAreExact(slots, runs) && Moves(runs, runs', id)
    requires forall j: ModelKey | j.model != Unnamed ::
      Count(slots', j) == Count(slots, j) + Change(runs, runs', id, SlotOf(j))
    requires forall j | j in slots' :: slots'[j] > 0 && j.model != Unnamed
    ensures SlotsAreExact(slots', runs')
  {
    forall j: ModelKey | j.model != Unnamed ensures Count(slots', j) == Number(runs', SlotOf(j)) {
      NumberAfterMove(runs, runs', id, SlotOf(j));
      assert Count(slots, j) == Number(runs, SlotOf(j));
    }
  }

  lemma ConcurrencyAfterMove(s: Setup, runs: map<RunId, Live>, runs': map<RunId, Live>, id: RunId)
    requires ConcurrencyHolds(s, runs) && Moves(runs, runs', id)
    requires forall j: ModelKey | j.model != Unnamed ::
               Change(runs, runs', id, InFlightOf(j)) <= 0 || Number(runs, InFlightOf(j)) < Maximum(s.cfg, j)
    ensures ConcurrencyHolds(s, runs')
  {
    forall j: ModelKey | j.model != Unnamed ensures Number(runs', InFlightOf(j)) <= Maximum(s.cfg, j) {
      NumberAfterMove(runs, runs', id, InFlightOf(j));
      assert Number(runs, InFlightOf(j)) <= Maximum(s.cfg, j);
    }
  }

  /** The event does something: an admission is not refused. */
  predicate Effective(s: Setup, w: World, e: Event) {
    match e
    case AdmitPlain(id, reqs, k) => Admits(w.reg, s.cfg, reqs, k, w.now)
    case AdmitSession(id, k) => Evaluate(w.reg, s.cfg, BaseOf(s, k), k, w.now).now
    case _ => true
  }

  function Subject(e: Event): RunId {
    match e
    case AdmitPlain(id, _, _) => id
    case Start(id) => id
    case ReleasePlain(id, _, _) => id
    case Finish(id) => id
    case AdmitSession(id, _) => id
    case ReleaseSession(id, _, _) => id
    case Evict(_, _, _) => RunId("")
    case Wait(_) => RunId("")
  }

  // The four maps after an effective event, one at a time.

  function RunsAfter(runs: map<RunId, Live>, e: Event): map<RunId, Live>
    requires e.Start? || e.ReleasePlain? ==> Subject(e) in runs && runs[Subject(e)].Plain?
  {
    match e
    case AdmitPlain(id, reqs, k) => runs[id := Plain(k, reqs, Admitted)]
    case Start(id) => runs[id := runs[id].(phase := Running)]
    case ReleasePlain(id, _, _) =>
      if Counted(runs[id].key) then runs[id := runs[id].(phase := Released)] else runs - {id}
    case Finish(id) => runs - {id}
    case AdmitSession(id, k) => runs[id := SessionOf(k)]
    case ReleaseSession(id, _, _) => runs - {id}
    case _ => runs
  }

  function ActiveNext(w: World, e: Event): map<ModelKey, nat>
    requires e.Start? || e.Finish? || e.ReleaseSession? ==> Subject(e) in w.runs
  {
    match e
    case Start(id) => if Counted(w.runs[id].key) then Increment(w.reg.active, w.runs[id].key) else w.reg.active
    case Finish(id) => Decrement(w.reg.active, w.runs[id].key)
    case AdmitSession(_, k) => Increment(w.reg.active, k)
    case ReleaseSession(id, _, _) => Decrement(w.reg.active, w.runs[id].key)
    case _ => w.reg.active
  }

  function SlotsNext(reg: Registry, e: Event): map<ModelKey, nat> {
    match e
    case AdmitPlain(_, _, k) => if k.model != Unnamed then Increment(reg.slots, k) else reg.slots
    case ReleasePlain(id, _, _) =>
      if Consumer.Run(id) in reg.slotOwners then Decrement(reg.slots, reg.slotOwners[Consumer.Run(id)]) else reg.slots
    case _ => reg.slots
  }

  function OwnersNext(reg: Registry, e: Event): map<Consumer, ModelKey> {
    match e
    case AdmitPlain(id, _, k) => if k.model != Unnamed then reg.slotOwners[Consumer.Run(id) := k] else reg.slotOwners
    case ReleasePlain(id, _, _) => reg.slotOwners - {Consumer.Run(id)}
    case _ => reg.slotOwners
  }

  lemma AdmitMaps(reg: Registry, cfg: Config, reqs: Requirements, c: Consumer, k: ModelKey, now: real)
    requires c != Anonymous && Admits(reg, cfg, reqs, k, now) && (k.model != Unnamed ==> Maximum(cfg, k) <= 1)
    ensures var reg' := TryReserve(reg, cfg, reqs, c, k, now);
            && reg'.active == reg.active
            && reg'.slots == (if k.model != Unnamed then Increment(reg.slots, k) else reg.slots)
            && reg'.slotOwners == if k.model != Unnamed then reg.slotOwners[c := k] else reg.slotOwners
  {}

  lemma ReleaseMaps(reg: Registry, reqs: Requirements, c: Consumer, k: ModelKey, persistent: bool, now: real)
    ensures var reg' := ReleaseFor(reg, reqs, c, k, persistent, now);
            && reg'.active == reg.active
            && reg'.slots == (if c in reg.slotOwners then Decrement(reg.slots, reg.slotOwners[c]) else reg.slots)
            && reg'.slotOwners == reg.slotOwners - {c}
  {
    if c !in reg.slotOwners { assert reg.slotOwners - {c} == reg.slotOwners; }
  }

  ghost predicate MapsFollow(s: Setup, w: World, e: Event)
    requires Enabled(s, w, e)
  {
    var w' := Next(s, w, e);
    && w'.runs == RunsAfter(w.runs, e)
    && w'.reg.active == ActiveNext(w, e)
    && w'.reg.slots == SlotsNext(w.reg, e)
    && w'.reg.slotOwners == OwnersNext(w.reg, e)
  }

  lemma AdmitMapsFollow(s: Setup, w: World, e: Event)
    requires Enabled(s, w, e) && Effective(s, w, e) && e.AdmitPlain?
    ensures MapsFollow(s, w, e)
  {
    AdmitMaps(w.reg, s.cfg, e.reqs, Consumer.Run(e.id), e.key, w.now);
  }

  lemma ReleaseMapsFollow(s: Setup, w: World, e: Event)
    requires Enabled(s, w, e) && Effective(s, w, e) && e.ReleasePlain?
    ensures MapsFollow(s, w, e)
  {
    var run := w.runs[e.id];
    ReleaseMaps(w.reg, run.reqs, Consumer.Run(e.id), Tracked(run.key, e.retain), e.persistent && e.retain, w.now);
  }

  lemma AdmitSessionMapsFollow(s: Setup, w: World, e: Event)
    requires Enabled(s, w, e) && Effective(s, w, e) && e.AdmitSession?
    ensures MapsFollow(s, w, e)
  {
    var reg := StartSession(w.reg, s.cfg, BaseOf(s, e.key), e.key, Consumer.Run(e.id), w.now);
    assert reg.active == Increment(w.reg.active, e.key) && reg.slots == w.reg.slots &&
      reg.slotOwners == w.reg.slotOwners;
  }

  lemma ReleaseSessionMapsFollow(s: Setup, w: World, e: Event)
    requires Enabled(s, w, e) && e.ReleaseSession?
    ensures MapsFollow(s, w, e)
  {
  }

  lemma OtherMapsFollow(s: Setup, w: World, e: Event)
    requires Enabled(s, w, e) && (e.Start? || e.Finish? || e.Evict? || e.Wait?)
    ensures MapsFollow(s, w, e)
  {
  }

  lemma NextMaps(s: Setup, w: World, e: Event)
    requires Enabled(s, w, e) && Effective(s, w, e)
    ensures MapsFollow(s, w, e)
  {
    match e
    case AdmitPlain(_, _, _) => AdmitMapsFollow(s, w, e);
    case ReleasePlain(_, _, _) => ReleaseMapsFollow(s, w, e);
    case AdmitSession(_, _) => AdmitSessionMapsFollow(s, w, e);
    case ReleaseSession(_, _, _) => ReleaseSessionMapsFollow(s, w, e);
    case _ => OtherMapsFollow(s, w, e);
  }

  lemma ActiveMoves(w: World, e: Event, j: ModelKey)
    requires !e.Evict? && !e.Wait? && (!e.AdmitPlain? && !e.AdmitSession? ==> Subject(e) in w.runs)
    requires e.AdmitPlain? || e.AdmitSession? ==> Subject(e) !in w.runs
    requires e.AdmitSession? ==> Counted(e.key)
    requires e.Start? ==> w.runs[e.id].Plain? && w.runs[e.id].phase == Admitted
    requires e.ReleasePlain? ==> w.runs[e.id].Plain? && w.runs[e.id].phase == Running
    requires e.Finish? || e.ReleaseSession? ==>
      ActiveOf(w.runs[e.id].key)(w.runs[e.id]) && Count(w.reg.active, w.runs[e.id].key) > 0
    ensures Count(ActiveNext(w, e), j) ==
      Count(w.reg.active, j) + Change(w.runs, RunsAfter(w.runs, e), Subject(e), ActiveOf(j))
  {
  }

  lemma ActiveFollows(s: Setup, w: World, e: Event)
    requires ActiveIsExact(w.reg.active, w.runs) && RunsAreWellFormed(s, w) && Enabled(s, w, e)
    ensures ActiveIsExact(ActiveNext(w, e), RunsAfter(w.runs, e))
  {
    if e.Evict? || e.Wait? { return; }
    if e.Finish? || e.ReleaseSession? {
      var k := w.runs[e.id].key;
      NumberIsZero(w.runs, ActiveOf(k));
      assert ActiveOf(k)(w.runs[e.id]);
      assert Count(w.reg.active, k) > 0;
    }
    forall j ensures Count(ActiveNext(w, e), j) ==
      Count(w.reg.active, j) + Change(w.runs, RunsAfter(w.runs, e), Subject(e), ActiveOf(j)) {
      ActiveMoves(w, e, j);
    }
    ActiveAfterMove(w.reg.active, ActiveNext(w, e), w.runs, RunsAfter(w.runs, e), Subject(e));
  }

  lemma SlotsFollow(s: Setup, w: World, e: Event)
    requires SlotsAreExact(w.reg.slots, w.runs) && OwnersAreExact(w.reg.slotOwners, w.runs) && Enabled(s, w, e)
    ensures SlotsAreExact(SlotsNext(w.reg, e), RunsAfter(w.runs, e))
  {
    if e.Evict? || e.Wait? { return; }
    if e.ReleasePlain? {
      SlotsFollowRelease(s, w, e.id, e.retain, e.persistent);
    } else {
      SlotsAfterMove(w.reg.slots, SlotsNext(w.reg, e), w.runs, RunsAfter(w.runs, e), Subject(e));
    }
  }

  lemma SlotsFollowRelease(s: Setup, w: World, id: RunId, retain: bool, persistent: bool)
    requires SlotsAreExact(w.reg.slots, w.runs) && OwnersAreExact(w.reg.slotOwners, w.runs)
    requires Enabled(s, w, ReleasePlain(id, retain, persistent))
    ensures var e := ReleasePlain(id, retain, persistent); SlotsAreExact(SlotsNext(w.reg, e), RunsAfter(w.runs, e))
  {
    var e := ReleasePlain(id, retain, persistent);
    var k := w.runs[id].key;
    NumberIsZero(w.runs, SlotOf(k));
    assert SlotOf(k)(w.runs[id]);
    assert OwnsSlot(w.runs, Consumer.Run(id)) <==> k.model != Unnamed;
    SlotsAfterMove(w.reg.slots, SlotsNext(w.reg, e), w.runs, RunsAfter(w.runs, e), id);
  }

  lemma OwnersFollow(s: Setup, w: World, e: Event)
    requires OwnersAreExact(w.reg.slotOwners, w.runs) && Enabled(s, w, e)
    ensures OwnersAreExact(OwnersNext(w.reg, e), RunsAfter(w.runs, e))
  {
    forall c ensures c in OwnersNext(w.reg, e) <==> OwnsSlot(RunsAfter(w.runs, e), c) {
      assert c in w.reg.slotOwners <==> OwnsSlot(w.runs, c);
    }
  }

  /** An admission that passes leaves room under the limit for the run it adds. */
  lemma ConcurrencyFollows(s: Setup, w: World, e: Event)
    requires CountsAreExact(w) && RunsAreWellFormed(s, w) && Enabled(s, w, e) && Effective(s, w, e) &&
      ConcurrencyHolds(s, w.runs)
    ensures ConcurrencyHolds(s, RunsAfter(w.runs, e))
  {
    if e.Evict? || e.Wait? { return; }
    if e.AdmitPlain? && e.key.model != Unnamed { FreeSlotMeansIdle(s, w, e.key); }
    if e.AdmitSession? { SessionsAreCounted(s, w, e.key); }
    ConcurrencyAfterMove(s, w.runs, RunsAfter(w.runs, e), Subject(e));
  }

  lemma SessionsAreCounted(s: Setup, w: World, k: ModelKey)
    requires ActiveIsExact(w.reg.active, w.runs) && RunsAreWellFormed(s, w) && Counted(k) && Maximum(s.cfg, k) > 1
    ensures Number(w.runs, InFlightOf(k)) == Count(w.reg.active, k)
  {
    assert Ids(w.runs, InFlightOf(k)) == Ids(w.runs, ActiveOf(k));
  }

  lemma RunsStayWellFormed(s: Setup, w: World, e: Event)
    requires RunsAreWellFormed(s, w) && Enabled(s, w, e)
    ensures RunsAreWellFormed(s, Next(s, w, e))
  {}


  // ----- capacity

  lemma OrderFillsInLimits(l: Ledger, o: Order, now: real)
    requires StaysInLimits(l, now) && Fits(l, o, Ceiling(l.limits), now)
    ensures var b := if o.takeover.Some? then
                       var t := o.takeover.value; ReserveBlind(l, t.req, t.consumer, t.model, t.provider, now)
                     else l;
            StaysInLimits(b, now) && StaysInLimits(ReserveActive(b, o.active, o.consumer), now)
  {
    var ceiling := Ceiling(l.limits);
    if o.takeover.Some? {
      TakeoverStaysWithin(l, o, ceiling, now);
      var t := o.takeover.value;
      var b := ReserveBlind(l, t.req, t.consumer, t.model, t.provider, now);
      ActiveStaysWithin(b, o.(takeover := None), ceiling, now);
    } else {
      ActiveStaysWithin(l, o, ceiling, now);
    }
  }

  lemma CapacityAfterAdmit(l: Ledger, req: Amounts, c: Consumer, k: ModelKey, now: real)
    requires StaysInLimits(l, now)
    requires Available(l, req, now) || AvailableForReuse(l, req, k.model, k.provider, now)
    ensures StaysInLimits(ReserveBlind(l, req, c, k.model, k.provider, now), now)
  {
    var o := Order(Some(Takeover(req, c, k.model, k.provider)), map[], c);
    if Available(l, req, now) {
      ColdCheckFits(l, o, req, Ceiling(l.limits), now);
    } else {
      WarmCheckFits(l, o, Ceiling(l.limits), now);
    }
    OrderFillsInLimits(l, o, now);
  }

  lemma CapacityAfterRelease(l: Ledger, req: Amounts, c: Consumer, model: Name, provider: Name, persistent: bool,
                             now: real)
    requires StaysInLimits(l, now) && Covered(l, req)
    ensures StaysInLimits(Release(l, req, c, model, provider, persistent, now), now)
  {
    ReleaseKeepsFit(l, Order(None, map[], c), Ceiling(l.limits), req, c, model, provider, persistent, now);
  }

  /** The order a session start places on one resource. */
  function SessionOrder(l: Ledger, base: Requirements, session: Requirements, r: ResourceId, k: ModelKey,
                        id: RunId): Order {
    Order(if r in base && Base(k) !in l.consumers then Some(Takeover(base[r], Base(k), k.model, k.provider)) else None,
          Of(session, r), Consumer.Run(id))
  }

  lemma MergedNeed(base: Requirements, session: Requirements, r: ResourceId)
    requires r in Merge(base, session) && Normalize(base) == base && Normalize(session) == session
    ensures forall m :: Need(Merge(base, session)[r], m) == Need(Of(base, r), m) + Need(Of(session, r), m)
  {
    if r in base { NormalizedIsPositive(base, r); }
    if r in session { NormalizedIsPositive(session, r); }
    forall m ensures Need(Merge(base, session)[r], m) == Need(Of(base, r), m) + Need(Of(session, r), m) {
      PositiveAt(Of(base, r), m);
      PositiveAt(Of(session, r), m);
    }
  }

  lemma CapacityAfterAdmitSession(reg: Registry, base: Requirements, session: Requirements, r: ResourceId, k: ModelKey,
                                  id: RunId, now: real)
    requires r in reg.ledgers && StaysInLimits(reg.ledgers[r], now)
    requires Normalize(base) == base && Normalize(session) == session
    requires if Loaded(reg.ledgers, base, k, now) then CheckAvailable(reg.ledgers, session, now)
             else CheckAvailable(reg.ledgers, Merge(base, session), now)
    ensures var b := ReserveBase(reg.ledgers[r], base, r, k, now);
            StaysInLimits(ReserveSession(b, session, r, Consumer.Run(id)), now)
  {
    var l := reg.ledgers[r];
    var o := SessionOrder(l, base, session, r, k, id);
    if Loaded(reg.ledgers, base, k, now) {
      SessionCheckFits(l, o, Ceiling(l.limits), now);
    } else {
      var needed := Merge(base, session);
      if r in needed {
        MergedNeed(base, session, r);
        ColdCheckFits(l, o, needed[r], Ceiling(l.limits), now);
      } else {
        ColdCheckFits(l, o, map[], Ceiling(l.limits), now);
      }
    }
    OrderFillsInLimits(l, o, now);
  }

  lemma BooksAfterStart(s: Setup, w: World, id: RunId)
    requires BooksAreExact(s, w) && Enabled(s, w, Start(id))
    ensures BooksAreExact(s, AfterStart(w, id, w.runs[id]))
  {
    assert AfterStart(w, id, w.runs[id]).runs - {id} == w.runs - {id};
    BooksAfterPhase(s, w, AfterStart(w, id, w.runs[id]), id);
  }

  lemma BooksAfterFinish(s: Setup, w: World, id: RunId)
    requires BooksAreExact(s, w) && Enabled(s, w, Finish(id))
    ensures BooksAreExact(s, AfterFinish(w, id, w.runs[id].key))
  {
    assert AfterFinish(w, id, w.runs[id].key).runs - {id} == w.runs - {id};
    BooksAfterPhase(s, w, AfterFinish(w, id, w.runs[id].key), id);
  }

  lemma BooksFollow(s: Setup, w: World, e: Event)
    requires BooksAreExact(s, w) && CountsAreExact(w) && RunsAreWellFormed(s, w) && Enabled(s, w, e) &&
      Effective(s, w, e)
    ensures BooksAreExact(s, Next(s, w, e))
  {
    if e.AdmitSession? || e.ReleaseSession? {
      BooksFollowSessions(s, w, e);
    } else {
      BooksFollowPlain(s, w, e);
    }
  }

  lemma BooksFollowSessions(s: Setup, w: World, e: Event)
    requires BooksAreExact(s, w) && CountsAreExact(w) && RunsAreWellFormed(s, w) && Enabled(s, w, e) &&
      Effective(s, w, e)
    requires e.AdmitSession? || e.ReleaseSession?
    ensures BooksAreExact(s, Next(s, w, e))
  {
    match e
    case AdmitSession(id, k) => BooksAfterAdmitSession(s, w, id, k);
    case ReleaseSession(id, retain, persistent) =>
      BooksAfterReleaseSession(s, w, id, w.runs[id].key, retain, persistent);
  }

  lemma BooksFollowPlain(s: Setup, w: World, e: Event)
    requires BooksAreExact(s, w) && Enabled(s, w, e) && Effective(s, w, e)
    requires !e.AdmitSession? && !e.ReleaseSession?
    ensures BooksAreExact(s, Next(s, w, e))
  {
    match e
    case AdmitPlain(id, reqs, k) => BooksAfterAdmit(s, w, id, reqs, k);
    case Start(id) => BooksAfterStart(s, w, id);
    case ReleasePlain(id, retain, persistent) => BooksAfterRelease(s, w, id, w.runs[id], retain, persistent);
    case Finish(id) => BooksAfterFinish(s, w, id);
    case Evict(r, model, provider) => BooksKept(s, w, AfterEvict(w, r, model, provider));
    case Wait(until) => BooksKept(s, w, w.(now := until));
  }

  lemma CapacityAfterSessionEndsHere(l: Ledger, base: Requirements, session: Requirements, r: ResourceId, k: ModelKey,
                                     id: RunId, last: bool, model: Name, persistent: bool, now: real)
    requires StaysInLimits(l, now)
    requires var b := if r in session then Release(l, session[r], Consumer.Run(id), Unnamed, Unnamed, false, now)
      else l;
             (r in session ==> Covered(l, session[r])) && (r in base ==> Covered(b, base[r]))
    ensures StaysInLimits(BookWithoutSession(l, base, session, r, k, id, last, model, persistent, now), now)
  {
    var b := l;
    if r in session {
      CapacityAfterRelease(l, session[r], Consumer.Run(id), Unnamed, Unnamed, false, now);
      b := Release(l, session[r], Consumer.Run(id), Unnamed, Unnamed, false, now);
    }
    if r in base { CapacityAfterRelease(b, base[r], Base(k), model, k.provider, persistent, now); }
  }

  lemma CapacityOfBookWithoutSession(s: Setup, w: World, r: ResourceId, l: Ledger, id: RunId, k: ModelKey, last: bool,
                                     model: Name, persistent: bool)
    requires BookIsExact(s, w, r, l) && StaysInLimits(l, w.now) && id in w.runs && w.runs[id] == SessionOf(k)
    ensures var l' := BookWithoutSession(l, BaseOf(s, k), Session(s.cfg, k), r, k, id, last, model, persistent, w.now);
      StaysInLimits(l', w.now)
  {
    var base, session := BaseOf(s, k), Session(s.cfg, k);
    assert HeldBy(l.consumers, Consumer.Run(id)) == Share(s, w, r, Consumer.Run(id));
    assert HeldBy(l.consumers, Base(k)) == Share(s, w, r, Base(k));
    SessionEndsBook(l, base, session, r, k, id, last, model, persistent, w.now);
    CapacityAfterSessionEndsHere(l, base, session, r, k, id, last, model, persistent, w.now);
  }

  lemma CapacityAfterSessionEnd(s: Setup, w: World, id: RunId, k: ModelKey, retain: bool, persistent: bool)
    requires BooksAreExact(s, w) && CapacityIsKept(w) && id in w.runs && w.runs[id] == SessionOf(k)
    ensures CapacityIsKept(AfterReleaseSession(s, w, id, k, retain, persistent))
  {
    var w' := AfterReleaseSession(s, w, id, k, retain, persistent);
    BaseIsNormalized(s, k);
    forall r | r in w'.reg.ledgers ensures StaysInLimits(w'.reg.ledgers[r], w.now) {
      CapacityOfBookWithoutSession(s, w, r, w.reg.ledgers[r], id, k, Count(w.reg.active, k) <= 1,
                                   if retain then k.model else Unnamed, persistent && retain);
    }
  }

  lemma CapacityAfterRunRelease(s: Setup, w: World, id: RunId, run: Live, retain: bool, persistent: bool)
    requires BooksAreExact(s, w) && CapacityIsKept(w) && id in w.runs && w.runs[id] == run && run.Plain? &&
      run.phase != Released
    ensures CapacityIsKept(AfterRelease(w, id, run, retain, persistent))
  {
    var w' := AfterRelease(w, id, run, retain, persistent);
    var k := Tracked(run.key, retain);
    BooksAfterRelease(s, w, id, run, retain, persistent);
    forall r | r in w'.reg.ledgers ensures StaysInLimits(w'.reg.ledgers[r], w.now) {
      if r in run.reqs {
        CapacityAfterRelease(w.reg.ledgers[r], run.reqs[r], Consumer.Run(id), k.model, k.provider,
                             persistent && retain, w.now);
      }
    }
  }

  lemma CapacityAfterSessionStart(s: Setup, w: World, id: RunId, k: ModelKey)
    requires CapacityIsKept(w) && Maximum(s.cfg, k) > 1 && BaseOf(s, k) != map[]
    requires Evaluate(w.reg, s.cfg, BaseOf(s, k), k, w.now).now
    ensures CapacityIsKept(AfterAdmitSession(s, w, id, k))
  {
    var w' := AfterAdmitSession(s, w, id, k);
    BaseIsNormalized(s, k);
    forall r | r in w'.reg.ledgers ensures StaysInLimits(w'.reg.ledgers[r], w.now) {
      CapacityAfterAdmitSession(w.reg, BaseOf(s, k), Session(s.cfg, k), r, k, id, w.now);
    }
  }

  lemma CapacityFollows(s: Setup, w: World, e: Event)
    requires BooksAreExact(s, w) && CountsAreExact(w) && RunsAreWellFormed(s, w) && CapacityIsKept(w)
    requires Enabled(s, w, e) && Effective(s, w, e)
    ensures CapacityIsKept(Next(s, w, e))
  {
    match e
    case AdmitPlain(id, reqs, k) =>
      forall r | r in w.reg.ledgers && r in reqs
        ensures StaysInLimits(ReserveBlind(w.reg.ledgers[r], reqs[r], Consumer.Run(id), k.model, k.provider, w.now),
          w.now)
      {
        CapacityAfterAdmit(w.reg.ledgers[r], reqs[r], Consumer.Run(id), k, w.now);
      }
    case Start(id) =>
    case ReleasePlain(id, retain, persistent) => CapacityAfterRunRelease(s, w, id, w.runs[id], retain, persistent);
    case Finish(id) =>
    case AdmitSession(id, k) => CapacityAfterSessionStart(s, w, id, k);
    case ReleaseSession(id, retain, persistent) =>
      CapacityAfterSessionEnd(s, w, id, w.runs[id].key, retain, persistent);
    case Evict(r, model, provider) =>
      if r in w.reg.ledgers {
        var l := w.reg.ledgers[r];
        UnloadKeepsFit(l, Order(None, map[], Anonymous), Ceiling(l.limits), model, provider, w.now);
      }
    case Wait(until) =>
      forall r | r in w.reg.ledgers ensures StaysInLimits(w.reg.ledgers[r], until) {
        var l := w.reg.ledgers[r];
        TickKeepsFit(l, Order(None, map[], Anonymous), Ceiling(l.limits), w.now, until);
      }
  }

  lemma StepKeepsInv(s: Setup, w: World, e: Event)
    requires Inv(s, w) && Enabled(s, w, e)
    ensures Inv(s, Next(s, w, e))
  {
    if Effective(s, w, e) {
      NextMaps(s, w, e);
      BooksFollow(s, w, e);
      ActiveFollows(s, w, e);
      SlotsFollow(s, w, e);
      OwnersFollow(s, w, e);
      RunsStayWellFormed(s, w, e);
      ConcurrencyFollows(s, w, e);
      CapacityFollows(s, w, e);
    } else if e.AdmitPlain? {
      RefusalHoldsNothing(s, w, e.id, e.reqs, e.key);
    }
  }

  // ----- whole runs

  function After(s: Setup, w: World, events: seq<Event>): World
    requires Possible(s, w, events)
    decreases |events|
  {
    if events == [] then w else After(s, Next(s, w, events[0]), events[1..])
  }

  predicate Possible(s: Setup, w: World, events: seq<Event>)
    decreases |events|
  {
    events == [] || (Enabled(s, w, events[0]) && Possible(s, Next(s, w, events[0]), events[1..]))
  }

  /** A started system: nothing reserved, nothing dispatched, nothing above its limit. */
  ghost predicate Fresh(w: World) {
    && w.runs == map[] && w.reg.active == map[] && w.reg.slots == map[] && w.reg.slotOwners == map[]
    && forall r | r in w.reg.ledgers ::
         && StaysInLimits(w.reg.ledgers[r], w.now) && w.reg.ledgers[r].consumers == map[]
         && forall m :: At(w.reg.ledgers[r].used, m) == 0
  }

  lemma FreshIsExact(s: Setup, w: World)
    requires Fresh(w)
    ensures Inv(s, w)
  {
    forall p: Live -> bool ensures Number(w.runs, p) == 0 { NumberIsZero(w.runs, p); }
  }

  /** In every reachable state the books are exactly the live runs, the counts are exact,
      every model respects its limit and every resource its capacity. */
  lemma {:induction false} EveryRunKeepsInv(s: Setup, w: World, events: seq<Event>)
    requires Inv(s, w) && Possible(s, w, events)
    ensures Inv(s, After(s, w, events))
    decreases |events|
  {
    if events != [] {
      StepKeepsInv(s, w, events[0]);
      EveryRunKeepsInv(s, Next(s, w, events[0]), events[1..]);
    }
  }

  /** A drained system has given everything back. */
  lemma DrainedUsesNothing(s: Setup, w: World, events: seq<Event>, r: ResourceId, m: Metric)
    requires Fresh(w) && Possible(s, w, events)
    requires var end := After(s, w, events); end.runs == map[] && r in end.reg.ledgers
    ensures var end := After(s, w, events); At(end.reg.ledgers[r].used, m) == 0 && end.reg.ledgers[r].consumers == map[]
    ensures var end := After(s, w, events); forall k :: Count(end.reg.active, k) == 0
  {
    FreshIsExact(s, w);
    EveryRunKeepsInv(s, w, events);
    var end := After(s, w, events);
    var l := end.reg.ledgers[r];
    assert BookIsExact(s, end, r, l);
    forall c ensures c !in l.consumers { assert HeldBy(l.consumers, c) == Share(s, end, r, c) == map[]; }
    assert At(l.used, m) == HeldInAll(l.consumers, m);
    forall k ensures Count(end.reg.active, k) == 0 { NumberIsZero(end.runs, ActiveOf(k)); }
  }

  /** The base of a parallel model is on every resource it needs exactly while a request is active,
      and it is counted once however many sessions run. */
  lemma BaseFollowsActiveCount(s: Setup, w: World, k: ModelKey, r: ResourceId)
    requires Inv(s, w) && Counted(k) && Maximum(s.cfg, k) > 1 && r in w.reg.ledgers && r in BaseOf(s, k)
    ensures Base(k) in w.reg.ledgers[r].consumers <==> Count(w.reg.active, k) > 0
    ensures Count(w.reg.active, k) > 0 ==> w.reg.ledgers[r].consumers[Base(k)] == BaseOf(s, k)[r]
  {
    var l := w.reg.ledgers[r];
    assert BookIsExact(s, w, r, l);
    assert HeldBy(l.consumers, Base(k)) == Share(s, w, r, Base(k));
    NumberIsZero(w.runs, ActiveOf(k));
    if id :| id in w.runs && ActiveOf(k)(w.runs[id]) { assert w.runs[id] == SessionOf(k); }
    if id :| id in w.runs && w.runs[id] == SessionOf(k) { assert ActiveOf(k)(w.runs[id]); }
  }

  // ----- where the assumptions are needed

  /** Dispatched, but not past the point where it is marked running. */
  predicate Starting(w: World, id: RunId) { id in w.runs && (w.runs[id].SessionOf? || w.runs[id].phase == Admitted) }

  predicate HeldNothing(w: World, run: Live) {
    run.Plain? && run.key.model == Unnamed && forall r | r in w.reg.ledgers :: Positive(Of(run.reqs, r)) == map[]
  }

  /** A dispatched run that is cancelled while it is being marked running never reaches its
      `finally`: the books survive that exactly when it was a plain run that held nothing. */
  lemma LostStart(s: Setup, w: World, id: RunId)
    requires Inv(s, w) && Starting(w, id)
    ensures var lost := w.(runs := w.runs - {id});
            (BooksAreExact(s, lost) && CountsAreExact(lost)) <==> HeldNothing(w, w.runs[id])
  {
    if HeldNothing(w, w.runs[id]) {
      LostNothing(s, w, id);
    } else if w.runs[id].SessionOf? {
      LostSession(s, w, id);
    } else {
      LostSomething(s, w, id);
    }
  }

  /** A lost session is counted for ever. */
  lemma LostSession(s: Setup, w: World, id: RunId)
    requires ActiveIsExact(w.reg.active, w.runs) && RunsAreWellFormed(s, w) && id in w.runs && w.runs[id].SessionOf?
    ensures !ActiveIsExact(w.reg.active, w.runs - {id})
  {
    var p := ActiveOf(w.runs[id].key);
    NumberAfterRemoval(w.runs, id, p);
    assert Count(w.reg.active, w.runs[id].key) == Number(w.runs, p) != Number(w.runs - {id}, p);
  }

  /** The registry of a system with no resources, no runs and no limits set. */
  function Nothing(): Registry { Registry(map[], map[], map[], map[]) }

  /** The first run of a model, lost this way, blocks the model although nothing runs. */
  lemma LostStartBlocksModel(id: RunId, reqs: Requirements, k: ModelKey, now: real)
    requires k.model != Unnamed
    ensures var s, w := Setup(map[], map[]), World(Nothing(), map[], now);
      var admitted := AfterAdmit(s, w, id, map[], k);
      && Inv(s, w) && Enabled(s, w, AdmitPlain(id, map[], k)) && Starting(admitted, id)
      && admitted.runs - {id} == map[] && !Admits(admitted.reg, s.cfg, reqs, k, now)
  {
    FreshIsExact(Setup(map[], map[]), World(Nothing(), map[], now));
    assert CheckAvailable(map[], map[], now);
  }

  lemma LostNothing(s: Setup, w: World, id: RunId)
    requires BooksAreExact(s, w) && CountsAreExact(w) && Enabled(s, w, Start(id)) && HeldNothing(w, w.runs[id])
    ensures var lost := w.(runs := w.runs - {id}); BooksAreExact(s, lost) && CountsAreExact(lost)
  {
    var lost := w.(runs := w.runs - {id});
    assert lost.runs - {id} == w.runs - {id};
    forall r | r in w.reg.ledgers ensures BookIsExact(s, lost, r, w.reg.ledgers[r]) {
      assert BookIsExact(s, w, r, w.reg.ledgers[r]);
      assert HeldBy(w.reg.ledgers[r].consumers, Consumer.Run(id)) == Share(s, w, r, Consumer.Run(id));
      OthersKeepTheirShare(s, w, lost, r, id);
      BookFollows(s, w, lost, r, w.reg.ledgers[r], w.reg.ledgers[r], Consumer.Run(id));
    }
    ActiveAfterMove(w.reg.active, w.reg.active, w.runs, lost.runs, id);
    SlotsAfterMove(w.reg.slots, w.reg.slots, w.runs, lost.runs, id);
  }

  lemma LostSomething(s: Setup, w: World, id: RunId)
    requires BooksAreExact(s, w) && OwnersAreExact(w.reg.slotOwners, w.runs) && Enabled(s, w, Start(id)) &&
      !HeldNothing(w, w.runs[id])
    ensures var lost := w.(runs := w.runs - {id});
      !BooksAreExact(s, lost) || !OwnersAreExact(lost.reg.slotOwners, lost.runs)
  {
    var lost := w.(runs := w.runs - {id});
    var run, c := w.runs[id], Consumer.Run(id);
    if run.key.model != Unnamed {
      assert OwnsSlot(w.runs, c) && c in w.reg.slotOwners && !OwnsSlot(lost.runs, c);
    } else {
      var r :| r in w.reg.ledgers && Positive(Of(run.reqs, r)) != map[];
      assert BookIsExact(s, w, r, w.reg.ledgers[r]);
      assert HeldBy(w.reg.ledgers[r].consumers, c) == Share(s, w, r, c) != Share(s, lost, r, c);
      assert !BookIsExact(s, lost, r, lost.reg.ledgers[r]);
    }
  }

  /** A run that is requeued before its release can be admitted again under the same id. The
      slot tables survive such an admission and one release exactly when the id held no slot. */
  lemma ReusedId(reg: Registry, cfg: Config, reqs: Requirements, c: Consumer, k: ModelKey, persistent: bool, now: real)
    requires c != Anonymous && k.model != Unnamed && Maximum(cfg, k) <= 1 && Admits(reg, cfg, reqs, k, now)
    requires forall j | j in reg.slots :: reg.slots[j] > 0
    ensures var end := ReleaseFor(TryReserve(reg, cfg, reqs, c, k, now), reqs, c, k, persistent, now);
            (end.slots == reg.slots && end.slotOwners == reg.slotOwners) <==> c !in reg.slotOwners
    ensures var end := ReleaseFor(TryReserve(reg, cfg, reqs, c, k, now), reqs, c, k, persistent, now);
            c !in end.slotOwners && forall a :: Count(end.slots, a) == Count(reg.slots, a)
  {
    assert k !in reg.slots;
    assert reg.slots[k := 1] - {k} == reg.slots;
    if c !in reg.slotOwners { assert reg.slotOwners[c := k] - {c} == reg.slotOwners; }
  }

  lemma ShareComesBack(consumers: map<Consumer, Amounts>, c: Consumer, req: Amounts, m: Metric)
    requires c != Anonymous && At(HeldBy(consumers, c), m) >= 0
    ensures At(HeldBy(DischargeConsumer(ChargeConsumer(consumers, c, req), c, req), c), m) ==
      At(HeldBy(consumers, c), m)
  {
    var mid := ChargeConsumer(consumers, c, req);
    assert At(HeldBy(mid, c), m) == At(HeldBy(consumers, c), m) + Need(req, m);
    if c in mid { assert At(Remainder(mid[c], req), m) == At(mid[c], m) - Need(req, m); }
  }

  lemma UseComesBack(used: Amounts, req: Amounts, m: Metric)
    requires At(used, m) >= 0
    ensures At(Discharge(Charge(used, req), req), m) == At(used, m)
  {
    assert At(Charge(used, req), m) == At(used, m) + Need(req, m);
  }

  lemma OthersUntouched(consumers: map<Consumer, Amounts>, c: Consumer, d: Consumer, req: Amounts)
    requires d != c
    ensures HeldBy(DischargeConsumer(ChargeConsumer(consumers, c, req), c, req), d) == HeldBy(consumers, d)
  {
  }

  function Twice(l: Ledger, req: Amounts, c: Consumer, k: ModelKey, persistent: bool, now: real): Ledger {
    Release(ReserveBlind(l, req, c, k.model, k.provider, now), req, c, k.model, k.provider, persistent, now)
  }

  lemma ReserveBooks(l: Ledger, req: Amounts, c: Consumer, k: ModelKey, now: real)
    ensures var end := ReserveBlind(l, req, c, k.model, k.provider, now);
      end.used == Charge(l.used, req) && end.consumers == ChargeConsumer(l.consumers, c, req)
  {
  }

  lemma ReleaseBooks(l: Ledger, req: Amounts, c: Consumer, k: ModelKey, persistent: bool, now: real)
    ensures var end := Release(l, req, c, k.model, k.provider, persistent, now);
      end.used == Discharge(l.used, req) && end.consumers == DischargeConsumer(l.consumers, c, req)
  {
  }

  /** What is held on a resource survives that: the two requests add up and come apart again. */
  lemma ReusedIdKeepsShares(l: Ledger, req: Amounts, c: Consumer, k: ModelKey, persistent: bool, now: real,
                            d: Consumer, m: Metric)
    requires Balanced(l) && c != Anonymous
    ensures var end := Twice(l, req, c, k, persistent, now);
      At(HeldBy(end.consumers, d), m) == At(HeldBy(l.consumers, d), m) && At(end.used, m) == At(l.used, m)
  {
    ShareIsUsed(l, c, m);
    ReserveBooks(l, req, c, k, now);
    ReleaseBooks(ReserveBlind(l, req, c, k.model, k.provider, now), req, c, k, persistent, now);
    UseComesBack(l.used, req, m);
    if d == c { ShareComesBack(l.consumers, c, req, m); } else { OthersUntouched(l.consumers, c, d, req); }
  }

  /** A run that holds the slot of `j` is requeued and admitted for `k` under its old id: when
      both have released, the slot of `j` is still taken and nobody owns it. */
  lemma ReusedIdLosesSlot(id: RunId, j: ModelKey, k: ModelKey, now: real)
    requires j != k && j.model != Unnamed && k.model != Unnamed
    ensures var c, none: Requirements := Consumer.Run(id), map[];
      var one := TryReserve(Nothing(), map[], none, c, j, now);
      var two := TryReserve(one, map[], none, c, k, now);
      var end := ReleaseFor(ReleaseFor(two, none, c, j, false, now), none, c, k, false, now);
      && Admits(Nothing(), map[], none, j, now) && Admits(one, map[], none, k, now)
      && end.slotOwners == map[] && !SlotAvailable(end, map[], j)
  {
    var c, none: Requirements := Consumer.Run(id), map[];
    assert CheckAvailable(map[], none, now);
    var one := TryReserve(Nothing(), map[], none, c, j, now);
    var two := TryReserve(one, map[], none, c, k, now);
    assert one.slots == map[j := 1] && two.slots == map[j := 1, k := 1] && two.slotOwners == map[c := k];
    var released := ReleaseFor(two, none, c, j, false, now);
    assert released.slots == map[j := 1] && released.slotOwners == map[];
  }

  /** An unchecked reservation stays within the limits exactly when it happens to fit. */
  lemma UncheckedFitsIff(l: Ledger, req: Amounts, c: Consumer, now: real)
    requires StaysInLimits(l, now)
    ensures StaysInLimits(ReserveActive(l, req, c), now) <==> HasRoom(l, req, now)
  {
    var l' := ReserveActive(l, req, c);
    forall m ensures Total(l', now, m) == Total(l, now, m) + Need(req, m) {
      ReserveTotal(l, req, c, Unnamed, Unnamed, now, now, m);
    }
    if HasRoom(l, req, now) {
      ColdCheckFits(l, Order(None, req, c), req, Ceiling(l.limits), now);
      OrderFillsInLimits(l, Order(None, req, c), now);
    } else {
      var m :| m in req && req[m] > 0 && Total(l, now, m) + req[m] > At(l.limits, m);
      assert Total(l', now, m) > Ceiling(l'.limits)(m);
    }
  }

  lemma SessionAlone(s: Setup, w: World, k: ModelKey, id: RunId, r: ResourceId)
    requires Maximum(s.cfg, k) > 1 && BaseOf(s, k) == map[] && r in w.reg.ledgers && r in Session(s.cfg, k)
    requires Count(w.reg.active, k) < Maximum(s.cfg, k)
    ensures Evaluate(w.reg, s.cfg, BaseOf(s, k), k, w.now).now
    ensures AfterAdmitSession(s, w, id, k).reg.ledgers[r] ==
      ReserveActive(w.reg.ledgers[r], Session(s.cfg, k)[r], Consumer.Run(id))
  {
    BaseIsNormalized(s, k);
  }

  /** A parallel model without a base footprint is admitted without a look at its session memory:
      the resource stays within its limits exactly when the session happens to fit. */
  lemma EmptyBase(s: Setup, w: World, k: ModelKey, id: RunId, r: ResourceId)
    requires CapacityIsKept(w) && Maximum(s.cfg, k) > 1 && BaseOf(s, k) == map[] && r in w.reg.ledgers &&
      r in Session(s.cfg, k)
    requires Count(w.reg.active, k) < Maximum(s.cfg, k)
    ensures Evaluate(w.reg, s.cfg, BaseOf(s, k), k, w.now).now
    ensures StaysInLimits(AfterAdmitSession(s, w, id, k).reg.ledgers[r], w.now)
            <==> HasRoom(w.reg.ledgers[r], Session(s.cfg, k)[r], w.now)
  {
    SessionAlone(s, w, k, id, r);
    UncheckedFitsIff(w.reg.ledgers[r], Session(s.cfg, k)[r], Consumer.Run(id), w.now);
  }

  /** Such a system: one resource with room for 1, and a parallel model whose session takes 2. */
  lemma EmptyBaseOverfills(m: Metric, r: ResourceId, k: ModelKey, id: RunId, now: real)
    requires Counted(k)
    ensures var cfg := map[k := ModelConfig(2, map[r := map[m := 2]])];
      var l := Ledger(map[m := 1], map[], map[], [], 0, 0, true);
      var s, w := Setup(cfg, map[]), World(Registry(map[r := l], map[], map[], map[]), map[], now);
      && Fresh(w) && Inv(s, w) && Evaluate(w.reg, cfg, BaseOf(s, k), k, now).now
      && r in AfterAdmitSession(s, w, id, k).reg.ledgers
      && !StaysInLimits(AfterAdmitSession(s, w, id, k).reg.ledgers[r], now)
  {
    var cfg := map[k := ModelConfig(2, map[r := map[m := 2]])];
    var l := Ledger(map[m := 1], map[], map[], [], 0, 0, true);
    var s, w := Setup(cfg, map[]), World(Registry(map[r := l], map[], map[], map[]), map[], now);
    SessionOfTwo(cfg, k, r, m);
    assert Fresh(w);
    FreshIsExact(s, w);
    EmptyBase(s, w, k, id, r);
    assert m in map[m := 2] && Total(l, now, m) == 0;
    assert !HasRoom(l, map[m := 2], now);
  }

  lemma SessionOfTwo(cfg: Config, k: ModelKey, r: ResourceId, m: Metric)
    requires k in cfg && cfg[k] == ModelConfig(2, map[r := map[m := 2]])
    ensures Maximum(cfg, k) == 2 && Session(cfg, k) == map[r := map[m := 2]]
  {
    assert m in map[m := 2] && Positive(map[m := 2]) == map[m := 2];
    assert r in cfg[k].session && r in Normalize(cfg[k].session);
  }
}
