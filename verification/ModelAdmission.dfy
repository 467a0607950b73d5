/** Admission over all resources (core/resources.py), as functions on values: what one
    admission or release does to the books, the per-model counts and the admission slots. */
module ModelAdmission {
  import opened Basics
  import opened ResourceLedger

  /** Resource id to amounts. */
  type Requirements = map<ResourceId, Amounts>

  datatype ModelConfig = ModelConfig(maximum: int, session: Requirements)

  type Config = map<ModelKey, ModelConfig>

  datatype Registry = Registry(
    ledgers: map<ResourceId, Ledger>,
    active: map<ModelKey, nat>,
    slots: map<ModelKey, nat>,
    slotOwners: map<Consumer, ModelKey>)

  datatype Reason = Ready | Concurrency | WaitingUnload | BaseMemory | SessionMemory

  datatype Decision = Decision(reason: Reason, now: bool, afterUnload: bool, loaded: bool)

  function Count(counts: map<ModelKey, nat>, k: ModelKey): nat { if k in counts then counts[k] else 0 }

  function Increment(counts: map<ModelKey, nat>, k: ModelKey): map<ModelKey, nat> { counts[k := Count(counts, k) + 1] }

  /** A count that reaches zero is dropped. */
  function Decrement(counts: map<ModelKey, nat>, k: ModelKey): map<ModelKey, nat> {
    if Count(counts, k) <= 1 then counts - {k} else counts[k := counts[k] - 1]
  }

  function Maximum(cfg: Config, k: ModelKey): int { if k in cfg then Max(1, cfg[k].maximum) else 1 }

  function Normalize(reqs: Requirements): Requirements {
    map r | r in reqs && Positive(reqs[r]) != map[] :: Positive(reqs[r])
  }

  function Session(cfg: Config, k: ModelKey): Requirements { if k in cfg then Normalize(cfg[k].session) else map[] }

  function Of(reqs: Requirements, r: ResourceId): Amounts { if r in reqs then reqs[r] else map[] }

  function Merge(a: Requirements, b: Requirements): Requirements {
    map r | r in a.Keys + b.Keys :: map m | m in Of(a, r).Keys + Of(b, r).Keys :: At(Of(a, r), m) + At(Of(b, r), m)
  }

  predicate CheckAvailable(ledgers: map<ResourceId, Ledger>, reqs: Requirements, now: real) {
    forall r | r in reqs :: r in ledgers && Available(ledgers[r], reqs[r], now)
  }

  predicate CheckAvailableAfterUnload(ledgers: map<ResourceId, Ledger>, reqs: Requirements) {
    forall r | r in reqs :: r in ledgers && AvailableAfterUnload(ledgers[r], reqs[r])
  }

  predicate CheckAvailableForReuse(ledgers: map<ResourceId, Ledger>, reqs: Requirements, k: ModelKey, now: real) {
    k.model != Unnamed && forall r | r in reqs ::
      r in ledgers && AvailableForReuse(ledgers[r], reqs[r], k.model, k.provider, now)
  }

  /** The base footprint is resident on every required resource. */
  predicate Loaded(ledgers: map<ResourceId, Ledger>, reqs: Requirements, k: ModelKey, now: real) {
    reqs != map[] && forall r | r in reqs ::
      r in ledgers && (Base(k) in ledgers[r].consumers || Matching(ledgers[r], k.model, reqs[r], k.provider, now).Some?)
  }

  function ReasonFor(ready: bool, after: bool, otherwise: Reason): Reason {
    if ready then Ready else if after then WaitingUnload else otherwise
  }

  function Evaluate(reg: Registry, cfg: Config, raw: Requirements, k: ModelKey, now: real): Decision {
    var reqs := Normalize(raw);
    var maximum, session := Maximum(cfg, k), Session(cfg, k);
    if Count(reg.active, k) >= maximum then Decision(Concurrency, false, true, false)
    else if reqs == map[] then Decision(Ready, true, true, false)
    else
      var loaded := Loaded(reg.ledgers, reqs, k, now);
      if maximum > 1 then EvaluateParallel(reg.ledgers, reqs, session, k, loaded, now)
      else
        var ready := loaded || CheckAvailable(reg.ledgers, reqs, now);
        var after := ready || CheckAvailableAfterUnload(reg.ledgers, reqs);
        Decision(ReasonFor(ready, after, BaseMemory), ready, after, loaded)
  }

  /** A loaded model needs room for a session only, a cold one for base and session. */
  function EvaluateParallel(ledgers: map<ResourceId, Ledger>, reqs: Requirements, session: Requirements, k: ModelKey,
                            loaded: bool, now: real): Decision {
    var needed := if loaded then session else Merge(reqs, session);
    var ready := CheckAvailable(ledgers, needed, now);
    var after :=
      if loaded then
        forall r | r in reqs ::
          r in ledgers && AvailableAfterUnloadingOthers(ledgers[r], Of(session, r), k.model, k.provider, now)
      else CheckAvailableAfterUnload(ledgers, needed);
    Decision(ReasonFor(ready, after, if loaded then SessionMemory else BaseMemory), ready, after, loaded)
  }

  // ----- single-request models: slots

  predicate SlotAvailable(reg: Registry, cfg: Config, k: ModelKey) {
    Maximum(cfg, k) > 1 || Count(reg.slots, k) + Count(reg.active, k) < Maximum(cfg, k)
  }

  function AcquireSlot(reg: Registry, cfg: Config, k: ModelKey, c: Consumer): Registry {
    if Maximum(cfg, k) > 1 then reg
    else reg.(slots := Increment(reg.slots, k),
              slotOwners := if c == Anonymous then reg.slotOwners else reg.slotOwners[c := k])
  }

  function ReleaseSlot(reg: Registry, c: Consumer): Registry {
    if c !in reg.slotOwners then reg
    else reg.(slots := Decrement(reg.slots, reg.slotOwners[c]), slotOwners := reg.slotOwners - {c})
  }

  // ----- reservations

  function ReserveHere(l: Ledger, reqs: Requirements, r: ResourceId, c: Consumer, k: ModelKey, now: real): Ledger {
    if r in reqs then ReserveBlind(l, reqs[r], c, k.model, k.provider, now) else l
  }

  function ReleaseHere(l: Ledger, reqs: Requirements, r: ResourceId, c: Consumer, k: ModelKey, persistent: bool,
                       now: real): Ledger {
    if r in reqs then Release(l, reqs[r], c, k.model, k.provider, persistent, now) else l
  }

  function ReserveAll(ledgers: map<ResourceId, Ledger>, reqs: Requirements, c: Consumer, k: ModelKey,
                      now: real): map<ResourceId, Ledger> {
    map r | r in ledgers :: ReserveHere(ledgers[r], reqs, r, c, k, now)
  }

  function ReleaseAll(ledgers: map<ResourceId, Ledger>, reqs: Requirements, c: Consumer, k: ModelKey, persistent: bool,
                      now: real): map<ResourceId, Ledger> {
    map r | r in ledgers :: ReleaseHere(ledgers[r], reqs, r, c, k, persistent, now)
  }

  /** The outcome of `reserve_if_available_or_reuse`. An empty model name means no model. */
  predicate Admits(reg: Registry, cfg: Config, reqs: Requirements, k: ModelKey, now: real) {
    && (k.model != Unnamed ==> SlotAvailable(reg, cfg, k))
    && (CheckAvailableForReuse(reg.ledgers, reqs, k, now) || CheckAvailable(reg.ledgers, reqs, now))
  }

  function TryReserve(reg: Registry, cfg: Config, reqs: Requirements, c: Consumer, k: ModelKey, now: real): Registry {
    if k.model != Unnamed && !SlotAvailable(reg, cfg, k) then reg
    else
      var slotted := if k.model != Unnamed then AcquireSlot(reg, cfg, k, c) else reg;
      if !Admits(reg, cfg, reqs, k, now) then
        if k.model != Unnamed then ReleaseSlot(slotted, c) else reg
      else
        slotted.(ledgers := ReserveAll(reg.ledgers, reqs, c, k, now))
  }

  /** `release_for`: an empty model name also stands for a model that is not retained. */
  function ReleaseFor(reg: Registry, reqs: Requirements, c: Consumer, k: ModelKey, persistent: bool,
                      now: real): Registry {
    var freed := ReleaseSlot(reg, c);
    freed.(ledgers := ReleaseAll(freed.ledgers, reqs, c, k, persistent, now))
  }

  // ----- parallel models: one base, many sessions

  function ReserveBase(l: Ledger, base: Requirements, r: ResourceId, k: ModelKey, now: real): Ledger {
    if r in base && Base(k) !in l.consumers then ReserveBlind(l, base[r], Base(k), k.model, k.provider, now) else l
  }

  function ReserveBases(ledgers: map<ResourceId, Ledger>, base: Requirements, k: ModelKey,
                        now: real): map<ResourceId, Ledger> {
    map r | r in ledgers :: ReserveBase(ledgers[r], base, r, k, now)
  }

  function ReserveSession(l: Ledger, session: Requirements, r: ResourceId, c: Consumer): Ledger {
    if r in session then ReserveActive(l, session[r], c) else l
  }

  function ReserveSessions(ledgers: map<ResourceId, Ledger>, session: Requirements,
                           c: Consumer): map<ResourceId, Ledger> {
    map r | r in ledgers :: ReserveSession(ledgers[r], session, r, c)
  }

  function ReleaseBase(l: Ledger, base: Requirements, r: ResourceId, k: ModelKey, model: Name, persistent: bool,
                       now: real): Ledger {
    if r in base && Base(k) in l.consumers then Release(l, base[r], Base(k), model, k.provider, persistent, now) else l
  }

  function ReleaseBases(ledgers: map<ResourceId, Ledger>, base: Requirements, k: ModelKey, model: Name,
                        persistent: bool, now: real): map<ResourceId, Ledger> {
    map r | r in ledgers :: ReleaseBase(ledgers[r], base, r, k, model, persistent, now)
  }

  function StartSession(reg: Registry, cfg: Config, raw: Requirements, k: ModelKey, c: Consumer, now: real): Registry {
    if Maximum(cfg, k) <= 1 || !Evaluate(reg, cfg, raw, k, now).now then reg
    else
      reg.(ledgers := ReserveSessions(ReserveBases(reg.ledgers, Normalize(raw), k, now), Session(cfg, k), c),
           active := Increment(reg.active, k))
  }

  /** `release_model_session`: the last session also gives the base back. */
  function EndSession(reg: Registry, session: Requirements, base: Requirements, k: ModelKey, c: Consumer, retain: bool,
                      persistent: bool, now: real): Registry {
    var rest := ReleaseAll(reg.ledgers, Normalize(session), c, ModelKey(Unnamed, Unnamed), false, now);
    reg.(ledgers := if Count(reg.active, k) <= 1
                    then ReleaseBases(rest, Normalize(base), k, if retain then k.model else Unnamed,
                                      persistent && retain, now)
                    else rest,
         active := Decrement(reg.active, k))
  }

  /** What an admitted parallel model needs is known: every base resource exists. */
  lemma AdmittedResourcesExist(reg: Registry, cfg: Config, raw: Requirements, k: ModelKey, now: real)
    requires Evaluate(reg, cfg, raw, k, now).now && Maximum(cfg, k) > 1
    ensures forall r | r in Normalize(raw) :: r in reg.ledgers
  {
    forall r | r in Normalize(raw) ensures r in reg.ledgers {
      if !Loaded(reg.ledgers, Normalize(raw), k, now) { assert r in Merge(Normalize(raw), Session(cfg, k)); }
    }
  }
}
