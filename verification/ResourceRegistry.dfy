/** The registry object (core/resources.py): it owns the resources and the per-model tables,
    and each method does to them what the functions of ModelAdmission say. */
module ResourceRegistry {
  import opened Basics
  import opened ResourceLedger
  import Adm = ModelAdmission

  class Resources {
    const config: Adm.Config
    const items: map<ResourceId, Resource>
    var modelActive: map<ModelKey, nat>
    var modelSlots: map<ModelKey, nat>
    var modelSlotConsumers: map<Consumer, ModelKey>

    /** Every id has an object of its own. */
    ghost predicate Valid() {
      forall r, q | r in items && q in items && r != q :: items[r] != items[q]
    }

    function Ledgers(): map<ResourceId, Ledger>
      reads items.Values
    {
      map r | r in items :: items[r].State()
    }

    function View(): Adm.Registry
      reads this, items.Values
    {
      Adm.Registry(Ledgers(), modelActive, modelSlots, modelSlotConsumers)
    }

    constructor (config: Adm.Config, items: map<ResourceId, Resource>)
      ensures this.config == config && this.items == items
      ensures modelActive == map[] && modelSlots == map[] && modelSlotConsumers == map[]
    {
      this.config := config;
      this.items := items;
      this.modelActive := map[];
      this.modelSlots := map[];
      this.modelSlotConsumers := map[];
    }

    method CheckAvailable(reqs: Adm.Requirements, now: real) returns (ok: bool)
      ensures ok == Adm.CheckAvailable(Ledgers(), reqs, now)
    {
      var todo := reqs.Keys;
      while todo != {}
        invariant todo <= reqs.Keys
        invariant forall r | r in reqs && r !in todo :: r in items && Available(items[r].State(), reqs[r], now)
      {
        var r :| r in todo;
        if r !in items { return false; }
        var fits := items[r].IsAvailable(reqs[r], now);
        if !fits { return false; }
        todo := todo - {r};
      }
      return true;
    }

    method CheckAvailableForReuse(reqs: Adm.Requirements, k: ModelKey, now: real) returns (ok: bool)
      ensures ok == Adm.CheckAvailableForReuse(Ledgers(), reqs, k, now)
    {
      if k.model == Unnamed { return false; }
      var todo := reqs.Keys;
      while todo != {}
        invariant todo <= reqs.Keys
        invariant forall r | r in reqs && r !in todo ::
          r in items && AvailableForReuse(items[r].State(), reqs[r], k.model, k.provider, now)
      {
        var r :| r in todo;
        if r !in items { return false; }
        var fits := items[r].IsAvailableForReuse(reqs[r], k.model, k.provider, now);
        if !fits { return false; }
        todo := todo - {r};
      }
      return true;
    }

    method ModelIsLoaded(reqs: Adm.Requirements, k: ModelKey, now: real) returns (ok: bool)
      ensures ok == Adm.Loaded(Ledgers(), reqs, k, now)
    {
      if reqs == map[] { return false; }
      var todo := reqs.Keys;
      while todo != {}
        invariant todo <= reqs.Keys
        invariant forall r | r in reqs && r !in todo ::
          r in items && (Base(k) in items[r].consumers ||
            Matching(items[r].State(), k.model, reqs[r], k.provider, now).Some?)
      {
        var r :| r in todo;
        if r !in items { return false; }
        if Base(k) !in items[r].consumers &&
          Matching(items[r].State(), k.model, reqs[r], k.provider, now).None? { return false; }
        todo := todo - {r};
      }
      return true;
    }

    method EvaluateModelAdmission(raw: Adm.Requirements, k: ModelKey, now: real) returns (d: Adm.Decision)
      ensures d == Adm.Evaluate(View(), config, raw, k, now)
    {
      var reqs := Adm.Normalize(raw);
      var maximum, session := Adm.Maximum(config, k), Adm.Session(config, k);
      if Adm.Count(modelActive, k) >= maximum { return Adm.Decision(Adm.Concurrency, false, true, false); }
      if reqs == map[] { return Adm.Decision(Adm.Ready, true, true, false); }
      var loaded := ModelIsLoaded(reqs, k, now);
      if maximum > 1 {
        d := EvaluateParallel(reqs, session, k, loaded, now);
        return;
      }
      var free := CheckAvailable(reqs, now);
      var ready := loaded || free;
      var after := ready || Adm.CheckAvailableAfterUnload(Ledgers(), reqs);
      return Adm.Decision(Adm.ReasonFor(ready, after, Adm.BaseMemory), ready, after, loaded);
    }

    method EvaluateParallel(reqs: Adm.Requirements, session: Adm.Requirements, k: ModelKey, loaded: bool, now: real)
      returns (d: Adm.Decision)
      ensures d == Adm.EvaluateParallel(Ledgers(), reqs, session, k, loaded, now)
    {
      var needed := if loaded then session else Adm.Merge(reqs, session);
      var ready := CheckAvailable(needed, now);
      var after :=
        if loaded then
          forall r | r in reqs ::
            r in Ledgers() && AvailableAfterUnloadingOthers(Ledgers()[r], Adm.Of(session, r), k.model, k.provider, now)
        else Adm.CheckAvailableAfterUnload(Ledgers(), needed);
      return Adm.Decision(Adm.ReasonFor(ready, after, if loaded then Adm.SessionMemory else Adm.BaseMemory), ready,
        after, loaded);
    }

    method AcquireModelSlot(k: ModelKey, c: Consumer) returns (ok: bool)
      modifies `modelSlots, `modelSlotConsumers
      ensures ok == Adm.SlotAvailable(old(View()), config, k)
      ensures View() == if ok then Adm.AcquireSlot(old(View()), config, k, c) else old(View())
    {
      if Adm.Maximum(config, k) > 1 { return true; }
      if Adm.Count(modelSlots, k) + Adm.Count(modelActive, k) >= Adm.Maximum(config, k) { return false; }
      modelSlots := modelSlots[k := Adm.Count(modelSlots, k) + 1];
      if c != Anonymous { modelSlotConsumers := modelSlotConsumers[c := k]; }
      return true;
    }

    method ReleaseModelSlot(c: Consumer)
      modifies `modelSlots, `modelSlotConsumers
      ensures View() == Adm.ReleaseSlot(old(View()), c)
    {
      if c !in modelSlotConsumers { return; }
      var k := modelSlotConsumers[c];
      modelSlotConsumers := modelSlotConsumers - {c};
      var remaining := Max(0, Adm.Count(modelSlots, k) - 1);
      modelSlots := if remaining > 0 then modelSlots[k := remaining] else modelSlots - {k};
    }

    method MarkModelStarted(k: ModelKey)
      modifies `modelActive
      ensures modelActive == Adm.Increment(old(modelActive), k)
    {
      modelActive := modelActive[k := Adm.Count(modelActive, k) + 1];
    }

    method MarkModelFinished(k: ModelKey) returns (remaining: nat)
      modifies `modelActive
      ensures modelActive == Adm.Decrement(old(modelActive), k)
      ensures remaining == 0 <==> Adm.Count(old(modelActive), k) <= 1
    {
      remaining := Max(0, Adm.Count(modelActive, k) - 1);
      modelActive := if remaining > 0 then modelActive[k := remaining] else modelActive - {k};
    }

    method ReserveBlindFor(reqs: Adm.Requirements, c: Consumer, k: ModelKey, now: real)
      requires Valid()
      modifies items.Values
      ensures Ledgers() == Adm.ReserveAll(old(Ledgers()), reqs, c, k, now)
    {
      var todo := reqs.Keys;
      while todo != {}
        invariant todo <= reqs.Keys
        invariant forall r | r in items ::
          items[r].State() ==
            if r in todo then old(items[r].State()) else Adm.ReserveHere(old(items[r].State()), reqs, r, c, k, now)
      {
        var r :| r in todo;
        if r in items { items[r].ReserveBlindly(reqs[r], c, k.model, k.provider, now); }
        todo := todo - {r};
      }
    }

    /** Check and reserve for a new or a matching warm model. */
    method ReserveIfAvailableOrReuse(reqs: Adm.Requirements, c: Consumer, k: ModelKey, now: real) returns (ok: bool)
      requires Valid()
      modifies this, items.Values
      ensures ok == Adm.Admits(old(View()), config, reqs, k, now)
      ensures View() == Adm.TryReserve(old(View()), config, reqs, c, k, now)
    {
      if k.model != Unnamed {
        var acquired := AcquireModelSlot(k, c);
        if !acquired { return false; }
      }
      var reusable := CheckAvailableForReuse(reqs, k, now);
      var free := CheckAvailable(reqs, now);
      if !reusable && !free {
        if k.model != Unnamed { ReleaseModelSlot(c); }
        return false;
      }
      ReserveBlindFor(reqs, c, k, now);
      return true;
    }

    method ReleaseResources(reqs: Adm.Requirements, c: Consumer, k: ModelKey, persistent: bool, now: real)
      requires Valid()
      modifies items.Values
      ensures Ledgers() == Adm.ReleaseAll(old(Ledgers()), reqs, c, k, persistent, now)
    {
      var todo := reqs.Keys;
      while todo != {}
        invariant todo <= reqs.Keys
        invariant forall r | r in items ::
          items[r].State() ==
            if r in todo then old(items[r].State())
              else Adm.ReleaseHere(old(items[r].State()), reqs, r, c, k, persistent, now)
      {
        var r :| r in todo;
        ReleaseIn(r, reqs, c, k, persistent, now);
        todo := todo - {r};
      }
    }

    method ReleaseIn(r: ResourceId, reqs: Adm.Requirements, c: Consumer, k: ModelKey, persistent: bool, now: real)
      requires Valid() && r in reqs
      modifies items.Values
      ensures forall q | q in items ::
        items[q].State() ==
          if q == r then Adm.ReleaseHere(old(items[q].State()), reqs, r, c, k, persistent, now)
            else old(items[q].State())
    {
      if r in items { items[r].ReleaseAmounts(reqs[r], c, k.model, k.provider, persistent, now); }
    }

    /** Release one reservation and its slot; `k.model` is empty when the model is not retained. */
    method ReleaseFor(reqs: Adm.Requirements, c: Consumer, k: ModelKey, persistent: bool, now: real)
      requires Valid()
      modifies this, items.Values
      ensures View() == Adm.ReleaseFor(old(View()), reqs, c, k, persistent, now)
    {
      ReleaseModelSlot(c);
      ReleaseResources(reqs, c, k, persistent, now);
    }

    method ReserveBases(base: Adm.Requirements, k: ModelKey, now: real)
      requires Valid() && forall r | r in base :: r in items
      modifies items.Values
      ensures Ledgers() == Adm.ReserveBases(old(Ledgers()), base, k, now)
    {
      var todo := base.Keys;
      while todo != {}
        invariant todo <= base.Keys
        invariant forall r | r in items ::
          items[r].State() ==
            if r in todo then old(items[r].State()) else Adm.ReserveBase(old(items[r].State()), base, r, k, now)
      {
        var r :| r in todo;
        if Base(k) !in items[r].consumers {
          items[r].ReserveBlindly(base[r], Base(k), k.model, k.provider, now);
        }
        todo := todo - {r};
      }
    }

    method ReserveSessions(session: Adm.Requirements, c: Consumer)
      requires Valid()
      modifies items.Values
      ensures Ledgers() == Adm.ReserveSessions(old(Ledgers()), session, c)
    {
      var todo := session.Keys;
      while todo != {}
        invariant todo <= session.Keys
        invariant forall r | r in items ::
          items[r].State() ==
            if r in todo then old(items[r].State()) else Adm.ReserveSession(old(items[r].State()), session, r, c)
      {
        var r :| r in todo;
        if r in items { items[r].ReserveActiveAmounts(session[r], c); }
        todo := todo - {r};
      }
    }

    /** The base and one session of a parallel model; nothing for a model without sessions. The
        source's return in the middle of the base loop, for an unknown resource, cannot be
        taken: admission has looked it up. */
    method ReserveModelStart(raw: Adm.Requirements, k: ModelKey, c: Consumer, now: real)
      returns (d: Option<Adm.Decision>)
      requires Valid()
      modifies this, items.Values
      ensures d == if Adm.Maximum(config, k) <= 1 then None else Some(Adm.Evaluate(old(View()), config, raw, k, now))
      ensures View() == Adm.StartSession(old(View()), config, raw, k, c, now)
    {
      if Adm.Maximum(config, k) <= 1 { return None; }
      var admission := EvaluateModelAdmission(raw, k, now);
      if !admission.now { return Some(admission); }
      Adm.AdmittedResourcesExist(View(), config, raw, k, now);
      ReserveBases(Adm.Normalize(raw), k, now);
      ReserveSessions(Adm.Session(config, k), c);
      MarkModelStarted(k);
      return Some(admission);
    }

    method ReleaseBases(base: Adm.Requirements, k: ModelKey, model: Name, persistent: bool, now: real)
      requires Valid()
      modifies items.Values
      ensures Ledgers() == Adm.ReleaseBases(old(Ledgers()), base, k, model, persistent, now)
    {
      var todo := base.Keys;
      while todo != {}
        invariant todo <= base.Keys
        invariant forall r | r in items ::
          items[r].State() ==
            if r in todo then old(items[r].State())
              else Adm.ReleaseBase(old(items[r].State()), base, r, k, model, persistent, now)
      {
        var r :| r in todo;
        if r in items && Base(k) in items[r].consumers {
          items[r].ReleaseAmounts(base[r], Base(k), model, k.provider, persistent, now);
        }
        todo := todo - {r};
      }
    }

    /** One session ends; the last one also returns the base to soft tracking. */
    method ReleaseModelSession(session: Adm.Requirements, base: Adm.Requirements, k: ModelKey, c: Consumer,
                               retain: bool, persistent: bool, now: real)
      requires Valid()
      modifies this, items.Values
      ensures View() == Adm.EndSession(old(View()), session, base, k, c, retain, persistent, now)
    {
      ReleaseResources(Adm.Normalize(session), c, ModelKey(Unnamed, Unnamed), false, now);
      var remaining := MarkModelFinished(k);
      if remaining == 0 {
        ReleaseBases(Adm.Normalize(base), k, if retain then k.model else Unnamed, persistent && retain, now);
      }
    }
  }
}
