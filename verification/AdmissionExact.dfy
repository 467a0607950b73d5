/** When an admission passes, exactly: the other half of the capacity theorems, which only say
    that nothing too large is admitted (core/resource.py, the four availability checks;
    core/resources.py, `evaluate_model_admission`, `reserve_if_available_or_reuse`). */
module AdmissionExact {
  import opened Basics
  import opened ResourceLedger
  import CapacitySafety
  import opened Conservation
  import opened ModelAdmission
  import opened AdmissionRuns

  // ---- one resource -----------------------------------------------------------------

  /** The cold check passes exactly when the resource is enabled and would stay within its
      limits with the request charged. */
  lemma ColdIff(l: Ledger, req: Amounts, c: Consumer, now: real)
    requires StaysInLimits(l, now)
    ensures Available(l, req, now) <==> l.enabled && StaysInLimits(ReserveActive(l, req, c), now)
  {
    UncheckedFitsIff(l, req, c, now);
  }

  /** The check after an unload passes exactly when that would be so without any idle model. */
  lemma UnloadedIff(l: Ledger, req: Amounts, c: Consumer, now: real)
    requires StaysInLimits(l.(soft := []), now)
    ensures AvailableAfterUnload(l, req) <==> l.enabled && StaysInLimits(ReserveActive(l.(soft := []), req, c), now)
  {
    UncheckedFitsIff(l.(soft := []), req, c, now);
  }

  /** An idle entry the request may take over. */
  predicate Serves(l: Ledger, e: SoftEntry, req: Amounts, model: Name, provider: Name, now: real) {
    && e.model == model && model != Unnamed && (provider == Unnamed || e.provider == provider)
    && (e.persistent || (now < e.expires && (l.aliveTime != 0 || l.keepAlive != 0)))
    && forall m | m in req && req[m] > 0 :: m in e.amounts && e.amounts[m] >= req[m]
  }

  /** Within the limits the reuse check passes exactly when an entry covers the request: what it
      trades in is never smaller than what it needs, so its arithmetic refuses nobody. */
  lemma WarmIff(l: Ledger, req: Amounts, model: Name, provider: Name, now: real)
    requires StaysInLimits(l, now)
    ensures AvailableForReuse(l, req, model, provider, now) <==>
      l.enabled && exists e | e in l.soft :: Serves(l, e, req, model, provider, now)
  {
    var own := Matching(l, model, req, provider, now);
    forall e | e in l.soft && model != Unnamed
      ensures Serves(l, e, req, model, provider, now) <==> Matches(l, e, model, req, provider, now) { }
    if l.enabled && own.Some? {
      assert Serves(l, own.value, req, model, provider, now);
      forall m | m in req && req[m] > 0
        ensures At(l.used, m) + Max(0, SoftTotal(l.soft, now, m) - At(own.value.amounts, m)) + req[m] <=
          At(l.limits, m)
      {
        EntryWithinTotal(l.soft, model, provider, now, m);
        assert Total(l, now, m) <= Ceiling(l.limits)(m);
      }
    }
  }

  // ---- evicting all idle models but one ---------------------------------------------

  /** What the model itself occupies while idle, and what all idle models occupy besides. */
  function Own(l: Ledger, model: Name, provider: Name, now: real, m: Metric): int {
    var own := Matching(l, model, map[], provider, now);
    if own.Some? then At(own.value.amounts, m) else 0
  }

  function Others(l: Ledger, model: Name, provider: Name, now: real, m: Metric): int {
    SoftTotal(l.soft, now, m) - Own(l, model, provider, now, m)
  }

  /** The request would fit beside the model itself, with all other idle models gone. */
  ghost predicate FitsBesideOwn(l: Ledger, req: Amounts, model: Name, provider: Name, now: real) {
    l.enabled && forall m | Need(req, m) > 0 ::
      At(l.used, m) + Own(l, model, provider, now, m) + Need(req, m) <= At(l.limits, m)
  }

  /** What the code asks instead: room beside all the others, with the model itself gone. */
  lemma AsksForOthers(l: Ledger, req: Amounts, model: Name, provider: Name, now: real)
    requires SoundEntries(l.soft)
    ensures AvailableAfterUnloadingOthers(l, req, model, provider, now) <==>
      l.enabled && forall m | Need(req, m) > 0 ::
        At(l.used, m) + Others(l, model, provider, now, m) + Need(req, m) <= At(l.limits, m)
  {
    forall m ensures Others(l, model, provider, now, m) >= 0 {
      OwnIsPart(l, model, provider, now, m);
    }
  }

  lemma OwnIsPart(l: Ledger, model: Name, provider: Name, now: real, m: Metric)
    requires SoundEntries(l.soft)
    ensures 0 <= Own(l, model, provider, now, m) <= SoftTotal(l.soft, now, m)
  {
    EntryWithinTotal(l.soft, model, provider, now, m);
    var own := Matching(l, model, map[], provider, now);
    if own.Some? { assert NonNegative(own.value.amounts); }
  }

  function One(m: Metric, amount: int): Amounts { map[m := amount] }

  /** The two occupations are the same, or there is no room beside the smaller one. */
  predicate NoMatterWhich(l: Ledger, model: Name, provider: Name, now: real, m: Metric) {
    var own, others := Own(l, model, provider, now, m), Others(l, model, provider, now, m);
    own == others || At(l.used, m) + Min(own, others) >= At(l.limits, m)
  }

  /** So the code answers as its description says, on every request, exactly when on every
      metric it does not matter which of the two is counted. */
  lemma UnloadingOthersIff(l: Ledger, model: Name, provider: Name, now: real)
    requires SoundEntries(l.soft) && l.enabled
    ensures (forall req :: AvailableAfterUnloadingOthers(l, req, model, provider, now) <==>
               FitsBesideOwn(l, req, model, provider, now)) <==>
      (forall m :: NoMatterWhich(l, model, provider, now, m))
  {
    if forall m :: NoMatterWhich(l, model, provider, now, m) {
      forall req ensures AvailableAfterUnloadingOthers(l, req, model, provider, now) <==>
        FitsBesideOwn(l, req, model, provider, now) {
        AsksForOthers(l, req, model, provider, now);
        forall m | Need(req, m) > 0
          ensures At(l.used, m) + Own(l, model, provider, now, m) + Need(req, m) <= At(l.limits, m) <==>
            At(l.used, m) + Others(l, model, provider, now, m) + Need(req, m) <= At(l.limits, m) {
          assert NoMatterWhich(l, model, provider, now, m);
        }
      }
    } else {
      var m :| !NoMatterWhich(l, model, provider, now, m);
      var least := Min(Own(l, model, provider, now, m), Others(l, model, provider, now, m));
      var room := At(l.limits, m) - At(l.used, m) - least;
      AsksForOthers(l, One(m, room), model, provider, now);
      assert Need(One(m, room), m) == room;
      assert AvailableAfterUnloadingOthers(l, One(m, room), model, provider, now) !=
        FitsBesideOwn(l, One(m, room), model, provider, now);
    }
  }

  /** A model whose base is in use has no idle entry of its own: then an unload of all others is
      held to help exactly when no unload is needed. */
  lemma ResidentGetsNoUnload(l: Ledger, req: Amounts, model: Name, provider: Name, now: real)
    requires SoundEntries(l.soft) && Matching(l, model, map[], provider, now).None?
    ensures AvailableAfterUnloadingOthers(l, req, model, provider, now) <==> Available(l, req, now)
  {
    AsksForOthers(l, req, model, provider, now);
  }

  /** Such a resource of size 10: the model's base takes 4, an idle model holds 5, and a session
      needs 3. It would fit once the idle model is gone, and the code says that it would not. */
  lemma SessionWaitsBesideIdle(m: Metric, k: ModelKey, other: Name, now: real)
    requires k.model != Unnamed && other != k.model
    ensures var idle := SoftEntry(Anonymous, map[m := 5], now + 300.0, other, k.provider, false);
      var l := Ledger(map[m := 10], map[m := 4], map[Base(k) := map[m := 4]], [idle], 300, 0, true);
      && StaysInLimits(l, now) && FitsBesideOwn(l, One(m, 3), k.model, k.provider, now)
      && AvailableAfterUnload(l, One(m, 3)) && !AvailableAfterUnloadingOthers(l, One(m, 3), k.model, k.provider, now)
  {
    var idle := SoftEntry(Anonymous, map[m := 5], now + 300.0, other, k.provider, false);
    var l := Ledger(map[m := 10], map[m := 4], map[Base(k) := map[m := 4]], [idle], 300, 0, true);
    OneEntry(l, idle, k.model, k.provider, now);
    assert SoftTotal(l.soft, now, m) == 5;
    assert m in One(m, 3) && Need(One(m, 3), m) == 3;
    ResidentGetsNoUnload(l, One(m, 3), k.model, k.provider, now);
  }

  lemma OneEntry(l: Ledger, e: SoftEntry, model: Name, provider: Name, now: real)
    requires l.soft == [e] && e.model != model
    ensures Matching(l, model, map[], provider, now).None?
    ensures forall m :: SoftTotal(l.soft, now, m) == Occupies(e, now, m)
  {
    assert l.soft[1..] == [];
  }

  // ---- the registry -----------------------------------------------------------------

  /** How many requests of a model may run at a time. */
  predicate AllowsAtOnce(cfg: Config, k: ModelKey, n: int) {
    n == if k in cfg && cfg[k].maximum > 1 then cfg[k].maximum else 1
  }

  function AsksAt(reqs: Requirements, r: ResourceId, m: Metric): nat { if r in reqs then Need(reqs[r], m) else 0 }

  ghost predicate NeedsSome(reqs: Requirements, r: ResourceId) { exists m :: AsksAt(reqs, r, m) > 0 }

  /** Both requirements together fit: every resource they need is known, enabled and has room. */
  ghost predicate RoomFor(ledgers: map<ResourceId, Ledger>, a: Requirements, b: Requirements, now: real) {
    forall r, m | AsksAt(a, r, m) + AsksAt(b, r, m) > 0 ::
      r in ledgers && ledgers[r].enabled &&
        Total(ledgers[r], now, m) + AsksAt(a, r, m) + AsksAt(b, r, m) <= At(ledgers[r].limits, m)
  }

  /** They would fit if nothing idle were left. */
  ghost predicate RoomWithoutIdle(ledgers: map<ResourceId, Ledger>, a: Requirements, b: Requirements) {
    forall r, m | AsksAt(a, r, m) + AsksAt(b, r, m) > 0 ::
      r in ledgers && ledgers[r].enabled &&
        At(ledgers[r].used, m) + AsksAt(a, r, m) + AsksAt(b, r, m) <= At(ledgers[r].limits, m)
  }

  lemma NormalizedAsks(reqs: Requirements, r: ResourceId)
    ensures r in Normalize(reqs) <==> NeedsSome(reqs, r)
    ensures forall m :: AsksAt(Normalize(reqs), r, m) == AsksAt(reqs, r, m)
    ensures r in Normalize(reqs) ==> NeedsSome(Normalize(reqs), r)
  {
    if r in reqs {
      forall m ensures AsksAt(Normalize(reqs), r, m) == AsksAt(reqs, r, m) {
        if m in reqs[r] && reqs[r][m] > 0 { assert m in Positive(reqs[r]); }
      }
      if Positive(reqs[r]) != map[] {
        var m :| m in Positive(reqs[r]);
        assert AsksAt(reqs, r, m) > 0;
      }
    }
  }

  /** `reqs` asks for what `a` and `b` ask together. */
  ghost predicate Sums(reqs: Requirements, a: Requirements, b: Requirements) {
    && (forall r, m :: AsksAt(reqs, r, m) == AsksAt(a, r, m) + AsksAt(b, r, m))
    && forall r | r in reqs :: NeedsSome(reqs, r)
  }

  /** What the two checks over all resources mean. */
  lemma CheckIsRoom(ledgers: map<ResourceId, Ledger>, reqs: Requirements, a: Requirements, b: Requirements, now: real)
    requires Sums(reqs, a, b)
    ensures CheckAvailable(ledgers, reqs, now) <==> RoomFor(ledgers, a, b, now)
    ensures CheckAvailableAfterUnload(ledgers, reqs) <==> RoomWithoutIdle(ledgers, a, b)
  {
    forall r | r in reqs
      ensures RoomFor(ledgers, a, b, now) ==> r in ledgers && Available(ledgers[r], reqs[r], now)
      ensures RoomWithoutIdle(ledgers, a, b) ==> r in ledgers && AvailableAfterUnload(ledgers[r], reqs[r])
    {
      var m :| AsksAt(reqs, r, m) > 0;
      assert AsksAt(reqs, r, m) == AsksAt(a, r, m) + AsksAt(b, r, m);
      forall n | n in reqs[r] && reqs[r][n] > 0 ensures AsksAt(a, r, n) + AsksAt(b, r, n) == reqs[r][n] {
        assert AsksAt(reqs, r, n) == AsksAt(a, r, n) + AsksAt(b, r, n);
      }
    }
    forall r, m | AsksAt(a, r, m) + AsksAt(b, r, m) > 0
      ensures r in reqs && m in reqs[r] && reqs[r][m] == AsksAt(a, r, m) + AsksAt(b, r, m) {
      assert AsksAt(reqs, r, m) == AsksAt(a, r, m) + AsksAt(b, r, m);
    }
  }

  lemma NormalizedSums(reqs: Requirements)
    ensures Sums(Normalize(reqs), reqs, map[])
  {
    forall r, m ensures AsksAt(Normalize(reqs), r, m) == AsksAt(reqs, r, m) { NormalizedAsks(reqs, r); }
    forall r | r in Normalize(reqs) ensures NeedsSome(Normalize(reqs), r) { NormalizedAsks(reqs, r); }
  }

  lemma MergedSums(a: Requirements, b: Requirements)
    ensures Sums(Merge(Normalize(a), Normalize(b)), a, b)
  {
    var x, y := Normalize(a), Normalize(b);
    NormalizeTwice(a);
    NormalizeTwice(b);
    forall r ensures forall m :: AsksAt(Merge(x, y), r, m) == AsksAt(a, r, m) + AsksAt(b, r, m)
      ensures r in Merge(x, y) ==> NeedsSome(Merge(x, y), r)
    {
      NormalizedAsks(a, r);
      NormalizedAsks(b, r);
      if r in Merge(x, y) {
        MergedNeed(x, y, r);
        var m :| AsksAt(x, r, m) > 0 || AsksAt(y, r, m) > 0;
        assert AsksAt(Merge(x, y), r, m) > 0;
      }
    }
  }

  // ---- the decision about a model ---------------------------------------------------

  lemma MatchIff(l: Ledger, req: Amounts, model: Name, provider: Name, now: real)
    ensures Matching(l, model, Positive(req), provider, now).Some? <==>
      exists e | e in l.soft :: Serves(l, e, req, model, provider, now)
  {
    forall e | e in l.soft && model != Unnamed
      ensures Serves(l, e, req, model, provider, now) <==> Matches(l, e, model, Positive(req), provider, now) {
      forall m ensures m in Positive(req) <==> m in req && req[m] > 0 { }
    }
  }

  /** The model is there: its base is in use, or an idle entry serves, wherever it needs some. */
  ghost predicate Resident(ledgers: map<ResourceId, Ledger>, raw: Requirements, k: ModelKey, now: real) {
    && (exists r :: NeedsSome(raw, r))
    && forall r | NeedsSome(raw, r) :: r in ledgers &&
         (Base(k) in ledgers[r].consumers ||
          exists e | e in ledgers[r].soft :: Serves(ledgers[r], e, raw[r], k.model, k.provider, now))
  }

  lemma LoadedIsResident(ledgers: map<ResourceId, Ledger>, raw: Requirements, k: ModelKey, now: real)
    ensures Loaded(ledgers, Normalize(raw), k, now) <==> Resident(ledgers, raw, k, now)
    ensures Normalize(raw) != map[] <==> exists r :: NeedsSome(raw, r)
  {
    forall r ensures r in Normalize(raw) <==> NeedsSome(raw, r) { NormalizedAsks(raw, r); }
    forall r | r in Normalize(raw) && r in ledgers
      ensures Matching(ledgers[r], k.model, Normalize(raw)[r], k.provider, now).Some? <==>
        exists e | e in ledgers[r].soft :: Serves(ledgers[r], e, raw[r], k.model, k.provider, now) {
      MatchIff(ledgers[r], raw[r], k.model, k.provider, now);
    }
    if Normalize(raw) != map[] {
      var r :| r in Normalize(raw);
    }
  }

  function SessionNeeds(cfg: Config, k: ModelKey): Requirements { if k in cfg then cfg[k].session else map[] }

  /** What an unload of the others would have to make room for, resource by resource. */
  ghost predicate OthersGoneHelps(ledgers: map<ResourceId, Ledger>, raw: Requirements, session: Requirements,
                                  k: ModelKey, now: real) {
    forall r | NeedsSome(raw, r) ::
      r in ledgers && AvailableAfterUnloadingOthers(ledgers[r], Of(session, r), k.model, k.provider, now)
  }

  /** The decision, from the books: nobody is admitted beyond the maximum; a resident model
      needs room for a session only (and none if it takes one request at a time), a cold one for
      base and session; and a refusal says whether an unload would make that room. */
  ghost predicate RightlyDecided(reg: Registry, cfg: Config, raw: Requirements, k: ModelKey, now: real, d: Decision) {
    forall n | AllowsAtOnce(cfg, k, n) ::
      if Count(reg.active, k) >= n then d.reason == Concurrency && !d.now
      else if !exists r :: NeedsSome(raw, r) then d.reason == Ready && d.now
      else DecidedByRoom(reg, raw, if n > 1 then SessionNeeds(cfg, k) else map[], Session(cfg, k), k, now, d)
  }

  ghost predicate DecidedByRoom(reg: Registry, raw: Requirements, session: Requirements, normal: Requirements,
                                k: ModelKey, now: real, d: Decision) {
    var resident := Resident(reg.ledgers, raw, k, now);
    && (d.loaded <==> resident)
    && (d.now <==> RoomFor(reg.ledgers, if resident then map[] else raw, session, now))
    && d.reason == (
         if d.now then Ready
         else if !resident then if RoomWithoutIdle(reg.ledgers, raw, session) then WaitingUnload else BaseMemory
         else if OthersGoneHelps(reg.ledgers, raw, normal, k, now) then WaitingUnload else SessionMemory)
  }

  lemma SingleMeans(reg: Registry, cfg: Config, raw: Requirements, k: ModelKey, now: real)
    requires Maximum(cfg, k) <= 1 && Count(reg.active, k) < Maximum(cfg, k) && Normalize(raw) != map[]
    ensures DecidedByRoom(reg, raw, map[], Session(cfg, k), k, now, Evaluate(reg, cfg, raw, k, now))
  {
    LoadedIsResident(reg.ledgers, raw, k, now);
    NormalizedSums(raw);
    CheckIsRoom(reg.ledgers, Normalize(raw), raw, map[], now);
  }

  lemma ResidentMeans(reg: Registry, cfg: Config, raw: Requirements, k: ModelKey, now: real)
    requires Maximum(cfg, k) > 1 && Count(reg.active, k) < Maximum(cfg, k) && Normalize(raw) != map[]
    requires Resident(reg.ledgers, raw, k, now)
    ensures DecidedByRoom(reg, raw, SessionNeeds(cfg, k), Session(cfg, k), k, now, Evaluate(reg, cfg, raw, k, now))
  {
    var session := SessionNeeds(cfg, k);
    LoadedIsResident(reg.ledgers, raw, k, now);
    NormalizedSums(session);
    NoAsks(session);
    CheckIsRoom(reg.ledgers, Normalize(session), map[], session, now);
    EmptyIsNormal();
    forall r ensures r in Normalize(raw) <==> NeedsSome(raw, r) { NormalizedAsks(raw, r); }
  }

  lemma EmptyIsNormal()
    ensures Normalize(map[]) == map[]
  {
  }

  lemma ColdMeans(reg: Registry, cfg: Config, raw: Requirements, k: ModelKey, now: real)
    requires Maximum(cfg, k) > 1 && Count(reg.active, k) < Maximum(cfg, k) && Normalize(raw) != map[]
    requires !Resident(reg.ledgers, raw, k, now)
    ensures DecidedByRoom(reg, raw, SessionNeeds(cfg, k), Session(cfg, k), k, now, Evaluate(reg, cfg, raw, k, now))
  {
    var session := SessionNeeds(cfg, k);
    LoadedIsResident(reg.ledgers, raw, k, now);
    MergedSums(raw, session);
    EmptyIsNormal();
    CheckIsRoom(reg.ledgers, Merge(Normalize(raw), Normalize(session)), raw, session, now);
  }

  /** Main result: the decision is right for every registry, configuration and requirement. */
  lemma EvaluateMeans(reg: Registry, cfg: Config, raw: Requirements, k: ModelKey, now: real)
    ensures RightlyDecided(reg, cfg, raw, k, now, Evaluate(reg, cfg, raw, k, now))
  {
    LoadedIsResident(reg.ledgers, raw, k, now);
    if Count(reg.active, k) < Maximum(cfg, k) && Normalize(raw) != map[] {
      if Maximum(cfg, k) <= 1 {
        SingleMeans(reg, cfg, raw, k, now);
      } else if Resident(reg.ledgers, raw, k, now) {
        ResidentMeans(reg, cfg, raw, k, now);
      } else {
        ColdMeans(reg, cfg, raw, k, now);
      }
    }
  }

  lemma NoAsks(reqs: Requirements)
    requires Sums(Normalize(reqs), reqs, map[])
    ensures Sums(Normalize(reqs), map[], reqs)
  {
  }

  // ---- whole runs -------------------------------------------------------------------

  /** The check of a plain request over all its resources, cold and warm. */
  ghost predicate FitsCold(w: World, reqs: Requirements, c: Consumer) {
    forall r | r in reqs ::
      r in w.reg.ledgers && w.reg.ledgers[r].enabled &&
      StaysInLimits(ReserveActive(w.reg.ledgers[r], reqs[r], c), w.now)
  }

  ghost predicate FitsWarm(w: World, reqs: Requirements, k: ModelKey) {
    k.model != Unnamed && forall r | r in reqs ::
      r in w.reg.ledgers && w.reg.ledgers[r].enabled &&
      exists e | e in w.reg.ledgers[r].soft :: Serves(w.reg.ledgers[r], e, reqs[r], k.model, k.provider, w.now)
  }

  lemma IdleMeansFreeSlot(s: Setup, w: World, k: ModelKey)
    requires CountsAreExact(w) && k.model != Unnamed && Maximum(s.cfg, k) <= 1
    requires forall id | id in w.runs :: w.runs[id].key != k
    ensures SlotAvailable(w.reg, s.cfg, k)
  {
    NumberIsZero(w.runs, SlotOf(k));
    NumberIsZero(w.runs, ActiveOf(k));
  }

  /** Main result: in every reachable state a plain request is admitted exactly when no run of
      its model is under way, if it names one, and either every resource would stay within its
      limits with it, or its model is resident on all of them. */
  lemma AdmittedIff(s: Setup, w: World, id: RunId, reqs: Requirements, k: ModelKey)
    requires Inv(s, w) && Enabled(s, w, AdmitPlain(id, reqs, k))
    ensures id in Next(s, w, AdmitPlain(id, reqs, k)).runs <==>
      && (k.model != Unnamed ==> forall other | other in w.runs :: w.runs[other].key != k)
      && (FitsCold(w, reqs, Consumer.Run(id)) || FitsWarm(w, reqs, k))
  {
    forall r | r in reqs && r in w.reg.ledgers
      ensures Available(w.reg.ledgers[r], reqs[r], w.now) <==>
        w.reg.ledgers[r].enabled && StaysInLimits(ReserveActive(w.reg.ledgers[r], reqs[r], Consumer.Run(id)), w.now)
      ensures AvailableForReuse(w.reg.ledgers[r], reqs[r], k.model, k.provider, w.now) <==>
        w.reg.ledgers[r].enabled &&
          exists e | e in w.reg.ledgers[r].soft :: Serves(w.reg.ledgers[r], e, reqs[r], k.model, k.provider, w.now)
    {
      ColdIff(w.reg.ledgers[r], reqs[r], Consumer.Run(id), w.now);
      WarmIff(w.reg.ledgers[r], reqs[r], k.model, k.provider, w.now);
    }
    if k.model != Unnamed { SlotIsFreeIff(s, w, k); }
  }

  /** The same for one more session of a parallel model: fewer runs than the maximum, and room
      for the session, with the base where the model is not resident. */
  lemma SessionAdmittedIff(s: Setup, w: World, id: RunId, k: ModelKey, n: int)
    requires Inv(s, w) && Enabled(s, w, AdmitSession(id, k)) && AllowsAtOnce(s.cfg, k, n)
    ensures var base := BaseOf(s, k);
      id in Next(s, w, AdmitSession(id, k)).runs <==>
        && Number(w.runs, InFlightOf(k)) < n
        && RoomFor(w.reg.ledgers, if Resident(w.reg.ledgers, base, k, w.now) then map[] else base,
                   SessionNeeds(s.cfg, k), w.now)
  {
    var base := BaseOf(s, k);
    BaseIsNormalized(s, k);
    LoadedIsResident(w.reg.ledgers, base, k, w.now);
    EvaluateMeans(w.reg, s.cfg, base, k, w.now);
    SessionsAreCounted(s, w, k);
  }

  lemma SlotIsFreeIff(s: Setup, w: World, k: ModelKey)
    requires CountsAreExact(w) && RunsAreWellFormed(s, w) && k.model != Unnamed && Maximum(s.cfg, k) <= 1
    ensures SlotAvailable(w.reg, s.cfg, k) <==> forall other | other in w.runs :: w.runs[other].key != k
  {
    if SlotAvailable(w.reg, s.cfg, k) {
      FreeSlotMeansIdle(s, w, k);
      NumberIsZero(w.runs, InFlightOf(k));
      forall other | other in w.runs ensures w.runs[other].key != k { assert !InFlightOf(k)(w.runs[other]); }
    } else if forall other | other in w.runs :: w.runs[other].key != k {
      IdleMeansFreeSlot(s, w, k);
    }
  }
}
