/** What a release leaves behind: a retained model stays resident on its resources until its
    time is up, is found there again, and keeps others out of its memory
    (core/resource.py, `release`; core/resources.py, `release_for`, `release_model_session`). */
module WarmModels {
  import opened Basics
  import opened ResourceLedger
  import CapacitySafety
  import opened Conservation
  import opened ModelAdmission
  import opened AdmissionRuns

  /** The model of this release stays resident here, if only for a time. */
  predicate Retains(l: Ledger, req: Amounts, model: Name, persistent: bool) {
    req != map[] && model != Unnamed && (persistent || l.aliveTime > 0 || l.keepAlive > 0)
  }

  /** Released at `now`, it is resident at `later`. */
  predicate Lasts(l: Ledger, persistent: bool, now: real, later: real) {
    persistent || later < now + (if l.aliveTime < l.keepAlive then l.keepAlive else l.aliveTime) as real
  }

  /** Nothing is left of a model in its list of soft entries but the occupation `left`. */
  lemma {:induction false} WithoutModel(soft: seq<SoftEntry>, model: Name, provider: Name, later: real, m: Metric)
    ensures ModelTotal(Without(soft, model, provider), model, provider, later, m) == 0
    decreases |soft|
  {
    if soft != [] {
      WithoutModel(soft[1..], model, provider, later, m);
      var rest := Without(soft[1..], model, provider);
      assert ([soft[0]] + rest)[1..] == rest;
    }
  }

  lemma {:induction false} AppendModel(soft: seq<SoftEntry>, e: SoftEntry, model: Name, provider: Name, later: real,
                                       m: Metric)
    ensures ModelTotal(soft + [e], model, provider, later, m) ==
      ModelTotal(soft, model, provider, later, m) + if SameModel(e, model, provider) then Occupies(e, later, m) else 0
    decreases |soft|
  {
    if soft != [] {
      AppendModel(soft[1..], e, model, provider, later, m);
      assert (soft + [e])[1..] == soft[1..] + [e];
    } else {
      assert soft + [e] == [e];
    }
  }

  /** A retaining release: from then on the model occupies exactly what was released, until
      its time is up; what all other models occupy is as before. */
  lemma ReleasedOccupies(l: Ledger, req: Amounts, c: Consumer, model: Name, provider: Name, persistent: bool, now: real,
                         later: real, m: Metric)
    requires Retains(l, req, model, persistent)
    ensures var l' := Release(l, req, c, model, provider, persistent, now);
      var left := if Lasts(l, persistent, now, later) then Need(req, m) else 0;
      && ModelTotal(l'.soft, model, provider, later, m) == left
      && SoftTotal(l'.soft, later, m) ==
           SoftTotal(l.soft, later, m) - ModelTotal(l.soft, model, provider, later, m) + left
  {
    var l', kept := Release(l, req, c, model, provider, persistent, now), Without(l.soft, model, provider);
    var e := l'.soft[|kept|];
    assert l'.soft == kept + [e];
    PositiveAt(req, m);
    WithoutModel(l.soft, model, provider, later, m);
    AppendModel(kept, e, model, provider, later, m);
    WithoutTotal(l.soft, model, provider, later, m);
    AppendTotal(kept, e, later, m);
  }

  /** Entries of other models stay, and without retention all of them do. */
  lemma ReleaseSparesOthers(l: Ledger, req: Amounts, c: Consumer, model: Name, provider: Name, persistent: bool,
                            now: real)
    ensures var l' := Release(l, req, c, model, provider, persistent, now);
      && (!Retains(l, req, model, persistent) ==> l'.soft == l.soft)
      && forall e | !SameModel(e, model, provider) :: e in l'.soft <==> e in l.soft
  {
    WithoutTotal(l.soft, model, provider, now, Metric(""));
  }

  /** Whoever asks for the model finds it exactly as long as it lasts, and exactly if what was
      released covers the request. */
  lemma ReleasedIsFoundIff(l: Ledger, req: Amounts, c: Consumer, model: Name, provider: Name, persistent: bool,
                           now: real, later: real, asked: Amounts)
    requires Retains(l, req, model, persistent)
    ensures var l' := Release(l, req, c, model, provider, persistent, now);
      Matching(l', model, asked, provider, later).Some? <==>
        Lasts(l, persistent, now, later) && forall m :: Need(asked, m) <= Need(req, m)
  {
    var l', kept := Release(l, req, c, model, provider, persistent, now), Without(l.soft, model, provider);
    var e := l'.soft[|kept|];
    assert e in l'.soft && l'.soft == kept + [e];
    WithoutTotal(l.soft, model, provider, now, Metric(""));
    assert forall d | d in l'.soft && SameModel(d, model, provider) :: d == e;
    forall m ensures At(e.amounts, m) == Need(req, m) { PositiveAt(req, m); }
    assert Covers(e, asked) <==> forall m :: Need(asked, m) <= Need(req, m) by {
      forall m | m in asked && asked[m] > 0 ensures Need(asked, m) == asked[m] { }
    }
  }

  /** On an enabled resource that was within its limits, the next request of the same size
      reuses the model exactly as long as it lasts, without a look at anybody else. */
  lemma ReleasedIsReusedIff(l: Ledger, req: Amounts, c: Consumer, model: Name, provider: Name, persistent: bool,
                            now: real, later: real)
    requires Retains(l, req, model, persistent) && l.enabled && now <= later
    requires StaysInLimits(l, now) && CapacitySafety.Covered(l, req)
    ensures AvailableForReuse(Release(l, req, c, model, provider, persistent, now), req, model, provider, later) <==>
      Lasts(l, persistent, now, later)
  {
    var l' := Release(l, req, c, model, provider, persistent, now);
    ReleasedIsFoundIff(l, req, c, model, provider, persistent, now, later, req);
    if Lasts(l, persistent, now, later) {
      var own := Matching(l', model, req, provider, later).value;
      forall m | m in req && req[m] > 0
        ensures At(l'.used, m) + Max(0, SoftTotal(l'.soft, later, m) - At(own.amounts, m)) + req[m] <= At(l.limits, m) {
        ReleasedOccupies(l, req, c, model, provider, persistent, now, later, m);
        EntryWithinTotal(l.soft, model, provider, later, m);
        TickTotal(l.soft, now, later, m);
        assert Total(l, now, m) <= Ceiling(l.limits)(m);
      }
    }
  }

  // ---- whole runs -------------------------------------------------------------------

  /** The model that a release of `req` at `since` left behind is found by exactly those who
      ask while it lasts, for no more than it has. */
  ghost predicate WarmSince(l: Ledger, req: Amounts, k: ModelKey, persistent: bool, since: real) {
    forall asked: Amounts, later: real :: Matching(l, k.model, asked, k.provider, later).Some? <==>
      Lasts(l, persistent, since, later) && forall m :: Need(asked, m) <= Need(req, m)
  }

  lemma ReleaseLeavesWarm(l: Ledger, req: Amounts, c: Consumer, k: ModelKey, persistent: bool, now: real)
    requires Retains(l, req, k.model, persistent)
    ensures WarmSince(Release(l, req, c, k.model, k.provider, persistent, now), req, k, persistent, now)
  {
    var l' := Release(l, req, c, k.model, k.provider, persistent, now);
    forall asked: Amounts, later: real
      ensures Matching(l', k.model, asked, k.provider, later).Some? <==>
        Lasts(l', persistent, now, later) && forall m :: Need(asked, m) <= Need(req, m) {
      ReleasedIsFoundIff(l, req, c, k.model, k.provider, persistent, now, later, asked);
    }
  }

  /** Nothing about this model changed here. */
  ghost predicate SameEntries(l: Ledger, l': Ledger, model: Name) {
    l'.aliveTime == l.aliveTime && l'.keepAlive == l.keepAlive &&
      forall e: SoftEntry | e.model == model :: e in l'.soft <==> e in l.soft
  }

  lemma SameEntriesStayWarm(l: Ledger, l': Ledger, req: Amounts, k: ModelKey, persistent: bool, since: real)
    requires SameEntries(l, l', k.model) && WarmSince(l, req, k, persistent, since)
    ensures WarmSince(l', req, k, persistent, since)
  {
    forall asked: Amounts, later: real
      ensures Matching(l', k.model, asked, k.provider, later).Some? <==>
        Matching(l, k.model, asked, k.provider, later).Some? {
      if k.model != Unnamed {
        forall e ensures e in l.soft && Matches(l, e, k.model, asked, k.provider, later) <==>
          e in l'.soft && Matches(l', e, k.model, asked, k.provider, later) { }
      }
    }
  }

  /** An event that neither uses nor unloads the model. */
  predicate Elsewhere(w: World, e: Event, model: Name) {
    match e
    case AdmitPlain(_, _, k) => k.model != model
    case AdmitSession(_, k) => k.model != model
    case ReleasePlain(id, _, _) => id in w.runs && w.runs[id].key.model != model
    case ReleaseSession(id, _, _) => id in w.runs && w.runs[id].key.model != model
    case Evict(_, other, _) => other != model
    case _ => true
  }

  lemma WithoutKeeps(l: Ledger, other: Name, provider: Name, model: Name)
    requires other != model
    ensures SameEntries(l, ClearSoft(l, other, provider), model)
  {
    WithoutTotal(l.soft, other, provider, 0.0, Metric(""));
  }

  lemma ReserveKeeps(l: Ledger, req: Amounts, c: Consumer, k: ModelKey, now: real, model: Name)
    requires k.model != model
    ensures SameEntries(l, ReserveBlind(l, req, c, k.model, k.provider, now), model)
  {
    WithoutKeeps(l, k.model, k.provider, model);
  }

  lemma ReleaseKeeps(l: Ledger, req: Amounts, c: Consumer, other: Name, provider: Name, persistent: bool, now: real,
                     model: Name)
    requires other != model || other == Unnamed
    ensures SameEntries(l, Release(l, req, c, other, provider, persistent, now), model)
  {
    ReleaseSparesOthers(l, req, c, other, provider, persistent, now);
  }

  lemma SessionEndKeeps(l: Ledger, base: Requirements, session: Requirements, r: ResourceId, k: ModelKey, id: RunId,
                        last: bool, retain: bool, persistent: bool, now: real, model: Name)
    requires k.model != model
    ensures SameEntries(l, BookWithoutSession(l, base, session, r, k, id, last, if retain then k.model else Unnamed,
                                              persistent, now), model)
  {
    var b := if r in session then Release(l, session[r], Consumer.Run(id), Unnamed, Unnamed, false, now) else l;
    assert SameEntries(l, b, model) by {
      if r in session { ReleaseKeeps(l, session[r], Consumer.Run(id), Unnamed, Unnamed, false, now, model); }
    }
    if r in base {
      ReleaseKeeps(b, base[r], Base(k), if retain then k.model else Unnamed, k.provider, persistent, now, model);
    }
  }

  /** One resource when a plain request is admitted or refused. */
  lemma AdmitHere(reg: Registry, cfg: Config, reqs: Requirements, c: Consumer, k: ModelKey, now: real, r: ResourceId)
    requires r in reg.ledgers
    ensures var n := TryReserve(reg, cfg, reqs, c, k, now);
      r in n.ledgers && n.ledgers[r] in {reg.ledgers[r], ReserveHere(reg.ledgers[r], reqs, r, c, k, now)}
  {
  }

  lemma AdmitKeeps(reg: Registry, cfg: Config, reqs: Requirements, c: Consumer, k: ModelKey, now: real, model: Name,
                   r: ResourceId)
    requires k.model != model && r in reg.ledgers
    ensures var n := TryReserve(reg, cfg, reqs, c, k, now);
      r in n.ledgers && SameEntries(reg.ledgers[r], n.ledgers[r], model)
  {
    AdmitHere(reg, cfg, reqs, c, k, now, r);
    assert SameEntries(reg.ledgers[r], ReserveHere(reg.ledgers[r], reqs, r, c, k, now), model) by {
      if r in reqs { ReserveKeeps(reg.ledgers[r], reqs[r], c, k, now, model); }
    }
  }

  lemma ReleaseForKeeps(reg: Registry, reqs: Requirements, c: Consumer, k: ModelKey, persistent: bool, now: real,
                        model: Name, r: ResourceId)
    requires (k.model != model || k.model == Unnamed) && r in reg.ledgers
    ensures var n := ReleaseFor(reg, reqs, c, k, persistent, now);
      r in n.ledgers && SameEntries(reg.ledgers[r], n.ledgers[r], model)
  {
    if r in reqs { ReleaseKeeps(reg.ledgers[r], reqs[r], c, k.model, k.provider, persistent, now, model); }
  }

  lemma StartKeeps(reg: Registry, cfg: Config, raw: Requirements, k: ModelKey, c: Consumer, now: real, model: Name,
                   r: ResourceId)
    requires k.model != model && r in reg.ledgers
    ensures var n := StartSession(reg, cfg, raw, k, c, now);
      r in n.ledgers && SameEntries(reg.ledgers[r], n.ledgers[r], model)
  {
    var base := Normalize(raw);
    if r in base { ReserveKeeps(reg.ledgers[r], base[r], Base(k), k, now, model); }
    var l := ReserveBase(reg.ledgers[r], base, r, k, now);
    assert SameEntries(l, ReserveSession(l, Session(cfg, k), r, c), model);
  }

  /** One resource when a session ends. */
  lemma EndHere(reg: Registry, session: Requirements, base: Requirements, k: ModelKey, id: RunId, retain: bool,
                persistent: bool, now: real, r: ResourceId)
    requires r in reg.ledgers && Normalize(session) == session && Normalize(base) == base
    ensures var n, last := EndSession(reg, session, base, k, Consumer.Run(id), retain, persistent, now),
                           Count(reg.active, k) <= 1;
      r in n.ledgers && n.ledgers[r] == BookWithoutSession(reg.ledgers[r], base, session, r, k, id, last,
        if retain then k.model else Unnamed, persistent && retain, now)
  {
  }

  lemma ElsewhereKeeps(s: Setup, w: World, e: Event, model: Name, r: ResourceId)
    requires Enabled(s, w, e) && Elsewhere(w, e, model) && r in w.reg.ledgers
    ensures r in Next(s, w, e).reg.ledgers && SameEntries(w.reg.ledgers[r], Next(s, w, e).reg.ledgers[r], model)
  {
    match e
    case AdmitPlain(id, reqs, k) => AdmitKeeps(w.reg, s.cfg, reqs, Consumer.Run(id), k, w.now, model, r);
    case AdmitSession(id, k) => StartKeeps(w.reg, s.cfg, BaseOf(s, k), k, Consumer.Run(id), w.now, model, r);
    case ReleasePlain(id, retain, persistent) =>
      var run := w.runs[id];
      ReleaseForKeeps(w.reg, run.reqs, Consumer.Run(id), Tracked(run.key, retain), persistent && retain, w.now, model,
                      r);
    case ReleaseSession(id, retain, persistent) => SessionElsewhereKeeps(s, w, id, retain, persistent, model, r);
    case Evict(at, other, provider) => WithoutKeeps(w.reg.ledgers[r], other, provider, model);
    case _ =>
  }

  lemma SessionElsewhereKeeps(s: Setup, w: World, id: RunId, retain: bool, persistent: bool, model: Name, r: ResourceId)
    requires id in w.runs && w.runs[id].key.model != model && r in w.reg.ledgers
    ensures var n := AfterReleaseSession(s, w, id, w.runs[id].key, retain, persistent);
      r in n.reg.ledgers && SameEntries(w.reg.ledgers[r], n.reg.ledgers[r], model)
  {
    var k := w.runs[id].key;
    BaseIsNormalized(s, k);
    EndHere(w.reg, Session(s.cfg, k), BaseOf(s, k), k, id, retain, persistent, w.now, r);
    SessionEndKeeps(w.reg.ledgers[r], BaseOf(s, k), Session(s.cfg, k), r, k, id, Count(w.reg.active, k) <= 1, retain,
                    persistent && retain, w.now, model);
  }

  /** Nobody uses or unloads the model. */
  predicate AllElsewhere(s: Setup, w: World, events: seq<Event>, model: Name)
    requires Possible(s, w, events)
    decreases |events|
  {
    events == [] || (Elsewhere(w, events[0], model) && AllElsewhere(s, Next(s, w, events[0]), events[1..], model))
  }

  lemma {:induction false} StaysWarm(s: Setup, w: World, events: seq<Event>, r: ResourceId, req: Amounts, k: ModelKey,
                                     persistent: bool, since: real)
    requires Possible(s, w, events) && AllElsewhere(s, w, events, k.model)
    requires r in w.reg.ledgers && WarmSince(w.reg.ledgers[r], req, k, persistent, since)
    ensures var n := After(s, w, events); r in n.reg.ledgers && WarmSince(n.reg.ledgers[r], req, k, persistent, since)
    decreases |events|
  {
    if events != [] {
      ElsewhereKeeps(s, w, events[0], k.model, r);
      SameEntriesStayWarm(w.reg.ledgers[r], Next(s, w, events[0]).reg.ledgers[r], req, k, persistent, since);
      StaysWarm(s, Next(s, w, events[0]), events[1..], r, req, k, persistent, since);
    }
  }

  /** Main result for plain runs: released with its model retained, the run leaves the model
      on each of its resources, and whatever else happens there it is found until its time is
      up, and not after that. */
  lemma ReleasedRunStaysWarm(s: Setup, w: World, e: Event, events: seq<Event>, r: ResourceId)
    requires Enabled(s, w, e) && e.ReleasePlain? && e.retain
    requires var run := w.runs[e.id];
      r in w.reg.ledgers && r in run.reqs && Retains(w.reg.ledgers[r], run.reqs[r], run.key.model, e.persistent)
    requires Possible(s, Next(s, w, e), events) && AllElsewhere(s, Next(s, w, e), events, w.runs[e.id].key.model)
    ensures var run, n := w.runs[e.id], After(s, Next(s, w, e), events);
      r in n.reg.ledgers && WarmSince(n.reg.ledgers[r], run.reqs[r], run.key, e.persistent, w.now)
  {
    var run := w.runs[e.id];
    ReleaseLeavesWarm(w.reg.ledgers[r], run.reqs[r], Consumer.Run(e.id), run.key, e.persistent, w.now);
    StaysWarm(s, Next(s, w, e), events, r, run.reqs[r], run.key, e.persistent, w.now);
  }

  lemma BaseIsHeld(s: Setup, w: World, id: RunId, k: ModelKey, r: ResourceId)
    requires BooksAreExact(s, w) && r in w.reg.ledgers && id in w.runs && w.runs[id] == SessionOf(k)
    ensures HeldBy(w.reg.ledgers[r].consumers, Base(k)) == Of(BaseOf(s, k), r)
  {
    assert BookIsExact(s, w, r, w.reg.ledgers[r]);
    assert HeldBy(w.reg.ledgers[r].consumers, Base(k)) == Share(s, w, r, Base(k));
  }

  lemma BaseLeavesWarm(l: Ledger, base: Requirements, session: Requirements, r: ResourceId, k: ModelKey, id: RunId,
                       persistent: bool, now: real)
    requires r in base && HeldBy(l.consumers, Base(k)) == base[r] && Retains(l, base[r], k.model, persistent)
    ensures WarmSince(BookWithoutSession(l, base, session, r, k, id, true, k.model, persistent, now), base[r], k,
      persistent, now)
  {
    var b := if r in session then Release(l, session[r], Consumer.Run(id), Unnamed, Unnamed, false, now) else l;
    assert Base(k) in b.consumers;
    ReleaseLeavesWarm(b, base[r], Base(k), k, persistent, now);
  }

  /** The last session gives the base back under its model's name. */
  lemma EndLeavesWarm(s: Setup, w: World, id: RunId, k: ModelKey, persistent: bool, r: ResourceId)
    requires BooksAreExact(s, w) && r in w.reg.ledgers && id in w.runs && w.runs[id] == SessionOf(k)
    requires Count(w.reg.active, k) <= 1 && r in BaseOf(s, k)
    requires Retains(w.reg.ledgers[r], BaseOf(s, k)[r], k.model, persistent)
    ensures var n := AfterReleaseSession(s, w, id, k, true, persistent);
      r in n.reg.ledgers && WarmSince(n.reg.ledgers[r], BaseOf(s, k)[r], k, persistent, w.now)
  {
    BaseIsNormalized(s, k);
    BaseIsHeld(s, w, id, k, r);
    EndHere(w.reg, Session(s.cfg, k), BaseOf(s, k), k, id, true, persistent, w.now, r);
    BaseLeavesWarm(w.reg.ledgers[r], BaseOf(s, k), Session(s.cfg, k), r, k, id, persistent, w.now);
  }

  /** The same for parallel models, on each resource of the base. */
  lemma LastSessionStaysWarm(s: Setup, w: World, e: Event, events: seq<Event>, r: ResourceId)
    requires Inv(s, w) && Enabled(s, w, e) && e.ReleaseSession? && e.retain
    requires var k := w.runs[e.id].key;
      && r in w.reg.ledgers && r in BaseOf(s, k) && Retains(w.reg.ledgers[r], BaseOf(s, k)[r], k.model, e.persistent)
      && forall i | i in w.runs && i != e.id :: w.runs[i] != SessionOf(k)
    requires Possible(s, Next(s, w, e), events) && AllElsewhere(s, Next(s, w, e), events, w.runs[e.id].key.model)
    ensures var k, n := w.runs[e.id].key, After(s, Next(s, w, e), events);
      r in n.reg.ledgers && WarmSince(n.reg.ledgers[r], BaseOf(s, k)[r], k, e.persistent, w.now)
  {
    var k := w.runs[e.id].key;
    LastSession(s, w, e.id, k);
    EndLeavesWarm(s, w, e.id, k, e.persistent, r);
    StaysWarm(s, Next(s, w, e), events, r, BaseOf(s, k)[r], k, e.persistent, w.now);
  }
}
