/** Capacity of one resource under interleaving: an admission checks first and reserves
    later, and while it is between the two, releases, unloads and expiries of other
    models go on. The admission guard allows one undecided admission per resource. */
module CapacitySafety {
  import opened Basics
  import opened ResourceLedger

  /** What an admission that passed its check still has to reserve here: the part that
      may take over a warm entry of its own model, and the part that may not. */
  datatype Order = Order(takeover: Option<Takeover>, active: Amounts, consumer: Consumer)
  datatype Takeover = Takeover(req: Amounts, consumer: Consumer, model: Name, provider: Name)

  function Asked(o: Order, m: Metric): nat {
    (if o.takeover.Some? then Need(o.takeover.value.req, m) else 0) + Need(o.active, m)
  }

  ghost predicate Sound(l: Ledger) {
    SoundEntries(l.soft) && forall m :: At(l.used, m) >= 0
  }

  ghost predicate Within(l: Ledger, ceiling: Metric -> int, now: real) {
    forall m :: Total(l, now, m) <= ceiling(m)
  }

  /** A warm entry the order can count on: while it is active, `Matching` finds it or one like it. */
  predicate Usable(l: Ledger, e: SoftEntry, t: Takeover) {
    && t.model != Unnamed && SameModel(e, t.model, t.provider) && Covers(e, t.req)
    && (e.persistent || l.aliveTime != 0 || l.keepAlive != 0)
  }

  ghost predicate FitsOnTop(l: Ledger, o: Order, ceiling: Metric -> int, now: real) {
    forall m :: Total(l, now, m) + Asked(o, m) <= ceiling(m)
  }

  ghost predicate FitsInPlaceOf(l: Ledger, o: Order, e: SoftEntry, ceiling: Metric -> int, now: real) {
    && o.takeover.Some? && Usable(l, e, o.takeover.value)
    && forall m :: Total(l, now, m) - Occupies(e, now, m) + Asked(o, m) <= ceiling(m)
  }

  /** The order will fit whenever it is carried out. */
  ghost predicate Fits(l: Ledger, o: Order, ceiling: Metric -> int, now: real) {
    FitsOnTop(l, o, ceiling, now) || exists e | e in l.soft :: FitsInPlaceOf(l, o, e, ceiling, now)
  }

  ghost predicate LimitsBelow(l: Ledger, ceiling: Metric -> int) {
    forall m :: At(l.limits, m) <= ceiling(m)
  }

  // ----- the checks

  /** A cold admission that passed `is_available`. */
  lemma ColdCheckFits(l: Ledger, o: Order, req: Amounts, ceiling: Metric -> int, now: real)
    requires Within(l, ceiling, now) && LimitsBelow(l, ceiling)
    requires HasRoom(l, req, now) && forall m :: Asked(o, m) <= Need(req, m)
    ensures Fits(l, o, ceiling, now)
  {
    forall m ensures Total(l, now, m) + Asked(o, m) <= ceiling(m) {
      assert Asked(o, m) <= Need(req, m);
      assert At(l.limits, m) <= ceiling(m);
    }
  }

  /** A warm admission that passed `is_available_for_reuse`. */
  lemma WarmCheckFits(l: Ledger, o: Order, ceiling: Metric -> int, now: real)
    requires Sound(l) && Within(l, ceiling, now) && LimitsBelow(l, ceiling)
    requires o.takeover.Some? && o.active == map[]
    requires var t := o.takeover.value; AvailableForReuse(l, t.req, t.model, t.provider, now)
    ensures Fits(l, o, ceiling, now)
  {
    var t := o.takeover.value;
    var e := Matching(l, t.model, t.req, t.provider, now).value;
    forall m ensures Total(l, now, m) - Occupies(e, now, m) + Asked(o, m) <= ceiling(m) {
      assert At(l.limits, m) <= ceiling(m);
      assert Total(l, now, m) <= ceiling(m);
      EntryWithinTotal(l.soft, t.model, t.provider, now, m);
    }
    assert FitsInPlaceOf(l, o, e, ceiling, now);
  }

  /** One more session of a resident parallel model: the session must be free, and the base
      is either already reserved or takes over its own warm entry. */
  lemma SessionCheckFits(l: Ledger, o: Order, ceiling: Metric -> int, now: real)
    requires Sound(l) && Within(l, ceiling, now) && LimitsBelow(l, ceiling)
    requires HasRoom(l, o.active, now)
    requires o.takeover.Some? ==> var t := o.takeover.value; Matching(l, t.model, t.req, t.provider, now).Some?
    ensures Fits(l, o, ceiling, now)
  {
    forall m ensures Total(l, now, m) + Need(o.active, m) <= ceiling(m) {
      assert At(l.limits, m) <= ceiling(m);
      assert Total(l, now, m) <= ceiling(m);
    }
    if o.takeover.Some? {
      var t := o.takeover.value;
      var e := Matching(l, t.model, t.req, t.provider, now).value;
      forall m ensures Need(t.req, m) <= Occupies(e, now, m) { assert NonNegative(e.amounts); }
      assert FitsInPlaceOf(l, o, e, ceiling, now);
    }
  }

  // ----- the reservations

  lemma ReserveTotal(l: Ledger, req: Amounts, c: Consumer, model: Name, provider: Name, now: real, later: real,
                     m: Metric)
    ensures Total(ReserveActive(l, req, c), later, m) == Total(l, later, m) + Need(req, m)
    ensures var taken := Matching(l, model, req, provider, now).Some?;
            Total(ReserveBlind(l, req, c, model, provider, now), later, m)
            == Total(l, later, m) + Need(req, m) - if taken then ModelTotal(l.soft, model, provider, later, m) else 0
  {
    WithoutTotal(l.soft, model, provider, later, m);
  }

  /** Carrying out the first half of an order: it stays within the ceiling, and the rest still fits. */
  lemma TakeoverStaysWithin(l: Ledger, o: Order, ceiling: Metric -> int, now: real)
    requires Sound(l) && Fits(l, o, ceiling, now) && o.takeover.Some?
    ensures var t := o.takeover.value;
            var l' := ReserveBlind(l, t.req, t.consumer, t.model, t.provider, now);
            Sound(l') && Within(l', ceiling, now) && FitsOnTop(l', o.(takeover := None), ceiling, now)
  {
    var t := o.takeover.value;
    var l' := ReserveBlind(l, t.req, t.consumer, t.model, t.provider, now);
    forall m ensures Total(l', now, m) + Need(o.active, m) <= ceiling(m) {
      ReserveTotal(l, t.req, t.consumer, t.model, t.provider, now, now, m);
      EntryWithinTotal(l.soft, t.model, t.provider, now, m);
      assert Total(l, now, m) + Asked(o, m) <= ceiling(m) || exists e | e in l.soft ::
        FitsInPlaceOf(l, o, e, ceiling, now);
    }
    forall m ensures Total(l', now, m) <= ceiling(m) && At(l'.used, m) >= 0 {
      assert Total(l', now, m) + Need(o.active, m) <= ceiling(m);
      assert At(l.used, m) >= 0;
    }
    forall e | e in l'.soft ensures NonNegative(e.amounts) {
      WithoutTotal(l.soft, t.model, t.provider, now, Metric(""));
    }
  }

  lemma ActiveStaysWithin(l: Ledger, o: Order, ceiling: Metric -> int, now: real)
    requires Sound(l) && Fits(l, o, ceiling, now) && o.takeover.None?
    ensures var l' := ReserveActive(l, o.active, o.consumer); Sound(l') && Within(l', ceiling, now)
  {
    var l' := ReserveActive(l, o.active, o.consumer);
    forall m ensures Total(l', now, m) <= ceiling(m) && At(l'.used, m) >= 0 {
      assert Total(l, now, m) + Asked(o, m) <= ceiling(m);
      assert At(l.used, m) >= 0;
    }
  }

  // ----- what goes on meanwhile

  /** The release gives back no more than is used. */
  ghost predicate Covered(l: Ledger, req: Amounts) { forall m :: Need(req, m) <= At(l.used, m) }

  lemma ReleaseSound(l: Ledger, req: Amounts, c: Consumer, model: Name, provider: Name, persistent: bool, now: real)
    requires Sound(l) && Covered(l, req)
    ensures var l' := Release(l, req, c, model, provider, persistent, now);
            && Sound(l')
            && (forall m :: At(l'.used, m) == At(l.used, m) - Need(req, m))
            && forall e | e in l.soft && !SameModel(e, model, provider) :: e in l'.soft
  {
    var l' := Release(l, req, c, model, provider, persistent, now);
    forall m ensures At(l'.used, m) == At(l.used, m) - Need(req, m) && At(l'.used, m) >= 0 {
      assert Need(req, m) <= At(l.used, m);
      assert At(l.used, m) >= 0;
    }
    WithoutTotal(l.soft, model, provider, now, Metric(""));
  }

  lemma ReleaseTotal(l: Ledger, req: Amounts, c: Consumer, model: Name, provider: Name, persistent: bool, now: real,
                     m: Metric)
    requires Sound(l) && Covered(l, req)
    ensures var l' := Release(l, req, c, model, provider, persistent, now);
            && (l'.soft == l.soft ==> Total(l', now, m) == Total(l, now, m) - Need(req, m))
            && (l'.soft != l.soft ==>
              Total(l', now, m) == Total(l, now, m) - ModelTotal(l.soft, model, provider, now, m))
  {
    ReleaseSound(l, req, c, model, provider, persistent, now);
    var entry := SoftEntry(c, Positive(req), now + Max(l.aliveTime, l.keepAlive) as real, model, provider, persistent);
    WithoutTotal(l.soft, model, provider, now, m);
    AppendTotal(Without(l.soft, model, provider), entry, now, m);
    assert At(Positive(req), m) == Need(req, m);
  }

  lemma ReleaseKeepsFit(l: Ledger, o: Order, ceiling: Metric -> int, req: Amounts, c: Consumer, model: Name,
                        provider: Name, persistent: bool, now: real)
    requires Sound(l) && Covered(l, req) && Within(l, ceiling, now)
    ensures var l' := Release(l, req, c, model, provider, persistent, now);
            Sound(l') && Within(l', ceiling, now) && (Fits(l, o, ceiling, now) ==> Fits(l', o, ceiling, now))
  {
    var l' := Release(l, req, c, model, provider, persistent, now);
    ReleaseSound(l, req, c, model, provider, persistent, now);
    forall m ensures 0 <= Total(l, now, m) - Total(l', now, m) && Total(l', now, m) <= ceiling(m) {
      ReleaseTotal(l, req, c, model, provider, persistent, now, m);
      EntryWithinTotal(l.soft, model, provider, now, m);
      assert Total(l, now, m) <= ceiling(m);
    }
    if e :| e in l.soft && FitsInPlaceOf(l, o, e, ceiling, now) {
      forall m ensures l'.soft == l.soft || !SameModel(e, model, provider) ||
        Total(l', now, m) + Asked(o, m) <= ceiling(m) {
        ReleaseTotal(l, req, c, model, provider, persistent, now, m);
        EntryWithinTotal(l.soft, model, provider, now, m);
        assert Total(l, now, m) - Occupies(e, now, m) + Asked(o, m) <= ceiling(m);
      }
      if e in l'.soft { SlackKeepsFit(l, l', o, e, ceiling, now, now); }
    } else if FitsOnTop(l, o, ceiling, now) {
      forall m ensures Total(l', now, m) + Asked(o, m) <= ceiling(m) {
        assert Total(l, now, m) + Asked(o, m) <= ceiling(m);
      }
    }
  }

  /** The promised entry is still there and the rest has not grown. */
  lemma SlackKeepsFit(l: Ledger, l': Ledger, o: Order, e: SoftEntry, ceiling: Metric -> int, now: real, later: real)
    requires FitsInPlaceOf(l, o, e, ceiling, now) && e in l'.soft
    requires l'.aliveTime == l.aliveTime && l'.keepAlive == l.keepAlive
    requires forall m :: Total(l', later, m) - Occupies(e, later, m) <= Total(l, now, m) - Occupies(e, now, m)
    ensures Fits(l', o, ceiling, later)
  {
    forall m ensures Total(l', later, m) - Occupies(e, later, m) + Asked(o, m) <= ceiling(m) {
      assert Total(l, now, m) - Occupies(e, now, m) + Asked(o, m) <= ceiling(m);
    }
    assert FitsInPlaceOf(l', o, e, ceiling, later);
  }

  lemma UnloadKeepsFit(l: Ledger, o: Order, ceiling: Metric -> int, model: Name, provider: Name, now: real)
    requires Sound(l) && Within(l, ceiling, now)
    ensures var l' := ClearSoft(l, model, provider);
            Sound(l') && Within(l', ceiling, now) && (Fits(l, o, ceiling, now) ==> Fits(l', o, ceiling, now))
  {
    var l' := ClearSoft(l, model, provider);
    WithoutTotal(l.soft, model, provider, now, Metric(""));
    forall m ensures Total(l', now, m) == Total(l, now, m) - ModelTotal(l.soft, model, provider, now, m)
                  && Total(l', now, m) <= Total(l, now, m) <= ceiling(m) {
      WithoutTotal(l.soft, model, provider, now, m);
      EntryWithinTotal(l.soft, model, provider, now, m);
      assert Total(l, now, m) <= ceiling(m);
    }
    if e :| e in l.soft && FitsInPlaceOf(l, o, e, ceiling, now) {
      if e in l'.soft {
        SlackKeepsFit(l, l', o, e, ceiling, now, now);
      } else {
        forall m ensures Total(l', now, m) + Asked(o, m) <= ceiling(m) {
          EntryWithinTotal(l.soft, model, provider, now, m);
          assert Total(l, now, m) - Occupies(e, now, m) + Asked(o, m) <= ceiling(m);
        }
      }
    } else if FitsOnTop(l, o, ceiling, now) {
      forall m ensures Total(l', now, m) + Asked(o, m) <= ceiling(m) {
        assert Total(l, now, m) + Asked(o, m) <= ceiling(m);
      }
    }
  }

  lemma TickKeepsFit(l: Ledger, o: Order, ceiling: Metric -> int, now: real, later: real)
    requires Sound(l) && Within(l, ceiling, now) && now <= later
    ensures Within(l, ceiling, later) && (Fits(l, o, ceiling, now) ==> Fits(l, o, ceiling, later))
  {
    forall m ensures Total(l, later, m) <= Total(l, now, m) <= ceiling(m) {
      TickTotal(l.soft, now, later, m);
      assert Total(l, now, m) <= ceiling(m);
    }
    if e :| e in l.soft && FitsInPlaceOf(l, o, e, ceiling, now) {
      forall m ensures Total(l, later, m) - Occupies(e, later, m) <= Total(l, now, m) - Occupies(e, now, m) {
        TickTotal(l.soft, now, later, m);
      }
      SlackKeepsFit(l, l, o, e, ceiling, now, later);
    } else if FitsOnTop(l, o, ceiling, now) {
      forall m ensures Total(l, later, m) + Asked(o, m) <= ceiling(m) {
        assert Total(l, now, m) + Asked(o, m) <= ceiling(m);
      }
    }
  }

  // ----- whole runs

  datatype Site = Site(ledger: Ledger, pending: Option<Order>, now: real)

  datatype Action =
    | CheckCold(order: Order, req: Amounts)
    | CheckWarm(order: Order)
    | CheckSession(order: Order)
    | TakeOver
    | ReserveRest
    | Abandon
    | Free(req: Amounts, consumer: Consumer, model: Name, provider: Name, persistent: bool)
    | Unload(model: Name, provider: Name)
    | Tick(later: real)

  /** When an action may happen: a check only when no other admission is undecided here,
      and a release only of what is reserved. */
  ghost predicate Enabled(s: Site, a: Action) {
    match a
    case CheckCold(o, req) =>
      s.pending.None? && Available(s.ledger, req, s.now) && forall m :: Asked(o, m) <= Need(req, m)
    case CheckWarm(o) =>
      s.pending.None? && o.takeover.Some? && o.active == map[] &&
      var t := o.takeover.value; AvailableForReuse(s.ledger, t.req, t.model, t.provider, s.now)
    case CheckSession(o) =>
      s.pending.None? && (o.active == map[] || Available(s.ledger, o.active, s.now)) &&
      (o.takeover.Some? ==> var t := o.takeover.value; Matching(s.ledger, t.model, t.req, t.provider, s.now).Some?)
    case TakeOver => s.pending.Some? && s.pending.value.takeover.Some?
    case ReserveRest => s.pending.Some? && s.pending.value.takeover.None?
    case Abandon => s.pending.Some?
    case Free(req, _, _, _, _) => Covered(s.ledger, req)
    case Unload(_, _) => true
    case Tick(later) => s.now <= later
  }

  function Next(s: Site, a: Action): Site {
    match a
    case CheckCold(o, _) => s.(pending := Some(o))
    case CheckWarm(o) => s.(pending := Some(o))
    case CheckSession(o) => s.(pending := Some(o))
    case TakeOver =>
      if s.pending.Some? && s.pending.value.takeover.Some? then
        var t := s.pending.value.takeover.value;
        s.(ledger := ReserveBlind(s.ledger, t.req, t.consumer, t.model, t.provider, s.now),
           pending := Some(s.pending.value.(takeover := None)))
      else s
    case ReserveRest =>
      if s.pending.Some? then
        s.(ledger := ReserveActive(s.ledger, s.pending.value.active, s.pending.value.consumer), pending := None)
      else s
    case Abandon => s.(pending := None)
    case Free(req, c, model, provider, persistent) =>
      s.(ledger := Release(s.ledger, req, c, model, provider, persistent, s.now))
    case Unload(model, provider) => s.(ledger := ClearSoft(s.ledger, model, provider))
    case Tick(later) => s.(now := later)
  }

  function Run(s: Site, actions: seq<Action>): Site
    decreases |actions|
  {
    if actions == [] then s else Run(Next(s, actions[0]), actions[1..])
  }

  ghost predicate Possible(s: Site, actions: seq<Action>)
    decreases |actions|
  {
    actions == [] || (Enabled(s, actions[0]) && Possible(Next(s, actions[0]), actions[1..]))
  }

  ghost predicate Safe(s: Site, ceiling: Metric -> int) {
    && Sound(s.ledger) && LimitsBelow(s.ledger, ceiling) && Within(s.ledger, ceiling, s.now)
    && (s.pending.Some? ==> Fits(s.ledger, s.pending.value, ceiling, s.now))
  }

  lemma StepIsSafe(s: Site, a: Action, ceiling: Metric -> int)
    requires Safe(s, ceiling) && Enabled(s, a)
    ensures Safe(Next(s, a), ceiling) && Next(s, a).ledger.limits == s.ledger.limits
  {
    var o := if s.pending.Some? then s.pending.value else Order(None, map[], Anonymous);
    match a
    case CheckCold(o, req) => ColdCheckFits(s.ledger, o, req, ceiling, s.now);
    case CheckWarm(o) => WarmCheckFits(s.ledger, o, ceiling, s.now);
    case CheckSession(o) => SessionCheckFits(s.ledger, o, ceiling, s.now);
    case TakeOver => TakeoverStaysWithin(s.ledger, o, ceiling, s.now);
    case ReserveRest => ActiveStaysWithin(s.ledger, o, ceiling, s.now);
    case Abandon =>
    case Free(req, c, model, provider, persistent) =>
      ReleaseKeepsFit(s.ledger, o, ceiling, req, c, model, provider, persistent, s.now);
    case Unload(model, provider) => UnloadKeepsFit(s.ledger, o, ceiling, model, provider, s.now);
    case Tick(later) => TickKeepsFit(s.ledger, o, ceiling, s.now, later);
  }

  lemma {:induction false} RunIsSafe(s: Site, actions: seq<Action>, ceiling: Metric -> int)
    requires Safe(s, ceiling) && Possible(s, actions)
    ensures Safe(Run(s, actions), ceiling) && Run(s, actions).ledger.limits == s.ledger.limits
    decreases |actions|
  {
    if actions != [] {
      StepIsSafe(s, actions[0], ceiling);
      RunIsSafe(Next(s, actions[0]), actions[1..], ceiling);
    }
  }

  /** Capacity safety over every interleaving: no metric ever exceeds the larger of its limit
      and what was occupied at the start, so a resource that starts within its limits stays there. */
  lemma CapacityHolds(s: Site, actions: seq<Action>)
    requires Sound(s.ledger) && s.pending.None? && Possible(s, actions)
    ensures var end := Run(s, actions);
            forall m :: Total(end.ledger, end.now, m) <= Max(At(s.ledger.limits, m), Total(s.ledger, s.now, m))
    ensures var end := Run(s, actions);
            (forall m :: Total(s.ledger, s.now, m) <= At(s.ledger.limits, m)) ==>
            forall m :: Total(end.ledger, end.now, m) <= At(end.ledger.limits, m)
  {
    var ceiling := m => Max(At(s.ledger.limits, m), Total(s.ledger, s.now, m));
    RunIsSafe(s, actions, ceiling);
    var end := Run(s, actions);
    forall m ensures Total(end.ledger, end.now, m) <= Max(At(s.ledger.limits, m), Total(s.ledger, s.now, m)) {
      assert Total(end.ledger, end.now, m) <= ceiling(m);
    }
  }

}
