/** Admission of plain requests over several resources, with the locks of `AdmissionLocks`
    (core/resources.py, `reserve_if_available_or_reuse` and `release_for`). The check happens
    when the guards are held, each resource is charged later, under its own lock, and anything
    may happen in between: other admissions, releases, unloads, cancellations, time. */
module GuardedAdmission {
  import opened Basics
  import opened ResourceLedger
  import opened CapacitySafety
  import opened Conservation
  import L = AdmissionLocks
  import Runs = AdmissionRuns

  /** One admission. `uses` are the resource locks and suspensions of its guarded body. */
  datatype Job = Job(id: RunId, reqs: map<nat, Amounts>, key: ModelKey, uses: seq<L.Use>)

  /** `taken` are the resources charged so far, `freed` those given back again. */
  datatype Stage = Undecided | Refused | Admitted(taken: set<nat>, freed: set<nat>)

  datatype System = System(locks: L.System, ledgers: seq<Ledger>, stages: seq<Stage>, now: real)

  /** `slot` says whether the model's slot was free at the check. */
  datatype Event =
    | Lock(e: L.Event, slot: bool)
    | Free(p: nat, r: nat, model: Name, provider: Name, persistent: bool)
    | Unload(r: nat, model: Name, provider: Name)
    | Tick(until: real)

  function Requests(jobs: seq<Job>): seq<L.Request> {
    seq(|jobs|, i requires 0 <= i < |jobs| => L.Guarded(jobs[i].reqs.Keys, jobs[i].uses))
  }

  /** The check of all resources at once. */
  predicate Passes(ledgers: seq<Ledger>, j: Job, now: real) {
    (j.key.model != Unnamed && forall r | r in j.reqs ::
       r < |ledgers| && AvailableForReuse(ledgers[r], j.reqs[r], j.key.model, j.key.provider, now))
    || forall r | r in j.reqs :: r < |ledgers| && Available(ledgers[r], j.reqs[r], now)
  }

  predicate Shaped(s: System, jobs: seq<Job>) { |s.locks.procs| == |jobs| && |s.stages| == |jobs| }

  /** Admitted, guarded, and still to be charged to `r`. */
  predicate Pending(s: System, jobs: seq<Job>, p: nat, r: nat)
    requires Shaped(s, jobs)
  {
    && p < |jobs| && s.stages[p].Admitted? && r in jobs[p].reqs && r < |s.ledgers|
    && r !in s.stages[p].taken && L.Guard(r) in s.locks.procs[p].held
  }

  function Charged(l: Ledger, j: Job, r: nat, now: real): Ledger
    requires r in j.reqs
  {
    ReserveBlind(l, j.reqs[r], Consumer.Run(j.id), j.key.model, j.key.provider, now)
  }

  /** What the next action of `p` does besides locking. */
  function Acted(s: System, jobs: seq<Job>, p: nat, slot: bool): System
    requires Shaped(s, jobs) && L.Unfinished(s.locks, p)
  {
    var a, j := s.locks.procs[p].rest[0], jobs[p];
    if a.Enter? && s.stages[p].Undecided? then
      s.(stages := s.stages[p := if slot && Passes(s.ledgers, j, s.now) then Admitted({}, {}) else Refused])
    else if a.Acquire? && a.lock.Leaf? && Pending(s, jobs, p, a.lock.id) then
      var r := a.lock.id;
      s.(ledgers := s.ledgers[r := Charged(s.ledgers[r], j, r, s.now)],
         stages := s.stages[p := Admitted(s.stages[p].taken + {r}, s.stages[p].freed)])
    else s
  }

  predicate Enabled(s: System, jobs: seq<Job>, e: Event)
    requires Shaped(s, jobs)
  {
    match e
    case Lock(e, _) => L.Enabled(s.locks, e)
    case Free(p, r, _, _, _) =>
      && p < |jobs| && s.stages[p].Admitted? && r in s.stages[p].taken && r !in s.stages[p].freed
      && r < |s.ledgers| && r in jobs[p].reqs
    case Unload(r, _, _) => r < |s.ledgers|
    case Tick(until) => s.now <= until
  }

  function Next(s: System, jobs: seq<Job>, e: Event): System
    requires Shaped(s, jobs) && Enabled(s, jobs, e)
  {
    match e
    case Lock(e, slot) => (if e.StepOf? then Acted(s, jobs, e.p, slot) else s).(locks := L.Apply(s.locks, e))
    case Free(p, r, model, provider, persistent) =>
      var l := Release(s.ledgers[r], jobs[p].reqs[r], Consumer.Run(jobs[p].id), model, provider, persistent, s.now);
      s.(ledgers := s.ledgers[r := l],
         stages := s.stages[p := Admitted(s.stages[p].taken, s.stages[p].freed + {r})])
    case Unload(r, model, provider) => s.(ledgers := s.ledgers[r := ClearSoft(s.ledgers[r], model, provider)])
    case Tick(until) => s.(now := until)
  }

  // ---- what every event keeps -------------------------------------------------------

  predicate Holds(s: System, jobs: seq<Job>, p: nat, r: nat)
    requires Shaped(s, jobs) && p < |jobs|
  {
    s.stages[p].Admitted? && r in jobs[p].reqs && r in s.stages[p].taken && r !in s.stages[p].freed
  }

  /** What a job has on a resource: its request, between its charge and its release. */
  function Share(s: System, jobs: seq<Job>, p: nat, r: nat): Amounts
    requires Shaped(s, jobs) && p < |jobs|
  {
    if Holds(s, jobs, p, r) then Positive(jobs[p].reqs[r]) else map[]
  }

  function Owner(jobs: seq<Job>, p: nat): Consumer
    requires p < |jobs|
  {
    Consumer.Run(jobs[p].id)
  }

  /** The book of one resource says exactly what the jobs hold. */
  ghost predicate BookIsExact(s: System, jobs: seq<Job>, r: nat)
    requires Shaped(s, jobs) && r < |s.ledgers|
  {
    var l := s.ledgers[r];
    && Balanced(l)
    && (forall p: nat | p < |jobs| :: HeldBy(l.consumers, Owner(jobs, p)) == Share(s, jobs, p, r))
    && (forall c | c in l.consumers :: exists p: nat :: p < |jobs| && c == Owner(jobs, p))
  }

  function OrderOf(j: Job, r: nat): Order
    requires r in j.reqs
  {
    var c := Consumer.Run(j.id);
    Order(Some(Takeover(j.reqs[r], c, j.key.model, j.key.provider)), map[], c)
  }

  ghost predicate FitsHere(s: System, jobs: seq<Job>, p: nat, r: nat)
    requires Shaped(s, jobs)
  {
    Pending(s, jobs, p, r) ==>
      Fits(s.ledgers[r], OrderOf(jobs[p], r), Runs.Ceiling(s.ledgers[r].limits), s.now)
  }

  /** Within its limits, exact, and with room for whoever was promised it. */
  ghost predicate Healthy(s: System, jobs: seq<Job>, r: nat)
    requires Shaped(s, jobs) && r < |s.ledgers|
  {
    && Runs.StaysInLimits(s.ledgers[r], s.now) && BookIsExact(s, jobs, r)
    && forall p: nat :: FitsHere(s, jobs, p, r)
  }

  ghost predicate LocksAreSafe(s: System, jobs: seq<Job>)
    requires Shaped(s, jobs)
  {
    && L.Inv(s.locks, |s.ledgers|) && L.AllFollow(s.locks, Requests(jobs), |s.ledgers|)
    && (forall p: nat | p < |jobs| :: s.stages[p].Undecided? || s.locks.procs[p].entered)
    && forall p: nat | p < |jobs| && s.stages[p].Admitted? :: s.stages[p].freed <= s.stages[p].taken
  }

  ghost predicate Inv(s: System, jobs: seq<Job>) {
    && Shaped(s, jobs) && DistinctIds(jobs)
    && LocksAreSafe(s, jobs) && forall r: nat | r < |s.ledgers| :: Healthy(s, jobs, r)
  }

  /** A resource this event does not touch. */
  lemma Untouched(s: System, n: System, jobs: seq<Job>, r: nat)
    requires Shaped(s, jobs) && Shaped(n, jobs) && |n.ledgers| == |s.ledgers| && r < |s.ledgers|
    requires Healthy(s, jobs, r) && n.ledgers[r] == s.ledgers[r] && n.now == s.now
    requires forall p: nat | p < |jobs| :: Share(n, jobs, p, r) == Share(s, jobs, p, r)
    requires forall p: nat :: Pending(n, jobs, p, r) ==> Pending(s, jobs, p, r)
    ensures Healthy(n, jobs, r)
  {
    forall p: nat ensures FitsHere(n, jobs, p, r) { assert FitsHere(s, jobs, p, r); }
  }

  lemma NotAConsumer(s: System, jobs: seq<Job>, p: nat, r: nat)
    requires Shaped(s, jobs) && p < |jobs| && r < |s.ledgers| && BookIsExact(s, jobs, r) && !Holds(s, jobs, p, r)
    ensures Owner(jobs, p) !in s.ledgers[r].consumers
  {
    assert HeldBy(s.ledgers[r].consumers, Owner(jobs, p)) == map[];
  }

  ghost predicate DistinctIds(jobs: seq<Job>) { forall p, q | 0 <= p < q < |jobs| :: jobs[p].id != jobs[q].id }

  lemma OthersKeepTheirHolding(l: Ledger, l': Ledger, c: Consumer, d: Consumer)
    requires d != c && l'.consumers - {c} == l.consumers - {c}
    ensures HeldBy(l'.consumers, d) == HeldBy(l.consumers, d) && (d in l'.consumers <==> d in l.consumers)
  {
    assert d in l.consumers <==> d in l.consumers - {c};
    assert d in l'.consumers <==> d in l'.consumers - {c};
    if d in l.consumers {
      assert (l.consumers - {c})[d] == l.consumers[d] && (l'.consumers - {c})[d] == l'.consumers[d];
    }
  }

  /** One job's share of one resource changed, and so did its entry in the book. */
  lemma ShareChanges(s: System, n: System, jobs: seq<Job>, p: nat, r: nat)
    requires DistinctIds(jobs) && Shaped(s, jobs) && Shaped(n, jobs) && |n.ledgers| == |s.ledgers| && r < |s.ledgers|
    requires p < |jobs| && BookIsExact(s, jobs, r) && Balanced(n.ledgers[r])
    requires n.ledgers[r].consumers - {Owner(jobs, p)} == s.ledgers[r].consumers - {Owner(jobs, p)}
    requires HeldBy(n.ledgers[r].consumers, Owner(jobs, p)) == Share(n, jobs, p, r)
    requires forall q: nat | q < |jobs| && q != p :: Share(n, jobs, q, r) == Share(s, jobs, q, r)
    ensures BookIsExact(n, jobs, r)
  {
    var l, l', c := s.ledgers[r], n.ledgers[r], Owner(jobs, p);
    forall q: nat | q < |jobs| && q != p ensures HeldBy(l'.consumers, Owner(jobs, q)) == Share(n, jobs, q, r) {
      OthersKeepTheirHolding(l, l', c, Owner(jobs, q));
    }
    forall d | d in l'.consumers ensures exists q: nat :: q < |jobs| && d == Owner(jobs, q) {
      if d != c { OthersKeepTheirHolding(l, l', c, d); }
    }
  }

  // ---- charging ---------------------------------------------------------------------

  lemma NewcomerJoins(l: Ledger, j: Job, r: nat, now: real)
    requires Balanced(l) && r in j.reqs && Consumer.Run(j.id) !in l.consumers
    ensures var l', c := Charged(l, j, r, now), Consumer.Run(j.id);
      Balanced(l') && l'.consumers - {c} == l.consumers - {c} && HeldBy(l'.consumers, c) == Positive(j.reqs[r])
  {
    Runs.ReserveBlindBalances(l, j.reqs[r], Consumer.Run(j.id), j.key.model, j.key.provider, now);
  }

  lemma ChargedBook(s: System, jobs: seq<Job>, p: nat, r: nat)
    requires Inv(s, jobs) && Pending(s, jobs, p, r) && !Holds(s, jobs, p, r)
    ensures var l, l', c := s.ledgers[r], Charged(s.ledgers[r], jobs[p], r, s.now), Owner(jobs, p);
      Balanced(l') && l'.consumers - {c} == l.consumers - {c} && HeldBy(l'.consumers, c) == Positive(jobs[p].reqs[r])
  {
    assert Healthy(s, jobs, r);
    NotAConsumer(s, jobs, p, r);
    NewcomerJoins(s.ledgers[r], jobs[p], r, s.now);
  }

  lemma ChargedStaysInLimits(s: System, jobs: seq<Job>, p: nat, r: nat)
    requires Inv(s, jobs) && Pending(s, jobs, p, r)
    ensures Runs.StaysInLimits(Charged(s.ledgers[r], jobs[p], r, s.now), s.now)
  {
    assert Healthy(s, jobs, r);
    assert FitsHere(s, jobs, p, r);
    TakeoverStaysWithin(s.ledgers[r], OrderOf(jobs[p], r), Runs.Ceiling(s.ledgers[r].limits), s.now);
  }

  /** One guard, one holder. */
  lemma OnePending(s: System, jobs: seq<Job>, p: nat, q: nat, r: nat)
    requires Shaped(s, jobs) && LocksAreSafe(s, jobs) && Pending(s, jobs, p, r) && Pending(s, jobs, q, r)
    ensures p == q
  {
  }

  /** Step `e` charges `p`. */
  ghost predicate Charges(s: System, jobs: seq<Job>, p: nat, e: Event) {
    && Inv(s, jobs) && e.Lock? && e.e == L.StepOf(p) && Enabled(s, jobs, e)
    && var a := s.locks.procs[p].rest[0]; a.Acquire? && a.lock.Leaf? && Pending(s, jobs, p, a.lock.id)
  }

  /** What a charge does to the ledgers and to everybody's share. */
  lemma ChargeMeans(s: System, jobs: seq<Job>, p: nat, e: Event)
    requires Charges(s, jobs, p, e)
    ensures var n, at := Next(s, jobs, e), s.locks.procs[p].rest[0].lock.id;
      && Shaped(n, jobs) && n.ledgers == s.ledgers[at := Charged(s.ledgers[at], jobs[p], at, s.now)] && n.now == s.now
      && (forall q: nat, r: nat | q < |jobs| :: Share(n, jobs, q, r) ==
            if q == p && r == at then Positive(jobs[p].reqs[at]) else Share(s, jobs, q, r))
      && Share(s, jobs, p, at) == map[]
  {
    var n := Next(s, jobs, e);
    assert forall q: nat | q < |jobs| && q != p :: n.stages[q] == s.stages[q];
  }

  /** It fulfils one promise and touches no other. */
  lemma ChargeFulfils(s: System, jobs: seq<Job>, p: nat, e: Event, q: nat, r: nat)
    requires Charges(s, jobs, p, e)
    ensures Shaped(Next(s, jobs, e), jobs)
    ensures Pending(Next(s, jobs, e), jobs, q, r) <==>
      Pending(s, jobs, q, r) && (q != p || r != s.locks.procs[p].rest[0].lock.id)
  {
    var n, at := Next(s, jobs, e), s.locks.procs[p].rest[0].lock.id;
    if q < |jobs| && q != p {
      assert n.locks.procs[q] == s.locks.procs[q] && n.stages[q] == s.stages[q];
    } else {
      assert n.locks.procs[p].held == s.locks.procs[p].held + {L.Leaf(at)};
    }
  }

  lemma ChargeKeeps(s: System, jobs: seq<Job>, p: nat, e: Event)
    requires Charges(s, jobs, p, e)
    ensures var n := Next(s, jobs, e); Shaped(n, jobs) && forall r: nat | r < |n.ledgers| :: Healthy(n, jobs, r)
  {
    var n, at := Next(s, jobs, e), s.locks.procs[p].rest[0].lock.id;
    ChargeMeans(s, jobs, p, e);
    forall q: nat, r: nat
      ensures Pending(n, jobs, q, r) <==> Pending(s, jobs, q, r) && (q != p || r != at) {
      ChargeFulfils(s, jobs, p, e, q, r);
    }
    forall r: nat | r < |n.ledgers| ensures Healthy(n, jobs, r) {
      assert Healthy(s, jobs, r);
      if r == at {
        ChargedBook(s, jobs, p, r);
        ShareChanges(s, n, jobs, p, r);
        ChargedStaysInLimits(s, jobs, p, r);
        forall q: nat ensures FitsHere(n, jobs, q, r) {
          if Pending(n, jobs, q, r) { OnePending(s, jobs, p, q, r); }
        }
      } else {
        Untouched(s, n, jobs, r);
      }
    }
  }

  // ---- checking ---------------------------------------------------------------------

  lemma CheckedFits(s: System, jobs: seq<Job>, p: nat, r: nat)
    requires Inv(s, jobs) && p < |jobs| && Passes(s.ledgers, jobs[p], s.now) && r in jobs[p].reqs
    ensures r < |s.ledgers| && Fits(s.ledgers[r], OrderOf(jobs[p], r), Runs.Ceiling(s.ledgers[r].limits), s.now)
  {
    var l, o := s.ledgers[r], OrderOf(jobs[p], r);
    assert Healthy(s, jobs, r);
    if Available(l, jobs[p].reqs[r], s.now) {
      ColdCheckFits(l, o, jobs[p].reqs[r], Runs.Ceiling(l.limits), s.now);
    } else {
      WarmCheckFits(l, o, Runs.Ceiling(l.limits), s.now);
    }
  }

  lemma CheckKeeps(s: System, jobs: seq<Job>, p: nat, e: Event)
    requires Inv(s, jobs) && e.Lock? && e.e == L.StepOf(p) && Enabled(s, jobs, e)
    requires s.locks.procs[p].rest[0].Enter? && s.stages[p].Undecided?
    ensures var n := Next(s, jobs, e); Shaped(n, jobs) && forall r: nat | r < |n.ledgers| :: Healthy(n, jobs, r)
  {
    var n := Next(s, jobs, e);
    assert forall q: nat | q < |jobs| && q != p :: n.locks.procs[q] == s.locks.procs[q] && n.stages[q] == s.stages[q];
    forall r: nat | r < |n.ledgers| ensures Healthy(n, jobs, r) {
      assert Healthy(s, jobs, r);
      forall q: nat ensures FitsHere(n, jobs, q, r) {
        assert FitsHere(s, jobs, q, r);
        if q == p && Pending(n, jobs, q, r) { CheckedFits(s, jobs, p, r); }
      }
    }
  }

  // ---- everything else --------------------------------------------------------------

  /** Steps that only lock, unlock or wait, and cancellations. */
  lemma LockKeeps(s: System, jobs: seq<Job>, e: Event)
    requires Inv(s, jobs) && e.Lock? && Enabled(s, jobs, e)
    requires e.e.StepOf? ==> Acted(s, jobs, e.e.p, e.slot) == s
    ensures var n := Next(s, jobs, e); Shaped(n, jobs) && forall r: nat | r < |n.ledgers| :: Healthy(n, jobs, r)
  {
    var n, p := Next(s, jobs, e), e.e.p;
    assert forall q: nat | q < |jobs| && q != p :: n.locks.procs[q] == s.locks.procs[q];
    if s.stages[p].Admitted? && e.e.StepOf? { AdmittedTakesNoGuard(s, jobs, p); }
    forall r: nat | r < |n.ledgers| ensures Healthy(n, jobs, r) {
      assert Healthy(s, jobs, r);
      Untouched(s, n, jobs, r);
    }
  }

  lemma AdmittedTakesNoGuard(s: System, jobs: seq<Job>, p: nat)
    requires Shaped(s, jobs) && LocksAreSafe(s, jobs) && p < |jobs| && s.stages[p].Admitted?
    requires L.Unfinished(s.locks, p)
    ensures var a := s.locks.procs[p].rest[0]; a.Acquire? ==> a.lock.Leaf?
  {
    assert L.Follows(s.locks.procs[p], Requests(jobs)[p], |s.ledgers|);
  }

  lemma FreeKeeps(s: System, jobs: seq<Job>, e: Event)
    requires Inv(s, jobs) && e.Free? && Enabled(s, jobs, e)
    ensures var n := Next(s, jobs, e); Shaped(n, jobs) && forall r: nat | r < |n.ledgers| :: Healthy(n, jobs, r)
  {
    var n := Next(s, jobs, e);
    forall r: nat | r < |n.ledgers| ensures Healthy(n, jobs, r) {
      assert Healthy(s, jobs, r);
      if r == e.r { FreedIsHealthy(s, jobs, e); } else { Untouched(s, n, jobs, r); }
    }
  }

  lemma FreedBook(s: System, jobs: seq<Job>, e: Event)
    requires Inv(s, jobs) && e.Free? && Enabled(s, jobs, e)
    ensures Covered(s.ledgers[e.r], jobs[e.p].reqs[e.r])
    ensures var l, l', c := s.ledgers[e.r], Next(s, jobs, e).ledgers[e.r], Owner(jobs, e.p);
      Balanced(l') && l'.consumers == l.consumers - {c}
  {
    assert Healthy(s, jobs, e.r) && Holds(s, jobs, e.p, e.r);
    ReleaseBalances(s.ledgers[e.r], jobs[e.p].reqs[e.r], Owner(jobs, e.p), e.model, e.provider, e.persistent, s.now);
  }

  lemma FreedIsExact(s: System, jobs: seq<Job>, e: Event)
    requires Inv(s, jobs) && e.Free? && Enabled(s, jobs, e)
    ensures Shaped(Next(s, jobs, e), jobs) && BookIsExact(Next(s, jobs, e), jobs, e.r)
    ensures Covered(s.ledgers[e.r], jobs[e.p].reqs[e.r])
  {
    var n := Next(s, jobs, e);
    FreedBook(s, jobs, e);
    assert Healthy(s, jobs, e.r);
    assert forall q: nat | q < |jobs| && q != e.p :: n.stages[q] == s.stages[q];
    ShareChanges(s, n, jobs, e.p, e.r);
  }

  lemma FreedFits(s: System, jobs: seq<Job>, e: Event, q: nat)
    requires Inv(s, jobs) && e.Free? && Enabled(s, jobs, e) && Covered(s.ledgers[e.r], jobs[e.p].reqs[e.r])
    ensures Shaped(Next(s, jobs, e), jobs) && FitsHere(Next(s, jobs, e), jobs, q, e.r)
  {
    var l, c := s.ledgers[e.r], Owner(jobs, e.p);
    assert Healthy(s, jobs, e.r);
    if Pending(s, jobs, q, e.r) {
      assert FitsHere(s, jobs, q, e.r);
      ReleaseKeepsFit(l, OrderOf(jobs[q], e.r), Runs.Ceiling(l.limits), jobs[e.p].reqs[e.r], c,
                      e.model, e.provider, e.persistent, s.now);
    }
  }

  lemma FreedIsHealthy(s: System, jobs: seq<Job>, e: Event)
    requires Inv(s, jobs) && e.Free? && Enabled(s, jobs, e)
    ensures Shaped(Next(s, jobs, e), jobs) && Healthy(Next(s, jobs, e), jobs, e.r)
  {
    var l, c := s.ledgers[e.r], Owner(jobs, e.p);
    assert Healthy(s, jobs, e.r);
    FreedIsExact(s, jobs, e);
    ReleaseKeepsFit(l, Order(None, map[], c), Runs.Ceiling(l.limits), jobs[e.p].reqs[e.r], c,
                    e.model, e.provider, e.persistent, s.now);
    forall q: nat ensures FitsHere(Next(s, jobs, e), jobs, q, e.r) { FreedFits(s, jobs, e, q); }
  }

  lemma UnloadKeeps(s: System, jobs: seq<Job>, e: Event)
    requires Inv(s, jobs) && e.Unload? && Enabled(s, jobs, e)
    ensures var n := Next(s, jobs, e); Shaped(n, jobs) && forall r: nat | r < |n.ledgers| :: Healthy(n, jobs, r)
  {
    var n, l := Next(s, jobs, e), s.ledgers[e.r];
    forall r: nat | r < |n.ledgers| ensures Healthy(n, jobs, r) {
      assert Healthy(s, jobs, r);
      if r == e.r {
        UnloadKeepsFit(l, Order(None, map[], Anonymous), Runs.Ceiling(l.limits), e.model, e.provider, s.now);
        assert BookIsExact(n, jobs, r);
        forall q: nat ensures FitsHere(n, jobs, q, r) {
          if Pending(n, jobs, q, r) {
            assert FitsHere(s, jobs, q, r);
            UnloadKeepsFit(l, OrderOf(jobs[q], r), Runs.Ceiling(l.limits), e.model, e.provider, s.now);
          }
        }
      } else {
        Untouched(s, n, jobs, r);
      }
    }
  }

  lemma TickKeeps(s: System, jobs: seq<Job>, e: Event)
    requires Inv(s, jobs) && e.Tick? && Enabled(s, jobs, e)
    ensures var n := Next(s, jobs, e); Shaped(n, jobs) && forall r: nat | r < |n.ledgers| :: Healthy(n, jobs, r)
  {
    var n := Next(s, jobs, e);
    forall r: nat | r < |n.ledgers| ensures Healthy(n, jobs, r) {
      var l := s.ledgers[r];
      assert Healthy(s, jobs, r);
      TickKeepsFit(l, Order(None, map[], Anonymous), Runs.Ceiling(l.limits), s.now, e.until);
      forall q: nat ensures FitsHere(n, jobs, q, r) {
        if Pending(n, jobs, q, r) {
          assert FitsHere(s, jobs, q, r);
          TickKeepsFit(l, OrderOf(jobs[q], r), Runs.Ceiling(l.limits), s.now, e.until);
        }
      }
    }
  }

  lemma LocksStaySafe(s: System, jobs: seq<Job>, e: Event)
    requires Inv(s, jobs) && Enabled(s, jobs, e)
    ensures Shaped(Next(s, jobs, e), jobs) && LocksAreSafe(Next(s, jobs, e), jobs)
  {
    if e.Lock? {
      L.StepInv(s.locks, e.e, |s.ledgers|);
      L.EventFollows(s.locks, Requests(jobs), |s.ledgers|, e.e);
    }
  }

  lemma EventKeepsInv(s: System, jobs: seq<Job>, e: Event)
    requires Inv(s, jobs) && Enabled(s, jobs, e)
    ensures Inv(Next(s, jobs, e), jobs)
  {
    LocksStaySafe(s, jobs, e);
    match e
    case Lock(le, slot) =>
      if le.StepOf? && Acted(s, jobs, le.p, slot) != s {
        if s.locks.procs[le.p].rest[0].Enter? { CheckKeeps(s, jobs, le.p, e); } else { ChargeKeeps(s, jobs, le.p, e); }
      } else {
        LockKeeps(s, jobs, e);
      }
    case Free(_, _, _, _, _) => FreeKeeps(s, jobs, e);
    case Unload(_, _, _) => UnloadKeeps(s, jobs, e);
    case Tick(_) => TickKeeps(s, jobs, e);
  }

  // ---- whole runs -------------------------------------------------------------------

  predicate Possible(s: System, jobs: seq<Job>, es: seq<Event>)
    requires Shaped(s, jobs)
    decreases |es|
  {
    es == [] || (Enabled(s, jobs, es[0]) && Shaped(Next(s, jobs, es[0]), jobs)
                 && Possible(Next(s, jobs, es[0]), jobs, es[1..]))
  }

  function After(s: System, jobs: seq<Job>, es: seq<Event>): (n: System)
    requires Shaped(s, jobs) && Possible(s, jobs, es)
    ensures Shaped(n, jobs)
    decreases |es|
  {
    if es == [] then s else After(Next(s, jobs, es[0]), jobs, es[1..])
  }

  /** No lock is taken, nobody has been looked at, and nothing is charged. */
  ghost predicate Starts(s: System, jobs: seq<Job>) {
    && Shaped(s, jobs) && DistinctIds(jobs) && L.Initial(s.locks, Requests(jobs), |s.ledgers|)
    && (forall p | 0 <= p < |jobs| :: s.stages[p] == Undecided)
    && forall r | 0 <= r < |s.ledgers| ::
         Runs.StaysInLimits(s.ledgers[r], s.now) && Balanced(s.ledgers[r]) && s.ledgers[r].consumers == map[]
  }

  lemma StartIsSafe(s: System, jobs: seq<Job>)
    requires Starts(s, jobs)
    ensures Inv(s, jobs)
  {
    L.InitialInv(s.locks, Requests(jobs), |s.ledgers|);
    forall p | 0 <= p < |jobs| ensures L.Follows(s.locks.procs[p], Requests(jobs)[p], |s.ledgers|) {
      L.ProgramFollows(Requests(jobs)[p], |s.ledgers|);
    }
    forall r: nat | r < |s.ledgers| ensures Healthy(s, jobs, r) {
      forall p: nat ensures FitsHere(s, jobs, p, r) { }
    }
  }

  lemma {:induction false} RunKeepsInv(s: System, jobs: seq<Job>, es: seq<Event>)
    requires Inv(s, jobs) && Possible(s, jobs, es)
    ensures Inv(After(s, jobs, es), jobs)
    decreases |es|
  {
    if es != [] {
      EventKeepsInv(s, jobs, es[0]);
      RunKeepsInv(Next(s, jobs, es[0]), jobs, es[1..]);
    }
  }

  /** Main result: with checks and charges as separate steps over any number of resources,
      jobs, cancellations and releases, every resource stays within its limits and its book
      says exactly what the jobs hold. The guards alone keep admissions apart. */
  lemma GuardedRunsAreSafe(start: System, jobs: seq<Job>, es: seq<Event>)
    requires Starts(start, jobs) && Possible(start, jobs, es)
    ensures var s := After(start, jobs, es);
      forall r: nat | r < |s.ledgers| :: Runs.StaysInLimits(s.ledgers[r], s.now) && BookIsExact(s, jobs, r)
  {
    StartIsSafe(start, jobs);
    RunKeepsInv(start, jobs, es);
    var s := After(start, jobs, es);
    forall r: nat | r < |s.ledgers| ensures Runs.StaysInLimits(s.ledgers[r], s.now) && BookIsExact(s, jobs, r) {
      assert Healthy(s, jobs, r);
    }
  }

  // ---- the locks run as if alone ----------------------------------------------------

  function LockEvents(es: seq<Event>): seq<L.Event> {
    if es == [] then [] else (if es[0].Lock? then [es[0].e] else []) + LockEvents(es[1..])
  }

  lemma {:induction false} LocksRunAlone(s: System, jobs: seq<Job>, es: seq<Event>)
    requires Shaped(s, jobs) && Possible(s, jobs, es)
    ensures L.Possible(s.locks, LockEvents(es)) && After(s, jobs, es).locks == L.After(s.locks, LockEvents(es))
    decreases |es|
  {
    if es != [] {
      var n, rest := Next(s, jobs, es[0]), LockEvents(es[1..]);
      LocksRunAlone(n, jobs, es[1..]);
      if es[0].Lock? {
        assert LockEvents(es) == [es[0].e] + rest;
        assert ([es[0].e] + rest)[1..] == rest;
        assert n.locks == L.Apply(s.locks, es[0].e);
      } else {
        assert LockEvents(es) == [] + rest == rest;
        assert n.locks == s.locks;
      }
    }
  }

  /** So admission with its checks and charges has no deadlock either. */
  lemma GuardedRunsProgress(start: System, jobs: seq<Job>, es: seq<Event>, p: nat)
    requires Starts(start, jobs) && Possible(start, jobs, es)
    requires var s := After(start, jobs, es); s.locks.leaked == {} && L.Unfinished(s.locks, p)
    ensures exists q :: Enabled(After(start, jobs, es), jobs, Lock(L.StepOf(q), true))
  {
    LocksRunAlone(start, jobs, es);
    L.NoDeadlock(start.locks, Requests(jobs), |start.ledgers|, LockEvents(es), p);
    var q :| L.CanStep(After(start, jobs, es).locks, q);
    assert Enabled(After(start, jobs, es), jobs, Lock(L.StepOf(q), true));
  }

  // ---- an admitted job is charged everywhere ----------------------------------------

  /** The lock of resource `r` is taken before any guard goes. */
  predicate Ahead(rest: seq<L.Action>, r: nat)
    decreases |rest|
  {
    rest != [] &&
    (rest[0] == L.Acquire(L.Leaf(r))
     || (!rest[0].Enter? && !(rest[0].Release? && rest[0].lock.Guard?) && Ahead(rest[1..], r)))
  }

  /** The same for a program that is not in its body yet. */
  predicate Promised(rest: seq<L.Action>, r: nat)
    decreases |rest|
  {
    rest != [] && if rest[0].Enter? then Ahead(rest[1..], r) else rest[0].Acquire? && Promised(rest[1..], r)
  }

  /** The guard of `r` is taken before the body. */
  predicate Coming(rest: seq<L.Action>, r: nat)
    decreases |rest|
  {
    rest != [] && rest[0].Acquire? && (rest[0].lock == L.Guard(r) || Coming(rest[1..], r))
  }

  lemma {:induction false} AheadMore(rest: seq<L.Action>, tail: seq<L.Action>, r: nat)
    requires Ahead(rest, r)
    ensures Ahead(rest + tail, r)
    decreases |rest|
  {
    assert (rest + tail)[1..] == rest[1..] + tail;
    if rest[0] != L.Acquire(L.Leaf(r)) { AheadMore(rest[1..], tail, r); }
  }

  lemma {:induction false} PromisedMore(rest: seq<L.Action>, tail: seq<L.Action>, r: nat)
    requires Promised(rest, r)
    ensures Promised(rest + tail, r)
    decreases |rest|
  {
    assert (rest + tail)[1..] == rest[1..] + tail;
    if rest[0].Enter? { AheadMore(rest[1..], tail, r); } else { PromisedMore(rest[1..], tail, r); }
  }

  lemma {:induction false} ComingMore(rest: seq<L.Action>, tail: seq<L.Action>, r: nat)
    requires Coming(rest, r)
    ensures Coming(rest + tail, r)
    decreases |rest|
  {
    assert (rest + tail)[1..] == rest[1..] + tail;
    if rest[0].lock != L.Guard(r) { ComingMore(rest[1..], tail, r); }
  }

  lemma {:induction false} BodyIsAhead(uses: seq<L.Use>, r: nat)
    requires L.UseLeaf(r) in uses
    ensures Ahead(L.Body(uses), r)
    decreases |uses|
  {
    var u, rest := uses[0], L.Body(uses[1..]);
    if u == L.UseLeaf(r) {
      assert L.Body(uses)[0] == L.Acquire(L.Leaf(r));
    } else {
      BodyIsAhead(uses[1..], r);
      if u.UseLeaf? {
        assert L.Body(uses)[1..] == [L.Release(L.Leaf(u.id))] + rest;
        assert ([L.Release(L.Leaf(u.id))] + rest)[1..] == rest;
      } else {
        assert L.Body(uses)[1..] == rest;
      }
    }
  }

  lemma {:induction false} NestPromises(ids: seq<nat>, inner: seq<L.Action>, r: nat)
    requires Promised(inner, r)
    ensures Promised(L.Nest(ids, inner), r)
    decreases |ids|
  {
    if ids != [] {
      var first, last := L.Acquire(L.Guard(ids[0])), L.Release(L.Guard(ids[0]));
      NestPromises(ids[1..], inner, r);
      assert ([first] + L.Nest(ids[1..], inner))[1..] == L.Nest(ids[1..], inner);
      PromisedMore([first] + L.Nest(ids[1..], inner), [last], r);
    }
  }

  lemma {:induction false} NestComes(ids: seq<nat>, inner: seq<L.Action>, r: nat)
    requires r in ids
    ensures Coming(L.Nest(ids, inner), r)
    decreases |ids|
  {
    var first, last := L.Acquire(L.Guard(ids[0])), L.Release(L.Guard(ids[0]));
    if r != ids[0] {
      NestComes(ids[1..], inner, r);
      assert ([first] + L.Nest(ids[1..], inner))[1..] == L.Nest(ids[1..], inner);
    }
    ComingMore([first] + L.Nest(ids[1..], inner), [last], r);
  }

  /** Every resource of the job is used in its body. */
  predicate UsesAll(j: Job) { forall r | r in j.reqs :: L.UseLeaf(r) in j.uses }

  lemma ProgramPromises(j: Job, n: nat, r: nat)
    requires UsesAll(j) && r in j.reqs
    ensures Promised(L.Program(L.Guarded(j.reqs.Keys, j.uses), n), r)
    ensures r < n ==> Coming(L.Program(L.Guarded(j.reqs.Keys, j.uses), n), r)
  {
    var sorted, inner := L.Sorted(j.reqs.Keys, n), [L.Enter] + L.Body(j.uses);
    BodyIsAhead(j.uses, r);
    assert inner[1..] == L.Body(j.uses);
    if sorted == [] {
      assert ([L.Acquire(L.Global)] + inner)[1..] == inner;
      PromisedMore([L.Acquire(L.Global)] + inner, [L.Release(L.Global)], r);
    } else {
      NestPromises(sorted, inner, r);
      if r < n { NestComes(sorted, inner, r); }
    }
  }

  /** What is still to come for a job that is not cancelled. */
  ghost predicate Due(s: System, jobs: seq<Job>, p: nat)
    requires Shaped(s, jobs) && p < |jobs|
  {
    var proc, reqs := s.locks.procs[p], jobs[p].reqs;
    match s.stages[p]
    case Undecided => forall r | r in reqs ::
      Promised(proc.rest, r) && (r < |s.ledgers| ==> L.Guard(r) in proc.held || Coming(proc.rest, r))
    case Refused => true
    case Admitted(taken, _) =>
      && taken <= reqs.Keys
      && forall r | r in reqs && r !in taken :: r < |s.ledgers| && L.Guard(r) in proc.held && Ahead(proc.rest, r)
  }

  lemma EventKeepsDue(s: System, jobs: seq<Job>, e: Event, p: nat)
    requires Shaped(s, jobs) && Enabled(s, jobs, e) && p < |jobs| && Due(s, jobs, p)
    requires e.Lock? ==> e.e != L.CancelOf(p)
    ensures Shaped(Next(s, jobs, e), jobs) && Due(Next(s, jobs, e), jobs, p)
  {
    if e.Lock? && e.e == L.StepOf(p) { StepKeepsDue(s, jobs, e, p); }
  }

  lemma StepKeepsDue(s: System, jobs: seq<Job>, e: Event, p: nat)
    requires Shaped(s, jobs) && Enabled(s, jobs, e) && p < |jobs| && Due(s, jobs, p)
    requires e.Lock? && e.e == L.StepOf(p)
    ensures Shaped(Next(s, jobs, e), jobs) && Due(Next(s, jobs, e), jobs, p)
  {
    var n, a := Next(s, jobs, e), s.locks.procs[p].rest[0];
    assert n.locks.procs[p] == L.Advance(s.locks.procs[p]);
    match s.stages[p]
    case Undecided =>
      forall r | r in jobs[p].reqs
        ensures Promised(s.locks.procs[p].rest, r)
        ensures r < |s.ledgers| ==> L.Guard(r) in s.locks.procs[p].held || Coming(s.locks.procs[p].rest, r) { }
    case Refused =>
    case Admitted(taken, _) =>
      forall r | r in jobs[p].reqs && r !in taken
        ensures L.Guard(r) in s.locks.procs[p].held && Ahead(s.locks.procs[p].rest, r) { }
  }

  lemma {:induction false} RunKeepsDue(s: System, jobs: seq<Job>, es: seq<Event>, p: nat)
    requires Shaped(s, jobs) && Possible(s, jobs, es) && p < |jobs| && Due(s, jobs, p)
    requires forall i | 0 <= i < |es| && es[i].Lock? :: es[i].e != L.CancelOf(p)
    ensures Due(After(s, jobs, es), jobs, p)
    decreases |es|
  {
    if es != [] {
      EventKeepsDue(s, jobs, es[0], p);
      RunKeepsDue(Next(s, jobs, es[0]), jobs, es[1..], p);
    }
  }

  /** A job that was admitted and not cancelled has, at the end of its program, been charged to
      every one of its resources: nothing is admitted in part. */
  lemma AdmittedIsChargedEverywhere(start: System, jobs: seq<Job>, es: seq<Event>, p: nat)
    requires Starts(start, jobs) && Possible(start, jobs, es) && p < |jobs| && UsesAll(jobs[p])
    requires forall i | 0 <= i < |es| && es[i].Lock? :: es[i].e != L.CancelOf(p)
    requires After(start, jobs, es).locks.procs[p].rest == [] && After(start, jobs, es).stages[p].Admitted?
    ensures After(start, jobs, es).stages[p].taken == jobs[p].reqs.Keys
  {
    forall r | r in jobs[p].reqs
      ensures Promised(start.locks.procs[p].rest, r) && (r < |start.ledgers| ==> Coming(start.locks.procs[p].rest, r)) {
      ProgramPromises(jobs[p], |start.ledgers|, r);
    }
    RunKeepsDue(start, jobs, es, p);
  }
}
