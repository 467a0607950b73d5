/** One scheduler pass against the resource registry (core/scheduler.py, lines 196-343). What
    the pass observes is here what the registry answers, and what it does are the events of
    `AdmissionRuns`. The events of other runs may fall between any two steps. */
module PassAdmission {
  import opened Basics
  import opened ResourceLedger
  import opened AdmissionRuns
  import Adm = ModelAdmission
  import P = SchedulerPass
  import Q = TaskQueue

  /** What one task asks of the registry under its run id. `meanwhile` are events of other
      runs before its turn, `unloads` those of a forced unload, and `during` those of other
      runs between the checks and the reservation. */
  datatype Ask = Ask(run: RunId, reqs: Adm.Requirements, key: ModelKey,
                     meanwhile: seq<Event>, unloads: seq<Event>, during: seq<Event>)

  predicate Parallel(s: Setup, a: Ask) { a.key.model != Unnamed && Adm.Maximum(s.cfg, a.key) > 1 }

  predicate Managed(a: Ask) { a.reqs != map[] || a.key.model != Unnamed }

  function Verdict(s: Setup, w: World, k: ModelKey): P.Verdict {
    var d := Adm.Evaluate(w.reg, s.cfg, BaseOf(s, k), k, w.now);
    P.Verdict(d.now, d.reason == Adm.WaitingUnload)
  }

  predicate Free(w: World, a: Ask) { Adm.CheckAvailable(w.reg.ledgers, a.reqs, w.now) }

  predicate Reusable(w: World, a: Ask) { Adm.CheckAvailableForReuse(w.reg.ledgers, a.reqs, a.key, w.now) }

  predicate UnloadHelps(w: World, a: Ask) { Adm.CheckAvailableAfterUnload(w.reg.ledgers, a.reqs) }

  /** The checks ask for idle models to be unloaded. */
  predicate Unloads(s: Setup, w: World, a: Ask) {
    if Parallel(s, a) then !Verdict(s, w, a.key).admissible && Verdict(s, w, a.key).waitingUnload
    else Managed(a) && !Free(w, a) && !Reusable(w, a) && UnloadHelps(w, a)
  }

  /** A task that needs nothing is a plain run that holds nothing. */
  function Admission(s: Setup, a: Ask): Event {
    if Parallel(s, a) then AdmitSession(a.run, a.key) else AdmitPlain(a.run, a.reqs, a.key)
  }

  /** The checks let the pass reserve: `w` is seen by the checks, `unloaded` after an unload. */
  predicate Asks(s: Setup, w: World, unloaded: World, a: Ask) {
    if Parallel(s, a) then
      if Unloads(s, w, a) then Verdict(s, unloaded, a.key).admissible else Verdict(s, w, a.key).admissible
    else Managed(a) ==> Free(w, a) || Reusable(w, a) || (UnloadHelps(w, a) && Free(unloaded, a))
  }

  /** What the pass observes when it looks at `w`, `unloaded` and, for the reservation, `reserve`. */
  function LocalOf(s: Setup, w: World, unloaded: World, reserve: World, a: Ask): P.Local {
    var reserved := Effective(s, reserve, Admission(s, a));
    if Parallel(s, a) then P.Local.Parallel(Verdict(s, w, a.key), Verdict(s, unloaded, a.key), reserved)
    else if Managed(a) then P.Single(Free(w, a), Reusable(w, a), UnloadHelps(w, a), Free(unloaded, a), reserved)
    else P.Unmanaged
  }

  lemma DispatchIsAdmission(s: Setup, w: World, unloaded: World, reserve: World, a: Ask, now: real)
    ensures P.Admit(LocalOf(s, w, unloaded, reserve, a), now).Dispatch? <==>
      Asks(s, w, unloaded, a) && Effective(s, reserve, Admission(s, a))
  {
    if !Parallel(s, a) && !Managed(a) { assert Adm.CheckAvailable(reserve.reg.ledgers, map[], reserve.now); }
  }

  // ---- one task ---------------------------------------------------------------------

  /** Events of other runs: only this scheduler admits. */
  predicate Quiet(e: Event) { !e.AdmitPlain? && !e.AdmitSession? }

  predicate AllQuiet(es: seq<Event>) { forall i | 0 <= i < |es| :: Quiet(es[i]) }

  /** The checks that come before admission have passed. */
  predicate Reaches(f: P.Frame, id: Q.Id) {
    var o, retry := f.look(id), P.RetryOf(f.retryAt, id);
    && id in f.memory && !o.expired && (retry == 0.0 || retry <= o.now) && o.hasWorker && o.measured && o.remote.Fine?
  }

  function UnloadEvents(s: Setup, w: World, a: Ask): seq<Event> { if Unloads(s, w, a) then a.unloads else [] }

  /** Other runs are where they can be, the run id is new, and a parallel model has a base. */
  predicate Proceeds(s: Setup, w: World, a: Ask) {
    && Possible(s, w, a.meanwhile) && AllQuiet(a.meanwhile) && AllQuiet(a.unloads) && AllQuiet(a.during)
    && (var checked := After(s, w, a.meanwhile);
        && Possible(s, checked, UnloadEvents(s, checked, a))
        && (var unloaded := After(s, checked, UnloadEvents(s, checked, a));
            && Possible(s, unloaded, a.during)
            && Enabled(s, After(s, unloaded, a.during), Admission(s, a))))
  }

  function Checked(s: Setup, w: World, a: Ask): World
    requires Proceeds(s, w, a)
  {
    After(s, w, a.meanwhile)
  }

  function Unloaded(s: Setup, w: World, a: Ask): World
    requires Proceeds(s, w, a)
  {
    After(s, Checked(s, w, a), UnloadEvents(s, Checked(s, w, a), a))
  }

  function Reserving(s: Setup, w: World, a: Ask): World
    requires Proceeds(s, w, a)
  {
    After(s, Unloaded(s, w, a), a.during)
  }

  /** What happens from the end of the previous task's turn to the end of this one's. */
  function TurnEvents(s: Setup, w: World, reaches: bool, a: Ask): seq<Event>
    requires Proceeds(s, w, a)
  {
    if !reaches then a.meanwhile
    else if !Asks(s, Checked(s, w, a), Unloaded(s, w, a), a) then a.meanwhile + UnloadEvents(s, Checked(s, w, a), a)
    else a.meanwhile + (UnloadEvents(s, Checked(s, w, a), a) + (a.during + [Admission(s, a)]))
  }

  /** The runs that were admitted, in order. */
  function Admitted(s: Setup, w: World, events: seq<Event>): seq<RunId>
    requires Possible(s, w, events)
    decreases |events|
  {
    if events == [] then []
    else (if !Quiet(events[0]) && Effective(s, w, events[0]) then [Subject(events[0])] else [])
         + Admitted(s, Next(s, w, events[0]), events[1..])
  }

  lemma {:induction false} Chain(s: Setup, w: World, a: seq<Event>, b: seq<Event>)
    requires Possible(s, w, a) && Possible(s, After(s, w, a), b)
    ensures Possible(s, w, a + b) && After(s, w, a + b) == After(s, After(s, w, a), b)
    ensures Admitted(s, w, a + b) == Admitted(s, w, a) + Admitted(s, After(s, w, a), b)
    decreases |a|
  {
    if a == [] {
      assert a + b == b;
    } else {
      assert (a + b)[0] == a[0] && (a + b)[1..] == a[1..] + b;
      Chain(s, Next(s, w, a[0]), a[1..], b);
    }
  }

  lemma {:induction false} QuietAdmitsNobody(s: Setup, w: World, events: seq<Event>)
    requires Possible(s, w, events) && AllQuiet(events)
    ensures Admitted(s, w, events) == []
    decreases |events|
  {
    if events != [] { QuietAdmitsNobody(s, Next(s, w, events[0]), events[1..]); }
  }

  lemma OneAdmission(s: Setup, w: World, a: Ask)
    requires Enabled(s, w, Admission(s, a))
    ensures Possible(s, w, [Admission(s, a)])
    ensures Admitted(s, w, [Admission(s, a)]) == if Effective(s, w, Admission(s, a)) then [a.run] else []
  {
    var e := Admission(s, a);
    assert [e][1..] == [];
    assert Admitted(s, Next(s, w, e), []) == [];
  }

  /** One turn admits the run exactly when the pass dispatches the task. */
  lemma TurnAdmits(s: Setup, w: World, reaches: bool, a: Ask, now: real)
    requires Proceeds(s, w, a)
    ensures var local := LocalOf(s, Checked(s, w, a), Unloaded(s, w, a), Reserving(s, w, a), a);
      && Possible(s, w, TurnEvents(s, w, reaches, a))
      && Admitted(s, w, TurnEvents(s, w, reaches, a)) ==
        if reaches && P.Admit(local, now).Dispatch? then [a.run] else []
  {
    var checked, unloaded, reserve := Checked(s, w, a), Unloaded(s, w, a), Reserving(s, w, a);
    var unloads, e := UnloadEvents(s, checked, a), Admission(s, a);
    DispatchIsAdmission(s, checked, unloaded, reserve, a, now);
    QuietAdmitsNobody(s, w, a.meanwhile);
    QuietAdmitsNobody(s, checked, unloads);
    Chain(s, w, a.meanwhile, unloads);
    if reaches && Asks(s, checked, unloaded, a) {
      QuietAdmitsNobody(s, unloaded, a.during);
      OneAdmission(s, reserve, a);
      Chain(s, unloaded, a.during, [e]);
      Chain(s, checked, unloads, a.during + [e]);
      Chain(s, w, a.meanwhile, unloads + (a.during + [e]));
    }
  }

  // ---- the pass ---------------------------------------------------------------------

  /** The registry gives the answers the pass observed, turn by turn. */
  predicate Answers(s: Setup, w: World, f: P.Frame, asks: Q.Id -> Ask, order: seq<Q.Id>)
    decreases |order|
  {
    order == [] ||
    (var id := order[0];
     var a := asks(id);
     && Proceeds(s, w, a)
     && (Reaches(f, id) ==> f.look(id).local == LocalOf(s, Checked(s, w, a), Unloaded(s, w, a), Reserving(s, w, a), a))
     && (TurnAdmits(s, w, Reaches(f, id), a, f.look(id).now);
         Answers(s, After(s, w, TurnEvents(s, w, Reaches(f, id), a)), f, asks, order[1..])))
  }

  function PassEvents(s: Setup, w: World, f: P.Frame, asks: Q.Id -> Ask, order: seq<Q.Id>): seq<Event>
    requires Answers(s, w, f, asks, order)
    decreases |order|
  {
    if order == [] then []
    else
      var turn := TurnEvents(s, w, Reaches(f, order[0]), asks(order[0]));
      TurnAdmits(s, w, Reaches(f, order[0]), asks(order[0]), f.look(order[0]).now);
      turn + PassEvents(s, After(s, w, turn), f, asks, order[1..])
  }

  function RunsOf(asks: Q.Id -> Ask, ids: seq<Q.Id>): seq<RunId> {
    if ids == [] then [] else [asks(ids[0]).run] + RunsOf(asks, ids[1..])
  }

  lemma DecisionIsAdmit(f: P.Frame, id: Q.Id)
    ensures P.Of(f, id).decision.Dispatch? <==> Reaches(f, id) && P.Admit(f.look(id).local, f.look(id).now).Dispatch?
  {
  }

  /** Main result: whatever other runs do meanwhile, a pass admits exactly the runs of the tasks
      it dispatches, in order. So a deferred task holds nothing, and a dispatched one is booked. */
  lemma {:induction false} DeferredHoldsNothing(s: Setup, w: World, f: P.Frame, asks: Q.Id -> Ask, order: seq<Q.Id>)
    requires Inv(s, w) && Answers(s, w, f, asks, order)
    ensures var events := PassEvents(s, w, f, asks, order);
      && Possible(s, w, events) && Inv(s, After(s, w, events))
      && Admitted(s, w, events) == RunsOf(asks, P.Dispatched(f, order))
    decreases |order|
  {
    if order != [] {
      var id, a := order[0], asks(order[0]);
      var turn := TurnEvents(s, w, Reaches(f, id), a);
      TurnAdmits(s, w, Reaches(f, id), a, f.look(id).now);
      DecisionIsAdmit(f, id);
      EveryRunKeepsInv(s, w, turn);
      var next := After(s, w, turn);
      DeferredHoldsNothing(s, next, f, asks, order[1..]);
      Chain(s, w, turn, PassEvents(s, next, f, asks, order[1..]));
      EveryRunKeepsInv(s, w, PassEvents(s, w, f, asks, order));
      DispatchedCons(f, asks, order);
    }
  }

  lemma DispatchedCons(f: P.Frame, asks: Q.Id -> Ask, order: seq<Q.Id>)
    requires order != []
    ensures RunsOf(asks, P.Dispatched(f, order)) ==
      (if P.Of(f, order[0]).decision.Dispatch? then [asks(order[0]).run] else [])
      + RunsOf(asks, P.Dispatched(f, order[1..]))
  {
    var rest := P.Dispatched(f, order[1..]);
    assert ([order[0]] + rest)[1..] == rest;
  }

  // ---- a pass alone -----------------------------------------------------------------

  /** Unloads and the passing of time. */
  predicate Calm(e: Event) { e.Evict? || e.Wait? }

  /** Only admissions, unloads and the passing of time. */
  predicate Alone(events: seq<Event>) { forall i | 0 <= i < |events| :: Calm(events[i]) || !Quiet(events[i]) }

  /** No book, count or slot differs: at most idle models were unloaded. */
  predicate SameBooks(reg: Adm.Registry, reg': Adm.Registry) {
    && reg'.active == reg.active && reg'.slots == reg.slots && reg'.slotOwners == reg.slotOwners
    && reg'.ledgers.Keys == reg.ledgers.Keys
    && forall r | r in reg.ledgers ::
         reg'.ledgers[r].used == reg.ledgers[r].used && reg'.ledgers[r].consumers == reg.ledgers[r].consumers
  }

  lemma CalmStep(s: Setup, w: World, e: Event)
    requires Enabled(s, w, e) && Calm(e)
    ensures Next(s, w, e).runs == w.runs && SameBooks(w.reg, Next(s, w, e).reg)
  {
  }

  lemma RefusedStep(s: Setup, w: World, e: Event)
    requires Inv(s, w) && Enabled(s, w, e) && !Quiet(e) && !Effective(s, w, e)
    ensures Next(s, w, e) == w
  {
    if e.AdmitPlain? { RefusalHoldsNothing(s, w, e.id, e.reqs, e.key); }
  }

  lemma AdmissionStep(s: Setup, w: World, e: Event)
    requires Enabled(s, w, e) && !Quiet(e) && Effective(s, w, e)
    ensures var runs := Next(s, w, e).runs;
      && (forall id :: id in runs <==> id in w.runs || id == Subject(e))
      && (forall id | id in w.runs :: runs[id] == w.runs[id])
  {
    NextMaps(s, w, e);
  }

  /** The runs are the old ones and the given ones. */
  ghost predicate Adds(runs: map<RunId, Live>, runs': map<RunId, Live>, ids: seq<RunId>) {
    && (forall id :: id in runs' <==> id in runs || id in ids)
    && (forall id | id in runs :: runs'[id] == runs[id])
  }

  lemma AddsMore(runs: map<RunId, Live>, mid: map<RunId, Live>, runs': map<RunId, Live>, id: RunId, ids: seq<RunId>)
    requires Adds(runs, mid, [id]) && Adds(mid, runs', ids)
    ensures Adds(runs, runs', [id] + ids)
  {
  }

  /** The live runs afterwards are the ones before and the admitted ones; if nobody was
      admitted, nothing is held that was not held before. */
  lemma {:induction false} AloneAddsAdmitted(s: Setup, w: World, events: seq<Event>)
    requires Inv(s, w) && Possible(s, w, events) && Alone(events)
    ensures Adds(w.runs, After(s, w, events).runs, Admitted(s, w, events))
    ensures Admitted(s, w, events) == [] ==> SameBooks(w.reg, After(s, w, events).reg)
    decreases |events|
  {
    if events != [] {
      var e, rest := events[0], events[1..];
      var next := Next(s, w, e);
      StepKeepsInv(s, w, e);
      AloneAddsAdmitted(s, next, rest);
      if Calm(e) {
        CalmStep(s, w, e);
      } else if !Effective(s, w, e) {
        RefusedStep(s, w, e);
      } else {
        AdmissionStep(s, w, e);
        AddsMore(w.runs, next.runs, After(s, next, rest).runs, Subject(e), Admitted(s, next, rest));
      }
    }
  }

  /** A pass during which no other run moves leaves the old runs and the dispatched ones, and
      the books say exactly what those hold; a pass that dispatches nothing changes no book. */
  lemma PassAddsDispatched(s: Setup, w: World, f: P.Frame, asks: Q.Id -> Ask, order: seq<Q.Id>)
    requires Inv(s, w) && Answers(s, w, f, asks, order) && Alone(PassEvents(s, w, f, asks, order))
    ensures var events := PassEvents(s, w, f, asks, order);
      && Possible(s, w, events)
      && (var end := After(s, w, events);
          && Inv(s, end)
          && Adds(w.runs, end.runs, RunsOf(asks, P.Dispatched(f, order)))
          && (P.Dispatched(f, order) == [] ==> SameBooks(w.reg, end.reg)))
  {
    DeferredHoldsNothing(s, w, f, asks, order);
    AloneAddsAdmitted(s, w, PassEvents(s, w, f, asks, order));
  }
}
