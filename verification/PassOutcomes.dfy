/** What becomes of each task in a pass, told from what the pass sees and from the task's
    history of refusals, without the scheduler's own decision (core/scheduler.py, `run`). */
module PassOutcomes {
  import opened Basics
  import opened Sequences
  import opened TaskQueue
  import opened SchedulerPass
  import R = RemoteRefusals

  /** A retry time that has not come yet; zero means none. */
  predicate Rests(f: Frame, id: Id) { RetryOf(f.retryAt, id) > f.look(id).now && RetryOf(f.retryAt, id) != 0.0 }

  /** The task gets to the question whether its provider takes it. */
  predicate Asks(f: Frame, id: Id) {
    var o := f.look(id);
    !o.expired && !Rests(f, id) && o.hasWorker && o.measured
  }

  function RefusalOf(o: Obs): R.Refused
    requires o.remote.Refused?
  {
    R.Refused.Refused(o.remote.kind, o.remote.target, o.remote.reroute, o.now)
  }

  /** There is room at once or, where unloading helps, after it; and the reservation holds. */
  predicate GetsRoom(l: Local) {
    match l
    case Parallel(first, after, reserved) =>
      reserved && (first.admissible || (first.waitingUnload && after.admissible))
    case Single(free, reusable, unloadHelps, freeAfter, reserved) =>
      reserved && (free || reusable || (unloadHelps && freeAfter))
    case Unmanaged => true
  }

  /** Unloading should have helped and did not. */
  predicate UnloadFell(l: Local) {
    l.Single? && !l.free && !l.reusable && l.unloadHelps && !l.freeAfterUnload
  }

  /** Too long in the queue, or refused for the fifth time that counts. `life` are the
      refusals of the task since its tracking was last dropped. */
  predicate Fails(f: Frame, life: seq<R.Refused>, id: Id) {
    var o := f.look(id);
    o.expired || (Asks(f, id) && o.remote.Refused? && R.Ending(life, RefusalOf(o), f.grace))
  }

  predicate Goes(f: Frame, id: Id) { Asks(f, id) && f.look(id).remote.Fine? && GetsRoom(f.look(id).local) }

  /** When a task that neither fails nor goes is looked at again. */
  function NextLook(f: Frame, life: seq<R.Refused>, id: Id): real {
    var o := f.look(id);
    if Rests(f, id) || !o.hasWorker then RetryOf(f.retryAt, id)
    else if !o.measured then o.now + 1.0
    else if o.remote.Refused? then if R.Detours(Untracked(), life, RefusalOf(o)) then 0.0 else o.now + 1.0
    else if UnloadFell(o.local) then o.now + 5.0
    else o.now + 1.0
  }

  lemma RefusalDecides(h: seq<R.RouteEvent>, r: R.Refused, grace: real)
    ensures var d, life := R.Answer(R.Remembered(h, grace), r, grace).decision, R.Life(h, grace);
      && (d.Fail? <==> R.Ending(life, r, grace))
      && (!d.Fail? ==> d == Defer(if R.Detours(Untracked(), life, r) then 0.0 else r.now + 1.0))
  {
    R.RefusalEndsLifeIff(h, r, grace);
    R.RememberedIsLife(h, grace);
    var t, life := R.Remembered(h, grace), R.Life(h, grace);
    var none: set<Target> := {};
    assert Avoided(t, r.kind, r.target) == none + R.Incapable(life) + if r.kind == Unreachable then {r.target} else {};
  }

  /** Main result: what a pass decides about a known task, case by case. */
  lemma DecidedIff(f: Frame, h: seq<R.RouteEvent>, id: Id)
    requires id in f.memory && TrackingOf(f.tracking, id) == R.Remembered(h, f.grace)
    ensures var d, life := Of(f, id).decision, R.Life(h, f.grace);
      && (d.Fail? <==> Fails(f, life, id)) && (d.Dispatch? <==> Goes(f, id))
      && (d.Dispatch? ==> (d.holds <==> !f.look(id).local.Unmanaged?))
      && (!Fails(f, life, id) && !Goes(f, id) ==> d == Defer(NextLook(f, life, id)))
  {
    var o := f.look(id);
    if o.remote.Refused? { RefusalDecides(h, RefusalOf(o), f.grace); }
  }

  /** Where each task is after the pass. */
  ghost predicate Placed(s: Store, n: Store, f: Frame, lives: Id -> seq<R.Refused>, kind: Kind, order: seq<Id>,
                         now: real) {
    && (forall id | id in order && Fails(f, lives(id), id) :: FailedIn(n, id))
    && (forall id | id in order && Goes(f, id) :: id in f.memory && Popped(n, kind, id, f.memory[id]))
    && (forall id | id in order && !Fails(f, lives(id), id) && !Goes(f, id) ::
          id in f.memory && Waits(n, kind, id, f.memory[id], now))
    && (forall other: Id | other !in order :: Seen(n, other) == Seen(s, other))
  }

  /** Main result: in every pass a task fails exactly if it expired or met the refusal that
      ends its life, is handed to its run exactly if it got past every test and got room, and
      is back in its queue in all other cases. */
  lemma PassPlaces(s: Store, held: set<Id>, f: Frame, histories: Id -> seq<R.RouteEvent>, kind: Kind, order: seq<Id>,
                   now: real)
    requires AllSettled(s, held) && kind != OtherKind && f.memory == s.memory
    requires Distinct(order) && forall id: Id :: id in order <==> id in QueueOf(s, kind)
    requires forall id: Id | id in order :: TrackingOf(f.tracking, id) == R.Remembered(histories(id), f.grace)
    ensures Placed(s, After(s, PassOps(f, kind, order, now)), f, id => R.Life(histories(id), f.grace), kind, order, now)
  {
    PassConserves(s, held, f, kind, order, now);
    forall id | id in order
      ensures var d, life := Of(f, id).decision, R.Life(histories(id), f.grace);
        && (d.Fail? <==> Fails(f, life, id)) && (d.Dispatch? <==> Goes(f, id)) && !d.Vanish?
    {
      WaitingIsQueued(s, held, kind, id);
      DecidedIff(f, histories(id), id);
    }
  }

  /** After a pass: what is remembered of each task, for the next one. A task that was put
      back rests until the time above; the history has grown by what the pass saw. */
  lemma PassRemembers(f: Frame, histories: Id -> seq<R.RouteEvent>, order: seq<Id>, retries: map<Id, real>,
                      tracked: map<Id, Tracking>, id: Id)
    requires Aligned(f, order, retries, tracked) && id in order && id in f.memory
    requires TrackingOf(f.tracking, id) == R.Remembered(histories(id), f.grace)
    ensures var life := R.Life(histories(id), f.grace);
      RetryOf(retries, id) ==
        if Fails(f, life, id) || Goes(f, id) then RetryOf(f.retryAt, id) else NextLook(f, life, id)
    ensures TrackingOf(tracked, id) ==
      R.Remembered(histories(id) + R.EventsOf(true, RetryOf(f.retryAt, id), f.look(id)), f.grace)
  {
    DecidedIff(f, histories(id), id);
    R.DecisionExtendsHistory(histories(id), true, RetryOf(f.retryAt, id), f.look(id), f.grace);
  }
}
