/** One pass of the scheduler over the queue of one task type (core/scheduler.py, `run` and
    `_handle_remote_refusal`). Probes, clocks, route refreshes and the answers of the
    resource registry are observations; what the pass does with them is modelled. */
module SchedulerPass {
  import opened Basics
  import opened Sequences
  import opened TaskQueue

  datatype Target = Target(provider: Name, model: Name)

  datatype Refusal = Capacity | Unreachable

  /** `reroute` says whether a route refresh that avoids the given targets moves the task. */
  datatype Remote = Fine | Refused(kind: Refusal, target: Target, reroute: set<Target> -> bool)

  datatype Verdict = Verdict(admissible: bool, waitingUnload: bool)

  /** Parallel models, models that take one request at a time (or plain resources), and tasks
      that need neither. `reserved` is the answer of the reservation, if it is asked. */
  datatype Local =
    | Parallel(first: Verdict, afterUnload: Verdict, reserved: bool)
    | Single(free: bool, reusable: bool, unloadHelps: bool, freeAfterUnload: bool, reserved: bool)
    | Unmanaged

  datatype Obs = Obs(now: real, expired: bool, hasWorker: bool, measured: bool, remote: Remote, local: Local)

  datatype Tracking = Tracking(blocked: set<Target>, count: nat, graceSince: Option<real>)

  /** `holds` says whether a reservation was made for the task. */
  datatype Decision = Vanish | Fail | Defer(retryAt: real) | Dispatch(holds: bool)

  datatype Step = Step(decision: Decision, tracking: Tracking)

  const MAX_REMOTE_REFUSALS := 5

  function Untracked(): Tracking { Tracking({}, 0, None) }

  // ---- remote refusals --------------------------------------------------------------

  /** The targets a refresh after this refusal avoids. The set is taken before the refusing
      target is added to the blocked ones. */
  function Avoided(t: Tracking, kind: Refusal, target: Target): set<Target> {
    if kind == Capacity then t.blocked else t.blocked + {target}
  }

  function Refuse(t: Tracking, kind: Refusal, target: Target, reroute: set<Target> -> bool, now: real,
                  grace: real): Step {
    var noted := if kind == Capacity then t.(blocked := t.blocked + {target}) else t;
    if reroute(Avoided(t, kind, target)) then Step(Defer(0.0), noted.(count := 0))
    else if kind == Unreachable then Step(Defer(now + 1.0), noted)
    else
      var started := if grace > 0.0 && noted.graceSince.None? then noted.(graceSince := Some(now)) else noted;
      if grace > 0.0 && now - started.graceSince.value < grace then Step(Defer(now + 1.0), started)
      else if started.count + 1 >= MAX_REMOTE_REFUSALS then Step(Fail, Untracked())
      else Step(Defer(now + 1.0), started.(count := started.count + 1))
  }

  // ---- one task ---------------------------------------------------------------------

  function Admit(local: Local, now: real): Decision {
    match local
    case Parallel(first, after, reserved) =>
      var verdict := if !first.admissible && first.waitingUnload then after else first;
      if !verdict.admissible || !reserved then Defer(now + 1.0) else Dispatch(true)
    case Single(free, reusable, unloadHelps, freeAfter, reserved) =>
      if !free && !reusable && !unloadHelps then Defer(now + 1.0)
      else if !free && !reusable && !freeAfter then Defer(now + 5.0)
      else if !reserved then Defer(now + 1.0)
      else Dispatch(true)
    case Unmanaged => Dispatch(false)
  }

  function Decide(known: bool, retryAt: real, t: Tracking, o: Obs, grace: real): Step {
    if !known then Step(Vanish, t)
    else if o.expired then Step(Fail, t)
    else if retryAt > o.now && retryAt != 0.0 then Step(Defer(retryAt), t)
    else if !o.hasWorker then Step(Defer(retryAt), t)
    else if !o.measured then Step(Defer(o.now + 1.0), t)
    else if o.remote.Refused? then Refuse(t, o.remote.kind, o.remote.target, o.remote.reroute, o.now, grace)
    else Step(Admit(o.local, o.now), t)
  }

  function TrackingOf(m: map<Id, Tracking>, id: Id): Tracking { if id in m then m[id] else Untracked() }

  function RetryOf(m: map<Id, real>, id: Id): real { if id in m then m[id] else 0.0 }

  // ---- the pass ---------------------------------------------------------------------

  /** What the pass sees and remembers at its start. */
  datatype Frame = Frame(memory: map<Id, Hash>, retryAt: map<Id, real>, tracking: map<Id, Tracking>, look: Id -> Obs,
    grace: real)

  function Of(f: Frame, id: Id): Step {
    Decide(id in f.memory, RetryOf(f.retryAt, id), TrackingOf(f.tracking, id), f.look(id), f.grace)
  }

  function Deferred(f: Frame, order: seq<Id>): seq<Id> {
    if order == [] then []
    else if Of(f, order[0]).decision.Defer? then [order[0]] + Deferred(f, order[1..])
    else Deferred(f, order[1..])
  }

  function Dispatched(f: Frame, order: seq<Id>): seq<Id> {
    if order == [] then []
    else if Of(f, order[0]).decision.Dispatch? then [order[0]] + Dispatched(f, order[1..])
    else Dispatched(f, order[1..])
  }

  function OpsFor(kind: Kind, id: Id, decision: Decision, now: real): seq<Timed> {
    if decision.Fail? then [Timed(Pop(id, kind), now)] + [Timed(Mark(id, Failed), now)] else [Timed(Pop(id, kind), now)]
  }

  /** The queue operations of popping and deciding. */
  function Pops(f: Frame, kind: Kind, order: seq<Id>): seq<Timed> {
    if order == [] then []
    else OpsFor(kind, order[0], Of(f, order[0]).decision, f.look(order[0]).now) + Pops(f, kind, order[1..])
  }

  /** The queue operations of putting the deferred tasks back. */
  function ReAdds(f: Frame, deferred: seq<Id>, now: real): seq<Timed>
    requires forall i | 0 <= i < |deferred| :: deferred[i] in f.memory
  {
    if deferred == [] then [] else [Timed(Add(deferred[0], f.memory[deferred[0]]), now)] + ReAdds(f, deferred[1..], now)
  }

  lemma {:induction false} DeferredAreKnown(f: Frame, order: seq<Id>)
    ensures forall i | 0 <= i < |Deferred(f, order)| ::
      Deferred(f, order)[i] in f.memory && Deferred(f, order)[i] in order
    decreases |order|
  {
    if order != [] {
      DeferredAreKnown(f, order[1..]);
      var rest := Deferred(f, order[1..]);
      if Of(f, order[0]).decision.Defer? {
        forall i | 0 <= i < |Deferred(f, order)|
          ensures Deferred(f, order)[i] in f.memory && Deferred(f, order)[i] in order {
          if i > 0 { assert Deferred(f, order)[i] == rest[i - 1]; }
        }
      }
    }
  }

  // ---- the store under a pass -------------------------------------------------------

  /** The members of the queue of `kind` and their places in it. */
  predicate Lists(s: Store, kind: Kind, order: seq<Id>) {
    Distinct(order) && forall i | 0 <= i < |order| :: order[i] in QueueOf(s, kind)
  }

  predicate Known(s: Store, f: Frame, order: seq<Id>) {
    forall i | 0 <= i < |order| :: order[i] in f.memory && Seen(s, order[i]).memory == Some(f.memory[order[i]])
  }

  /** The memory entry of a task that waits in the queue is its persisted hash. */
  lemma WaitingIsQueued(s: Store, held: set<Id>, kind: Kind, id: Id)
    requires AllSettled(s, held) && kind != OtherKind && id in QueueOf(s, kind)
    ensures id in s.memory && id in s.hashes && s.memory[id] == s.hashes[id] && id !in held
    ensures s.hashes[id].status == Queued && s.hashes[id].kind == kind
  {
    assert Settled(Seen(s, id), id in held);
  }

  /** The view of a task right after it was popped. */
  predicate Popped(s: Store, kind: Kind, id: Id, task: Hash) {
    var v := Seen(s, id);
    v.hash == v.memory == Some(task) && task.status == Queued && task.kind == kind && v.agent.None? && v.tool.None?
  }

  lemma PopOne(s: Store, held: set<Id>, kind: Kind, id: Id, now: real)
    requires AllSettled(s, held) && kind != OtherKind && id in QueueOf(s, kind)
    ensures var t := Timed(Pop(id, kind), now);
      && Allowed(Seen(s, id), id in held, t.op)
      && AllSettled(Apply(s, t), held + {id}) && Popped(Apply(s, t), kind, id, s.memory[id])
      && (forall other | other != id :: Seen(Apply(s, t), other) == Seen(s, other))
  {
    WaitingIsQueued(s, held, kind, id);
    var t := Timed(Pop(id, kind), now);
    forall other: Id ensures other != id ==> Seen(Apply(s, t), other) == Seen(s, other)
      ensures Settled(Seen(Apply(s, t), other), other in held + {id})
    {
      PutIsLocal(s, id, Viewed(Seen(s, id), t.op, now), other);
      OpSettles(Seen(s, id), false, t.op, now);
    }
  }

  lemma FailOne(s: Store, held: set<Id>, id: Id, now: real)
    requires AllSettled(s, held) && id in held
    ensures var t := Timed(Mark(id, Failed), now);
      && Allowed(Seen(s, id), true, t.op) && AllSettled(Apply(s, t), held - {id})
      && (forall other | other != id :: Seen(Apply(s, t), other) == Seen(s, other))
      && FailedIn(Apply(s, t), id)
  {
    assert Settled(Seen(s, id), true);
    var t := Timed(Mark(id, Failed), now);
    forall other: Id ensures other != id ==> Seen(Apply(s, t), other) == Seen(s, other)
      ensures Settled(Seen(Apply(s, t), other), other in held - {id})
    {
      PutIsLocal(s, id, Viewed(Seen(s, id), t.op, now), other);
      OpSettles(Seen(s, id), true, t.op, now);
    }
  }

  lemma AddOne(s: Store, held: set<Id>, kind: Kind, id: Id, task: Hash, now: real)
    requires AllSettled(s, held) && id in held && kind != OtherKind && Popped(s, kind, id, task)
    ensures var t := Timed(Add(id, task), now);
      && Allowed(Seen(s, id), true, t.op) && AllSettled(Apply(s, t), held - {id})
      && (forall other | other != id :: Seen(Apply(s, t), other) == Seen(s, other))
      && Waits(Apply(s, t), kind, id, task, now)
  {
    var t := Timed(Add(id, task), now);
    forall other: Id ensures other != id ==> Seen(Apply(s, t), other) == Seen(s, other)
      ensures Settled(Seen(Apply(s, t), other), other in held - {id})
    {
      PutIsLocal(s, id, Viewed(Seen(s, id), t.op, now), other);
      OpSettles(Seen(s, id), true, t.op, now);
    }
  }

  /** Tasks the pass still has in hand after popping: the deferred and the dispatched ones. */
  function InHand(f: Frame, order: seq<Id>): set<Id> {
    if order == [] then {}
    else if Of(f, order[0]).decision.Fail? then InHand(f, order[1..])
    else {order[0]} + InHand(f, order[1..])
  }

  function Chosen(ids: seq<Id>): set<Id> { set i | 0 <= i < |ids| :: ids[i] }

  lemma {:induction false} InHandIs(f: Frame, order: seq<Id>)
    requires forall i | 0 <= i < |order| :: order[i] in f.memory
    ensures InHand(f, order) == Chosen(Deferred(f, order)) + Chosen(Dispatched(f, order))
    ensures forall id | id in InHand(f, order) :: id in order
    decreases |order|
  {
    if order != [] {
      assert forall i | 0 <= i < |order[1..]| :: order[1..][i] == order[i + 1];
      InHandIs(f, order[1..]);
      assert order[0] in f.memory;
      ChosenCons(order[0], Deferred(f, order[1..]));
      ChosenCons(order[0], Dispatched(f, order[1..]));
    }
  }

  lemma ChosenCons(id: Id, ids: seq<Id>)
    ensures Chosen([id] + ids) == {id} + Chosen(ids)
  {
    forall x | x in {id} + Chosen(ids) ensures x in Chosen([id] + ids) {
      if x == id {
        assert ([id] + ids)[0] == x;
      } else {
        var i :| 0 <= i < |ids| && ids[i] == x;
        assert ([id] + ids)[i + 1] == x;
      }
    }
  }

  lemma OpsCons(s: Store, held: set<Id>, t: Timed, ts: seq<Timed>)
    requires Allowed(Seen(s, t.op.id), t.op.id in held, t.op) && Possible(Apply(s, t), HeldAfter(held, t.op), ts)
    ensures Possible(s, held, [t] + ts) && After(s, [t] + ts) == After(Apply(s, t), ts)
    ensures HeldAtEnd(held, [t] + ts) == HeldAtEnd(HeldAfter(held, t.op), ts)
  {
    assert ([t] + ts)[1..] == ts;
  }

  predicate FailedIn(s: Store, id: Id) { Seen(s, id).hash.Some? && Seen(s, id).hash.value.status == Failed }

  /** What popping and deciding over `order` makes of `s`. */
  ghost predicate Handled(s: Store, n: Store, f: Frame, kind: Kind, order: seq<Id>) {
    && (forall id | id in InHand(f, order) :: id in f.memory && Popped(n, kind, id, f.memory[id]))
    && (forall other: Id | other !in order :: Seen(n, other) == Seen(s, other))
    && (forall id | id in order && Of(f, id).decision.Fail? :: FailedIn(n, id))
  }

  lemma HandledCons(s: Store, next: Store, n: Store, f: Frame, kind: Kind, order: seq<Id>)
    requires order != [] && order[0] !in order[1..] && Handled(next, n, f, kind, order[1..])
    requires forall other: Id | other != order[0] :: Seen(next, other) == Seen(s, other)
    requires if Of(f, order[0]).decision.Fail? then FailedIn(next, order[0])
             else order[0] in f.memory && Popped(next, kind, order[0], f.memory[order[0]])
    ensures Handled(s, n, f, kind, order)
  {
    assert Seen(n, order[0]) == Seen(next, order[0]);
  }

  /** Popping and deciding keeps the stores in agreement; the tasks in hand are held. */
  lemma {:induction false} PopsSettle(s: Store, held: set<Id>, f: Frame, kind: Kind, order: seq<Id>)
    requires AllSettled(s, held) && kind != OtherKind && Lists(s, kind, order)
    requires Known(s, f, order)
    ensures Possible(s, held, Pops(f, kind, order))
    ensures var n := After(s, Pops(f, kind, order));
      AllSettled(n, held + InHand(f, order)) && HeldAtEnd(held, Pops(f, kind, order)) == held + InHand(f, order) &&
        Handled(s, n, f, kind, order)
    decreases |order|
  {
    if order == [] {
      assert held + InHand(f, order) == held;
    } else {
      var id, rest, now := order[0], order[1..], f.look(order[0]).now;
      var pop := Timed(Pop(id, kind), now);
      var popped, tail := Apply(s, pop), Pops(f, kind, rest);
      if Of(f, id).decision.Fail? {
        PopThenFail(s, held, f, kind, order);
      } else {
        PopOne(s, held, kind, id, now);
        WaitingStays(s, popped, f, kind, order, rest, id);
        PopsSettle(popped, held + {id}, f, kind, rest);
        OpsCons(s, held, pop, tail);
        HandledCons(s, popped, After(popped, tail), f, kind, order);
        assert held + {id} + InHand(f, rest) == held + InHand(f, order);
      }
    }
  }

  lemma {:induction false} PopThenFail(s: Store, held: set<Id>, f: Frame, kind: Kind, order: seq<Id>)
    requires AllSettled(s, held) && kind != OtherKind && Lists(s, kind, order) && order != [] &&
      Of(f, order[0]).decision.Fail?
    requires Known(s, f, order)
    ensures Possible(s, held, Pops(f, kind, order))
    ensures var n := After(s, Pops(f, kind, order));
      AllSettled(n, held + InHand(f, order)) && HeldAtEnd(held, Pops(f, kind, order)) == held + InHand(f, order) &&
        Handled(s, n, f, kind, order)
    decreases |order|, 0
  {
    var id, rest, now := order[0], order[1..], f.look(order[0]).now;
    var pop, fail, tail := Timed(Pop(id, kind), now), Timed(Mark(id, Failed), now), Pops(f, kind, rest);
    var popped := Apply(s, pop);
    var failed := Apply(popped, fail);
    PopOne(s, held, kind, id, now);
    FailOne(popped, held + {id}, id, now);
    WaitingStays(s, failed, f, kind, order, rest, id);
    assert held + {id} - {id} == held by { WaitingIsQueued(s, held, kind, id); }
    PopsSettle(failed, held, f, kind, rest);
    OpsCons(popped, held + {id}, fail, tail);
    OpsCons(s, held, pop, [fail] + tail);
    Regroup([pop], [fail], tail);
    HandledCons(s, failed, After(failed, tail), f, kind, order);
  }

  /** What another task's operation leaves for the rest of the order. */
  lemma WaitingStays(s: Store, n: Store, f: Frame, kind: Kind, order: seq<Id>, rest: seq<Id>, id: Id)
    requires kind != OtherKind && id !in rest && (forall other: Id | other != id :: Seen(n, other) == Seen(s, other))
    requires (forall i | 0 <= i < |rest| :: rest[i] in order) && Distinct(rest)
    requires (forall i | 0 <= i < |order| :: order[i] != id ==> order[i] in QueueOf(s, kind)) && Known(s, f, order)
    ensures Lists(n, kind, rest) && Known(n, f, rest)
  {
    forall i | 0 <= i < |rest|
      ensures rest[i] in QueueOf(n, kind) && rest[i] in f.memory && Seen(n, rest[i]).memory == Some(f.memory[rest[i]]) {
      var k :| 0 <= k < |order| && order[k] == rest[i];
      assert rest[i] in rest && Seen(n, rest[i]) == Seen(s, rest[i]);
      assert Entry(Seen(s, rest[i]), kind).Some?;
    }
  }

  predicate Waits(s: Store, kind: Kind, id: Id, task: Hash, now: real) {
    Entry(Seen(s, id), kind) == Some(Score(task.priority, now))
  }

  ghost predicate ReAdded(s: Store, n: Store, f: Frame, kind: Kind, deferred: seq<Id>, now: real) {
    && (forall id | id in deferred :: id in f.memory && Waits(n, kind, id, f.memory[id], now))
    && (forall other: Id | other !in deferred :: Seen(n, other) == Seen(s, other))
  }

  ghost predicate AllHeld(s: Store, held: set<Id>, f: Frame, kind: Kind, deferred: seq<Id>) {
    forall i | 0 <= i < |deferred| ::
      deferred[i] in held && deferred[i] in f.memory && Popped(s, kind, deferred[i], f.memory[deferred[i]])
  }

  ghost predicate PutBack(s: Store, held: set<Id>, f: Frame, kind: Kind, deferred: seq<Id>, now: real)
    requires forall i | 0 <= i < |deferred| :: deferred[i] in f.memory
  {
    var back := ReAdds(f, deferred, now);
    && Possible(s, held, back) && HeldAtEnd(held, back) == held - Chosen(deferred)
    && AllSettled(After(s, back), held - Chosen(deferred)) && ReAdded(s, After(s, back), f, kind, deferred, now)
  }

  lemma PutBackCons(s: Store, held: set<Id>, f: Frame, kind: Kind, deferred: seq<Id>, now: real)
    requires deferred != [] && deferred[0] !in deferred[1..]
    requires forall i | 0 <= i < |deferred| :: deferred[i] in f.memory
    requires var id := deferred[0];
      var add := Timed(Add(id, f.memory[id]), now);
      var next := Apply(s, add);
      && Allowed(Seen(s, id), id in held, add.op) && PutBack(next, held - {id}, f, kind, deferred[1..], now)
      && (forall other: Id | other != id :: Seen(next, other) == Seen(s, other))
      && Waits(next, kind, id, f.memory[id], now)
    ensures PutBack(s, held, f, kind, deferred, now)
  {
    var id, rest := deferred[0], deferred[1..];
    var add := Timed(Add(id, f.memory[id]), now);
    var next, tail := Apply(s, add), ReAdds(f, rest, now);
    OpsCons(s, held, add, tail);
    ReAddedCons(s, next, After(next, tail), f, kind, deferred, now);
    ChosenCons(id, rest);
    assert [id] + rest == deferred && held - {id} - Chosen(rest) == held - Chosen(deferred);
  }

  /** Putting the deferred tasks back releases exactly them. */
  lemma {:induction false} ReAddsSettle(s: Store, held: set<Id>, f: Frame, kind: Kind, deferred: seq<Id>, now: real)
    requires AllSettled(s, held) && kind != OtherKind && Distinct(deferred) && AllHeld(s, held, f, kind, deferred)
    ensures PutBack(s, held, f, kind, deferred, now)
    decreases |deferred|
  {
    if deferred == [] {
      assert held - Chosen(deferred) == held;
    } else {
      var id := deferred[0];
      var next := Apply(s, Timed(Add(id, f.memory[id]), now));
      AddOne(s, held, kind, id, f.memory[id], now);
      StillPopped(s, next, held, f, kind, deferred);
      ReAddsSettle(next, held - {id}, f, kind, deferred[1..], now);
      PutBackCons(s, held, f, kind, deferred, now);
    }
  }

  lemma StillPopped(s: Store, next: Store, held: set<Id>, f: Frame, kind: Kind, deferred: seq<Id>)
    requires deferred != [] && deferred[0] !in deferred[1..] &&
      (forall other: Id | other != deferred[0] :: Seen(next, other) == Seen(s, other))
    requires forall i | 0 <= i < |deferred| ::
      deferred[i] in held && deferred[i] in f.memory && Popped(s, kind, deferred[i], f.memory[deferred[i]])
    ensures forall i | 0 <= i < |deferred[1..]| ::
      deferred[1..][i] in held - {deferred[0]} && deferred[1..][i] in f.memory &&
        Popped(next, kind, deferred[1..][i], f.memory[deferred[1..][i]])
  {
    var rest := deferred[1..];
    forall i | 0 <= i < |rest|
      ensures rest[i] in held - {deferred[0]} && rest[i] in f.memory && Popped(next, kind, rest[i], f.memory[rest[i]]) {
      assert Popped(s, kind, deferred[i + 1], f.memory[deferred[i + 1]]) && rest[i] == deferred[i + 1];
      assert rest[i] in rest && Seen(next, rest[i]) == Seen(s, rest[i]);
    }
  }

  lemma ReAddedCons(s: Store, next: Store, n: Store, f: Frame, kind: Kind, deferred: seq<Id>, now: real)
    requires deferred != [] && deferred[0] !in deferred[1..] && ReAdded(next, n, f, kind, deferred[1..], now)
    requires forall other: Id | other != deferred[0] :: Seen(next, other) == Seen(s, other)
    requires deferred[0] in f.memory && Waits(next, kind, deferred[0], f.memory[deferred[0]], now)
    ensures ReAdded(s, n, f, kind, deferred, now)
  {
    assert Seen(n, deferred[0]) == Seen(next, deferred[0]);
  }

  lemma {:induction false} ListsApart(f: Frame, order: seq<Id>)
    requires Distinct(order)
    ensures Distinct(Deferred(f, order)) && Chosen(Deferred(f, order)) !! Chosen(Dispatched(f, order))
    ensures forall id :: id in Deferred(f, order) <==> id in order && Of(f, id).decision.Defer?
    ensures forall id :: id in Dispatched(f, order) <==> id in order && Of(f, id).decision.Dispatch?
    decreases |order|
  {
    if order != [] { ListsApart(f, order[1..]); }
  }

  /** Everything one pass does to the queue. */
  function PassOps(f: Frame, kind: Kind, order: seq<Id>, now: real): seq<Timed> {
    DeferredAreKnown(f, order);
    Pops(f, kind, order) + ReAdds(f, Deferred(f, order), now)
  }

  lemma {:induction false} AfterTwice(s: Store, a: seq<Timed>, b: seq<Timed>)
    ensures After(s, a + b) == After(After(s, a), b)
    decreases |a|
  {
    if a == [] {
      assert a + b == b;
    } else {
      assert (a + b)[1..] == a[1..] + b;
      AfterTwice(Apply(s, a[0]), a[1..], b);
    }
  }

  lemma {:induction false} PossibleAppend(s: Store, held: set<Id>, a: seq<Timed>, b: seq<Timed>)
    requires Possible(s, held, a) && Possible(After(s, a), HeldAtEnd(held, a), b)
    ensures Possible(s, held, a + b)
    decreases |a|
  {
    if a == [] {
      assert a + b == b;
    } else {
      PossibleAppend(Apply(s, a[0]), HeldAfter(held, a[0].op), a[1..], b);
      OpsCons(s, held, a[0], a[1..] + b);
      Regroup([a[0]], a[1..], b);
      assert [a[0]] + a[1..] == a;
    }
  }

  /** Every deferred task is back in its queue, every failed one is marked, a dispatched one
      is in the hands of its run, and nothing else was touched. */
  ghost predicate Conserved(s: Store, n: Store, f: Frame, kind: Kind, order: seq<Id>, now: real) {
    && (forall id | id in order && Of(f, id).decision.Defer? :: id in f.memory && Waits(n, kind, id, f.memory[id], now))
    && (forall id | id in order && Of(f, id).decision.Dispatch? :: id in f.memory && Popped(n, kind, id, f.memory[id]))
    && (forall id | id in order && Of(f, id).decision.Fail? :: FailedIn(n, id))
    && (forall id | id in order :: !Of(f, id).decision.Vanish?)
    && (forall other: Id | other !in order :: Seen(n, other) == Seen(s, other))
  }

  lemma OutOfLists(f: Frame, order: seq<Id>, id: Id)
    requires Distinct(order) && (id !in order || !Of(f, id).decision.Defer?)
    ensures id !in Deferred(f, order)
  {
    ListsApart(f, order);
  }

  lemma DispatchedAreInHand(f: Frame, order: seq<Id>, id: Id)
    requires Distinct(order) && id in order && Of(f, id).decision.Dispatch? && forall i | 0 <= i < |order| ::
      order[i] in f.memory
    ensures id in InHand(f, order) && id !in Deferred(f, order)
  {
    ListsApart(f, order);
    InHandIs(f, order);
    assert id in Dispatched(f, order);
    assert id in Chosen(Dispatched(f, order));
  }

  /** What popping left, and what putting back makes of it. */
  ghost predicate Finishing(s: Store, mid: Store, n: Store, f: Frame, kind: Kind, order: seq<Id>, now: real) {
    && Distinct(order) && (forall i | 0 <= i < |order| :: order[i] in f.memory)
    && Handled(s, mid, f, kind, order) && ReAdded(mid, n, f, kind, Deferred(f, order), now)
  }

  lemma DispatchedStays(s: Store, mid: Store, n: Store, f: Frame, kind: Kind, order: seq<Id>, now: real, id: Id)
    requires Finishing(s, mid, n, f, kind, order, now) && id in order && Of(f, id).decision.Dispatch?
    ensures id in f.memory && Popped(n, kind, id, f.memory[id])
  {
    DispatchedAreInHand(f, order, id);
  }

  lemma FailedStays(s: Store, mid: Store, n: Store, f: Frame, kind: Kind, order: seq<Id>, now: real, id: Id)
    requires Finishing(s, mid, n, f, kind, order, now) && id in order && Of(f, id).decision.Fail?
    ensures FailedIn(n, id)
  {
    OutOfLists(f, order, id);
  }

  lemma DeferredWaits(s: Store, mid: Store, n: Store, f: Frame, kind: Kind, order: seq<Id>, now: real, id: Id)
    requires Finishing(s, mid, n, f, kind, order, now) && id in order && Of(f, id).decision.Defer?
    ensures id in f.memory && Waits(n, kind, id, f.memory[id], now)
  {
    ListsApart(f, order);
  }

  lemma OthersStay(s: Store, mid: Store, n: Store, f: Frame, kind: Kind, order: seq<Id>, now: real, other: Id)
    requires Finishing(s, mid, n, f, kind, order, now) && other !in order
    ensures Seen(n, other) == Seen(s, other)
  {
    OutOfLists(f, order, other);
  }

  lemma NoneVanishes(f: Frame, order: seq<Id>)
    requires forall i | 0 <= i < |order| :: order[i] in f.memory
    ensures forall id | id in order :: !Of(f, id).decision.Vanish?
  {
  }

  lemma HandledThenReAdded(s: Store, mid: Store, n: Store, f: Frame, kind: Kind, order: seq<Id>, now: real)
    requires Finishing(s, mid, n, f, kind, order, now)
    ensures Conserved(s, n, f, kind, order, now)
  {
    forall id | id in order && Of(f, id).decision.Dispatch?
      ensures id in f.memory && Popped(n, kind, id, f.memory[id]) {
      DispatchedStays(s, mid, n, f, kind, order, now, id);
    }
    forall id | id in order && Of(f, id).decision.Fail? ensures FailedIn(n, id) {
      FailedStays(s, mid, n, f, kind, order, now, id);
    }
    forall id | id in order && Of(f, id).decision.Defer?
      ensures id in f.memory && Waits(n, kind, id, f.memory[id], now) {
      DeferredWaits(s, mid, n, f, kind, order, now, id);
    }
    forall other: Id | other !in order ensures Seen(n, other) == Seen(s, other) {
      OthersStay(s, mid, n, f, kind, order, now, other);
    }
    NoneVanishes(f, order);
  }

  lemma InMemory(s: Store, held: set<Id>, kind: Kind, order: seq<Id>)
    requires AllSettled(s, held) && kind != OtherKind && forall id: Id :: id in order <==> id in QueueOf(s, kind)
    ensures forall i | 0 <= i < |order| ::
      order[i] in QueueOf(s, kind) && order[i] in s.memory && Seen(s, order[i]).memory == Some(s.memory[order[i]]) &&
        order[i] !in held
  {
    forall i | 0 <= i < |order|
      ensures order[i] in QueueOf(s, kind) && order[i] in s.memory &&
        Seen(s, order[i]).memory == Some(s.memory[order[i]]) && order[i] !in held
    {
      assert order[i] in order;
      WaitingIsQueued(s, held, kind, order[i]);
    }
  }

  lemma DeferredInHand(f: Frame, kind: Kind, order: seq<Id>)
    requires forall i | 0 <= i < |order| :: order[i] in f.memory
    ensures forall i | 0 <= i < |Deferred(f, order)| :: Deferred(f, order)[i] in InHand(f, order)
  {
    InHandIs(f, order);
    forall i | 0 <= i < |Deferred(f, order)| ensures Deferred(f, order)[i] in InHand(f, order) {
      assert Deferred(f, order)[i] in Chosen(Deferred(f, order));
    }
  }

  /** Main result: a pass neither loses nor duplicates a task. Its operations are possible,
      the stores agree at its end with only the dispatched tasks newly in hand, and every
      task it popped is dispatched, back in its queue once, or failed. `held` are the tasks
      of earlier passes whose runs have not started yet. */
  lemma PassConserves(s: Store, held: set<Id>, f: Frame, kind: Kind, order: seq<Id>, now: real)
    requires AllSettled(s, held) && kind != OtherKind && f.memory == s.memory
    requires Distinct(order) && forall id: Id :: id in order <==> id in QueueOf(s, kind)
    ensures Possible(s, held, PassOps(f, kind, order, now))
    ensures AllSettled(After(s, PassOps(f, kind, order, now)), held + Chosen(Dispatched(f, order)))
    ensures Conserved(s, After(s, PassOps(f, kind, order, now)), f, kind, order, now)
  {
    InMemory(s, held, kind, order);
    DeferredAreKnown(f, order);
    PopsSettle(s, held, f, kind, order);
    FinishPass(s, After(s, Pops(f, kind, order)), held, f, kind, order, now);
    PossibleAppend(s, held, Pops(f, kind, order), ReAdds(f, Deferred(f, order), now));
    AfterTwice(s, Pops(f, kind, order), ReAdds(f, Deferred(f, order), now));
  }

  lemma FinishPass(s: Store, mid: Store, held: set<Id>, f: Frame, kind: Kind, order: seq<Id>, now: real)
    requires kind != OtherKind && Distinct(order) &&
      (forall i | 0 <= i < |order| :: order[i] in f.memory && order[i] !in held)
    requires AllSettled(mid, held + InHand(f, order)) && Handled(s, mid, f, kind, order)
    ensures forall i | 0 <= i < |Deferred(f, order)| :: Deferred(f, order)[i] in f.memory
    ensures var back := ReAdds(f, Deferred(f, order), now);
      && Possible(mid, held + InHand(f, order), back)
      && AllSettled(After(mid, back), held + Chosen(Dispatched(f, order))) &&
        Conserved(s, After(mid, back), f, kind, order, now)
  {
    DeferredAreKnown(f, order);
    ListsApart(f, order);
    DeferredInHand(f, kind, order);
    ReAddsSettle(mid, held + InHand(f, order), f, kind, Deferred(f, order), now);
    HandledThenReAdded(s, mid, After(mid, ReAdds(f, Deferred(f, order), now)), f, kind, order, now);
    HandsEmptied(held, f, order);
  }

  lemma HandsEmptied(held: set<Id>, f: Frame, order: seq<Id>)
    requires Distinct(order) && forall i | 0 <= i < |order| :: order[i] in f.memory && order[i] !in held
    ensures held + InHand(f, order) - Chosen(Deferred(f, order)) == held + Chosen(Dispatched(f, order))
  {
    InHandIs(f, order);
    ListsApart(f, order);
    forall id | id in Chosen(Deferred(f, order)) ensures id !in held {
      assert id in Deferred(f, order) && id in order;
    }
  }

  // ---- the pass, step by step ------------------------------------------------------

  lemma AfterOps(s: Store, kind: Kind, id: Id, decision: Decision, now: real)
    ensures var popped := Apply(s, Timed(Pop(id, kind), now));
      After(s, OpsFor(kind, id, decision, now)) ==
        if decision.Fail? then Apply(popped, Timed(Mark(id, Failed), now)) else popped
  {
    var pop, fail := Timed(Pop(id, kind), now), Timed(Mark(id, Failed), now);
    var popped := Apply(s, pop);
    assert ([pop] + [fail])[1..] == [fail] && [pop][1..] == [] && [fail][1..] == [];
    assert After(popped, [fail]) == After(Apply(popped, fail), []) == Apply(popped, fail);
    assert After(s, [pop]) == After(popped, []) == popped;
  }

  /** Deciding about one more task extends the lists at their end. */
  lemma {:induction false} OneMore(f: Frame, order: seq<Id>, id: Id)
    ensures Deferred(f, order + [id]) ==
      if Of(f, id).decision.Defer? then Deferred(f, order) + [id] else Deferred(f, order)
    ensures Dispatched(f, order + [id]) ==
      if Of(f, id).decision.Dispatch? then Dispatched(f, order) + [id] else Dispatched(f, order)
    decreases |order|
  {
    if order == [] {
      assert [id][1..] == [] && order + [id] == [id];
    } else {
      assert (order + [id])[1..] == order[1..] + [id];
      OneMore(f, order[1..], id);
    }
  }

  lemma {:induction false} OneMorePop(f: Frame, kind: Kind, order: seq<Id>, id: Id)
    ensures Pops(f, kind, order + [id]) == Pops(f, kind, order) + OpsFor(kind, id, Of(f, id).decision, f.look(id).now)
    decreases |order|
  {
    if order == [] {
      assert [id][1..] == [] && order + [id] == [id];
      assert Pops(f, kind, [id]) == OpsFor(kind, id, Of(f, id).decision, f.look(id).now) + [];
    } else {
      var first := OpsFor(kind, order[0], Of(f, order[0]).decision, f.look(order[0]).now);
      assert (order + [id])[1..] == order[1..] + [id];
      OneMorePop(f, kind, order[1..], id);
      Regroup(first, Pops(f, kind, order[1..]), OpsFor(kind, id, Of(f, id).decision, f.look(id).now));
    }
  }

  lemma PoppedAway(s: Store, kind: Kind, id: Id, now: real)
    requires kind != OtherKind && id in QueueOf(s, kind)
    ensures var n := Apply(s, Timed(Pop(id, kind), now));
      && QueueOf(n, kind) == QueueOf(s, kind) - {id} && n.hashes.Keys == s.hashes.Keys && n.memory == s.memory
      && (forall other: Id | other != id :: Seen(n, other) == Seen(s, other))
  {
    var v := Viewed(Seen(s, id), Pop(id, kind), now);
    assert Set(s.hashes, id, v.hash) == s.hashes && Set(s.memory, id, v.memory) == s.memory;
    forall other: Id | other != id ensures Seen(Apply(s, Timed(Pop(id, kind), now)), other) == Seen(s, other) {
      PutIsLocal(s, id, v, other);
    }
  }

  lemma MarkedInPlace(s: Store, kind: Kind, id: Id, now: real)
    requires id in s.hashes
    ensures var n := Apply(s, Timed(Mark(id, Failed), now));
      && QueueOf(n, kind) == QueueOf(s, kind) && n.hashes.Keys == s.hashes.Keys
      && (forall other: Id | other != id :: Seen(n, other) == Seen(s, other))
  {
    var v := Viewed(Seen(s, id), Mark(id, Failed), now);
    assert Set(s.agent, id, v.agent) == s.agent && Set(s.tool, id, v.tool) == s.tool;
    forall other: Id | other != id ensures Seen(Apply(s, Timed(Mark(id, Failed), now)), other) == Seen(s, other) {
      PutIsLocal(s, id, v, other);
    }
  }

  /** Popping and marking one task: its queue shrinks by it, and no other task changes. */
  lemma TakenAway(s: Store, kind: Kind, id: Id, decision: Decision, now: real)
    requires kind != OtherKind && id in QueueOf(s, kind) && id in s.hashes
    ensures var n := After(s, OpsFor(kind, id, decision, now));
      && QueueOf(n, kind) == QueueOf(s, kind) - {id} && n.hashes.Keys == s.hashes.Keys
      && (forall other: Id | other != id :: Seen(n, other) == Seen(s, other))
  {
    AfterOps(s, kind, id, decision, now);
    PoppedAway(s, kind, id, now);
    MarkedInPlace(Apply(s, Timed(Pop(id, kind), now)), kind, id, now);
  }

  lemma Smaller(m: map<Id, real>, id: Id)
    requires id in m
    ensures |m - {id}| < |m|
  {
    assert (m - {id}).Keys == m.Keys - {id};
  }

  /** Where the store stands after `order` was popped. */
  ghost predicate Progress(s: Store, n: Store, f: Frame, kind: Kind, order: seq<Id>) {
    && n == After(s, Pops(f, kind, order)) && n.hashes.Keys == s.hashes.Keys && Distinct(order)
    && (forall id: Id :: id in QueueOf(s, kind) <==> id in order || id in QueueOf(n, kind))
    && (forall id | id in order :: id !in QueueOf(n, kind))
    && (forall id: Id | id !in order :: Seen(n, id) == Seen(s, id))
  }

  predicate NotBehind(queue: map<Id, real>, a: Id, b: Id)
    requires a in queue && b in queue
  {
    queue[a] < queue[b] || (queue[a] == queue[b] && a.n <= b.n)
  }

  predicate Precedes(queue: map<Id, real>, a: Id, rest: map<Id, real>)
    requires a in queue
  {
    forall id | id in rest :: id in queue && NotBehind(queue, a, id)
  }

  /** The popped tasks come in score order, and none stands behind one still waiting. */
  ghost predicate InTurn(queue: map<Id, real>, rest: map<Id, real>, order: seq<Id>) {
    && (forall i | 0 <= i < |order| :: order[i] in queue) &&
      (forall id | id in rest :: id in queue && queue[id] == rest[id])
    && (forall i, j | 0 <= i < j < |order| :: NotBehind(queue, order[i], order[j]))
    && (forall i | 0 <= i < |order| :: Precedes(queue, order[i], rest))
  }

  lemma InTurnMore(queue: map<Id, real>, rest: map<Id, real>, order: seq<Id>, id: Id)
    requires InTurn(queue, rest, order) && Least(rest, id)
    ensures InTurn(queue, rest - {id}, order + [id])
  {
    var more := order + [id];
    forall i, j | 0 <= i < j < |more|
      ensures more[i] in queue && more[j] in queue && NotBehind(queue, more[i], more[j]) {
      if j == |order| { assert more[j] == id && more[i] == order[i]; }
        else { assert more[i] == order[i] && more[j] == order[j]; }
    }
    forall i | 0 <= i < |more| ensures more[i] in queue && Precedes(queue, more[i], rest - {id}) {
      if i < |order| { assert more[i] == order[i]; }
    }
  }

  lemma ProgressStep(s: Store, n: Store, f: Frame, kind: Kind, order: seq<Id>, id: Id)
    requires Progress(s, n, f, kind, order) && kind != OtherKind && id in QueueOf(n, kind) && id in n.hashes
    ensures var next := After(n, OpsFor(kind, id, Of(f, id).decision, f.look(id).now));
      Progress(s, next, f, kind, order + [id]) && |QueueOf(next, kind)| < |QueueOf(n, kind)|
  {
    var now := f.look(id).now;
    TakenAway(n, kind, id, Of(f, id).decision, now);
    Smaller(QueueOf(n, kind), id);
    OneMorePop(f, kind, order, id);
    AfterTwice(s, Pops(f, kind, order), OpsFor(kind, id, Of(f, id).decision, now));
    DistinctMore(order, id);
  }

  lemma StillInMemory(s: Store, kind: Kind, id: Id, decision: Decision, now: real)
    requires !decision.Fail? && id in s.memory
    ensures var n := After(s, OpsFor(kind, id, decision, now)); id in n.memory && n.memory[id] == s.memory[id]
  {
    AfterOps(s, kind, id, decision, now);
    PutIsLocal(s, id, SetEntry(Seen(s, id), kind, None), id);
  }

  /** What the pass remembers: of a popped task what was decided, of all others nothing new. */
  ghost predicate Aligned(f: Frame, order: seq<Id>, retries: map<Id, real>, tracked: map<Id, Tracking>) {
    && (forall id: Id | id !in order ::
          RetryOf(retries, id) == RetryOf(f.retryAt, id) && TrackingOf(tracked, id) == TrackingOf(f.tracking, id))
    && (forall id: Id | id in order :: TrackingOf(tracked, id) == Of(f, id).tracking && RetryOf(retries, id) ==
          if Of(f, id).decision.Defer? then Of(f, id).decision.retryAt else RetryOf(f.retryAt, id))
  }

  lemma AlignedMore(f: Frame, order: seq<Id>, id: Id, retries: map<Id, real>, retries': map<Id, real>,
                    tracked: map<Id, Tracking>, tracked': map<Id, Tracking>)
    requires Aligned(f, order, retries, tracked) && id !in order
    requires var d := Of(f, id).decision; retries' == if d.Defer? then retries[id := d.retryAt] else retries
    requires TrackingOf(tracked', id) == Of(f, id).tracking
    requires forall other | other != id :: TrackingOf(tracked', other) == TrackingOf(tracked, other)
    ensures Aligned(f, order + [id], retries', tracked')
  {
    forall other: Id ensures other in order + [id] <==> other in order || other == id {
      assert (order + [id])[|order|] == id;
      if other in order { assert other in order + [id]; }
    }
  }

  /** The lists a pass fills while it pops. */
  datatype Notes = Notes(order: seq<Id>, deferred: seq<Id>, tasks: seq<Hash>, dispatched: seq<Id>)

  predicate Carries(f: Frame, b: Notes) {
    && b.deferred == Deferred(f, b.order) && b.dispatched == Dispatched(f, b.order) && |b.tasks| == |b.deferred|
    && forall i | 0 <= i < |b.deferred| :: b.deferred[i] in f.memory && b.tasks[i] == f.memory[b.deferred[i]]
  }

  function Noted(b: Notes, id: Id, decision: Decision, task: Option<Hash>): Notes
    requires decision.Defer? ==> task.Some?
  {
    Notes(b.order + [id],
          if decision.Defer? then b.deferred + [id] else b.deferred,
          if decision.Defer? then b.tasks + [task.value] else b.tasks,
          if decision.Dispatch? then b.dispatched + [id] else b.dispatched)
  }

  lemma NotedCarries(f: Frame, b: Notes, id: Id, task: Option<Hash>)
    requires Carries(f, b) && (Of(f, id).decision.Defer? ==> id in f.memory && task == Some(f.memory[id]))
    ensures Carries(f, Noted(b, id, Of(f, id).decision, task))
  {
    OneMore(f, b.order, id);
  }

  /** Everything that holds between two turns of the loop. */
  ghost predicate Underway(s: Store, n: Store, f: Frame, kind: Kind, b: Notes, retries: map<Id, real>,
                           tracked: map<Id, Tracking>) {
    && f.memory == s.memory && (forall id | id in QueueOf(s, kind) :: id in s.hashes && id in s.memory)
    && Progress(s, n, f, kind, b.order) && Aligned(f, b.order, retries, tracked) && Carries(f, b)
    && InTurn(QueueOf(s, kind), QueueOf(n, kind), b.order)
  }

  lemma StillHashed(s: Store, n: Store, f: Frame, kind: Kind, b: Notes, retries: map<Id, real>,
                    tracked: map<Id, Tracking>)
    requires Underway(s, n, f, kind, b, retries, tracked)
    ensures forall id | id in QueueOf(n, kind) :: id in n.hashes
  {
    forall id | id in QueueOf(n, kind) ensures id in n.hashes {
      assert id in QueueOf(s, kind);
    }
  }

  lemma DecidedAsAtStart(s: Store, n: Store, f: Frame, kind: Kind, b: Notes, retries: map<Id, real>,
                         tracked: map<Id, Tracking>, id: Id)
    requires Underway(s, n, f, kind, b, retries, tracked) && id in QueueOf(n, kind)
    ensures Decide(id in n.memory, RetryOf(retries, id), TrackingOf(tracked, id), f.look(id), f.grace) == Of(f, id)
    ensures id in n.memory && id in f.memory && n.memory[id] == f.memory[id] && id in n.hashes
  {
    assert id in QueueOf(s, kind) && id !in b.order;
    assert Seen(n, id) == Seen(s, id);
    assert Seen(n, id).memory == Get(n.memory, id) && Seen(s, id).memory == Get(s.memory, id);
    StillHashed(s, n, f, kind, b, retries, tracked);
  }

  lemma UnderwayMore(s: Store, n: Store, f: Frame, kind: Kind, b: Notes, id: Id, task: Option<Hash>,
                     retries: map<Id, real>, retries': map<Id, real>, tracked: map<Id, Tracking>,
                       tracked': map<Id, Tracking>)
    requires Underway(s, n, f, kind, b, retries, tracked) && kind != OtherKind && Least(QueueOf(n, kind), id)
    requires var d := Of(f, id).decision;
      (d.Defer? ==> id in f.memory && task == Some(f.memory[id])) && retries' ==
        if d.Defer? then retries[id := d.retryAt] else retries
    requires TrackingOf(tracked', id) == Of(f, id).tracking
    requires forall other | other != id :: TrackingOf(tracked', other) == TrackingOf(tracked, other)
    ensures var next := After(n, OpsFor(kind, id, Of(f, id).decision, f.look(id).now));
      Underway(s, next, f, kind, Noted(b, id, Of(f, id).decision, task), retries', tracked') &&
        |QueueOf(next, kind)| < |QueueOf(n, kind)|
  {
    StillHashed(s, n, f, kind, b, retries, tracked);
    ProgressStep(s, n, f, kind, b.order, id);
    TakenAway(n, kind, id, Of(f, id).decision, f.look(id).now);
    InTurnMore(QueueOf(s, kind), QueueOf(n, kind), b.order, id);
    AlignedMore(f, b.order, id, retries, retries', tracked, tracked');
    NotedCarries(f, b, id, task);
  }

  // ---- the scheduler object ---------------------------------------------------------

  class Scheduler {
    const queue: QueueManager
    const grace: real
    var retryAt: map<Id, real>
    var tracking: map<Id, Tracking>

    constructor (queue: QueueManager, grace: real)
      ensures this.queue == queue && this.grace == grace && retryAt == map[] && tracking == map[]
    {
      this.queue, this.grace, retryAt, tracking := queue, grace, map[], map[];
    }

    /** As in the pass, every branch that defers appends the task to the list itself. */
    method HandleRemoteRefusal(id: Id, kind: Refusal, target: Target, reroute: set<Target> -> bool, now: real,
                               deferred: seq<Id>)
      returns (decision: Decision, deferred': seq<Id>)
      modifies `tracking
      ensures var s := Refuse(TrackingOf(old(tracking), id), kind, target, reroute, now, grace);
        decision == s.decision && tracking == old(tracking)[id := s.tracking]
      ensures deferred' == if decision.Defer? then deferred + [id] else deferred
    {
      var t := TrackingOf(tracking, id);
      var excluded := t.blocked;
      if kind == Capacity {
        t := t.(blocked := t.blocked + {target});
      } else {
        excluded := excluded + {target};
      }
      if reroute(excluded) {
        tracking := tracking[id := t.(count := 0)];
        return Defer(0.0), deferred + [id];
      }
      if kind != Capacity {
        tracking := tracking[id := t];
        return Defer(now + 1.0), deferred + [id];
      }
      if grace > 0.0 {
        if t.graceSince.None? { t := t.(graceSince := Some(now)); }
        if now - t.graceSince.value < grace {
          tracking := tracking[id := t];
          return Defer(now + 1.0), deferred + [id];
        }
      }
      var attempts := t.count + 1;
      if attempts >= MAX_REMOTE_REFUSALS {
        tracking := tracking[id := Untracked()];
        return Fail, deferred;
      }
      tracking := tracking[id := t.(count := attempts)];
      return Defer(now + 1.0), deferred + [id];
    }

    /** A run that ends drops what was remembered about its task. */
    method ClearRemoteTracking(id: Id)
      modifies `tracking
      ensures tracking == old(tracking) - {id} && TrackingOf(tracking, id) == Untracked()
    {
      tracking := tracking - {id};
    }

    method DecideOne(id: Id, known: bool, o: Obs, deferred: seq<Id>) returns (decision: Decision, deferred': seq<Id>)
      modifies `tracking
      ensures var s := Decide(known, RetryOf(retryAt, id), TrackingOf(old(tracking), id), o, grace);
        decision == s.decision && TrackingOf(tracking, id) == s.tracking
      ensures deferred' == if decision.Defer? then deferred + [id] else deferred
      ensures forall other | other != id :: TrackingOf(tracking, other) == TrackingOf(old(tracking), other)
    {
      if !known { return Vanish, deferred; }
      if o.expired { return Fail, deferred; }
      var retry := RetryOf(retryAt, id);
      if retry != 0.0 && retry > o.now { return Defer(retry), deferred + [id]; }
      if !o.hasWorker { return Defer(retry), deferred + [id]; }
      if !o.measured { return Defer(o.now + 1.0), deferred + [id]; }
      if o.remote.Refused? {
        decision, deferred' :=
          HandleRemoteRefusal(id, o.remote.kind, o.remote.target, o.remote.reroute, o.now, deferred);
        return;
      }
      match o.local {
        case Parallel(first, after, reserved) =>
          var verdict := first;
          if !verdict.admissible && verdict.waitingUnload { verdict := after; }
          if !verdict.admissible { return Defer(o.now + 1.0), deferred + [id]; }
          if !reserved { return Defer(o.now + 1.0), deferred + [id]; }
        case Single(free, reusable, unloadHelps, freeAfter, reserved) =>
          if !free && !reusable {
            if !unloadHelps { return Defer(o.now + 1.0), deferred + [id]; }
            if !freeAfter { return Defer(o.now + 5.0), deferred + [id]; }
          }
          if !reserved { return Defer(o.now + 1.0), deferred + [id]; }
        case Unmanaged =>
      }
      return Dispatch(!o.local.Unmanaged?), deferred;
    }

    /** Takes the next task off the queue and decides about it. */
    method TakeOne(kind: Kind, look: Id -> Obs, deferred: seq<Id>)
      returns (taken: Option<Id>, decision: Decision, deferred': seq<Id>)
      requires kind != OtherKind && forall id | id in QueueOf(queue.State(), kind) :: id in queue.hashes
      modifies this, queue
      ensures taken.None? ==> QueueOf(queue.State(), kind) == map[] && queue.State() == old(queue.State())
      ensures taken.None? ==> retryAt == old(retryAt) && tracking == old(tracking)
      ensures taken.Some? ==> Least(QueueOf(old(queue.State()), kind), taken.value)
      ensures taken.Some? ==>
        var id, o := taken.value, look(taken.value);
        var step := Decide(id in old(queue.tasks), RetryOf(old(retryAt), id), TrackingOf(old(tracking), id), o, grace);
        && decision == step.decision && TrackingOf(tracking, id) == step.tracking
        && queue.State() == After(old(queue.State()), OpsFor(kind, id, decision, o.now))
        && retryAt == (if decision.Defer? then old(retryAt)[id := decision.retryAt] else old(retryAt))
        && deferred' == if decision.Defer? then deferred + [id] else deferred
      ensures forall other | taken != Some(other) :: TrackingOf(tracking, other) == TrackingOf(old(tracking), other)
    {
      taken := queue.PopNext(kind);
      if taken.None? { return None, Vanish, deferred; }
      var id := taken.value;
      decision, deferred' := DecideOne(id, id in queue.tasks, look(id), deferred);
      AfterOps(old(queue.State()), kind, id, decision, look(id).now);
      if decision.Fail? { queue.SetStatus(id, Failed, look(id).now); }
      if decision.Defer? { retryAt := retryAt[id := decision.retryAt]; }
    }

    function FrameNow(look: Id -> Obs): Frame
      reads this, queue
    {
      Frame(queue.tasks, retryAt, tracking, look, grace)
    }

    /** One turn of the loop. */
    method PopStep(kind: Kind, look: Id -> Obs, b: Notes, ghost s: Store, ghost f: Frame)
      returns (more: bool, b': Notes)
      requires kind != OtherKind && f.look == look && f.grace == grace
      requires Underway(s, queue.State(), f, kind, b, retryAt, tracking)
      modifies this, queue
      ensures Underway(s, queue.State(), f, kind, b', retryAt, tracking)
      ensures if more then |QueueOf(queue.State(), kind)| < |QueueOf(old(queue.State()), kind)|
        else QueueOf(queue.State(), kind) == map[]
    {
      ghost var before, retries, tracked := queue.State(), retryAt, tracking;
      StillHashed(s, before, f, kind, b, retries, tracked);
      var taken, decision, deferred := TakeOne(kind, look, b.deferred);
      if taken.None? { return false, b; }
      var id := taken.value;
      DecidedAsAtStart(s, before, f, kind, b, retries, tracked, id);
      if decision.Defer? { StillInMemory(before, kind, id, decision, look(id).now); }
      ghost var task := if decision.Defer? then Some(queue.tasks[id]) else None;
      UnderwayMore(s, before, f, kind, b, id, task, retries, retryAt, tracked, tracking);
      return true, Notes(b.order + [id], deferred,
                         if decision.Defer? then b.tasks + [queue.tasks[id]] else b.tasks,
                         if decision.Dispatch? then b.dispatched + [id] else b.dispatched);
    }

    /** Pop and decide until the queue is empty. */
    method PopAll(kind: Kind, look: Id -> Obs, ghost s: Store, ghost f: Frame) returns (b: Notes)
      requires kind != OtherKind && f.look == look && f.grace == grace
      requires Underway(s, queue.State(), f, kind, Notes([], [], [], []), retryAt, tracking)
      modifies this, queue
      ensures Underway(s, queue.State(), f, kind, b, retryAt, tracking) && QueueOf(queue.State(), kind) == map[]
    {
      var more := true;
      b := Notes([], [], [], []);
      while more
        invariant Underway(s, queue.State(), f, kind, b, retryAt, tracking)
        invariant !more ==> QueueOf(queue.State(), kind) == map[]
        decreases |QueueOf(queue.State(), kind)|, more
      {
        more, b := PopStep(kind, look, b, s, f);
      }
    }

    /** The pass itself: pop until the queue is empty, then put the deferred tasks back. */
    method RunPass(kind: Kind, look: Id -> Obs, now: real, ghost held: set<Id>)
      returns (order: seq<Id>, dispatched: seq<Id>)
      requires kind != OtherKind && AllSettled(queue.State(), held)
      modifies this, queue
      ensures Distinct(order) && forall id: Id :: id in order <==> id in QueueOf(old(queue.State()), kind)
      ensures InTurn(QueueOf(old(queue.State()), kind), map[], order)
      ensures dispatched == Dispatched(old(FrameNow(look)), order)
      ensures Aligned(old(FrameNow(look)), order, retryAt, tracking)
      ensures queue.State() == After(old(queue.State()), PassOps(old(FrameNow(look)), kind, order, now))
    {
      ghost var s, f := queue.State(), FrameNow(look);
      forall id: Id | id in QueueOf(s, kind)
        ensures id in s.hashes && id in s.memory { WaitingIsQueued(s, held, kind, id); }
      var b := PopAll(kind, look, s, f);
      order, dispatched := b.order, b.dispatched;
      ReAddAll(b.deferred, b.tasks, f, now);
      AfterTwice(s, Pops(f, kind, order), ReAdds(f, b.deferred, now));
    }

    method ReAddAll(deferred: seq<Id>, tasks: seq<Hash>, ghost f: Frame, now: real)
      requires |tasks| == |deferred|
      requires forall i | 0 <= i < |deferred| :: deferred[i] in f.memory && tasks[i] == f.memory[deferred[i]]
      modifies queue
      ensures queue.State() == After(old(queue.State()), ReAdds(f, deferred, now))
    {
      var ids, rest := deferred, tasks;
      while ids != []
        invariant |rest| == |ids| && forall i | 0 <= i < |ids| :: ids[i] in f.memory && rest[i] == f.memory[ids[i]]
        invariant After(queue.State(), ReAdds(f, ids, now)) == After(old(queue.State()), ReAdds(f, deferred, now))
        decreases |ids|
      {
        assert ([Timed(Add(ids[0], f.memory[ids[0]]), now)] + ReAdds(f, ids[1..], now))[1..] ==
          ReAdds(f, ids[1..], now);
        queue.AddTask(ids[0], rest[0], now);
        ids, rest := ids[1..], rest[1..];
      }
    }
  }
}
