/** Lock order of admission (core/resources.py, `_admission_guard`; core/resource.py).

    A guarded request takes the admission locks of its resources in sorted order, or the one
    global lock when it names none, enters its body, and there takes and drops the lock of
    one resource object at a time. Resources are numbered by their place in the sorted ids. */
module AdmissionLocks {
  import opened Sequences

  datatype Lock = Global | Guard(id: nat) | Leaf(id: nat)

  /** `Enter` marks the start of the `try` block; `Await` is any other suspension point. */
  datatype Action = Acquire(lock: Lock) | Release(lock: Lock) | Enter | Await

  datatype Process = Process(rest: seq<Action>, held: set<Lock>, entered: bool)

  /** `leaked` locks are held by nobody who could release them. */
  datatype System = System(procs: seq<Process>, leaked: set<Lock>)

  // ---- programs ---------------------------------------------------------------------

  datatype Use = UseLeaf(id: nat) | Wait

  datatype Request = Guarded(ids: set<nat>, uses: seq<Use>) | Plain(uses: seq<Use>)

  predicate Ascending(ids: seq<nat>) { forall i, j | 0 <= i < j < |ids| :: ids[i] < ids[j] }

  /** The ids below `n`, sorted. */
  function Sorted(ids: set<nat>, n: nat): (r: seq<nat>)
    ensures Ascending(r)
    ensures forall i :: i in r <==> i in ids && i < n
  {
    if n == 0 then []
    else
      var r := Sorted(ids, n - 1);
      assert forall i | 0 <= i < |r| :: r[i] in r;
      if n - 1 in ids then r + [n - 1] else r
  }

  function OneUse(u: Use): seq<Action> {
    match u
    case UseLeaf(i) => [Acquire(Leaf(i))] + [Release(Leaf(i))]
    case Wait => [Await]
  }

  function Body(uses: seq<Use>): seq<Action> {
    if uses == [] then [] else OneUse(uses[0]) + Body(uses[1..])
  }

  /** Takes the guards in order, runs `inner`, and releases them in reverse. */
  function Nest(ids: seq<nat>, inner: seq<Action>): seq<Action> {
    if ids == [] then inner else [Acquire(Guard(ids[0]))] + Nest(ids[1..], inner) + [Release(Guard(ids[0]))]
  }

  /** Ids that are not registered are ignored; `n` is the number of registered resources. */
  function Program(r: Request, n: nat): seq<Action> {
    match r
    case Plain(uses) => [Enter] + Body(uses)
    case Guarded(ids, uses) =>
      var sorted := Sorted(ids, n);
      if sorted == [] then [Acquire(Global)] + ([Enter] + Body(uses)) + [Release(Global)]
      else Nest(sorted, [Enter] + Body(uses))
  }

  predicate UsesBelow(uses: seq<Use>, n: nat) {
    uses == [] || ((uses[0].UseLeaf? ==> uses[0].id < n) && UsesBelow(uses[1..], n))
  }

  // ---- steps ------------------------------------------------------------------------

  function Held(s: System): set<Lock> { s.leaked + set p, l | 0 <= p < |s.procs| && l in s.procs[p].held :: l }

  predicate Unfinished(s: System, p: nat) { p < |s.procs| && s.procs[p].rest != [] }

  predicate Blocked(s: System, p: nat)
    requires Unfinished(s, p)
  {
    s.procs[p].rest[0].Acquire? && s.procs[p].rest[0].lock in Held(s)
  }

  predicate CanStep(s: System, p: nat) { Unfinished(s, p) && !Blocked(s, p) }

  function Advance(p: Process): Process
    requires p.rest != []
  {
    Process(p.rest[1..], Then(p.rest[0], p.held), p.entered || p.rest[0].Enter?)
  }

  function Step(s: System, p: nat): System
    requires CanStep(s, p)
  {
    s.(procs := s.procs[p := Advance(s.procs[p])])
  }

  /** A task can be cancelled where it is suspended. */
  predicate CanCancel(s: System, p: nat) { Unfinished(s, p) && (Blocked(s, p) || s.procs[p].rest[0].Await?) }

  /** Inside the `try` block the `finally` releases everything. The acquisition loop stands
      before it, so whatever was acquired there stays locked. */
  function Cancel(s: System, p: nat): System
    requires CanCancel(s, p)
  {
    var left := if s.procs[p].entered then {} else s.procs[p].held;
    System(s.procs[p := Process([], {}, s.procs[p].entered)], s.leaked + left)
  }

  datatype Event = StepOf(p: nat) | CancelOf(p: nat)

  predicate Enabled(s: System, e: Event) { if e.StepOf? then CanStep(s, e.p) else CanCancel(s, e.p) }

  function Apply(s: System, e: Event): System
    requires Enabled(s, e)
  {
    if e.StepOf? then Step(s, e.p) else Cancel(s, e.p)
  }

  predicate Possible(s: System, es: seq<Event>)
    decreases |es|
  {
    es == [] || (Enabled(s, es[0]) && Possible(Apply(s, es[0]), es[1..]))
  }

  function After(s: System, es: seq<Event>): System
    requires Possible(s, es)
    decreases |es|
  {
    if es == [] then s else After(Apply(s, es[0]), es[1..])
  }

  /** All processes at their start, no lock taken. */
  predicate Initial(s: System, requests: seq<Request>, n: nat) {
    && s.leaked == {} && |s.procs| == |requests|
    && forall p | 0 <= p < |requests| ::
      UsesBelow(requests[p].uses, n) && s.procs[p] == Process(Program(requests[p], n), {}, false)
  }

  // ---- the order on locks -----------------------------------------------------------

  function Rank(l: Lock, n: nat): nat {
    match l
    case Global => 0
    case Guard(i) => 1 + i
    case Leaf(i) => 1 + n + i
  }

  /** A lock is acquired above all held ones and released only when held. */
  predicate Allowed(a: Action, held: set<Lock>, n: nat) {
    match a
    case Acquire(l) => (forall h | h in held :: Rank(h, n) < Rank(l, n)) && Rank(l, n) <= 2 * n + 1
    case Release(l) => l in held
    case Enter => true
    case Await => true
  }

  function Then(a: Action, held: set<Lock>): set<Lock> {
    match a
    case Acquire(l) => held + {l}
    case Release(l) => held - {l}
    case Enter => held
    case Await => held
  }

  /** Every action is allowed in turn, and no lock is left over. */
  predicate Ordered(rest: seq<Action>, held: set<Lock>, n: nat)
    decreases |rest|
  {
    if rest == [] then held == {} else Allowed(rest[0], held, n) && Ordered(rest[1..], Then(rest[0], held), n)
  }

  lemma OrderedCons(a: Action, rest: seq<Action>, held: set<Lock>, n: nat)
    requires Allowed(a, held, n) && Ordered(rest, Then(a, held), n)
    ensures Ordered([a] + rest, held, n)
  {
    assert ([a] + rest)[1..] == rest;
  }

  lemma OneUseOrdered(u: Use, tail: seq<Action>, held: set<Lock>, n: nat)
    requires (u.UseLeaf? ==> u.id < n) && Ordered(tail, held, n)
    requires forall h | h in held :: !h.Leaf? && Rank(h, n) <= n
    ensures Ordered(OneUse(u) + tail, held, n)
  {
    match u
    case Wait => OrderedCons(Await, tail, held, n);
    case UseLeaf(i) =>
      assert held + {Leaf(i)} - {Leaf(i)} == held;
      OrderedCons(Release(Leaf(i)), tail, held + {Leaf(i)}, n);
      OrderedCons(Acquire(Leaf(i)), [Release(Leaf(i))] + tail, held, n);
      Regroup([Acquire(Leaf(i))], [Release(Leaf(i))], tail);
  }

  lemma {:induction false} BodyOrdered(uses: seq<Use>, after: seq<Action>, held: set<Lock>, n: nat)
    requires UsesBelow(uses, n) && Ordered(after, held, n)
    requires forall h | h in held :: !h.Leaf? && Rank(h, n) <= n
    ensures Ordered(Body(uses) + after, held, n)
    decreases |uses|
  {
    if uses == [] {
      assert Body(uses) + after == after;
    } else {
      BodyOrdered(uses[1..], after, held, n);
      OneUseOrdered(uses[0], Body(uses[1..]) + after, held, n);
      Regroup(OneUse(uses[0]), Body(uses[1..]), after);
    }
  }

  lemma {:induction false} NestOrdered(ids: seq<nat>, uses: seq<Use>, after: seq<Action>, held: set<Lock>, n: nat)
    requires Ascending(ids) && UsesBelow(uses, n) && Ordered(after, held, n)
    requires forall i | 0 <= i < |ids| :: ids[i] < n
    requires forall h | h in held :: !h.Leaf? && Rank(h, n) <= n
    requires forall h, i | h in held && 0 <= i < |ids| :: Rank(h, n) < 1 + ids[i]
    ensures Ordered(Nest(ids, [Enter] + Body(uses)) + after, held, n)
    decreases |ids|
  {
    if ids == [] {
      BodyOrdered(uses, after, held, n);
      OrderedCons(Enter, Body(uses) + after, held, n);
      Regroup([Enter], Body(uses), after);
    } else {
      var g, inner := Guard(ids[0]), [Enter] + Body(uses);
      assert held + {g} - {g} == held;
      OrderedCons(Release(g), after, held + {g}, n);
      NestOrdered(ids[1..], uses, [Release(g)] + after, held + {g}, n);
      OrderedCons(Acquire(g), Nest(ids[1..], inner) + ([Release(g)] + after), held, n);
      Regroup([Acquire(g)] + Nest(ids[1..], inner), [Release(g)], after);
      Regroup([Acquire(g)], Nest(ids[1..], inner), [Release(g)] + after);
    }
  }

  lemma ProgramOrdered(r: Request, n: nat)
    requires UsesBelow(r.uses, n)
    ensures Ordered(Program(r, n), {}, n)
  {
    match r
    case Plain(uses) =>
      BodyOrdered(uses, [], {}, n);
      assert Body(uses) + [] == Body(uses);
      OrderedCons(Enter, Body(uses), {}, n);
    case Guarded(ids, uses) =>
      var sorted := Sorted(ids, n);
      if sorted == [] {
        var inner := Body(uses) + [Release(Global)];
        OrderedCons(Release(Global), [], {Global}, n);
        assert [Release(Global)] + [] == [Release(Global)];
        BodyOrdered(uses, [Release(Global)], {Global}, n);
        OrderedCons(Enter, inner, {Global}, n);
        assert Then(Acquire(Global), {}) == {Global};
        OrderedCons(Acquire(Global), [Enter] + inner, {}, n);
        assert Program(r, n) == [Acquire(Global)] + ([Enter] + inner);
      } else {
        assert forall i | 0 <= i < |sorted| :: sorted[i] in sorted;
        NestOrdered(sorted, uses, [], {}, n);
        assert Nest(sorted, [Enter] + Body(uses)) + [] == Nest(sorted, [Enter] + Body(uses));
      }
  }

  // ---- what every step keeps --------------------------------------------------------

  ghost predicate Inv(s: System, n: nat) {
    && (forall p | 0 <= p < |s.procs| :: Ordered(s.procs[p].rest, s.procs[p].held, n))
    && (forall p, q | 0 <= p < |s.procs| && 0 <= q < |s.procs| && p != q :: s.procs[p].held !! s.procs[q].held)
    && (forall p | 0 <= p < |s.procs| :: s.procs[p].held !! s.leaked)
  }

  lemma InitialInv(s: System, requests: seq<Request>, n: nat)
    requires Initial(s, requests, n)
    ensures Inv(s, n)
  {
    forall p | 0 <= p < |s.procs| ensures Ordered(s.procs[p].rest, s.procs[p].held, n) {
      ProgramOrdered(requests[p], n);
    }
  }

  lemma StepInv(s: System, e: Event, n: nat)
    requires Inv(s, n) && Enabled(s, e)
    ensures Inv(Apply(s, e), n)
  {
  }

  lemma {:induction false} RunInv(s: System, es: seq<Event>, n: nat)
    requires Inv(s, n) && Possible(s, es)
    ensures Inv(After(s, es), n)
    decreases |es|
  {
    if es != [] {
      StepInv(s, es[0], n);
      RunInv(Apply(s, es[0]), es[1..], n);
    }
  }

  // ---- progress ---------------------------------------------------------------------

  predicate Wants(rest: seq<Action>, locks: set<Lock>) {
    exists i | 0 <= i < |rest| :: rest[i].Acquire? && rest[i].lock in locks
  }

  /** No process still needs a leaked lock. */
  predicate Unharmed(s: System) { forall p | 0 <= p < |s.procs| :: !Wants(s.procs[p].rest, s.leaked) }

  /** Following who holds what each process waits for climbs in rank, so it ends at a
      process that can step. */
  lemma {:induction false} SomeoneSteps(s: System, p: nat, n: nat) returns (q: nat)
    requires Inv(s, n) && Unfinished(s, p) && Unharmed(s)
    ensures CanStep(s, q)
    decreases if Blocked(s, p) then 2 * n + 2 - Rank(s.procs[p].rest[0].lock, n) else 0
  {
    if !Blocked(s, p) { return p; }
    var l := s.procs[p].rest[0].lock;
    assert l !in s.leaked;
    var holder: nat :| holder < |s.procs| && l in s.procs[holder].held;
    assert s.procs[holder].rest != [];
    q := SomeoneSteps(s, holder, n);
  }

  /** Main result: with no lock leaked, every reachable state in which some process is
      unfinished has a process able to step. Any number of processes, any requests, any
      interleaving, and cancellations anywhere that leak nothing. */
  lemma NoDeadlock(start: System, requests: seq<Request>, n: nat, es: seq<Event>, p: nat)
    requires Initial(start, requests, n) && Possible(start, es)
    requires After(start, es).leaked == {} && Unfinished(After(start, es), p)
    ensures exists q :: CanStep(After(start, es), q)
  {
    InitialInv(start, requests, n);
    RunInv(start, es, n);
    var q := SomeoneSteps(After(start, es), p, n);
  }

  // ---- completion, and what a leak does ---------------------------------------------

  predicate Finished(s: System) { forall p | 0 <= p < |s.procs| :: s.procs[p].rest == [] }

  function Work(procs: seq<Process>): nat {
    if procs == [] then 0 else |procs[0].rest| + Work(procs[1..])
  }

  lemma {:induction false} WorkShrinks(procs: seq<Process>, p: nat, after: Process)
    requires p < |procs| && |after.rest| < |procs[p].rest|
    ensures Work(procs[p := after]) < Work(procs)
    decreases |procs|
  {
    if p == 0 {
      assert procs[p := after][1..] == procs[1..];
    } else {
      assert procs[p := after][1..] == procs[1..][p - 1 := after];
      WorkShrinks(procs[1..], p - 1, after);
    }
  }

  lemma StepUnharmed(s: System, q: nat)
    requires CanStep(s, q) && Unharmed(s)
    ensures Unharmed(Step(s, q))
  {
    forall r | 0 <= r < |s.procs| ensures !Wants(Step(s, q).procs[r].rest, s.leaked) {
      if r == q { TailWants(s.procs[q].rest, s.leaked); }
    }
  }

  lemma TailWants(rest: seq<Action>, locks: set<Lock>)
    requires rest != []
    ensures Wants(rest[1..], locks) ==> Wants(rest, locks)
  {
    if Wants(rest[1..], locks) {
      var i :| 0 <= i < |rest[1..]| && rest[1..][i].Acquire? && rest[1..][i].lock in locks;
      assert rest[i + 1] == rest[1..][i];
    }
  }

  /** No run of steps is longer than the work at hand, so with `NoDeadlock` every run that
      keeps going finishes every process. */
  lemma {:induction false} StepsAreBounded(s: System, es: seq<Event>)
    requires Possible(s, es) && forall i | 0 <= i < |es| :: es[i].StepOf?
    ensures |es| + Work(After(s, es).procs) <= Work(s.procs)
    decreases |es|
  {
    if es != [] {
      WorkShrinks(s.procs, es[0].p, Advance(s.procs[es[0].p]));
      StepsAreBounded(Apply(s, es[0]), es[1..]);
    }
  }

  /** If nobody needs a leaked lock, some schedule finishes every process. */
  lemma {:induction false} CanFinish(s: System, n: nat) returns (es: seq<Event>)
    requires Inv(s, n) && Unharmed(s)
    ensures Possible(s, es) && Finished(After(s, es))
    ensures forall i | 0 <= i < |es| :: es[i].StepOf?
    decreases Work(s.procs)
  {
    es := [];
    if !Finished(s) {
      var p: nat :| p < |s.procs| && s.procs[p].rest != [];
      var q := SomeoneSteps(s, p, n);
      WorkShrinks(s.procs, q, Advance(s.procs[q]));
      StepInv(s, StepOf(q), n);
      StepUnharmed(s, q);
      var later := CanFinish(Step(s, q), n);
      es := [StepOf(q)] + later;
      assert es[1..] == later;
    }
  }

  /** A process that needs a leaked lock never finishes by steps, whatever the others do. */
  lemma {:induction false} NeedsLeakedNeverFinishes(s: System, p: nat, es: seq<Event>)
    requires p < |s.procs| && Wants(s.procs[p].rest, s.leaked) && Possible(s, es)
    requires forall i | 0 <= i < |es| :: es[i] != CancelOf(p)
    ensures !Finished(After(s, es))
    decreases |es|
  {
    if es != [] {
      var next := Apply(s, es[0]);
      assert s.leaked <= next.leaked;
      assert es[0] == StepOf(p) ==> s.procs[p].rest[0].Acquire? ==> s.procs[p].rest[0].lock !in s.leaked;
      StillWants(s.procs[p].rest, s.leaked);
      assert next.procs[p].rest == (if es[0].p == p then s.procs[p].rest[1..] else s.procs[p].rest);
      var rest := next.procs[p].rest;
      assert Wants(rest, s.leaked);
      var i :| 0 <= i < |rest| && rest[i].Acquire? && rest[i].lock in s.leaked;
      assert rest[i].lock in next.leaked;
      NeedsLeakedNeverFinishes(next, p, es[1..]);
    }
  }

  lemma StillWants(rest: seq<Action>, locks: set<Lock>)
    requires rest != [] && Wants(rest, locks)
    ensures (rest[0].Acquire? && rest[0].lock in locks) || Wants(rest[1..], locks)
  {
    var i :| 0 <= i < |rest| && rest[i].Acquire? && rest[i].lock in locks;
    if i > 0 { assert rest[1..][i - 1] == rest[i]; }
  }

  /** In any reachable state the processes can all be driven to their end exactly when none
      of them still needs a leaked lock. */
  lemma CompletionIff(start: System, requests: seq<Request>, n: nat, past: seq<Event>)
    requires Initial(start, requests, n) && Possible(start, past)
    ensures var s := After(start, past);
      (exists es: seq<Event> ::
        Possible(s, es) && (forall i | 0 <= i < |es| :: es[i].StepOf?) && Finished(After(s, es))) <==> Unharmed(s)
  {
    InitialInv(start, requests, n);
    RunInv(start, past, n);
    var s := After(start, past);
    if Unharmed(s) {
      var es := CanFinish(s, n);
    } else {
      var p: nat :| p < |s.procs| && Wants(s.procs[p].rest, s.leaked);
      forall es: seq<Event> | Possible(s, es) && (forall i | 0 <= i < |es| :: es[i].StepOf?)
        ensures !Finished(After(s, es)) {
        NeedsLeakedNeverFinishes(s, p, es);
      }
    }
  }

  // ---- which cancellations leak -----------------------------------------------------

  /** The process waits for the guard of one of its ids, and has a smaller registered one. */
  predicate WaitsForLater(r: Request, a: Action, n: nat) {
    && r.Guarded? && a.Acquire? && a.lock.Guard? && a.lock.id in r.ids && a.lock.id < n
    && exists i | i in r.ids :: i < a.lock.id
  }

  function Guards(ids: seq<nat>): set<Lock> { set i | i in ids :: Guard(i) }

  /** Past the guards: only leaf locks are still taken. */
  predicate OnlyLeaves(rest: seq<Action>) { forall i | 0 <= i < |rest| && rest[i].Acquire? :: rest[i].lock.Leaf? }

  /** The rest of a program that still has to take the guards of `todo` before its body. */
  predicate Climbing(rest: seq<Action>, todo: seq<nat>)
    decreases |todo|
  {
    rest != [] &&
    if todo == [] then rest[0] == Enter && OnlyLeaves(rest[1..])
    else rest[0] == Acquire(Guard(todo[0])) && Climbing(rest[1..], todo[1..])
  }

  /** In the acquisition loop, with `done` taken and `todo` to take. */
  predicate InLoop(p: Process, r: Request, n: nat, done: seq<nat>, todo: seq<nat>) {
    r.Guarded? && !p.entered && Sorted(r.ids, n) == done + todo && p.held == Guards(done) && Climbing(p.rest, todo)
  }

  /** Before a body that needs no guard, or under the global lock. */
  predicate BeforeBody(p: Process) {
    && !p.entered && p.rest != []
    && ((p.held == {} && p.rest[0] == Acquire(Global) && Climbing(p.rest[1..], [])) || Climbing(p.rest, []))
  }

  ghost predicate Follows(p: Process, r: Request, n: nat) {
    p.rest == [] || (p.entered && OnlyLeaves(p.rest)) || BeforeBody(p) || exists done, todo ::
      InLoop(p, r, n, done, todo)
  }

  lemma {:induction false} BodyOnlyLeaves(uses: seq<Use>)
    ensures OnlyLeaves(Body(uses))
    decreases |uses|
  {
    if uses != [] { BodyOnlyLeaves(uses[1..]); }
  }

  lemma {:induction false} ClimbingMore(rest: seq<Action>, todo: seq<nat>, l: Lock)
    requires Climbing(rest, todo)
    ensures Climbing(rest + [Release(l)], todo)
    decreases |todo|
  {
    assert (rest + [Release(l)])[1..] == rest[1..] + [Release(l)];
    if todo != [] { ClimbingMore(rest[1..], todo[1..], l); }
  }

  lemma {:induction false} NestClimbs(ids: seq<nat>, uses: seq<Use>)
    ensures Climbing(Nest(ids, [Enter] + Body(uses)), ids)
    decreases |ids|
  {
    var inner := [Enter] + Body(uses);
    if ids == [] {
      BodyOnlyLeaves(uses);
      assert inner[1..] == Body(uses);
    } else {
      NestClimbs(ids[1..], uses);
      assert ([Acquire(Guard(ids[0]))] + Nest(ids[1..], inner))[1..] == Nest(ids[1..], inner);
      ClimbingMore([Acquire(Guard(ids[0]))] + Nest(ids[1..], inner), ids, Guard(ids[0]));
    }
  }

  lemma ProgramFollows(r: Request, n: nat)
    ensures Follows(Process(Program(r, n), {}, false), r, n)
  {
    var p, inner := Process(Program(r, n), {}, false), [Enter] + Body(r.uses);
    NestClimbs([], r.uses);
    if r.Guarded? {
      var sorted := Sorted(r.ids, n);
      if sorted == [] {
        ClimbingMore(inner, [], Global);
        assert p.rest[1..] == inner + [Release(Global)];
      } else {
        NestClimbs(sorted, r.uses);
        assert sorted == [] + sorted && Guards([]) == {};
        assert InLoop(p, r, n, [], sorted);
      }
    }
  }

  lemma LoopAdvances(p: Process, r: Request, n: nat, done: seq<nat>, todo: seq<nat>)
    requires InLoop(p, r, n, done, todo)
    ensures Follows(Advance(p), r, n)
  {
    if todo != [] {
      var more := done + [todo[0]];
      assert done + todo == more + todo[1..];
      assert forall i :: i in more <==> i in done || i == todo[0];
      assert Guards(more) == Guards(done) + {Guard(todo[0])};
      assert InLoop(Advance(p), r, n, more, todo[1..]);
    }
  }

  lemma AdvanceFollows(p: Process, r: Request, n: nat)
    requires Follows(p, r, n) && p.rest != []
    ensures Follows(Advance(p), r, n)
  {
    if p.entered || BeforeBody(p) {
    } else {
      var done, todo :| InLoop(p, r, n, done, todo);
      LoopAdvances(p, r, n, done, todo);
    }
  }

  ghost predicate AllFollow(s: System, requests: seq<Request>, n: nat) {
    |s.procs| == |requests| && forall p | 0 <= p < |s.procs| :: Follows(s.procs[p], requests[p], n)
  }

  lemma EventFollows(s: System, requests: seq<Request>, n: nat, e: Event)
    requires AllFollow(s, requests, n) && Enabled(s, e)
    ensures AllFollow(Apply(s, e), requests, n)
  {
    if e.StepOf? { AdvanceFollows(s.procs[e.p], requests[e.p], n); }
    assert forall q | 0 <= q < |s.procs| && q != e.p :: Apply(s, e).procs[q] == s.procs[q];
  }

  lemma {:induction false} RunFollows(s: System, requests: seq<Request>, n: nat, es: seq<Event>)
    requires AllFollow(s, requests, n) && Possible(s, es)
    ensures AllFollow(After(s, es), requests, n)
    decreases |es|
  {
    if es != [] {
      EventFollows(s, requests, n, es[0]);
      RunFollows(Apply(s, es[0]), requests, n, es[1..]);
    }
  }

  lemma LoopWaitsForLater(p: Process, r: Request, n: nat, done: seq<nat>, todo: seq<nat>)
    requires InLoop(p, r, n, done, todo) && todo != []
    ensures WaitsForLater(r, p.rest[0], n) <==> done != []
    ensures forall i | i in done :: i in r.ids && i < todo[0]
    ensures forall i | i in r.ids && i < todo[0] :: i in done
  {
    var sorted, k := Sorted(r.ids, n), |done|;
    assert sorted[k] == todo[0] && sorted[k] in sorted;
    forall i | i in done ensures i in r.ids && i < todo[0] {
      var j :| 0 <= j < k && done[j] == i;
      assert sorted[j] == i && sorted[j] in sorted;
    }
    forall i | i in r.ids && i < todo[0] ensures i in done {
      assert i in sorted;
      var j :| 0 <= j < |sorted| && sorted[j] == i;
      assert j < k && done[j] == i;
    }
    if done != [] { assert done[0] in done; }
  }

  /** Main result: in every reachable state, cancelling a process leaks a lock exactly when it
      waits for one of its registered ids and has a smaller one; then the guards of all its
      smaller ids leak. */
  lemma CancelLeaksIff(start: System, requests: seq<Request>, n: nat, past: seq<Event>, p: nat)
    requires Initial(start, requests, n) && Possible(start, past) && CanCancel(After(start, past), p)
    ensures p < |requests|
    ensures var s := After(start, past);
      && (Cancel(s, p).leaked != s.leaked <==> WaitsForLater(requests[p], s.procs[p].rest[0], n))
      && (WaitsForLater(requests[p], s.procs[p].rest[0], n) ==>
          Cancel(s, p).leaked == s.leaked + set i | i in requests[p].ids && i < s.procs[p].rest[0].lock.id :: Guard(i))
  {
    InitialInv(start, requests, n);
    RunInv(start, past, n);
    forall q | 0 <= q < |requests| ensures Follows(start.procs[q], requests[q], n) { ProgramFollows(requests[q], n); }
    RunFollows(start, requests, n, past);
    var s := After(start, past);
    CancelLeaks(s, requests[p], n, p);
  }

  lemma CancelLeaks(s: System, r: Request, n: nat, p: nat)
    requires Inv(s, n) && CanCancel(s, p) && Follows(s.procs[p], r, n)
    ensures Cancel(s, p).leaked != s.leaked <==> WaitsForLater(r, s.procs[p].rest[0], n)
    ensures WaitsForLater(r, s.procs[p].rest[0], n) ==>
      Cancel(s, p).leaked == s.leaked + set i | i in r.ids && i < s.procs[p].rest[0].lock.id :: Guard(i)
  {
    var proc := s.procs[p];
    if proc.entered || BeforeBody(proc) {
      assert Cancel(s, p).leaked == s.leaked + {} == s.leaked;
    } else {
      var done, todo :| InLoop(proc, r, n, done, todo);
      LoopWaitsForLater(proc, r, n, done, todo);
      assert Guards(done) == set i | i in r.ids && i < todo[0] :: Guard(i);
      if done == [] {
        assert Guards(done) == {};
      } else {
        assert Guard(done[0]) in proc.held && Guard(done[0]) !in s.leaked;
      }
    }
  }

  /** A request that needs no guard, or names at most one registered resource, never leaks. */
  lemma OneResourceNeverLeaks(start: System, requests: seq<Request>, n: nat, past: seq<Event>, p: nat)
    requires Initial(start, requests, n) && Possible(start, past) && CanCancel(After(start, past), p)
    requires p < |requests| &&
      (requests[p].Plain? || forall i, j | i in requests[p].ids && j in requests[p].ids && i < n && j < n :: i == j)
    ensures Cancel(After(start, past), p).leaked == After(start, past).leaked
  {
    CancelLeaksIff(start, requests, n, past, p);
  }

  // ---- a leak, step by step ---------------------------------------------------------

  function Begun(requests: seq<Request>, n: nat): System {
    System(seq(|requests|, i requires 0 <= i < |requests| => Process(Program(requests[i], n), {}, false)), {})
  }

  lemma BegunIsInitial(requests: seq<Request>, n: nat)
    requires forall p | 0 <= p < |requests| :: UsesBelow(requests[p].uses, n)
    ensures Initial(Begun(requests, n), requests, n) && Held(Begun(requests, n)) == {}
  {
  }

  lemma SortedOne(a: nat, n: nat)
    requires a < n
    ensures Sorted({a}, n) == [a]
  {
    var r := Sorted({a}, n);
    assert a in r && forall i | 0 <= i < |r| :: r[i] in r;
    assert forall i | 0 <= i < |r| :: r[i] == a;
    assert r[0] == a && r[|r| - 1] == a;
  }

  lemma SortedBoth(a: nat, b: nat, n: nat)
    requires a < b < n
    ensures var r := Sorted({a, b}, n); |r| > 1 && r[0] == a && r[1] == b
  {
    var r := Sorted({a, b}, n);
    assert forall i | 0 <= i < |r| :: r[i] in r;
    assert a in r && b in r;
    var i, j :| 0 <= i < |r| && 0 <= j < |r| && r[i] == a && r[j] == b;
    assert r[0] >= a && i == 0;
    assert r[1] > a && j == 1;
  }

  lemma ProgramStarts(r: Request, n: nat)
    requires r.Guarded? && Sorted(r.ids, n) != []
    ensures var p, sorted := Program(r, n), Sorted(r.ids, n);
      && p != [] && p[0] == Acquire(Guard(sorted[0]))
      && (|sorted| > 1 ==> |p| > 1 && p[1] == Acquire(Guard(sorted[1])))
  {
    var ids, inner := Sorted(r.ids, n), [Enter] + Body(r.uses);
    Regroup([Acquire(Guard(ids[0]))], Nest(ids[1..], inner), [Release(Guard(ids[0]))]);
  }

  /** Two processes take a lock each, and the second waits for the lock of the first. */
  lemma WaitsAfterTwoSteps(s: System, p: nat, q: nat, a: Lock, b: Lock)
    requires p < |s.procs| && q < |s.procs| && p != q && a != b && !s.procs[q].entered
    requires s.leaked == {} && forall r | 0 <= r < |s.procs| :: s.procs[r].held == {}
    requires s.procs[p].rest != [] && s.procs[p].rest[0] == Acquire(b)
    requires |s.procs[q].rest| > 1 && s.procs[q].rest[0] == Acquire(a) && s.procs[q].rest[1] == Acquire(b)
    ensures CanStep(s, p) && CanStep(Step(s, p), q) && CanCancel(Step(Step(s, p), q), q)
    ensures a in Cancel(Step(Step(s, p), q), q).leaked
    ensures forall r | 0 <= r < |s.procs| && r != p && r != q :: Cancel(Step(Step(s, p), q), q).procs[r] == s.procs[r]
  {
    var one := Step(s, p);
    assert forall r | 0 <= r < |s.procs| :: one.procs[r].held == if r == p then {b} else {};
    assert Held(one) <= {b};
    var two := Step(one, q);
    assert two.procs[p] == one.procs[p] && b in two.procs[p].held && b in Held(two);
    assert a in two.procs[q].held;
  }

  /** Three events, one after the other. */
  lemma ThreeEvents(s: System, x: Event, y: Event, z: Event)
    requires Enabled(s, x) && Enabled(Apply(s, x), y) && Enabled(Apply(Apply(s, x), y), z)
    ensures Possible(s, [x, y, z]) && After(s, [x, y, z]) == Apply(Apply(Apply(s, x), y), z)
  {
    var one := Apply(s, x);
    var two := Apply(one, y);
    var three := Apply(two, z);
    assert [x, y, z][1..] == [y, z] && [y, z][1..] == [z] && [z][1..] == [];
    assert Possible(three, []) && After(three, []) == three;
    assert Possible(two, [z]) && After(two, [z]) == three;
    assert Possible(one, [y, z]) && After(one, [y, z]) == three;
  }

  /** One request holds resource `b`, the next takes `a` and waits for `b`, and is cancelled
      there: a third one, which needs `a`, never gets it. */
  lemma LeakStrandsAnother(a: nat, b: nat, n: nat, uses: seq<Use>, es: seq<Event>)
    requires a < b < n && UsesBelow(uses, n)
    ensures var requests := [Guarded({b}, uses), Guarded({a, b}, uses), Guarded({a}, uses)];
      var start, past := Begun(requests, n), [StepOf(0), StepOf(1), CancelOf(1)];
      && Initial(start, requests, n) && Possible(start, past)
      && (Possible(After(start, past), es) && (forall i | 0 <= i < |es| :: es[i] != CancelOf(2))
          ==> !Finished(After(After(start, past), es)))
  {
    var requests := [Guarded({b}, uses), Guarded({a, b}, uses), Guarded({a}, uses)];
    var start := Begun(requests, n);
    BegunIsInitial(requests, n);
    SortedOne(a, n);
    SortedOne(b, n);
    SortedBoth(a, b, n);
    ProgramStarts(requests[0], n);
    ProgramStarts(requests[1], n);
    ProgramStarts(requests[2], n);
    WaitsAfterTwoSteps(start, 0, 1, Guard(a), Guard(b));
    ThreeEvents(start, StepOf(0), StepOf(1), CancelOf(1));
    StrandedByLeak(Cancel(Step(Step(start, 0), 1), 1), 2, Guard(a), es);
  }

  lemma StrandedByLeak(s: System, p: nat, l: Lock, es: seq<Event>)
    requires p < |s.procs| && s.procs[p].rest != [] && s.procs[p].rest[0] == Acquire(l) && l in s.leaked
    ensures Possible(s, es) && (forall i | 0 <= i < |es| :: es[i] != CancelOf(p)) ==> !Finished(After(s, es))
  {
    assert Wants(s.procs[p].rest, s.leaked);
    if Possible(s, es) && forall i | 0 <= i < |es| :: es[i] != CancelOf(p) { NeedsLeakedNeverFinishes(s, p, es); }
  }
}
