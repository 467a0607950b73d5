/** Remote refusals over the life of one task (core/scheduler.py, `_handle_remote_refusal`
    and the route refreshes around it): which candidates a refresh avoids, and when the
    refusals end the task. Both are stated about the history of refusals itself. */
module RemoteRefusals {
  import opened Basics
  import opened Sequences
  import opened SchedulerPass

  datatype Refused = Refused(kind: Refusal, target: Target, reroute: set<Target> -> bool, now: real)

  function Answer(t: Tracking, r: Refused, grace: real): Step { Refuse(t, r.kind, r.target, r.reroute, r.now, grace) }

  /** What is remembered after these refusals, one after the other. */
  function Tracked(t: Tracking, rs: seq<Refused>, grace: real): Tracking {
    if rs == [] then t else Answer(Tracked(t, Front(rs), grace), Final(rs), grace).tracking
  }

  /** Whether one of these refusals fails the task. */
  predicate FailsWithin(t: Tracking, rs: seq<Refused>, grace: real) {
    rs != [] &&
    (FailsWithin(t, Front(rs), grace) || Answer(Tracked(t, Front(rs), grace), Final(rs), grace).decision.Fail?)
  }

  // ---- the history, without the handler ---------------------------------------------

  /** Who refused for capacity. */
  function Incapable(rs: seq<Refused>): set<Target> {
    if rs == [] then {}
    else if Final(rs).kind == Capacity then Incapable(Front(rs)) + {Final(rs).target}
    else Incapable(Front(rs))
  }

  /** The refresh after `r` finds another candidate although it avoids those that refused for
      capacity before, and one that did not answer. */
  predicate Detours(t: Tracking, before: seq<Refused>, r: Refused) {
    r.reroute(t.blocked + Incapable(before) + if r.kind == Unreachable then {r.target} else {})
  }

  predicate NoWayAround(t: Tracking, before: seq<Refused>, r: Refused) { r.kind == Capacity && !Detours(t, before, r) }

  /** The first capacity refusal that no refresh got around starts the grace period. */
  function GraceStart(t: Tracking, rs: seq<Refused>): Option<real> {
    if rs == [] then t.graceSince
    else
      var start := GraceStart(t, Front(rs));
      if start.None? && NoWayAround(t, Front(rs), Final(rs)) then Some(Final(rs).now) else start
  }

  predicate PastGrace(start: Option<real>, now: real, grace: real) {
    grace <= 0.0 || (start.Some? && now - start.value >= grace)
  }

  predicate Counts(t: Tracking, before: seq<Refused>, r: Refused, grace: real) {
    NoWayAround(t, before, r) && PastGrace(GraceStart(t, before), r.now, grace)
  }

  /** The refusals that count since the last detour. */
  function Tally(t: Tracking, rs: seq<Refused>, grace: real): nat {
    if rs == [] then t.count
    else if Detours(t, Front(rs), Final(rs)) then 0
    else if Counts(t, Front(rs), Final(rs), grace) then Tally(t, Front(rs), grace) + 1
    else Tally(t, Front(rs), grace)
  }

  // ---- the handler follows the history ----------------------------------------------

  /** What is remembered, told from the history. */
  predicate Mirrors(t: Tracking, rs: seq<Refused>, grace: real, now: Tracking) {
    && now.blocked == t.blocked + Incapable(rs) && now.count == Tally(t, rs, grace)
    && (grace > 0.0 ==> now.graceSince == GraceStart(t, rs))
  }

  lemma LastMirrors(t: Tracking, rs: seq<Refused>, grace: real, now: Tracking)
    requires rs != [] && Mirrors(t, Front(rs), grace, now) && now.count < MAX_REMOTE_REFUSALS
    ensures var s := Answer(now, Final(rs), grace);
      && (s.decision.Fail? <==> Tally(t, rs, grace) >= MAX_REMOTE_REFUSALS)
      && (!s.decision.Fail? ==> Mirrors(t, rs, grace, s.tracking))
  {
    var r, avoided := Final(rs), t.blocked + Incapable(Front(rs));
    assert avoided + {} == avoided;
    assert Avoided(now, r.kind, r.target) == avoided + if r.kind == Unreachable then {r.target} else {};
    assert t.blocked + (Incapable(Front(rs)) + {r.target}) == avoided + {r.target};
    assert r.reroute(Avoided(now, r.kind, r.target)) <==> Detours(t, Front(rs), r);
  }

  lemma AnswerMirrors(t: Tracking, before: seq<Refused>, r: Refused, grace: real, now: Tracking)
    requires Mirrors(t, before, grace, now) && now.count < MAX_REMOTE_REFUSALS
    ensures Answer(now, r, grace).decision.Fail? <==> Tally(t, before + [r], grace) >= MAX_REMOTE_REFUSALS
    ensures !Answer(now, r, grace).decision.Fail? ==> Mirrors(t, before + [r], grace, Answer(now, r, grace).tracking)
  {
    Snoc(before, r);
    LastMirrors(t, before + [r], grace, now);
  }

  lemma {:induction false} TrackedMirrors(t: Tracking, rs: seq<Refused>, grace: real)
    requires t.count < MAX_REMOTE_REFUSALS && !FailsWithin(t, rs, grace)
    ensures Mirrors(t, rs, grace, Tracked(t, rs, grace)) && Tally(t, rs, grace) < MAX_REMOTE_REFUSALS
    decreases |rs|
  {
    if rs == [] {
      assert t.blocked + {} == t.blocked;
    } else {
      TrackedMirrors(t, Front(rs), grace);
      LastMirrors(t, rs, grace, Tracked(t, Front(rs), grace));
    }
  }

  lemma {:induction false} FullTallyFails(t: Tracking, rs: seq<Refused>, p: seq<Refused>, grace: real)
    requires t.count < MAX_REMOTE_REFUSALS && p <= rs && Tally(t, p, grace) >= MAX_REMOTE_REFUSALS
    ensures FailsWithin(t, rs, grace)
    decreases |rs|
  {
    if |p| < |rs| {
      FullTallyFails(t, Front(rs), p, grace);
    } else {
      assert p == rs;
      if !FailsWithin(t, rs, grace) { TrackedMirrors(t, rs, grace); }
    }
  }

  lemma {:induction false} FailureHasFullTally(t: Tracking, rs: seq<Refused>, grace: real) returns (p: seq<Refused>)
    requires t.count < MAX_REMOTE_REFUSALS && FailsWithin(t, rs, grace)
    ensures p <= rs && Tally(t, p, grace) >= MAX_REMOTE_REFUSALS
    decreases |rs|
  {
    if FailsWithin(t, Front(rs), grace) {
      p := FailureHasFullTally(t, Front(rs), grace);
    } else {
      TrackedMirrors(t, Front(rs), grace);
      LastMirrors(t, rs, grace, Tracked(t, Front(rs), grace));
      p := rs;
    }
  }

  /** Main result: refusals fail the task exactly when, at some point, five of them have
      counted since the last detour. */
  lemma FailsIff(t: Tracking, rs: seq<Refused>, grace: real)
    requires t.count < MAX_REMOTE_REFUSALS
    ensures FailsWithin(t, rs, grace) <==> exists p | p <= rs :: Tally(t, p, grace) >= 5
  {
    if FailsWithin(t, rs, grace) {
      var p := FailureHasFullTally(t, rs, grace);
    } else {
      forall p | p <= rs ensures Tally(t, p, grace) < MAX_REMOTE_REFUSALS {
        if Tally(t, p, grace) >= MAX_REMOTE_REFUSALS { FullTallyFails(t, rs, p, grace); }
      }
    }
  }

  /** Capacity refusals after the grace period that no refresh gets around. */
  ghost predicate Stuck(rs: seq<Refused>, since: real, grace: real) {
    forall i | 0 <= i < |rs| ::
      rs[i].kind == Capacity && rs[i].now - since >= grace && forall avoid: set<Target> :: !rs[i].reroute(avoid)
  }

  lemma {:induction false} StuckTally(t: Tracking, rs: seq<Refused>, since: real, grace: real)
    requires (grace > 0.0 ==> t.graceSince == Some(since)) && Stuck(rs, since, grace)
    ensures Tally(t, rs, grace) == t.count + |rs|
    ensures grace > 0.0 ==> GraceStart(t, rs) == Some(since)
    decreases |rs|
  {
    if rs != [] {
      StuckTally(t, Front(rs), since, grace);
      assert Final(rs) == rs[|rs| - 1];
    }
  }

  /** A task that only meets such refusals fails at the fifth one, not before. */
  lemma StuckFailsAtFifth(t: Tracking, rs: seq<Refused>, since: real, grace: real)
    requires t.count < MAX_REMOTE_REFUSALS && (grace > 0.0 ==> t.graceSince == Some(since)) && Stuck(rs, since, grace)
    ensures FailsWithin(t, rs, grace) <==> |rs| >= 5 - t.count
  {
    FailsIff(t, rs, grace);
    StuckTally(t, rs, since, grace);
    assert rs <= rs;
    forall p | p <= rs ensures Tally(t, p, grace) == t.count + |p| {
      assert forall i | 0 <= i < |p| :: p[i] == rs[i];
      StuckTally(t, p, since, grace);
    }
  }

  lemma {:induction false} DetoursKeepTallyLow(t: Tracking, rs: seq<Refused>, grace: real)
    requires t.count == 0
    requires forall i, avoid: set<Target> | 0 <= i < |rs| && i % 2 == 1 :: rs[i].reroute(avoid)
    ensures Tally(t, rs, grace) <= 1 && (|rs| % 2 == 0 ==> Tally(t, rs, grace) == 0)
    decreases |rs|
  {
    if rs != [] {
      DetoursKeepTallyLow(t, Front(rs), grace);
      if |rs| % 2 == 0 { assert Final(rs) == rs[|rs| - 1] && Detours(t, Front(rs), Final(rs)); }
    }
  }

  /** Every detour resets the count: a task that is moved away and sent back again is
      refused for ever without failing, however often that happens. */
  lemma DetoursNeverFail(t: Tracking, rs: seq<Refused>, grace: real)
    requires t.count == 0
    requires forall i, avoid: set<Target> | 0 <= i < |rs| && i % 2 == 1 :: rs[i].reroute(avoid)
    ensures !FailsWithin(t, rs, grace)
  {
    FailsIff(t, rs, grace);
    forall p | p <= rs ensures Tally(t, p, grace) <= 1 {
      assert forall i | 0 <= i < |p| :: p[i] == rs[i];
      DetoursKeepTallyLow(t, p, grace);
    }
  }

  // ---- the life of a task -----------------------------------------------------------

  /** A pass refreshes the route before it looks at the task, without avoiding anyone; a
      refusal refreshes it again; the end of a run drops what is remembered. */
  datatype RouteEvent = PassStart | Refusing(r: Refused) | Cleared

  function Remembered(h: seq<RouteEvent>, grace: real): Tracking {
    if h == [] then Untracked()
    else
      match Final(h)
      case PassStart => Remembered(Front(h), grace)
      case Refusing(r) => Answer(Remembered(Front(h), grace), r, grace).tracking
      case Cleared => Untracked()
  }

  /** What the refresh of `e` is told to avoid. */
  function AvoidedAt(h: seq<RouteEvent>, e: RouteEvent, grace: real): set<Target>
    requires !e.Cleared?
  {
    match e
    case PassStart => {}
    case Refusing(r) => Avoided(Remembered(h, grace), r.kind, r.target)
  }

  /** The refusals since what is remembered was last dropped: at the end of a run, or when
      five refusals have counted. */
  function Life(h: seq<RouteEvent>, grace: real): seq<Refused> {
    if h == [] then []
    else
      var life := Life(Front(h), grace);
      match Final(h)
      case PassStart => life
      case Refusing(r) => if Ending(life, r, grace) then [] else life + [r]
      case Cleared => []
  }

  predicate Ending(life: seq<Refused>, r: Refused, grace: real) {
    Tally(Untracked(), life + [r], grace) >= 5
  }

  /** The last event of `h` drops what is remembered. */
  predicate Drops(h: seq<RouteEvent>, grace: real)
    requires h != []
  {
    Final(h).Cleared? || (Final(h).Refusing? && Ending(Life(Front(h), grace), Final(h).r, grace))
  }

  lemma {:induction false} RememberedIsLife(h: seq<RouteEvent>, grace: real)
    ensures Mirrors(Untracked(), Life(h, grace), grace, Remembered(h, grace))
    ensures Remembered(h, grace).count < MAX_REMOTE_REFUSALS
    decreases |h|
  {
    if h != [] {
      RememberedIsLife(Front(h), grace);
      if Final(h).Refusing? {
        AnswerMirrors(Untracked(), Life(Front(h), grace), Final(h).r, grace, Remembered(Front(h), grace));
      }
    }
  }

  predicate RefusesFor(e: RouteEvent, c: Target) { e.Refusing? && e.r.kind == Capacity && e.r.target == c }

  /** Event `i` was a capacity refusal by `c`, and nothing has been dropped from then on. */
  ghost predicate StandsSince(h: seq<RouteEvent>, c: Target, i: int, grace: real)
    requires 0 <= i < |h|
  {
    RefusesFor(h[i], c) && forall j | i < j <= |h| :: !Drops(h[..j], grace)
  }

  lemma StandsInFront(h: seq<RouteEvent>, c: Target, i: int, grace: real)
    requires 0 <= i < |h| - 1
    ensures StandsSince(h, c, i, grace) <==> StandsSince(Front(h), c, i, grace) && !Drops(h, grace)
  {
    assert h[..|h|] == h;
    forall j | i < j < |h| ensures h[..j] == Front(h)[..j] { }
    if StandsSince(Front(h), c, i, grace) && !Drops(h, grace) {
      forall j | i < j <= |h| ensures !Drops(h[..j], grace) {
        if j < |h| { assert h[..j] == Front(h)[..j]; }
      }
    }
    if StandsSince(h, c, i, grace) {
      forall j | i < j < |h| ensures !Drops(Front(h)[..j], grace) { assert h[..j] == Front(h)[..j]; }
    }
  }

  lemma {:induction false} IncapableIff(h: seq<RouteEvent>, c: Target, grace: real)
    ensures c in Incapable(Life(h, grace)) <==> exists i | 0 <= i < |h| :: StandsSince(h, c, i, grace)
    decreases |h|
  {
    if h != [] {
      IncapableIff(Front(h), c, grace);
      var n := |h| - 1;
      assert h[..n + 1] == h && Final(h) == h[n];
      assert StandsSince(h, c, n, grace) <==> RefusesFor(h[n], c) && !Drops(h, grace);
      forall i | 0 <= i < n
        ensures StandsSince(h, c, i, grace) <==> StandsSince(Front(h), c, i, grace) && !Drops(h, grace) {
        StandsInFront(h, c, i, grace);
      }
      if Final(h).Refusing? { Snoc(Life(Front(h), grace), Final(h).r); }
    }
  }

  /** Main result: over the whole life of a task, a refresh avoids a candidate exactly when the
      refresh follows a refusal and the candidate is the one that did not answer just then, or
      refused for capacity at an earlier event and nothing has been dropped since. So the
      refresh that follows a first capacity refusal does not avoid the refuser, and no refresh
      at the start of a pass avoids anyone. */
  lemma RefuserIsAvoidedIff(h: seq<RouteEvent>, e: RouteEvent, c: Target, grace: real)
    requires !e.Cleared?
    ensures c in AvoidedAt(h, e, grace) <==>
      && e.Refusing?
      && ((e.r.kind == Unreachable && e.r.target == c) || exists i | 0 <= i < |h| :: StandsSince(h, c, i, grace))
  {
    RememberedIsLife(h, grace);
    IncapableIff(h, c, grace);
  }

  /** A candidate that has just refused for capacity is tried again by the very next refresh,
      and by the refresh of the next pass. */
  lemma RefuserIsTriedAgain(r: Refused, grace: real)
    requires r.kind == Capacity
    ensures r.target !in AvoidedAt([], Refusing(r), grace) && r.target !in AvoidedAt([Refusing(r)], PassStart, grace)
  {
    RefuserIsAvoidedIff([], Refusing(r), r.target, grace);
    RefuserIsAvoidedIff([Refusing(r)], PassStart, r.target, grace);
  }

  /** Over a whole life the task fails at exactly those refusals that end it. */
  lemma RefusalEndsLifeIff(h: seq<RouteEvent>, r: Refused, grace: real)
    ensures Answer(Remembered(h, grace), r, grace).decision.Fail? <==> Ending(Life(h, grace), r, grace)
  {
    RememberedIsLife(h, grace);
    AnswerMirrors(Untracked(), Life(h, grace), r, grace, Remembered(h, grace));
  }

  // ---- passes make the history ------------------------------------------------------

  /** What one pass adds to the history of a task it pops. */
  function EventsOf(known: bool, retryAt: real, o: Obs): seq<RouteEvent> {
    if !known || o.expired || (retryAt > o.now && retryAt != 0.0) || !o.hasWorker then []
    else if o.measured && o.remote.Refused? then
      [PassStart] + [Refusing(Refused.Refused(o.remote.kind, o.remote.target, o.remote.reroute, o.now))]
    else [PassStart]
  }

  /** Each decision of a pass about a task leaves what that history says. */
  lemma DecisionExtendsHistory(h: seq<RouteEvent>, known: bool, retryAt: real, o: Obs, grace: real)
    ensures Decide(known, retryAt, Remembered(h, grace), o, grace).tracking ==
      Remembered(h + EventsOf(known, retryAt, o), grace)
  {
    var events := EventsOf(known, retryAt, o);
    if events == [] {
      assert h + events == h;
    } else {
      Snoc(h, PassStart);
      if |events| == 2 {
        Regroup(h, [PassStart], [events[1]]);
        Snoc(h + [PassStart], events[1]);
      }
    }
  }
}
