/** Candidate selection of smart aliases (core/smart_router.py). Probes, queue states and the
    readiness verdict are inputs; the selection itself is what is modelled. */
module SmartRouter {
  import opened Basics
  import opened AffinityStore

  datatype Group = Group(text: string)

  /** `Missing` is the empty text. */
  datatype Admission = Ready | Concurrency | SessionMemory | BaseMemory | WaitingUnload | Missing | Other(id: nat)

  datatype Candidate = Candidate(
    executor: Executor,
    index: nat,
    fallbackPrio: int,
    group: Group,
    queueDepth: int,
    queueKnown: bool,
    canRunNow: bool,
    probeOk: bool,
    eligible: bool,
    admission: Admission)

  datatype Config = Config(overImmediate: bool, maxDiffLen: int, maxDiffPart: real)

  datatype Preference = Preference(executor: Executor, group: Group)

  datatype Why =
    | Immediate | BusyFallback | Affinity | QueueDiverted | WaitQueue
    | ResourceDiverted | WaitResource | ResourceTimeout | NoAlternative

  datatype Choice = Failed | Chosen(at: nat, why: Why)

  // ---- evaluating one candidate -----------------------------------------------------

  datatype Verdict = Verdict(admission: Admission, admissibleNow: bool)

  /** What the checks of one candidate came back with. */
  datatype Seen =
    | NotAllowed
    | ApiProbe(ok: bool)
    | Local(depth: int, below: int, probeFailed: bool, verdict: Option<Verdict>, afterUnload: bool, reusable: bool)
    | Invisible
    | RemoteDown
    | Remote(depth: int, canRun: bool, admission: Admission)

  function Evaluate(base: Candidate, seen: Seen): Candidate {
    match seen
    case NotAllowed => Down(base, false, 0)
    case ApiProbe(ok) =>
      if !ok then Down(base, false, 0)
      else base.(canRunNow := true, queueKnown := false, queueDepth := 0, probeOk := true, eligible :=
        true, admission := Ready)
    case Local(depth, below, failed, verdict, afterUnload, reusable) =>
      if failed then Down(base, true, depth)
      else
        var clear := depth - below == 0;
        var canRun := (if verdict.Some? then verdict.value.admissibleNow else afterUnload || reusable) && clear;
        var admission := if verdict.Some? then verdict.value.admission else if canRun then Ready else Concurrency;
        base.(canRunNow := canRun, queueKnown := true, queueDepth := depth, probeOk := true, eligible :=
          true, admission := admission)
    case Invisible => Down(base, false, 0)
    case RemoteDown => Down(base, false, 0)
    case Remote(depth, canRun, admission) =>
      base.(canRunNow := canRun, queueKnown := true, queueDepth := depth, probeOk := true, eligible := true,
            admission := if admission != Missing then admission else if canRun then Ready else Concurrency)
  }

  /** Not usable; the reported admission text is never one the selection acts on. */
  function Down(base: Candidate, queueKnown: bool, depth: int): Candidate {
    base.(canRunNow := false, queueKnown := queueKnown, queueDepth := depth, probeOk := false, eligible :=
      false, admission := Other(0))
  }

  /** Every evaluated candidate is eligible exactly when its probe succeeded, and only such
      a candidate can start now. */
  predicate WellFormed(c: Candidate) { (c.probeOk <==> c.eligible) && (c.canRunNow ==> c.probeOk) }

  lemma EvaluatedIsWellFormed(base: Candidate, seen: Seen)
    ensures WellFormed(Evaluate(base, seen))
  {
  }

  // ---- minima -----------------------------------------------------------------------

  predicate FewerBusy(a: Candidate, b: Candidate) {
    a.fallbackPrio < b.fallbackPrio || (a.fallbackPrio == b.fallbackPrio && a.index < b.index)
  }

  function Wait(c: Candidate): nat { if c.canRunNow then 0 else 1 }

  predicate Better(a: Candidate, b: Candidate) {
    Wait(a) < Wait(b) ||
    (Wait(a) == Wait(b) && (a.queueDepth < b.queueDepth || (a.queueDepth == b.queueDepth && FewerBusy(a, b))))
  }

  predicate Usable(c: Candidate, ready: bool) { c.probeOk && c.eligible && (!ready || c.canRunNow) }

  /** The first candidate from `i` on that can start now. */
  function FirstRunnable(cs: seq<Candidate>, i: nat): Option<nat>
    requires i <= |cs|
    decreases |cs| - i
  {
    if i == |cs| then None else if cs[i].canRunNow then Some(i) else FirstRunnable(cs, i + 1)
  }

  function FirstOf(cs: seq<Candidate>, e: Executor, i: nat): Option<nat>
    requires i <= |cs|
    decreases |cs| - i
  {
    if i == |cs| then None else if cs[i].executor == e then Some(i) else FirstOf(cs, e, i + 1)
  }

  function LeastBusy(cs: seq<Candidate>, i: nat, best: Option<nat>): Option<nat>
    requires i <= |cs| && (best.Some? ==> best.value < i)
    decreases |cs| - i
  {
    if i == |cs| then best
    else LeastBusy(cs, i + 1, if cs[i].eligible && (best.None? || FewerBusy(cs[i], cs[best.value])) then Some(i)
      else best)
  }

  function BestOther(cs: seq<Candidate>, preferred: nat, ready: bool, i: nat, best: Option<nat>): Option<nat>
    requires i <= |cs| && (best.Some? ==> best.value < i)
    decreases |cs| - i
  {
    if i == |cs| then best
    else BestOther(cs, preferred, ready, i + 1,
                   if i != preferred && Usable(cs[i], ready) && (best.None? || Better(cs[i], cs[best.value])) then
                     Some(i) else best)
  }

  function BestAlternative(cs: seq<Candidate>, preferred: nat, ready: bool): Option<nat> {
    BestOther(cs, preferred, ready, 0, None)
  }

  /** The shortest queue among the other usable candidates. */
  function LeastDepth(cs: seq<Candidate>, preferred: nat, i: nat): Option<int>
    requires i <= |cs|
    decreases |cs| - i
  {
    if i == |cs| then None
    else
      var rest := LeastDepth(cs, preferred, i + 1);
      if i == preferred || !Usable(cs[i], false) then rest
      else if rest.Some? && rest.value < cs[i].queueDepth then rest
      else Some(cs[i].queueDepth)
  }

  function Factor(config: Config): real { if config.maxDiffPart <= 1.0 then 3.0 else config.maxDiffPart }

  predicate Overloaded(cs: seq<Candidate>, preferred: nat, config: Config)
    requires preferred < |cs|
  {
    var least := LeastDepth(cs, preferred, 0);
    least.Some? && cs[preferred].queueDepth - least.value > config.maxDiffLen
    && cs[preferred].queueDepth as real >= least.value as real * Factor(config)
  }

  // ---- selection --------------------------------------------------------------------

  function AdmissionOf(c: Candidate): Admission {
    if c.admission != Missing then c.admission
    else if c.canRunNow then Ready
    else if c.probeOk && c.queueKnown then Concurrency
    else Other(0)
  }

  /** The candidate a record points to, if the record can still be trusted. */
  function Accepted(cs: seq<Candidate>, record: Option<Preference>): Option<nat> {
    if record.None? then None
    else
      var p := FirstOf(cs, record.value.executor, 0);
      FirstOfIsIn(cs, record.value.executor, 0);
      if p.Some? && cs[p.value].probeOk && cs[p.value].eligible && cs[p.value].group == record.value.group then p
        else None
  }

  lemma {:induction false} FirstOfIsIn(cs: seq<Candidate>, e: Executor, i: nat)
    requires i <= |cs|
    ensures var p := FirstOf(cs, e, i); p.Some? ==> p.value < |cs| && cs[p.value].executor == e
    decreases |cs| - i
  {
    if i < |cs| { FirstOfIsIn(cs, e, i + 1); }
  }

  function Or(alternative: Option<nat>, why: Why, preferred: nat, otherwise: Why): Choice {
    if alternative.Some? then Chosen(alternative.value, why) else Chosen(preferred, otherwise)
  }

  /** `expired` is the readiness verdict on the preferred candidate. `Failed` means that
      affinity has nothing to say. */
  function Preferred(cs: seq<Candidate>, preferred: nat, config: Config, expired: bool): Choice
    requires preferred < |cs|
  {
    match AdmissionOf(cs[preferred])
    case Ready =>
      if !Overloaded(cs, preferred, config) then Chosen(preferred, Affinity)
      else if !config.overImmediate then Failed
      else Or(BestAlternative(cs, preferred, false), QueueDiverted, preferred, Affinity)
    case Concurrency =>
      if !config.overImmediate then Failed
      else if !Overloaded(cs, preferred, config) then Chosen(preferred, WaitQueue)
      else Or(BestAlternative(cs, preferred, false), QueueDiverted, preferred, WaitQueue)
    case SessionMemory => Blocked(cs, preferred, config, expired)
    case BaseMemory => Blocked(cs, preferred, config, expired)
    case WaitingUnload => Blocked(cs, preferred, config, expired)
    case Missing => Failed
    case Other(_) => Failed
  }

  function Blocked(cs: seq<Candidate>, preferred: nat, config: Config, expired: bool): Choice {
    var runnable := BestAlternative(cs, preferred, true);
    if runnable.Some? then Chosen(runnable.value, ResourceDiverted)
    else if !config.overImmediate then Failed
    else if !expired then Chosen(preferred, WaitResource)
    else Or(BestAlternative(cs, preferred, false), ResourceTimeout, preferred, NoAlternative)
  }

  /** The plain strategy `first_available`. */
  function Plain(cs: seq<Candidate>): Choice {
    var now, busy := FirstRunnable(cs, 0), LeastBusy(cs, 0, None);
    if now.Some? then Chosen(now.value, Immediate)
    else if busy.Some? then Chosen(busy.value, BusyFallback)
    else Failed
  }

  function WithAffinity(cs: seq<Candidate>, record: Option<Preference>, config: Config, expired: bool): Choice {
    var p := Accepted(cs, record);
    AcceptedIsIn(cs, record);
    var choice := if p.Some? then Preferred(cs, p.value, config, expired) else Failed;
    if choice.Chosen? then choice else Plain(cs)
  }

  lemma AcceptedIsIn(cs: seq<Candidate>, record: Option<Preference>)
    ensures var p := Accepted(cs, record); p.Some? ==> p.value < |cs| && cs[p.value].eligible && cs[p.value].probeOk
  {
    if record.Some? { FirstOfIsIn(cs, record.value.executor, 0); }
  }

  // ---- resolving a route ------------------------------------------------------------

  /** One configured item: whether it is excluded, and what evaluating it yields. */
  datatype Item = Item(excluded: bool, evaluated: Option<Candidate>)

  function Evaluated(items: seq<Item>): seq<Candidate> {
    if items == [] then []
    else if items[0].excluded || items[0].evaluated.None? then Evaluated(items[1..])
    else [items[0].evaluated.value] + Evaluated(items[1..])
  }

  method BusyChoice(cs: seq<Candidate>) returns (best: Option<nat>)
    ensures best == LeastBusy(cs, 0, None)
  {
    best := None;
    for i := 0 to |cs|
      invariant best.Some? ==> best.value < i
      invariant LeastBusy(cs, i, best) == LeastBusy(cs, 0, None)
    {
      if cs[i].eligible {
        if best.None? || FewerBusy(cs[i], cs[best.value]) { best := Some(i); }
      }
    }
  }

  method Alternative(cs: seq<Candidate>, preferred: nat, ready: bool) returns (best: Option<nat>)
    ensures best == BestAlternative(cs, preferred, ready)
  {
    best := None;
    for i := 0 to |cs|
      invariant best.Some? ==> best.value < i
      invariant BestOther(cs, preferred, ready, i, best) == BestAlternative(cs, preferred, ready)
    {
      if i != preferred && Usable(cs[i], ready) {
        if best.None? || Better(cs[i], cs[best.value]) { best := Some(i); }
      }
    }
  }

  /** The loop over the items: without affinity it ends at the first candidate that can
      start now, so later items are not even probed. */
  method Probe(items: seq<Item>, affinity: bool) returns (cs: seq<Candidate>, immediate: bool)
    ensures affinity ==> !immediate
    ensures !immediate ==> cs == Evaluated(items)
    ensures !affinity ==> (immediate <==> FirstRunnable(Evaluated(items), 0).Some?)
    ensures immediate ==> cs != [] && cs <= Evaluated(items) && FirstRunnable(Evaluated(items), 0) == Some(|cs| - 1)
  {
    cs, immediate := [], false;
    var rest := items;
    while rest != []
      invariant cs + Evaluated(rest) == Evaluated(items)
      invariant !affinity ==> forall i | 0 <= i < |cs| :: !cs[i].canRunNow
      decreases |rest|
    {
      var item := rest[0];
      rest := rest[1..];
      if !item.excluded && item.evaluated.Some? {
        var before := cs;
        cs := cs + [item.evaluated.value];
        if !affinity && item.evaluated.value.canRunNow {
          FirstRunnableIs(Evaluated(items), |before|, 0);
          return cs, true;
        }
      }
    }
    if !affinity { NoneRunnable(cs, 0); }
    assert cs + Evaluated(rest) == cs;
  }

  lemma {:induction false} FirstRunnableIs(cs: seq<Candidate>, at: nat, i: nat)
    requires i <= at < |cs| && cs[at].canRunNow && forall k | i <= k < at :: !cs[k].canRunNow
    ensures FirstRunnable(cs, i) == Some(at)
    decreases at - i
  {
    if i < at { FirstRunnableIs(cs, at, i + 1); }
  }

  lemma {:induction false} NoneRunnable(cs: seq<Candidate>, i: nat)
    requires i <= |cs| && forall k | i <= k < |cs| :: !cs[k].canRunNow
    ensures FirstRunnable(cs, i) == None
    decreases |cs| - i
  {
    if i < |cs| { NoneRunnable(cs, i + 1); }
  }

  method SelectPlain(cs: seq<Candidate>) returns (choice: Choice)
    ensures choice == Plain(cs)
  {
    var i := 0;
    while i < |cs|
      invariant 0 <= i <= |cs| && FirstRunnable(cs, i) == FirstRunnable(cs, 0)
    {
      if cs[i].canRunNow { return Chosen(i, Immediate); }
      i := i + 1;
    }
    var busy := BusyChoice(cs);
    choice := if busy.Some? then Chosen(busy.value, BusyFallback) else Failed;
  }

  method SelectWithAffinity(cs: seq<Candidate>, preferred: nat, config: Config, expired: bool) returns (choice: Choice)
    requires preferred < |cs|
    ensures choice == Preferred(cs, preferred, config, expired)
  {
    var admission := AdmissionOf(cs[preferred]);
    if admission == Ready {
      if !Overloaded(cs, preferred, config) { return Chosen(preferred, Affinity); }
      if !config.overImmediate { return Failed; }
      var alternative := Alternative(cs, preferred, false);
      return if alternative.Some? then Chosen(alternative.value, QueueDiverted) else Chosen(preferred, Affinity);
    }
    if admission == Concurrency {
      if !config.overImmediate { return Failed; }
      if !Overloaded(cs, preferred, config) { return Chosen(preferred, WaitQueue); }
      var alternative := Alternative(cs, preferred, false);
      return if alternative.Some? then Chosen(alternative.value, QueueDiverted) else Chosen(preferred, WaitQueue);
    }
    if admission == SessionMemory || admission == BaseMemory || admission == WaitingUnload {
      var runnable := Alternative(cs, preferred, true);
      if runnable.Some? { return Chosen(runnable.value, ResourceDiverted); }
      if !config.overImmediate { return Failed; }
      if !expired { return Chosen(preferred, WaitResource); }
      var alternative := Alternative(cs, preferred, false);
      return if alternative.Some? then Chosen(alternative.value, ResourceTimeout) else Chosen(preferred, NoAlternative);
    }
    return Failed;
  }

  /** `forget` names the executor whose records the affinity store must drop. */
  method ResolveRoute(items: seq<Item>, affinity: bool, record: Option<Preference>, config: Config, expired: bool)
    returns (choice: Choice, cs: seq<Candidate>, forget: Option<Executor>)
    ensures choice ==
      if affinity then WithAffinity(Evaluated(items), record, config, expired) else Plain(Evaluated(items))
    ensures cs <= Evaluated(items) && (choice.Chosen? ==> choice.at < |cs|)
    ensures forget.Some? <==> affinity && record.Some? && Accepted(Evaluated(items), record).None?
    ensures forget.Some? ==> forget.value == record.value.executor
  {
    var immediate;
    cs, immediate := Probe(items, affinity);
    forget := None;
    if immediate { return Chosen(|cs| - 1, Immediate), cs, None; }
    PlainIsIn(cs);
    if affinity && record.Some? {
      var accepted := Accepted(cs, record);
      AcceptedIsIn(cs, record);
      if accepted.None? {
        forget := Some(record.value.executor);
      } else {
        choice := SelectWithAffinity(cs, accepted.value, config, expired);
        PreferredIsUsable(cs, accepted.value, config, expired);
        if choice.Chosen? { return choice, cs, None; }
      }
    }
    choice := SelectPlain(cs);
  }

  // ---- what a choice means ----------------------------------------------------------

  lemma {:induction false} FirstRunnableMeans(cs: seq<Candidate>, i: nat)
    requires i <= |cs|
    ensures var r := FirstRunnable(cs, i);
      && (r.Some? ==> i <= r.value < |cs| && cs[r.value].canRunNow && forall k | i <= k < r.value :: !cs[k].canRunNow)
      && (r.None? ==> forall k | i <= k < |cs| :: !cs[k].canRunNow)
    decreases |cs| - i
  {
    if i < |cs| { FirstRunnableMeans(cs, i + 1); }
  }

  /** The least eligible candidate by fallback priority, then position. */
  lemma {:induction false} LeastBusyMeans(cs: seq<Candidate>, i: nat, best: Option<nat>)
    requires i <= |cs| && (best.Some? ==> best.value < i && cs[best.value].eligible)
    requires forall k | 0 <= k < i && cs[k].eligible :: best.Some? && !FewerBusy(cs[k], cs[best.value])
    ensures var r := LeastBusy(cs, i, best);
      && (r.Some? ==> r.value < |cs| && cs[r.value].eligible)
      && forall k | 0 <= k < |cs| && cs[k].eligible :: r.Some? && !FewerBusy(cs[k], cs[r.value])
    decreases |cs| - i
  {
    if i < |cs| {
      LeastBusyMeans(cs, i + 1, if cs[i].eligible && (best.None? || FewerBusy(cs[i], cs[best.value])) then Some(i)
        else best);
    }
  }

  lemma {:induction false} BestOtherMeans(cs: seq<Candidate>, preferred: nat, ready: bool, i: nat, best: Option<nat>)
    requires i <= |cs| && (best.Some? ==> best.value < i && best.value != preferred && Usable(cs[best.value], ready))
    requires forall k | 0 <= k < i && k != preferred && Usable(cs[k], ready) ::
      best.Some? && !Better(cs[k], cs[best.value])
    ensures var r := BestOther(cs, preferred, ready, i, best);
      && (r.Some? ==> r.value < |cs| && r.value != preferred && Usable(cs[r.value], ready))
      && forall k | 0 <= k < |cs| && k != preferred && Usable(cs[k], ready) :: r.Some? && !Better(cs[k], cs[r.value])
    decreases |cs| - i
  {
    if i < |cs| {
      BestOtherMeans(cs, preferred, ready, i + 1,
                     if i != preferred && Usable(cs[i], ready) && (best.None? || Better(cs[i], cs[best.value])) then
                       Some(i) else best);
    }
  }

  lemma PlainIsIn(cs: seq<Candidate>)
    ensures var c := Plain(cs); c.Chosen? ==> c.at < |cs| && (cs[c.at].eligible || cs[c.at].canRunNow)
  {
    FirstRunnableMeans(cs, 0);
    LeastBusyMeans(cs, 0, None);
  }

  lemma PreferredIsUsable(cs: seq<Candidate>, preferred: nat, config: Config, expired: bool)
    requires preferred < |cs|
    ensures var c := Preferred(cs, preferred, config, expired);
      c.Chosen? ==> c.at < |cs| && (c.at == preferred || Usable(cs[c.at], false))
  {
    BestOtherMeans(cs, preferred, false, 0, None);
    BestOtherMeans(cs, preferred, true, 0, None);
  }

  predicate AllWellFormed(cs: seq<Candidate>) { forall i | 0 <= i < |cs| :: WellFormed(cs[i]) }

  /** `first_available` takes the first candidate that can start now, else the eligible one
      with the least fallback priority and position, and fails only when none is eligible. */
  lemma PlainMeans(cs: seq<Candidate>)
    requires AllWellFormed(cs)
    ensures var c := Plain(cs);
      && (c.Failed? <==> forall i | 0 <= i < |cs| :: !cs[i].eligible)
      && (c.Chosen? ==> c.at < |cs| && cs[c.at].eligible)
      && (c.Chosen? && cs[c.at].canRunNow ==> forall i | 0 <= i < c.at :: !cs[i].canRunNow)
      && (c.Chosen? && !cs[c.at].canRunNow ==>
            (forall i | 0 <= i < |cs| :: !cs[i].canRunNow) && forall i | 0 <= i < |cs| && cs[i].eligible ::
              !FewerBusy(cs[i], cs[c.at]))
  {
    FirstRunnableMeans(cs, 0);
    LeastBusyMeans(cs, 0, None);
  }

  // ---- affinity refines the plain strategy ------------------------------------------

  /** Main result. Without an accepted record the choices are the same; with one, routing
      fails exactly when it fails without affinity, and the choice is always an evaluated,
      eligible candidate. */
  lemma AffinityRefinesPlain(items: seq<Item>, record: Option<Preference>, config: Config, expired: bool)
    requires AllWellFormed(Evaluated(items))
    ensures var cs := Evaluated(items);
      var c := WithAffinity(cs, record, config, expired);
      && (Accepted(cs, record).None? ==> c == Plain(cs))
      && (c.Failed? <==> Plain(cs).Failed?)
      && (c.Chosen? ==> c.at < |cs| && cs[c.at].eligible)
  {
    var cs := Evaluated(items);
    AcceptedIsIn(cs, record);
    PlainMeans(cs);
    var p := Accepted(cs, record);
    if p.Some? { PreferredIsUsable(cs, p.value, config, expired); }
  }

  /** Evaluated candidates come from items that are not excluded. */
  lemma {:induction false} EvaluatedAreNotExcluded(items: seq<Item>, c: Candidate)
    ensures c in Evaluated(items) <==>
      exists i | 0 <= i < |items| :: !items[i].excluded && items[i].evaluated == Some(c)
    decreases |items|
  {
    if items != [] {
      EvaluatedAreNotExcluded(items[1..], c);
      assert forall i | 0 <= i < |items[1..]| :: items[1..][i] == items[i + 1];
      if i :| 0 <= i < |items| && !items[i].excluded && items[i].evaluated == Some(c) {
        if i > 0 { assert items[1..][i - 1] == items[i]; }
      }
    }
  }

  predicate OutOfMemory(a: Admission) { a in {SessionMemory, BaseMemory, WaitingUnload} }

  /** A preferred candidate that waits for memory yields whenever another one can start. */
  lemma BlockedPreferredYields(cs: seq<Candidate>, record: Option<Preference>, config: Config, expired: bool,
                               preferred: nat, other: nat)
    requires AllWellFormed(cs) && Accepted(cs, record) == Some(preferred) && preferred < |cs|
    requires OutOfMemory(AdmissionOf(cs[preferred]))
    requires other < |cs| && other != preferred && cs[other].canRunNow
    ensures var c := WithAffinity(cs, record, config, expired);
      c.Chosen? && c.at < |cs| && c.at != preferred && cs[c.at].canRunNow
  {
    BestOtherMeans(cs, preferred, true, 0, None);
  }

  /** The preferred candidate is admitted and its queue is not too long, but it cannot start now. */
  predicate AdmittedButQueued(cs: seq<Candidate>, preferred: nat, config: Config)
    requires preferred < |cs|
  {
    !cs[preferred].canRunNow && AdmissionOf(cs[preferred]) == Ready && !Overloaded(cs, preferred, config)
  }

  /** What `prefer_affinity_over_immediate: false` does not rule out: a preferred candidate that
      cannot start now is used exactly when it is admitted but queued. */
  lemma AffinityWaitsIff(cs: seq<Candidate>, record: Option<Preference>, config: Config, expired: bool)
    requires !config.overImmediate
    ensures var c, p := WithAffinity(cs, record, config, expired), Accepted(cs, record);
      c.Chosen? && c.why == Affinity && c.at < |cs| && !cs[c.at].canRunNow <==>
        p.Some? && p.value < |cs| && AdmittedButQueued(cs, p.value, config)
  {
    AcceptedIsIn(cs, record);
    PlainIsIn(cs);
  }

  /** With that setting, a request that could start is delayed by affinity exactly when the
      preferred candidate is admitted but queued; otherwise the chosen candidate can start. */
  lemma AffinityDelaysIff(cs: seq<Candidate>, record: Option<Preference>, config: Config, expired: bool, other: nat)
    requires AllWellFormed(cs) && !config.overImmediate && other < |cs| && cs[other].canRunNow
    ensures var c, p := WithAffinity(cs, record, config, expired), Accepted(cs, record);
      && c.Chosen? && c.at < |cs|
      && (!cs[c.at].canRunNow <==> p.Some? && p.value < |cs| && AdmittedButQueued(cs, p.value, config))
      && (!cs[c.at].canRunNow ==> p == Some(c.at))
  {
    AcceptedIsIn(cs, record);
    FirstRunnableMeans(cs, 0);
    var p := Accepted(cs, record);
    if p.Some? { BestOtherMeans(cs, p.value, true, 0, None); }
  }

  /** When a local candidate is admitted but cannot start: a task of the same or a higher
      priority is queued for it. */
  lemma LocalIsQueuedIff(base: Candidate, depth: int, below: int, after: bool, reusable: bool)
    ensures var c := Evaluate(base, Local(depth, below, false, Some(Verdict(Ready, true)), after, reusable));
      AdmissionOf(c) == Ready && (!c.canRunNow <==> depth - below != 0)
  {
  }

  /** Two local candidates, both admitted; one task is queued for the warm one. The plain
      strategy starts the idle one, affinity waits behind the queued task. */
  lemma AffinityDelays(warm: Candidate, idle: Candidate, g: Group, expired: bool)
    requires warm.executor != idle.executor && warm.group == g
    ensures var cs := [Evaluate(warm, Local(1, 0, false, Some(Verdict(Ready, true)), true, true)),
                       Evaluate(idle, Local(0, 0, false, Some(Verdict(Ready, true)), true, true))];
      && AllWellFormed(cs) && Plain(cs) == Chosen(1, Immediate) && cs[1].canRunNow
      && WithAffinity(cs, Some(Preference(warm.executor, g)), Config(false, 8, 3.0), expired) == Chosen(0, Affinity)
      && !cs[0].canRunNow
  {
    var cs := [Evaluate(warm, Local(1, 0, false, Some(Verdict(Ready, true)), true, true)),
               Evaluate(idle, Local(0, 0, false, Some(Verdict(Ready, true)), true, true))];
    assert cs[0].executor == warm.executor && FirstOf(cs, warm.executor, 0) == Some(0);
    assert FirstRunnable(cs, 1) == Some(1) && FirstRunnable(cs, 0) == Some(1);
    assert LeastDepth(cs, 0, 2) == None && LeastDepth(cs, 0, 1) == Some(0) && LeastDepth(cs, 0, 0) == Some(0);
  }
}
