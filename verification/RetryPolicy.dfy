/** What happens to a task whose worker failed (core/scheduler.py, `_effective_policy` and
    `_handle_reject`), and how often a task can come back. */
module RetryPolicy {
  import opened Basics

  datatype WorkerId = WorkerId(text: string)

  datatype Code =
    | UpstreamUnreachable | ConnectError | ConnectionError | UnavailableCode
    | UpstreamBusy | ResourceBusy | BusyCode | OtherCode

  datatype Reason = Unavailable | Busy | Error

  /** An unknown action text means `Cancel`. */
  datatype Action = Cancel | Retry | Fallback | FallbackRetry

  /** An empty entry is `ReasonConfig(Cancel, None, None)`. */
  datatype ReasonConfig = ReasonConfig(action: Action, retryCount: Option<int>, retryPeriod: Option<int>)

  /** Zero counts and empty lists stand for missing settings. */
  datatype Settings = Settings(retryCount: int, retryPeriod: int, fallbacks: seq<WorkerId>,
    onReject: map<Reason, ReasonConfig>)

  datatype Policy = Policy(action: Action, retryCount: int, retryPeriod: int, fallbacks: seq<WorkerId>)

  /** The part of a task that a failure changes. */
  datatype Progress = Progress(worker: WorkerId, attempt: nat, index: nat, nextRetryAt: real)

  datatype Outcome = Outcome(progress: Progress, requeued: bool)

  function ReasonFrom(code: Code): Reason {
    match code
    case UpstreamUnreachable | ConnectError | ConnectionError | UnavailableCode => Unavailable
    case UpstreamBusy | ResourceBusy | BusyCode => Busy
    case OtherCode => Error
  }

  function NoSettings(): Settings { Settings(0, 0, [], map[]) }

  function Of(workers: map<WorkerId, Settings>, w: WorkerId): Settings {
    if w in workers then workers[w] else NoSettings()
  }

  /** Task settings win over worker settings, and a setting of the reason wins over both. */
  function EffectivePolicy(task: Settings, worker: Settings, reason: Reason): Policy {
    var retryCount := if task.retryCount != 0 then task.retryCount else worker.retryCount;
    var retryPeriod := if task.retryPeriod != 0 then task.retryPeriod else worker.retryPeriod;
    var fallbacks := if task.fallbacks != [] then task.fallbacks else worker.fallbacks;
    var onReject := worker.onReject + task.onReject;
    if reason !in onReject then Policy(Cancel, retryCount, retryPeriod, fallbacks)
    else
      var c := onReject[reason];
      Policy(c.action,
             if c.retryCount.Some? then c.retryCount.value else retryCount,
             if c.retryPeriod.Some? then c.retryPeriod.value else retryPeriod,
             fallbacks)
  }

  function Due(p: Policy, now: real): real { now + Max(0, p.retryPeriod) as real }

  /** `persisted` says whether putting the task back into its queue succeeded. */
  function Handled(t: Progress, p: Policy, now: real, persisted: bool): Outcome {
    match p.action
    case Cancel => Outcome(t, false)
    case Retry =>
      if t.attempt >= p.retryCount then Outcome(t, false)
      else Outcome(t.(attempt := t.attempt + 1, nextRetryAt := Due(p, now)), persisted)
    case Fallback =>
      if t.index < |p.fallbacks| then Outcome(NextFallback(t, p, now), persisted) else Outcome(t, false)
    case FallbackRetry =>
      if t.index < |p.fallbacks| then Outcome(NextFallback(t, p, now), persisted)
      else if p.fallbacks != [] && t.attempt < p.retryCount then
        Outcome(Progress(p.fallbacks[0], t.attempt + 1, 1, Due(p, now)), persisted)
      else Outcome(t, false)
  }

  function NextFallback(t: Progress, p: Policy, now: real): Progress
    requires t.index < |p.fallbacks|
  {
    t.(worker := p.fallbacks[t.index], index := t.index + 1, nextRetryAt := Due(p, now))
  }

  class Task {
    const settings: Settings
    var workerId: WorkerId
    var retryAttempt: nat
    var fallbackIndex: nat
    var nextRetryAt: real

    function State(): Progress
      reads this
    {
      Progress(workerId, retryAttempt, fallbackIndex, nextRetryAt)
    }

    constructor (settings: Settings, worker: WorkerId)
      ensures this.settings == settings && State() == Progress(worker, 0, 0, 0.0)
    {
      this.settings := settings;
      workerId, retryAttempt, fallbackIndex, nextRetryAt := worker, 0, 0, 0.0;
    }

    method ScheduleRetry(p: Policy, now: real)
      modifies `retryAttempt, `nextRetryAt
      ensures retryAttempt == old(retryAttempt) + 1 && nextRetryAt == Due(p, now)
    {
      retryAttempt := retryAttempt + 1;
      nextRetryAt := now + Max(0, p.retryPeriod) as real;
    }
  }

  method HandleReject(task: Task, workers: map<WorkerId, Settings>, worker: WorkerId, code: Code, now: real,
                      persisted: bool)
    returns (requeued: bool)
    modifies task
    ensures Outcome(task.State(), requeued) ==
      Handled(old(task.State()), EffectivePolicy(task.settings, Of(workers, worker), ReasonFrom(code)), now, persisted)
  {
    var p := EffectivePolicy(task.settings, Of(workers, worker), ReasonFrom(code));
    if p.action == Retry {
      if task.retryAttempt >= p.retryCount { return false; }
      task.ScheduleRetry(p, now);
      return persisted;
    }
    if p.action == Fallback || p.action == FallbackRetry {
      if p.fallbacks == [] { return false; }
      if task.fallbackIndex < |p.fallbacks| {
        task.workerId := p.fallbacks[task.fallbackIndex];
        task.fallbackIndex := task.fallbackIndex + 1;
        task.nextRetryAt := now + Max(0, p.retryPeriod) as real;
        return persisted;
      }
      if p.action == FallbackRetry && task.retryAttempt < p.retryCount {
        task.ScheduleRetry(p, now);
        task.workerId := p.fallbacks[0];
        task.fallbackIndex := 1;
        return persisted;
      }
    }
    return false;
  }

  // ---- runs of failures -------------------------------------------------------------

  datatype Failure = Failure(worker: WorkerId, code: Code, at: real, persisted: bool)

  function PolicyOf(task: Settings, workers: map<WorkerId, Settings>, f: Failure): Policy {
    EffectivePolicy(task, Of(workers, f.worker), ReasonFrom(f.code))
  }

  function Next(t: Progress, task: Settings, workers: map<WorkerId, Settings>, f: Failure): Outcome {
    Handled(t, PolicyOf(task, workers, f), f.at, f.persisted)
  }

  // ---- one failure, from the settings -----------------------------------------------

  /** The reason a code stands for: codes the table does not know are plain errors. */
  predicate Blames(code: Code, reason: Reason) {
    && (reason == Unavailable <==> code in {UpstreamUnreachable, ConnectError, ConnectionError, UnavailableCode})
    && (reason == Busy <==> code in {UpstreamBusy, ResourceBusy, BusyCode})
  }

  /** The settings of the task come before those of the worker, which may not be known. */
  predicate Prefers<T(==)>(own: T, missing: T, worker: Option<T>, result: T) {
    result == if own != missing then own else if worker.Some? then worker.value else missing
  }

  function Known(workers: map<WorkerId, Settings>, w: WorkerId): Option<Settings> {
    if w in workers then Some(workers[w]) else None
  }

  /** The entry for this reason: the task's, else the worker's, else none. */
  function EntryFor(task: Settings, worker: Option<Settings>, reason: Reason): Option<ReasonConfig> {
    if reason in task.onReject then Some(task.onReject[reason])
    else if worker.Some? && reason in worker.value.onReject then Some(worker.value.onReject[reason])
    else None
  }

  /** Which policy a failure meets: an entry for its reason decides the action, and overrides
      count and period where it names them; without an entry the task is not requeued. */
  lemma PolicyMeans(task: Settings, workers: map<WorkerId, Settings>, f: Failure, reason: Reason)
    requires Blames(f.code, reason)
    ensures var p, w := PolicyOf(task, workers, f), Known(workers, f.worker);
      var entry := EntryFor(task, w, reason);
      && p.action == (if entry.Some? then entry.value.action else Cancel)
      && (if entry.Some? && entry.value.retryCount.Some? then p.retryCount == entry.value.retryCount.value
          else Prefers(task.retryCount, 0, if w.Some? then Some(w.value.retryCount) else None, p.retryCount))
      && (if entry.Some? && entry.value.retryPeriod.Some? then p.retryPeriod == entry.value.retryPeriod.value
          else Prefers(task.retryPeriod, 0, if w.Some? then Some(w.value.retryPeriod) else None, p.retryPeriod))
      && Prefers(task.fallbacks, [], if w.Some? then Some(w.value.fallbacks) else None, p.fallbacks)
  {
    assert ReasonFrom(f.code) == reason;
  }

  /** What the policy then does. A task that comes back has either used one more attempt (on
      the same worker, or on the first fallback again) or moved to its next fallback. */
  lemma FailureMeans(t: Progress, task: Settings, workers: map<WorkerId, Settings>, f: Failure)
    ensures var p, o := PolicyOf(task, workers, f), Next(t, task, workers, f);
      var again, next := t.attempt < p.retryCount, t.index < |p.fallbacks|;
      && (o.requeued ==> f.persisted && p.action != Cancel)
      && (f.persisted && p.action == Retry ==> (o.requeued <==> again))
      && (f.persisted && p.action == Fallback ==> (o.requeued <==> next))
      && (f.persisted && p.action == FallbackRetry ==> (o.requeued <==> next || (p.fallbacks != [] && again)))
      && (o.requeued ==>
            && o.progress.nextRetryAt == f.at + (if p.retryPeriod > 0 then p.retryPeriod else 0) as real
            && (p.action == Retry ==>
                  o.progress.attempt == t.attempt + 1 && o.progress.worker == t.worker && o.progress.index == t.index)
            && (p.action != Retry && next ==>
                  o.progress.attempt == t.attempt && o.progress.worker == p.fallbacks[t.index] &&
                    o.progress.index == t.index + 1)
            && (p.action != Retry && !next ==>
                  o.progress.attempt == t.attempt + 1 && o.progress.worker == p.fallbacks[0] && o.progress.index == 1))
  {
  }

  /** How often the task goes back into the queue before it fails for good. */
  function Requeues(t: Progress, task: Settings, workers: map<WorkerId, Settings>, fs: seq<Failure>): nat
    decreases |fs|
  {
    if fs == [] then 0
    else
      var o := Next(t, task, workers, fs[0]);
      if o.requeued then 1 + Requeues(o.progress, task, workers, fs[1..]) else 0
  }

  /** Every retry count that can apply is at most `r`, every fallback list at most `l` long. */
  predicate Within(s: Settings, r: nat, l: nat) {
    s.retryCount <= r && |s.fallbacks| <= l
    && forall reason | reason in s.onReject :: s.onReject[reason].retryCount.Some? ==>
      s.onReject[reason].retryCount.value <= r
  }

  predicate AllWithin(task: Settings, workers: map<WorkerId, Settings>, r: nat, l: nat) {
    Within(task, r, l) && forall w | w in workers :: Within(workers[w], r, l)
  }

  /** The requeues still possible: whole fallback rounds for the attempts left, and the
      rest of the round under way. */
  function Left(t: Progress, r: nat, l: nat): int { (r - t.attempt) * Max(l, 1) + l - t.index }

  predicate InRange(t: Progress, r: nat, l: nat) { t.attempt <= r && t.index <= l }

  lemma PolicyWithin(task: Settings, workers: map<WorkerId, Settings>, f: Failure, r: nat, l: nat)
    requires AllWithin(task, workers, r, l)
    ensures var p := PolicyOf(task, workers, f); p.retryCount <= r && |p.fallbacks| <= l
  {
    assert Within(Of(workers, f.worker), r, l);
  }

  lemma OneAttemptLess(left: int, m: int)
    ensures left * m == (left - 1) * m + m
  {
  }

  lemma NonNegative(left: nat, m: nat)
    ensures left * m >= 0
  {
  }

  /** Every requeue uses up at least one of what is left. */
  lemma RequeueUsesOne(t: Progress, p: Policy, now: real, persisted: bool, r: nat, l: nat)
    requires InRange(t, r, l) && p.retryCount <= r && |p.fallbacks| <= l
    requires Handled(t, p, now, persisted).requeued
    ensures var n := Handled(t, p, now, persisted).progress; InRange(n, r, l) && Left(n, r, l) <= Left(t, r, l) - 1
  {
    OneAttemptLess(r - t.attempt, Max(l, 1));
  }

  lemma {:induction false} RequeuesAtMostLeft(t: Progress, task: Settings, workers: map<WorkerId, Settings>,
                                              fs: seq<Failure>, r: nat, l: nat)
    requires AllWithin(task, workers, r, l) && InRange(t, r, l)
    ensures Requeues(t, task, workers, fs) <= Left(t, r, l)
    decreases |fs|
  {
    NonNegative(r - t.attempt, Max(l, 1));
    if fs != [] && Next(t, task, workers, fs[0]).requeued {
      PolicyWithin(task, workers, fs[0], r, l);
      RequeueUsesOne(t, PolicyOf(task, workers, fs[0]), fs[0].at, fs[0].persisted, r, l);
      RequeuesAtMostLeft(Next(t, task, workers, fs[0]).progress, task, workers, fs[1..], r, l);
    }
  }

  /** Main result. Whatever workers fail, in whatever order and with whatever reasons, a
      fresh task comes back at most `l * (r + 1)` times, or `r` times without fallbacks. */
  lemma RequeuesAreBounded(worker: WorkerId, start: real, task: Settings, workers: map<WorkerId, Settings>,
                           fs: seq<Failure>, r: nat, l: nat)
    requires AllWithin(task, workers, r, l)
    ensures Requeues(Progress(worker, 0, 0, start), task, workers, fs) <= if l == 0 then r else l * (r + 1)
  {
    RequeuesAtMostLeft(Progress(worker, 0, 0, start), task, workers, fs, r, l);
  }

  // ---- constant policies ------------------------------------------------------------

  /** The same policy applies to every failure, and every requeue is persisted. */
  ghost predicate Always(p: Policy, task: Settings, workers: map<WorkerId, Settings>, fs: seq<Failure>) {
    forall i | 0 <= i < |fs| :: PolicyOf(task, workers, fs[i]) == p && fs[i].persisted
  }

  lemma {:induction false} FallbackRetryFrom(t: Progress, p: Policy, task: Settings, workers: map<WorkerId, Settings>,
                                             fs: seq<Failure>)
    requires p.action == FallbackRetry && p.retryCount >= 0 && p.fallbacks != [] && Always(p, task, workers, fs)
    requires InRange(t, p.retryCount, |p.fallbacks|)
    ensures Requeues(t, task, workers, fs) == Min(|fs|, Left(t, p.retryCount, |p.fallbacks|))
    decreases |fs|
  {
    NonNegative(p.retryCount - t.attempt, |p.fallbacks|);
    OneAttemptLess(p.retryCount - t.attempt, |p.fallbacks|);
    if fs != [] {
      assert PolicyOf(task, workers, fs[0]) == p && fs[0].persisted;
      var o := Next(t, task, workers, fs[0]);
      if o.requeued {
        RequeueUsesOne(t, p, fs[0].at, true, p.retryCount, |p.fallbacks|);
        assert Always(p, task, workers, fs[1..]);
        FallbackRetryFrom(o.progress, p, task, workers, fs[1..]);
      }
    }
  }

  /** A constant fallback-retry policy uses the bound up exactly. */
  lemma FallbackRetryIsExact(worker: WorkerId, start: real, p: Policy, task: Settings,
                             workers: map<WorkerId, Settings>, fs: seq<Failure>)
    requires p.action == FallbackRetry && p.retryCount >= 0 && p.fallbacks != [] && Always(p, task, workers, fs)
    ensures Requeues(Progress(worker, 0, 0, start), task, workers, fs) == Min(|fs|, |p.fallbacks| * (p.retryCount + 1))
  {
    FallbackRetryFrom(Progress(worker, 0, 0, start), p, task, workers, fs);
  }

  /** Where the task is after these failures. */
  function After(t: Progress, task: Settings, workers: map<WorkerId, Settings>, fs: seq<Failure>): Progress
    decreases |fs|
  {
    if fs == [] then t else After(Next(t, task, workers, fs[0]).progress, task, workers, fs[1..])
  }

  lemma Products(a: int, b: int, l: int)
    requires l > 0
    ensures a >= b ==> a * l >= b * l
    ensures a > b ==> a * l >= b * l + l
    ensures (a + 1) * l == a * l + l && l * (b + 1) == b * l + l
  {
    if a > b {
      assert a * l == (a - 1 - b) * l + b * l + l;
      NonNegative(a - 1 - b, l);
    }
  }

  lemma {:induction false} RoundRobinFrom(t: Progress, k: nat, p: Policy, task: Settings,
                                          workers: map<WorkerId, Settings>, fs: seq<Failure>)
    requires p.action == FallbackRetry && p.retryCount >= 0 && p.fallbacks != [] && Always(p, task, workers, fs)
    requires t.attempt * |p.fallbacks| + t.index == k && t.index <= |p.fallbacks| && t.attempt <= p.retryCount
    requires k > 0 ==> t.index > 0 && t.worker == p.fallbacks[t.index - 1]
    requires k + |fs| <= |p.fallbacks| * (p.retryCount + 1)
    ensures var n := After(t, task, workers, fs);
      && n.attempt * |p.fallbacks| + n.index == k + |fs| && n.index <= |p.fallbacks|
      && (k + |fs| > 0 ==> n.index > 0 && n.worker == p.fallbacks[n.index - 1])
    decreases |fs|
  {
    if fs != [] {
      assert PolicyOf(task, workers, fs[0]) == p && fs[0].persisted;
      var n, l := Next(t, task, workers, fs[0]).progress, |p.fallbacks|;
      Products(t.attempt, p.retryCount, l);
      assert Always(p, task, workers, fs[1..]);
      RoundRobinFrom(n, k + 1, p, task, workers, fs[1..]);
    }
  }

  /** The k-th requeue goes to fallback number `(k - 1) % l`: the list is walked in order,
      once per attempt. */
  lemma FallbacksTakeTurns(worker: WorkerId, start: real, p: Policy, task: Settings, workers: map<WorkerId, Settings>,
                           fs: seq<Failure>)
    requires p.action == FallbackRetry && p.retryCount >= 0 && p.fallbacks != [] && Always(p, task, workers, fs)
    requires 0 < |fs| <= |p.fallbacks| * (p.retryCount + 1)
    ensures After(Progress(worker, 0, 0, start), task, workers, fs).worker == p.fallbacks[(|fs| - 1) % |p.fallbacks|]
  {
    RoundRobinFrom(Progress(worker, 0, 0, start), 0, p, task, workers, fs);
    var n, l := After(Progress(worker, 0, 0, start), task, workers, fs), |p.fallbacks|;
    RemainderIs(|fs| - 1, n.attempt, n.index - 1, l);
  }

  lemma RemainderIs(x: int, q: int, rest: int, l: int)
    requires 0 <= rest < l && x == q * l + rest
    ensures x % l == rest
  {
    Products(x / l, q, l);
    Products(q, x / l, l);
  }
}
