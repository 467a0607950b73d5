/** What a routed request gets, told from the candidates themselves (core/smart_router.py,
    `_select_with_affinity`, `_queue_overloaded`, `_best_alternative` and the plain strategy):
    no case speaks of the functions the router's methods are proved against. */
module RouteMeaning {
  import opened Basics
  import opened AffinityStore
  import opened SmartRouter

  // ---- the vocabulary ---------------------------------------------------------------

  /** A candidate that could take the request instead of `p`; `ready` asks for one that can
      start now. */
  predicate Instead(cs: seq<Candidate>, p: nat, k: nat, ready: bool) {
    k < |cs| && k != p && cs[k].probeOk && cs[k].eligible && (ready ==> cs[k].canRunNow)
  }

  /** By start, then queue, then fallback priority, then position. */
  predicate NotAfter(a: Candidate, b: Candidate) {
    && (b.canRunNow ==> a.canRunNow)
    && ((b.canRunNow <==> a.canRunNow) ==>
          && a.queueDepth <= b.queueDepth
          && (a.queueDepth == b.queueDepth ==>
                a.fallbackPrio <= b.fallbackPrio && (a.fallbackPrio == b.fallbackPrio ==> a.index <= b.index)))
  }

  ghost predicate FirstChoice(cs: seq<Candidate>, p: nat, k: nat, ready: bool) {
    Instead(cs, p, k, ready) && forall j: nat | Instead(cs, p, j, ready) :: NotAfter(cs[k], cs[j])
  }

  ghost predicate AnyInstead(cs: seq<Candidate>, p: nat, ready: bool) { exists k: nat :: Instead(cs, p, k, ready) }

  /** The queue of `p` is beyond both thresholds when compared with the shortest other one. */
  ghost predicate TooBusy(cs: seq<Candidate>, p: nat, config: Config)
    requires p < |cs|
  {
    exists k: nat ::
      && Instead(cs, p, k, false)
      && (forall j: nat | Instead(cs, p, j, false) :: cs[k].queueDepth <= cs[j].queueDepth)
      && cs[p].queueDepth - cs[k].queueDepth > config.maxDiffLen
      && cs[p].queueDepth as real >=
           cs[k].queueDepth as real * (if config.maxDiffPart > 1.0 then config.maxDiffPart else 3.0)
  }

  predicate SaysReady(c: Candidate) { c.admission == Ready || (c.admission == Missing && c.canRunNow) }

  predicate SaysBusy(c: Candidate) {
    c.admission == Concurrency || (c.admission == Missing && !c.canRunNow && c.probeOk && c.queueKnown)
  }

  predicate SaysMemory(c: Candidate) { c.admission in {SessionMemory, BaseMemory, WaitingUnload} }

  /** The first candidate with the executor of the record, if it is still good. */
  predicate Trusted(cs: seq<Candidate>, record: Preference, p: nat) {
    && p < |cs| && cs[p].executor == record.executor && (forall i | 0 <= i < p :: cs[i].executor != record.executor)
    && cs[p].probeOk && cs[p].eligible && cs[p].group == record.group
  }

  // ---- the parts --------------------------------------------------------------------

  lemma BetterIsBefore(a: Candidate, b: Candidate)
    ensures !Better(b, a) <==> NotAfter(a, b)
  {
  }

  lemma AlternativeIsFirstChoice(cs: seq<Candidate>, p: nat, ready: bool)
    ensures var r := BestAlternative(cs, p, ready);
      && (r.Some? <==> AnyInstead(cs, p, ready)) && (r.Some? ==> FirstChoice(cs, p, r.value, ready))
  {
    BestOtherMeans(cs, p, ready, 0, None);
    var r := BestAlternative(cs, p, ready);
    assert r.Some? ==> Instead(cs, p, r.value, ready);
    forall j: nat | Instead(cs, p, j, ready) ensures r.Some? && NotAfter(cs[r.value], cs[j]) {
      assert Usable(cs[j], ready);
      BetterIsBefore(cs[r.value], cs[j]);
    }
  }

  lemma {:induction false} LeastDepthMeans(cs: seq<Candidate>, p: nat, i: nat)
    requires i <= |cs|
    ensures var least := LeastDepth(cs, p, i);
      && (least.None? <==> forall k: nat | i <= k :: !Instead(cs, p, k, false))
      && (least.Some? ==>
            && (exists k: nat :: i <= k && Instead(cs, p, k, false) && cs[k].queueDepth == least.value)
            && forall j: nat | i <= j && Instead(cs, p, j, false) :: least.value <= cs[j].queueDepth)
    decreases |cs| - i
  {
    if i < |cs| {
      LeastDepthMeans(cs, p, i + 1);
      assert Instead(cs, p, i, false) <==> i != p && Usable(cs[i], false);
    }
  }

  lemma OverloadedIsTooBusy(cs: seq<Candidate>, p: nat, config: Config)
    requires p < |cs|
    ensures Overloaded(cs, p, config) <==> TooBusy(cs, p, config)
  {
    LeastDepthMeans(cs, p, 0);
  }

  lemma {:induction false} FirstOfMeans(cs: seq<Candidate>, e: Executor, i: nat)
    requires i <= |cs|
    ensures var p := FirstOf(cs, e, i);
      && (p.Some? ==>
            i <= p.value < |cs| && cs[p.value].executor == e && forall k | i <= k < p.value :: cs[k].executor != e)
      && (p.None? ==> forall k | i <= k < |cs| :: cs[k].executor != e)
    decreases |cs| - i
  {
    if i < |cs| { FirstOfMeans(cs, e, i + 1); }
  }

  lemma AcceptedIsTrusted(cs: seq<Candidate>, record: Option<Preference>)
    ensures var p := Accepted(cs, record);
      && (p.Some? ==> record.Some? && Trusted(cs, record.value, p.value))
      && (p.None? && record.Some? ==> forall k: nat :: !Trusted(cs, record.value, k))
      && (record.Some? ==> forall k: nat | Trusted(cs, record.value, k) :: p == Some(k))
  {
    if record.Some? { FirstOfMeans(cs, record.value.executor, 0); }
  }

  // ---- the choice -------------------------------------------------------------------

  ghost predicate Diverted(cs: seq<Candidate>, p: nat, ready: bool, why: Why, c: Choice) {
    c.Chosen? && c.why == why && FirstChoice(cs, p, c.at, ready)
  }

  /** A preferred candidate that is admitted. */
  ghost predicate ReadyCase(cs: seq<Candidate>, p: nat, config: Config, c: Choice)
    requires p < |cs|
  {
    if !TooBusy(cs, p, config) then c == Chosen(p, Affinity)
    else if !config.overImmediate then c == Plain(cs)
    else Diverted(cs, p, false, QueueDiverted, c)
  }

  /** One that has no free request slot. */
  ghost predicate BusyCase(cs: seq<Candidate>, p: nat, config: Config, c: Choice)
    requires p < |cs|
  {
    if !config.overImmediate then c == Plain(cs)
    else if !TooBusy(cs, p, config) then c == Chosen(p, WaitQueue)
    else Diverted(cs, p, false, QueueDiverted, c)
  }

  /** One that waits for memory: it yields to whoever can start now; it is kept while its wait
      has not expired; after that it yields to any usable other, and is kept if there is none. */
  ghost predicate MemoryCase(cs: seq<Candidate>, p: nat, config: Config, expired: bool, c: Choice) {
    if AnyInstead(cs, p, true) then Diverted(cs, p, true, ResourceDiverted, c)
    else if !config.overImmediate then c == Plain(cs)
    else if !expired then c == Chosen(p, WaitResource)
    else if AnyInstead(cs, p, false) then Diverted(cs, p, false, ResourceTimeout, c)
    else c == Chosen(p, NoAlternative)
  }

  lemma ReadyMeans(cs: seq<Candidate>, record: Option<Preference>, p: nat, config: Config, expired: bool)
    requires Accepted(cs, record) == Some(p) && p < |cs| && SaysReady(cs[p])
    ensures ReadyCase(cs, p, config, WithAffinity(cs, record, config, expired))
  {
    OverloadedIsTooBusy(cs, p, config);
    AlternativeIsFirstChoice(cs, p, false);
  }

  lemma BusyMeans(cs: seq<Candidate>, record: Option<Preference>, p: nat, config: Config, expired: bool)
    requires Accepted(cs, record) == Some(p) && p < |cs| && SaysBusy(cs[p])
    ensures BusyCase(cs, p, config, WithAffinity(cs, record, config, expired))
  {
    OverloadedIsTooBusy(cs, p, config);
    AlternativeIsFirstChoice(cs, p, false);
  }

  lemma MemoryMeans(cs: seq<Candidate>, record: Option<Preference>, p: nat, config: Config, expired: bool)
    requires Accepted(cs, record) == Some(p) && p < |cs| && SaysMemory(cs[p])
    ensures MemoryCase(cs, p, config, expired, WithAffinity(cs, record, config, expired))
  {
    AlternativeIsFirstChoice(cs, p, true);
    AlternativeIsFirstChoice(cs, p, false);
  }

  /** Main result: what a request gets with affinity, for any candidates and any record. */
  lemma RouteMeans(cs: seq<Candidate>, record: Option<Preference>, config: Config, expired: bool)
    ensures var c := WithAffinity(cs, record, config, expired);
      && ((record.Some? ==> forall p: nat :: !Trusted(cs, record.value, p)) ==> c == Plain(cs))
      && (record.Some? ==> forall p: nat | Trusted(cs, record.value, p) ::
            if SaysReady(cs[p]) then ReadyCase(cs, p, config, c)
            else if SaysBusy(cs[p]) then BusyCase(cs, p, config, c)
            else if SaysMemory(cs[p]) then MemoryCase(cs, p, config, expired, c)
            else c == Plain(cs))
  {
    AcceptedIsTrusted(cs, record);
    var q := Accepted(cs, record);
    if q.Some? {
      if SaysReady(cs[q.value]) { ReadyMeans(cs, record, q.value, config, expired); }
      else if SaysBusy(cs[q.value]) { BusyMeans(cs, record, q.value, config, expired); }
      else if SaysMemory(cs[q.value]) { MemoryMeans(cs, record, q.value, config, expired); }
    }
  }

  /** The plain strategy, on any candidates: the first that can start now; else the eligible
      one with the least fallback priority, and among those the first configured; else none. */
  lemma PlainIs(cs: seq<Candidate>)
    ensures match Plain(cs)
      case Chosen(at, Immediate) => at < |cs| && cs[at].canRunNow && forall i | 0 <= i < at :: !cs[i].canRunNow
      case Chosen(at, BusyFallback) =>
        && at < |cs| && cs[at].eligible && (forall i | 0 <= i < |cs| :: !cs[i].canRunNow)
        && (forall i | 0 <= i < |cs| && cs[i].eligible ::
              cs[at].fallbackPrio < cs[i].fallbackPrio ||
              (cs[at].fallbackPrio == cs[i].fallbackPrio && cs[at].index <= cs[i].index))
      case Failed => forall i | 0 <= i < |cs| :: !cs[i].canRunNow && !cs[i].eligible
      case Chosen(_, _) => false
  {
    FirstRunnableMeans(cs, 0);
    LeastBusyMeans(cs, 0, None);
    var best := LeastBusy(cs, 0, None);
    forall i | 0 <= i < |cs| && cs[i].eligible && best.Some?
      ensures cs[best.value].fallbackPrio < cs[i].fallbackPrio ||
        (cs[best.value].fallbackPrio == cs[i].fallbackPrio && cs[best.value].index <= cs[i].index) {
      assert !FewerBusy(cs[i], cs[best.value]);
    }
  }

  /** Which candidates can start now, from what their checks came back with: a local one needs
      an admission (or room, where no verdict is given) and nothing of its priority before it. */
  lemma StartsIff(base: Candidate, seen: Seen)
    ensures var c := Evaluate(base, seen);
      && (c.canRunNow <==>
            || seen == ApiProbe(true) || (seen.Remote? && seen.canRun)
            || (seen.Local? && !seen.probeFailed && seen.depth == seen.below &&
                if seen.verdict.Some? then seen.verdict.value.admissibleNow else seen.afterUnload || seen.reusable))
      && (c.eligible <==> seen == ApiProbe(true) || seen.Remote? || (seen.Local? && !seen.probeFailed))
      && (seen.Local? || seen.Remote? ==> c.queueDepth == seen.depth)
      && (seen == ApiProbe(true) ==> c.queueDepth == 0 && c.admission == Ready)
      && (seen.Local? && c.eligible && seen.verdict.Some? ==> c.admission == seen.verdict.value.admission)
      && (seen.Remote? && seen.admission != Missing ==> c.admission == seen.admission)
      && (c.eligible && ((seen.Local? && seen.verdict.None?) || (seen.Remote? && seen.admission == Missing)) ==>
            c.admission == if c.canRunNow then Ready else Concurrency)
  {
  }
}
