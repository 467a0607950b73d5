/** One resource's books (core/resource.py): active reservations by consumer, and
    "soft" entries for models that stay resident after their last request.

    Class `Resource` is the mutable object. `Ledger` is its state as a value, and the
    functions on `Ledger` are the specifications the methods are proved against. */
module ResourceLedger {
  import opened Basics

  datatype Metric = Metric(name: string)

  /** Metric to amount. Missing metrics count as zero. */
  type Amounts = map<Metric, int>

  datatype RunId = RunId(text: string)

  datatype ResourceId = ResourceId(text: string)

  /** Who holds a reservation: nobody in particular (the empty id), one dispatched
      run, or the base footprint shared by the sessions of a parallel model. */
  datatype Consumer = Anonymous | Run(id: RunId) | Base(key: ModelKey)

  datatype SoftEntry = SoftEntry(
    consumer: Consumer,
    amounts: Amounts,
    expires: real,
    model: Name,
    provider: Name,
    persistent: bool)

  datatype Ledger = Ledger(
    limits: Amounts,
    used: Amounts,
    consumers: map<Consumer, Amounts>,
    soft: seq<SoftEntry>,
    aliveTime: int,
    keepAlive: int,
    enabled: bool)

  function At(a: Amounts, m: Metric): int { if m in a then a[m] else 0 }

  /** What a requirement asks of one metric; entries that are not positive are skipped. */
  function Need(req: Amounts, m: Metric): nat { if m in req && req[m] > 0 then req[m] else 0 }

  function Positive(req: Amounts): Amounts { map m | m in req && req[m] > 0 :: req[m] }

  function HeldBy(consumers: map<Consumer, Amounts>, c: Consumer): Amounts {
    if c in consumers then consumers[c] else map[]
  }

  function Charge(a: Amounts, req: Amounts): Amounts {
    map m | m in a.Keys + req.Keys && (m in a || req[m] > 0) :: At(a, m) + Need(req, m)
  }

  function ChargeConsumer(consumers: map<Consumer, Amounts>, c: Consumer, req: Amounts): map<Consumer, Amounts> {
    var share := Charge(HeldBy(consumers, c), req);
    if c == Anonymous || share == map[] then consumers else consumers[c := share]
  }

  /** `used` after a release: every released metric is written, never below zero. */
  function Discharge(a: Amounts, req: Amounts): Amounts {
    map m | m in a.Keys + req.Keys && (m in a || req[m] > 0) ::
      if Need(req, m) > 0 then Max(0, At(a, m) - req[m]) else a[m]
  }

  /** One consumer's share after a release: metrics that reach zero disappear. */
  function Remainder(a: Amounts, req: Amounts): Amounts {
    map m | m in a && (Need(req, m) > 0 ==> a[m] > req[m]) :: a[m] - Need(req, m)
  }

  function DischargeConsumer(consumers: map<Consumer, Amounts>, c: Consumer, req: Amounts): map<Consumer, Amounts> {
    if c == Anonymous || c !in consumers then consumers
    else if Remainder(consumers[c], req) == map[] then consumers - {c}
    else consumers[c := Remainder(consumers[c], req)]
  }

  // ----- soft entries

  predicate Active(e: SoftEntry, now: real) { e.persistent || now < e.expires }

  /** The occupancy of one soft entry at a time. */
  function Occupies(e: SoftEntry, now: real, m: Metric): int {
    if Active(e, now) then At(e.amounts, m) else 0
  }

  function SoftTotal(soft: seq<SoftEntry>, now: real, m: Metric): int {
    if soft == [] then 0 else Occupies(soft[0], now, m) + SoftTotal(soft[1..], now, m)
  }

  /** Same model, and same provider when one is given. */
  predicate SameModel(e: SoftEntry, model: Name, provider: Name) {
    e.model == model && (provider == Unnamed || e.provider == provider)
  }

  function Without(soft: seq<SoftEntry>, model: Name, provider: Name): seq<SoftEntry> {
    if soft == [] then []
    else if SameModel(soft[0], model, provider) then Without(soft[1..], model, provider)
    else [soft[0]] + Without(soft[1..], model, provider)
  }

  /** Entries that still count as loaded: on a resource without a retention window only persistent ones do. */
  predicate Retained(l: Ledger, e: SoftEntry, now: real) {
    e.persistent || ((l.aliveTime != 0 || l.keepAlive != 0) && Active(e, now))
  }

  predicate Covers(e: SoftEntry, req: Amounts) {
    forall m | m in req :: req[m] > 0 ==> At(e.amounts, m) >= req[m]
  }

  predicate Matches(l: Ledger, e: SoftEntry, model: Name, req: Amounts, provider: Name, now: real) {
    Retained(l, e, now) && SameModel(e, model, provider) && Covers(e, req)
  }

  function FirstMatch(l: Ledger, soft: seq<SoftEntry>, model: Name, req: Amounts, provider: Name,
                      now: real): (r: Option<SoftEntry>)
    ensures r.Some? ==> r.value in soft && Matches(l, r.value, model, req, provider, now)
    ensures r.None? ==> forall e | e in soft :: !Matches(l, e, model, req, provider, now)
  {
    if soft == [] then None
    else if Matches(l, soft[0], model, req, provider, now) then Some(soft[0])
    else FirstMatch(l, soft[1..], model, req, provider, now)
  }

  function Matching(l: Ledger, model: Name, req: Amounts, provider: Name, now: real): Option<SoftEntry> {
    if model == Unnamed then None else FirstMatch(l, l.soft, model, req, provider, now)
  }

  // ----- capacity

  /** What counts against the limit of one metric. */
  function Total(l: Ledger, now: real, m: Metric): int { At(l.used, m) + SoftTotal(l.soft, now, m) }

  predicate HasRoom(l: Ledger, req: Amounts, now: real) {
    forall m | m in req :: req[m] > 0 ==> Total(l, now, m) + req[m] <= At(l.limits, m)
  }

  predicate Available(l: Ledger, req: Amounts, now: real) { l.enabled && HasRoom(l, req, now) }

  /** Would fit once every idle model is unloaded. */
  predicate AvailableAfterUnload(l: Ledger, req: Amounts) {
    l.enabled && forall m | m in req :: req[m] > 0 ==> At(l.used, m) + req[m] <= At(l.limits, m)
  }

  /** Would fit once every idle model but this one is unloaded. */
  predicate AvailableAfterUnloadingOthers(l: Ledger, req: Amounts, model: Name, provider: Name, now: real) {
    && l.enabled
    && var own := Matching(l, model, map[], provider, now);
    forall m | m in req :: req[m] > 0 ==>
      var resident := if own.Some? then At(own.value.amounts, m) else 0;
      At(l.used, m) + Max(0, SoftTotal(l.soft, now, m) - resident) + req[m] <= At(l.limits, m)
  }

  predicate AvailableForReuse(l: Ledger, req: Amounts, model: Name, provider: Name, now: real) {
    && l.enabled
    && var match_ := Matching(l, model, req, provider, now);
    && match_.Some?
    && forall m | m in req :: req[m] > 0 ==>
         At(l.used, m) + Max(0, SoftTotal(l.soft, now, m) - At(match_.value.amounts, m)) + req[m] <= At(l.limits, m)
  }

  function ClearSoft(l: Ledger, model: Name, provider: Name): Ledger {
    l.(soft := Without(l.soft, model, provider))
  }

  function ReserveActive(l: Ledger, req: Amounts, c: Consumer): Ledger {
    l.(used := Charge(l.used, req), consumers := ChargeConsumer(l.consumers, c, req))
  }

  function ReserveBlind(l: Ledger, req: Amounts, c: Consumer, model: Name, provider: Name, now: real): Ledger {
    ReserveActive(if Matching(l, model, req, provider, now).Some? then ClearSoft(l, model, provider) else l, req, c)
  }

  function Release(l: Ledger, req: Amounts, c: Consumer, model: Name, provider: Name, persistent: bool,
                   now: real): Ledger {
    var books := l.(used := Discharge(l.used, req), consumers := DischargeConsumer(l.consumers, c, req));
    if (persistent || l.aliveTime > 0 || l.keepAlive > 0) && req != map[] && model != Unnamed then
      var entry := SoftEntry(c, Positive(req), now + Max(l.aliveTime, l.keepAlive) as real, model, provider,
        persistent);
      books.(soft := Without(l.soft, model, provider) + [entry])
    else books
  }

  // ----- totals

  /** What the entries of one model occupy. */
  function ModelTotal(soft: seq<SoftEntry>, model: Name, provider: Name, now: real, m: Metric): int {
    if soft == [] then 0
    else (if SameModel(soft[0], model, provider) then Occupies(soft[0], now, m) else 0)
         + ModelTotal(soft[1..], model, provider, now, m)
  }

  ghost predicate NonNegative(a: Amounts) { forall m | m in a :: a[m] >= 0 }

  ghost predicate SoundEntries(soft: seq<SoftEntry>) { forall e | e in soft :: NonNegative(e.amounts) }

  lemma WithoutTotal(soft: seq<SoftEntry>, model: Name, provider: Name, now: real, m: Metric)
    ensures SoftTotal(Without(soft, model, provider), now, m) ==
      SoftTotal(soft, now, m) - ModelTotal(soft, model, provider, now, m)
    ensures forall e :: e in Without(soft, model, provider) <==> e in soft && !SameModel(e, model, provider)
  {
    if soft != [] {
      WithoutTotal(soft[1..], model, provider, now, m);
      var rest := Without(soft[1..], model, provider);
      assert ([soft[0]] + rest)[1..] == rest;
    }
  }

  lemma AppendTotal(soft: seq<SoftEntry>, e: SoftEntry, now: real, m: Metric)
    ensures SoftTotal(soft + [e], now, m) == SoftTotal(soft, now, m) + Occupies(e, now, m)
  {
    if soft != [] {
      AppendTotal(soft[1..], e, now, m);
      assert (soft + [e])[1..] == soft[1..] + [e];
    }
  }

  /** An entry's share is part of its model's total, and that is part of the whole. */
  lemma EntryWithinTotal(soft: seq<SoftEntry>, model: Name, provider: Name, now: real, m: Metric)
    requires SoundEntries(soft)
    ensures 0 <= ModelTotal(soft, model, provider, now, m) <= SoftTotal(soft, now, m)
    ensures forall e | e in soft && SameModel(e, model, provider) ::
      Occupies(e, now, m) <= ModelTotal(soft, model, provider, now, m)
  {
    if soft != [] {
      assert SoundEntries(soft[1..]);
      EntryWithinTotal(soft[1..], model, provider, now, m);
    }
  }

  lemma TickTotal(soft: seq<SoftEntry>, now: real, later: real, m: Metric)
    requires SoundEntries(soft) && now <= later
    ensures SoftTotal(soft, later, m) <= SoftTotal(soft, now, m)
    ensures forall e | e in soft ::
              SoftTotal(soft, later, m) - Occupies(e, later, m) <= SoftTotal(soft, now, m) - Occupies(e, now, m)
  {
    if soft != [] {
      assert SoundEntries(soft[1..]);
      TickTotal(soft[1..], now, later, m);
    }
  }

  // ----- the loops over one requirement

  method AddAll(a: Amounts, req: Amounts) returns (r: Amounts)
    ensures r == Charge(a, req)
  {
    r := a;
    var todo := req.Keys;
    while todo != {}
      invariant todo <= req.Keys
      invariant r.Keys == a.Keys + set m | m in req && m !in todo && req[m] > 0
      invariant forall m | m in r :: r[m] == At(a, m) + if m in todo then 0 else Need(req, m)
    {
      var m :| m in todo;
      if req[m] > 0 { r := r[m := At(r, m) + req[m]]; }
      todo := todo - {m};
    }
  }

  method SubtractAll(a: Amounts, req: Amounts) returns (r: Amounts)
    ensures r == Discharge(a, req)
  {
    r := a;
    var todo := req.Keys;
    while todo != {}
      invariant todo <= req.Keys
      invariant r.Keys == a.Keys + set m | m in req && m !in todo && req[m] > 0
      invariant forall m | m in r ::
        r[m] == if m in todo || Need(req, m) == 0 then At(a, m) else Max(0, At(a, m) - req[m])
    {
      var m :| m in todo;
      if req[m] > 0 { r := r[m := Max(0, At(r, m) - req[m])]; }
      todo := todo - {m};
    }
  }

  method RemoveShare(a: Amounts, req: Amounts) returns (r: Amounts)
    ensures r == Remainder(a, req)
  {
    r := a;
    var todo := req.Keys;
    while todo != {}
      invariant todo <= req.Keys
      invariant r.Keys == set m | m in a && (m in todo || Need(req, m) == 0 || a[m] > req[m])
      invariant forall m | m in r :: r[m] == a[m] - if m in todo then 0 else Need(req, m)
    {
      var m :| m in todo;
      if req[m] > 0 {
        var left := Max(0, At(r, m) - req[m]);
        r := if left == 0 then r - {m} else r[m := left];
      }
      todo := todo - {m};
    }
  }

  // ----- the mutable object

  class Resource {
    var limits: Amounts
    var used: Amounts
    var consumers: map<Consumer, Amounts>
    var softUsed: seq<SoftEntry>
    var aliveTime: int
    var keepAlive: int
    var enabled: bool

    function State(): Ledger
      reads this
    {
      Ledger(limits, used, consumers, softUsed, aliveTime, keepAlive, enabled)
    }

    constructor (limits: Amounts, aliveTime: int, keepAlive: int)
      ensures State() == Ledger(limits, map m | m in limits :: 0, map[], [], aliveTime, keepAlive, true)
    {
      this.limits := limits;
      this.used := map m | m in limits :: 0;
      this.consumers := map[];
      this.softUsed := [];
      this.aliveTime := aliveTime;
      this.keepAlive := keepAlive;
      this.enabled := true;
    }

    /** Sum the resources held by active soft entries. */
    method ComputeSoftUsed(now: real) returns (total: Amounts)
      ensures forall m :: At(total, m) == SoftTotal(softUsed, now, m)
    {
      total := map[];
      var i := |softUsed|;
      while i > 0
        invariant 0 <= i <= |softUsed|
        invariant forall m :: At(total, m) == SoftTotal(softUsed[i..], now, m)
      {
        i := i - 1;
        var e := softUsed[i];
        assert softUsed[i..][1..] == softUsed[i + 1..];
        if Active(e, now) {
          ghost var before := total;
          total := map m | m in total.Keys + e.amounts.Keys :: At(total, m) + At(e.amounts, m);
          assert forall m :: At(total, m) == At(before, m) + At(e.amounts, m);
        }
      }
    }

    method IsAvailable(required: Amounts, now: real) returns (ok: bool)
      ensures ok == Available(State(), required, now)
    {
      if !enabled { return false; }
      var soft := ComputeSoftUsed(now);
      var todo := required.Keys;
      while todo != {}
        invariant todo <= required.Keys
        invariant forall m | m in required && m !in todo :: required[m] > 0 ==>
          Total(State(), now, m) + required[m] <= At(limits, m)
      {
        var m :| m in todo;
        if required[m] > 0 && At(used, m) + At(soft, m) + required[m] > At(limits, m) { return false; }
        todo := todo - {m};
      }
      return true;
    }

    method IsAvailableForReuse(required: Amounts, model: Name, provider: Name, now: real) returns (ok: bool)
      ensures ok == AvailableForReuse(State(), required, model, provider, now)
    {
      if !enabled { return false; }
      var own := Matching(State(), model, required, provider, now);
      if own.None? { return false; }
      var soft := ComputeSoftUsed(now);
      var todo := required.Keys;
      while todo != {}
        invariant todo <= required.Keys
        invariant forall m | m in required && m !in todo :: required[m] > 0 ==>
          At(used, m) + Max(0, SoftTotal(softUsed, now, m) - At(own.value.amounts, m)) + required[m] <= At(limits, m)
      {
        var m :| m in todo;
        var others := Max(0, At(soft, m) - At(own.value.amounts, m));
        if required[m] > 0 && At(used, m) + others + required[m] > At(limits, m) { return false; }
        todo := todo - {m};
      }
      return true;
    }

    method ClearSoftConsumer(model: Name, provider: Name)
      modifies `softUsed
      ensures softUsed == Without(old(softUsed), model, provider)
    {
      var kept: seq<SoftEntry> := [];
      var i := |softUsed|;
      while i > 0
        invariant 0 <= i <= |softUsed|
        invariant kept == Without(softUsed[i..], model, provider)
      {
        i := i - 1;
        assert softUsed[i..][1..] == softUsed[i + 1..];
        if !SameModel(softUsed[i], model, provider) { kept := [softUsed[i]] + kept; }
      }
      softUsed := kept;
    }

    /** Reserve amounts for an active request without clearing a warm soft entry. */
    method ReserveActiveAmounts(required: Amounts, c: Consumer)
      modifies this
      ensures State() == ReserveActive(old(State()), required, c)
    {
      used := AddAll(used, required);
      if c != Anonymous {
        var share := AddAll(HeldBy(consumers, c), required);
        if share != map[] { consumers := consumers[c := share]; }
      }
    }

    /** Reserve without a check; a warm entry of the same model turns into the reservation. */
    method ReserveBlindly(required: Amounts, c: Consumer, model: Name, provider: Name, now: real)
      modifies this
      ensures State() == ReserveBlind(old(State()), required, c, model, provider, now)
    {
      if Matching(State(), model, required, provider, now).Some? {
        ClearSoftConsumer(model, provider);
      }
      ReserveActiveAmounts(required, c);
    }

    method GiveBack(reserved: Amounts, c: Consumer)
      modifies `used, `consumers
      ensures used == Discharge(old(used), reserved)
      ensures consumers == DischargeConsumer(old(consumers), c, reserved)
    {
      used := SubtractAll(used, reserved);
      if c != Anonymous && c in consumers {
        var share := RemoveShare(consumers[c], reserved);
        consumers := if share == map[] then consumers - {c} else consumers[c := share];
      }
    }

    /** Give amounts back, and keep the model as a soft entry when it stays resident. */
    method ReleaseAmounts(reserved: Amounts, c: Consumer, model: Name, provider: Name, persistent: bool, now: real)
      modifies this
      ensures State() == Release(old(State()), reserved, c, model, provider, persistent, now)
    {
      GiveBack(reserved, c);
      if (persistent || aliveTime > 0 || keepAlive > 0) && reserved != map[] && model != Unnamed {
        var entry := SoftEntry(c, Positive(reserved), now + Max(aliveTime, keepAlive) as real, model, provider,
          persistent);
        ClearSoftConsumer(model, provider);
        softUsed := softUsed + [entry];
      }
    }
  }
}
