/** Conservation on one resource: what is used is exactly what the consumers hold. */
module Conservation {
  import opened Basics
  import opened ResourceLedger

  ghost function HeldInAll(consumers: map<Consumer, Amounts>, m: Metric): int
    decreases |consumers|
  {
    if consumers == map[] then 0
    else
      var c :| c in consumers;
      At(consumers[c], m) + HeldInAll(consumers - {c}, m)
  }

  lemma {:induction false} HeldWithout(consumers: map<Consumer, Amounts>, c: Consumer, m: Metric)
    requires c in consumers
    ensures HeldInAll(consumers, m) == At(consumers[c], m) + HeldInAll(consumers - {c}, m)
    decreases |consumers|
  {
    var d :| d in consumers && HeldInAll(consumers, m) == At(consumers[d], m) + HeldInAll(consumers - {d}, m);
    if d != c {
      HeldWithout(consumers - {d}, c, m);
      HeldWithout(consumers - {c}, d, m);
      assert consumers - {d} - {c} == consumers - {c} - {d};
    }
  }

  lemma HeldAfterUpdate(consumers: map<Consumer, Amounts>, c: Consumer, share: Amounts, m: Metric)
    ensures HeldInAll(consumers[c := share], m) == HeldInAll(consumers, m) - At(HeldBy(consumers, c), m) + At(share, m)
  {
    HeldWithout(consumers[c := share], c, m);
    assert consumers[c := share] - {c} == consumers - {c};
    if c in consumers { HeldWithout(consumers, c, m); } else { assert consumers - {c} == consumers; }
  }

  lemma {:induction false} HeldNonNegative(consumers: map<Consumer, Amounts>, m: Metric)
    requires forall c | c in consumers :: NonNegative(consumers[c])
    ensures HeldInAll(consumers, m) >= 0
    decreases |consumers|
  {
    if consumers != map[] {
      var c :| c in consumers;
      HeldWithout(consumers, c, m);
      HeldNonNegative(consumers - {c}, m);
    }
  }

  /** The books balance, nobody anonymous holds anything, and no consumer is kept with nothing. */
  ghost predicate Balanced(l: Ledger) {
    && (forall m :: At(l.used, m) == HeldInAll(l.consumers, m))
    && Anonymous !in l.consumers
    && forall c | c in l.consumers :: NonNegative(l.consumers[c]) && l.consumers[c] != map[]
  }

  /** A consumer's share is part of what is used. */
  lemma ShareIsUsed(l: Ledger, c: Consumer, m: Metric)
    requires Balanced(l)
    ensures 0 <= At(HeldBy(l.consumers, c), m) <= At(l.used, m)
  {
    HeldNonNegative(l.consumers, m);
    if c in l.consumers {
      HeldWithout(l.consumers, c, m);
      HeldNonNegative(l.consumers - {c}, m);
    }
  }

  lemma NewcomersShare(consumers: map<Consumer, Amounts>, c: Consumer, req: Amounts)
    requires c != Anonymous && c !in consumers
    ensures ChargeConsumer(consumers, c, req) ==
      if Positive(req) == map[] then consumers else consumers[c := Positive(req)]
  {
    assert Charge(map[], req) == Positive(req);
  }

  lemma PositiveAt(req: Amounts, m: Metric)
    ensures At(Positive(req), m) == Need(req, m)
  {}

  /** A reservation by a newcomer adds exactly its positive amounts under its name. */
  lemma ReserveBalances(l: Ledger, req: Amounts, c: Consumer)
    requires Balanced(l) && c != Anonymous && c !in l.consumers
    ensures var l' := ReserveActive(l, req, c);
            && Balanced(l')
            && l'.consumers == if Positive(req) == map[] then l.consumers else l.consumers[c := Positive(req)]
  {
    var l' := ReserveActive(l, req, c);
    NewcomersShare(l.consumers, c, req);
    forall m ensures At(l'.used, m) == HeldInAll(l'.consumers, m) {
      assert At(l.used, m) == HeldInAll(l.consumers, m);
      PositiveAt(req, m);
      HeldAfterUpdate(l.consumers, c, Positive(req), m);
    }
  }

  lemma LeaversShare(consumers: map<Consumer, Amounts>, c: Consumer, req: Amounts)
    requires c != Anonymous && HeldBy(consumers, c) == Positive(req)
    ensures DischargeConsumer(consumers, c, req) == consumers - {c}
  {
    assert Remainder(Positive(req), req) == map[];
    assert c !in consumers ==> consumers - {c} == consumers;
  }

  lemma LeaversTotal(l: Ledger, req: Amounts, c: Consumer, m: Metric)
    requires Balanced(l) && c != Anonymous && HeldBy(l.consumers, c) == Positive(req)
    ensures Need(req, m) <= At(l.used, m)
    ensures At(Discharge(l.used, req), m) == At(l.used, m) - Need(req, m) == HeldInAll(l.consumers - {c}, m)
  {
    assert At(l.used, m) == HeldInAll(l.consumers, m);
    PositiveAt(req, m);
    ShareIsUsed(l, c, m);
    if c in l.consumers { HeldWithout(l.consumers, c, m); } else { assert l.consumers - {c} == l.consumers; }
  }

  /** Giving back exactly what was reserved: no amount is clamped, and the consumer is gone. */
  lemma ReleaseBalances(l: Ledger, req: Amounts, c: Consumer, model: Name, provider: Name, persistent: bool, now: real)
    requires Balanced(l) && c != Anonymous && HeldBy(l.consumers, c) == Positive(req)
    ensures var l' := Release(l, req, c, model, provider, persistent, now);
            && Balanced(l') && l'.consumers == l.consumers - {c}
            && forall m :: At(l'.used, m) == At(l.used, m) - Need(req, m)
    ensures forall m :: Need(req, m) <= At(l.used, m)
  {
    var l' := Release(l, req, c, model, provider, persistent, now);
    LeaversShare(l.consumers, c, req);
    forall m ensures At(l'.used, m) == HeldInAll(l'.consumers, m) && At(l'.used, m) == At(l.used, m) - Need(req, m)
                  && Need(req, m) <= At(l.used, m) {
      LeaversTotal(l, req, c, m);
    }
  }
}
