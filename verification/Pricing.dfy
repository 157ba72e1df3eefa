/** What a payment buys, in whole steps: from the amount to the session that the grant makes. */
module Pricing {
  import opened Options
  import opened GrantLedger
  import LedgerQuota
  import K = CashuRuns
  import P = CashuReconciler
  import V = CashuConverses
  import N = LightningRuns

  /** `amount` pays for exactly `k` steps at `price`, which counts as one when it is zero. */
  ghost predicate Buys(amount: nat, price: nat, k: nat) {
    var p := if price == 0 then 1 else price;
    p * k <= amount < p * (k + 1)
  }

  /** What `k` steps are worth; a step of size zero counts as one. */
  ghost predicate Worth(allotment: nat, k: nat, size: nat) {
    var s := if size == 0 then 1 else size;
    (k * s < U64 ==> allotment == k * s) && allotment == k * s % U64
  }

  lemma WholeSteps(amount: nat, price: nat, k: nat)
    requires price > 0 && price * k <= amount < price * (k + 1)
    ensures amount / price == k
  {
    var q := amount / price;
    assert price * q <= amount < price * (q + 1);
    if q < k {
      Ordered(price, q + 1, k);
    } else if k < q {
      Ordered(price, k + 1, q);
    }
  }

  lemma Ordered(p: nat, a: nat, b: nat)
    requires a <= b
    ensures p * a <= p * b
  {}

  lemma Fits(n: nat)
    ensures n < U64 ==> n % U64 == n
  {}

  // ---------------------------------------------------------------- Cashu payments

  lemma PaymentBuys(e: K.Payment, amount: nat, k: nat)
    requires Buys(amount, e.pricePerStep, k)
    ensures K.Steps(e, amount) == k && Worth(K.Allotment(e, amount), k, e.stepSize)
  {
    WholeSteps(amount, if e.pricePerStep == 0 then 1 else e.pricePerStep, k);
    var size := if e.stepSize == 0 then 1 else e.stepSize;
    assert K.Max1(e.stepSize) == size;
    Fits(k * size);
  }

  /** A new session that a pass saves holds exactly the steps that the payment buys, at least one, at the price and
      size frozen in the entry, unused and for an hour. */
  lemma SessionBought(w: K.World, id: string, e: K.Payment, amount: nat, now: nat, k: nat)
    requires Buys(amount, e.pricePerStep, k) && !HasGrant(w.ledger.mem, e.mac, Cashu(id))
    requires K.Enabled(w, K.Begin(id, e, amount, now, NoFault))
    ensures var ss := K.Next(w, K.Begin(id, e, amount, now, NoFault)).ledger.mem.sessions;
      && e.mac in ss && k > 0 && Worth(ss[e.mac].allotment, k, e.stepSize)
      && ss[e.mac].used == 0 && ss[e.mac].metric == e.metric && ss[e.mac].expiry == now + 3600
  {
    PaymentBuys(e, amount, k);
    SessionGranted(w.ledger, e.mac, K.Allotment(e, amount), e.metric, id, now);
  }

  lemma SessionGranted(l: Ledger, mac: Mac, allotment: nat, metric: string, id: string, now: nat)
    requires !HasGrant(l.mem, mac, Cashu(id))
    ensures var (l', isNew, ok) := GrantDurably(l, mac, allotment, metric, K.GRANT_SECS, Cashu(id), now, NoFault);
      && mac in l'.mem.sessions
      && var s := l'.mem.sessions[mac];
      s.allotment == allotment && s.used == 0 && s.metric == metric && s.expiry == now + 3600
  {
    V.SavedSession(l, ApplyGrantOnce(l.mem, mac, allotment, metric, K.GRANT_SECS, Cashu(id), now), mac, now);
  }

  /** What a pass decides about an entry.  Only one that was left at its intent, or timed out, is looked at; when its
      token is spent it is due exactly when it buys a step, and closed with zero steps exactly when it does not; when
      its token is unspent it is closed exactly when no receive of it is undecided. */
  lemma DueExactlyWhen(e: K.Payment, a: P.Answers, k: nat)
    requires a.token.Spent? ==> Buys(a.token.amountSat, e.pricePerStep, k)
    ensures var undecided := e.phase == K.Intent || e.phase == K.TimeoutUnknown;
      && (P.Due(e, a) <==> undecided && a.token.Spent? && k > 0)
      && P.Closing(e, a) ==
           if undecided && a.token.Spent? && k == 0 then Some(K.ReconcileZeroSteps(a.token.amountSat))
           else if undecided && a.token.Unspent? && a.saga.NoReceive? then Some(K.ReconcileUnspent)
           else None
  {
    if a.token.Spent? {
      PaymentBuys(e, a.token.amountSat, k);
    }
  }

  // ---------------------------------------------------------------- Lightning quotes

  /** The boundaries of a quote's time: past its expiry, if it has one, or more than six hours after its creation. */
  lemma OverExactlyWhen(r: N.Quote, now: nat)
    ensures N.Over(r, now) <==> (r.expiry > 0 && now > r.expiry) || now > r.createdAt + 6 * 60 * 60
  {}

  /** A quote is worth the allotment frozen in its record; one that predates the field buys whole steps at the price
      configured for its mint, which counts as one when there is none. */
  lemma QuoteIsWorth(cfg: N.Config, r: N.Quote, k: nat)
    ensures 0 < r.allotment < U64 ==> N.Terms(cfg, r) == r.allotment
    ensures r.allotment == 0 && Buys(r.amountSat, if r.mint in cfg.prices then cfg.prices[r.mint] else 0, k) ==>
      N.Terms(cfg, r) == k * cfg.stepSize % U64
  {
    var price := if r.mint in cfg.prices && cfg.prices[r.mint] > 0 then cfg.prices[r.mint] else 1;
    if price * k <= r.amountSat < price * (k + 1) {
      WholeSteps(r.amountSat, price, k);
    }
    Fits(r.allotment);
  }

  /** The first allotment of a quote extends the session of its MAC by that, or starts one. */
  lemma QuoteCredits(w: N.World, q: string, now: nat, terms: nat)
    requires N.Enabled(w, N.AddFirst(q, now)) && terms == N.Terms(w.cfg, w.quotes[q])
    ensures var mac, before := w.quotes[q].mac, w.ledger.mem.sessions;
      var after := N.Next(w, N.AddFirst(q, now)).ledger.mem.sessions;
      && mac in after
      && (mac in before ==>
            LedgerQuota.Extended(before[mac], after[mac], terms, 3600, Some(Lightning(q)), now))
      && (mac !in before ==>
            && after[mac].allotment == terms && after[mac].used == 0 && after[mac].expiry == now + 3600
            && after[mac].metric == if w.quotes[q].metric != "" then w.quotes[q].metric else w.cfg.metric)
  {
    var r := w.quotes[q];
    if r.mac in w.ledger.mem.sessions {
      LedgerQuota.ExtensionKeeps(w.ledger.mem, r.mac, N.Metric(w.cfg, r), terms, N.GRANT_SECS, Some(Lightning(q)),
                                 Lightning(q), now);
    }
  }
}
