/** What a customer has left: extensions add to it and take nothing away, over every run. */
module LedgerQuota {
  import opened Options
  import opened GrantLedger
  import opened LedgerRuns
  import V = LedgerValue

  /** What is left of a session. */
  function Left(s: Session): nat {
    if s.allotment > s.used then s.allotment - s.used else 0
  }

  /** One payment of `amount` has been added to the session, for another `secs` seconds, and nothing else was done to
      it: what was used stays used, and what was applied stays applied. */
  predicate Extended(s: Session, s': Session, amount: nat, secs: nat, id: Option<GrantId>, now: nat) {
    && s'.allotment == (s.allotment + amount) % U64
    && s'.used == s.used && s'.metric == s.metric
    && s'.expiry == now + secs && s'.grantedAt == now
    && s'.applied == (if id.Some? then s.applied + {id.value} else s.applied)
    && s'.last == (if id.Some? then id else s.last)
  }

  /** Whichever path extends, with an id or without. */
  lemma ExtensionKeeps(m: Memory, mac: Mac, metric: string, amount: nat, secs: nat, id: Option<GrantId>,
                       payment: GrantId, now: nat)
    requires mac in m.sessions
    ensures var m' := AddAllotment(m, mac, metric, amount, secs, id, now);
      && mac in m'.sessions && Extended(m.sessions[mac], m'.sessions[mac], amount, secs, id, now)
      && m' == m.(sessions := m.sessions[mac := m'.sessions[mac]])
    ensures var m' := ExtendLive(m, mac, metric, amount, secs, payment, now);
      && mac in m'.sessions && Extended(m.sessions[mac], m'.sessions[mac], amount, secs, None, now)
      && m' == m.(sessions := m.sessions[mac := m'.sessions[mac]])
  {}

  /** A session that is not used up gains exactly the amount, unless its allotment wraps around; then it gains less. */
  lemma ExtensionGains(s: Session, s': Session, amount: nat, secs: nat, id: Option<GrantId>, now: nat)
    requires Extended(s, s', amount, secs, id, now) && s.used <= s.allotment < U64
    ensures Left(s') == Left(s) + amount <==> s.allotment + amount < U64
    ensures Left(s') <= Left(s) + amount
  {}

  // ---------------------------------------------------------------- over every run

  /** A payment is added to the session of `mac`. */
  predicate Pays(a: Action, mac: Mac) {
    (a.LiveGrant? || a.Extend?) && a.mac == mac
  }

  /** The action leaves the session of `mac` alone, pays into it, or meters it. */
  predicate Spares(t: Timed, mac: Mac, expiry: nat) {
    match t.action
    case ReplayPayment(k, _, _, _, _) => k != mac
    case Grant(k, _, _, _, _) => k != mac
    case GrantOrRollBack(k, _, _, _, _, _) => k != mac
    case RecreateOrRollBack(k, _, _, _, _, _, _) => k != mac
    case RollBackLate(k, _) => k != mac
    case RevokeOne(k) => k != mac
    case CleanUp => t.now < expiry
    case Crash => false
    case _ => true
  }

  /** The session of `mac` is spared by every action; a clean-up comes only while it is unexpired. */
  predicate Spared(l: Ledger, ts: seq<Timed>, mac: Mac) {
    ts == [] ||
    var n := |ts| - 1;
    var ss := Run(l, ts[..n]).mem.sessions;
    Spared(l, ts[..n], mac) && mac in ss && Spares(ts[n], mac, ss[mac].expiry)
  }

  /** All payments into the session of `mac`. */
  function PaidIn(ts: seq<Timed>, mac: Mac): nat {
    if ts == [] then 0
    else
      var before, a := PaidIn(ts[..|ts| - 1], mac), ts[|ts| - 1].action;
      if Pays(a, mac) then before + V.Amount(a) else before
  }

  function MeteredBy(a: Action, mac: Mac, used: nat): nat {
    if a.SetUsage? && a.mac == mac then a.used else used
  }

  /** The usage last metered, if any was. */
  function Metered(ts: seq<Timed>, mac: Mac, used: nat): nat {
    if ts == [] then used else MeteredBy(ts[|ts| - 1].action, mac, Metered(ts[..|ts| - 1], mac, used))
  }

  lemma PaymentStep(l: Ledger, t: Timed, mac: Mac)
    requires mac in l.mem.sessions && Pays(t.action, mac)
    ensures var ss := Step(l, t).0.mem.sessions;
      && mac in ss && ss[mac].used == l.mem.sessions[mac].used && ss[mac].metric == l.mem.sessions[mac].metric
      && ss[mac].allotment == (l.mem.sessions[mac].allotment + V.Amount(t.action)) % U64
  {}

  lemma OtherStep(l: Ledger, t: Timed, mac: Mac)
    requires mac in l.mem.sessions && Spares(t, mac, l.mem.sessions[mac].expiry) && !Pays(t.action, mac)
    ensures var ss := Step(l, t).0.mem.sessions;
      && mac in ss && ss[mac].metric == l.mem.sessions[mac].metric
      && ss[mac].allotment == l.mem.sessions[mac].allotment
      && ss[mac].used == MeteredBy(t.action, mac, l.mem.sessions[mac].used)
  {
    var a := t.action;
    if a.SaveAll? {
      V.SaveLeavesSessions(l, t.now, a.fault);
    } else if a.GrantOrRollBack? || a.RecreateOrRollBack? {
      SavedStep(l, t, mac);
    }
  }

  lemma SavedStep(l: Ledger, t: Timed, mac: Mac)
    requires mac in l.mem.sessions && (t.action.GrantOrRollBack? || t.action.RecreateOrRollBack?) && t.action.mac != mac
    ensures var ss := Step(l, t).0.mem.sessions; mac in ss && ss[mac] == l.mem.sessions[mac]
  {
    var now, a := t.now, t.action;
    var m := if a.GrantOrRollBack? then ApplyGrantOnce(l.mem, a.mac, a.allotment, a.metric, a.secs, a.id, now)
      else Recreated(l.mem, a.mac, a.metric, a.amount, a.secs, a.id, a.replaceDead, now);
    assert mac in m.sessions && m.sessions[mac] == l.mem.sessions[mac];
    V.SaveLeavesSessions(l.(mem := m), now, a.fault);
  }

  lemma Grown(a: nat, b: nat, paid: nat, amount: nat)
    requires b % U64 == (a + paid) % U64
    ensures (b + amount) % U64 % U64 == (a + (paid + amount)) % U64
  {
    V.SumsAgree(b, a + paid, amount, amount);
  }

  /** The session of `mac` is `s` after payments of `paid`, with the given usage. */
  predicate Follows(s: Session, ss: map<Mac, Session>, mac: Mac, used: nat, paid: nat) {
    && mac in ss && ss[mac].metric == s.metric && ss[mac].used == used
    && ss[mac].allotment % U64 == (s.allotment + paid) % U64
  }

  lemma StepFollows(l: Ledger, t: Timed, mac: Mac, s: Session, used: nat, paid: nat)
    requires Follows(s, l.mem.sessions, mac, used, paid) && Spares(t, mac, l.mem.sessions[mac].expiry)
    ensures Follows(s, Step(l, t).0.mem.sessions, mac, MeteredBy(t.action, mac, used),
                    if Pays(t.action, mac) then paid + V.Amount(t.action) else paid)
  {
    if Pays(t.action, mac) {
      PaymentStep(l, t, mac);
      Grown(s.allotment, l.mem.sessions[mac].allotment, paid, V.Amount(t.action));
    } else {
      OtherStep(l, t, mac);
    }
  }

  /** Quota is conserved.  Whatever else happens, while the session of `mac` is spared its allotment is what it was and
      all payments since, as 64 bits hold it; what was used stays used unless it is metered anew; and the metric stays.
      No payment gives used quota back. */
  lemma {:induction false} QuotaConserved(l: Ledger, ts: seq<Timed>, mac: Mac)
    requires mac in l.mem.sessions && Spared(l, ts, mac)
    ensures var s, ss := l.mem.sessions[mac], Run(l, ts).mem.sessions;
      Follows(s, ss, mac, Metered(ts, mac, s.used), PaidIn(ts, mac))
  {
    if ts != [] {
      var n, s := |ts| - 1, l.mem.sessions[mac];
      QuotaConserved(l, ts[..n], mac);
      StepFollows(Run(l, ts[..n]), ts[n], mac, s, Metered(ts[..n], mac, s.used), PaidIn(ts[..n], mac));
    }
  }
}
